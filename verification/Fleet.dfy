/**
  The daemon's threads, interleaved: any number of boards, connection handlers
  (serial and flash), their relay pumps, the accept loop, the Supervisor and the main
  thread.

  Every critical section on a board is four separate steps -- take the lock,
  read the occupant, store the new one, drop the lock -- so nothing below is
  atomic that the program does not make atomic with `Board.lock`.  A bounded
  join is a step that may also fire before its target has exited.
 */
module Fleet {
  import opened Wrappers
  import opened Occupancy

  datatype Tid = Main | Supervisor | Acceptor | Handler(h: nat) | Pump(h: nat)

  /** Progress through one critical section. */
  datatype Phase =
    | Want
    | Held
    | Seen(occ: Option<nat>)
    | Stored(ok: bool, previous: Option<nat>)

  /** Where a connection handler is.  A victim is the session it displaced. */
  datatype Pc =
    | Start
    | Claiming(ph: Phase)
    | Stopping(victim: nat)
    | Shutting(victim: nat)
    | Joining(victim: nat)
    | Opening
    | Relaying
    | JoiningPump
    | Receiving
    | Flashing
    | Releasing(ph: Phase)
    | Closing
    | Done

  datatype PumpPc = Absent | Running | Ended

  /** `victim` and `gaveUp` only record what happened: whom this flash displaced,
      and whether its bounded join ran out first. */
  datatype Conn = Conn(kind: Kind, board: nat, pc: Pc, stop: bool, closed: bool, pump: PumpPc,
                       victim: Option<nat>, gaveUp: bool)

  /** `Swept` records whom the departure took from the board, if anyone. */
  datatype Departure = Live | Leaving | Swept(taken: Option<nat>)

  datatype BoardState = BoardState(occupant: Option<nat>, lock: Option<Tid>, departure: Departure)

  datatype SupPc =
    | Idle
    | Taking(board: nat, ph: Phase)
    | Stopping(victim: nat)
    | Shutting(victim: nat)
    | Joining(victim: nat)
    | Exited

  datatype MainPc = Serving | JoiningSupervisor | JoiningAcceptor | Finished

  datatype AcceptorPc = Accepting | Gone

  /** What the critical sections did to whom, in the order they did it. */
  datatype Event =
    | Claimed(board: nat, h: nat)
    | Released(board: nat, h: nat)
    | Ousted(board: nat, h: nat, who: Tid)

  /** `stopping` tells the Supervisor to end, `closing` the accept loop. */
  datatype State = State(boards: seq<BoardState>, conns: seq<Conn>, sup: SupPc, main: MainPc, acceptor: AcceptorPc,
                         stopping: bool, closing: bool, log: seq<Event>)

  const INIT := State([], [], Idle, Serving, Accepting, false, false, [])

  // ---------------------------------------------------------------------------
  // Steps
  // ---------------------------------------------------------------------------

  /** How the environment lets a step go: normally, with an error or refusal, or
      by letting a bounded join expire. */
  datatype Choice = Go | Fail | Timeout

  datatype Action =
    | Accept(kind: Kind, board: nat)
    | Arrive
    | Depart(board: nat)
    | Sup(c: Choice)
    | Signal
    | MainStep(c: Choice)
    | AcceptorStep(c: Choice)
    | Step(h: nat, c: Choice)
    | PumpStep(h: nat, c: Choice)

  predicate IsFlash(s: State, occ: Option<nat>) {
    occ.Some? && occ.value < |s.conns| && s.conns[occ.value].kind == Flash
  }

  /** The session events of storing under `op` having read `seen`. */
  function Events(b: nat, op: Op<nat>, who: Tid, seen: Option<nat>, d: Decision<nat>): seq<Event> {
    match op
    case Take => if seen.Some? then [Ousted(b, seen.value, who)] else []
    case Release(h) => if d.ok then [Released(b, h)] else []
    case ClaimSerial(h) => if d.ok then [Claimed(b, h)] else []
    case ClaimFlash(h) =>
      if !d.ok then []
      else (if seen.Some? then [Ousted(b, seen.value, who)] else []) + [Claimed(b, h)]
  }

  datatype Sect = Sect(ph: Phase, bs: BoardState, events: seq<Event>)

  /** One step inside a critical section of thread `t` on board `b`; `None` when
      the thread has to wait for the lock. */
  function SectionStep(s: State, t: Tid, b: nat, op: Op<nat>, ph: Phase): Option<Sect>
    requires b < |s.boards|
  {
    var bs := s.boards[b];
    match ph
    case Want => if bs.lock.Some? then None else Some(Sect(Held, bs.(lock := Some(t)), []))
    case Held => Some(Sect(Seen(bs.occupant), bs, []))
    case Seen(occ) =>
      var d := Decide(op, occ, IsFlash(s, occ));
      Some(Sect(Stored(d.ok, d.previous), bs.(occupant := d.occupant), Events(b, op, t, occ, d)))
    case Stored(_, _) => Some(Sect(ph, bs.(lock := None), []))
  }

  function SetPc(s: State, h: nat, pc: Pc): State
    requires h < |s.conns|
  {
    s.(conns := s.conns[h := s.conns[h].(pc := pc)])
  }

  function SetStop(s: State, v: nat): State {
    if v < |s.conns| then s.(conns := s.conns[v := s.conns[v].(stop := true)]) else s
  }

  function SetClosed(s: State, v: nat): State {
    if v < |s.conns| then s.(conns := s.conns[v := s.conns[v].(closed := true)]) else s
  }

  predicate HasExited(s: State, h: nat) {
    h < |s.conns| && s.conns[h].pc == Done
  }

  /** After `claim_serial`/`claim_flash` has dropped the lock. */
  function AfterClaim(k: Kind, ok: bool, previous: Option<nat>): Pc {
    if !ok then Closing
    else if k == Serial then Opening
    else if previous.Some? then Pc.Stopping(previous.value)
    else Receiving
  }

  function ClaimOp(k: Kind, h: nat): Op<nat> {
    if k == Serial then ClaimSerial(h) else ClaimFlash(h)
  }

  function Claim(s: State, h: nat, ph: Phase): Option<State>
    requires h < |s.conns| && s.conns[h].board < |s.boards|
  {
    var c := s.conns[h];
    match SectionStep(s, Handler(h), c.board, ClaimOp(c.kind, h), ph)
    case None => None
    case Some(r) =>
      var c' := if ph.Stored? then c.(pc := AfterClaim(c.kind, ph.ok, ph.previous), victim := ph.previous)
                else c.(pc := Claiming(r.ph));
      Some(s.(boards := s.boards[c.board := r.bs], conns := s.conns[h := c'], log := s.log + r.events))
  }

  function Letgo(s: State, h: nat, ph: Phase): Option<State>
    requires h < |s.conns| && s.conns[h].board < |s.boards|
  {
    var c := s.conns[h];
    match SectionStep(s, Handler(h), c.board, Release(h), ph)
    case None => None
    case Some(r) =>
      var c' := c.(pc := if ph.Stored? then Closing else Releasing(r.ph));
      Some(s.(boards := s.boards[c.board := r.bs], conns := s.conns[h := c'], log := s.log + r.events))
  }

  /** One step of connection handler `h` (`serve_serial` or `serve_flash`). */
  function HandlerStep(s: State, h: nat, ch: Choice): Option<State>
    requires h < |s.conns| && s.conns[h].board < |s.boards|
  {
    var c := s.conns[h];
    match c.pc
    case Start => Some(SetPc(s, h, if ch == Go then Claiming(Want) else Closing))
    case Claiming(ph) => Claim(s, h, ph)
    case Stopping(v) => Some(SetPc(SetStop(s, v), h, Pc.Shutting(v)))
    case Shutting(v) => Some(SetPc(SetClosed(s, v), h, Pc.Joining(v)))
    case Joining(v) =>
      if HasExited(s, v) then Some(SetPc(s, h, Receiving))
      else if ch == Timeout then Some(s.(conns := s.conns[h := c.(pc := Receiving, gaveUp := true)]))
      else None
    case Opening =>
      Some(s.(conns := s.conns[h := if ch == Go then c.(pc := Relaying, pump := Running)
                                    else c.(pc := Releasing(Want))]))
    case Relaying =>
      if c.stop || ch == Fail then Some(s.(conns := s.conns[h := c.(pc := JoiningPump, stop := true)]))
      else Some(s)
    case JoiningPump =>
      if c.pump != Running || ch == Timeout then Some(SetPc(s, h, Releasing(Want))) else None
    case Receiving => Some(SetPc(s, h, if ch == Go then Flashing else Releasing(Want)))
    case Flashing => Some(SetPc(s, h, Releasing(Want)))
    case Releasing(ph) => Letgo(s, h, ph)
    case Closing => Some(s.(conns := s.conns[h := c.(pc := Done, closed := true)]))
    case Done => None
  }

  /** One step of the relay's reader thread. */
  function PumpThreadStep(s: State, h: nat, ch: Choice): Option<State>
    requires h < |s.conns|
  {
    var c := s.conns[h];
    if c.pump != Running then None
    else if c.stop || ch == Fail then Some(s.(conns := s.conns[h := c.(pump := Ended, stop := true)]))
    else Some(s)
  }

  /** One step of the Supervisor thread, other than starting an arrival or a departure. */
  function SupervisorStep(s: State, ch: Choice): Option<State> {
    match s.sup
    case Idle => if s.stopping then Some(s.(sup := SupPc.Exited)) else Some(s)
    case Taking(b, ph) =>
      if b >= |s.boards| then None else
      (match SectionStep(s, Supervisor, b, Take, ph)
       case None => None
       case Some(r) =>
         var bs := if ph.Seen? then r.bs.(departure := Swept(ph.occ)) else r.bs;
         var sup := if !ph.Stored? then Taking(b, r.ph)
                    else if ph.previous.Some? then SupPc.Stopping(ph.previous.value) else Idle;
         Some(s.(boards := s.boards[b := bs], sup := sup, log := s.log + r.events)))
    case Stopping(v) => Some(SetStop(s, v).(sup := SupPc.Shutting(v)))
    case Shutting(v) => Some(SetClosed(s, v).(sup := SupPc.Joining(v)))
    case Joining(v) => if HasExited(s, v) || ch == Timeout then Some(s.(sup := Idle)) else None
    case Exited => None
  }

  function MainThreadStep(s: State, ch: Choice): Option<State> {
    match s.main
    case Serving => Some(s)
    case JoiningSupervisor =>
      if s.sup == SupPc.Exited || ch == Timeout then Some(s.(main := JoiningAcceptor, closing := true)) else None
    case JoiningAcceptor =>
      if s.acceptor == Gone || ch == Timeout then Some(s.(main := Finished)) else None
    case Finished => None
  }

  /** The accept loop goes round, or ends once it has been told to. */
  function AcceptorThreadStep(s: State): Option<State> {
    if s.acceptor == Gone then None
    else Some(s.(acceptor := if s.closing then Gone else Accepting))
  }

  /** The state after `a`, or `None` where `a` cannot happen. */
  function Next(s: State, a: Action): Option<State> {
    match a
    case Accept(k, b) =>
      if b < |s.boards| && s.acceptor == Accepting
      then Some(s.(conns := s.conns + [Conn(k, b, Start, false, false, Absent, None, false)])) else None
    case Arrive =>
      if s.sup == Idle then Some(s.(boards := s.boards + [BoardState(None, None, Live)])) else None
    case Depart(b) =>
      if s.sup == Idle && b < |s.boards| && s.boards[b].departure == Live
      then Some(s.(sup := Taking(b, Want), boards := s.boards[b := s.boards[b].(departure := Leaving)]))
      else None
    case Sup(c) => SupervisorStep(s, c)
    case Signal => if s.main == Serving then Some(s.(stopping := true, main := JoiningSupervisor)) else None
    case MainStep(c) => MainThreadStep(s, c)
    case AcceptorStep(c) => AcceptorThreadStep(s)
    case Step(h, c) =>
      if h < |s.conns| && s.conns[h].board < |s.boards| then HandlerStep(s, h, c) else None
    case PumpStep(h, c) => if h < |s.conns| then PumpThreadStep(s, h, c) else None
  }

  /** The state after a whole run from `s`, or `None` if some action was impossible. */
  function Run(s: State, run: seq<Action>): Option<State>
    decreases |run|
  {
    if run == [] then Some(s)
    else match Next(s, run[0])
         case None => None
         case Some(s') => Run(s', run[1..])
  }
}
