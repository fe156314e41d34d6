/** The raw byte relay of a serial session: a pump thread (port to socket) and the handler's
    own loop (socket to port), interleaved, sharing a stop flag that anyone may raise. */
module Relay {
  import opened Wrappers

  /** One direction: look at the stop flag, take a chunk, give it away. */
  datatype Pc = Looking | Taking | Giving | Out

  /** `earlier + last` are all bytes taken; `late` counts chunks taken, and `lateOut`
      chunks given away in whole or in part, after the stop flag went up. */
  datatype Direction = Direction(pc: Pc, earlier: string, last: string, delivered: string, late: nat, lateOut: nat)

  /** What the environment answers: bytes (possibly none), or an error -- when giving,
      after `n` bytes of the chunk. */
  datatype Answer = Bytes(data: string) | Error(n: nat)

  datatype After = Going | Returning | Returned

  /** `after` is where the handler is once its loop is over. */
  datatype State = State(pump: Direction, loop: Direction, stop: bool, after: After)

  const START := Direction(Looking, "", "", "", 0, 0)
  const INIT := State(START, START, false, Going)

  function Taken(d: Direction): string {
    d.earlier + d.last
  }

  /** One step of one direction. */
  function Move(d: Direction, stop: bool, a: Answer): Direction {
    match d.pc
    case Looking => d.(pc := if stop then Out else Taking)
    case Taking =>
      if a.Error? then d.(pc := Out)
      else if a.data == "" then d.(pc := Looking)
      else d.(pc := Giving, earlier := Taken(d), last := a.data, late := d.late + if stop then 1 else 0)
    case Giving =>
      var lateOut := d.lateOut + if stop then 1 else 0;
      if a.Bytes? then d.(pc := Looking, delivered := d.delivered + d.last, lateOut := lateOut)
      else
        var n := if a.n <= |d.last| then a.n else |d.last|;
        d.(pc := Out, delivered := d.delivered + d.last[..n], lateOut := lateOut)
    case Out => d
  }

  datatype Action = PumpMoves(a: Answer) | LoopMoves(a: Answer) | Stop | Finish(timedOut: bool)

  function Next(s: State, a: Action): Option<State> {
    match a
    case PumpMoves(ans) =>
      if s.pump.pc == Out then None
      else Some(s.(pump := Move(s.pump, s.stop, ans),
                   stop := s.stop || (s.pump.pc != Looking && ans.Error?)))
    case LoopMoves(ans) =>
      if s.loop.pc == Out then None else Some(s.(loop := Move(s.loop, s.stop, ans)))
    case Stop => Some(s.(stop := true))
    case Finish(timedOut) =>
      if s.loop.pc != Out || s.after == Returned then None
      else if s.after == Going then Some(s.(stop := true, after := Returning))
      else if s.pump.pc == Out || timedOut then Some(s.(after := Returned))
      else None
  }

  function Run(s: State, run: seq<Action>): Option<State>
    decreases |run|
  {
    if run == [] then Some(s)
    else match Next(s, run[0])
         case None => None
         case Some(s') => Run(s', run[1..])
  }

  ghost predicate DirectionOk(d: Direction, stop: bool) {
    && (match d.pc
        case Giving => d.delivered == d.earlier
        case Out => d.earlier <= d.delivered <= Taken(d)
        case _ => d.delivered == Taken(d))
    && d.late <= 1 && d.lateOut <= 1
    && (!stop || d.pc == Taking || d.pc == Giving ==> d.lateOut == 0)
    && (!stop || d.pc == Taking ==> d.late == 0)
  }

  ghost predicate Inv(s: State) {
    && DirectionOk(s.pump, s.stop) && DirectionOk(s.loop, s.stop)
    && (s.after != Going ==> s.stop && s.loop.pc == Out)
    && (s.pump.pc == Out ==> s.stop)
  }

  lemma MoveKeeps(d: Direction, stop: bool, a: Answer, stop': bool)
    requires DirectionOk(d, stop) && (stop ==> stop') && (stop' ==> stop || (d.pc != Looking && a.Error?))
    ensures DirectionOk(Move(d, stop, a), stop')
  {
    assert d.earlier + d.last[..|d.last|] == Taken(d);
    if d.pc == Giving && a.Error? {
      var n := if a.n <= |d.last| then a.n else |d.last|;
      assert d.last == d.last[..n] + d.last[n..];
      assert d.earlier + d.last[..n] + d.last[n..] == Taken(d);
    }
  }

  lemma {:induction false} RunKeeps(s: State, run: seq<Action>)
    requires Inv(s) && Run(s, run).Some?
    ensures Inv(Run(s, run).value)
    decreases |run|
  {
    if run != [] {
      var s' := Next(s, run[0]).value;
      if run[0].PumpMoves? {
        MoveKeeps(s.pump, s.stop, run[0].a, s'.stop);
      } else if run[0].LoopMoves? {
        MoveKeeps(s.loop, s.stop, run[0].a, s'.stop);
      }
      RunKeeps(s', run[1..]);
    }
  }

  /** Either way, what is delivered is what was taken, but for a part of the last
      chunk at most; and once the stop flag is up no more than one chunk is taken, and
      no more than one delivered. */
  lemma RelaysFaithfully(run: seq<Action>, pump: bool)
    requires Run(INIT, run).Some?
    ensures var s := Run(INIT, run).value; var d := if pump then s.pump else s.loop;
            d.earlier <= d.delivered <= Taken(d) && d.late <= 1 && d.lateOut <= 1
  {
    RunKeeps(INIT, run);
    var s := Run(INIT, run).value;
    var d := if pump then s.pump else s.loop;
    assert d.earlier + d.last[..0] == d.earlier;
    assert d.earlier <= Taken(d);
  }

  /** However the relay ends, it leaves the stop flag up. */
  lemma ReturnsStopped(run: seq<Action>)
    requires Run(INIT, run).Some? && Run(INIT, run).value.after == Returned
    ensures Run(INIT, run).value.stop
  {
    RunKeeps(INIT, run);
  }

  /** A direction goes on until it finds the flag up or one of its two sides fails;
      silence does not end it. */
  lemma EndsOnlyOnStopOrError(d: Direction, stop: bool, a: Answer)
    requires d.pc != Out
    ensures Move(d, stop, a).pc == Out <==> if d.pc == Looking then stop else a.Error?
  {
  }

  /** A chunk that goes out counts whole, one that breaks off as far as it went, and
      nothing else is delivered. */
  lemma DeliversWhatWentOut(d: Direction, stop: bool, a: Answer)
    requires a.Error? ==> a.n <= |d.last|
    ensures Move(d, stop, a).delivered
            == d.delivered + if d.pc != Giving then "" else if a.Bytes? then d.last else d.last[..a.n]
  {
  }

  /** Once the pump has ended the flag is up, so that the handler's loop ends too; and
      once that has ended the flag comes up at the next step, for the pump. */
  lemma EitherEndsBoth(run: seq<Action>, timedOut: bool)
    requires Run(INIT, run).Some?
    ensures var s := Run(INIT, run).value;
            && (s.pump.pc == Out ==> s.stop)
            && (s.loop.pc == Out && s.after == Going ==>
                  Next(s, Finish(timedOut)) == Some(s.(stop := true, after := Returning)))
  {
    RunKeeps(INIT, run);
  }

  /** Unless its join runs out, the relay returns with both directions ended. */
  lemma {:induction false} ReturnsAfterPump(s: State, run: seq<Action>)
    requires Inv(s) && (s.after == Returned ==> s.pump.pc == Out) && Run(s, run).Some? && Finish(true) !in run
    ensures var e := Run(s, run).value; e.after == Returned ==> e.pump.pc == Out && e.loop.pc == Out
    decreases |run|
  {
    if run != [] {
      RunKeeps(s, run[..1]);
      assert run[..1][1..] == [];
      assert run[..1][0] == run[0];
      ReturnsAfterPump(Next(s, run[0]).value, run[1..]);
    }
  }

  /** Steps a direction has left once the stop flag is up. */
  function Left(pc: Pc): nat {
    match pc
    case Taking => 3
    case Giving => 2
    case Looking => 1
    case Out => 0
  }

  /** Once the flag is up, each step of a direction brings it nearer its end. */
  lemma StoppedDirectionsEnd(s: State, a: Action)
    requires s.stop && Next(s, a).Some? && (a.PumpMoves? || a.LoopMoves?)
    ensures var s' := Next(s, a).value;
            && s'.stop
            && Left(s'.pump.pc) + Left(s'.loop.pc) < Left(s.pump.pc) + Left(s.loop.pc)
  {
  }
}
