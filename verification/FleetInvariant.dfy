/**
  What holds of every session in every interleaving: who may be running on a board
  without occupying it, and who still owes that session a `terminate`.

  The log of claims, releases and displacements is the history.  A session between its
  claim and its release has claimed the board and nothing more, or was also displaced,
  exactly once, by the thread that the log names.  A board's occupant is the session
  whose story is a claim alone.  A displaced session has its stop flag up, or the thread
  that displaced it is still on its way to raise it; a flash past its join has told its
  victim to stop, closed its connection, and seen it exit or given up on it.

  Here are the invariant and one lemma after the other for what each kind of step does
  to it.
 */
module FleetInvariant {
  import opened Wrappers
  import opened Occupancy
  import opened Fleet

  // ---------------------------------------------------------------------------
  // Histories
  // ---------------------------------------------------------------------------

  /** Everything the log says about session `h`, in order. */
  ghost function Story(log: seq<Event>, h: nat): seq<Event> {
    if log == [] then []
    else Story(log[..|log| - 1], h) + (if log[|log| - 1].h == h then [log[|log| - 1]] else [])
  }

  datatype Tag = ClaimTag | ReleaseTag | PreemptTag | TakeTag

  function TagOf(e: Event): Tag {
    match e
    case Claimed(_, _) => ClaimTag
    case Released(_, _) => ReleaseTag
    case Ousted(_, _, who) => if who == Supervisor then TakeTag else PreemptTag
  }

  /** How many events of one kind the log holds for board `b`. */
  ghost function Count(log: seq<Event>, b: nat, tag: Tag): nat {
    if log == [] then 0
    else Count(log[..|log| - 1], b, tag)
         + (if log[|log| - 1].board == b && TagOf(log[|log| - 1]) == tag then 1 else 0)
  }

  lemma Snoc(log: seq<Event>, e: Event)
    ensures forall h :: Story(log + [e], h) == Story(log, h) + (if e.h == h then [e] else [])
    ensures forall b, tag :: Count(log + [e], b, tag)
                          == Count(log, b, tag) + (if e.board == b && TagOf(e) == tag then 1 else 0)
  {
    assert (log + [e])[..|log|] == log;
  }

  lemma {:induction false} Unmentioned(log: seq<Event>, h: nat)
    requires forall e :: e in log ==> e.h != h
    ensures Story(log, h) == []
  {
    if log != [] {
      Unmentioned(log[..|log| - 1], h);
    }
  }

  lemma {:induction false} Uncounted(log: seq<Event>, b: nat, tag: Tag)
    requires forall e :: e in log ==> e.board != b
    ensures Count(log, b, tag) == 0
  {
    if log != [] {
      Uncounted(log[..|log| - 1], b, tag);
    }
  }

  // ---------------------------------------------------------------------------
  // The invariant
  // ---------------------------------------------------------------------------

  predicate Early(pc: Pc) {
    pc.Start? || (pc.Claiming? && !(pc.ph.Stored? && pc.ph.ok))
  }

  /** Between a successful claim and the store of its release. */
  predicate Holding(pc: Pc) {
    !Early(pc) && !Late(pc)
  }

  predicate Late(pc: Pc) {
    pc.Closing? || pc.Done? || (pc.Releasing? && pc.ph.Stored?)
  }

  predicate Locked(pc: Pc) {
    (pc.Claiming? || pc.Releasing?) && !pc.ph.Want?
  }

  predicate InSection(s: State, t: Tid, b: nat) {
    match t
    case Handler(h) => h < |s.conns| && s.conns[h].board == b && Locked(s.conns[h].pc)
    case Supervisor => s.sup.Taking? && s.sup.board == b && !s.sup.ph.Want?
    case _ => false
  }

  /** Thread `t` has still to raise the stop flag of session `v`. */
  predicate Obliged(s: State, t: Tid, v: nat) {
    match t
    case Handler(f) =>
      f < |s.conns|
      && (s.conns[f].pc == Pc.Stopping(v)
          || (s.conns[f].pc.Claiming? && s.conns[f].pc.ph.Stored? && s.conns[f].pc.ph.previous == Some(v)))
    case Supervisor =>
      s.sup == SupPc.Stopping(v) || (s.sup.Taking? && s.sup.ph.Stored? && s.sup.ph.previous == Some(v))
    case _ => false
  }

  ghost predicate Occupies(s: State, h: nat)
    requires h < |s.conns|
  {
    Story(s.log, h) == [Claimed(s.conns[h].board, h)]
  }

  ghost predicate WasReleased(s: State, h: nat)
    requires h < |s.conns|
  {
    Story(s.log, h) == [Claimed(s.conns[h].board, h), Released(s.conns[h].board, h)]
  }

  ghost predicate WasOusted(s: State, h: nat, t: Tid)
    requires h < |s.conns|
  {
    Story(s.log, h) == [Claimed(s.conns[h].board, h), Ousted(s.conns[h].board, h, t)]
  }

  /** Displaced exactly once, by whomever the log says. */
  ghost predicate IsOusted(s: State, h: nat)
    requires h < |s.conns|
  {
    |Story(s.log, h)| == 2 && Story(s.log, h)[1].Ousted? && WasOusted(s, h, Story(s.log, h)[1].who)
  }

  ghost predicate StoryOk(s: State, h: nat)
    requires h < |s.conns|
  {
    var pc := s.conns[h].pc;
    && (Early(pc) ==> Story(s.log, h) == [])
    && (Holding(pc) ==> Occupies(s, h) || IsOusted(s, h))
    && (Late(pc) ==> Story(s.log, h) == [] || WasReleased(s, h) || IsOusted(s, h))
  }

  /** `f` is the flash that displaced session `v`: it says so from the store of its
      claim on, for good. */
  predicate Displaced(s: State, f: nat, v: nat) {
    && f < |s.conns|
    && (s.conns[f].victim == Some(v)
        || (s.conns[f].pc.Claiming? && s.conns[f].pc.ph.Stored? && s.conns[f].pc.ph.previous == Some(v)))
  }

  /** An ousted session has its stop flag up or its ouster still owes it; only a
      flash preempts, only a serial session is preempted, and a departure ousts once. */
  ghost predicate OustedOk(s: State, h: nat, t: Tid)
    requires h < |s.conns| && s.conns[h].board < |s.boards|
  {
    var c := s.conns[h];
    && (c.stop || Obliged(s, t, h))
    && match t
       case Handler(f) =>
         && Displaced(s, f, h)
         && f != h && c.kind == Serial && s.conns[f].kind == Flash && s.conns[f].board == c.board
       case Supervisor => s.boards[c.board].departure == Swept(Some(h))
       case _ => false
  }

  ghost predicate VictimOk(s: State, f: nat, v: nat)
    requires f < |s.conns|
  {
    && v < |s.conns|
    && s.conns[f].kind == Flash && s.conns[v].kind == Serial
    && s.conns[v].board == s.conns[f].board
    && WasOusted(s, v, Handler(f))
  }

  /** The part of the invariant that speaks of one handler's program counter. */
  ghost predicate PcOk(s: State, h: nat)
    requires h < |s.conns| && s.conns[h].board < |s.boards|
  {
    var c := s.conns[h];
    && (Locked(c.pc) ==> s.boards[c.board].lock == Some(Handler(h)))
    && ((c.pc.Claiming? || c.pc.Releasing?) && c.pc.ph.Seen? ==> c.pc.ph.occ == s.boards[c.board].occupant)
    && (c.pc.Claiming? && c.pc.ph.Stored? && c.pc.ph.previous.Some? ==>
          c.pc.ph.ok && VictimOk(s, h, c.pc.ph.previous.value))
    && (c.pc.Stopping? || c.pc.Shutting? || c.pc.Joining? ==> c.kind == Flash && c.victim == Some(c.pc.victim))
    && (c.pc.Receiving? || c.pc.Flashing? ==> c.kind == Flash)
    && (c.pc.Opening? || c.pc.Relaying? || c.pc.JoiningPump? ==> c.kind == Serial)
    && (c.pc.Start? || c.pc.Claiming? ==> c.victim == None)
    && (c.pc == Done ==> c.closed)
  }

  /** How far `h` has got with the session it displaced. */
  ghost predicate VictimProgress(s: State, h: nat, v: nat)
    requires h < |s.conns|
  {
    var c := s.conns[h];
    && VictimOk(s, h, v)
    && (!c.pc.Stopping? ==> s.conns[v].stop)
    && (!c.pc.Stopping? && !c.pc.Shutting? ==> s.conns[v].closed)
    && (!c.pc.Stopping? && !c.pc.Shutting? && !c.pc.Joining? ==> c.gaveUp || HasExited(s, v))
  }

  ghost predicate ConnOk(s: State, h: nat)
    requires h < |s.conns|
  {
    && s.conns[h].board < |s.boards|
    && StoryOk(s, h)
    && (s.boards[s.conns[h].board].occupant == Some(h) <==> Occupies(s, h))
    && (IsOusted(s, h) ==> OustedOk(s, h, Story(s.log, h)[1].who))
    && PcOk(s, h)
    && (s.conns[h].victim.Some? ==> VictimProgress(s, h, s.conns[h].victim.value))
  }

  ghost predicate Balanced(s: State, b: nat)
    requires b < |s.boards|
  {
    Count(s.log, b, ClaimTag)
    == Count(s.log, b, ReleaseTag) + Count(s.log, b, PreemptTag) + Count(s.log, b, TakeTag)
       + (if s.boards[b].occupant.Some? then 1 else 0)
  }

  ghost predicate BoardOk(s: State, b: nat)
    requires b < |s.boards|
  {
    var bs := s.boards[b];
    && (bs.occupant.Some? ==> bs.occupant.value < |s.conns| && s.conns[bs.occupant.value].board == b)
    && (bs.lock.Some? ==> InSection(s, bs.lock.value, b))
    && (bs.departure == Leaving ==> s.sup.Taking? && s.sup.board == b && !s.sup.ph.Stored?)
    && (bs.departure.Swept? && bs.departure.taken.Some? ==>
          bs.departure.taken.value < |s.conns| && s.conns[bs.departure.taken.value].board == b
          && WasOusted(s, bs.departure.taken.value, Supervisor))
    && Balanced(s, b)
  }

  ghost predicate SupVictimOk(s: State, v: nat) {
    v < |s.conns| && WasOusted(s, v, Supervisor)
  }

  ghost predicate SupOk(s: State) {
    match s.sup
    case Taking(b, ph) =>
      && b < |s.boards|
      && (!ph.Want? ==> s.boards[b].lock == Some(Supervisor))
      && (ph.Seen? ==> ph.occ == s.boards[b].occupant)
      && (!ph.Stored? ==> s.boards[b].departure == Leaving)
      && (ph.Stored? && ph.previous.Some? ==> SupVictimOk(s, ph.previous.value))
    case Stopping(v) => SupVictimOk(s, v)
    case Shutting(v) => SupVictimOk(s, v) && s.conns[v].stop
    case Joining(v) => SupVictimOk(s, v) && s.conns[v].stop && s.conns[v].closed
    case _ => true
  }

  ghost predicate LogOk(s: State) {
    forall e :: e in s.log ==> e.h < |s.conns| && e.board < |s.boards|
  }

  ghost predicate Inv(s: State) {
    && LogOk(s)
    && SupOk(s)
    && (forall h :: 0 <= h < |s.conns| ==> ConnOk(s, h))
    && (forall b :: 0 <= b < |s.boards| ==> BoardOk(s, b))
  }

  // ---------------------------------------------------------------------------
  // Preservation
  // ---------------------------------------------------------------------------

  lemma AcceptKeeps(s: State, k: Kind, b: nat)
    requires Inv(s) && Next(s, Accept(k, b)).Some?
    ensures Inv(Next(s, Accept(k, b)).value)
  {
    hide Story;
    hide Count;
    var s' := Next(s, Accept(k, b)).value;
    Unmentioned(s.log, |s.conns|);
    assert BoardOk(s, b);
    forall h | 0 <= h < |s'.conns| ensures ConnOk(s', h) {
      if h < |s.conns| {
        assert ConnOk(s, h);
      }
    }
    forall x | 0 <= x < |s'.boards| ensures BoardOk(s', x) {
      assert BoardOk(s, x);
    }
  }

  lemma ArriveKeeps(s: State)
    requires Inv(s) && s.sup == Idle
    ensures Inv(Next(s, Arrive).value)
  {
    hide Story;
    hide Count;
    var s' := Next(s, Arrive).value;
    forall h | 0 <= h < |s'.conns| ensures ConnOk(s', h) {
      assert ConnOk(s, h);
    }
    forall x | 0 <= x < |s'.boards| ensures BoardOk(s', x) {
      if x < |s.boards| {
        assert BoardOk(s, x);
      } else {
        Uncounted(s.log, x, ClaimTag);
        Uncounted(s.log, x, ReleaseTag);
        Uncounted(s.log, x, PreemptTag);
        Uncounted(s.log, x, TakeTag);
      }
    }
  }

  lemma DepartKeeps(s: State, b: nat)
    requires Inv(s) && Next(s, Depart(b)).Some?
    ensures Inv(Next(s, Depart(b)).value)
  {
    hide Story;
    hide Count;
    var s' := Next(s, Depart(b)).value;
    forall h | 0 <= h < |s'.conns| ensures ConnOk(s', h) {
      assert ConnOk(s, h);
    }
    forall x | 0 <= x < |s'.boards| ensures BoardOk(s', x) {
      assert BoardOk(s, x);
    }
  }

  /** The Supervisor takes or drops a lock, reads an occupant, or goes on to its
      victim: nothing the sessions can see. */
  lemma SupervisorMoves(s: State, c: Choice)
    requires Inv(s) && Next(s, Sup(c)).Some?
    requires s.sup.Taking? && !s.sup.ph.Seen?
    ensures Inv(Next(s, Sup(c)).value)
  {
    hide Story;
    hide Count;
    var s' := Next(s, Sup(c)).value;
    assert s'.log == s.log;
    forall h | 0 <= h < |s'.conns| ensures ConnOk(s', h) {
      assert ConnOk(s, h);
    }
    forall x | 0 <= x < |s'.boards| ensures BoardOk(s', x) {
      assert BoardOk(s, x);
    }
  }

  lemma ProgressIsOk(s: State, x: nat, v: nat)
    requires x < |s.conns|
    ensures VictimProgress(s, x, v) ==> VictimOk(s, x, v)
  {
  }

  /** `h` moves on without dropping a lock or an obligation, and its flags only go up. */
  ghost predicate MayMove(s: State, h: nat, c': Conn) {
    && h < |s.conns|
    && var c := s.conns[h];
       && c'.kind == c.kind && c'.board == c.board && c'.victim == c.victim
       && (c.stop ==> c'.stop) && (c.closed ==> c'.closed)
       && (c.pc == Done ==> c'.pc == Done)
       && (Locked(c.pc) ==> Locked(c'.pc))
       && (c'.pc == c.pc || !(c.pc.Stopping? || (c.pc.Claiming? && c.pc.ph.Stored?)))
  }

  function Moved(s: State, h: nat, c': Conn): State
    requires h < |s.conns|
  {
    s.(conns := s.conns[h := c'])
  }

  lemma MoveOusted(s: State, h: nat, c': Conn, x: nat)
    requires MayMove(s, h, c') && x < |s.conns| && x != h && s.conns[x].board < |s.boards|
    requires IsOusted(s, x) && OustedOk(s, x, Story(s.log, x)[1].who)
    ensures OustedOk(Moved(s, h, c'), x, Story(s.log, x)[1].who)
  {
    hide Story;
    hide Count;
  }

  lemma MoveVictim(s: State, h: nat, c': Conn, x: nat, v: nat)
    requires MayMove(s, h, c') && x < |s.conns| && x != h && VictimOk(s, x, v)
    ensures VictimOk(Moved(s, h, c'), x, v)
    ensures VictimProgress(s, x, v) ==> VictimProgress(Moved(s, h, c'), x, v)
  {
    hide Story;
    hide Count;
  }

  lemma MoveOther(s: State, h: nat, c': Conn, x: nat)
    requires Inv(s) && MayMove(s, h, c') && x < |s.conns| && x != h
    ensures ConnOk(Moved(s, h, c'), x)
  {
    hide Story;
    hide Count;
    hide VictimProgress;
    hide OustedOk;
    assert ConnOk(s, x);
    hide Inv;
    if IsOusted(s, x) {
      MoveOusted(s, h, c', x);
    }
    if s.conns[x].victim.Some? {
      ProgressIsOk(s, x, s.conns[x].victim.value);
      MoveVictim(s, h, c', x, s.conns[x].victim.value);
    }
    var pc := s.conns[x].pc;
    if pc.Claiming? && pc.ph.Stored? && pc.ph.previous.Some? {
      MoveVictim(s, h, c', x, pc.ph.previous.value);
    }
    hide VictimOk;
    assert PcOk(Moved(s, h, c'), x);
  }

  lemma MoveSupervisor(s: State, h: nat, c': Conn)
    requires SupOk(s) && MayMove(s, h, c')
    ensures SupOk(Moved(s, h, c'))
  {
    hide Story;
    hide Count;
  }

  /** A step that only moves one connection keeps everyone else's part of the
      invariant, as long as flags only go up and no lock or obligation is dropped. */
  lemma LocalStepKeeps(s: State, h: nat, c': Conn)
    requires Inv(s) && MayMove(s, h, c')
    requires ConnOk(Moved(s, h, c'), h)
    ensures Inv(Moved(s, h, c'))
  {
    hide Story;
    hide Count;
    var s' := Moved(s, h, c');
    MoveSupervisor(s, h, c');
    hide SupOk;
    forall x | 0 <= x < |s'.conns| ensures ConnOk(s', x) {
      if x != h {
        MoveOther(s, h, c', x);
      }
    }
    forall x | 0 <= x < |s'.boards| ensures BoardOk(s', x) {
      assert BoardOk(s, x);
    }
    hide ConnOk;
  }

  /** The state after the departure of board `b` has taken session `v` from it. */
  function SweptState(s: State, b: nat, v: nat): State
    requires b < |s.boards|
  {
    s.(boards := s.boards[b := s.boards[b].(occupant := None, departure := Swept(Some(v)))],
       sup := Taking(b, Stored(true, Some(v))),
       log := s.log + [Ousted(b, v, Supervisor)])
  }

  lemma SweepVictim(s: State, b: nat, v: nat)
    requires Inv(s) && s.sup.Taking? && s.sup.board == b && s.sup.ph == Seen(Some(v))
    requires v < |s.conns|
    ensures ConnOk(SweptState(s, b, v), v)
    ensures SupOk(SweptState(s, b, v))
  {
    hide Story;
    hide Count;
    assert BoardOk(s, b) && ConnOk(s, v);
    Snoc(s.log, Ousted(b, v, Supervisor));
  }

  lemma SweepOther(s: State, b: nat, v: nat, h: nat)
    requires Inv(s) && s.sup.Taking? && s.sup.board == b && s.sup.ph == Seen(Some(v))
    requires h < |s.conns| && h != v
    ensures ConnOk(SweptState(s, b, v), h)
  {
    hide Story;
    hide Count;
    var s' := SweptState(s, b, v);
    assert BoardOk(s, b) && ConnOk(s, v) && ConnOk(s, h);
    Snoc(s.log, Ousted(b, v, Supervisor));
    assert Story(s'.log, h) == Story(s.log, h);
    assert PcOk(s', h);
  }

  lemma SweepBoard(s: State, b: nat, v: nat, x: nat)
    requires Inv(s) && s.sup.Taking? && s.sup.board == b && s.sup.ph == Seen(Some(v))
    requires x < |s.boards|
    ensures BoardOk(SweptState(s, b, v), x)
  {
    hide Story;
    hide Count;
    assert BoardOk(s, b) && BoardOk(s, x);
    assert ConnOk(s, v);
    Snoc(s.log, Ousted(b, v, Supervisor));
  }

  lemma SweepTakes(s: State, b: nat, v: nat)
    requires Inv(s) && s.sup.Taking? && s.sup.board == b && s.sup.ph == Seen(Some(v))
    ensures Inv(SweptState(s, b, v))
  {
    hide Story;
    hide Count;
    var s' := SweptState(s, b, v);
    assert BoardOk(s, b);
    SweepVictim(s, b, v);
    forall h | 0 <= h < |s'.conns| ensures ConnOk(s', h) {
      if h != v {
        SweepOther(s, b, v, h);
      }
    }
    forall x | 0 <= x < |s'.boards| ensures BoardOk(s', x) {
      SweepBoard(s, b, v, x);
    }
  }

  /** The departure finds the board idle. */
  lemma SweepFindsNobody(s: State, b: nat)
    requires Inv(s) && s.sup.Taking? && s.sup.board == b && s.sup.ph == Seen(None)
    ensures Inv(s.(boards := s.boards[b := s.boards[b].(occupant := None, departure := Swept(None))],
                   sup := Taking(b, Stored(true, None))))
  {
    hide Story;
    hide Count;
    var s' := s.(boards := s.boards[b := s.boards[b].(occupant := None, departure := Swept(None))],
                 sup := Taking(b, Stored(true, None)));
    forall h | 0 <= h < |s'.conns| ensures ConnOk(s', h) {
      assert ConnOk(s, h);
    }
    forall x | 0 <= x < |s'.boards| ensures BoardOk(s', x) {
      assert BoardOk(s, x);
    }
  }

  lemma SweepKeeps(s: State, c: Choice)
    requires Inv(s) && Next(s, Sup(c)).Some?
    requires s.sup.Taking? && s.sup.ph.Seen?
    ensures Inv(Next(s, Sup(c)).value)
  {
    hide Story;
    hide Count;
    var s' := Next(s, Sup(c)).value;
    var b := s.sup.board;
    if s.sup.ph.occ.Some? {
      assert s' == SweptState(s, b, s.sup.ph.occ.value);
      SweepTakes(s, b, s.sup.ph.occ.value);
    } else {
      assert s.log + [] == s.log;
      SweepFindsNobody(s, b);
    }
  }

  /** The Supervisor moves on without touching anything the sessions see. */
  lemma SupPcKeeps(s: State, sup: SupPc)
    requires Inv(s) && !s.sup.Taking? && !sup.Taking? && SupOk(s.(sup := sup))
    requires s.sup.Stopping? ==> s.sup.victim < |s.conns| && s.conns[s.sup.victim].stop
    ensures Inv(s.(sup := sup))
  {
    hide Story;
    hide Count;
    var s' := s.(sup := sup);
    forall h | 0 <= h < |s'.conns| ensures ConnOk(s', h) {
      assert ConnOk(s, h);
    }
    forall x | 0 <= x < |s'.boards| ensures BoardOk(s', x) {
      assert BoardOk(s, x);
    }
  }

  lemma FlagsUp(s: State, v: nat, c': Conn)
    requires v < |s.conns| && ConnOk(s, v)
    requires var c := s.conns[v]; c' == c.(stop := true) || c' == c.(closed := true)
    ensures MayMove(s, v, c') && ConnOk(Moved(s, v, c'), v)
  {
    hide Story;
    hide Count;
    if s.conns[v].victim.Some? {
      FlagsUpVictim(s, v, c', s.conns[v].victim.value);
    }
    hide VictimProgress;
  }

  lemma FlagsUpVictim(s: State, v: nat, c': Conn, x: nat)
    requires v < |s.conns| && VictimProgress(s, v, x)
    requires var c := s.conns[v]; c' == c.(stop := true) || c' == c.(closed := true)
    ensures VictimProgress(Moved(s, v, c'), v, x)
  {
    hide Story;
    hide Count;
  }

  lemma RaisingStopKeeps(s: State, v: nat)
    requires Inv(s)
    ensures Inv(SetStop(s, v))
  {
    hide Story;
    hide Count;
    if v < |s.conns| {
      assert ConnOk(s, v);
      hide Inv;
      hide ConnOk;
      hide MayMove;
      FlagsUp(s, v, s.conns[v].(stop := true));
      LocalStepKeeps(s, v, s.conns[v].(stop := true));
    }
  }

  lemma ClosingKeeps(s: State, v: nat)
    requires Inv(s)
    ensures Inv(SetClosed(s, v))
  {
    hide Story;
    hide Count;
    if v < |s.conns| {
      assert ConnOk(s, v);
      hide Inv;
      hide ConnOk;
      hide MayMove;
      FlagsUp(s, v, s.conns[v].(closed := true));
      LocalStepKeeps(s, v, s.conns[v].(closed := true));
    }
  }

  lemma SupervisorKeeps(s: State, c: Choice)
    requires Inv(s) && Next(s, Sup(c)).Some?
    ensures Inv(Next(s, Sup(c)).value)
  {
    hide Story;
    hide Count;
    var s' := Next(s, Sup(c)).value;
    match s.sup
    case Idle =>
      SupPcKeeps(s, s'.sup);
    case Taking(_, ph) =>
      if ph.Seen? {
        SweepKeeps(s, c);
      } else {
        SupervisorMoves(s, c);
      }
    case Stopping(v) =>
      RaisingStopKeeps(s, v);
      SupPcKeeps(SetStop(s, v), s'.sup);
    case Shutting(v) =>
      ClosingKeeps(s, v);
      SupPcKeeps(SetClosed(s, v), s'.sup);
    case Joining(_) =>
      SupPcKeeps(s, s'.sup);
  }

  lemma PumpKeeps(s: State, h: nat, c: Choice)
    requires Inv(s) && Next(s, PumpStep(h, c)).Some?
    ensures Inv(Next(s, PumpStep(h, c)).value)
  {
    hide Story;
    hide Count;
    var s' := Next(s, PumpStep(h, c)).value;
    assert ConnOk(s, h);
    if s' != s {
      LocalStepKeeps(s, h, s'.conns[h]);
    }
  }

  // --- critical sections of a handler ---

  /** The state after `h` has changed the lock of its board and moved on to `c'`. */
  function Relocked(s: State, h: nat, lock: Option<Tid>, c': Conn): State
    requires h < |s.conns| && s.conns[h].board < |s.boards|
  {
    var b := s.conns[h].board;
    s.(boards := s.boards[b := s.boards[b].(lock := lock)], conns := s.conns[h := c'])
  }

  /** `h` takes the free lock, or drops the one it holds. */
  ghost predicate MayRelock(s: State, h: nat, lock: Option<Tid>, c': Conn) {
    && h < |s.conns| && s.conns[h].board < |s.boards|
    && var c := s.conns[h];
       && c' == c.(pc := c'.pc, victim := c'.victim)
       && c.pc != Done
       && (lock == None ==> Locked(c.pc) && !Locked(c'.pc))
       && (lock != None ==> s.boards[c.board].lock == None && lock == Some(Handler(h)) && Locked(c'.pc))
       && (forall v :: Obliged(s, Handler(h), v) ==> c'.pc == Pc.Stopping(v))
       && (forall v: nat :: Displaced(s, h, v) ==> c'.victim == Some(v))
  }

  lemma RelockOusted(s: State, h: nat, lock: Option<Tid>, c': Conn, x: nat)
    requires MayRelock(s, h, lock, c') && x < |s.conns| && x != h && s.conns[x].board < |s.boards|
    requires IsOusted(s, x) && OustedOk(s, x, Story(s.log, x)[1].who)
    ensures OustedOk(Relocked(s, h, lock, c'), x, Story(s.log, x)[1].who)
  {
    hide Story;
    hide Count;
  }

  lemma RelockVictim(s: State, h: nat, lock: Option<Tid>, c': Conn, x: nat, v: nat)
    requires MayRelock(s, h, lock, c') && x < |s.conns| && x != h && VictimOk(s, x, v)
    ensures VictimOk(Relocked(s, h, lock, c'), x, v)
    ensures HasExited(s, v) ==> HasExited(Relocked(s, h, lock, c'), v)
    ensures VictimProgress(s, x, v) ==> VictimProgress(Relocked(s, h, lock, c'), x, v)
  {
    hide Story;
    hide Count;
  }

  lemma RelockOther(s: State, h: nat, lock: Option<Tid>, c': Conn, x: nat)
    requires Inv(s) && MayRelock(s, h, lock, c') && x < |s.conns| && x != h
    ensures ConnOk(Relocked(s, h, lock, c'), x)
  {
    hide Story;
    hide Count;
    hide VictimProgress;
    hide OustedOk;
    assert ConnOk(s, h) && ConnOk(s, x);
    hide Inv;
    if IsOusted(s, x) {
      RelockOusted(s, h, lock, c', x);
    }
    if s.conns[x].victim.Some? {
      ProgressIsOk(s, x, s.conns[x].victim.value);
      RelockVictim(s, h, lock, c', x, s.conns[x].victim.value);
    }
    var pc := s.conns[x].pc;
    if pc.Claiming? && pc.ph.Stored? && pc.ph.previous.Some? {
      RelockVictim(s, h, lock, c', x, pc.ph.previous.value);
    }
    hide VictimOk;
    assert PcOk(Relocked(s, h, lock, c'), x);
  }

  lemma RelockKeeps(s: State, h: nat, lock: Option<Tid>, c': Conn)
    requires Inv(s) && MayRelock(s, h, lock, c')
    requires ConnOk(Relocked(s, h, lock, c'), h)
    ensures Inv(Relocked(s, h, lock, c'))
  {
    hide Story;
    hide Count;
    var s' := Relocked(s, h, lock, c');
    assert ConnOk(s, h);
    forall x | 0 <= x < |s'.conns| ensures ConnOk(s', x) {
      if x != h {
        RelockOther(s, h, lock, c', x);
      }
    }
    forall x | 0 <= x < |s'.boards| ensures BoardOk(s', x) {
      assert BoardOk(s, x);
    }
  }

  /** A handler takes the lock of its board. */
  lemma AcquireKeeps(s: State, h: nat, pc': Pc)
    requires Inv(s) && h < |s.conns| && s.conns[h].board < |s.boards|
    requires s.boards[s.conns[h].board].lock == None
    requires var pc := s.conns[h].pc;
             (pc == Claiming(Want) && pc' == Claiming(Held)) || (pc == Releasing(Want) && pc' == Releasing(Held))
    ensures Inv(Relocked(s, h, Some(Handler(h)), s.conns[h].(pc := pc')))
  {
    hide Story;
    hide Count;
    assert ConnOk(s, h);
    RelockKeeps(s, h, Some(Handler(h)), s.conns[h].(pc := pc'));
  }

  /** A handler drops the lock after a claim and goes on. */
  lemma ClaimEnds(s: State, h: nat)
    requires Inv(s) && h < |s.conns| && s.conns[h].board < |s.boards|
    requires s.conns[h].pc.Claiming? && s.conns[h].pc.ph.Stored?
    ensures var c := s.conns[h];
            Inv(Relocked(s, h, None, c.(pc := AfterClaim(c.kind, c.pc.ph.ok, c.pc.ph.previous),
                                        victim := c.pc.ph.previous)))
  {
    hide Story;
    hide Count;
    var c := s.conns[h];
    var c' := c.(pc := AfterClaim(c.kind, c.pc.ph.ok, c.pc.ph.previous), victim := c.pc.ph.previous);
    assert ConnOk(s, h);
    RelockKeeps(s, h, None, c');
  }

  /** A handler drops the lock after a release. */
  lemma ReleaseEnds(s: State, h: nat)
    requires Inv(s) && h < |s.conns| && s.conns[h].board < |s.boards|
    requires s.conns[h].pc.Releasing? && s.conns[h].pc.ph.Stored?
    ensures Inv(Relocked(s, h, None, s.conns[h].(pc := Closing)))
  {
    hide Story;
    hide Count;
    assert ConnOk(s, h);
    RelockKeeps(s, h, None, s.conns[h].(pc := Closing));
  }

  /** The store of a refused claim, or of a release that finds someone else there. */
  lemma StoreWithoutEffect(s: State, h: nat, pc': Pc)
    requires Inv(s) && h < |s.conns|
    requires var pc := s.conns[h].pc;
             || (pc.Claiming? && pc.ph.Seen? && pc' == Claiming(Stored(false, None)))
             || (pc.Releasing? && pc.ph.Seen? && pc.ph.occ != Some(h) && pc' == Releasing(Stored(false, None)))
    ensures Inv(SetPc(s, h, pc'))
  {
    hide Story;
    hide Count;
    assert ConnOk(s, h);
    LocalStepKeeps(s, h, s.conns[h].(pc := pc'));
  }

  /** The state after `h` has stored its claim over the occupant `seen`. */
  function ClaimedState(s: State, h: nat, seen: Option<nat>): State
    requires h < |s.conns| && s.conns[h].board < |s.boards|
  {
    var b := s.conns[h].board;
    s.(boards := s.boards[b := s.boards[b].(occupant := Some(h))],
       conns := s.conns[h := s.conns[h].(pc := Claiming(Stored(true, seen)))],
       log := s.log + (if seen.Some? then [Ousted(b, seen.value, Handler(h))] else []) + [Claimed(b, h)])
  }

  /** What a claim may find: nobody, or -- for a flash -- a serial session. */
  predicate MayClaim(s: State, h: nat, seen: Option<nat>) {
    && h < |s.conns| && s.conns[h].board < |s.boards|
    && s.conns[h].pc == Claiming(Seen(seen))
    && (seen.Some? ==> s.conns[h].kind == Flash && !IsFlash(s, seen))
  }

  /** What a claim that will succeed has found. */
  lemma ClaimFinds(s: State, h: nat, seen: Option<nat>)
    requires Inv(s) && MayClaim(s, h, seen)
    ensures Story(s.log, h) == [] && s.boards[s.conns[h].board].occupant == seen && s.conns[h].victim == None
    ensures seen.Some? ==>
              var v := seen.value;
              v < |s.conns| && v != h && Occupies(s, v) && s.conns[v].board == s.conns[h].board
              && s.conns[v].kind == Serial && ConnOk(s, v)
  {
    hide Story;
    hide Count;
    var b := s.conns[h].board;
    assert ConnOk(s, h) && BoardOk(s, b);
    if seen.Some? {
      assert ConnOk(s, seen.value);
    }
  }

  lemma ClaimStory(s: State, h: nat, seen: Option<nat>, x: nat)
    requires MayClaim(s, h, seen)
    ensures Story(ClaimedState(s, h, seen).log, x)
            == Story(s.log, x)
               + (if seen == Some(x) then [Ousted(s.conns[h].board, x, Handler(h))] else [])
               + (if x == h then [Claimed(s.conns[h].board, h)] else [])
  {
    hide Story;
    hide Count;
    var b := s.conns[h].board;
    if seen.Some? {
      Snoc(s.log, Ousted(b, seen.value, Handler(h)));
      Snoc(s.log + [Ousted(b, seen.value, Handler(h))], Claimed(b, h));
    } else {
      assert s.log + [] == s.log;
      Snoc(s.log, Claimed(b, h));
    }
  }

  lemma ClaimCount(s: State, h: nat, seen: Option<nat>, b: nat, tag: Tag)
    requires MayClaim(s, h, seen)
    ensures Count(ClaimedState(s, h, seen).log, b, tag)
            == Count(s.log, b, tag)
               + (if seen.Some? && b == s.conns[h].board && tag == PreemptTag then 1 else 0)
               + (if b == s.conns[h].board && tag == ClaimTag then 1 else 0)
  {
    hide Story;
    hide Count;
    var at := s.conns[h].board;
    if seen.Some? {
      Snoc(s.log, Ousted(at, seen.value, Handler(h)));
      Snoc(s.log + [Ousted(at, seen.value, Handler(h))], Claimed(at, h));
    } else {
      assert s.log + [] == s.log;
      Snoc(s.log, Claimed(at, h));
    }
  }

  lemma ClaimSelf(s: State, h: nat, seen: Option<nat>)
    requires Inv(s) && MayClaim(s, h, seen)
    ensures ConnOk(ClaimedState(s, h, seen), h)
  {
    hide Story;
    hide Count;
    var s' := ClaimedState(s, h, seen);
    ClaimFinds(s, h, seen);
    ClaimStory(s, h, seen, h);
    assert ConnOk(s, h);
    if seen.Some? {
      ClaimStory(s, h, seen, seen.value);
      assert VictimOk(s', h, seen.value);
    }
    hide Inv;
    assert Occupies(s', h) && !IsOusted(s', h);
    assert StoryOk(s', h) && PcOk(s', h);
  }

  lemma ClaimDisplaced(s: State, h: nat, v: nat)
    requires Inv(s) && MayClaim(s, h, Some(v)) && v < |s.conns| && v != h
    ensures ConnOk(ClaimedState(s, h, Some(v)), v)
  {
    hide Story;
    hide Count;
    ClaimFinds(s, h, Some(v));
    ClaimStory(s, h, Some(v), v);
    assert ConnOk(s, h) && ConnOk(s, v);
    hide Inv;
  }

  /** A session already ousted is neither the claimant nor the one it displaces. */
  lemma VictimUntouched(s: State, h: nat, seen: Option<nat>, x: nat, v: nat)
    requires Inv(s) && MayClaim(s, h, seen) && x < |s.conns| && x != h
    requires VictimOk(s, x, v)
    ensures VictimOk(ClaimedState(s, h, seen), x, v)
    ensures ClaimedState(s, h, seen).conns[v] == s.conns[v]
  {
    hide Story;
    hide Count;
    ClaimFinds(s, h, seen);
    ClaimStory(s, h, seen, v);
    hide Inv;
  }

  lemma PcUntouched(s: State, h: nat, seen: Option<nat>, x: nat)
    requires Inv(s) && MayClaim(s, h, seen) && x < |s.conns| && x != h
    requires s.conns[x].board < |s.boards|
    ensures PcOk(ClaimedState(s, h, seen), x)
  {
    hide Story;
    hide Count;
    var c := s.conns[x];
    assert ConnOk(s, h) && ConnOk(s, x);
    if c.pc.Claiming? && c.pc.ph.Stored? && c.pc.ph.previous.Some? {
      VictimUntouched(s, h, seen, x, c.pc.ph.previous.value);
    }
  }

  lemma OustedUntouched(s: State, h: nat, seen: Option<nat>, x: nat)
    requires Inv(s) && MayClaim(s, h, seen) && x < |s.conns| && x != h && seen != Some(x)
    requires s.conns[x].board < |s.boards| && IsOusted(s, x)
    ensures OustedOk(ClaimedState(s, h, seen), x, Story(s.log, x)[1].who)
  {
    hide Story;
    hide Count;
    assert ConnOk(s, h) && ConnOk(s, x);
  }

  lemma ClaimOther(s: State, h: nat, seen: Option<nat>, x: nat)
    requires Inv(s) && MayClaim(s, h, seen) && x < |s.conns| && x != h && seen != Some(x)
    ensures ConnOk(ClaimedState(s, h, seen), x)
  {
    hide Story;
    hide Count;
    var s' := ClaimedState(s, h, seen);
    assert ConnOk(s, x) && BoardOk(s, s.conns[h].board);
    ClaimStory(s, h, seen, x);
    assert Story(s'.log, x) == Story(s.log, x);
    assert s'.conns[x] == s.conns[x];
    PcUntouched(s, h, seen, x);
    if s.conns[x].victim.Some? {
      VictimUntouched(s, h, seen, x, s.conns[x].victim.value);
    }
    if IsOusted(s, x) {
      OustedUntouched(s, h, seen, x);
    }
    NotTheClaimant(s, h, seen, x);
  }

  lemma NotTheClaimant(s: State, h: nat, seen: Option<nat>, x: nat)
    requires Inv(s) && MayClaim(s, h, seen) && x < |s.conns| && x != h && seen != Some(x)
    requires s.conns[x].board < |s.boards|
    ensures ClaimedState(s, h, seen).boards[s.conns[x].board].occupant == Some(x)
            <==> s.boards[s.conns[x].board].occupant == Some(x)
  {
    hide Story;
    hide Count;
    assert ConnOk(s, h) && ConnOk(s, x);
  }

  lemma ClaimBalances(s: State, h: nat, seen: Option<nat>, x: nat)
    requires MayClaim(s, h, seen) && x < |s.boards| && Balanced(s, x)
    requires s.boards[s.conns[h].board].occupant == seen
    ensures Balanced(ClaimedState(s, h, seen), x)
  {
    hide Count;
    hide Story;
    ClaimCount(s, h, seen, x, ClaimTag);
    ClaimCount(s, h, seen, x, ReleaseTag);
    ClaimCount(s, h, seen, x, PreemptTag);
    ClaimCount(s, h, seen, x, TakeTag);
  }

  lemma ClaimBoard(s: State, h: nat, seen: Option<nat>, x: nat)
    requires Inv(s) && MayClaim(s, h, seen) && x < |s.boards|
    ensures BoardOk(ClaimedState(s, h, seen), x)
  {
    hide Story;
    hide Count;
    assert BoardOk(s, x) && ConnOk(s, h);
    ClaimFinds(s, h, seen);
    var d := s.boards[x].departure;
    if d.Swept? && d.taken.Some? {
      ClaimStory(s, h, seen, d.taken.value);
    }
    ClaimBalances(s, h, seen, x);
    hide Inv;
    hide ConnOk;
    hide Balanced;
  }

  lemma ClaimStored(s: State, h: nat, seen: Option<nat>)
    requires Inv(s) && MayClaim(s, h, seen)
    ensures Inv(ClaimedState(s, h, seen))
  {
    hide Story;
    hide Count;
    var s' := ClaimedState(s, h, seen);
    ClaimFinds(s, h, seen);
    assert SupOk(s') by {
      ClaimSupervisor(s, h, seen);
    }
    forall x | 0 <= x < |s'.conns| ensures ConnOk(s', x) {
      if x == h {
        ClaimSelf(s, h, seen);
      } else if seen == Some(x) {
        ClaimDisplaced(s, h, x);
      } else {
        ClaimOther(s, h, seen, x);
      }
    }
    forall x | 0 <= x < |s'.boards| ensures BoardOk(s', x) {
      ClaimBoard(s, h, seen, x);
    }
    hide ConnOk;
    hide BoardOk;
    hide SupOk;
  }

  lemma ClaimSupervisor(s: State, h: nat, seen: Option<nat>)
    requires Inv(s) && MayClaim(s, h, seen)
    ensures SupOk(ClaimedState(s, h, seen))
  {
    hide Story;
    hide Count;
    ClaimFinds(s, h, seen);
    assert ConnOk(s, h);
    var v := match s.sup
             case Taking(_, ph) => if ph.Stored? && ph.previous.Some? then ph.previous.value else 0
             case Stopping(v) => v
             case Shutting(v) => v
             case Joining(v) => v
             case _ => 0;
    ClaimStory(s, h, seen, v);
  }

  /** The state after `h` has cleared itself from its board. */
  function ReleasedState(s: State, h: nat): State
    requires h < |s.conns| && s.conns[h].board < |s.boards|
  {
    var b := s.conns[h].board;
    s.(boards := s.boards[b := s.boards[b].(occupant := None)],
       conns := s.conns[h := s.conns[h].(pc := Releasing(Stored(true, None)))],
       log := s.log + [Released(b, h)])
  }

  predicate MayRelease(s: State, h: nat) {
    h < |s.conns| && s.conns[h].board < |s.boards| && s.conns[h].pc == Releasing(Seen(Some(h)))
  }

  lemma ReleaseSelf(s: State, h: nat)
    requires Inv(s) && MayRelease(s, h)
    ensures ConnOk(ReleasedState(s, h), h)
  {
    hide Story;
    hide Count;
    assert ConnOk(s, h);
    Snoc(s.log, Released(s.conns[h].board, h));
    assert Occupies(s, h);
    assert WasReleased(ReleasedState(s, h), h);
    assert PcOk(ReleasedState(s, h), h);
  }

  lemma ReleaseVictim(s: State, h: nat, x: nat, v: nat)
    requires Inv(s) && MayRelease(s, h) && x < |s.conns| && VictimOk(s, x, v)
    ensures VictimOk(ReleasedState(s, h), x, v)
    ensures v != h
  {
    hide Story;
    hide Count;
    assert ConnOk(s, h);
    Snoc(s.log, Released(s.conns[h].board, h));
  }

  lemma ReleasePc(s: State, h: nat, x: nat)
    requires Inv(s) && MayRelease(s, h) && x < |s.conns| && x != h && s.conns[x].board < |s.boards|
    ensures PcOk(ReleasedState(s, h), x)
  {
    hide Story;
    hide Count;
    var c := s.conns[x];
    assert ConnOk(s, h) && ConnOk(s, x);
    if c.pc.Claiming? && c.pc.ph.Stored? && c.pc.ph.previous.Some? {
      ReleaseVictim(s, h, x, c.pc.ph.previous.value);
    }
  }

  lemma ReleaseOther(s: State, h: nat, x: nat)
    requires Inv(s) && MayRelease(s, h) && x < |s.conns| && x != h
    ensures ConnOk(ReleasedState(s, h), x)
  {
    hide Story;
    hide Count;
    var s' := ReleasedState(s, h);
    assert ConnOk(s, h) && ConnOk(s, x);
    Snoc(s.log, Released(s.conns[h].board, h));
    assert Story(s'.log, x) == Story(s.log, x);
    assert s'.conns[x] == s.conns[x];
    ReleasePc(s, h, x);
    if s.conns[x].victim.Some? {
      ReleaseVictim(s, h, x, s.conns[x].victim.value);
    }
  }

  lemma ReleaseStored(s: State, h: nat)
    requires Inv(s) && MayRelease(s, h)
    ensures Inv(ReleasedState(s, h))
  {
    hide Story;
    hide Count;
    var s' := ReleasedState(s, h);
    assert ConnOk(s, h);
    Snoc(s.log, Released(s.conns[h].board, h));
    assert SupOk(s');
    forall x | 0 <= x < |s'.conns| ensures ConnOk(s', x) {
      if x == h {
        ReleaseSelf(s, h);
      } else {
        ReleaseOther(s, h, x);
      }
    }
    forall x | 0 <= x < |s'.boards| ensures BoardOk(s', x) {
      assert BoardOk(s, x);
    }
  }

  // --- whole steps of a handler ---

  /** A step inside a claim, spelt out. */
  lemma ClaimNext(s: State, h: nat, c: Choice)
    requires Next(s, Step(h, c)).Some? && s.conns[h].pc.Claiming?
    ensures var conn := s.conns[h]; var s' := Next(s, Step(h, c)).value;
            match conn.pc.ph
            case Want => s.boards[conn.board].lock == None
                         && s' == Relocked(s, h, Some(Handler(h)), conn.(pc := Claiming(Held)))
            case Held => s' == SetPc(s, h, Claiming(Seen(s.boards[conn.board].occupant)))
            case Seen(occ) =>
              if (if conn.kind == Serial then occ.Some? else IsFlash(s, occ))
              then s'.boards == s.boards[conn.board := s.boards[conn.board].(occupant := occ)]
                   && s' == SetPc(s, h, Claiming(Stored(false, None))).(boards := s'.boards)
              else s' == ClaimedState(s, h, occ)
            case Stored(ok, previous) =>
              s' == Relocked(s, h, None, conn.(pc := AfterClaim(conn.kind, ok, previous), victim := previous))
  {
    assert Claim(s, h, s.conns[h].pc.ph) == Next(s, Step(h, c));
    var b := s.conns[h].board;
    assert s.log + [] == s.log && s.boards[b := s.boards[b]] == s.boards;
  }

  lemma ClaimKeeps(s: State, h: nat, c: Choice)
    requires Inv(s) && Next(s, Step(h, c)).Some? && s.conns[h].pc.Claiming?
    ensures Inv(Next(s, Step(h, c)).value)
  {
    hide Story;
    hide Count;
    ClaimNext(s, h, c);
    assert ConnOk(s, h);
    hide Next;
    hide Inv;
    var conn := s.conns[h];
    match conn.pc.ph
    case Want =>
      AcquireKeeps(s, h, Claiming(Held));
    case Held =>
      LooksKeeps(s, h, Claiming(Seen(s.boards[conn.board].occupant)));
    case Seen(occ) =>
      if (if conn.kind == Serial then occ.Some? else IsFlash(s, occ)) {
        StoreWithoutEffect(s, h, Claiming(Stored(false, None)));
        assert s.boards[conn.board := s.boards[conn.board].(occupant := occ)] == s.boards;
      } else {
        ClaimStored(s, h, occ);
      }
    case Stored(_, _) =>
      ClaimEnds(s, h);
  }

  /** A handler that holds the lock reads the occupant. */
  lemma LooksKeeps(s: State, h: nat, pc': Pc)
    requires Inv(s) && h < |s.conns| && s.conns[h].board < |s.boards|
    requires var occ := s.boards[s.conns[h].board].occupant; var pc := s.conns[h].pc;
             || (pc == Claiming(Held) && pc' == Claiming(Seen(occ)))
             || (pc == Releasing(Held) && pc' == Releasing(Seen(occ)))
    ensures Inv(SetPc(s, h, pc'))
  {
    hide Story;
    hide Count;
    assert ConnOk(s, h);
    LocalStepKeeps(s, h, s.conns[h].(pc := pc'));
  }

  /** A step inside a release, spelt out. */
  lemma ReleaseNext(s: State, h: nat, c: Choice)
    requires Next(s, Step(h, c)).Some? && s.conns[h].pc.Releasing?
    ensures var conn := s.conns[h]; var s' := Next(s, Step(h, c)).value;
            match conn.pc.ph
            case Want => s.boards[conn.board].lock == None
                         && s' == Relocked(s, h, Some(Handler(h)), conn.(pc := Releasing(Held)))
            case Held => s' == SetPc(s, h, Releasing(Seen(s.boards[conn.board].occupant)))
            case Seen(occ) =>
              if occ == Some(h) then s' == ReleasedState(s, h)
              else s'.boards == s.boards[conn.board := s.boards[conn.board].(occupant := occ)]
                   && s' == SetPc(s, h, Releasing(Stored(false, None))).(boards := s'.boards)
            case Stored(ok, previous) => s' == Relocked(s, h, None, conn.(pc := Closing))
  {
    assert Letgo(s, h, s.conns[h].pc.ph) == Next(s, Step(h, c));
    var b := s.conns[h].board;
    assert s.log + [] == s.log && s.boards[b := s.boards[b]] == s.boards;
  }

  lemma ReleaseKeeps(s: State, h: nat, c: Choice)
    requires Inv(s) && Next(s, Step(h, c)).Some? && s.conns[h].pc.Releasing?
    ensures Inv(Next(s, Step(h, c)).value)
  {
    hide Story;
    hide Count;
    ReleaseNext(s, h, c);
    assert ConnOk(s, h);
    hide Next;
    hide Inv;
    var conn := s.conns[h];
    match conn.pc.ph
    case Want =>
      AcquireKeeps(s, h, Releasing(Held));
    case Held =>
      LooksKeeps(s, h, Releasing(Seen(s.boards[conn.board].occupant)));
    case Seen(occ) =>
      if occ == Some(h) {
        ReleaseStored(s, h);
      } else {
        StoreWithoutEffect(s, h, Releasing(Stored(false, None)));
        assert s.boards[conn.board := s.boards[conn.board].(occupant := occ)] == s.boards;
      }
    case Stored(_, _) =>
      ReleaseEnds(s, h);
  }

  /** A flash raises the stop flag of the session it displaced: the debt is paid. */
  lemma StoppingKeeps(s: State, h: nat, v: nat)
    requires Inv(s) && h < |s.conns| && s.conns[h].pc == Pc.Stopping(v)
    requires v < |s.conns| && s.conns[v].stop
    ensures Inv(SetPc(s, h, Pc.Shutting(v)))
  {
    hide Story;
    hide Count;
    var s' := SetPc(s, h, Pc.Shutting(v));
    assert ConnOk(s, h);
    forall x | 0 <= x < |s'.conns| ensures ConnOk(s', x) {
      StoppingOther(s, h, v, x);
    }
    forall x | 0 <= x < |s'.boards| ensures BoardOk(s', x) {
      assert BoardOk(s, x);
    }
  }

  lemma StoppingOther(s: State, h: nat, v: nat, x: nat)
    requires Inv(s) && h < |s.conns| && s.conns[h].pc == Pc.Stopping(v)
    requires v < |s.conns| && s.conns[v].stop && x < |s.conns|
    ensures ConnOk(SetPc(s, h, Pc.Shutting(v)), x)
  {
    hide Story;
    hide Count;
    assert ConnOk(s, h) && ConnOk(s, x);
    hide Inv;
    assert PcOk(SetPc(s, h, Pc.Shutting(v)), x);
  }

  lemma ShuttingKeeps(s: State, h: nat, v: nat)
    requires Inv(s) && h < |s.conns| && s.conns[h].pc == Pc.Shutting(v)
    requires v < |s.conns| && s.conns[v].closed
    ensures Inv(SetPc(s, h, Pc.Joining(v)))
  {
    hide Story;
    hide Count;
    assert ConnOk(s, h);
    LocalStepKeeps(s, h, s.conns[h].(pc := Pc.Joining(v)));
  }

  /** The steps that only move a serial handler along. */
  lemma SerialMoves(s: State, h: nat, c: Choice)
    requires Inv(s) && Next(s, Step(h, c)).Some?
    requires var pc := s.conns[h].pc; pc.Opening? || pc.Relaying? || pc.JoiningPump?
    ensures Inv(Next(s, Step(h, c)).value)
  {
    hide Story;
    hide Count;
    var s' := Next(s, Step(h, c)).value;
    assert ConnOk(s, h);
    if s' != s {
      assert PcOk(s', h);
      LocalStepKeeps(s, h, s'.conns[h]);
    }
  }

  /** The steps that only move a flash handler along. */
  lemma FlashMoves(s: State, h: nat, c: Choice)
    requires Inv(s) && Next(s, Step(h, c)).Some?
    requires var pc := s.conns[h].pc; pc.Joining? || pc.Receiving? || pc.Flashing?
    ensures Inv(Next(s, Step(h, c)).value)
  {
    hide Story;
    hide Count;
    hide Claim;
    hide Letgo;
    var s' := Next(s, Step(h, c)).value;
    var c' := s'.conns[h];
    assert s' == Moved(s, h, c') && MayMove(s, h, c');
    assert c' == s.conns[h].(pc := c'.pc, gaveUp := c'.gaveUp);
    assert ConnOk(s, h);
    assert c'.pc.Receiving? && s.conns[h].pc.Joining? ==> c'.gaveUp || HasExited(s, s.conns[h].pc.victim);
    assert s.conns[h].gaveUp ==> c'.gaveUp;
    FlashMoveSelf(s, h, c');
    LocalStepKeeps(s, h, c');
  }

  lemma FlashMoveSelf(s: State, h: nat, c': Conn)
    requires MayMove(s, h, c') && ConnOk(s, h)
    requires c' == s.conns[h].(pc := c'.pc, gaveUp := c'.gaveUp) && (s.conns[h].gaveUp ==> c'.gaveUp)
    requires var pc := s.conns[h].pc;
             || (pc.Joining? && c'.pc.Receiving? && (c'.gaveUp || HasExited(s, pc.victim)))
             || (pc.Receiving? && (c'.pc.Flashing? || c'.pc == Releasing(Want)))
             || (pc.Flashing? && c'.pc == Releasing(Want))
    ensures ConnOk(Moved(s, h, c'), h)
  {
    hide Story;
    hide Count;
    assert PcOk(Moved(s, h, c'), h);
  }

  lemma EndsMove(s: State, h: nat, c: Choice)
    requires Inv(s) && Next(s, Step(h, c)).Some?
    requires var pc := s.conns[h].pc; pc.Start? || pc.Closing?
    ensures Inv(Next(s, Step(h, c)).value)
  {
    hide Story;
    hide Count;
    assert ConnOk(s, h);
    LocalStepKeeps(s, h, Next(s, Step(h, c)).value.conns[h]);
  }

  lemma HandlerKeeps(s: State, h: nat, c: Choice)
    requires Inv(s) && Next(s, Step(h, c)).Some?
    ensures Inv(Next(s, Step(h, c)).value)
  {
    hide Story;
    hide Count;
    assert ConnOk(s, h);
    match s.conns[h].pc
    case Claiming(_) =>
      ClaimKeeps(s, h, c);
    case Releasing(_) =>
      ReleaseKeeps(s, h, c);
    case Stopping(v) =>
      RaisingStopKeeps(s, v);
      StoppingKeeps(SetStop(s, v), h, v);
    case Shutting(v) =>
      ClosingKeeps(s, v);
      ShuttingKeeps(SetClosed(s, v), h, v);
    case Opening =>
      SerialMoves(s, h, c);
    case Relaying =>
      SerialMoves(s, h, c);
    case JoiningPump =>
      SerialMoves(s, h, c);
    case Start =>
      EndsMove(s, h, c);
    case Closing =>
      EndsMove(s, h, c);
    case _ =>
      FlashMoves(s, h, c);
  }

  lemma MainKeeps(s: State, s': State)
    requires Inv(s)
    requires s' == s.(main := s'.main, acceptor := s'.acceptor, stopping := s'.stopping, closing := s'.closing)
    ensures Inv(s')
  {
    forall x | 0 <= x < |s'.conns| ensures ConnOk(s', x) {
      assert ConnOk(s, x);
    }
    forall x | 0 <= x < |s'.boards| ensures BoardOk(s', x) {
      assert BoardOk(s, x);
    }
  }
}
