/** The threads of the fleet, each over its whole life: what one that is refused keeps
    off, who waits for whom, and in what order all of it ends. */
module FleetLives {
  import opened Wrappers
  import opened Fleet
  import opened FleetInvariant
  import opened FleetSafety
  import opened FleetTheorems
  import opened FleetSteps

  // ---------------------------------------------------------------------------
  // Nobody goes back
  // ---------------------------------------------------------------------------

  /** From letting go there is no way back. */
  lemma {:induction false} GoneForGood(s: State, run: seq<Action>, h: nat)
    requires Run(s, run).Some? && h < |s.conns|
    ensures var s' := Run(s, run).value; var pc, pc' := s.conns[h].pc, if h < |s'.conns| then s'.conns[h].pc else Start;
            && h < |s'.conns|
            && (Ending(pc) ==> Ending(pc') && s'.conns[h].victim == s.conns[h].victim)
            && (LettingGo(pc) ==> LettingGo(pc') && (s.conns[h].pump == Absent ==> s'.conns[h].pump == Absent))
    decreases |run|
  {
    hide Next;
    if run != [] {
      var s' := Next(s, run[0]).value;
      if run[0].Step? && run[0].h == h {
        OwnStays(s, h, run[0].c);
        if LettingGo(s.conns[h].pc) {
          OnlyOnward(s, h, run[0].c);
        }
      } else {
        OthersStep(s, run[0], h);
        if s.conns[h].pump == Absent {
          NoPumpStep(s, run[0], h);
        }
      }
      GoneForGood(s', run[1..], h);
    }
  }

  // ---------------------------------------------------------------------------
  // What is refused stays out
  // ---------------------------------------------------------------------------

  lemma {:induction false} EndingNeverClaims(s: State, run: seq<Action>, h: nat)
    requires Run(s, run).Some? && h < |s.conns| && Ending(s.conns[h].pc) && NeverClaimed(s, h)
    ensures NeverClaimed(Run(s, run).value, h)
    decreases |run|
  {
    hide Next;
    hide NeverClaimed;
    if run != [] {
      OnlyClaimersClaim(s, run[0], h);
      if run[0].Step? && run[0].h == h {
        OnlyOnward(s, h, run[0].c);
      } else {
        OthersStep(s, run[0], h);
      }
      EndingNeverClaims(Next(s, run[0]).value, run[1..], h);
    }
  }

  /** `h` has nothing to do with any board: the log does not know it, it occupies nothing
      and displaced nobody. */
  ghost predicate KeptOff(s: State, h: nat) {
    && h < |s.conns| && Ending(s.conns[h].pc)
    && Story(s.log, h) == [] && s.conns[h].victim == None
    && (forall b :: 0 <= b < |s.boards| ==> s.boards[b].occupant != Some(h))
    && (forall v :: !Displaced(s, h, v))
  }

  lemma EndedUnclaimed(s: State, h: nat)
    requires Inv(s) && h < |s.conns| && Ending(s.conns[h].pc) && NeverClaimed(s, h) && s.conns[h].victim == None
    ensures KeptOff(s, h)
  {
    assert ConnOk(s, h);
    if Story(s.log, h) != [] {
      StoryInLog(s.log, h, Story(s.log, h)[0]);
    }
    hide Story;
    hide Count;
    forall b | 0 <= b < |s.boards| ensures s.boards[b].occupant != Some(h) {
      assert BoardOk(s, b);
    }
  }

  /** Whoever is refused before its claim -- for a bad token, a bad header, with flashing
      disabled, or for a relay -- keeps off every board for good. */
  lemma RefusedKeepsOff(run: seq<Action>, n: nat, h: nat, c: Choice)
    requires Run(INIT, run).Some? && n < |run| && Run(INIT, run[..n]).Some?
    requires run[n] == Step(h, c) && c != Go && h < |After(run[..n]).conns| && After(run[..n]).conns[h].pc.Start?
    ensures KeptOff(After(run), h)
  {
    hide Story;
    hide Count;
    var s := After(run[..n]);
    PrefixRuns(INIT, run, n);
    assert run[n..][0] == run[n] && run[n..][1..] == run[n + 1..];
    Reachable(run[..n]);
    assert ConnOk(s, h);
    forall e | e in s.log ensures !(e.Claimed? && e.h == h) {
      MentionedInStory(s.log, e);
    }
    var s' := Next(s, Step(h, c)).value;
    hide Inv;
    Reachable(run);
    EndingNeverClaims(s', run[n + 1..], h);
    GoneForGood(s', run[n + 1..], h);
    hide Next;
    EndedUnclaimed(After(run), h);
  }

  // ---------------------------------------------------------------------------
  // A relay and its reader
  // ---------------------------------------------------------------------------

  lemma {:induction false} RunReaders(s: State, run: seq<Action>)
    requires ReadersOk(s) && Run(s, run).Some?
    ensures ReadersOk(Run(s, run).value)
    decreases |run|
  {
    hide Next;
    hide ReadersOk;
    if run != [] {
      ReadersKept(s, run[0]);
      RunReaders(Next(s, run[0]).value, run[1..]);
    }
  }

  /** Whichever of a relay's two threads ends first, the stop flag is up for the other;
      and no session has a reader but one that has come to relay. */
  lemma RelaysEndStopped(run: seq<Action>, h: nat)
    requires Run(INIT, run).Some? && h < |After(run).conns|
    ensures ReaderOk(After(run).conns[h])
  {
    RunReaders(INIT, run);
    hide ReaderOk;
  }

  /** If its join does not run out, a session that lets its board go has no reader left. */
  lemma {:induction false} ReaderGoesFirst(s: State, run: seq<Action>, h: nat)
    requires ReadersOk(s) && ReaderDone(s, h) && Run(s, run).Some? && Step(h, Timeout) !in run
    ensures ReaderDone(Run(s, run).value, h)
    decreases |run|
  {
    hide Next;
    if run != [] {
      var s' := Next(s, run[0]).value;
      ReadersKept(s, run[0]);
      NobodyLeaves(s, run[0]);
      if h >= |s.conns| {
        assert ReaderDone(s', h);
      } else if run[0].Step? && run[0].h == h {
        ReleaseWaits(s, h, run[0].c);
      } else if run[0].PumpStep? && run[0].h == h {
        PumpStops(s, h, run[0].c);
      } else {
        OthersStep(s, run[0], h);
      }
      hide ReadersOk;
      hide ReaderDone;
      ReaderGoesFirst(s', run[1..], h);
    }
  }

  /** The handler of a relay goes on until the flag is up or its connection fails, and so
      does the reader. */
  lemma RelaysGoOn(s: State, h: nat, c: Choice)
    requires h < |s.conns| && s.conns[h].board < |s.boards|
    ensures s.conns[h].pc.Relaying? ==>
              Next(s, Step(h, c)) == if s.conns[h].stop || c == Fail
                                     then Some(s.(conns := s.conns[h := s.conns[h].(pc := JoiningPump, stop := true)]))
                                     else Some(s)
    ensures s.conns[h].pump == Running ==>
              Next(s, PumpStep(h, c)) == if s.conns[h].stop || c == Fail
                                         then Some(s.(conns := s.conns[h := s.conns[h].(pump := Ended, stop := true)]))
                                         else Some(s)
  {
    hide Claim;
    hide Letgo;
  }

  // ---------------------------------------------------------------------------
  // Waiting
  // ---------------------------------------------------------------------------

  function StepWith(t: Tid, c: Choice): Action {
    match t
    case Main => MainStep(c)
    case Supervisor => Sup(c)
    case Acceptor => AcceptorStep(c)
    case Handler(h) => Step(h, c)
    case Pump(h) => PumpStep(h, c)
  }

  /** A thread that waits does not go on: at a lock whatever happens, in a join unless
      the join runs out, and then it does. */
  lemma WaitersWait(run: seq<Action>, t: Tid, c: Choice)
    requires Run(INIT, run).Some? && WaitsFor(After(run), t).Some?
    ensures Next(After(run), StepWith(t, c)).Some? <==> InJoin(After(run), t) && c == Timeout
  {
    hide Story;
    hide Count;
    Reachable(run);
    var s := After(run);
    match t
    case Handler(h) =>
      assert ConnOk(s, h);
      hide Inv;
      if s.conns[h].pc.Claiming? {
        assert Claim(s, h, s.conns[h].pc.ph) == HandlerStep(s, h, c);
      } else if s.conns[h].pc.Releasing? {
        assert Letgo(s, h, s.conns[h].pc.ph) == HandlerStep(s, h, c);
      }
    case _ => hide HandlerStep;
  }

  // ---------------------------------------------------------------------------
  // The end of serve
  // ---------------------------------------------------------------------------

  /** No join of the main thread runs out. */
  predicate Patient(run: seq<Action>) {
    MainStep(Timeout) !in run
  }

  lemma {:induction false} RunWinding(s: State, run: seq<Action>)
    requires Winding(s) && Run(s, run).Some?
    ensures Winding(Run(s, run).value)
    ensures InOrder(s) && Patient(run) ==> InOrder(Run(s, run).value)
    decreases |run|
  {
    hide Next;
    hide Winding;
    hide InOrder;
    if run != [] {
      WindingKept(s, run[0]);
      RunWinding(Next(s, run[0]).value, run[1..]);
    }
  }

  /** The Supervisor ends only once it has been told to, the accept loop only after the
      main thread is done with the Supervisor; and if no join ran out, `serve` returns
      with both of them gone. */
  lemma EndsInOrder(run: seq<Action>)
    requires Run(INIT, run).Some?
    ensures Winding(After(run)) && (Patient(run) ==> InOrder(After(run)))
  {
    RunWinding(INIT, run);
  }

  /** Told to end, each does at its next look round. */
  lemma EndsWhenTold(s: State, c: Choice)
    ensures s.sup == Idle && s.stopping ==> Next(s, Sup(c)) == Some(s.(sup := SupPc.Exited))
    ensures s.acceptor == Accepting && s.closing ==> Next(s, AcceptorStep(c)) == Some(s.(acceptor := Gone))
  {
  }

  /** After the Supervisor ended no board comes or goes, after the accept loop ended
      nobody connects. */
  lemma {:induction false} NothingNewAfter(s: State, run: seq<Action>)
    requires Run(s, run).Some?
    ensures s.sup == SupPc.Exited ==>
              Run(s, run).value.sup == SupPc.Exited && |Run(s, run).value.boards| == |s.boards|
    ensures s.acceptor == Gone ==>
              Run(s, run).value.acceptor == Gone && |Run(s, run).value.conns| == |s.conns|
    decreases |run|
  {
    hide Next;
    if run != [] {
      OnlyTheirOwn(s, run[0]);
      NobodyLeaves(s, run[0]);
      StaysEnded(s, run[0]);
      NothingNewAfter(Next(s, run[0]).value, run[1..]);
    }
  }

  /** A session whose port does not open never relays a byte: it lets go. */
  lemma NoPortNoRelay(run: seq<Action>, n: nat, h: nat, c: Choice)
    requires Run(INIT, run).Some? && n < |run| && Run(INIT, run[..n]).Some?
    requires run[n] == Step(h, c) && c != Go && h < |After(run[..n]).conns| && After(run[..n]).conns[h].pc.Opening?
    ensures h < |After(run).conns| && LettingGo(After(run).conns[h].pc) && After(run).conns[h].pump == Absent
  {
    RelaysEndStopped(run[..n], h);
    PrefixRuns(INIT, run, n);
    assert run[n..][0] == run[n] && run[n..][1..] == run[n + 1..];
    GoneForGood(Next(After(run[..n]), run[n]).value, run[n + 1..], h);
  }

  /** A flash whose payload does not arrive, or is not the one announced, is never written. */
  lemma NoPayloadNoWrite(run: seq<Action>, n: nat, h: nat, c: Choice)
    requires Run(INIT, run).Some? && n < |run| && Run(INIT, run[..n]).Some?
    requires run[n] == Step(h, c) && c != Go && h < |After(run[..n]).conns| && After(run[..n]).conns[h].pc.Receiving?
    ensures h < |After(run).conns| && LettingGo(After(run).conns[h].pc)
  {
    PrefixRuns(INIT, run, n);
    assert run[n..][0] == run[n] && run[n..][1..] == run[n + 1..];
    GoneForGood(Next(After(run[..n]), run[n]).value, run[n + 1..], h);
  }
}
