/** Runs of the fleet in which the promises it does not always keep are broken. */
module FleetWitnesses {
  import opened Wrappers
  import opened Occupancy
  import opened Fleet
  import opened FleetTheorems

  lemma FiveSteps(s: State, s1: State, s2: State, s3: State, s4: State, s5: State, a: Action)
    requires Next(s, a) == Some(s1) && Next(s1, a) == Some(s2) && Next(s2, a) == Some(s3)
    requires Next(s3, a) == Some(s4) && Next(s4, a) == Some(s5)
    ensures Run(s, [a, a, a, a, a]) == Some(s5)
  {
    hide Next;
    assert Run(s4, [a]) == Some(s5) by { assert [a][1..] == []; }
    assert Run(s3, [a, a]) == Some(s5) by { assert [a, a][1..] == [a]; }
    assert Run(s2, [a, a, a]) == Some(s5) by { assert [a, a, a][1..] == [a, a]; }
    assert Run(s1, [a, a, a, a]) == Some(s5) by { assert [a, a, a, a][1..] == [a, a, a]; }
    assert [a, a, a, a, a][1..] == [a, a, a, a];
  }

  /** A handler alone with a free lock stores its claim and drops the lock again. */
  lemma ClaimsInFive(s: State, h: nat) returns (r: seq<Action>)
    requires h < |s.conns| && s.conns[h].pc == Start && s.conns[h].board < |s.boards|
    requires s.boards[s.conns[h].board].lock == None
    requires var seen := s.boards[s.conns[h].board].occupant;
             seen == None || (s.conns[h].kind == Flash && seen.value < |s.conns| && !IsFlash(s, seen))
    ensures Run(s, r).Some?
    ensures var s' := Run(s, r).value; var c := s.conns[h]; var seen := s.boards[c.board].occupant;
            && s'.conns == s.conns[h := c.(pc := AfterClaim(c.kind, true, seen), victim := seen)]
            && s'.boards == s.boards[c.board := s.boards[c.board].(occupant := Some(h))]
            && s'.sup == s.sup && s'.acceptor == s.acceptor
  {
    var a := Step(h, Go);
    var b := s.conns[h].board;
    var s1 := Next(s, a).value;
    assert s.log + [] == s.log;
    var s2 := Next(s1, a).value;
    assert s2.boards[b := s2.boards[b]] == s2.boards;
    var s3 := Next(s2, a).value;
    var s4 := Next(s3, a).value;
    var s5 := Next(s4, a).value;
    FiveSteps(s, s1, s2, s3, s4, s5, a);
    r := [a, a, a, a, a];
  }

  /** The Supervisor sweeps a board whose lock is free and gives its occupant up
      after the bounded join. */
  lemma SweepsInEight(s: State, b: nat, v: nat) returns (r: seq<Action>)
    requires s.sup == Idle && b < |s.boards| && v < |s.conns|
    requires s.boards[b] == BoardState(Some(v), None, Live)
    ensures Run(s, r).Some?
    ensures var s' := Run(s, r).value;
            && s'.conns == s.conns[v := s.conns[v].(stop := true, closed := true)]
            && s'.boards == s.boards[b := BoardState(None, None, Swept(Some(v)))]
            && s'.sup == Idle && s'.acceptor == s.acceptor
  {
    r := SweepStores(s, b, v);
    StepOn(s, r, Sup(Go)); r := r + [Sup(Go)];
    StepOn(s, r, Sup(Go)); r := r + [Sup(Go)];
    StepOn(s, r, Sup(Timeout)); r := r + [Sup(Timeout)];
  }

  /** After a departure, a connection accepted earlier can still claim the departed
      board, and two firmware writes can run at once. */
  lemma TwoFlashesAfterDeparture() returns (run: seq<Action>)
    ensures Run(INIT, run).Some?
    ensures var s := After(run);
            && |s.conns| == 2 && |s.boards| == 1 && s.boards[0].departure == Swept(Some(0))
            && s.conns[0].pc == Flashing && s.conns[0].board == 0
            && s.conns[1].pc == Flashing && s.conns[1].board == 0
  {
    run := [Arrive];
    assert run[1..] == [];
    StepOn(INIT, run, Accept(Flash, 0)); run := run + [Accept(Flash, 0)];
    StepOn(INIT, run, Accept(Flash, 0)); run := run + [Accept(Flash, 0)];
    var r := ClaimsInFive(After(run), 0);
    RunAppend(INIT, run, r); run := run + r;
    StepOn(INIT, run, Step(0, Go)); run := run + [Step(0, Go)];
    r := SweepsInEight(After(run), 0, 0);
    RunAppend(INIT, run, r); run := run + r;
    r := ClaimsInFive(After(run), 1);
    RunAppend(INIT, run, r); run := run + r;
    StepOn(INIT, run, Step(1, Go)); run := run + [Step(1, Go)];
  }

  /** A flash that has displaced a serial session tells it to stop and closes its
      connection, before that session takes another step. */
  lemma TellsInTwo(s: State, f: nat, v: nat) returns (r: seq<Action>)
    requires f < |s.conns| && v < |s.conns| && f != v && s.conns[f].board < |s.boards|
    requires s.conns[f].pc == Pc.Stopping(v)
    ensures Run(s, r).Some?
    ensures var s' := Run(s, r).value;
            && s'.conns == s.conns[v := s.conns[v].(stop := true, closed := true)]
                                  [f := s.conns[f].(pc := Pc.Joining(v))]
            && s'.boards == s.boards && s'.sup == s.sup && s'.acceptor == s.acceptor
  {
    hide Claim;
    hide Letgo;
    r := [Step(f, Go)];
    assert r[1..] == [];
    assert Run(s, r) == Some(SetPc(SetStop(s, v), f, Pc.Shutting(v)));
    StepOn(s, r, Step(f, Go)); r := r + [Step(f, Go)];
  }

  /** Then it loses patience and goes on to write. */
  lemma GivesUpInFour(s: State, f: nat, v: nat) returns (r: seq<Action>)
    requires f < |s.conns| && v < |s.conns| && f != v && s.conns[f].board < |s.boards|
    requires s.conns[f].pc == Pc.Stopping(v) && s.conns[v].pc != Done
    ensures Run(s, r).Some?
    ensures var s' := Run(s, r).value;
            && s'.conns == s.conns[v := s.conns[v].(stop := true, closed := true)]
                                  [f := s.conns[f].(pc := Flashing, gaveUp := true)]
            && s'.boards == s.boards && s'.sup == s.sup && s'.acceptor == s.acceptor
  {
    hide Claim;
    hide Letgo;
    r := TellsInTwo(s, f, v);
    hide Run;
    assert Run(s, r).value.conns[f].pc == Pc.Joining(v) && !HasExited(Run(s, r).value, v);
    StepOn(s, r, Step(f, Timeout)); r := r + [Step(f, Timeout)];
    assert Run(s, r).value.conns[f].pc == Receiving;
    StepOn(s, r, Step(f, Go)); r := r + [Step(f, Go)];
  }

  /** A serial session relays on the only board. */
  lemma OneRelay() returns (run: seq<Action>)
    ensures Run(INIT, run).Some?
    ensures var s := After(run);
            && s.conns == [Conn(Serial, 0, Relaying, false, false, Running, None, false)]
            && s.boards == [BoardState(Some(0), None, Live)] && s.sup == Idle && s.acceptor == Accepting
  {
    run := [Arrive];
    assert run[1..] == [];
    StepOn(INIT, run, Accept(Serial, 0)); run := run + [Accept(Serial, 0)];
    var r := ClaimsInFive(After(run), 0);
    RunAppend(INIT, run, r); run := run + r;
    StepOn(INIT, run, Step(0, Go)); run := run + [Step(0, Go)];
  }

  /** A bounded join can run out: the flash writes firmware while the session it
      displaced has not left its relay loop. */
  lemma FlashBesideDisplacedSession() returns (run: seq<Action>)
    ensures Run(INIT, run).Some?
    ensures var s := After(run);
            && |s.conns| == 2 && |s.boards| == 1
            && s.conns[0].kind == Serial && s.conns[0].pc == Relaying
            && s.conns[1].pc == Flashing && s.conns[1].victim == Some(0) && s.conns[1].gaveUp
            && s.boards[0].departure == Live
  {
    run := OneRelay();
    StepOn(INIT, run, Accept(Flash, 0)); run := run + [Accept(Flash, 0)];
    var r := ClaimsInFive(After(run), 1);
    RunAppend(INIT, run, r); run := run + r;
    r := GivesUpInFour(After(run), 1, 0);
    RunAppend(INIT, run, r); run := run + r;
  }

  /** The departure's sweep stores its result: the board is idle, and its former
      occupant is not told yet. */
  lemma SweepStores(s: State, b: nat, v: nat) returns (r: seq<Action>)
    requires s.sup == Idle && b < |s.boards| && v < |s.conns|
    requires s.boards[b] == BoardState(Some(v), None, Live)
    ensures Run(s, r).Some?
    ensures var s' := Run(s, r).value;
            && s'.conns == s.conns && s'.acceptor == s.acceptor
            && s'.boards == s.boards[b := BoardState(None, None, Swept(Some(v)))]
            && s'.sup == SupPc.Stopping(v)
  {
    r := [Depart(b)];
    assert r[1..] == [];
    StepOn(s, r, Sup(Go)); r := r + [Sup(Go)];
    StepOn(s, r, Sup(Go)); r := r + [Sup(Go)];
    StepOn(s, r, Sup(Go)); r := r + [Sup(Go)];
    StepOn(s, r, Sup(Go)); r := r + [Sup(Go)];
  }

  /** No join need run out: between the departure's sweep and its `terminate`, a flash
      accepted earlier claims the idle departed board and writes firmware beside the
      session swept from it, which nobody has told to stop. */
  lemma FlashBesideSweptSession() returns (run: seq<Action>)
    ensures Run(INIT, run).Some?
    ensures var s := After(run);
            && |s.conns| == 2 && |s.boards| == 1
            && s.conns[0].kind == Serial && s.conns[0].pc == Relaying && !s.conns[0].stop
            && s.conns[1].pc == Flashing && s.conns[1].victim == None && !s.conns[1].gaveUp
            && s.boards[0].departure == Swept(Some(0))
  {
    run := OneRelay();
    StepOn(INIT, run, Accept(Flash, 0)); run := run + [Accept(Flash, 0)];
    var r := SweepStores(After(run), 0, 0);
    RunAppend(INIT, run, r); run := run + r;
    r := ClaimsInFive(After(run), 1);
    RunAppend(INIT, run, r); run := run + r;
    StepOn(INIT, run, Step(1, Go)); run := run + [Step(1, Go)];
  }

  /** A flash has displaced the relaying session, and another one waits its turn. */
  lemma OneDisplaced() returns (run: seq<Action>)
    ensures Run(INIT, run).Some?
    ensures var s := After(run);
            && s.conns == [Conn(Serial, 0, Relaying, false, false, Running, None, false),
                           Conn(Flash, 0, Pc.Stopping(0), false, false, Absent, Some(0), false),
                           Conn(Flash, 0, Start, false, false, Absent, None, false)]
            && s.boards == [BoardState(Some(1), None, Live)] && s.sup == Idle
  {
    run := OneRelay();
    StepOn(INIT, run, Accept(Flash, 0)); run := run + [Accept(Flash, 0)];
    StepOn(INIT, run, Accept(Flash, 0)); run := run + [Accept(Flash, 0)];
    var r := ClaimsInFive(After(run), 1);
    RunAppend(INIT, run, r); run := run + r;
  }

  /** The third way: a departure takes the flash that displaced the session, which has
      not stopped it yet, and another flash writes firmware beside them both. */
  lemma FlashBesideSweptDisplacer() returns (run: seq<Action>)
    ensures Run(INIT, run).Some?
    ensures var s := After(run);
            && |s.conns| == 3 && |s.boards| == 1
            && s.conns[0].kind == Serial && s.conns[0].pc == Relaying
            && s.conns[1].pc == Pc.Stopping(0) && s.boards[0].departure == Swept(Some(1))
            && s.conns[2].pc == Flashing && s.conns[2].victim == None && !s.conns[2].gaveUp
  {
    run := OneDisplaced();
    var r := SweepStores(After(run), 0, 1);
    RunAppend(INIT, run, r); run := run + r;
    r := ClaimsInFive(After(run), 2);
    RunAppend(INIT, run, r); run := run + r;
    StepOn(INIT, run, Step(2, Go)); run := run + [Step(2, Go)];
  }
}
