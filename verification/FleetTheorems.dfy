/**
  The promises of the occupancy protocol, for every run of the fleet, and exactly when
  those hold that it does not always keep.
 */
module FleetTheorems {
  import opened Wrappers
  import opened Occupancy
  import opened Fleet
  import opened FleetInvariant
  import opened FleetSafety

  /** The state a possible run ends in. */
  function After(run: seq<Action>): State
    requires Run(INIT, run).Some?
  {
    Run(INIT, run).value
  }

  // ---------------------------------------------------------------------------
  // Runs, one after the other
  // ---------------------------------------------------------------------------

  lemma {:induction false} RunAppend(s: State, r: seq<Action>, q: seq<Action>)
    requires Run(s, r).Some?
    ensures Run(s, r + q) == Run(Run(s, r).value, q)
    decreases |r|
  {
    if r == [] {
      assert r + q == q;
    } else {
      assert (r + q)[1..] == r[1..] + q;
      RunAppend(Next(s, r[0]).value, r[1..], q);
    }
  }

  lemma StepOn(s: State, r: seq<Action>, a: Action)
    requires Run(s, r).Some? && Next(Run(s, r).value, a).Some?
    ensures Run(s, r + [a]) == Next(Run(s, r).value, a)
  {
    RunAppend(s, r, [a]);
    assert [a][1..] == [];
  }

  /** Every beginning of a possible run is possible. */
  lemma {:induction false} PrefixRuns(s: State, run: seq<Action>, n: nat)
    requires Run(s, run).Some? && n <= |run|
    ensures Run(s, run[..n]).Some?
    ensures Run(s, run) == Run(Run(s, run[..n]).value, run[n..])
    decreases n
  {
    if n > 0 {
      PrefixRuns(Next(s, run[0]).value, run[1..], n - 1);
      assert run[..n][1..] == run[1..][..n - 1];
    }
    assert run[..n] + run[n..] == run;
    RunAppend(s, run[..n], run[n..]);
  }

  // ---------------------------------------------------------------------------
  // Who may be running without occupying, and who owes whom a terminate
  // ---------------------------------------------------------------------------

  /**
    A session that has claimed its board and not let go of it either occupies it,
    or was displaced exactly once -- by one thread, which alone can still owe it a
    `terminate`, and which does owe it as long as its stop flag is down.
   */
  lemma SessionsAccountedFor(run: seq<Action>, h: nat)
    requires Run(INIT, run).Some? && h < |After(run).conns|
    requires Holding(After(run).conns[h].pc)
    ensures var s := After(run); var c := s.conns[h];
            && c.board < |s.boards|
            && (s.boards[c.board].occupant == Some(h)
                || exists t :: WasOusted(s, h, t) && (c.stop || Obliged(s, t, h)))
  {
    hide Story;
    hide Count;
    Reachable(run);
    var s := After(run);
    assert ConnOk(s, h);
    if s.boards[s.conns[h].board].occupant != Some(h) {
      assert WasOusted(s, h, Story(s.log, h)[1].who);
    }
  }

  /** At most one thread owes a session its `terminate`, and only the one that ousted it. */
  lemma OneCreditor(run: seq<Action>, h: nat, t: Tid, u: Tid)
    requires Run(INIT, run).Some?
    requires Obliged(After(run), t, h) && Obliged(After(run), u, h)
    ensures t == u
    ensures h < |After(run).conns| && WasOusted(After(run), h, t)
  {
    hide Story;
    hide Count;
    Reachable(run);
    OustedByCreditor(After(run), h, t);
    OustedByCreditor(After(run), h, u);
  }

  lemma OustedByCreditor(s: State, h: nat, t: Tid)
    requires Inv(s) && Obliged(s, t, h)
    ensures h < |s.conns| && WasOusted(s, h, t)
  {
    hide Story;
    hide Count;
    if t.Handler? {
      assert ConnOk(s, t.h);
    }
  }

  /** Outside its critical sections a handler leaves every board alone. */
  lemma OnlySectionsTouchBoards(s: State, h: nat, c: Choice)
    requires Next(s, Step(h, c)).Some? && !s.conns[h].pc.Claiming? && !s.conns[h].pc.Releasing?
    ensures Next(s, Step(h, c)).value.boards == s.boards
  {
    hide Claim;
    hide Letgo;
  }

  lemma HandlerLoses(s: State, h: nat, c: Choice, b: nat, x: nat)
    requires Inv(s) && Next(s, Step(h, c)).Some?
    requires b < |s.boards| && s.boards[b].occupant == Some(x)
    requires Next(s, Step(h, c)).value.boards[b].occupant != Some(x)
    ensures var s' := Next(s, Step(h, c)).value;
            && x < |s.conns|
            && if h == x then s.conns[x].pc.Releasing? && s'.boards[b].occupant == None
               else s.conns[h].kind == Flash && s.conns[x].kind == Serial && s'.boards[b].occupant == Some(h)
  {
    hide Story;
    hide Count;
    assert BoardOk(s, b) && ConnOk(s, h) && ConnOk(s, x);
    hide Inv;
    hide BoardOk;
    hide StoryOk;
    hide OustedOk;
    hide VictimProgress;
    if s.conns[h].pc.Claiming? {
      ClaimNext(s, h, c);
    } else if s.conns[h].pc.Releasing? {
      ReleaseNext(s, h, c);
    } else {
      OnlySectionsTouchBoards(s, h, c);
    }
    hide Next;
  }

  /**
    An occupant loses its board in three ways only: it lets go itself, a flash
    displaces a serial session, or the departure of the board sweeps it away.
   */
  lemma OccupantLosesOnlyTo(run: seq<Action>, a: Action, b: nat, x: nat)
    requires Run(INIT, run).Some? && Next(After(run), a).Some?
    requires b < |After(run).boards| && After(run).boards[b].occupant == Some(x)
    requires Next(After(run), a).value.boards[b].occupant != Some(x)
    ensures var s := After(run); var s' := Next(s, a).value;
            && x < |s.conns|
            && (|| (a.Step? && a.h == x && s.conns[x].pc.Releasing? && s'.boards[b].occupant == None)
                || (a.Step? && a.h != x && a.h < |s.conns| && s.conns[a.h].kind == Flash
                    && s.conns[x].kind == Serial && s'.boards[b].occupant == Some(a.h))
                || (a.Sup? && s.boards[b].departure == Leaving && s'.boards[b].occupant == None))
  {
    hide Story;
    hide Count;
    Reachable(run);
    var s := After(run);
    assert BoardOk(s, b);
    if a.Step? {
      HandlerLoses(s, a.h, a.c, b, x);
      hide HandlerStep;
    }
    hide ConnOk;
  }

  /** Whatever a displaced session still does, including its own late release, no
      board's occupant changes by it. */
  lemma LateReleaseIsHarmless(run: seq<Action>, h: nat, c: Choice, b: nat)
    requires Run(INIT, run).Some? && Next(After(run), Step(h, c)).Some?
    requires IsOusted(After(run), h) && b < |After(run).boards|
    ensures Next(After(run), Step(h, c)).value.boards[b].occupant == After(run).boards[b].occupant
  {
    hide Story;
    hide Count;
    Reachable(run);
    var s := After(run);
    assert ConnOk(s, h);
    hide Inv;
    if s.conns[h].pc.Claiming? {
      ClaimNext(s, h, c);
    } else if s.conns[h].pc.Releasing? {
      ReleaseNext(s, h, c);
    } else {
      OnlySectionsTouchBoards(s, h, c);
    }
    hide Next;
    hide OustedOk;
    hide VictimProgress;
  }

  // ---------------------------------------------------------------------------
  // Two flashes
  // ---------------------------------------------------------------------------

  predicate FlashInFlight(s: State, f: nat, b: nat) {
    f < |s.conns| && s.conns[f].kind == Flash && s.conns[f].board == b && Holding(s.conns[f].pc)
  }

  /** Two flashes are past their claim on one board only after its departure has
      swept one of them; never three. */
  lemma SecondFlashNeedsDeparture(run: seq<Action>, b: nat, f: nat, g: nat)
    requires Run(INIT, run).Some? && b < |After(run).boards| && f != g
    requires FlashInFlight(After(run), f, b) && FlashInFlight(After(run), g, b)
    ensures var d := After(run).boards[b].departure; d == Swept(Some(f)) || d == Swept(Some(g))
  {
    hide Story;
    hide Count;
    Reachable(run);
    assert ConnOk(After(run), f) && ConnOk(After(run), g);
  }

  /** A flash in flight occupies its board, unless the departure has taken it off. */
  lemma OccupiesUnlessSwept(run: seq<Action>, b: nat, f: nat)
    requires Run(INIT, run).Some? && b < |After(run).boards| && FlashInFlight(After(run), f, b)
    ensures After(run).boards[b].occupant == Some(f) <==> After(run).boards[b].departure != Swept(Some(f))
  {
    hide Story;
    hide Count;
    Reachable(run);
    assert ConnOk(After(run), f) && BoardOk(After(run), b);
  }

  /** While `f` is the only flash in flight, another one gets in exactly when the
      departure has taken `f` off the board before. */
  lemma SecondFlashGetsInIff(run: seq<Action>, b: nat, f: nat, g: nat, c: Choice)
    requires Run(INIT, run).Some? && b < |After(run).boards| && FlashInFlight(After(run), f, b)
    requires forall k :: FlashInFlight(After(run), k, b) ==> k == f
    requires g < |After(run).conns| && After(run).conns[g].kind == Flash && After(run).conns[g].board == b
    requires After(run).conns[g].pc.Claiming? && After(run).conns[g].pc.ph.Seen?
    requires Next(After(run), Step(g, c)).Some?
    ensures FlashInFlight(Next(After(run), Step(g, c)).value, g, b)
            <==> After(run).boards[b].departure == Swept(Some(f))
  {
    hide Story;
    hide Count;
    Reachable(run);
    var s := After(run);
    OccupiesUnlessSwept(run, b, f);
    assert ConnOk(s, g) && BoardOk(s, b);
    var occ := s.boards[b].occupant;
    if occ.Some? && occ != Some(f) {
      assert ConnOk(s, occ.value);
      assert !FlashInFlight(s, occ.value, b);
    }
    assert Claim(s, g, s.conns[g].pc.ph) == Next(s, Step(g, c));
    hide Inv;
  }

  lemma NeverThreeFlashes(run: seq<Action>, b: nat, f: nat, g: nat, k: nat)
    requires Run(INIT, run).Some? && b < |After(run).boards| && f != g && g != k && f != k
    requires FlashInFlight(After(run), f, b) && FlashInFlight(After(run), g, b)
    ensures !FlashInFlight(After(run), k, b)
  {
    if FlashInFlight(After(run), k, b) {
      SecondFlashNeedsDeparture(run, b, f, g);
      SecondFlashNeedsDeparture(run, b, g, k);
      SecondFlashNeedsDeparture(run, b, f, k);
    }
  }

  // ---------------------------------------------------------------------------
  // A flash and the session it displaced
  // ---------------------------------------------------------------------------

  /** Past its join, a flash finds the displaced session stopped and its socket
      closed, and the session's thread exited unless the join ran out. */
  lemma DisplacedBeforeFlash(run: seq<Action>, f: nat, v: nat)
    requires Run(INIT, run).Some? && f < |After(run).conns|
    requires After(run).conns[f].victim == Some(v)
    requires var pc := After(run).conns[f].pc; pc.Receiving? || pc.Flashing?
    ensures var s := After(run);
            && v < |s.conns| && s.conns[v].kind == Serial
            && s.conns[v].stop && s.conns[v].closed
            && (s.conns[v].pc == Done || s.conns[f].gaveUp)
  {
    hide Story;
    hide Count;
    Reachable(run);
    assert ConnOk(After(run), f);
  }

  /** Flash `f` is past its join on board `b`. */
  predicate PastJoin(s: State, f: nat, b: nat) {
    f < |s.conns| && s.conns[f].board == b && (s.conns[f].pc.Receiving? || s.conns[f].pc.Flashing?)
  }

  /** Session `x` has claimed board `b` and not let go of it. */
  predicate RunsOn(s: State, x: nat, b: nat) {
    x < |s.conns| && s.conns[x].board == b && Holding(s.conns[x].pc)
  }

  /** `g` displaced `x` on board `b` and did not wait for its end. */
  predicate GaveUpOn(s: State, g: nat, x: nat, b: nat) {
    g < |s.conns| && s.conns[g].kind == Flash && s.conns[g].board == b
    && s.conns[g].victim == Some(x) && s.conns[g].gaveUp
  }

  /** The departure took `g` off board `b` when `g` had displaced `x` there. */
  predicate SweptDisplacer(s: State, g: nat, x: nat, b: nat)
    requires b < |s.boards|
  {
    s.boards[b].departure == Swept(Some(g)) && Displaced(s, g, x)
  }

  lemma FlashPastJoin(run: seq<Action>, b: nat, f: nat)
    requires Run(INIT, run).Some? && PastJoin(After(run), f, b)
    ensures FlashInFlight(After(run), f, b)
  {
    hide Story;
    hide Count;
    Reachable(run);
    assert ConnOk(After(run), f);
  }

  lemma DisplacerIsDone(run: seq<Action>, b: nat, f: nat, x: nat, g: nat)
    requires Run(INIT, run).Some? && b < |After(run).boards|
    requires PastJoin(After(run), f, b) && RunsOn(After(run), x, b)
    requires After(run).boards[b].occupant.Some? ==> After(run).boards[b].occupant == Some(f)
    requires Displaced(After(run), g, x) && After(run).conns[g].kind == Flash && After(run).conns[g].board == b
    ensures GaveUpOn(After(run), g, x, b) || SweptDisplacer(After(run), g, x, b)
  {
    hide Story;
    hide Count;
    Reachable(run);
    var s := After(run);
    assert ConnOk(s, g);
    if FlashInFlight(s, g, b) {
      OccupiesUnlessSwept(run, b, g);
    }
    hide Inv;
  }

  /** Where a flash past its join is the occupant, or nobody is, whoever else still runs
      was taken by the departure, or its displacer was, or gave up waiting for it. */
  lemma WhoElseRuns(run: seq<Action>, b: nat, f: nat, x: nat)
    requires Run(INIT, run).Some? && b < |After(run).boards|
    requires PastJoin(After(run), f, b) && RunsOn(After(run), x, b) && x != f
    requires After(run).boards[b].occupant.Some? ==> After(run).boards[b].occupant == Some(f)
    ensures var s := After(run);
            || s.boards[b].departure == Swept(Some(x))
            || (s.conns[x].kind == Serial
                && exists g :: GaveUpOn(s, g, x, b) || SweptDisplacer(s, g, x, b))
  {
    hide Story;
    hide Count;
    Reachable(run);
    var s := After(run);
    assert ConnOk(s, x);
    if s.boards[b].departure != Swept(Some(x)) {
      assert IsOusted(s, x);
      var who := Story(s.log, x)[1].who;
      assert who.Handler? && Displaced(s, who.h, x);
      DisplacerIsDone(run, b, f, x, who.h);
    }
  }

  /** Whoever still runs on the board beside a flash past its join: the departure took
      it, or that flash, or the flash that displaced it, off the board; or the flash
      that displaced it gave up waiting for it. */
  lemma WhoRunsBeside(run: seq<Action>, b: nat, f: nat, x: nat)
    requires Run(INIT, run).Some? && b < |After(run).boards|
    requires PastJoin(After(run), f, b) && RunsOn(After(run), x, b) && x != f
    ensures var s := After(run); var d := s.boards[b].departure;
            || d == Swept(Some(f)) || d == Swept(Some(x))
            || (s.conns[x].kind == Serial
                && exists g :: GaveUpOn(s, g, x, b) || SweptDisplacer(s, g, x, b))
  {
    hide Run;
    hide RunsOn;
    hide GaveUpOn;
    hide SweptDisplacer;
    FlashPastJoin(run, b, f);
    OccupiesUnlessSwept(run, b, f);
    if After(run).boards[b].departure != Swept(Some(f)) {
      WhoElseRuns(run, b, f, x);
    }
  }

  /** An occupant has claimed its board and not let go of it. */
  lemma OccupantRuns(run: seq<Action>, b: nat)
    requires Run(INIT, run).Some? && b < |After(run).boards| && After(run).boards[b].occupant.Some?
    ensures RunsOn(After(run), After(run).boards[b].occupant.value, b)
  {
    hide Story;
    hide Count;
    Reachable(run);
    var s := After(run);
    assert BoardOk(s, b);
    assert ConnOk(s, s.boards[b].occupant.value);
  }

  /** A displaced session is not the flash. */
  lemma VictimIsNotFlash(run: seq<Action>, b: nat, f: nat, g: nat, x: nat)
    requires Run(INIT, run).Some? && b < |After(run).boards| && PastJoin(After(run), f, b)
    requires GaveUpOn(After(run), g, x, b) || SweptDisplacer(After(run), g, x, b)
    ensures x != f
  {
    hide Story;
    hide Count;
    Reachable(run);
    assert ConnOk(After(run), g) && ConnOk(After(run), f);
  }

  /** Nothing is left on board `b` but possibly `f`: nobody else occupies it, nobody the
      departure took is still running, and no session outlives a displacer that gave up
      on it or was itself taken. */
  ghost predicate NobodyElse(s: State, b: nat, f: nat)
    requires b < |s.boards|
  {
    && (s.boards[b].occupant.Some? ==> s.boards[b].occupant == Some(f))
    && (forall x :: s.boards[b].departure == Swept(Some(x)) && x != f ==> !RunsOn(s, x, b))
    && (forall g, x :: GaveUpOn(s, g, x, b) || SweptDisplacer(s, g, x, b) ==> !RunsOn(s, x, b))
  }

  /** On any board, departed or not, exactly then is a flash past its join alone. */
  lemma AloneIff(run: seq<Action>, b: nat, f: nat)
    requires Run(INIT, run).Some? && b < |After(run).boards| && PastJoin(After(run), f, b)
    ensures (forall x :: RunsOn(After(run), x, b) ==> x == f) <==> NobodyElse(After(run), b, f)
  {
    hide PastJoin;
    hide RunsOn;
    hide GaveUpOn;
    hide SweptDisplacer;
    hide Run;
    var s := After(run);
    if NobodyElse(s, b, f) {
      forall x | RunsOn(s, x, b) ensures x == f {
        if x != f {
          WhoElseRuns(run, b, f, x);
        }
      }
    }
    if forall x :: RunsOn(s, x, b) ==> x == f {
      if s.boards[b].occupant.Some? {
        OccupantRuns(run, b);
      }
      forall g, x | GaveUpOn(s, g, x, b) || SweptDisplacer(s, g, x, b) ensures !RunsOn(s, x, b) {
        VictimIsNotFlash(run, b, f, g, x);
      }
    }
  }

  /** In particular: on a board that no departure took anyone from, a flash past its join is alone
      exactly when every session that a flash gave up waiting for has let go since. */
  lemma AloneIffNoneOutlives(run: seq<Action>, b: nat, f: nat)
    requires Run(INIT, run).Some? && b < |After(run).boards| && PastJoin(After(run), f, b)
    requires forall x :: After(run).boards[b].departure != Swept(Some(x))
    ensures var s := After(run);
            (forall x :: RunsOn(s, x, b) ==> x == f)
            <==> (forall g, x :: GaveUpOn(s, g, x, b) ==> !RunsOn(s, x, b))
  {
    hide Run;
    hide RunsOn;
    hide GaveUpOn;
    AloneIff(run, b, f);
    FlashPastJoin(run, b, f);
    OccupiesUnlessSwept(run, b, f);
  }

  /** Flash `f` is past its join beside the session it displaced, which has not ended. */
  predicate BesideItsVictim(s: State, f: nat) {
    && f < |s.conns| && PastJoin(s, f, s.conns[f].board)
    && s.conns[f].victim.Some? && !HasExited(s, s.conns[f].victim.value)
  }

  predicate GaveUp(s: State, f: nat) {
    f < |s.conns| && s.conns[f].gaveUp
  }

  /** Over whole runs: a flash was ever past its join beside a living victim exactly
      when its join ran out. */
  lemma {:induction false} OutlivedIffGaveUp(run: seq<Action>, f: nat)
    requires Run(INIT, run).Some?
    ensures (exists n: nat :: n <= |run| && Run(INIT, run[..n]).Some? && BesideItsVictim(After(run[..n]), f))
            <==> GaveUp(After(run), f)
  {
    if n: nat :| n <= |run| && Run(INIT, run[..n]).Some? && BesideItsVictim(After(run[..n]), f) {
      DisplacedBeforeFlash(run[..n], f, After(run[..n]).conns[f].victim.value);
      PrefixRuns(INIT, run, n);
      GaveUpStays(After(run[..n]), run[n..], f);
    }
    if GaveUp(After(run), f) {
      SomePrefixOutlived(run, f);
    }
  }

  /** Critical sections leave the record of joins alone. */
  lemma SectionsKeepGaveUp(s: State, h: nat, c: Choice, f: nat)
    requires h < |s.conns| && s.conns[h].board < |s.boards| && HandlerStep(s, h, c).Some?
    requires s.conns[h].pc.Claiming? || s.conns[h].pc.Releasing?
    ensures var s' := HandlerStep(s, h, c).value;
            |s'.conns| == |s.conns| && (f < |s.conns| ==> s'.conns[f].gaveUp == s.conns[f].gaveUp)
  {
    hide SectionStep;
    if s.conns[h].pc.Claiming? {
      assert Claim(s, h, s.conns[h].pc.ph) == HandlerStep(s, h, c);
    } else {
      assert Letgo(s, h, s.conns[h].pc.ph) == HandlerStep(s, h, c);
    }
  }

  lemma TellingKeepsGaveUp(s: State, h: nat, c: Choice, f: nat)
    requires h < |s.conns| && s.conns[h].board < |s.boards| && HandlerStep(s, h, c).Some?
    requires s.conns[h].pc.Stopping? || s.conns[h].pc.Shutting?
    ensures var s' := HandlerStep(s, h, c).value;
            |s'.conns| == |s.conns| && (f < |s.conns| ==> s'.conns[f].gaveUp == s.conns[f].gaveUp)
  {
    hide Claim;
    hide Letgo;
  }

  /** Of all steps of handlers only the end of a join touches that record. */
  lemma OnlyJoinsGiveUp(s: State, h: nat, c: Choice, f: nat)
    requires h < |s.conns| && s.conns[h].board < |s.boards| && HandlerStep(s, h, c).Some?
    requires !(h == f && s.conns[h].pc.Joining?)
    ensures var s' := HandlerStep(s, h, c).value;
            |s'.conns| == |s.conns| && (f < |s.conns| ==> s'.conns[f].gaveUp == s.conns[f].gaveUp)
  {
    hide Claim;
    hide Letgo;
    hide SetStop;
    hide SetClosed;
    var pc := s.conns[h].pc;
    if pc.Claiming? || pc.Releasing? {
      SectionsKeepGaveUp(s, h, c, f);
      hide HandlerStep;
    } else if pc.Stopping? || pc.Shutting? {
      TellingKeepsGaveUp(s, h, c, f);
      hide HandlerStep;
    }
  }

  predicate EndsJoin(s: State, a: Action, f: nat) {
    a.Step? && a.h == f && f < |s.conns| && s.conns[f].pc.Joining?
  }

  lemma GaveUpSame(s: State, a: Action, f: nat)
    requires Next(s, a).Some? && !EndsJoin(s, a, f)
    ensures GaveUp(Next(s, a).value, f) == GaveUp(s, f)
  {
    hide HandlerStep;
    hide SectionStep;
    if a.Step? {
      OnlyJoinsGiveUp(s, a.h, a.c, f);
    }
  }

  lemma GaveUpStep(s: State, a: Action, f: nat)
    requires Next(s, a).Some? && GaveUp(s, f)
    ensures GaveUp(Next(s, a).value, f)
  {
    if EndsJoin(s, a, f) {
      assert Next(s, a) == HandlerStep(s, f, a.c);
    } else {
      GaveUpSame(s, a, f);
      hide Next;
    }
  }

  lemma {:induction false} GaveUpStays(s: State, run: seq<Action>, f: nat)
    requires Run(s, run).Some? && GaveUp(s, f)
    ensures GaveUp(Run(s, run).value, f)
    decreases |run|
  {
    if run != [] {
      GaveUpStep(s, run[0], f);
      GaveUpStays(Next(s, run[0]).value, run[1..], f);
    }
  }

  /** The step that gives up leaves the flash past its join beside its victim. */
  lemma GivingUpStep(s: State, a: Action, f: nat)
    requires Inv(s) && Next(s, a).Some? && !GaveUp(s, f) && GaveUp(Next(s, a).value, f)
    ensures BesideItsVictim(Next(s, a).value, f)
  {
    hide Story;
    hide Count;
    if EndsJoin(s, a, f) {
      assert ConnOk(s, f);
      hide Inv;
      assert Next(s, a) == HandlerStep(s, f, a.c);
    } else {
      GaveUpSame(s, a, f);
      hide Next;
    }
  }

  lemma {:induction false} SomePrefixOutlived(run: seq<Action>, f: nat)
    requires Run(INIT, run).Some? && GaveUp(After(run), f)
    ensures exists n: nat :: n <= |run| && Run(INIT, run[..n]).Some? && BesideItsVictim(After(run[..n]), f)
    decreases |run|
  {
    if run != [] {
      var init, a := run[..|run| - 1], run[|run| - 1];
      PrefixRuns(INIT, run, |run| - 1);
      assert run[|run| - 1..] == [a] && [a][1..] == [];
      if GaveUp(After(init), f) {
        SomePrefixOutlived(init, f);
        var n: nat :| n <= |init| && Run(INIT, init[..n]).Some? && BesideItsVictim(After(init[..n]), f);
        assert run[..n] == init[..n];
      } else {
        Reachable(init);
        GivingUpStep(After(init), a, f);
        assert run[..|run|] == run;
      }
    }
  }

  // ---------------------------------------------------------------------------
  // Accounting
  // ---------------------------------------------------------------------------

  /** Claims = releases + preemptions + departures' takes + the occupant, per board. */
  lemma ClaimsBalance(run: seq<Action>, b: nat)
    requires Run(INIT, run).Some? && b < |After(run).boards|
    ensures Balanced(After(run), b)
  {
    hide Story;
    hide Count;
    Reachable(run);
    assert BoardOk(After(run), b);
  }

  /** A finished handler's connection is closed, its session occupies nothing, and
      it either never claimed, let go once, or was displaced once. */
  lemma FinishedLeavesNothing(run: seq<Action>, h: nat, b: nat)
    requires Run(INIT, run).Some? && h < |After(run).conns| && b < |After(run).boards|
    requires After(run).conns[h].pc == Done
    ensures var s := After(run);
            && s.conns[h].closed && s.boards[b].occupant != Some(h)
            && (Story(s.log, h) == [] || WasReleased(s, h) || IsOusted(s, h))
  {
    hide Story;
    hide Count;
    Reachable(run);
    assert ConnOk(After(run), h) && BoardOk(After(run), b);
  }

  // ---------------------------------------------------------------------------
  // Deadlock
  // ---------------------------------------------------------------------------

  /** The holder of the lock that `ph` wants, if `ph` is waiting for one. */
  function LockWait(s: State, b: nat, ph: Phase): Option<Tid> {
    if ph.Want? && b < |s.boards| then s.boards[b].lock else None
  }

  /** The thread that `t` cannot go on without, were every join unbounded. */
  function WaitsFor(s: State, t: Tid): Option<Tid> {
    match t
    case Main =>
      if s.main == JoiningSupervisor && s.sup != SupPc.Exited then Some(Supervisor)
      else if s.main == JoiningAcceptor && s.acceptor != Gone then Some(Acceptor)
      else None
    case Supervisor =>
      if s.sup.Taking? then LockWait(s, s.sup.board, s.sup.ph)
      else if s.sup.Joining? && !HasExited(s, s.sup.victim) then Some(Handler(s.sup.victim))
      else None
    case Handler(h) =>
      if h >= |s.conns| then None else
      var c := s.conns[h];
      if c.pc.Claiming? || c.pc.Releasing? then LockWait(s, c.board, c.pc.ph)
      else if c.pc.Joining? && !HasExited(s, c.pc.victim) then Some(Handler(c.pc.victim))
      else if c.pc.JoiningPump? && c.pump == Running then Some(Pump(h))
      else None
    case _ => None
  }

  /** `t` is in a join, rather than at a lock. */
  predicate InJoin(s: State, t: Tid) {
    match t
    case Main => s.main == JoiningSupervisor || s.main == JoiningAcceptor
    case Supervisor => s.sup.Joining?
    case Handler(h) => h < |s.conns| && (s.conns[h].pc.Joining? || s.conns[h].pc.JoiningPump?)
    case _ => false
  }

  predicate Finished(s: State, t: Tid) {
    match t
    case Main => s.main == MainPc.Finished
    case Supervisor => s.sup == SupPc.Exited
    case Acceptor => s.acceptor == Gone
    case Handler(h) => h >= |s.conns| || s.conns[h].pc == Done
    case Pump(h) => h >= |s.conns| || s.conns[h].pump != Running
  }

  function StepOf(t: Tid): Action {
    match t
    case Main => MainStep(Go)
    case Supervisor => Sup(Go)
    case Acceptor => AcceptorStep(Go)
    case Handler(h) => Step(h, Go)
    case Pump(h) => PumpStep(h, Go)
  }

  function Rank(s: State, t: Tid): nat {
    match t
    case Main => 4
    case Supervisor => 3
    case Acceptor => 0
    case Handler(h) => if h < |s.conns| && s.conns[h].kind == Flash then 2 else 1
    case Pump(_) => 0
  }

  /** No thread waits -- for a lock or in a join -- while it holds a board's lock. */
  lemma HoldersNeverWait(run: seq<Action>, t: Tid, b: nat)
    requires Run(INIT, run).Some? && b < |After(run).boards|
    requires After(run).boards[b].lock == Some(t)
    ensures WaitsFor(After(run), t) == None && !Finished(After(run), t)
  {
    hide Story;
    hide Count;
    Reachable(run);
    assert BoardOk(After(run), b);
  }

  /** A join is always for a thread of lower rank that has not finished, so that no
      thread joins itself and joins never form a cycle; any other wait is for the
      holder of a lock. */
  lemma JoinsGoDown(run: seq<Action>, t: Tid, u: Tid)
    requires Run(INIT, run).Some? && WaitsFor(After(run), t) == Some(u)
    ensures var s := After(run);
            if InJoin(s, t) then Rank(s, u) < Rank(s, t) && !Finished(s, u)
            else exists b :: 0 <= b < |s.boards| && s.boards[b].lock == Some(u)
  {
    hide Story;
    hide Count;
    Reachable(run);
    var s := After(run);
    match t
    case Handler(h) =>
      assert ConnOk(s, h);
      if s.conns[h].pc.Claiming? || s.conns[h].pc.Releasing? {
        assert s.boards[s.conns[h].board].lock == Some(u);
      }
    case Supervisor =>
      if s.sup.Taking? {
        assert s.boards[s.sup.board].lock == Some(u);
      }
    case _ =>
  }

  /** A thread that is neither finished nor waiting can take its next step. */
  lemma FreeThreadsMove(run: seq<Action>, t: Tid)
    requires Run(INIT, run).Some? && !Finished(After(run), t) && WaitsFor(After(run), t) == None
    ensures Next(After(run), StepOf(t)).Some?
  {
    hide Story;
    hide Count;
    Reachable(run);
    var s := After(run);
    if t.Handler? {
      assert ConnOk(s, t.h);
    }
  }

  /** Whom `t` waits for, whom that thread waits for, and so on, up to `n` waits on. */
  function Behind(s: State, t: Tid, n: nat): Tid
    decreases n
  {
    if n == 0 || WaitsFor(s, t).None? then t else Behind(s, WaitsFor(s, t).value, n - 1)
  }

  predicate CanMove(s: State, t: Tid) {
    !Finished(s, t) && WaitsFor(s, t) == None && Next(s, StepOf(t)).Some?
  }

  /** Follow the waits of any unfinished thread, every join taken as unbounded, and a
      thread that can move is found: after as many waits as there are ranks below it,
      and one for a lock. */
  lemma {:induction false} NoDeadlock(run: seq<Action>, t: Tid, n: nat)
    requires Run(INIT, run).Some? && !Finished(After(run), t) && n > Rank(After(run), t)
    ensures CanMove(After(run), Behind(After(run), t, n))
    decreases n
  {
    var s := After(run);
    match WaitsFor(s, t) {
      case None =>
        FreeThreadsMove(run, t);
      case Some(u) =>
        JoinsGoDown(run, t, u);
        if b :| 0 <= b < |s.boards| && s.boards[b].lock == Some(u) {
          HoldersNeverWait(run, u, b);
          FreeThreadsMove(run, u);
        } else {
          NoDeadlock(run, u, n - 1);
        }
    }
  }

  // ---------------------------------------------------------------------------
  // Winding down
  // ---------------------------------------------------------------------------

  /** How many steps a handler whose stop flag is up has left. */
  function PhaseLeft(ph: Phase): nat {
    match ph
    case Want => 4
    case Held => 3
    case Seen(_) => 2
    case Stored(_, _) => 1
  }

  function StepsLeft(pc: Pc): nat {
    match pc
    case Start => 20
    case Claiming(ph) => 15 + PhaseLeft(ph)
    case Stopping(_) => 15
    case Shutting(_) => 14
    case Joining(_) => 13
    case Receiving => 12
    case Flashing => 11
    case Opening => 10
    case Relaying => 9
    case JoiningPump => 8
    case Releasing(ph) => 3 + PhaseLeft(ph)
    case Closing => 2
    case Done => 0
  }

  lemma SectionsWindDown(s: State, h: nat, c: Choice)
    requires h < |s.conns| && s.conns[h].board < |s.boards| && s.conns[h].stop
    requires s.conns[h].pc.Claiming? || s.conns[h].pc.Releasing?
    requires HandlerStep(s, h, c).Some?
    ensures var s' := HandlerStep(s, h, c).value;
            && |s'.conns| == |s.conns| && s'.conns[h].stop
            && StepsLeft(s'.conns[h].pc) < StepsLeft(s.conns[h].pc)
  {
    var ph := s.conns[h].pc.ph;
    if s.conns[h].pc.Claiming? {
      assert Claim(s, h, ph).Some?;
    } else {
      assert Letgo(s, h, ph).Some?;
    }
  }

  /** Telling a session to stop, and closing its socket, bring the teller on. */
  lemma TellingWindsDown(s: State, h: nat, c: Choice)
    requires h < |s.conns| && s.conns[h].board < |s.boards| && s.conns[h].stop
    requires s.conns[h].pc.Stopping? || s.conns[h].pc.Shutting?
    ensures HandlerStep(s, h, c).Some?
    ensures var s' := HandlerStep(s, h, c).value;
            && |s'.conns| == |s.conns| && s'.conns[h].stop
            && StepsLeft(s'.conns[h].pc) < StepsLeft(s.conns[h].pc)
  {
    hide Claim;
    hide Letgo;
    var v := s.conns[h].pc.victim;
    assert SetStop(s, v).conns[h].stop && SetClosed(s, v).conns[h].stop;
  }

  lemma RelayingWindsDown(s: State, h: nat, c: Choice)
    requires h < |s.conns| && s.conns[h].board < |s.boards| && s.conns[h].stop
    requires var pc := s.conns[h].pc; pc.Opening? || pc.Relaying? || pc.JoiningPump? || pc.Joining?
    requires HandlerStep(s, h, c).Some?
    ensures var s' := HandlerStep(s, h, c).value;
            && |s'.conns| == |s.conns| && s'.conns[h].stop
            && StepsLeft(s'.conns[h].pc) < StepsLeft(s.conns[h].pc)
  {
    hide Claim;
    hide Letgo;
    hide SetStop;
    hide SetClosed;
  }

  lemma OthersWindDown(s: State, h: nat, c: Choice)
    requires h < |s.conns| && s.conns[h].board < |s.boards| && s.conns[h].stop
    requires var pc := s.conns[h].pc; pc.Start? || pc.Receiving? || pc.Flashing? || pc.Closing?
    requires HandlerStep(s, h, c).Some?
    ensures var s' := HandlerStep(s, h, c).value;
            && |s'.conns| == |s.conns| && s'.conns[h].stop
            && StepsLeft(s'.conns[h].pc) < StepsLeft(s.conns[h].pc)
  {
    hide Claim;
    hide Letgo;
    hide SetStop;
    hide SetClosed;
  }

  /** Once its stop flag is up, every step a handler takes brings it nearer its
      end: it never goes round its relay loop again. */
  lemma StoppedHandlersWindDown(s: State, h: nat, c: Choice)
    requires h < |s.conns| && s.conns[h].stop && Next(s, Step(h, c)).Some?
    ensures var s' := Next(s, Step(h, c)).value;
            && |s'.conns| == |s.conns| && s'.conns[h].stop
            && StepsLeft(s'.conns[h].pc) < StepsLeft(s.conns[h].pc)
  {
    assert HandlerStep(s, h, c) == Next(s, Step(h, c));
    var pc := s.conns[h].pc;
    if pc.Claiming? || pc.Releasing? {
      SectionsWindDown(s, h, c);
    } else if pc.Stopping? || pc.Shutting? {
      TellingWindsDown(s, h, c);
    } else if pc.Opening? || pc.Relaying? || pc.JoiningPump? || pc.Joining? {
      RelayingWindsDown(s, h, c);
    } else {
      OthersWindDown(s, h, c);
    }
  }
}
