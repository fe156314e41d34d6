/**
  What single steps of the fleet do to one handler, and what they leave alone.

  A step of one thread touches another handler only by raising its stop flag or closing
  its connection.  A critical section touches its board, its own place in it, and the
  log; no step but a handler's own claim makes it claim.  A handler that lets go never
  takes up again what it let go of.  A relay's reader starts with the relay, and
  whichever of the two ends first raises the flag for the other.  The Supervisor, the
  accept loop and the main thread change nothing but their own place, and boards come and
  go only while the Supervisor is idle.

  Here is one lemma after the other for the kinds of steps; what follows for whole runs
  is in FleetLives.
 */
module FleetSteps {
  import opened Occupancy
  import opened Fleet
  import opened FleetInvariant

  predicate Ending(pc: Pc) {
    pc.Closing? || pc.Done?
  }

  predicate LettingGo(pc: Pc) {
    pc.Releasing? || Ending(pc)
  }

  /** What no other thread's step changes of a handler. */
  predicate SameButFlags(c: Conn, c': Conn) {
    c'.kind == c.kind && c'.board == c.board && c'.pc == c.pc && c'.victim == c.victim && c'.gaveUp == c.gaveUp
  }

  /** A critical section changes nothing of other handlers, and of its own only where it
      is, and at the end of a claim whom it displaced. */
  lemma SectionOf(s: State, h: nat, c: Choice)
    requires h < |s.conns| && s.conns[h].board < |s.boards| && HandlerStep(s, h, c).Some?
    requires s.conns[h].pc.Claiming? || s.conns[h].pc.Releasing?
    ensures var s' := HandlerStep(s, h, c).value;
            && |s'.conns| == |s.conns| && (forall x :: 0 <= x < |s.conns| && x != h ==> s'.conns[x] == s.conns[x])
            && (s.conns[h].pc.Claiming? ==>
                  s'.conns[h] == s.conns[h].(pc := s'.conns[h].pc, victim := s'.conns[h].victim))
            && (s.conns[h].pc.Releasing? ==> s'.conns[h] == s.conns[h].(pc := s'.conns[h].pc))
            && s'.sup == s.sup && s'.main == s.main && s'.acceptor == s.acceptor
            && s'.stopping == s.stopping && s'.closing == s.closing && |s'.boards| == |s.boards|
            && (s.conns[h].pc.Releasing? ==> LettingGo(s'.conns[h].pc))
            && (s.conns[h].pc.Claiming? ==> !LettingGo(s'.conns[h].pc) || s'.conns[h].pc == Closing)
  {
    hide SectionStep;
    if s.conns[h].pc.Claiming? {
      assert Claim(s, h, s.conns[h].pc.ph) == HandlerStep(s, h, c);
    } else {
      assert Letgo(s, h, s.conns[h].pc.ph) == HandlerStep(s, h, c);
    }
  }

  /** Telling a session to stop, or closing its connection, does only that to others. */
  lemma TellingOf(s: State, h: nat, c: Choice)
    requires h < |s.conns| && s.conns[h].board < |s.boards| && HandlerStep(s, h, c).Some?
    requires s.conns[h].pc.Stopping? || s.conns[h].pc.Shutting?
    ensures var s' := HandlerStep(s, h, c).value;
            && |s'.conns| == |s.conns|
            && (forall x :: 0 <= x < |s.conns| && x != h ==>
                  SameButFlags(s.conns[x], s'.conns[x]) && s'.conns[x].pump == s.conns[x].pump
                  && (s.conns[x].stop ==> s'.conns[x].stop))
            && SameButFlags(s.conns[h].(pc := s'.conns[h].pc), s'.conns[h]) && s'.conns[h].pump == s.conns[h].pump
            && (s.conns[h].stop ==> s'.conns[h].stop)
            && (s'.conns[h].pc.Shutting? || s'.conns[h].pc.Joining?)
            && s'.boards == s.boards && s'.sup == s.sup && s'.main == s.main && s'.acceptor == s.acceptor
            && s'.stopping == s.stopping && s'.closing == s.closing
  {
    hide Claim;
    hide Letgo;
  }

  /** Steps of a relay concern its handler alone. */
  lemma RelayStep(s: State, h: nat, c: Choice)
    requires h < |s.conns| && s.conns[h].board < |s.boards| && HandlerStep(s, h, c).Some?
    requires var pc := s.conns[h].pc; pc.Opening? || pc.Relaying? || pc.JoiningPump?
    ensures var s' := HandlerStep(s, h, c).value;
            s' == s.(conns := s.conns[h := s'.conns[h]])
            && SameButFlags(s.conns[h].(pc := s'.conns[h].pc), s'.conns[h])
            && (s.conns[h].stop ==> s'.conns[h].stop)
  {
    hide Claim;
    hide Letgo;
    hide SetStop;
    hide SetClosed;
    assert s.conns[h := s.conns[h]] == s.conns;
  }

  /** So do waiting, receiving, writing and closing. */
  lemma PlainStep(s: State, h: nat, c: Choice)
    requires h < |s.conns| && s.conns[h].board < |s.boards| && HandlerStep(s, h, c).Some?
    requires var pc := s.conns[h].pc; pc.Start? || pc.Joining? || pc.Receiving? || pc.Flashing? || pc.Closing?
    ensures var s' := HandlerStep(s, h, c).value; var c' := s'.conns[h];
            s' == s.(conns := s.conns[h := c'])
            && c' == s.conns[h].(pc := c'.pc, gaveUp := c'.gaveUp, closed := c'.closed)
  {
    hide Claim;
    hide Letgo;
    hide SetStop;
    hide SetClosed;
  }

  lemma OwnStep(s: State, h: nat, c: Choice)
    requires h < |s.conns| && s.conns[h].board < |s.boards| && HandlerStep(s, h, c).Some?
    requires var pc := s.conns[h].pc; !pc.Claiming? && !pc.Releasing? && !pc.Stopping? && !pc.Shutting?
    ensures var s' := HandlerStep(s, h, c).value;
            s' == s.(conns := s.conns[h := s'.conns[h]])
            && SameButFlags(s.conns[h].(pc := s'.conns[h].pc, gaveUp := s'.conns[h].gaveUp), s'.conns[h])
            && (s.conns[h].stop ==> s'.conns[h].stop)
  {
    var pc := s.conns[h].pc;
    if pc.Opening? || pc.Relaying? || pc.JoiningPump? {
      RelayStep(s, h, c);
    } else {
      assert pc != Done;
      PlainStep(s, h, c);
    }
    hide HandlerStep;
  }

  /** Other threads leave a handler where it is. */
  lemma OthersStep(s: State, a: Action, h: nat)
    requires Next(s, a).Some? && h < |s.conns| && !(a.Step? && a.h == h)
    ensures var s' := Next(s, a).value; h < |s'.conns| && SameButFlags(s.conns[h], s'.conns[h])
    ensures !(a.PumpStep? && a.h == h) ==> Next(s, a).value.conns[h].pump == s.conns[h].pump
    ensures s.conns[h].stop ==> Next(s, a).value.conns[h].stop
  {
    if a.Step? {
      var pc := s.conns[a.h].pc;
      if pc.Claiming? || pc.Releasing? {
        SectionOf(s, a.h, a.c);
      } else if pc.Stopping? || pc.Shutting? {
        TellingOf(s, a.h, a.c);
      } else {
        OwnStep(s, a.h, a.c);
      }
    }
    hide HandlerStep;
    hide SectionStep;
  }

  lemma EndOnward(s: State, h: nat, c: Choice)
    requires h < |s.conns| && Next(s, Step(h, c)).Some?
    requires Ending(s.conns[h].pc)
    ensures var s' := Next(s, Step(h, c)).value;
            && |s'.conns| == |s.conns| && (s.conns[h].pc.Closing? ==> Ending(s'.conns[h].pc))
            && s'.conns[h].victim == s.conns[h].victim && s'.conns[h].pump == s.conns[h].pump
  {
    hide Claim;
    hide Letgo;
  }

  /** Where a handler goes when it has to let go. */
  lemma OnlyOnward(s: State, h: nat, c: Choice)
    requires h < |s.conns| && LettingGo(s.conns[h].pc) && Next(s, Step(h, c)).Some?
    ensures var s' := Next(s, Step(h, c)).value;
            && |s'.conns| == |s.conns| && LettingGo(s'.conns[h].pc)
            && (Ending(s.conns[h].pc) ==> Ending(s'.conns[h].pc))
            && s'.conns[h].victim == s.conns[h].victim && s'.conns[h].pump == s.conns[h].pump
  {
    if s.conns[h].pc.Releasing? {
      SectionOf(s, h, c);
    } else {
      EndOnward(s, h, c);
    }
    hide HandlerStep;
  }

  lemma OwnStays(s: State, h: nat, c: Choice)
    requires h < |s.conns| && Next(s, Step(h, c)).Some?
    ensures |Next(s, Step(h, c)).value.conns| == |s.conns|
  {
    NobodyLeaves(s, Step(h, c));
    hide Next;
  }

  lemma NoPumpStep(s: State, a: Action, h: nat)
    requires h < |s.conns| && s.conns[h].pump == Absent && Next(s, a).Some?
    ensures !(a.PumpStep? && a.h == h)
  {
    hide HandlerStep;
    hide SupervisorStep;
  }

  lemma {:induction false} MentionedInStory(log: seq<Event>, e: Event)
    requires e in log
    ensures e in Story(log, e.h)
  {
    var init, last := log[..|log| - 1], log[|log| - 1];
    assert log == init + [last];
    if e in init {
      MentionedInStory(init, e);
    }
  }

  lemma {:induction false} StoryInLog(log: seq<Event>, h: nat, e: Event)
    requires e in Story(log, h)
    ensures e in log
  {
    if log != [] {
      var init, last := log[..|log| - 1], log[|log| - 1];
      assert log == init + [last];
      if e in Story(init, h) {
        StoryInLog(init, h, e);
      }
    }
  }

  predicate NeverClaimed(s: State, h: nat) {
    forall e :: e in s.log ==> !(e.Claimed? && e.h == h)
  }

  lemma SectionClaims(s: State, t: Tid, b: nat, op: Op<nat>, ph: Phase, h: nat)
    requires b < |s.boards| && SectionStep(s, t, b, op, ph).Some?
    requires (op.ClaimSerial? || op.ClaimFlash?) ==> op.session != h
    ensures forall e :: e in SectionStep(s, t, b, op, ph).value.events ==> !(e.Claimed? && e.h == h)
  {
  }

  /** Only a handler in its claim claims. */
  lemma OnlyClaimersClaim(s: State, a: Action, h: nat)
    requires Next(s, a).Some? && NeverClaimed(s, h)
    requires !(a.Step? && a.h == h && s.conns[h].pc.Claiming?)
    ensures NeverClaimed(Next(s, a).value, h)
  {
    if a.Step? {
      var c := s.conns[a.h];
      if c.pc.Claiming? {
        assert Claim(s, a.h, c.pc.ph) == Next(s, a);
        SectionClaims(s, Handler(a.h), c.board, ClaimOp(c.kind, a.h), c.pc.ph, h);
        hide SectionStep;
        hide Next;
      } else if c.pc.Releasing? {
        assert Letgo(s, a.h, c.pc.ph) == Next(s, a);
        SectionClaims(s, Handler(a.h), c.board, Release(a.h), c.pc.ph, h);
        hide SectionStep;
        hide Next;
      } else {
        QuietStep(s, a.h, a.c);
        hide HandlerStep;
      }
    } else if a.Sup? && s.sup.Taking? {
      SectionClaims(s, Supervisor, s.sup.board, Take, s.sup.ph, h);
      hide SectionStep;
    }
    hide HandlerStep;
  }

  /** Outside critical sections nothing is logged. */
  lemma QuietStep(s: State, h: nat, c: Choice)
    requires Next(s, Step(h, c)).Some? && !s.conns[h].pc.Claiming? && !s.conns[h].pc.Releasing?
    ensures Next(s, Step(h, c)).value.log == s.log
  {
    hide Claim;
    hide Letgo;
  }

  /** There is a reader from the start of the relay on; unless it and the relay both go
      on, the stop flag is up. */
  predicate ReaderOk(c: Conn) {
    && (c.pc.Relaying? || c.pc.JoiningPump? ==> c.pump != Absent)
    && (c.pump != Absent ==> c.pc.Relaying? || c.pc.JoiningPump? || LettingGo(c.pc))
    && (c.pump != Absent && !(c.pc.Relaying? && c.pump == Running) ==> c.stop)
  }

  predicate ReadersOk(s: State) {
    forall h :: 0 <= h < |s.conns| ==> ReaderOk(s.conns[h])
  }

  lemma OwnReader(s: State, h: nat, c: Choice)
    requires h < |s.conns| && ReaderOk(s.conns[h]) && Next(s, Step(h, c)).Some?
    ensures h < |Next(s, Step(h, c)).value.conns| && ReaderOk(Next(s, Step(h, c)).value.conns[h])
  {
    var pc := s.conns[h].pc;
    if pc.Claiming? || pc.Releasing? {
      SectionOf(s, h, c);
      hide HandlerStep;
    } else if pc.Stopping? || pc.Shutting? {
      TellingOf(s, h, c);
      hide HandlerStep;
    } else if pc.Opening? || pc.Relaying? || pc.JoiningPump? {
      RelayReader(s, h, c);
      hide HandlerStep;
    } else {
      assert pc != Done;
      PlainStep(s, h, c);
      NoRelayYet(s, h, c);
      hide HandlerStep;
    }
  }

  lemma NoRelayYet(s: State, h: nat, c: Choice)
    requires h < |s.conns| && Next(s, Step(h, c)).Some?
    requires var pc := s.conns[h].pc; pc.Start? || pc.Joining? || pc.Receiving? || pc.Flashing? || pc.Closing?
    ensures var pc' := Next(s, Step(h, c)).value.conns[h].pc;
            !pc'.Relaying? && !pc'.JoiningPump? && (s.conns[h].pc.Closing? ==> LettingGo(pc'))
  {
    hide Claim;
    hide Letgo;
  }

  lemma RelayReader(s: State, h: nat, c: Choice)
    requires h < |s.conns| && ReaderOk(s.conns[h]) && Next(s, Step(h, c)).Some?
    requires var pc := s.conns[h].pc; pc.Opening? || pc.Relaying? || pc.JoiningPump?
    ensures |Next(s, Step(h, c)).value.conns| == |s.conns| && ReaderOk(Next(s, Step(h, c)).value.conns[h])
  {
    hide Claim;
    hide Letgo;
    hide SetStop;
    hide SetClosed;
  }

  lemma PumpReader(s: State, h: nat, c: Choice)
    requires h < |s.conns| && ReaderOk(s.conns[h]) && Next(s, PumpStep(h, c)).Some?
    ensures h < |Next(s, PumpStep(h, c)).value.conns| && ReaderOk(Next(s, PumpStep(h, c)).value.conns[h])
  {
    hide HandlerStep;
    hide SupervisorStep;
  }

  lemma ReadersKept(s: State, a: Action)
    requires ReadersOk(s) && Next(s, a).Some?
    ensures ReadersOk(Next(s, a).value)
  {
    var s' := Next(s, a).value;
    NobodyLeaves(s, a);
    hide Next;
    forall h | 0 <= h < |s'.conns| ensures ReaderOk(s'.conns[h]) {
      if h < |s.conns| {
        if a.Step? && a.h == h {
          OwnReader(s, h, a.c);
        } else if a.PumpStep? && a.h == h {
          PumpReader(s, h, a.c);
        } else {
          OthersStep(s, a, h);
        }
      }
    }
  }

  /** Connections are only ever added, at their start. */
  lemma NobodyLeaves(s: State, a: Action)
    requires Next(s, a).Some?
    ensures var s' := Next(s, a).value;
            && |s.conns| <= |s'.conns|
            && (forall h :: |s.conns| <= h < |s'.conns| ==>
                  s'.conns[h].pc.Start? && s'.conns[h].pump == Absent)
            && (|s'.conns| > |s.conns| ==> a.Accept? && s.acceptor == Accepting)
  {
    if a.Step? {
      var pc := s.conns[a.h].pc;
      if pc.Claiming? || pc.Releasing? {
        SectionOf(s, a.h, a.c);
      } else if pc.Stopping? || pc.Shutting? {
        TellingOf(s, a.h, a.c);
      } else {
        OwnStep(s, a.h, a.c);
      }
    }
    hide HandlerStep;
    hide SectionStep;
  }

  /** The reader has ended by the time the board is let go. */
  predicate ReaderDone(s: State, h: nat) {
    h < |s.conns| && LettingGo(s.conns[h].pc) ==> s.conns[h].pump != Running
  }

  lemma PumpStops(s: State, h: nat, c: Choice)
    requires ReaderDone(s, h) && Next(s, PumpStep(h, c)).Some?
    ensures ReaderDone(Next(s, PumpStep(h, c)).value, h)
  {
    hide HandlerStep;
    hide SupervisorStep;
  }

  lemma RelayReleaseWaits(s: State, h: nat, c: Choice)
    requires h < |s.conns| && ReaderOk(s.conns[h]) && c != Timeout && Next(s, Step(h, c)).Some?
    requires var pc := s.conns[h].pc; pc.Opening? || pc.Relaying? || pc.JoiningPump?
    ensures ReaderDone(Next(s, Step(h, c)).value, h)
  {
    hide Claim;
    hide Letgo;
    hide SetStop;
    hide SetClosed;
  }

  lemma ReleaseWaits(s: State, h: nat, c: Choice)
    requires h < |s.conns| && ReaderOk(s.conns[h]) && ReaderDone(s, h) && c != Timeout && Next(s, Step(h, c)).Some?
    ensures ReaderDone(Next(s, Step(h, c)).value, h)
  {
    var pc := s.conns[h].pc;
    if pc.Claiming? || pc.Releasing? {
      SectionOf(s, h, c);
    } else if pc.Stopping? || pc.Shutting? {
      TellingOf(s, h, c);
    } else if pc.Opening? || pc.Relaying? || pc.JoiningPump? {
      RelayReleaseWaits(s, h, c);
    } else {
      assert pc != Done;
      PlainStep(s, h, c);
    }
    hide HandlerStep;
  }

  /** What has been told to end, and what has ended. */
  predicate Winding(s: State) {
    && (s.stopping <==> s.main != Serving)
    && (s.closing <==> s.main == JoiningAcceptor || s.main == MainPc.Finished)
    && (s.sup == SupPc.Exited ==> s.stopping)
    && (s.acceptor == Gone ==> s.closing)
  }

  predicate InOrder(s: State) {
    && (s.closing ==> s.sup == SupPc.Exited)
    && (s.main == MainPc.Finished ==> s.acceptor == Gone)
  }

  /** What the ends of threads and the number of boards depend on. */
  lemma OnlyTheirOwn(s: State, a: Action)
    requires Next(s, a).Some?
    ensures var s' := Next(s, a).value;
            && (!a.Sup? && !a.Depart? ==> s'.sup == s.sup)
            && (!a.MainStep? && !a.Signal? ==>
                  s'.main == s.main && s'.stopping == s.stopping && s'.closing == s.closing)
            && (!a.AcceptorStep? ==> s'.acceptor == s.acceptor)
            && (!a.Arrive? ==> |s'.boards| == |s.boards|)
            && (a.Arrive? || a.Depart? ==> s.sup == Idle)
  {
    if a.Step? {
      var pc := s.conns[a.h].pc;
      if pc.Claiming? || pc.Releasing? {
        SectionOf(s, a.h, a.c);
      } else if pc.Stopping? || pc.Shutting? {
        TellingOf(s, a.h, a.c);
      } else {
        OwnStep(s, a.h, a.c);
      }
    }
    hide HandlerStep;
    hide SectionStep;
  }

  lemma SupervisorEnds(s: State, c: Choice)
    requires Next(s, Sup(c)).Some?
    ensures var s' := Next(s, Sup(c)).value;
            && s'.main == s.main && s'.stopping == s.stopping && s'.closing == s.closing && s'.acceptor == s.acceptor
            && s.sup != SupPc.Exited && (s'.sup == SupPc.Exited <==> s.sup == Idle && s.stopping)
  {
    hide SectionStep;
  }

  lemma WindingKept(s: State, a: Action)
    requires Winding(s) && Next(s, a).Some?
    ensures Winding(Next(s, a).value)
    ensures InOrder(s) && a != MainStep(Timeout) ==> InOrder(Next(s, a).value)
  {
    OnlyTheirOwn(s, a);
    if a.Sup? {
      SupervisorEnds(s, a.c);
      hide SupervisorStep;
    }
    hide HandlerStep;
    hide PumpThreadStep;
  }

  lemma StaysEnded(s: State, a: Action)
    requires Next(s, a).Some?
    ensures s.sup == SupPc.Exited ==> !a.Sup?
    ensures s.acceptor == Gone ==> !a.AcceptorStep?
  {
    hide HandlerStep;
  }
}
