/** The signal handler of `serve`, step by step: any number of concurrent callers at its
    guard, the one that gets in taking everything down, and the Supervisor beside it. */
module ShutdownGuard {
  import opened Wrappers
  import opened Mdns
  import opened Teardown

  /** Where one invocation is: at the lock, looking at the flag, raising it, dropping the
      lock, in the body, or back. */
  datatype Pc = AtLock | Looking | Raising | Dropping(first: bool) | Body(at: Stage) | Back

  /** `entered` counts how often the body was begun. */
  datatype State = State(callers: seq<Pc>, lock: Option<nat>, done: bool, entered: nat, world: World)

  const INIT := State([], None, false, 0, NOTHING)

  /** A new invocation, a step of one, or a step of the Supervisor. */
  datatype Action = Invoke | Step(i: nat, choice: Choice) | Supervise(move: Move)

  function At(s: State, i: nat, pc: Pc): State
    requires i < |s.callers|
  {
    s.(callers := s.callers[i := pc])
  }

  function InBody(s: State, i: nat, c: Choice): Option<State>
    requires i < |s.callers| && s.callers[i].Body?
  {
    match Proceed(s.world, s.callers[i].at, c)
    case None => None
    case Some((w, at)) => Some(At(s, i, if at == Ended then Back else Body(at)).(world := w))
  }

  function Next(s: State, a: Action): Option<State> {
    match a
    case Invoke => Some(s.(callers := s.callers + [AtLock]))
    case Supervise(m) =>
      (match Watch(s.world, m)
       case None => None
       case Some(w) => Some(s.(world := w)))
    case Step(i, c) =>
      if i >= |s.callers| then None
      else match s.callers[i]
           case AtLock => if s.lock.Some? then None else Some(At(s, i, Looking).(lock := Some(i)))
           case Looking => Some(At(s, i, if s.done then Dropping(false) else Raising))
           case Raising => Some(At(s, i, Dropping(true)).(done := true))
           case Dropping(first) =>
             if first then Some(At(s, i, Body(Stopping)).(lock := None, entered := s.entered + 1))
             else Some(At(s, i, Back).(lock := None))
           case Body(_) => InBody(s, i, c)
           case Back => None
  }

  function Run(s: State, run: seq<Action>): Option<State>
    decreases |run|
  {
    if run == [] then Some(s)
    else match Next(s, run[0])
         case None => None
         case Some(s') => Run(s', run[1..])
  }

  predicate InSection(pc: Pc) {
    pc.Looking? || pc.Raising? || pc.Dropping?
  }

  predicate CallerOk(s: State, i: nat)
    requires i < |s.callers|
  {
    var pc := s.callers[i];
    && (InSection(pc) ==> s.lock == Some(i))
    && (pc.Raising? ==> !s.done)
    && (pc == Dropping(true) ==> s.done && s.entered == 0)
    && (pc.Body? ==> s.done && s.entered == 1)
    && (pc == Dropping(false) || pc.Back? ==> s.done)
  }

  ghost predicate GuardOk(s: State) {
    && (forall i :: 0 <= i < |s.callers| ==> CallerOk(s, i))
    && (forall i, j :: 0 <= i < j < |s.callers| ==> !(s.callers[i].Body? && s.callers[j].Body?))
    && (s.lock.Some? ==> s.lock.value < |s.callers| && InSection(s.callers[s.lock.value]))
    && s.entered <= 1 && (!s.done ==> s.entered == 0)
    && (s.done && s.entered == 0 ==> s.lock.Some? && s.callers[s.lock.value] == Dropping(true))
  }

  predicate NoBody(s: State) {
    forall i :: 0 <= i < |s.callers| ==> !s.callers[i].Body?
  }

  /** The body, whoever runs it, is at this stage. */
  ghost predicate Stands(s: State, at: Stage) {
    match at
    case NotBegun => s.entered == 0
    case Ended => s.entered == 1 && NoBody(s)
    case _ => exists i :: 0 <= i < |s.callers| && s.callers[i] == Body(at)
  }

  ghost predicate Inv(s: State) {
    && GuardOk(s)
    && exists at :: Stands(s, at) && Ok(s.world, at)
  }

  lemma GuardKeeps(s: State, a: Action)
    requires GuardOk(s) && Next(s, a).Some?
    ensures GuardOk(Next(s, a).value)
  {
    var s' := Next(s, a).value;
    if a.Step? {
      assert CallerOk(s, a.i);
    }
    forall i | 0 <= i < |s'.callers| ensures CallerOk(s', i) {
      if i < |s.callers| {
        assert CallerOk(s, i);
      }
    }
    forall i, j | 0 <= i < j < |s'.callers| ensures !(s'.callers[i].Body? && s'.callers[j].Body?) {
      if j < |s.callers| {
        assert CallerOk(s, i) && CallerOk(s, j);
      }
    }
  }

  /** A step leaves the stage and the world alone, begins the body, or is a step of the
      body or of the Supervisor. */
  ghost predicate Moves(s: State, at: Stage, a: Action, s': State, at': Stage) {
    || (at' == at && s'.world == s.world)
    || (at == NotBegun && at' == Stopping && s'.world == s.world)
    || (at' == at && a.Supervise? && Watch(s.world, a.move) == Some(s'.world))
    || (a.Step? && a.i < |s.callers| && s.callers[a.i] == Body(at)
        && Proceed(s.world, at, a.choice) == Some((s'.world, at')))
  }

  lemma StageMoves(s: State, at: Stage, a: Action) returns (at': Stage)
    requires GuardOk(s) && Stands(s, at) && Next(s, a).Some?
    ensures Stands(Next(s, a).value, at') && Moves(s, at, a, Next(s, a).value, at')
  {
    hide Watch;
    hide Proceed;
    hide GuardOk;
    var s' := Next(s, a).value;
    at' := at;
    if a.Step? && s.callers[a.i].Body? {
      at' := BodyMoves(s, at, a.i, a.choice);
    } else if a.Step? {
      at' := CallerMoves(s, at, a.i, a.choice);
    } else {
      assert forall k :: 0 <= k < |s.callers| ==> s'.callers[k] == s.callers[k];
    }
  }

  /** A step at the guard. */
  lemma CallerMoves(s: State, at: Stage, i: nat, c: Choice) returns (at': Stage)
    requires GuardOk(s) && Stands(s, at) && i < |s.callers| && !s.callers[i].Body? && Next(s, Step(i, c)).Some?
    ensures var s' := Next(s, Step(i, c)).value;
            && Stands(s', at') && s'.world == s.world
            && (at' == at || (at == NotBegun && at' == Stopping))
  {
    hide Proceed;
    assert CallerOk(s, i);
    if at != NotBegun {
      Begun(s, at);
    }
    hide GuardOk;
    var s' := Next(s, Step(i, c)).value;
    assert forall k :: 0 <= k < |s.callers| && k != i ==> s'.callers[k] == s.callers[k];
    at' := at;
    if s.callers[i] == Dropping(true) {
      at' := Stopping;
      assert s'.callers[i] == Body(Stopping);
    }
  }

  lemma Begun(s: State, at: Stage)
    requires GuardOk(s) && Stands(s, at) && at != NotBegun
    ensures s.entered == 1
  {
    if at != Ended {
      var i :| 0 <= i < |s.callers| && s.callers[i] == Body(at);
      assert CallerOk(s, i);
    }
  }

  lemma BodyMoves(s: State, at: Stage, i: nat, c: Choice) returns (at': Stage)
    requires GuardOk(s) && Stands(s, at) && i < |s.callers| && s.callers[i].Body? && InBody(s, i, c).Some?
    ensures s.callers[i] == Body(at) && Proceed(s.world, at, c) == Some((InBody(s, i, c).value.world, at'))
    ensures Stands(InBody(s, i, c).value, at')
  {
    hide Proceed;
    assert CallerOk(s, i);
    BodyStands(s, i, at);
    var s' := InBody(s, i, c).value;
    assert forall k :: 0 <= k < |s.callers| && k != i ==> s'.callers[k] == s.callers[k] && !s.callers[k].Body?;
    at' := Proceed(s.world, at, c).value.1;
    if at' != Ended {
      assert s'.callers[i] == Body(at');
    }
    assert at' != NotBegun by {
      ProceedsFrom(s.world, at, c);
    }
  }

  lemma ProceedsFrom(w: World, at: Stage, c: Choice)
    requires Proceed(w, at, c).Some?
    ensures Proceed(w, at, c).value.1 != NotBegun
  {
  }

  /** A caller in the body is where the body is. */
  lemma BodyStands(s: State, i: nat, at: Stage)
    requires GuardOk(s) && i < |s.callers| && s.callers[i].Body? && Stands(s, at)
    ensures s.callers[i] == Body(at)
  {
    assert CallerOk(s, i);
  }

  lemma StandsOnce(s: State, at: Stage, at': Stage)
    requires GuardOk(s) && Stands(s, at) && Stands(s, at')
    ensures at == at'
  {
    if i :| 0 <= i < |s.callers| && s.callers[i].Body? {
      BodyStands(s, i, at);
      BodyStands(s, i, at');
    }
  }

  lemma NextKeeps(s: State, a: Action)
    requires Inv(s) && Next(s, a).Some?
    ensures Inv(Next(s, a).value)
  {
    GuardKeeps(s, a);
    hide GuardOk;
    hide Stands;
    var at :| Stands(s, at) && Ok(s.world, at);
    var at' := StageMoves(s, at, a);
    hide Next;
    MoveOk(s, at, a, Next(s, a).value, at');
  }

  lemma MoveOk(s: State, at: Stage, a: Action, s': State, at': Stage)
    requires Ok(s.world, at) && Moves(s, at, a, s', at')
    ensures Ok(s'.world, at')
  {
    if a.Supervise? && Watch(s.world, a.move) == Some(s'.world) && at' == at {
      WatchOk(s.world, at, a.move);
    } else if a.Step? && Proceed(s.world, at, a.choice) == Some((s'.world, at')) {
      ProceedOk(s.world, at, a.choice);
    }
    hide Watch;
    hide Proceed;
  }

  lemma {:induction false} RunKeeps(s: State, run: seq<Action>)
    requires Inv(s) && Run(s, run).Some?
    ensures Inv(Run(s, run).value)
    decreases |run|
  {
    hide Inv;
    hide Next;
    if run != [] {
      NextKeeps(s, run[0]);
      RunKeeps(Next(s, run[0]).value, run[1..]);
    }
  }

  lemma StartsInv()
    ensures Inv(INIT)
  {
    assert Stands(INIT, NotBegun);
    assert NOTHING.closes + [] == [];
  }

  /** However many invocations there are and however they interleave, with one another
      and with the Supervisor, the body is begun at most once, it closes no listener
      twice, no advertisement is withdrawn twice or forgotten, the Supervisor leaves its
      loop only when told to, and by the time any invocation has returned, the body was
      begun or is about to be by the one that holds the lock. */
  lemma BodyRunsOnce(run: seq<Action>)
    requires Run(INIT, run).Some?
    ensures var s := Run(INIT, run).value;
            && s.entered <= 1
            && (forall i, j :: 0 <= i < j < |s.callers| ==> !(s.callers[i].Body? && s.callers[j].Body?))
            && (Back in s.callers ==> s.done)
            && (s.done && s.lock == None ==> s.entered == 1)
            && Distinct(s.world.closes) && Accounted(s.world)
            && (s.world.watcher == Gone ==> s.world.stop)
  {
    StartsInv();
    RunKeeps(INIT, run);
    var s := Run(INIT, run).value;
    if Back in s.callers {
      var i :| 0 <= i < |s.callers| && s.callers[i] == Back;
      assert CallerOk(s, i);
    }
    var at :| Stands(s, at) && Ok(s.world, at);
    CountsOf(s.world, at);
    hide Ok;
  }

  lemma CountsOf(w: World, at: Stage)
    requires Ok(w, at)
    ensures Distinct(w.closes) && Accounted(w) && (w.watcher == Gone ==> w.stop)
  {
    var left := if WithLeft(at) then at.left else [];
    assert forall i :: 0 <= i < |w.closes| ==> (w.closes + left)[i] == w.closes[i];
  }

  // ---------------------------------------------------------------------------
  // Whether everything is taken down
  // ---------------------------------------------------------------------------

  /** Nothing is open, registered or advertised, and every advertisement ever made was
      withdrawn exactly once. */
  ghost predicate TornDown(w: World) {
    && w.stop && w.zeroconfClosed && w.loopClosed
    && w.open == {} && w.registered == {} && w.handles == {}
    && Distinct(w.withdrawn) && (forall it :: it in w.issued <==> it in w.withdrawn)
  }

  /** The rest of a run, to the end of the body, with something left over. */
  ghost predicate LeavesSomething(s: State, rest: seq<Action>) {
    && Run(s, rest).Some?
    && Run(s, rest).value.world.loopClosed && !TornDown(Run(s, rest).value.world)
  }

  lemma {:induction false} RunTidy(s: State, at: Stage, run: seq<Action>) returns (at': Stage)
    requires Inv(s) && Stands(s, at) && Tidy(s.world, at) && Run(s, run).Some?
    ensures var e := Run(s, run).value; Inv(e) && Stands(e, at') && Tidy(e.world, at')
    decreases |run|
  {
    hide Next;
    hide Stands;
    hide GuardOk;
    hide Ok;
    at' := at;
    if run != [] {
      var s' := Next(s, run[0]).value;
      NextKeeps(s, run[0]);
      at' := StageMoves(s, at, run[0]);
      MoveTidy(s, at, run[0], s', at');
      at' := RunTidy(s', at', run[1..]);
    }
  }

  lemma MoveTidy(s: State, at: Stage, a: Action, s': State, at': Stage)
    requires Tidy(s.world, at) && Moves(s, at, a, s', at')
    ensures Tidy(s'.world, at')
  {
    if a.Supervise? && Watch(s.world, a.move) == Some(s'.world) && at' == at {
      WatchTidy(s.world, at, a.move);
    } else if a.Step? && Proceed(s.world, at, a.choice) == Some((s'.world, at')) {
      ProceedTidy(s.world, at, a.choice);
    }
    hide Watch;
    hide Proceed;
  }

  /** If the Supervisor is out of the way when the body reads its table, then everything
      is taken down by the end. */
  lemma SettledTearsDown(s: State, i: nat, rest: seq<Action>)
    requires Inv(s) && i < |s.callers| && s.callers[i] == Body(Reading) && !Loose(s.world)
    requires Run(s, rest).Some? && Run(s, rest).value.world.loopClosed
    ensures TornDown(Run(s, rest).value.world)
  {
    hide Run;
    AtReading(s, i);
    var at' := RunTidy(s, Reading, rest);
    TidyEnd(Run(s, rest).value, at');
  }

  lemma AtReading(s: State, i: nat)
    requires Inv(s) && i < |s.callers| && s.callers[i] == Body(Reading)
    ensures Stands(s, Reading) && WatcherOk(s.world) && Agrees(s.world) && s.world.stop
  {
    hide WatcherOk;
    hide Agrees;
    hide Accounted;
    hide GuardOk;
    hide Stands;
    var at :| Stands(s, at) && Ok(s.world, at);
    BodyStands(s, i, at);
  }

  lemma TidyEnd(s: State, at: Stage)
    requires Inv(s) && Stands(s, at) && Tidy(s.world, at) && s.world.loopClosed
    ensures TornDown(s.world)
  {
    hide GuardOk;
    hide Stands;
    var at' :| Stands(s, at') && Ok(s.world, at');
    StandsOnce(s, at, at');
    CountsOf(s.world, at);
    assert at == Ended;
    hide WatcherOk;
    hide Ok;
  }

  lemma {:induction false} RunJoins(s: State, first: seq<Action>, rest: seq<Action>)
    requires Run(s, first).Some?
    ensures Run(s, first + rest) == Run(Run(s, first).value, rest)
    decreases |first|
  {
    if first == [] {
      assert first + rest == rest;
    } else {
      assert (first + rest)[1..] == first[1..] + rest;
      RunJoins(Next(s, first[0]).value, first[1..], rest);
    }
  }

  function Supervised(moves: seq<Move>): seq<Action> {
    seq(|moves|, i requires 0 <= i < |moves| => Supervise(moves[i]))
  }

  lemma {:induction false} RunSupervised(s: State, moves: seq<Move>)
    requires Watches(s.world, moves).Some?
    ensures Run(s, Supervised(moves)) == Some(s.(world := Watches(s.world, moves).value))
    decreases |moves|
  {
    hide Watch;
    if moves != [] {
      assert Supervised(moves)[1..] == Supervised(moves[1..]);
      RunSupervised(s.(world := Watch(s.world, moves[0]).value), moves[1..]);
    }
  }

  /** The body runs to its end, with a listener that it has not read left open. */
  lemma {:induction false} RunsToEnd(s: State, i: nat, it: Item) returns (run: seq<Action>)
    requires i < |s.callers| && s.callers[i].Body? && s.callers[i].at != NotBegun && s.callers[i].at != Ended
    requires s.callers[i].at.Closing? ==> s.callers[i].at.left != []
    requires it in s.world.open && !Due(s.world, s.callers[i].at, it)
    ensures Run(s, run).Some?
    ensures var e := Run(s, run).value; e.world.loopClosed && it in e.world.open
    decreases StageRank(s.callers[i].at), Left(s.callers[i].at)
  {
    var at := s.callers[i].at;
    var c := CanProceed(s.world, at);
    var s' := Next(s, Step(i, c)).value;
    var at' := Proceed(s.world, at, c).value.1;
    if at' == Ended {
      run := [Step(i, c)];
    } else {
      assert s'.callers[i] == Body(at');
      var rest := RunsToEnd(s', i, it);
      run := [Step(i, c)] + rest;
      assert run[1..] == rest;
    }
  }

  /**
    When the body reads the Supervisor's table, the join is over or has run out.  It can
    end with something still open exactly if at that moment the Supervisor is within a
    tick, or had died in the middle of opening or closing a board; else everything is
    taken down by the end, whatever happens until then.
   */
  lemma LeavesSomethingIff(run: seq<Action>, i: nat)
    requires Run(INIT, run).Some?
    requires i < |Run(INIT, run).value.callers| && Run(INIT, run).value.callers[i] == Body(Reading)
    ensures var s := Run(INIT, run).value;
            Loose(s.world) <==> exists rest :: LeavesSomething(s, rest)
  {
    StartsInv();
    RunKeeps(INIT, run);
    var s := Run(INIT, run).value;
    if Loose(s.world) {
      var rest := CanLeave(s, i);
      assert LeavesSomething(s, rest);
    } else {
      forall rest ensures !LeavesSomething(s, rest) {
        if Run(s, rest).Some? && Run(s, rest).value.world.loopClosed {
          SettledTearsDown(s, i, rest);
        }
      }
    }
  }

  lemma CanLeave(s: State, i: nat) returns (rest: seq<Action>)
    requires Inv(s) && i < |s.callers| && s.callers[i] == Body(Reading) && Loose(s.world)
    ensures LeavesSomething(s, rest)
  {
    AtReading(s, i);
    hide Inv;
    hide Loose;
    hide Watches;
    hide Agrees;
    hide WatcherOk;
    var moves, it := CanHold(s.world);
    RunSupervised(s, moves);
    var s' := Run(s, Supervised(moves)).value;
    hide Run;
    hide Supervised;
    var body := RunsToEnd(s', i, it);
    rest := Supervised(moves) + body;
    RunJoins(s, Supervised(moves), body);
    hide Due;
    LeftOver(s, rest, it);
  }

  lemma LeftOver(s: State, rest: seq<Action>, it: Item)
    requires Run(s, rest).Some? && Run(s, rest).value.world.loopClosed && it in Run(s, rest).value.world.open
    ensures LeavesSomething(s, rest)
  {
    hide Run;
  }

  // ---------------------------------------------------------------------------
  // Waiting for the Supervisor
  // ---------------------------------------------------------------------------

  /** The body goes on past its join exactly when the Supervisor is not running or the
      join has run out, and nothing else happens then. */
  lemma JoinWaits(s: State, i: nat, c: Choice)
    requires i < |s.callers| && s.callers[i] == Body(Joining)
    ensures Next(s, Step(i, c)).Some? <==> c.expired || !Alive(s.world)
    ensures Next(s, Step(i, c)).Some? ==> Next(s, Step(i, c)).value == At(s, i, Body(Reading))
  {
  }

  /** The body gives up waiting for a Supervisor that still runs. */
  predicate Expires(s: State, a: Action) {
    a.Step? && a.i < |s.callers| && s.callers[a.i] == Body(Joining) && a.choice.expired && Alive(s.world)
  }

  /** No join runs out on the Supervisor, and no exception ends it. */
  predicate Undisturbed(s: State, run: seq<Action>)
    decreases |run|
  {
    run != [] ==>
      && !Expires(s, run[0]) && run[0] != Supervise(Raise)
      && (Next(s, run[0]).Some? ==> Undisturbed(Next(s, run[0]).value, run[1..]))
  }

  /** Past the join, the body has the world to itself. */
  ghost predicate Orderly(w: World, at: Stage) {
    !w.dead && (at == NotBegun || at == Stopping || at == Joining || Tidy(w, at))
  }

  lemma WatchOrderly(w: World, at: Stage, m: Move)
    requires Orderly(w, at) && m != Raise && Watch(w, m).Some?
    ensures Orderly(Watch(w, m).value, at)
  {
    WatchLives(w, m);
    if Tidy(w, at) {
      WatchTidy(w, at, m);
    }
    hide Tidy;
    hide Watch;
  }

  lemma WatchLives(w: World, m: Move)
    requires !w.dead && m != Raise && Watch(w, m).Some?
    ensures !Watch(w, m).value.dead
  {
  }

  lemma ProceedOrderly(w: World, at: Stage, c: Choice)
    requires Ok(w, at) && Orderly(w, at) && Proceed(w, at, c).Some?
    requires at == Joining && c.expired ==> !Alive(w)
    ensures var (w', at') := Proceed(w, at, c).value; Orderly(w', at')
  {
    if Tidy(w, at) {
      ProceedTidy(w, at, c);
    }
    ProceedLives(w, at, c);
    hide Agrees;
    hide WatcherOk;
    hide Accounted;
    hide ClosesOnce;
  }

  lemma ProceedLives(w: World, at: Stage, c: Choice)
    requires Proceed(w, at, c).Some?
    ensures Proceed(w, at, c).value.0.dead == w.dead
  {
  }

  lemma MoveOrderly(s: State, at: Stage, a: Action, s': State, at': Stage)
    requires Ok(s.world, at) && Orderly(s.world, at) && Moves(s, at, a, s', at')
    requires !Expires(s, a) && a != Supervise(Raise)
    ensures Orderly(s'.world, at')
  {
    if a.Supervise? && Watch(s.world, a.move) == Some(s'.world) && at' == at {
      WatchOrderly(s.world, at, a.move);
    } else if a.Step? && Proceed(s.world, at, a.choice) == Some((s'.world, at'))
              && a.i < |s.callers| && s.callers[a.i] == Body(at) {
      ProceedOrderly(s.world, at, a.choice);
    }
    hide Watch;
    hide Proceed;
    hide Tidy;
    hide Ok;
  }

  lemma {:induction false} RunOrderly(s: State, at: Stage, run: seq<Action>) returns (at': Stage)
    requires Inv(s) && Stands(s, at) && Orderly(s.world, at) && Run(s, run).Some? && Undisturbed(s, run)
    ensures var e := Run(s, run).value; Inv(e) && Stands(e, at') && Orderly(e.world, at')
    decreases |run|
  {
    hide Next;
    hide Stands;
    hide GuardOk;
    hide Ok;
    hide Orderly;
    hide Expires;
    at' := at;
    if run != [] {
      var s' := Next(s, run[0]).value;
      NextKeeps(s, run[0]);
      var at0 :| Stands(s, at0) && Ok(s.world, at0);
      StandsOnce(s, at, at0);
      at' := StageMoves(s, at, run[0]);
      MoveOrderly(s, at, run[0], s', at');
      at' := RunOrderly(s', at', run[1..]);
    }
  }

  /** Whatever the order of steps: if no join ran out on a running Supervisor, and no
      exception ended it, then at the end of the body everything is taken down. */
  lemma UndisturbedTearsDown(run: seq<Action>)
    requires Run(INIT, run).Some? && Undisturbed(INIT, run) && Run(INIT, run).value.world.loopClosed
    ensures TornDown(Run(INIT, run).value.world)
  {
    StartsInv();
    assert Stands(INIT, NotBegun);
    var at := RunOrderly(INIT, NotBegun, run);
    var s := Run(INIT, run).value;
    hide Run;
    hide Undisturbed;
    OrderlyEnd(s, at);
  }

  lemma OrderlyEnd(s: State, at: Stage)
    requires Inv(s) && Stands(s, at) && Orderly(s.world, at) && s.world.loopClosed
    ensures TornDown(s.world)
  {
    var at0 :| Stands(s, at0) && Ok(s.world, at0);
    StandsOnce(s, at, at0);
    hide GuardOk;
    hide Stands;
    assert at == Ended;
    TidyEnd(s, at);
  }
}
