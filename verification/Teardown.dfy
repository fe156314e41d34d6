/** What `serve` holds open, the thread that opens and closes it, and what the body of
    the signal handler does about it, one step at a time. */
module Teardown {
  import opened Wrappers
  import opened Mdns

  /** A listener or an advertisement; a board is known by the number of its arrival. */
  datatype Item = Item(board: nat, kind: ServiceType)

  /** Where the Supervisor thread is: between two ticks, within one, opening or closing a
      board, or past its loop. */
  datatype Watcher =
    | NotStarted
    | Waiting
    | Ticking(departing: bool)
    | Arriving(n: nat, step: nat)
    | Departing(n: nat, step: nat)
    | Gone

  /** `listed` is the Supervisor's table of boards; `issued`, `withdrawn` and `closes`
      record every advertisement made, every one withdrawn, and every listener that the
      body has closed. */
  datatype World = World(
    stop: bool, watcher: Watcher, dead: bool, listed: set<nat>, next: nat,
    open: set<Item>, registered: set<Item>, handles: set<Item>,
    zeroconfClosed: bool, loopClosed: bool,
    issued: set<Item>, withdrawn: seq<Item>, closes: seq<Item>)

  const NOTHING := World(false, NotStarted, false, {}, 0, {}, {}, {}, false, false, {}, [], [])

  /** The Supervisor's next step; an arrival or a departure to begin; or an exception. */
  datatype Move = Go | Arrive | Depart(n: nat) | Raise

  function Withdraw(w: World, it: Item): World {
    if it in w.handles then w.(handles := w.handles - {it}, withdrawn := w.withdrawn + [it]) else w
  }

  function Advertise(w: World, it: Item): World {
    w.(handles := w.handles + {it}, issued := w.issued + {it})
  }

  /** Bind both listeners, advertise both services, register both listeners; then the
      table has the board.  After zeroconf or the selector was closed there is only the
      exception. */
  function ArriveStep(w: World, n: nat, step: nat): Option<World> {
    var s, f, on := Item(n, SerialService), Item(n, FlashService), w.(watcher := Arriving(n, step + 1));
    match step
    case 0 => Some(on.(open := w.open + {s}))
    case 1 => Some(on.(open := w.open + {f}))
    case 2 => if w.zeroconfClosed then None else Some(Advertise(on, s))
    case 3 => if w.zeroconfClosed then None else Some(Advertise(on, f))
    case 4 => if w.loopClosed then None else Some(on.(registered := w.registered + {s}))
    case 5 => if w.loopClosed then None else Some(on.(registered := w.registered + {f}))
    case _ => Some(w.(listed := w.listed + {n}, watcher := Ticking(false)))
  }

  /** The table has lost the board: withdraw both services, then unregister and close
      each listener. */
  function DepartStep(w: World, n: nat, step: nat): World {
    var s, f, on := Item(n, SerialService), Item(n, FlashService), w.(watcher := Departing(n, step + 1));
    match step
    case 0 => Withdraw(on, s)
    case 1 => Withdraw(on, f)
    case 2 => on.(registered := w.registered - {s})
    case 3 => on.(open := w.open - {s})
    case 4 => on.(registered := w.registered - {f})
    case _ => w.(open := w.open - {f}, watcher := Ticking(true))
  }

  predicate InTick(w: World) {
    w.watcher.Ticking? || w.watcher.Arriving? || w.watcher.Departing?
  }

  function Watch(w: World, m: Move): Option<World> {
    if w.dead then None
    else if m == Raise then (if InTick(w) then Some(w.(dead := true)) else None)
    else match w.watcher
         case NotStarted => if m == Go then Some(w.(watcher := Waiting)) else None
         case Waiting => if m == Go then Some(w.(watcher := if w.stop then Gone else Ticking(true))) else None
         case Ticking(departing) =>
           (match m
            case Go => Some(w.(watcher := Waiting))
            case Arrive => Some(w.(watcher := Arriving(w.next, 0), next := w.next + 1))
            case Depart(n) =>
              if departing && n in w.listed then Some(w.(watcher := Departing(n, 0), listed := w.listed - {n}))
              else None
            case Raise => None)
         case Arriving(n, step) => if m == Go then ArriveStep(w, n, step) else None
         case Departing(n, step) => if m == Go then Some(DepartStep(w, n, step)) else None
         case Gone => None
  }

  // ---------------------------------------------------------------------------
  // The body
  // ---------------------------------------------------------------------------

  /** Where the body is: raising the stop event, joining the Supervisor, reading its
      table, at the listeners it read, at the advertisements it read, closing zeroconf,
      closing the accept loop. */
  datatype Stage =
    | NotBegun
    | Stopping
    | Joining
    | Reading
    | Unregistering(left: seq<Item>)
    | Closing(left: seq<Item>)
    | Listing
    | Withdrawing(left: seq<Item>)
    | ClosingZeroconf
    | ClosingLoop
    | Ended

  /** Whether a join runs out, and the order of the table that is read. */
  datatype Choice = Choice(expired: bool, boards: seq<nat>, handles: seq<Item>)

  predicate InOrder<T(==)>(order: seq<T>, all: set<T>) {
    && Distinct(order)
    && (forall x :: x in order ==> x in all)
    && (forall x :: x in all ==> x in order)
  }

  predicate Alive(w: World) {
    !w.dead && w.watcher != NotStarted && w.watcher != Gone
  }

  /** Both listeners of each board, the serial one first. */
  function Listeners(boards: seq<nat>): seq<Item> {
    if boards == [] then []
    else [Item(boards[0], SerialService), Item(boards[0], FlashService)] + Listeners(boards[1..])
  }

  function Proceed(w: World, at: Stage, c: Choice): Option<(World, Stage)> {
    match at
    case NotBegun => None
    case Stopping => Some((w.(stop := true), Joining))
    case Joining => if Alive(w) && !c.expired then None else Some((w, Reading))
    case Reading => if InOrder(c.boards, w.listed) then Some((w, Unregistering(Listeners(c.boards)))) else None
    case Unregistering(left) =>
      if left == [] then Some((w, Listing)) else Some((w.(registered := w.registered - {left[0]}), Closing(left)))
    case Closing(left) =>
      if left == [] then None
      else Some((w.(open := w.open - {left[0]}, closes := w.closes + [left[0]]), Unregistering(left[1..])))
    case Listing => if InOrder(c.handles, w.handles) then Some((w, Withdrawing(c.handles))) else None
    case Withdrawing(left) =>
      if left == [] then Some((w, ClosingZeroconf)) else Some((Withdraw(w, left[0]), Withdrawing(left[1..])))
    case ClosingZeroconf => Some((w.(zeroconfClosed := true), ClosingLoop))
    case ClosingLoop => Some((w.(loopClosed := true), Ended))
    case Ended => None
  }

  // ---------------------------------------------------------------------------
  // What every step keeps
  // ---------------------------------------------------------------------------

  function Rank(kind: ServiceType): nat {
    if kind == SerialService then 0 else 1
  }

  /** What the Supervisor holds outside its table, in the middle of an arrival or a
      departure. */
  predicate HoldsOpen(w: World, it: Item) {
    match w.watcher
    case Arriving(n, step) => it.board == n && step > Rank(it.kind)
    case Departing(n, step) => it.board == n && step <= 3 + 2 * Rank(it.kind)
    case _ => false
  }

  predicate HoldsHandle(w: World, it: Item) {
    match w.watcher
    case Arriving(n, step) => it.board == n && step > 2 + Rank(it.kind)
    case Departing(n, step) => it.board == n && step <= Rank(it.kind)
    case _ => false
  }

  predicate HoldsRegistered(w: World, it: Item) {
    match w.watcher
    case Arriving(n, step) => it.board == n && step > 4 + Rank(it.kind)
    case Departing(n, step) => it.board == n && step <= 2 + 2 * Rank(it.kind)
    case _ => false
  }

  /** Listeners and advertisements are those of the boards in the table, and what the
      Supervisor holds outside it. */
  ghost predicate Agrees(w: World) {
    OpenAgrees(w) && RegisteredAgrees(w) && HandlesAgree(w)
  }

  ghost predicate OpenAgrees(w: World) {
    forall it :: it in w.open <==> it.board in w.listed || HoldsOpen(w, it)
  }

  ghost predicate RegisteredAgrees(w: World) {
    forall it :: it in w.registered <==> it.board in w.listed || HoldsRegistered(w, it)
  }

  ghost predicate HandlesAgree(w: World) {
    forall it :: it in w.handles <==> it.board in w.listed || HoldsHandle(w, it)
  }

  ghost predicate WatcherOk(w: World) {
    && (forall n :: n in w.listed ==> n < w.next)
    && match w.watcher
       case Arriving(n, step) => n < w.next && n !in w.listed && step <= 6
       case Departing(n, step) => n < w.next && n !in w.listed && step <= 5
       case Gone => w.stop
       case _ => true
  }

  /** Every advertisement made is still up or was withdrawn, and that once. */
  ghost predicate Accounted(w: World) {
    && Distinct(w.withdrawn)
    && (forall it :: it in w.issued <==> it in w.handles || it in w.withdrawn)
    && (forall it :: it in w.withdrawn ==> it !in w.handles)
    && (forall it :: it in w.issued ==> it.board < w.next)
    && (w.watcher.Arriving? ==>
          forall it :: it in w.issued && it.board == w.watcher.n ==> w.watcher.step > 2 + Rank(it.kind))
  }

  predicate BeforeListeners(at: Stage) {
    at == NotBegun || at == Stopping || at == Joining || at == Reading
  }

  predicate WithLeft(at: Stage) {
    at.Unregistering? || at.Closing?
  }

  /** No listener is closed twice. */
  predicate ClosesOnce(w: World, at: Stage) {
    Distinct(w.closes + if WithLeft(at) then at.left else [])
  }

  ghost predicate Ok(w: World, at: Stage) {
    && WatcherOk(w) && Accounted(w)
    && (BeforeListeners(at) ==> Agrees(w) && w.closes == [] && !w.zeroconfClosed && !w.loopClosed)
    && (at != NotBegun && at != Stopping ==> w.stop)
    && ClosesOnce(w, at)
    && (at.Closing? ==> at.left != [])
    && (w.loopClosed ==> at == Ended)
  }

  lemma {:induction false} ListenersOf(boards: seq<nat>)
    requires Distinct(boards)
    ensures Distinct(Listeners(boards))
    ensures forall it: Item :: it in Listeners(boards) <==> it.board in boards
  {
    if boards != [] {
      ListenersOf(boards[1..]);
      var two := [Item(boards[0], SerialService), Item(boards[0], FlashService)];
      assert boards == [boards[0]] + boards[1..];
      assert Listeners(boards) == two + Listeners(boards[1..]);
      assert forall i, j :: 0 <= i < j < |boards| ==> boards[i] != boards[j];
      assert boards[0] !in boards[1..];
      forall it: Item ensures it in Listeners(boards) <==> it.board in boards {
        assert it in two <==> it == two[0] || it == two[1];
        assert it.kind == SerialService || it.kind == FlashService;
      }
    }
  }

  lemma WithdrawKeeps(w: World, it: Item)
    requires Accounted(w)
    ensures Accounted(Withdraw(w, it))
  {
  }

  /** A step that makes or withdraws no advertisement. */
  lemma SameAccounts(w: World, w': World)
    requires Accounted(w) && w'.issued == w.issued && w'.handles == w.handles && w'.withdrawn == w.withdrawn
    requires w.next <= w'.next
    requires w'.watcher.Arriving? ==> w'.watcher.n == w.next || (w.watcher.Arriving? && w'.watcher.n == w.watcher.n
                                                                 && w.watcher.step <= w'.watcher.step)
    ensures Accounted(w')
  {
  }

  lemma AdvertiseAccounted(w: World)
    requires WatcherOk(w) && Accounted(w) && w.watcher.Arriving? && 2 <= w.watcher.step <= 3
    ensures var w' := ArriveStep(w, w.watcher.n, w.watcher.step); w'.Some? ==> Accounted(w'.value)
  {
    assert w.watcher.n < w.next;
    hide WatcherOk;
  }

  lemma WatcherStays(w: World, m: Move)
    requires WatcherOk(w) && Watch(w, m).Some?
    ensures WatcherOk(Watch(w, m).value)
  {
  }

  lemma WatchAccounted(w: World, m: Move)
    requires WatcherOk(w) && Accounted(w) && Watch(w, m).Some?
    ensures Accounted(Watch(w, m).value)
  {
    hide Accounted;
    hide WatcherOk;
    var w' := Watch(w, m).value;
    if m == Go && w.watcher.Arriving? && 2 <= w.watcher.step <= 3 {
      AdvertiseAccounted(w);
    } else if m == Go && w.watcher.Departing? && w.watcher.step <= 1 {
      var on := w.(watcher := Departing(w.watcher.n, w.watcher.step + 1));
      SameAccounts(w, on);
      WithdrawKeeps(on, Item(w.watcher.n, if w.watcher.step == 0 then SerialService else FlashService));
    } else {
      SameAccounts(w, w');
    }
  }

  lemma ArriveOpen(w: World)
    requires WatcherOk(w) && OpenAgrees(w) && w.watcher.Arriving?
    requires ArriveStep(w, w.watcher.n, w.watcher.step).Some?
    ensures OpenAgrees(ArriveStep(w, w.watcher.n, w.watcher.step).value)
  {
    var w' := ArriveStep(w, w.watcher.n, w.watcher.step).value;
    forall it: Item ensures it in w'.open <==> it.board in w'.listed || HoldsOpen(w', it) {
      assert it in w.open <==> it.board in w.listed || HoldsOpen(w, it);
    }
  }

  lemma ArriveRegistered(w: World)
    requires WatcherOk(w) && RegisteredAgrees(w) && w.watcher.Arriving?
    requires ArriveStep(w, w.watcher.n, w.watcher.step).Some?
    ensures RegisteredAgrees(ArriveStep(w, w.watcher.n, w.watcher.step).value)
  {
    var w' := ArriveStep(w, w.watcher.n, w.watcher.step).value;
    forall it: Item ensures it in w'.registered <==> it.board in w'.listed || HoldsRegistered(w', it) {
      assert it in w.registered <==> it.board in w.listed || HoldsRegistered(w, it);
    }
  }

  lemma ArriveHandles(w: World)
    requires WatcherOk(w) && HandlesAgree(w) && w.watcher.Arriving?
    requires ArriveStep(w, w.watcher.n, w.watcher.step).Some?
    ensures HandlesAgree(ArriveStep(w, w.watcher.n, w.watcher.step).value)
  {
    var w' := ArriveStep(w, w.watcher.n, w.watcher.step).value;
    forall it: Item ensures it in w'.handles <==> it.board in w'.listed || HoldsHandle(w', it) {
      assert it in w.handles <==> it.board in w.listed || HoldsHandle(w, it);
    }
  }

  lemma DepartOpen(w: World)
    requires WatcherOk(w) && OpenAgrees(w) && w.watcher.Departing?
    ensures OpenAgrees(DepartStep(w, w.watcher.n, w.watcher.step))
  {
    var w' := DepartStep(w, w.watcher.n, w.watcher.step);
    forall it: Item ensures it in w'.open <==> it.board in w'.listed || HoldsOpen(w', it) {
      assert it in w.open <==> it.board in w.listed || HoldsOpen(w, it);
    }
  }

  lemma DepartRegistered(w: World)
    requires WatcherOk(w) && RegisteredAgrees(w) && w.watcher.Departing?
    ensures RegisteredAgrees(DepartStep(w, w.watcher.n, w.watcher.step))
  {
    var w' := DepartStep(w, w.watcher.n, w.watcher.step);
    forall it: Item ensures it in w'.registered <==> it.board in w'.listed || HoldsRegistered(w', it) {
      assert it in w.registered <==> it.board in w.listed || HoldsRegistered(w, it);
    }
  }

  lemma DepartHandles(w: World)
    requires WatcherOk(w) && HandlesAgree(w) && w.watcher.Departing?
    ensures HandlesAgree(DepartStep(w, w.watcher.n, w.watcher.step))
  {
    var w' := DepartStep(w, w.watcher.n, w.watcher.step);
    forall it: Item ensures it in w'.handles <==> it.board in w'.listed || HoldsHandle(w', it) {
      assert it in w.handles <==> it.board in w.listed || HoldsHandle(w, it);
    }
  }

  lemma WatchAgrees(w: World, m: Move)
    requires WatcherOk(w) && Agrees(w) && Watch(w, m).Some?
    ensures Agrees(Watch(w, m).value)
  {
    if m == Go && w.watcher.Arriving? {
      ArriveOpen(w);
      ArriveRegistered(w);
      ArriveHandles(w);
    } else if m == Go && w.watcher.Departing? {
      DepartOpen(w);
      DepartRegistered(w);
      DepartHandles(w);
    }
  }

  /** The Supervisor neither stops, closes nor reads what is the body's. */
  lemma WatchLeaves(w: World, m: Move)
    requires Watch(w, m).Some?
    ensures var w' := Watch(w, m).value;
            && w'.stop == w.stop && w'.zeroconfClosed == w.zeroconfClosed && w'.loopClosed == w.loopClosed
            && w'.closes == w.closes
  {
  }

  lemma WatchOk(w: World, at: Stage, m: Move)
    requires Ok(w, at) && Watch(w, m).Some?
    ensures Ok(Watch(w, m).value, at)
  {
    WatcherStays(w, m);
    WatchAccounted(w, m);
    WatchLeaves(w, m);
    if BeforeListeners(at) {
      WatchAgrees(w, m);
    }
    hide Agrees;
    hide Accounted;
    hide WatcherOk;
    hide Watch;
  }

  lemma StopKeeps(w: World)
    ensures Agrees(w) ==> Agrees(w.(stop := true))
  {
  }

  lemma ProceedAccounted(w: World, at: Stage, c: Choice)
    requires WatcherOk(w) && Accounted(w) && Proceed(w, at, c).Some?
    ensures WatcherOk(Proceed(w, at, c).value.0) && Accounted(Proceed(w, at, c).value.0)
  {
    if at.Withdrawing? && at.left != [] {
      WithdrawKeeps(w, at.left[0]);
    }
  }

  lemma ProceedClosesOnce(w: World, at: Stage, c: Choice)
    requires ClosesOnce(w, at) && (BeforeListeners(at) ==> w.closes == []) && Proceed(w, at, c).Some?
    ensures ClosesOnce(Proceed(w, at, c).value.0, Proceed(w, at, c).value.1)
  {
    if at.Reading? {
      ListenersOf(c.boards);
      assert [] + Listeners(c.boards) == Listeners(c.boards);
    }
    if at.Closing? {
      assert w.closes + at.left == w.closes + [at.left[0]] + at.left[1..];
    }
    hide Withdraw;
    hide Distinct;
  }

  lemma ProceedOk(w: World, at: Stage, c: Choice)
    requires Ok(w, at) && Proceed(w, at, c).Some?
    ensures var (w', at') := Proceed(w, at, c).value; Ok(w', at')
  {
    ProceedAccounted(w, at, c);
    ProceedClosesOnce(w, at, c);
    StopKeeps(w);
    hide Agrees;
    hide Accounted;
    hide WatcherOk;
    hide ClosesOnce;
  }

  /** Only a Supervisor that runs, and within a tick, can die of an exception; then it
      does nothing more. */
  lemma OnlyTicksRaise(w: World, m: Move)
    ensures Watch(w, Raise).Some? <==> !w.dead && InTick(w)
    ensures Watch(w, Raise).Some? ==> Watch(w, Raise) == Some(w.(dead := true)) && Watch(w.(dead := true), m) == None
  {
  }

  /** In one tick all departures come before the first arrival, and neither kind stops at
      one: after a departure any other board may depart, after an arrival none, and either
      way another may arrive. */
  lemma DeparturesThenArrivals(w: World, m: nat, n: nat)
    requires !w.dead
    ensures w.watcher == Departing(m, 5) ==>
              var w' := DepartStep(w, m, 5);
              Watch(w, Go) == Some(w') && (Watch(w', Depart(n)).Some? <==> n in w.listed) && Watch(w', Arrive).Some?
    ensures w.watcher == Arriving(m, 6) ==>
              var w' := ArriveStep(w, m, 6);
              w'.Some? && Watch(w, Go) == w' && Watch(w'.value, Depart(n)) == None && Watch(w'.value, Arrive).Some?
  {
  }

  // ---------------------------------------------------------------------------
  // A Supervisor that is out of its way, and one that is not
  // ---------------------------------------------------------------------------

  /** The Supervisor is within a tick, or died in the middle of opening or closing a
      board. */
  predicate Loose(w: World) {
    if w.dead then w.watcher.Departing? || (w.watcher.Arriving? && w.watcher.step > 0) else InTick(w)
  }

  function Items(s: seq<Item>): set<Item> {
    set it | it in s
  }

  /** The body has the world to itself: what is up is what it has still to take down. */
  ghost predicate Tidy(w: World, at: Stage) {
    && w.stop && !Loose(w)
    && match at
       case Reading => Agrees(w)
       case Unregistering(left) => Distinct(left) && w.open == w.registered == Items(left)
       case Closing(left) =>
         left != [] && Distinct(left) && w.open == Items(left) && w.registered == Items(left[1..])
       case Listing => w.open == w.registered == {}
       case Withdrawing(left) => w.open == w.registered == {} && Distinct(left) && w.handles == Items(left)
       case ClosingZeroconf => w.open == w.registered == w.handles == {}
       case ClosingLoop => w.open == w.registered == w.handles == {} && w.zeroconfClosed
       case Ended => w.open == w.registered == w.handles == {} && w.zeroconfClosed && w.loopClosed
       case _ => false
  }

  lemma WatchTidy(w: World, at: Stage, m: Move)
    requires Tidy(w, at) && Watch(w, m).Some?
    ensures Tidy(Watch(w, m).value, at)
  {
  }

  /** A first item taken from a list without repetitions. */
  lemma TakeFirst(left: seq<Item>)
    requires left != [] && Distinct(left)
    ensures Distinct(left[1..]) && left[0] !in left[1..] && Items(left) - {left[0]} == Items(left[1..])
  {
    assert left == [left[0]] + left[1..];
    assert left[0] !in left[1..];
  }

  lemma ProceedTidy(w: World, at: Stage, c: Choice)
    requires Tidy(w, at) && Proceed(w, at, c).Some?
    ensures var (w', at') := Proceed(w, at, c).value; Tidy(w', at')
  {
    match at
    case Reading =>
      ListenersOf(c.boards);
      assert Items(Listeners(c.boards)) == w.open == w.registered;
    case Unregistering(left) =>
      if left != [] {
        TakeFirst(left);
      }
    case Closing(left) => TakeFirst(left);
    case Listing => assert Items(c.handles) == w.handles;
    case Withdrawing(left) =>
      if left != [] {
        TakeFirst(left);
      }
    case _ =>
  }

  function Watches(w: World, moves: seq<Move>): Option<World>
    decreases |moves|
  {
    if moves == [] then Some(w)
    else match Watch(w, moves[0])
         case None => None
         case Some(w') => Watches(w', moves[1..])
  }

  /** A Supervisor in the way can come to hold a listener that its table does not have. */
  lemma CanHold(w: World) returns (moves: seq<Move>, it: Item)
    requires WatcherOk(w) && Agrees(w) && Loose(w)
    ensures Watches(w, moves).Some?
    ensures var w' := Watches(w, moves).value; it in w'.open && it.board !in w'.listed
  {
    match w.watcher
    case Ticking(_) =>
      moves, it := [Arrive, Go], Item(w.next, SerialService);
      assert moves[1..] == [Go];
    case Arriving(n, step) =>
      moves, it := if step == 0 then [Go] else [], Item(n, SerialService);
    case Departing(n, step) => moves, it := [], Item(n, FlashService);
  }

  lemma {:induction false} OrderOf<T>(all: set<T>) returns (order: seq<T>)
    ensures InOrder(order, all)
    decreases all
  {
    order := [];
    if all != {} {
      var x :| x in all;
      var rest := OrderOf(all - {x});
      order := [x] + rest;
    }
  }

  /** What the body has still to close. */
  predicate Due(w: World, at: Stage, it: Item) {
    match at
    case Reading => it.board in w.listed
    case Unregistering(left) => it in left
    case Closing(left) => it in left
    case _ => BeforeListeners(at)
  }

  /** Steps until the body ends, given how much it has to take down at each stage. */
  function StageRank(at: Stage): nat {
    match at
    case NotBegun => 9
    case Stopping => 8
    case Joining => 7
    case Reading => 6
    case Unregistering(_) => 5
    case Closing(_) => 5
    case Listing => 4
    case Withdrawing(_) => 3
    case ClosingZeroconf => 2
    case ClosingLoop => 1
    case Ended => 0
  }

  function Left(at: Stage): nat {
    match at
    case Unregistering(left) => 2 * |left|
    case Closing(left) => 2 * |left| - if left == [] then 0 else 1
    case Withdrawing(left) => |left|
    case _ => 0
  }

  /** Past the join the body can always take its next step, which closes nothing but what
      it has read. */
  lemma CanProceed(w: World, at: Stage) returns (c: Choice)
    requires at != NotBegun && at != Ended && (at.Closing? ==> at.left != [])
    ensures Proceed(w, at, c).Some?
    ensures var (w', at') := Proceed(w, at, c).value;
            && (StageRank(at') < StageRank(at) || (StageRank(at') == StageRank(at) && Left(at') < Left(at)))
            && (at'.Closing? ==> at'.left != []) && at' != NotBegun
            && forall it :: it in w.open && !Due(w, at, it) ==> it in w'.open && !Due(w', at', it)
  {
    var boards := OrderOf(w.listed);
    var handles := OrderOf(w.handles);
    c := Choice(true, boards, handles);
    if at.Reading? {
      ListenersOf(boards);
    }
  }
}
