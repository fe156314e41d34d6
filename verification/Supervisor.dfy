/**
  The USB watcher: what every tick keeps of boards, advertisements, listeners and
  port pairs, over any history of probe lists and any order of set iteration.
 */
module Supervision {
  import opened Mdns
  import opened Listeners
  import opened PortPool

  /** What the Supervisor holds for one live board. */
  datatype Resources = Resources(name: string, serialSocket: nat, flashSocket: nat,
                                 serialPort: nat, flashPort: nat, serialHandle: nat, flashHandle: nat)

  function Max(a: nat, b: nat): nat {
    if a < b then b else a
  }

  lemma MaxGrows(a: nat, b: nat, c: nat)
    ensures b <= c ==> Max(Max(a, b), c) == Max(a, c)
  {
  }

  /** The distinct UIDs of a probe list. */
  function Uids(probes: seq<string>): set<string> {
    set i | 0 <= i < |probes| :: probes[i]
  }

  /** The most distinct UIDs seen in any one probe list. */
  function HighWater(history: seq<seq<string>>): nat {
    if history == [] then 0
    else Max(HighWater(history[..|history| - 1]), |Uids(history[|history| - 1])|)
  }

  // ---------------------------------------------------------------------------
  // Agreement between the boards and the two tables
  // ---------------------------------------------------------------------------

  function HandleOf(r: Resources, kind: ServiceType): nat {
    if kind == SerialService then r.serialHandle else r.flashHandle
  }

  function SocketOf(r: Resources, kind: ServiceType): nat {
    if kind == SerialService then r.serialSocket else r.flashSocket
  }

  function PortOf(r: Resources, kind: ServiceType): nat {
    if kind == SerialService then r.serialPort else r.flashPort
  }

  /** Live advertisements are exactly the two of each live board. */
  ghost predicate Advertised(boards: map<string, Resources>, handles: map<nat, Service>) {
    && (forall u, k :: u in boards ==>
          && HandleOf(boards[u], k) in handles
          && handles[HandleOf(boards[u], k)] == Service(boards[u].name, k, PortOf(boards[u], k), u))
    && (forall h :: h in handles ==>
          handles[h].uid in boards && h == HandleOf(boards[handles[h].uid], handles[h].kind))
  }

  /** Open and registered listeners are exactly the two of each live board. */
  ghost predicate Listening(boards: map<string, Resources>, open: map<nat, nat>, registered: map<nat, Endpoint>) {
    && open.Keys == registered.Keys
    && (forall u, k :: u in boards ==>
          var sock := SocketOf(boards[u], k);
          sock in registered && registered[sock] == Endpoint(u, k) && open[sock] == PortOf(boards[u], k))
    && (forall sock :: sock in registered ==>
          registered[sock].uid in boards && sock == SocketOf(boards[registered[sock].uid], registered[sock].kind))
  }

  lemma AdvertiseBoard(boards: map<string, Resources>, handles: map<nat, Service>, uid: string, r: Resources)
    requires Advertised(boards, handles) && uid !in boards
    requires r.serialHandle !in handles && r.flashHandle !in handles && r.serialHandle != r.flashHandle
    ensures Advertised(boards[uid := r],
                       handles[r.serialHandle := Service(r.name, SerialService, r.serialPort, uid)]
                              [r.flashHandle := Service(r.name, FlashService, r.flashPort, uid)])
  {
  }

  lemma WithdrawBoard(boards: map<string, Resources>, handles: map<nat, Service>, uid: string)
    requires Advertised(boards, handles) && uid in boards
    ensures Advertised(boards - {uid}, handles - {boards[uid].serialHandle} - {boards[uid].flashHandle})
    ensures boards[uid].serialHandle != boards[uid].flashHandle
  {
    var r := boards[uid];
    var handles' := handles - {r.serialHandle} - {r.flashHandle};
    forall u, k | u in boards - {uid} ensures HandleOf(boards[u], k) in handles' {
      assert handles[HandleOf(boards[u], k)].uid == u;
      assert handles[HandleOf(r, SerialService)].uid == uid && handles[HandleOf(r, FlashService)].uid == uid;
    }
    forall h | h in handles' ensures handles'[h].uid in boards - {uid} {
      assert h == HandleOf(boards[handles[h].uid], handles[h].kind);
    }
    assert handles[HandleOf(r, SerialService)].kind == SerialService;
    assert handles[HandleOf(r, FlashService)].kind == FlashService;
  }

  lemma ListenForBoard(boards: map<string, Resources>, open: map<nat, nat>, registered: map<nat, Endpoint>,
                       uid: string, r: Resources)
    requires Listening(boards, open, registered) && uid !in boards
    requires r.serialSocket !in open && r.flashSocket !in open && r.serialSocket != r.flashSocket
    ensures Listening(boards[uid := r],
                      open[r.serialSocket := r.serialPort][r.flashSocket := r.flashPort],
                      registered[r.serialSocket := Endpoint(uid, SerialService)]
                                [r.flashSocket := Endpoint(uid, FlashService)])
  {
  }

  lemma SilenceBoard(boards: map<string, Resources>, open: map<nat, nat>, registered: map<nat, Endpoint>, uid: string)
    requires Listening(boards, open, registered) && uid in boards
    ensures Listening(boards - {uid},
                      open - {boards[uid].serialSocket} - {boards[uid].flashSocket},
                      registered - {boards[uid].serialSocket} - {boards[uid].flashSocket})
  {
    var r := boards[uid];
    var registered' := registered - {r.serialSocket} - {r.flashSocket};
    forall u, k | u in boards - {uid} ensures SocketOf(boards[u], k) in registered' {
      assert registered[SocketOf(boards[u], k)].uid == u;
      assert registered[SocketOf(r, SerialService)].uid == uid && registered[SocketOf(r, FlashService)].uid == uid;
    }
    forall sock | sock in registered' ensures registered'[sock].uid in boards - {uid} {
      assert sock == SocketOf(boards[registered[sock].uid], registered[sock].kind);
    }
  }

  /** The ports of the boards `live` come from a pool of `made` pairs above the base;
      with no base port there is no pool. */
  ghost predicate PortsOk(base: nat, next: nat, made: nat, free: seq<Pair>, ports: map<string, Pair>,
                          live: map<string, Resources>) {
    if base > 0 then
      && next == base + 2 * made
      && PoolOk(base, made, free, ports)
      && ports.Keys == live.Keys
      && forall u :: u in live ==> ports[u] == (live[u].serialPort, live[u].flashPort)
    else ports == map[] && free == []
  }

  /** What allocation answers and leaves: no preference without a base port, else the
      last free pair, else the next two ports. */
  predicate Allocated(base: nat, next: nat, made: nat, free: seq<Pair>, pair: Pair,
                      next': nat, made': nat, free': seq<Pair>) {
    if base == 0 then pair == (0, 0) && next' == next && made' == made && free' == free
    else if free != [] then next' == next && made' == made && free == free' + [pair]
    else next' == next + 2 && made' == made + 1 && free' == [] && pair == (next, next + 1)
  }

  lemma PoolCounts(base: nat, made: nat, free: seq<Pair>, ports: map<string, Pair>)
    requires base > 0 && PoolOk(base, made, free, ports)
    ensures |free| + |ports| == made
    ensures forall p :: p in free ==> p.0 > 0 && p.1 > 0
  {
    forall p | p in free ensures p.0 > 0 && p.1 > 0 {
      assert Among(base, made, p);
    }
  }

  /** The allocated pair joins the pairs in use. */
  lemma PairJoins(base: nat, made: nat, free: seq<Pair>, ports: map<string, Pair>, uid: string, pair: Pair,
                  next: nat, next': nat, made': nat, free': seq<Pair>)
    requires base > 0 && next == base + 2 * made && PoolOk(base, made, free, ports) && uid !in ports
    requires Allocated(base, next, made, free, pair, next', made', free')
    ensures pair.0 > 0 && pair.1 > 0 && next' == base + 2 * made'
    ensures PoolOk(base, made', free', ports[uid := pair])
    ensures made' == Max(made, |ports| + 1)
  {
    PoolCounts(base, made, free, ports);
    hide PoolOk;
    if free != [] {
      assert pair in free;
      Reuse(base, made, free, ports, uid);
      assert free[..|free| - 1] == free';
    } else {
      Make(base, made, ports, uid);
    }
  }

  lemma ArrivalPorts(base: nat, next: nat, made: nat, free: seq<Pair>, ports: map<string, Pair>,
                     live: map<string, Resources>, uid: string, r: Resources, pair: Pair,
                     next': nat, made': nat, free': seq<Pair>)
    requires PortsOk(base, next, made, free, ports, live) && uid !in live
    requires pair.0 > 0 && pair.1 > 0 ==> (r.serialPort, r.flashPort) == pair
    requires Allocated(base, next, made, free, pair, next', made', free')
    ensures PortsOk(base, next', made', free', if base > 0 then ports[uid := (r.serialPort, r.flashPort)] else ports,
                    live[uid := r])
    ensures base > 0 ==> made' == Max(made, |live[uid := r]|)
  {
    hide PoolOk;
    if base > 0 {
      assert |ports| == |ports.Keys| == |live.Keys| == |live|;
      PairJoins(base, made, free, ports, uid, pair, next, next', made', free');
    }
    hide Allocated;
  }

  lemma OneMore<K, V>(m: map<K, V>, k: K, v: V)
    requires k !in m
    ensures |m[k := v]| == |m| + 1
  {
    assert m[k := v].Keys == m.Keys + {k};
    assert |m[k := v]| == |m[k := v].Keys| && |m| == |m.Keys|;
  }

  /** The departed board's pair becomes free. */
  lemma DeparturePorts(base: nat, next: nat, made: nat, free: seq<Pair>, ports: map<string, Pair>,
                       live: map<string, Resources>, uid: string)
    requires PortsOk(base, next, made, free, ports, live)
    ensures PortsOk(base, next, made, if uid in ports then free + [ports[uid]] else free,
                    ports - {uid}, live - {uid})
    ensures uid !in ports ==> ports - {uid} == ports
  {
    hide PoolOk;
    assert uid !in ports ==> ports - {uid} == ports;
    if base > 0 && uid in ports {
      GiveBack(base, made, free, ports, uid);
    }
  }

  datatype Inventory = Inventory(boards: map<string, Resources>, freelist: seq<Pair>, nextPort: nat,
                               boardPorts: map<string, Pair>, handles: map<nat, Service>, withdrawn: seq<nat>,
                               open: map<nat, nat>, registered: map<nat, Endpoint>)

  /** A board that has just arrived: its own name, and handles not issued before. */
  predicate Fresh(r: Resources, name: string, firstHandle: nat) {
    r.name == name && r.serialHandle >= firstHandle && r.flashHandle >= firstHandle
  }

  /** Part of the way through the arrivals `come`: those in `waiting` are still out. */
  predicate Joined(start: map<string, Resources>, boards: map<string, Resources>, waiting: set<string>,
                   come: set<string>, identify: string -> string, firstHandle: nat) {
    && waiting !! boards.Keys
    && boards.Keys + waiting == start.Keys + come
    && (forall u :: u in start ==> u in boards && boards[u] == start[u])
    && (forall u :: u in boards && u !in start ==> Fresh(boards[u], identify(u), firstHandle))
  }

  lemma JoinOne(start: map<string, Resources>, boards: map<string, Resources>, waiting: set<string>,
                come: set<string>, identify: string -> string, firstHandle: nat, uid: string, r: Resources)
    requires Joined(start, boards, waiting, come, identify, firstHandle) && uid in waiting
    requires Fresh(r, identify(uid), firstHandle)
    ensures Joined(start, boards[uid := r], waiting - {uid}, come, identify, firstHandle)
  {
    hide Fresh;
  }

  lemma JoinersAreNew(start: map<string, Resources>, boards: map<string, Resources>, waiting: set<string>,
                      come: set<string>, identify: string -> string, firstHandle: nat, uid: string)
    requires Joined(start, boards, waiting, come, identify, firstHandle) && uid in waiting
    ensures uid !in boards
  {
  }

  lemma JoinersAllIn(start: map<string, Resources>, boards: map<string, Resources>, come: set<string>,
                     identify: string -> string, firstHandle: nat)
    requires Joined(start, boards, {}, come, identify, firstHandle)
    ensures boards.Keys == start.Keys + come
    ensures forall u :: u in start ==> boards[u] == start[u]
    ensures forall u :: u in boards && u !in start ==> Fresh(boards[u], identify(u), firstHandle)
  {
    hide Fresh;
  }

  /** What a new board's handles are measured against only grows. */
  lemma FresherThan(r: Resources, name: string, firstHandle: nat, later: nat)
    requires Fresh(r, name, later) && firstHandle <= later
    ensures Fresh(r, name, firstHandle)
  {
  }

  // ---------------------------------------------------------------------------
  // The Supervisor
  // ---------------------------------------------------------------------------

  class Supervisor {
    const acceptLoop: AcceptLoop
    const advertiser: Advertiser
    const basePort: nat
    var boards: map<string, Resources>
    var known: set<string>
    var nextPort: nat
    var freelist: seq<Pair>
    var boardPorts: map<string, Pair>
    /** How many port pairs have ever been made. */
    ghost var made: nat
    /** The most boards live at the end of any tick so far. */
    ghost var peak: nat

    ghost predicate PortsAgree()
      reads this
    {
      PortsOk(basePort, nextPort, made, freelist, boardPorts, boards)
    }

    /** What holds between any two arrivals or departures. */
    ghost predicate Consistent()
      reads this, acceptLoop, advertiser
    {
      && advertiser.Valid() && !advertiser.closed && acceptLoop.Valid()
      && Advertised(boards, advertiser.handles)
      && Listening(boards, acceptLoop.open, acceptLoop.registered)
      && PortsAgree()
    }

    /** What holds between ticks. */
    ghost predicate Valid()
      reads this, acceptLoop, advertiser
    {
      && Consistent()
      && known == boards.Keys
      && (basePort > 0 ==> made == peak)
    }

    constructor (acceptLoop: AcceptLoop, advertiser: Advertiser, basePort: nat)
      requires advertiser.Valid() && !advertiser.closed && advertiser.handles == map[]
      requires acceptLoop.Valid() && acceptLoop.open == map[] && acceptLoop.registered == map[]
      ensures Valid() && boards == map[] && peak == 0
      ensures this.acceptLoop == acceptLoop && this.advertiser == advertiser && this.basePort == basePort
    {
      this.acceptLoop, this.advertiser, this.basePort := acceptLoop, advertiser, basePort;
      boards, known, nextPort, freelist, boardPorts := map[], {}, basePort, [], map[];
      made, peak := 0, 0;
    }

    /** Two ports for an arriving board: a departed board's pair if one is free. */
    method AllocPorts() returns (ports: Pair)
      modifies this`nextPort, this`freelist, this`made
      ensures Allocated(basePort, old(nextPort), old(made), old(freelist), ports, nextPort, made, freelist)
    {
      if basePort == 0 {
        return (0, 0);
      }
      if freelist != [] {
        ports := freelist[|freelist| - 1];
        freelist := freelist[..|freelist| - 1];
        return;
      }
      ports := (nextPort, nextPort + 1);
      nextPort := nextPort + 2;
      made := made + 1;
    }

    /** Bind both listeners, advertise both services, register both listeners. */
    method OpenBoard(uid: string, name: string, ports: Pair) returns (r: Resources)
      requires uid !in boards && advertiser.Valid() && acceptLoop.Valid()
      requires Advertised(boards, advertiser.handles)
      requires Listening(boards, acceptLoop.open, acceptLoop.registered)
      modifies acceptLoop, advertiser
      ensures advertiser.Valid() && acceptLoop.Valid() && advertiser.closed == old(advertiser.closed)
      ensures Advertised(boards[uid := r], advertiser.handles)
      ensures Listening(boards[uid := r], acceptLoop.open, acceptLoop.registered)
      ensures r.name == name
      ensures ports.0 > 0 && ports.1 > 0 ==> (r.serialPort, r.flashPort) == ports
      ensures r.serialHandle == old(advertiser.nextHandle) && r.flashHandle == r.serialHandle + 1
      ensures advertiser.nextHandle == old(advertiser.nextHandle) + 2
      ensures advertiser.withdrawn == old(advertiser.withdrawn)
    {
      hide Advertised;
      hide Listening;
      var serialSocket, serialPort := acceptLoop.Bind(ports.0);
      var flashSocket, flashPort := acceptLoop.Bind(ports.1);
      var serialHandle := advertiser.Register(name, SerialService, serialPort, uid);
      var flashHandle := advertiser.Register(name, FlashService, flashPort, uid);
      acceptLoop.Register(serialSocket, Endpoint(uid, SerialService));
      acceptLoop.Register(flashSocket, Endpoint(uid, FlashService));
      r := Resources(name, serialSocket, flashSocket, serialPort, flashPort, serialHandle, flashHandle);
      AdvertiseBoard(boards, old(advertiser.handles), uid, r);
      ListenForBoard(boards, old(acceptLoop.open), old(acceptLoop.registered), uid, r);
    }

    method OnArrival(uid: string, name: string)
      requires Consistent() && uid !in boards
      modifies this`boards, this`nextPort, this`freelist, this`boardPorts, this`made, acceptLoop, advertiser
      ensures Consistent()
      ensures uid in boards && boards == old(boards)[uid := boards[uid]]
      ensures Fresh(boards[uid], name, old(advertiser.nextHandle))
      ensures advertiser.nextHandle == old(advertiser.nextHandle) + 2
      ensures advertiser.withdrawn == old(advertiser.withdrawn)
      ensures |boards| == |old(boards)| + 1
      ensures basePort > 0 ==> made == Max(old(made), |boards|)
    {
      hide Advertised;
      hide Listening;
      hide PoolOk;
      hide PortsOk;
      hide Allocated;
      hide Max;
      var ports := AllocPorts();
      var r := OpenBoard(uid, name, ports);
      OneMore(boards, uid, r);
      boards := boards[uid := r];
      if basePort > 0 {
        boardPorts := boardPorts[uid := (r.serialPort, r.flashPort)];
      }
      ArrivalPorts(basePort, old(nextPort), old(made), old(freelist), old(boardPorts), old(boards), uid, r, ports,
                   nextPort, made, freelist);
    }

    /** Unregister both services of a departed board. */
    method WithdrawServices(uid: string, r: Resources)
      requires uid in boards && boards[uid] == r && advertiser.Valid()
      requires Advertised(boards, advertiser.handles)
      modifies advertiser
      ensures advertiser.Valid()
      ensures advertiser.closed == old(advertiser.closed) && advertiser.nextHandle == old(advertiser.nextHandle)
      ensures Advertised(boards - {uid}, advertiser.handles)
      ensures advertiser.withdrawn == old(advertiser.withdrawn) + [r.serialHandle, r.flashHandle]
    {
      WithdrawBoard(boards, advertiser.handles, uid);
      assert HandleOf(r, SerialService) in advertiser.handles && HandleOf(r, FlashService) in advertiser.handles;
      hide Advertised;
      advertiser.Unregister(r.serialHandle);
      advertiser.Unregister(r.flashHandle);
    }

    /** Unregister and close both listeners of a departed board. */
    method CloseListeners(uid: string, r: Resources)
      requires uid in boards && boards[uid] == r && acceptLoop.Valid()
      requires Listening(boards, acceptLoop.open, acceptLoop.registered)
      modifies acceptLoop
      ensures acceptLoop.Valid()
      ensures Listening(boards - {uid}, acceptLoop.open, acceptLoop.registered)
    {
      SilenceBoard(boards, acceptLoop.open, acceptLoop.registered, uid);
      hide Listening;
      acceptLoop.Unregister(r.serialSocket);
      acceptLoop.CloseSocket(r.serialSocket);
      acceptLoop.Unregister(r.flashSocket);
      acceptLoop.CloseSocket(r.flashSocket);
      assert acceptLoop.open == old(acceptLoop.open) - {r.serialSocket} - {r.flashSocket};
      assert acceptLoop.registered == old(acceptLoop.registered) - {r.serialSocket} - {r.flashSocket};
    }

    /** Every live board has a pair of its own. */
    lemma EnoughPairs()
      requires Consistent() && basePort > 0
      ensures |boards| <= made
    {
      assert |boards| == |boards.Keys| == |boardPorts|;
    }

    /** A departed board's ports, if it had been given any, become free. */
    method ReclaimPorts(uid: string, ghost before: map<string, Resources>)
      requires PortsOk(basePort, nextPort, made, freelist, boardPorts, before) && boards == before - {uid}
      modifies this`freelist, this`boardPorts
      ensures PortsAgree()
    {
      DeparturePorts(basePort, nextPort, made, freelist, boardPorts, before, uid);
      hide PortsOk;
      if uid in boardPorts {
        freelist := freelist + [boardPorts[uid]];
        boardPorts := boardPorts - {uid};
      }
    }

    method OnDeparture(uid: string)
      requires Consistent()
      modifies this`boards, this`freelist, this`boardPorts, acceptLoop, advertiser
      ensures Consistent()
      ensures boards == old(boards) - {uid}
      ensures advertiser.nextHandle == old(advertiser.nextHandle)
      ensures advertiser.withdrawn == if uid in old(boards)
                then old(advertiser.withdrawn) + [old(boards)[uid].serialHandle, old(boards)[uid].flashHandle]
                else old(advertiser.withdrawn)
    {
      if uid !in boards {
        return;
      }
      hide Advertised;
      hide Listening;
      hide PortsOk;
      WithdrawServices(uid, boards[uid]);
      CloseListeners(uid, boards[uid]);
      boards := boards - {uid};
      ReclaimPorts(uid, old(boards));
    }

    /** Everything the Supervisor manages, as one value. */
    ghost function Holdings(): Inventory
      reads this`boards, this`freelist, this`nextPort, this`boardPorts, acceptLoop, advertiser
    {
      Inventory(boards, freelist, nextPort, boardPorts, advertiser.handles, advertiser.withdrawn,
               acceptLoop.open, acceptLoop.registered)
    }

    /** The departures of one tick, in any order. */
    method DepartAll(gone: set<string>)
      requires Consistent() && gone <= boards.Keys
      modifies this`boards, this`freelist, this`boardPorts, acceptLoop, advertiser
      ensures Consistent()
      ensures boards.Keys == old(boards).Keys - gone
      ensures forall u :: u in boards ==> boards[u] == old(boards)[u]
      ensures advertiser.nextHandle == old(advertiser.nextHandle)
      ensures old(advertiser.withdrawn) <= advertiser.withdrawn
      ensures gone == {} ==> Holdings() == old(Holdings())
    {
      hide Consistent;
      hide Holdings;
      var departed := gone;
      while departed != {}
        invariant Consistent()
        invariant departed <= gone && departed <= boards.Keys
        invariant boards.Keys - departed == old(boards).Keys - gone
        invariant forall u :: u in boards ==> u in old(boards) && boards[u] == old(boards)[u]
        invariant advertiser.nextHandle == old(advertiser.nextHandle)
        invariant old(advertiser.withdrawn) <= advertiser.withdrawn
        invariant gone == {} ==> Holdings() == old(Holdings())
        decreases departed
      {
        var uid :| uid in departed;
        OnDeparture(uid);
        departed := departed - {uid};
      }
    }

    /** The arrivals of one tick, in any order. */
    method ArriveAll(come: set<string>, identify: string -> string)
      requires Consistent() && come !! boards.Keys
      modifies this`boards, this`nextPort, this`freelist, this`boardPorts, this`made, acceptLoop, advertiser
      ensures Consistent()
      ensures boards.Keys == old(boards).Keys + come
      ensures forall u :: u in old(boards) ==> boards[u] == old(boards)[u]
      ensures forall u :: u in boards && u !in old(boards) ==> Fresh(boards[u], identify(u), old(advertiser.nextHandle))
      ensures basePort > 0 ==> made == Max(old(made), |boards|)
      ensures advertiser.nextHandle >= old(advertiser.nextHandle)
      ensures advertiser.withdrawn == old(advertiser.withdrawn)
      ensures come == {} ==> Holdings() == old(Holdings())
    {
      if basePort > 0 {
        EnoughPairs();
        assert made == Max(old(made), |boards|);
      }
      hide Consistent;
      hide Fresh;
      hide Holdings;
      hide Max;
      assert Joined(boards, boards, come, come, identify, advertiser.nextHandle);
      hide Joined;
      var arrived := come;
      while arrived != {}
        invariant Consistent()
        invariant arrived <= come
        invariant Joined(old(boards), boards, arrived, come, identify, old(advertiser.nextHandle))
        invariant basePort > 0 ==> made == Max(old(made), |boards|)
        invariant advertiser.nextHandle >= old(advertiser.nextHandle)
        invariant advertiser.withdrawn == old(advertiser.withdrawn)
        invariant come == {} ==> Holdings() == old(Holdings())
        decreases arrived
      {
        var uid :| uid in arrived;
        ghost var was, before, from := boards, |boards|, advertiser.nextHandle;
        JoinersAreNew(old(boards), boards, arrived, come, identify, old(advertiser.nextHandle), uid);
        OnArrival(uid, identify(uid));
        MaxGrows(old(made), before, |boards|);
        FresherThan(boards[uid], identify(uid), old(advertiser.nextHandle), from);
        JoinOne(old(boards), was, arrived, come, identify, old(advertiser.nextHandle), uid, boards[uid]);
        arrived := arrived - {uid};
      }
      JoinersAllIn(old(boards), boards, come, identify, old(advertiser.nextHandle));
    }

    /** The tick ends: what was seen becomes what is known. */
    method Settle(current: set<string>)
      requires Consistent() && current == boards.Keys
      requires basePort > 0 ==> made == Max(peak, |boards|)
      modifies this`known, this`peak
      ensures Valid() && known == current && peak == Max(old(peak), |current|)
    {
      hide Advertised;
      hide Listening;
      hide PoolOk;
      assert |boards| == |boards.Keys|;
      known := current;
      peak := Max(peak, |current|);
    }

    /** Diff this probe list against the last one: departures first, then arrivals. */
    method Tick(probes: seq<string>, identify: string -> string)
      requires Valid()
      modifies this, acceptLoop, advertiser
      ensures Valid()
      ensures known == Uids(probes)
      ensures peak == Max(old(peak), |Uids(probes)|)
      ensures forall u :: u in old(boards) && u in boards ==> boards[u] == old(boards)[u]
      ensures forall u :: u in boards && u !in old(boards) ==>
                Fresh(boards[u], identify(u), old(advertiser.nextHandle))
      ensures old(advertiser.withdrawn) <= advertiser.withdrawn
      ensures Uids(probes) == old(known) ==> Holdings() == old(Holdings())
    {
      hide Uids;
      hide Fresh;
      hide Consistent;
      hide Holdings;
      hide Max;
      var current := Uids(probes);
      var departed := known - current;
      var arrived := current - known;
      assert Consistent() && known == boards.Keys && (basePort > 0 ==> made == peak);
      DepartAll(departed);
      ArriveAll(arrived, identify);
      assert boards.Keys == current;
      Settle(current);
    }

    /** The polling loop, over the probe lists it happens to see before it is stopped;
        a board may be identified differently every time it arrives. */
    method Watch(history: seq<seq<string>>, identify: (nat, string) -> string)
      requires Valid() && boards == map[] && peak == 0
      modifies this, acceptLoop, advertiser
      ensures Valid() && peak == HighWater(history)
      ensures history != [] ==> boards.Keys == Uids(history[|history| - 1])
    {
      for n := 0 to |history|
        invariant Valid() && peak == HighWater(history[..n])
        invariant n > 0 ==> known == Uids(history[n - 1])
      {
        Tick(history[n], uid => identify(n, uid));
        assert history[..n + 1][..n] == history[..n];
      }
      assert history[..|history|] == history;
    }

    /** Between ticks, the ports in use and the free ports together are exactly the
        pairs (B + 2i, B + 2i + 1) for i below the peak; none is both. */
    lemma PortsExactlyToPeak()
      requires Valid() && basePort > 0
      ensures nextPort == basePort + 2 * peak
      ensures forall p :: p in freelist || p in boardPorts.Values
                          <==> exists i: nat :: i < peak && p == NthPair(basePort, i)
      ensures forall p :: p in freelist ==> p !in boardPorts.Values
      ensures forall u, v :: u in boards && v in boards && u != v ==> boardPorts[u] != boardPorts[v]
    {
      forall p ensures p in freelist || p in boardPorts.Values
                       <==> exists i: nat :: i < peak && p == NthPair(basePort, i) {
        if i: nat :| i < peak && p == NthPair(basePort, i) {
          assert NthPair(basePort, i) in freelist || Used(boardPorts, NthPair(basePort, i));
        }
        if p in freelist || p in boardPorts.Values {
          assert Among(basePort, made, p);
        }
      }
    }

    /** No advertisement handle and no listener serves two services. */
    lemma ResourcesAreDistinct(u: string, k: ServiceType, v: string, l: ServiceType)
      requires Valid() && u in boards && v in boards
      ensures HandleOf(boards[u], k) == HandleOf(boards[v], l) ==> u == v && k == l
      ensures SocketOf(boards[u], k) == SocketOf(boards[v], l) ==> u == v && k == l
    {
      assert var h := advertiser.handles[HandleOf(boards[u], k)]; h.uid == u && h.kind == k;
      assert var h := advertiser.handles[HandleOf(boards[v], l)]; h.uid == v && h.kind == l;
      assert acceptLoop.registered[SocketOf(boards[u], k)] == Endpoint(u, k);
      assert acceptLoop.registered[SocketOf(boards[v], l)] == Endpoint(v, l);
    }
  }
}
