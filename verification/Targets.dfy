/** Which board `deploy` flashes, decided from a registry whose recorded ports may be stale. */
module Targets {
  import opened Wrappers
  import opened Text
  import opened Roles
  import opened Registry

  // ---------------------------------------------------------------------------
  // A token resolved through the registry
  // ---------------------------------------------------------------------------

  predicate IsHex(c: char) {
    '0' <= c <= '9' || 'a' <= c <= 'f' || 'A' <= c <= 'F'
  }

  predicate LooksLikeUid(token: string) {
    40 <= |token| <= 52 && forall i :: 0 <= i < |token| ==> IsHex(token[i])
  }

  predicate IsPath(token: string) {
    StartsWith(token, "/dev/") || '/' in token
  }

  /** The first entry, in registry order, that `wanted` accepts. */
  function First(items: seq<Item>, wanted: Entry -> bool): (found: Option<Entry>)
    ensures found.None? <==> forall i :: 0 <= i < |items| ==> !wanted(items[i].entry)
    ensures found.Some? ==> exists i :: 0 <= i < |items| && items[i].entry == found.value && wanted(found.value)
                                        && forall j :: 0 <= j < i ==> !wanted(items[j].entry)
  {
    if items == [] then None
    else if wanted(items[0].entry) then Some(items[0].entry)
    else
      var found := First(items[1..], wanted);
      assert forall i :: 1 <= i < |items| ==> items[i] == items[1..][i - 1];
      assert found.Some? ==>
          exists i :: 0 <= i < |items| && items[i].entry == found.value && wanted(found.value)
                      && forall j :: 0 <= j < i ==> !wanted(items[j].entry) by {
        if found.Some? {
          var k :| 0 <= k < |items[1..]| && items[1..][k].entry == found.value && wanted(found.value)
                   && forall j :: 0 <= j < k ==> !wanted(items[1..][j].entry);
          assert items[k + 1].entry == found.value;
        }
      }
      found
  }

  /** A name field read case-insensitively; an absent one reads as empty. */
  function Folded(name: Option<string>): string {
    if name.Some? then Lower(name.value) else ""
  }

  function ByEnum(n: nat): Entry -> bool {
    (e: Entry) => e.enum == Some(n)
  }

  function ByUid(uid: string): Entry -> bool {
    (e: Entry) => e.uid == uid
  }

  function ByDeviceName(token: string): Entry -> bool {
    (e: Entry) => Folded(e.deviceName) == Lower(token)
  }

  function ByBoardName(token: string): Entry -> bool {
    (e: Entry) => Folded(e.boardName) == Lower(token)
  }

  function ResolveTarget(token: string, items: seq<Item>): Option<Entry> {
    if IsDigits(token) then First(items, ByEnum(ParseNat(token)))
    else if IsPath(token) then None
    else if LooksLikeUid(token) then First(items, ByUid(token))
    else
      var announced := First(items, ByDeviceName(token));
      if announced.Some? then announced else First(items, ByBoardName(token))
  }

  // ---------------------------------------------------------------------------
  // deploy
  // ---------------------------------------------------------------------------

  datatype Refusal = NoSuchTarget | NoLivePort | NobodyOnPort | Unregistered
                   | NoCandidate | Ambiguous | RelayBoard | NotConnected

  datatype Choice = Board(entry: Entry) | NoBoard(why: Refusal)

  datatype Verdict = Flashes(uid: string) | Refuses(reason: Refusal)

  /** One board's serial port as the operating system lists it now. */
  datatype LivePort = LivePort(uid: string, port: string)

  /** The inverted port map: of two boards on one path the later one listed stands. */
  function UidOn(live: seq<LivePort>, path: string): (uid: Option<string>)
    ensures uid.Some? <==> exists i :: 0 <= i < |live| && live[i].port == path
    ensures uid.Some? ==> exists i :: 0 <= i < |live| && live[i] == LivePort(uid.value, path)
                                       && forall j :: i < j < |live| ==> live[j].port != path
  {
    if live == [] then None
    else
      var last := live[|live| - 1];
      if last.port == path then Some(last.uid) else UidOn(live[..|live| - 1], path)
  }

  function DeployEntry(target: string, items: seq<Item>, live: seq<LivePort>): Choice {
    if !IsPath(target) then
      var found := ResolveTarget(target, items);
      if found.Some? then Board(found.value) else NoBoard(NoSuchTarget)
    else if live == [] then NoBoard(NoLivePort)
    else
      var uid := UidOn(live, target);
      if uid.None? then NoBoard(NobodyOnPort)
      else if Has(items, uid.value) then Board(Lookup(items, uid.value))
      else NoBoard(Unregistered)
  }

  /** The entries that are no relays, in registry order. */
  function NonRelays(items: seq<Item>): seq<Entry> {
    if items == [] then []
    else
      var rest := NonRelays(items[1..]);
      if IsRelay(items[0].entry.role) then rest else [items[0].entry] + rest
  }

  function AutoPick(items: seq<Item>): Choice {
    var candidates := NonRelays(items);
    if |candidates| == 0 then NoBoard(NoCandidate)
    else if |candidates| > 1 then NoBoard(Ambiguous)
    else Board(candidates[0])
  }

  /** An empty target reads as none given. */
  function Deploy(target: Option<string>, forceRelay: bool, items: seq<Item>,
                  live: seq<LivePort>, connected: set<string>): Verdict
  {
    var choice := if target.Some? && target.value != "" then DeployEntry(target.value, items, live)
                  else AutoPick(items);
    match choice
    case NoBoard(why) => Refuses(why)
    case Board(e) =>
      if IsRelay(e.role) && !forceRelay then Refuses(RelayBoard)
      else if e.uid !in connected then Refuses(NotConnected)
      else Flashes(e.uid)
  }

  // ---------------------------------------------------------------------------
  // Remembered ports are never trusted
  // ---------------------------------------------------------------------------

  /** Everything but the recorded port and the human word. */
  function Forgetful(e: Entry): Entry {
    e.(port := None, commonName := None)
  }

  /** The same boards in the same order, whatever ports and labels are recorded. */
  predicate SameButPorts(a: seq<Item>, b: seq<Item>) {
    && |a| == |b|
    && forall i :: 0 <= i < |a| ==> a[i].key == b[i].key && Forgetful(a[i].entry) == Forgetful(b[i].entry)
  }

  predicate SameEntry(a: Option<Entry>, b: Option<Entry>) {
    if a.Some? then b.Some? && Forgetful(a.value) == Forgetful(b.value) else b.None?
  }

  ghost predicate Blind(wanted: Entry -> bool) {
    forall e: Entry, f: Entry :: Forgetful(e) == Forgetful(f) ==> wanted(e) == wanted(f)
  }

  lemma {:induction false} FirstIsBlind(a: seq<Item>, b: seq<Item>, wanted: Entry -> bool)
    requires SameButPorts(a, b) && Blind(wanted)
    ensures SameEntry(First(a, wanted), First(b, wanted))
  {
    if a != [] && !wanted(a[0].entry) {
      assert Forgetful(a[0].entry) == Forgetful(b[0].entry);
      FirstIsBlind(a[1..], b[1..], wanted);
    }
  }

  lemma {:induction false} NonRelaysAreBlind(a: seq<Item>, b: seq<Item>)
    requires SameButPorts(a, b)
    ensures |NonRelays(a)| == |NonRelays(b)|
    ensures forall i :: 0 <= i < |NonRelays(a)| ==> Forgetful(NonRelays(a)[i]) == Forgetful(NonRelays(b)[i])
  {
    hide IsRelay;
    if a != [] {
      assert Forgetful(a[0].entry) == Forgetful(b[0].entry);
      assert a[0].entry.role == b[0].entry.role;
      NonRelaysAreBlind(a[1..], b[1..]);
    }
  }

  lemma {:induction false} LookupIsBlind(a: seq<Item>, b: seq<Item>, uid: string)
    requires SameButPorts(a, b)
    ensures Has(a, uid) == Has(b, uid)
    ensures Forgetful(Lookup(a, uid)) == Forgetful(Lookup(b, uid))
  {
    var i, j := IndexOf(a, uid), IndexOf(b, uid);
    assert i < |a| ==> b[i].key == uid;
    assert j < |b| ==> a[j].key == uid;
  }

  lemma SelectorsAreBlind(token: string, n: nat)
    ensures Blind(ByEnum(n)) && Blind(ByUid(token)) && Blind(ByDeviceName(token)) && Blind(ByBoardName(token))
  {
  }

  lemma ResolveIsBlind(token: string, a: seq<Item>, b: seq<Item>)
    requires SameButPorts(a, b)
    ensures SameEntry(ResolveTarget(token, a), ResolveTarget(token, b))
  {
    hide First;
    hide Blind;
    hide SameButPorts;
    hide ByEnum;
    hide ByUid;
    hide ByDeviceName;
    hide ByBoardName;
    var n := if IsDigits(token) then ParseNat(token) else 0;
    hide IsDigits;
    SelectorsAreBlind(token, n);
    FirstIsBlind(a, b, ByEnum(n));
    FirstIsBlind(a, b, ByUid(token));
    FirstIsBlind(a, b, ByDeviceName(token));
    FirstIsBlind(a, b, ByBoardName(token));
  }

  /** Registries that differ only in recorded ports and labels lead to the same board,
      or to the same refusal, for every target and for none. */
  lemma DeployIgnoresRecordedPorts(target: Option<string>, forceRelay: bool, a: seq<Item>, b: seq<Item>,
                                   live: seq<LivePort>, connected: set<string>)
    requires SameButPorts(a, b)
    ensures Deploy(target, forceRelay, a, live, connected) == Deploy(target, forceRelay, b, live, connected)
  {
    hide IsRelay;
    hide ResolveTarget;
    hide NonRelays;
    hide UidOn;
    hide Has;
    hide Lookup;
    hide SameButPorts;
    hide IsPath;
    NonRelaysAreBlind(a, b);
    if target.Some? {
      ResolveIsBlind(target.value, a, b);
      var uid := UidOn(live, target.value);
      if uid.Some? {
        LookupIsBlind(a, b, uid.value);
      }
    }
  }

  /** A path flashes the board that is on it now, and the guard read that board's role. */
  lemma PathMeansTheLiveBoard(path: string, forceRelay: bool, items: seq<Item>,
                              live: seq<LivePort>, connected: set<string>, uid: string)
    requires Valid(items) && IsPath(path)
    ensures Deploy(Some(path), forceRelay, items, live, connected) == Flashes(uid)
            <==> UidOn(live, path) == Some(uid) && uid in connected
                 && Has(items, uid) && (forceRelay || !IsRelay(Lookup(items, uid).role))
  {
    hide IsRelay;
    assert path != "";
    var on := UidOn(live, path);
    if on.Some? && Has(items, on.value) {
      assert ItemOk(items[IndexOf(items, on.value)]);
    }
  }

  lemma {:induction false} NonRelaysHold(items: seq<Item>, e: Entry)
    ensures e in NonRelays(items) <==> exists i :: 0 <= i < |items| && items[i].entry == e && !IsRelay(e.role)
  {
    hide IsRelay;
    if items != [] {
      NonRelaysHold(items[1..], e);
      assert forall i :: 1 <= i < |items| ==> items[i] == items[1..][i - 1];
      if e in NonRelays(items[1..]) {
        var k :| 0 <= k < |items[1..]| && items[1..][k].entry == e && !IsRelay(e.role);
        assert items[k + 1].entry == e;
      }
    }
  }

  lemma FoundUnderItsUid(items: seq<Item>, e: Entry)
    requires Valid(items) && exists i :: 0 <= i < |items| && items[i].entry == e
    ensures Has(items, e.uid) && Lookup(items, e.uid) == e
  {
    var i :| 0 <= i < |items| && items[i].entry == e;
    assert ItemOk(items[i]);
    hide ItemOk;
    assert items[i].key == e.uid;
  }

  /** Whatever the target, the board flashed is registered, connected, and a relay only
      when that was asked for. */
  lemma OnlyAllowedBoards(target: Option<string>, forceRelay: bool, items: seq<Item>,
                          live: seq<LivePort>, connected: set<string>)
    requires Valid(items) && Deploy(target, forceRelay, items, live, connected).Flashes?
    ensures var uid := Deploy(target, forceRelay, items, live, connected).uid;
            Has(items, uid) && uid in connected && (forceRelay || !IsRelay(Lookup(items, uid).role))
  {
    var choice := if target.Some? && target.value != "" then DeployEntry(target.value, items, live)
                  else AutoPick(items);
    var e := choice.entry;
    assert exists i :: 0 <= i < |items| && items[i].entry == e by {
      hide IsRelay;
      hide Valid;
      if !(target.Some? && target.value != "") {
        NonRelaysHold(items, e);
        assert e in NonRelays(items);
      } else if IsPath(target.value) {
        var uid := UidOn(live, target.value);
        assert items[IndexOf(items, uid.value)].entry == e;
      }
    }
    FoundUnderItsUid(items, e);
    hide Valid;
    hide DeployEntry;
    hide AutoPick;
  }

  // ---------------------------------------------------------------------------
  // Which words address a board
  // ---------------------------------------------------------------------------

  /** In a well-formed registry an enum names exactly one board. */
  lemma EnumAddressesBoard(items: seq<Item>, k: nat, n: nat)
    requires Valid(items) && k < |items| && items[k].entry.enum == Some(n)
    ensures ResolveTarget(Dec(n), items) == Some(items[k].entry)
  {
    DecRoundTrip(n);
    assert ByEnum(n)(items[k].entry);
    hide ItemOk;
  }

  /** Board `k` is the first that `word` names: nobody before it announces that name,
      or, if board `k` bears it in silicon only, nobody at all announces it and nobody
      before it bears it. */
  predicate NamedFirst(items: seq<Item>, k: nat, word: string)
    requires k < |items|
  {
    if Folded(items[k].entry.deviceName) == Lower(word)
    then forall j :: 0 <= j < k ==> Folded(items[j].entry.deviceName) != Lower(word)
    else
      && Folded(items[k].entry.boardName) == Lower(word)
      && (forall j :: 0 <= j < |items| ==> Folded(items[j].entry.deviceName) != Lower(word))
      && (forall j :: 0 <= j < k ==> Folded(items[j].entry.boardName) != Lower(word))
  }

  /** What is found is board `k` exactly when `k` is wanted and nobody before it is. */
  lemma FirstIsBoard(items: seq<Item>, k: nat, wanted: Entry -> bool)
    requires k < |items| && forall i, j :: 0 <= i < j < |items| ==> items[i].entry != items[j].entry
    ensures First(items, wanted) == Some(items[k].entry)
            <==> wanted(items[k].entry) && forall j :: 0 <= j < k ==> !wanted(items[j].entry)
  {
    hide First;
  }

  lemma EntriesDiffer(items: seq<Item>)
    requires Valid(items)
    ensures forall i, j :: 0 <= i < j < |items| ==> items[i].entry != items[j].entry
  {
    forall i, j | 0 <= i < j < |items| ensures items[i].entry != items[j].entry {
      assert items[i].entry.enum != items[j].entry.enum;
    }
  }

  lemma NumberAddressesBoard(items: seq<Item>, k: nat, n: nat)
    requires Valid(items) && k < |items|
    ensures First(items, ByEnum(n)) == Some(items[k].entry) <==> items[k].entry.enum == Some(n)
  {
    EntriesDiffer(items);
    FirstIsBoard(items, k, ByEnum(n));
    hide ItemOk;
    hide First;
  }

  lemma ShapeAddressesBoard(items: seq<Item>, k: nat, word: string)
    requires Valid(items) && k < |items|
    ensures First(items, ByUid(word)) == Some(items[k].entry) <==> items[k].key == word
  {
    EntriesDiffer(items);
    FirstIsBoard(items, k, ByUid(word));
    forall j | 0 <= j < |items| ensures items[j].entry.uid == items[j].key {
      assert ItemOk(items[j]);
    }
    hide ItemOk;
    hide First;
  }

  lemma NameAddressesBoard(items: seq<Item>, k: nat, word: string)
    requires Valid(items) && k < |items|
    ensures var announced := First(items, ByDeviceName(word));
            (if announced.Some? then announced else First(items, ByBoardName(word))) == Some(items[k].entry)
            <==> NamedFirst(items, k, word)
  {
    EntriesDiffer(items);
    hide Valid;
    hide First;
    hide Folded;
    hide Lower;
    FirstIsBoard(items, k, ByDeviceName(word));
    FirstIsBoard(items, k, ByBoardName(word));
  }

  /** `word` means board `k`: a number that board's enum, a path nothing, what has the
      shape of a UID that board's UID, and any other word a name it is the first to bear. */
  predicate Addresses(items: seq<Item>, k: nat, word: string) {
    && k < |items|
    && if IsDigits(word) then items[k].entry.enum == Some(ParseNat(word))
       else !IsPath(word)
            && if LooksLikeUid(word) then items[k].key == word else NamedFirst(items, k, word)
  }

  /** Exactly which board a word leads to, whatever the word. */
  lemma WordAddressesBoard(items: seq<Item>, k: nat, word: string)
    requires Valid(items) && k < |items|
    ensures ResolveTarget(word, items) == Some(items[k].entry)
            <==> Addresses(items, k, word)
  {
    hide First;
    hide Valid;
    hide NamedFirst;
    if IsDigits(word) {
      NumberAddressesBoard(items, k, ParseNat(word));
    }
    hide IsDigits;
    hide IsPath;
    hide LooksLikeUid;
    hide ByEnum;
    hide ByUid;
    hide ByDeviceName;
    hide ByBoardName;
    ShapeAddressesBoard(items, k, word);
    NameAddressesBoard(items, k, word);
  }

  /** Hex digits have the shape of a UID when there are 40 to 52 of them. */
  lemma UidLengths(n: nat)
    ensures LooksLikeUid(seq(n, i => 'f')) <==> 40 <= n <= 52
  {
  }

  /** Nothing with a slash in it, wherever, is looked up in the registry. */
  lemma PathsAddressNothing(before: string, after: string, items: seq<Item>)
    ensures IsPath(before + "/" + after) && ResolveTarget(before + "/" + after, items) == None
  {
    var path := before + "/" + after;
    assert path[|before|] == '/';
  }

  /** Whatever a board's UID looks like: it addresses the board exactly when it is a
      number that is also the board's enum, or no number and no path, and either has the
      shape of a UID or is a word that names the board first. */
  lemma UidAddressesBoard(items: seq<Item>, k: nat)
    requires Valid(items) && k < |items|
    ensures var uid := items[k].key;
            ResolveTarget(uid, items) == Some(items[k].entry)
            <==> if IsDigits(uid) then items[k].entry.enum == Some(ParseNat(uid))
                 else !IsPath(uid) && (LooksLikeUid(uid) || NamedFirst(items, k, uid))
  {
    WordAddressesBoard(items, k, items[k].key);
    hide *;
  }

  /** A UID too short for its shape to be recognised, as other debug probes have it. */
  const SHORT_UID := "E6614C775B5A4A2F"

  /** A board can be registered alone, under any UID. */
  lemma OneBoardIsValid(it: Item)
    requires it == Item(it.key, BLANK.(uid := it.key, enum := Some(1)))
    ensures Valid([it])
  {
    assert ItemOk(it);
    assert Enumerated([it], 1) by {
      assert [it][0].entry.enum == Some(1);
    }
  }

  /** A board with such a UID is registered, and its UID does not find it. */
  lemma ShortUidMissesItsBoard(it: Item)
    requires it == Item(SHORT_UID, BLANK.(uid := SHORT_UID, enum := Some(1)))
    ensures Valid([it]) && !IsDigits(it.key) && !IsPath(it.key) && ResolveTarget(it.key, [it]) == None
  {
    OneBoardIsValid(it);
    assert it.key[0] == 'E' && |it.key| == 16;
    assert |Lower(it.key)| == 16;
    assert !ByDeviceName(it.key)(it.entry) && !ByBoardName(it.key)(it.entry);
  }

  /** A UID as long as a micro:bit's, without a letter in it. */
  function DigitUid(): string {
    seq(48, i => if i == 0 then '9' else '0')
  }

  lemma {:induction false} NineAndMore(s: string)
    requires IsDigits(s) && s[0] == '9'
    ensures ParseNat(s) >= 9
  {
    if |s| > 1 {
      NineAndMore(s[..|s| - 1]);
    }
  }

  /** Such a board is registered, and its UID does not find it. */
  lemma DigitUidMissesItsBoard(it: Item)
    requires it == Item(DigitUid(), BLANK.(uid := DigitUid(), enum := Some(1)))
    ensures Valid([it]) && LooksLikeUid(it.key) && ResolveTarget(it.key, [it]) == None
  {
    var uid := DigitUid();
    OneBoardIsValid(it);
    assert uid[0] == '9' && IsDigits(uid);
    NineAndMore(uid);
    assert !ByEnum(ParseNat(uid))(it.entry);
  }

  /** The label printed for a board. */
  function Label(e: Entry): string {
    if e.deviceName.Some? && e.deviceName.value != "" then e.deviceName.value
    else if e.boardName.Some? && e.boardName.value != "" then e.boardName.value
    else if e.enum.Some? then Dec(e.enum.value)
    else e.uid
  }

  /** A board is called by the name it announces, else by that read from silicon, else by
      its number; never by the word people use for it, nor by where it was last seen. */
  lemma LabelIsHowToTypeIt(items: seq<Item>, k: nat)
    requires Valid(items) && k < |items|
    ensures var e := items[k].entry;
            && (Folded(e.deviceName) != "" ==> Lower(Label(e)) == Folded(e.deviceName))
            && (Folded(e.deviceName) == "" && Folded(e.boardName) != "" ==> Lower(Label(e)) == Folded(e.boardName))
            && (Folded(e.deviceName) == "" && Folded(e.boardName) == "" ==> Label(e) == Dec(e.enum.value))
            && Label(e) != "" && Label(Forgetful(e)) == Label(e)
  {
    DecRoundTrip(items[k].entry.enum.value);
    hide ItemOk;
  }

  /** The label printed for a board leads back to it exactly when this holds of it; a
      board without a name is labelled by its enum, and that always does. */
  lemma LabelAddressesBoard(items: seq<Item>, k: nat)
    requires Valid(items) && k < |items|
    ensures var e := items[k].entry; var word := Label(e);
            && (ResolveTarget(word, items) == Some(e) <==> Addresses(items, k, word))
            && (Folded(e.deviceName) == "" && Folded(e.boardName) == "" ==> ResolveTarget(word, items) == Some(e))
  {
    var e := items[k].entry;
    WordAddressesBoard(items, k, Label(e));
    EnumAddressesBoard(items, k, e.enum.value);
    hide Valid;
    hide ResolveTarget;
  }

  // ---------------------------------------------------------------------------
  // Which board is flashed, and why none is
  // ---------------------------------------------------------------------------

  predicate IsCandidate(items: seq<Item>, k: nat)
    requires k < |items|
  {
    !IsRelay(items[k].entry.role)
  }

  /** Board `k` is the only one registered that is no relay. */
  predicate SoleCandidate(items: seq<Item>, k: nat) {
    && k < |items| && IsCandidate(items, k)
    && forall j :: 0 <= j < |items| && j != k ==> !IsCandidate(items, j)
  }

  /** Two of the boards registered are no relays. */
  predicate Rivals(items: seq<Item>, i: nat, j: nat) {
    i < j < |items| && IsCandidate(items, i) && IsCandidate(items, j)
  }

  predicate NoCandidates(items: seq<Item>) {
    forall k :: 0 <= k < |items| ==> !IsCandidate(items, k)
  }

  lemma {:induction false} NoneCounted(items: seq<Item>)
    ensures NonRelays(items) == [] <==> NoCandidates(items)
  {
    hide IsRelay;
    if items != [] {
      var rest := items[1..];
      NoneCounted(rest);
      if NoCandidates(items) {
        assert !IsCandidate(items, 0);
        assert forall k :: 0 <= k < |rest| ==> IsCandidate(rest, k) == IsCandidate(items, k + 1);
      } else {
        var k :| 0 <= k < |items| && IsCandidate(items, k);
        assert k > 0 ==> IsCandidate(rest, k - 1);
      }
    }
  }

  lemma SoleShifts(items: seq<Item>, k: nat)
    requires items != [] && !IsCandidate(items, 0)
    ensures SoleCandidate(items, k) <==> k > 0 && SoleCandidate(items[1..], k - 1)
  {
    hide IsRelay;
    assert forall j :: 1 <= j < |items| ==> IsCandidate(items, j) == IsCandidate(items[1..], j - 1);
    assert forall j :: 0 <= j < |items| - 1 ==> IsCandidate(items, j + 1) == IsCandidate(items[1..], j);
  }

  lemma SoleIsFirst(items: seq<Item>, k: nat)
    requires items != [] && IsCandidate(items, 0)
    ensures SoleCandidate(items, k) <==> k == 0 && NoCandidates(items[1..])
  {
    hide IsRelay;
    assert forall j :: 1 <= j < |items| ==> IsCandidate(items, j) == IsCandidate(items[1..], j - 1);
    assert forall j :: 0 <= j < |items| - 1 ==> IsCandidate(items, j + 1) == IsCandidate(items[1..], j);
  }

  lemma {:induction false} SoleCounted(items: seq<Item>)
    ensures |NonRelays(items)| == 1 <==> exists k: nat :: SoleCandidate(items, k)
    ensures forall k: nat :: SoleCandidate(items, k) ==> NonRelays(items) == [items[k].entry]
  {
    hide IsRelay;
    if items != [] {
      var rest := items[1..];
      SoleCounted(rest);
      NoneCounted(rest);
      hide SoleCandidate;
      hide NoCandidates;
      if IsCandidate(items, 0) {
        forall k: nat ensures SoleCandidate(items, k) <==> k == 0 && NoCandidates(rest) {
          SoleIsFirst(items, k);
        }
        assert SoleCandidate(items, 0) <==> NoCandidates(rest);
      } else {
        forall k: nat ensures SoleCandidate(items, k) <==> k > 0 && SoleCandidate(rest, k - 1) {
          SoleShifts(items, k);
        }
        if k: nat :| SoleCandidate(rest, k) {
          assert SoleCandidate(items, k + 1);
        }
      }
    }
  }

  /** Nobody, one alone, or two. */
  lemma RivalsOtherwise(items: seq<Item>)
    ensures (exists i: nat, j: nat :: Rivals(items, i, j))
            <==> !NoCandidates(items) && !(exists k: nat :: SoleCandidate(items, k))
  {
    hide IsRelay;
    if i: nat, j: nat :| Rivals(items, i, j) {
      forall k: nat ensures !SoleCandidate(items, k) {
        assert k != i || k != j;
      }
    }
    if !NoCandidates(items) {
      var i: nat :| i < |items| && IsCandidate(items, i);
      if !SoleCandidate(items, i) {
        var j: nat :| j < |items| && j != i && IsCandidate(items, j);
        assert Rivals(items, i, j) || Rivals(items, j, i);
      }
    }
  }

  /** With no target, or an empty one: the one board that is no relay, if it is alone in
      that and connected; with several it is ambiguous, with none there is nothing to
      flash. */
  lemma NoTargetPicksTheSoleCandidate(target: Option<string>, forceRelay: bool, items: seq<Item>,
                                      live: seq<LivePort>, connected: set<string>)
    requires target == None || target == Some("")
    ensures var v := Deploy(target, forceRelay, items, live, connected);
            && (forall uid :: v == Flashes(uid) <==>
                  exists k: nat :: SoleCandidate(items, k) && items[k].entry.uid == uid && uid in connected)
            && (v == Refuses(Ambiguous) <==> exists i: nat, j: nat :: Rivals(items, i, j))
            && (v == Refuses(NoCandidate) <==> NoCandidates(items))
            && (v == Refuses(NotConnected) <==>
                  exists k: nat :: SoleCandidate(items, k) && items[k].entry.uid !in connected)
  {
    NoneCounted(items);
    SoleCounted(items);
    RivalsOtherwise(items);
    hide NonRelays;
    hide Rivals;
    hide NoCandidates;
    hide IsRelay;
  }

  /** A word flashes the board it means, if that is connected and no relay unless forced;
      otherwise the reason given is the first that applies. */
  lemma WordFlashesItsBoard(word: string, forceRelay: bool, items: seq<Item>,
                            live: seq<LivePort>, connected: set<string>, k: nat)
    requires Valid(items) && word != "" && !IsPath(word)
    ensures var v := Deploy(Some(word), forceRelay, items, live, connected);
            && (Addresses(items, k, word) ==>
                  v == if IsRelay(items[k].entry.role) && !forceRelay then Refuses(RelayBoard)
                       else if items[k].key !in connected then Refuses(NotConnected)
                       else Flashes(items[k].key))
            && (v == Refuses(NoSuchTarget) <==> forall i: nat :: !Addresses(items, i, word))
  {
    hide IsRelay;
    var found := ResolveTarget(word, items);
    forall i | 0 <= i < |items| ensures Addresses(items, i, word) <==> found == Some(items[i].entry) {
      WordAddressesBoard(items, i, word);
    }
    hide Addresses;
    FoundIsRegistered(word, items);
    hide ResolveTarget;
    if k < |items| {
      assert ItemOk(items[k]);
    }
    hide ItemOk;
  }

  lemma FoundIsRegistered(word: string, items: seq<Item>)
    ensures var found := ResolveTarget(word, items);
            found.Some? ==> exists i :: 0 <= i < |items| && items[i].entry == found.value
  {
  }

  /** Why a path flashes no board, in the order in which it is found out. */
  lemma PathRefusals(path: string, forceRelay: bool, items: seq<Item>,
                     live: seq<LivePort>, connected: set<string>)
    requires IsPath(path)
    ensures var v := Deploy(Some(path), forceRelay, items, live, connected); var on := UidOn(live, path);
            && (v == Refuses(NoLivePort) <==> live == [])
            && (v == Refuses(NobodyOnPort) <==> live != [] && forall i :: 0 <= i < |live| ==> live[i].port != path)
            && (v == Refuses(Unregistered) <==> on.Some? && !Has(items, on.value))
            && (v == Refuses(RelayBoard) <==>
                  on.Some? && Has(items, on.value) && IsRelay(Lookup(items, on.value).role) && !forceRelay)
  {
    hide IsRelay;
    hide Has;
    hide Lookup;
    assert path != "";
  }
}
