/** The persistent device registry: what every `probe_all` keeps. */
module Registry {
  import opened Wrappers
  import opened Announcements
  import opened FriendlyNames

  datatype Entry = Entry(uid: string, port: Option<string>, enum: Option<nat>,
                         announcement: Option<string>, role: Option<string>, commonName: Option<string>,
                         deviceName: Option<string>, serial: Option<string>,
                         deviceId: Option<int>, boardName: Option<string>)

  /** A dictionary in insertion order: keys are distinct. */
  datatype Item = Item(key: string, entry: Entry)

  const BLANK := Entry("", None, None, None, None, None, None, None, None, None)

  /** Where `uid` is kept, or the length of the registry. */
  function IndexOf(items: seq<Item>, uid: string): (i: nat)
    ensures i <= |items|
    ensures i < |items| ==> items[i].key == uid
    ensures forall j :: 0 <= j < i ==> items[j].key != uid
  {
    if items == [] || items[0].key == uid then 0 else 1 + IndexOf(items[1..], uid)
  }

  predicate Has(items: seq<Item>, uid: string) {
    IndexOf(items, uid) < |items|
  }

  function Lookup(items: seq<Item>, uid: string): Entry {
    var i := IndexOf(items, uid);
    if i < |items| then items[i].entry else BLANK
  }

  function Store(items: seq<Item>, uid: string, e: Entry): seq<Item> {
    var i := IndexOf(items, uid);
    if i < |items| then items[i := Item(uid, e)] else items + [Item(uid, e)]
  }

  /** `max` of the enums recorded, 0 for none. */
  function MaxEnum(items: seq<Item>): nat {
    if items == [] then 0
    else
      var m := MaxEnum(items[..|items| - 1]);
      match items[|items| - 1].entry.enum
      case None => m
      case Some(n) => if n > m then n else m
  }

  function AssignEnum(items: seq<Item>, uid: string): nat {
    if Has(items, uid) && Lookup(items, uid).enum.Some? then Lookup(items, uid).enum.value
    else MaxEnum(items) + 1
  }

  /** What one board answers while it is probed. */
  datatype Found = Found(port: Option<string>, info: Option<Announcement>, deviceId: Option<int>)

  /** A board asked over its port, if it has one, and over SWD. */
  datatype Answers = Answers(port: Option<string>, texts: seq<string>, deviceId: Option<int>)

  // ---------------------------------------------------------------------------
  // What a registry is
  // ---------------------------------------------------------------------------

  predicate AllAbsent(e: Entry) {
    e.announcement.None? && e.role.None? && e.commonName.None? && e.deviceName.None? && e.serial.None?
  }

  /** The five announcement fields all come from parsing the recorded announcement. */
  predicate AllParsed(e: Entry) {
    && e.announcement.Some?
    && Parse(e.announcement.value).Some?
    && var a := Parse(e.announcement.value).value;
       e.role == Some(a.role) && e.commonName == Some(a.commonName)
       && e.deviceName == Some(a.deviceName) && e.serial == Some(a.serial)
  }

  predicate NameOk(e: Entry) {
    e.boardName.Some? ==> e.deviceId.Some? && e.boardName.value == FriendlyName(e.deviceId.value)
  }

  predicate ItemOk(it: Item) {
    && it.entry.uid == it.key
    && (AllAbsent(it.entry) || AllParsed(it.entry))
    && NameOk(it.entry)
  }

  predicate Enumerated(items: seq<Item>, k: nat) {
    exists i :: 0 <= i < |items| && items[i].entry.enum == Some(k)
  }

  /** Keys are distinct, and the enums are a permutation of 1..n. */
  ghost predicate Valid(items: seq<Item>) {
    && (forall i :: 0 <= i < |items| ==> ItemOk(items[i]))
    && (forall i, j :: 0 <= i < j < |items| ==> items[i].key != items[j].key)
    && (forall i :: 0 <= i < |items| ==> items[i].entry.enum.Some? && 1 <= items[i].entry.enum.value <= |items|)
    && (forall i, j :: 0 <= i < j < |items| ==> items[i].entry.enum != items[j].entry.enum)
    && (forall k: nat :: 1 <= k <= |items| ==> Enumerated(items, k))
  }

  /** `later` keeps every board of `before`, its enum, and its board name once it had
      one; outside `scope` nothing about a board has changed. */
  ghost predicate Extends(before: seq<Item>, later: seq<Item>, scope: set<string>) {
    && |before| <= |later|
    && (forall uid :: Has(before, uid) ==> Has(later, uid) && Lasts(Lookup(before, uid), Lookup(later, uid)))
    && (forall uid :: uid !in scope ==>
          Has(later, uid) == Has(before, uid) && Lookup(later, uid) == Lookup(before, uid))
  }

  /** What an entry holds for good. */
  predicate Lasts(was: Entry, now: Entry) {
    && now.enum == was.enum
    && (was.boardName.Some? ==> now.boardName == was.boardName && now.deviceId == was.deviceId)
    && (was.announcement.Some? ==> now.announcement.Some?)
  }

  lemma {:induction false} MaxOfPermutation(items: seq<Item>)
    ensures forall i :: 0 <= i < |items| && items[i].entry.enum.Some? ==> items[i].entry.enum.value <= MaxEnum(items)
    ensures MaxEnum(items) > 0 ==> Enumerated(items, MaxEnum(items))
  {
    if items != [] {
      var init := items[..|items| - 1];
      MaxOfPermutation(init);
      if MaxEnum(init) > 0 {
        var i :| 0 <= i < |init| && init[i].entry.enum == Some(MaxEnum(init));
        assert items[i].entry.enum == Some(MaxEnum(init));
      }
      assert forall i :: 0 <= i < |init| ==> init[i] == items[i];
    }
  }

  /** A new board gets the next number after all others. */
  lemma NextEnum(items: seq<Item>)
    requires Valid(items)
    ensures MaxEnum(items) == |items|
  {
    MaxOfPermutation(items);
    if |items| > 0 {
      assert Enumerated(items, |items|);
    }
  }

  // ---------------------------------------------------------------------------
  // One board
  // ---------------------------------------------------------------------------

  /** The entry after probing, but for its enum: port always refreshed, announcement
      kept unless a new one came, board name read only if there was none. */
  function Learned(known: Entry, uid: string, f: Found): Entry {
    var e := known.(uid := uid, port := f.port);
    var e := if f.info.Some? then
               var a := f.info.value;
               e.(announcement := Some(a.raw), role := Some(a.role), commonName := Some(a.commonName),
                  deviceName := Some(a.deviceName), serial := Some(a.serial))
             else e;
    if (e.boardName.None? || e.boardName.value == "") && f.deviceId.Some?
    then e.(deviceId := f.deviceId, boardName := Some(FriendlyName(f.deviceId.value)))
    else e
  }

  function Refreshed(items: seq<Item>, uid: string, f: Found): Entry {
    var known := Lookup(items, uid);
    Learned(known, uid, f).(enum := if known.enum.Some? then known.enum else Some(AssignEnum(items, uid)))
  }

  /** Asking again what was just asked teaches nothing. */
  lemma LearningTwice(known: Entry, uid: string, f: Found)
    requires NameOk(known)
    ensures Learned(Learned(known, uid, f), uid, f) == Learned(known, uid, f)
  {
    if f.deviceId.Some? {
      NameIsNotEmpty(f.deviceId.value);
    }
    hide FriendlyName;
  }

  predicate HonestInfo(f: Found) {
    f.info.Some? ==> Parse(f.info.value.raw) == f.info
  }

  lemma RefreshedItemOk(items: seq<Item>, uid: string, f: Found)
    requires Valid(items) && HonestInfo(f)
    ensures ItemOk(Item(uid, Refreshed(items, uid, f)))
    ensures Has(items, uid) ==> Refreshed(items, uid, f).enum == Lookup(items, uid).enum
    ensures !Has(items, uid) ==> Refreshed(items, uid, f).enum == Some(|items| + 1)
  {
    hide FriendlyName;
    hide Parse;
    NextEnum(items);
    if Has(items, uid) {
      assert ItemOk(items[IndexOf(items, uid)]);
    }
  }

  lemma StoreKeeps(items: seq<Item>, uid: string, f: Found)
    requires Valid(items) && HonestInfo(f)
    ensures Valid(Store(items, uid, Refreshed(items, uid, f)))
  {
    var e := Refreshed(items, uid, f);
    RefreshedItemOk(items, uid, f);
    hide Refreshed;
    hide ItemOk;
    var at := IndexOf(items, uid);
    if at < |items| {
      ReplacedKeeps(items, at, Item(uid, e));
    } else {
      AppendedKeeps(items, Item(uid, e));
    }
    hide Valid;
  }

  lemma ReplacedKeeps(items: seq<Item>, at: nat, it: Item)
    requires Valid(items) && at < |items| && ItemOk(it)
    requires it.key == items[at].key && it.entry.enum == items[at].entry.enum
    ensures Valid(items[at := it])
  {
    hide ItemOk;
    var later := items[at := it];
    forall k: nat | 1 <= k <= |later| ensures Enumerated(later, k) {
      assert Enumerated(items, k);
      var i :| 0 <= i < |items| && items[i].entry.enum == Some(k);
      assert later[i].entry.enum == Some(k);
    }
  }

  lemma AppendedKeeps(items: seq<Item>, it: Item)
    requires Valid(items) && ItemOk(it)
    requires it.entry.enum == Some(|items| + 1) && forall i :: 0 <= i < |items| ==> items[i].key != it.key
    ensures Valid(items + [it])
  {
    hide ItemOk;
    var later := items + [it];
    forall k: nat | 1 <= k <= |later| ensures Enumerated(later, k) {
      if k <= |items| {
        assert Enumerated(items, k);
        var i :| 0 <= i < |items| && items[i].entry.enum == Some(k);
        assert later[i].entry.enum == Some(k);
      } else {
        assert later[|items|].entry.enum == Some(k);
      }
    }
  }

  /** What an entry had that lasts, it keeps. */
  lemma LearnedLasts(known: Entry, uid: string, f: Found)
    requires NameOk(known)
    ensures Lasts(known, Learned(known, uid, f))
  {
    if known.boardName.Some? {
      NameIsNotEmpty(known.deviceId.value);
    }
    hide FriendlyName;
  }

  /** Storing under one key changes that key alone. */
  lemma StoreIndex(items: seq<Item>, uid: string, e: Entry, other: string)
    ensures var later := Store(items, uid, e);
            && (other != uid ==> Has(later, other) == Has(items, other) && Lookup(later, other) == Lookup(items, other))
            && (other == uid ==> Has(later, other) && Lookup(later, other) == e)
  {
    var later := Store(items, uid, e);
    var i := IndexOf(items, other);
    forall k | 0 <= k < i ensures later[k].key == items[k].key {
    }
    var j := IndexOf(later, other);
    if i < |items| || other == uid {
      assert later[i].key == other;
      assert j == i;
    }
  }

  lemma LookupIsOk(items: seq<Item>, uid: string)
    requires Valid(items)
    ensures NameOk(Lookup(items, uid))
  {
    if Has(items, uid) {
      assert ItemOk(items[IndexOf(items, uid)]);
    }
  }

  lemma StoreExtends(items: seq<Item>, uid: string, f: Found, scope: set<string>)
    requires Valid(items) && uid in scope
    ensures Extends(items, Store(items, uid, Refreshed(items, uid, f)), scope)
  {
    var e := Refreshed(items, uid, f);
    LookupIsOk(items, uid);
    LearnedLasts(Lookup(items, uid), uid, f);
    assert Has(items, uid) ==> Lasts(Lookup(items, uid), e) by {
      if Has(items, uid) {
        assert items[IndexOf(items, uid)].entry.enum.Some?;
      }
    }
    hide Refreshed;
    hide Valid;
    forall other
      ensures other != uid ==>
                Has(Store(items, uid, e), other) == Has(items, other)
                && Lookup(Store(items, uid, e), other) == Lookup(items, other)
      ensures other == uid ==> Has(Store(items, uid, e), other) && Lookup(Store(items, uid, e), other) == e
    {
      StoreIndex(items, uid, e, other);
    }
    hide Lookup;
    hide Has;
  }

  lemma NameIsNotEmpty(deviceId: int)
    ensures FriendlyName(deviceId) != ""
  {
    NameDecodes(deviceId);
  }

  lemma ExtendsIsTransitive(a: seq<Item>, b: seq<Item>, c: seq<Item>, scope: set<string>)
    requires Extends(a, b, scope) && Extends(b, c, scope)
    ensures Extends(a, c, scope)
  {
    hide Has;
    hide Lookup;
  }

  // ---------------------------------------------------------------------------
  // probe_all
  // ---------------------------------------------------------------------------

  datatype Outcome = Updated(items: seq<Item>) | ValueError

  function Members(probes: seq<string>): set<string> {
    set p | p in probes
  }

  /** The probes this call touches. */
  function InScope(probes: seq<string>, only: Option<set<string>>): seq<string> {
    if probes == [] then []
    else
      var init := InScope(probes[..|probes| - 1], only);
      var p := probes[|probes| - 1];
      if only.None? || p in only.value then init + [p] else init
  }

  lemma {:induction false} InScopeIsInScope(probes: seq<string>, only: Option<set<string>>)
    ensures forall p :: p in InScope(probes, only) <==> p in probes && (only.None? || p in only.value)
  {
    if probes != [] {
      InScopeIsInScope(probes[..|probes| - 1], only);
      assert probes == probes[..|probes| - 1] + [probes[|probes| - 1]];
    }
  }

  /** What is found out from a board's answers: nothing is read without a port. */
  function FoundIn(a: Answers): Found {
    Found(a.port, if a.port.Some? && a.port.value != "" then Announced(a.texts) else None, a.deviceId)
  }

  /** Every one of `uids` is registered, with what it taught on top of what was known. */
  predicate Taught(base: seq<Item>, items: seq<Item>, uids: seq<string>, answers: string -> Answers) {
    forall p :: p in uids ==>
                  Has(items, p)
                  && Lookup(items, p).(enum := None)
                     == Learned(Lookup(base, p), p, FoundIn(answers(p))).(enum := None)
  }

  /** The registry after asking `uids`, one after the other. */
  function Merged(base: seq<Item>, uids: seq<string>, answers: string -> Answers): seq<Item> {
    if uids == [] then base
    else
      var items, uid := Merged(base, uids[..|uids| - 1], answers), uids[|uids| - 1];
      Store(items, uid, Refreshed(items, uid, FoundIn(answers(uid))))
  }

  lemma MergedOneMore(base: seq<Item>, uids: seq<string>, n: nat, answers: string -> Answers)
    requires n < |uids|
    ensures var items := Merged(base, uids[..n], answers);
            Merged(base, uids[..n + 1], answers)
            == Store(items, uids[n], Refreshed(items, uids[n], FoundIn(answers(uids[n]))))
  {
    assert uids[..n + 1][..n] == uids[..n];
    hide Store;
    hide Refreshed;
    hide FoundIn;
  }

  /**
    Probe every board in scope and merge what it says.  Refused outright when asked
    both to clear and to narrow.
   */
  method ProbeAll(start: seq<Item>, clear: bool, only: Option<set<string>>,
                  probes: seq<string>, answers: string -> Answers) returns (r: Outcome)
    ensures r.ValueError? <==> only.Some? && clear
    ensures r.Updated? ==> r.items == Merged(if clear then [] else start, InScope(probes, only), answers)
  {
    if only.Some? && clear {
      return ValueError;
    }
    var devices := if clear then [] else start;
    ghost var base := devices;
    var scoped := InScope(probes, only);
    assert devices == Merged(base, scoped[..0], answers);
    hide FriendlyName;
    hide Parse;
    hide Merged;
    hide Store;
    hide Refreshed;
    for n := 0 to |scoped|
      invariant devices == Merged(base, scoped[..n], answers)
    {
      var uid := scoped[n];
      MergedOneMore(base, scoped, n, answers);
      var a := answers(uid);
      var info := None;
      if a.port.Some? && a.port.value != "" {
        info := FirstAnnouncement(a.texts);
      }
      devices := Store(devices, uid, Refreshed(devices, uid, Found(a.port, info, a.deviceId)));
    }
    assert scoped[..|scoped|] == scoped;
    r := Updated(devices);
  }

  /**
    The result is a well-formed registry that extends the one started from: boards not
    asked are exactly as they were, and every board asked is there with what its own
    answers taught.
   */
  lemma {:induction false} MergedKeeps(base: seq<Item>, uids: seq<string>, answers: string -> Answers)
    requires Valid(base)
    ensures var items := Merged(base, uids, answers);
            && Valid(items) && Extends(base, items, Members(uids))
            && Taught(base, items, uids, answers) && Untaught(base, items, uids)
  {
    if uids == [] {
      NothingDone(base, {}, answers);
    } else {
      var init, uid := uids[..|uids| - 1], uids[|uids| - 1];
      var items, all := Merged(base, init, answers), Members(uids);
      var f := FoundIn(answers(uid));
      assert uids == init + [uid];
      MergedKeeps(base, init, answers);
      StoreKeeps(items, uid, f);
      StoreExtends(items, uid, f, all);
      ScopeGrows(base, items, Members(init), all);
      ExtendsIsTransitive(base, items, Merged(base, uids, answers), all);
      TaughtOneMore(base, items, uid, answers, init);
    }
  }

  lemma NothingDone(items: seq<Item>, scope: set<string>, answers: string -> Answers)
    ensures Valid([]) && Extends(items, items, scope) && Taught(items, items, [], answers) && Untaught(items, items, [])
  {
  }

  /** Boards not asked yet are as they were. */
  ghost predicate Untaught(base: seq<Item>, items: seq<Item>, before: seq<string>) {
    forall p :: p !in before ==> Lookup(items, p) == Lookup(base, p)
  }

  lemma TaughtOneMore(base: seq<Item>, items: seq<Item>, uid: string, answers: string -> Answers, before: seq<string>)
    requires Valid(base)
    requires Taught(base, items, before, answers) && Untaught(base, items, before)
    ensures var later := Store(items, uid, Refreshed(items, uid, FoundIn(answers(uid))));
            Taught(base, later, before + [uid], answers) && Untaught(base, later, before + [uid])
  {
    var f := FoundIn(answers(uid));
    var e := Refreshed(items, uid, f);
    var later := Store(items, uid, e);
    EntryTaught(base, items, uid, answers, before);
    hide Store;
    hide Refreshed;
    hide Learned;
    hide FoundIn;
    hide Valid;
    hide Has;
    hide Lookup;
    hide IndexOf;
    StoreIndex(items, uid, e, uid);
    forall p | p != uid ensures Has(later, p) == Has(items, p) && Lookup(later, p) == Lookup(items, p) {
      StoreIndex(items, uid, e, p);
    }
  }

  lemma EntryTaught(base: seq<Item>, items: seq<Item>, uid: string, answers: string -> Answers, before: seq<string>)
    requires Valid(base)
    requires Taught(base, items, before, answers) && Untaught(base, items, before)
    ensures var f := FoundIn(answers(uid));
            Refreshed(items, uid, f).(enum := None) == Learned(Lookup(base, uid), uid, f).(enum := None)
  {
    var f := FoundIn(answers(uid));
    var known := Lookup(base, uid);
    LookupIsOk(base, uid);
    LearningTwice(known, uid, f);
    LearningIgnoresEnum(Lookup(items, uid), if uid in before then Learned(known, uid, f) else known, uid, f);
    RefreshedIsLearned(items, uid, f);
    hide Learned;
    hide Refreshed;
    hide FoundIn;
    hide Lookup;
    hide Has;
  }

  lemma RefreshedIsLearned(items: seq<Item>, uid: string, f: Found)
    ensures Refreshed(items, uid, f).(enum := None) == Learned(Lookup(items, uid), uid, f).(enum := None)
  {
    hide Learned;
  }

  lemma LearningIgnoresEnum(a: Entry, b: Entry, uid: string, f: Found)
    requires a.(enum := None) == b.(enum := None)
    ensures Learned(a, uid, f).(enum := None) == Learned(b, uid, f).(enum := None)
  {
    hide FriendlyName;
  }

  /** The `i`-th text is the first a board with a port says that announces it. */
  predicate Heard(a: Answers, i: nat) {
    && a.port.Some? && a.port.value != ""
    && i < |a.texts| && Parse(a.texts[i]).Some?
    && forall j :: 0 <= j < i ==> Parse(a.texts[j]).None?
  }

  predicate Records(e: Entry, info: Announcement) {
    && e.announcement == Some(info.raw) && e.role == Some(info.role) && e.commonName == Some(info.commonName)
    && e.deviceName == Some(info.deviceName) && e.serial == Some(info.serial)
  }

  predicate SameAnnouncement(was: Entry, now: Entry) {
    && now.announcement == was.announcement && now.role == was.role && now.commonName == was.commonName
    && now.deviceName == was.deviceName && now.serial == was.serial
  }

  predicate Nameless(e: Entry) {
    e.boardName.None? || e.boardName.value == ""
  }

  lemma {:induction false} AnnouncedIsFirst(texts: seq<string>, i: nat)
    requires i < |texts| && Parse(texts[i]).Some? && forall j :: 0 <= j < i ==> Parse(texts[j]).None?
    ensures Announced(texts) == Parse(texts[i])
  {
    hide Parse;
    if i > 0 {
      AnnouncedIsFirst(texts[1..], i - 1);
    }
  }

  lemma {:induction false} AnnouncedIsSome(texts: seq<string>)
    requires Announced(texts).Some?
    ensures exists i: nat :: i < |texts| && Parse(texts[i]).Some? && forall j :: 0 <= j < i ==> Parse(texts[j]).None?
  {
    hide Parse;
    if Parse(texts[0]).None? {
      AnnouncedIsSome(texts[1..]);
      var i: nat :| i < |texts[1..]| && Parse(texts[1..][i]).Some?
                    && forall j :: 0 <= j < i ==> Parse(texts[1..][j]).None?;
      assert forall j :: 1 <= j < i + 1 ==> texts[j] == texts[1..][j - 1];
      assert Parse(texts[i + 1]).Some?;
    }
  }

  /** A board that was asked is on the port it was found on; what it announced replaces
      what was announced before, all five fields of it, and if it announced nothing they
      stay; it is named once, after the first device id read. */
  lemma AskedBoardsLearn(base: seq<Item>, uids: seq<string>, answers: string -> Answers, uid: string)
    requires Valid(base) && uid in uids
    ensures var was, now := Lookup(base, uid), Lookup(Merged(base, uids, answers), uid); var a := answers(uid);
            && Has(Merged(base, uids, answers), uid) && now.uid == uid && now.port == a.port
            && (forall i: nat :: Heard(a, i) ==> Records(now, Parse(a.texts[i]).value))
            && ((forall i: nat :: !Heard(a, i)) ==> SameAnnouncement(was, now))
            && if Nameless(was) && a.deviceId.Some?
               then now.deviceId == a.deviceId && now.boardName == Some(FriendlyName(a.deviceId.value))
               else now.deviceId == was.deviceId && now.boardName == was.boardName
  {
    MergedKeeps(base, uids, answers);
    var was, now := Lookup(base, uid), Lookup(Merged(base, uids, answers), uid);
    var a := answers(uid);
    hide Valid;
    hide Extends;
    hide Merged;
    hide Has;
    hide Lookup;
    hide FriendlyName;
    assert now.(enum := None) == Learned(was, uid, FoundIn(a)).(enum := None);
    FoundIsHeard(a);
    hide FoundIn;
    hide Heard;
    hide Parse;
    hide Taught;
  }

  /** What is found is the first announcement heard. */
  lemma FoundIsHeard(a: Answers)
    ensures FoundIn(a).port == a.port && FoundIn(a).deviceId == a.deviceId
    ensures forall i: nat :: Heard(a, i) ==> FoundIn(a).info == Parse(a.texts[i])
    ensures (forall i: nat :: !Heard(a, i)) ==> FoundIn(a).info == None
  {
    hide Parse;
    forall i: nat | Heard(a, i) ensures FoundIn(a).info == Parse(a.texts[i]) {
      AnnouncedIsFirst(a.texts, i);
    }
    if FoundIn(a).info.Some? {
      AnnouncedIsSome(a.texts);
      var i: nat :| i < |a.texts| && Parse(a.texts[i]).Some? && forall j :: 0 <= j < i ==> Parse(a.texts[j]).None?;
      assert Heard(a, i);
    }
  }

  // ---------------------------------------------------------------------------
  // Whole histories
  // ---------------------------------------------------------------------------

  /** One call, as some history makes it; `loaded` is the registry as read back from
      its file, in whatever order the file holds it. */
  datatype Call = Call(loaded: seq<Item>, clear: bool, only: Option<set<string>>,
                       probes: seq<string>, answers: string -> Answers)

  /** The registry a call leaves behind; one that is refused does not touch it. */
  function Called(before: seq<Item>, c: Call): seq<Item> {
    if c.only.Some? && c.clear then before
    else Merged(if c.clear then [] else c.loaded, InScope(c.probes, c.only), c.answers)
  }

  function History(start: seq<Item>, calls: seq<Call>): seq<Item> {
    if calls == [] then start else Called(History(start, calls[..|calls| - 1]), calls[|calls| - 1])
  }

  /** Each call loads what the one before it saved. */
  ghost predicate Chained(start: seq<Item>, calls: seq<Call>) {
    calls != [] ==>
      Chained(start, calls[..|calls| - 1])
      && Rearranged(History(start, calls[..|calls| - 1]), calls[|calls| - 1].loaded)
  }

  /** A call that is carried out and empties the registry first. */
  predicate Clears(c: Call) {
    c.clear && c.only.None?
  }

  predicate NoClear(calls: seq<Call>) {
    forall i :: 0 <= i < |calls| ==> !Clears(calls[i])
  }

  /** The boards a call asks: those connected that it is narrowed to. */
  function Asked(c: Call): set<string> {
    Members(InScope(c.probes, c.only))
  }

  function EverAsked(calls: seq<Call>): set<string> {
    if calls == [] then {} else EverAsked(calls[..|calls| - 1]) + Asked(calls[|calls| - 1])
  }

  lemma ScopeGrows(a: seq<Item>, b: seq<Item>, s: set<string>, t: set<string>)
    requires Extends(a, b, s) && s <= t
    ensures Extends(a, b, t)
  {
    hide Has;
    hide Lookup;
  }

  /** Saving sorts the file by key, so that what is loaded back may stand in another order. */
  ghost predicate Rearranged(items: seq<Item>, loaded: seq<Item>) {
    && |loaded| == |items|
    && (forall i, j :: 0 <= i < j < |loaded| ==> loaded[i].key != loaded[j].key)
    && (forall i :: 0 <= i < |items| ==> items[i] in loaded)
  }

  lemma RearrangedKeeps(items: seq<Item>, loaded: seq<Item>)
    requires Valid(items) && Rearranged(items, loaded)
    ensures Valid(loaded) && Extends(items, loaded, {})
  {
    SameItems(items, loaded);
    hide ItemOk;
    forall k: nat | 1 <= k <= |loaded| ensures Enumerated(loaded, k) {
      assert Enumerated(items, k);
      var i :| 0 <= i < |items| && items[i].entry.enum == Some(k);
      assert items[i] in loaded;
    }
    forall uid ensures Has(loaded, uid) == Has(items, uid) && Lookup(loaded, uid) == Lookup(items, uid) {
      var i, j := IndexOf(items, uid), IndexOf(loaded, uid);
      if i < |items| {
        assert items[i] in loaded;
      }
      if j < |loaded| {
        assert loaded[j] in items;
      }
    }
  }

  /** Nothing else got in. */
  lemma SameItems(items: seq<Item>, loaded: seq<Item>)
    requires Valid(items) && Rearranged(items, loaded)
    ensures forall i :: 0 <= i < |loaded| ==> loaded[i] in items
  {
    var a, b := set it | it in items, set it | it in loaded;
    DistinctCount(items);
    DistinctCount(loaded);
    SameSize(a, b);
    forall i | 0 <= i < |loaded| ensures loaded[i] in items {
      assert loaded[i] in b;
    }
  }

  lemma {:induction false} DistinctCount(items: seq<Item>)
    requires forall i, j :: 0 <= i < j < |items| ==> items[i].key != items[j].key
    ensures |set it | it in items| == |items|
  {
    if items != [] {
      var init, last := items[..|items| - 1], items[|items| - 1];
      DistinctCount(init);
      assert items == init + [last];
      assert (set it | it in items) == (set it | it in init) + {last};
    }
  }

  lemma SameSize(a: set<Item>, b: set<Item>)
    requires a <= b && |a| == |b|
    ensures a == b
  {
    assert |b - a| == |b| - |a|;
  }

  /** Whatever is called, with clears and refusals along the way, and however the file
      is ordered when it is loaded back, the registry stays well formed; without a clear
      it only ever grows, and a board that was connected but never asked is as it was. */
  lemma {:induction false} HistoryKeeps(start: seq<Item>, calls: seq<Call>)
    requires Valid(start) && Chained(start, calls)
    ensures Valid(History(start, calls))
    ensures NoClear(calls) ==> Extends(start, History(start, calls), EverAsked(calls))
  {
    if calls == [] {
      NothingDone(start, {}, _ => Answers(None, [], None));
    } else {
      var init, c := calls[..|calls| - 1], calls[|calls| - 1];
      var before := History(start, init);
      HistoryKeeps(start, init);
      CallKeeps(before, c);
      hide Valid;
      hide Extends;
      hide Asked;
      if NoClear(calls) {
        assert !Clears(c) && NoClear(init);
        ScopeGrows(start, before, EverAsked(init), EverAsked(calls));
        ScopeGrows(before, Called(before, c), Asked(c), EverAsked(calls));
        ExtendsIsTransitive(start, before, Called(before, c), EverAsked(calls));
      }
    }
  }

  lemma CallKeeps(before: seq<Item>, c: Call)
    requires Valid(before) && Rearranged(before, c.loaded)
    ensures Valid(Called(before, c))
    ensures !Clears(c) ==> Extends(before, Called(before, c), Asked(c))
  {
    var scoped := InScope(c.probes, c.only);
    NothingDone(before, Asked(c), c.answers);
    RearrangedKeeps(before, c.loaded);
    hide Valid;
    hide Extends;
    hide Rearranged;
    if c.clear {
      MergedKeeps([], scoped, c.answers);
    } else {
      MergedKeeps(c.loaded, scoped, c.answers);
      ScopeGrows(before, c.loaded, {}, Asked(c));
      ExtendsIsTransitive(before, c.loaded, Merged(c.loaded, scoped, c.answers), Asked(c));
    }
  }

  /** A history is its beginning, and then the rest of it from there. */
  lemma {:induction false} HistorySplits(start: seq<Item>, a: seq<Call>, b: seq<Call>)
    ensures History(start, a + b) == History(History(start, a), b)
    ensures Chained(start, a + b) <==> Chained(start, a) && Chained(History(start, a), b)
  {
    hide Called;
    hide Rearranged;
    if b == [] {
      assert a + b == a;
    } else {
      var init := b[..|b| - 1];
      assert (a + b)[..|a + b| - 1] == a + init && (a + b)[|a + b| - 1] == b[|b| - 1];
      HistorySplits(start, a, init);
    }
  }

  /** The last clear is where the registry begins anew: it holds what that call and the
      later ones found, grown from what the call found, and nothing of before. */
  lemma SinceTheLastClear(start: seq<Item>, a: seq<Call>, c: Call, b: seq<Call>)
    requires Valid(start) && Chained(start, a + [c] + b) && Clears(c) && NoClear(b)
    ensures var anew := Merged([], InScope(c.probes, None), c.answers);
            && Extends(anew, History(start, a + [c] + b), EverAsked(b))
            && (forall uid :: Has(History(start, a + [c] + b), uid) ==> uid in Asked(c) + EverAsked(b))
  {
    var anew := Merged([], InScope(c.probes, None), c.answers);
    HistorySplits(start, a + [c], b);
    HistorySplits(start, a, [c]);
    HistoryKeeps(start, a);
    assert [c][..0] == [] && History(start, a + [c]) == Called(History(start, a), c) == anew;
    CallKeeps(History(start, a), c);
    HistoryKeeps(anew, b);
    EmptyIsValid();
    MergedKeeps([], InScope(c.probes, None), c.answers);
    forall uid | Has(History(start, a + [c] + b), uid) && uid !in EverAsked(b) ensures uid in Asked(c) {
      assert Has(anew, uid);
      assert !Has([], uid);
    }
  }

  lemma EmptyIsValid()
    ensures Valid([])
  {
  }
}
