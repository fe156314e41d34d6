/** What the client makes of the services it finds on the network. */
module Discovery {
  import opened Text

  // ---------------------------------------------------------------------------
  // Short names
  // ---------------------------------------------------------------------------

  /** How many digits `s` ends in. */
  function TrailingDigits(s: string): (n: nat)
    ensures n <= |s| && forall i :: |s| - n <= i < |s| ==> IsDigit(s[i])
    ensures n < |s| ==> !IsDigit(s[|s| - n - 1])
  {
    if s == "" || !IsDigit(s[|s| - 1]) then 0 else 1 + TrailingDigits(s[..|s| - 1])
  }

  /** `s` without a final ` (k)`, if it ends in one. */
  function DropRename(s: string): string {
    if !EndsWith(s, ")") then s
    else
      var body := s[..|s| - 1];
      var n := TrailingDigits(body);
      if n > 0 && EndsWith(body[..|body| - n], " (") then body[..|body| - n - 2] else s
  }

  /** The pattern is anchored at the end of the text or just before a final newline. */
  function DropSuffix(s: string): string {
    if EndsWith(s, "\n") then DropRename(s[..|s| - 1]) + "\n" else DropRename(s)
  }

  function ShortName(raw: string, serviceType: string): string {
    var suffix := "." + serviceType;
    DropSuffix(if EndsWith(raw, suffix) then raw[..|raw| - |suffix|] else raw)
  }

  /** `s` is a name with a rename suffix, possibly followed by a newline. */
  ghost predicate EndsInRename(s: string) {
    exists stem: string, digits: string ::
      IsDigits(digits) && (s == Renamed(stem, digits) || s == Renamed(stem, digits) + "\n")
  }

  /** What is recognised as a suffix: exactly a space and a bracketed number at the end. */
  lemma RenameShape(s: string)
    ensures DropRename(s) != s <==>
            exists stem: string, digits: string :: IsDigits(digits) && Renamed(stem, digits) == s
  {
    if DropRename(s) != s {
      var body := s[..|s| - 1];
      var n := TrailingDigits(body);
      var stem, digits := body[..|body| - n - 2], body[|body| - n..];
      assert s == body + ")";
      assert body == body[..|body| - n] + digits;
      assert body[..|body| - n] == stem + " (";
      assert Renamed(stem, digits) == s;
    }
    forall stem: string, digits: string | IsDigits(digits) && Renamed(stem, digits) == s
      ensures DropRename(s) == stem
    {
      DropsRename(stem, digits);
    }
  }

  function Renamed(name: string, digits: string): string {
    name + " (" + digits + ")"
  }

  lemma DropsRename(name: string, digits: string)
    requires IsDigits(digits)
    ensures DropRename(Renamed(name, digits)) == name
  {
    var s := Renamed(name, digits);
    var head := name + " (";
    var body := head + digits;
    assert s == body + ")";
    assert s[|s| - 1..] == ")" && s[..|s| - 1] == body;
    TrailingDigitsOf(head, digits);
    hide TrailingDigits;
    hide IsDigits;
    var n := TrailingDigits(body);
    assert n == |digits|;
    assert body[..|body| - n] == head;
    assert head[|head| - 2..] == " (" && head[..|head| - 2] == name;
  }

  lemma TrailingDigitsOf(head: string, digits: string)
    requires head != "" && !IsDigit(head[|head| - 1]) && IsDigits(digits)
    ensures TrailingDigits(head + digits) == |digits|
  {
    var body := head + digits;
    assert forall i :: 0 <= i < |digits| ==> body[|body| - |digits| + i] == digits[i];
    assert body[|body| - |digits| - 1] == head[|head| - 1];
    assert TrailingDigits(body) >= |digits|;
  }

  /** A short name is changed exactly when it is of the renamed form. */
  lemma SuffixShape(s: string)
    ensures DropSuffix(s) != s <==> EndsInRename(s)
  {
    if EndsWith(s, "\n") {
      var init := s[..|s| - 1];
      assert s == init + "\n";
      RenameShape(init);
      assert forall stem: string, digits: string :: Renamed(stem, digits)[|Renamed(stem, digits)| - 1] == ')';
      forall stem: string, digits: string | IsDigits(digits) && s == Renamed(stem, digits) + "\n"
        ensures init == Renamed(stem, digits)
      {
      }
    } else {
      RenameShape(s);
      forall stem: string, digits: string | s == Renamed(stem, digits) + "\n" ensures EndsWith(s, "\n") {
      }
    }
  }

  /** The name printed for a service gives the board's short name back, exactly when the
      short name is not itself of the renamed form; the renamed form always does. */
  lemma ShortNameUndoesPrinting(name: string, serviceType: string, digits: string)
    requires IsDigits(digits)
    ensures ShortName(name + "." + serviceType, serviceType) == name <==> !EndsInRename(name)
    ensures ShortName(Renamed(name, digits) + "." + serviceType, serviceType) == name
  {
    var suffix := "." + serviceType;
    forall n: string ensures ShortName(n + "." + serviceType, serviceType) == DropSuffix(n) {
      assert n + "." + serviceType == n + suffix;
      assert (n + suffix)[|n|..] == suffix && (n + suffix)[..|n|] == n;
    }
    SuffixShape(name);
    hide EndsInRename;
    DropsRename(name, digits);
    var s := Renamed(name, digits);
    assert s[|s| - 1..] == ")";
  }

  /** A name printed for another type is left alone but for a rename suffix. */
  lemma OtherTypesKeepTheirName(raw: string, serviceType: string)
    requires !EndsWith(raw, "." + serviceType)
    ensures ShortName(raw, serviceType) == raw <==> !EndsInRename(raw)
  {
    SuffixShape(raw);
    hide EndsInRename;
  }

  // ---------------------------------------------------------------------------
  // resolve_board
  // ---------------------------------------------------------------------------

  /** One answer to a browse; an absent field reads as empty. */
  datatype Service = Service(name: string, host: string, port: nat,
                             enum: string, common: string, role: string, uid: string)

  datatype Resolved = One(board: Service) | Nobody | Several(boards: seq<Service>)

  /** The answers whose short name is `name`, renamed to it. */
  function Matches(name: string, serviceType: string, found: seq<Service>): seq<Service> {
    if found == [] then []
    else
      var rest := Matches(name, serviceType, found[1..]);
      if ShortName(found[0].name, serviceType) == name then [found[0].(name := name)] + rest else rest
  }

  function ResolveBoard(name: string, serviceType: string, found: seq<Service>): Resolved {
    var matches := Matches(name, serviceType, found);
    if matches == [] then Nobody else if |matches| > 1 then Several(matches) else One(matches[0])
  }

  predicate Answers(name: string, serviceType: string, s: Service) {
    ShortName(s.name, serviceType) == name
  }

  /** How many of the answers bear the name. */
  function Bearers(name: string, serviceType: string, found: seq<Service>): set<nat> {
    set i: nat | i < |found| && Answers(name, serviceType, found[i])
  }

  lemma {:induction false} MatchesAreBearers(name: string, serviceType: string, found: seq<Service>)
    ensures |Matches(name, serviceType, found)| == |Bearers(name, serviceType, found)|
    ensures forall i :: i in Bearers(name, serviceType, found) ==>
                          found[i].(name := name) in Matches(name, serviceType, found)
  {
    hide ShortName;
    if found != [] {
      var rest := found[1..];
      MatchesAreBearers(name, serviceType, rest);
      BearersShift(name, serviceType, found);
      forall i | i in Bearers(name, serviceType, found)
        ensures found[i].(name := name) in Matches(name, serviceType, found)
      {
        if i > 0 {
          assert i - 1 in Bearers(name, serviceType, rest) && rest[i - 1] == found[i];
        }
      }
    }
  }

  function Shifted(low: set<nat>): set<nat> {
    set i | i in low :: i + 1
  }

  lemma InShifted(low: set<nat>, y: nat)
    ensures y in Shifted(low) <==> y > 0 && y - 1 in low
  {
    assert y > 0 && y - 1 in low ==> (y - 1) + 1 in Shifted(low);
  }

  lemma BearerShifts(name: string, serviceType: string, found: seq<Service>, i: nat)
    requires found != []
    ensures i in Bearers(name, serviceType, found)
            <==> if i == 0 then Answers(name, serviceType, found[0])
                 else i - 1 in Bearers(name, serviceType, found[1..])
  {
    hide Answers;
    assert 0 < i < |found| ==> found[1..][i - 1] == found[i];
  }

  lemma BearersShift(name: string, serviceType: string, found: seq<Service>)
    requires found != []
    ensures |Bearers(name, serviceType, found)|
            == |Bearers(name, serviceType, found[1..])| + if Answers(name, serviceType, found[0]) then 1 else 0
  {
    hide Answers;
    hide Bearers;
    hide Shifted;
    var low := Bearers(name, serviceType, found[1..]);
    forall i: nat ensures i in Bearers(name, serviceType, found)
                          <==> if i == 0 then Answers(name, serviceType, found[0]) else i in Shifted(low)
    {
      BearerShifts(name, serviceType, found, i);
      InShifted(low, i);
    }
    ShiftedSize(low);
    assert Bearers(name, serviceType, found)
        == Shifted(low) + if Answers(name, serviceType, found[0]) then {0} else {};
  }

  lemma {:induction false} ShiftedSize(low: set<nat>)
    ensures |Shifted(low)| == |low| && 0 !in Shifted(low)
  {
    if low != {} {
      var x :| x in low;
      var rest := low - {x};
      ShiftedSize(rest);
      forall y: nat ensures y in Shifted(low) <==> y == x + 1 || y in Shifted(rest) {
        InShifted(low, y);
        InShifted(rest, y);
      }
      InShifted(rest, x + 1);
      assert Shifted(low) == Shifted(rest) + {x + 1};
    }
  }

  /** A name leads to a board exactly when one answer alone bears it, and then to that one. */
  lemma OnlyTheSoleBearer(name: string, serviceType: string, found: seq<Service>, i: nat)
    requires i < |found|
    ensures ResolveBoard(name, serviceType, found).One? <==> |Bearers(name, serviceType, found)| == 1
    ensures Bearers(name, serviceType, found) == {i} ==>
              ResolveBoard(name, serviceType, found) == One(found[i].(name := name))
    ensures ResolveBoard(name, serviceType, found).Nobody? <==> Bearers(name, serviceType, found) == {}
    ensures ResolveBoard(name, serviceType, found).Several? ==>
              var boards := ResolveBoard(name, serviceType, found).boards;
              && |boards| == |Bearers(name, serviceType, found)|
              && forall k :: k in Bearers(name, serviceType, found) ==> found[k].(name := name) in boards
  {
    hide ShortName;
    MatchesAreBearers(name, serviceType, found);
  }

  // ---------------------------------------------------------------------------
  // list_remote
  // ---------------------------------------------------------------------------

  datatype Row = Row(enum: string, name: string, common: string, role: string, uid: string, host: string)

  datatype Column = EnumColumn | NameColumn | CommonColumn | RoleColumn | UidColumn | HostColumn

  function Cell(r: Row, c: Column): string {
    match c
    case EnumColumn => r.enum
    case NameColumn => r.name
    case CommonColumn => r.common
    case RoleColumn => r.role
    case UidColumn => r.uid
    case HostColumn => r.host
  }

  /** One registration as it enters the table, with the board it counts for. */
  datatype Sighting = Sighting(key: string, row: Row)

  function Seen(s: Service, serviceType: string): Sighting {
    var name := ShortName(s.name, serviceType);
    Sighting(if s.uid != "" then s.uid else "name:" + name, Row(s.enum, name, s.common, s.role, s.uid, s.host))
  }

  /** What a service says for a column; its name is the short one. */
  function Says(s: Service, serviceType: string, c: Column): string {
    match c
    case EnumColumn => s.enum
    case NameColumn => ShortName(s.name, serviceType)
    case CommonColumn => s.common
    case RoleColumn => s.role
    case UidColumn => s.uid
    case HostColumn => s.host
  }

  /** A service enters the table with what it says, and counts for the board of its UID,
      or without one for that of its name. */
  lemma SeenSays(s: Service, serviceType: string, c: Column)
    ensures Cell(Seen(s, serviceType).row, c) == Says(s, serviceType, c)
    ensures s.uid != "" ==> Seen(s, serviceType).key == s.uid
    ensures s.uid == "" ==> Seen(s, serviceType).key == "name:" + ShortName(s.name, serviceType)
    ensures Seen(s, serviceType).row.common == s.common && Seen(s, serviceType).row.role == s.role
    ensures Seen(s, serviceType).row.enum == s.enum && Seen(s, serviceType).row.host == s.host
    ensures Seen(s, serviceType).row.uid == s.uid
  {
    hide ShortName;
  }

  function Sightings(found: seq<Service>, serviceType: string): (all: seq<Sighting>)
    ensures |all| == |found|
  {
    seq(|found|, i requires 0 <= i < |found| => Seen(found[i], serviceType))
  }

  /** `c` of the first sighting of `key` that has one, or empty. */
  function FirstNonEmpty(all: seq<Sighting>, key: string, c: Column): string {
    if all == [] then ""
    else if all[0].key == key && Cell(all[0].row, c) != "" then Cell(all[0].row, c)
    else FirstNonEmpty(all[1..], key, c)
  }

  predicate Fills(s: Sighting, key: string, c: Column) {
    s.key == key && Cell(s.row, c) != ""
  }

  /** A cell is empty only if no sighting of the board fills it; else it is what the
      first that does fills it with. */
  lemma {:induction false} FirstNonEmptyIsFirst(all: seq<Sighting>, key: string, c: Column)
    ensures FirstNonEmpty(all, key, c) == "" <==> forall i :: 0 <= i < |all| ==> !Fills(all[i], key, c)
    ensures FirstNonEmpty(all, key, c) != "" ==>
              exists i :: 0 <= i < |all| && Fills(all[i], key, c) && Cell(all[i].row, c) == FirstNonEmpty(all, key, c)
                          && forall j :: 0 <= j < i ==> !Fills(all[j], key, c)
  {
    hide Cell;
    if all != [] && !Fills(all[0], key, c) {
      var rest := all[1..];
      FirstNonEmptyIsFirst(rest, key, c);
      var v := FirstNonEmpty(rest, key, c);
      assert forall i :: 1 <= i < |all| ==> all[i] == rest[i - 1];
      assert v == FirstNonEmpty(all, key, c);
      if v != "" {
        var k :| 0 <= k < |rest| && Fills(rest[k], key, c) && Cell(rest[k].row, c) == v
                 && forall j :: 0 <= j < k ==> !Fills(rest[j], key, c);
        assert Fills(all[k + 1], key, c) && Cell(all[k + 1].row, c) == v;
      }
    }
  }

  function Joined(all: seq<Sighting>, key: string): Row {
    Row(FirstNonEmpty(all, key, EnumColumn), FirstNonEmpty(all, key, NameColumn), FirstNonEmpty(all, key, CommonColumn),
        FirstNonEmpty(all, key, RoleColumn), FirstNonEmpty(all, key, UidColumn), FirstNonEmpty(all, key, HostColumn))
  }

  /** The boards seen, in the order of their first sighting. */
  function Boards(all: seq<Sighting>): (keys: seq<string>)
    ensures forall i, j :: 0 <= i < j < |keys| ==> keys[i] != keys[j]
    ensures forall k :: k in keys <==> exists i :: 0 <= i < |all| && all[i].key == k
  {
    if all == [] then []
    else
      var init := Boards(all[..|all| - 1]);
      var key := all[|all| - 1].key;
      assert forall i :: 0 <= i < |all| - 1 ==> all[..|all| - 1][i] == all[i];
      if key in init then init else init + [key]
  }

  function Table(all: seq<Sighting>): (rows: seq<Row>)
    ensures |rows| == |Boards(all)|
  {
    seq(|Boards(all)|, i requires 0 <= i < |Boards(all)| => Joined(all, Boards(all)[i]))
  }

  lemma {:induction false} FirstNonEmptyGrows(all: seq<Sighting>, s: Sighting, key: string, c: Column)
    ensures FirstNonEmpty(all + [s], key, c)
            == if FirstNonEmpty(all, key, c) != "" then FirstNonEmpty(all, key, c)
               else if s.key == key then Cell(s.row, c) else ""
  {
    if all != [] {
      assert (all + [s])[1..] == all[1..] + [s];
      FirstNonEmptyGrows(all[1..], s, key, c);
    } else {
      assert (all + [s])[1..] == [];
    }
  }

  /** The first sighting of a board stands; later ones only fill its gaps. */
  function Filled(row: Row, more: Row): Row {
    Row(if row.enum != "" then row.enum else more.enum,
        if row.name != "" then row.name else more.name,
        if row.common != "" then row.common else more.common,
        if row.role != "" then row.role else more.role,
        if row.uid != "" then row.uid else more.uid,
        if row.host != "" then row.host else more.host)
  }

  lemma JoinedGrows(all: seq<Sighting>, s: Sighting, key: string)
    ensures s.key != key ==> Joined(all + [s], key) == Joined(all, key)
    ensures s.key == key ==> Joined(all + [s], key) == Filled(Joined(all, key), s.row)
    ensures s.key == key && key !in Boards(all) ==> Joined(all + [s], key) == s.row
  {
    hide FirstNonEmpty;
    FirstNonEmptyGrows(all, s, key, EnumColumn);
    FirstNonEmptyGrows(all, s, key, NameColumn);
    FirstNonEmptyGrows(all, s, key, CommonColumn);
    FirstNonEmptyGrows(all, s, key, RoleColumn);
    FirstNonEmptyGrows(all, s, key, UidColumn);
    FirstNonEmptyGrows(all, s, key, HostColumn);
    if key !in Boards(all) {
      JoinedBlank(all, key);
    }
    hide Boards;
  }

  lemma JoinedBlank(all: seq<Sighting>, key: string)
    requires key !in Boards(all)
    ensures Joined(all, key) == Row("", "", "", "", "", "")
  {
    hide FirstNonEmpty;
    hide Boards;
    assert forall i, c :: 0 <= i < |all| ==> !Fills(all[i], key, c);
    FirstNonEmptyIsFirst(all, key, EnumColumn);
    FirstNonEmptyIsFirst(all, key, NameColumn);
    FirstNonEmptyIsFirst(all, key, CommonColumn);
    FirstNonEmptyIsFirst(all, key, RoleColumn);
    FirstNonEmptyIsFirst(all, key, UidColumn);
    FirstNonEmptyIsFirst(all, key, HostColumn);
  }

  // --- sorting ---

  predicate Less(a: string, b: string) {
    if b == "" then false
    else if a == "" then true
    else a[0] < b[0] || (a[0] == b[0] && Less(a[1..], b[1..]))
  }

  /** `a` may stand before `b`: by name, then by UID. */
  predicate Before(a: Row, b: Row) {
    !Less(b.name, a.name) && (a.name == b.name ==> !Less(b.uid, a.uid))
  }

  lemma {:induction false} LessIsTotal(a: string, b: string)
    ensures a == b || Less(a, b) || Less(b, a)
    ensures !(Less(a, b) && Less(b, a)) && (Less(a, b) ==> a != b)
  {
    if a != "" && b != "" {
      LessIsTotal(a[1..], b[1..]);
      assert a == [a[0]] + a[1..] && b == [b[0]] + b[1..];
    }
  }

  lemma {:induction false} LessIsTransitive(a: string, b: string, c: string)
    requires Less(a, b) && Less(b, c)
    ensures Less(a, c)
  {
    if a != "" && b != "" && c != "" && a[0] == b[0] && b[0] == c[0] {
      LessIsTransitive(a[1..], b[1..], c[1..]);
    }
  }

  lemma BeforeIsTransitive(a: Row, b: Row, c: Row)
    requires Before(a, b) && Before(b, c)
    ensures Before(a, c)
  {
    LessIsTotal(a.name, b.name);
    LessIsTotal(b.name, c.name);
    LessIsTotal(a.name, c.name);
    LessIsTotal(a.uid, b.uid);
    LessIsTotal(b.uid, c.uid);
    LessIsTotal(a.uid, c.uid);
    if Less(a.name, b.name) && Less(b.name, c.name) {
      LessIsTransitive(a.name, b.name, c.name);
    }
    if Less(a.uid, b.uid) && Less(b.uid, c.uid) {
      LessIsTransitive(a.uid, b.uid, c.uid);
    }
  }

  lemma BeforeIsTotal(a: Row, b: Row)
    ensures Before(a, b) || Before(b, a)
  {
    LessIsTotal(a.name, b.name);
    LessIsTotal(a.uid, b.uid);
  }

  predicate Sorted(rows: seq<Row>) {
    forall i, j :: 0 <= i < j < |rows| ==> Before(rows[i], rows[j])
  }

  /** `r` placed after every row that may stand before it. */
  function Insert(rows: seq<Row>, r: Row): seq<Row> {
    if rows == [] || Before(rows[|rows| - 1], r) then rows + [r]
    else Insert(rows[..|rows| - 1], r) + [rows[|rows| - 1]]
  }

  /** A stable sort. */
  function Sort(rows: seq<Row>): seq<Row> {
    if rows == [] then [] else Insert(Sort(rows[..|rows| - 1]), rows[|rows| - 1])
  }

  lemma {:induction false} InsertSorts(rows: seq<Row>, r: Row)
    requires Sorted(rows)
    ensures Sorted(Insert(rows, r)) && multiset(Insert(rows, r)) == multiset(rows) + multiset{r}
  {
    hide Before;
    if rows != [] {
      var init, last := rows[..|rows| - 1], rows[|rows| - 1];
      assert rows == init + [last];
      if Before(last, r) {
        forall i | 0 <= i < |init| ensures Before(init[i], r) {
          BeforeIsTransitive(init[i], last, r);
        }
        assert SortedUpTo(rows, r);
        SortedSnoc(rows, r);
      } else {
        InsertSorts(init, r);
        BeforeIsTotal(last, r);
        var placed := Insert(init, r);
        forall i | 0 <= i < |placed| ensures Before(placed[i], last) {
          assert placed[i] in multiset(placed);
        }
        SortedSnoc(placed, last);
      }
    }
  }

  predicate SortedUpTo(rows: seq<Row>, last: Row) {
    forall i :: 0 <= i < |rows| ==> Before(rows[i], last)
  }

  lemma SortedSnoc(rows: seq<Row>, last: Row)
    requires Sorted(rows) && SortedUpTo(rows, last)
    ensures Sorted(rows + [last])
  {
    hide Before;
  }

  lemma {:induction false} SortSorts(rows: seq<Row>)
    ensures Sorted(Sort(rows)) && multiset(Sort(rows)) == multiset(rows)
  {
    if rows != [] {
      SortSorts(rows[..|rows| - 1]);
      InsertSorts(Sort(rows[..|rows| - 1]), rows[|rows| - 1]);
      assert rows == rows[..|rows| - 1] + [rows[|rows| - 1]];
    }
  }

  /** Less is what comes first in the first place where two differ, or what ends first. */
  lemma {:induction false} LessIsLexicographic(a: string, b: string)
    ensures Less(a, b) <==>
            exists k: nat :: k <= |a| && k < |b| && a[..k] == b[..k] && (k == |a| || a[k] < b[k])
  {
    if a != "" && b != "" && a[0] == b[0] {
      LessIsLexicographic(a[1..], b[1..]);
      if k: nat :| k <= |a| && k < |b| && a[..k] == b[..k] && (k == |a| || a[k] < b[k]) {
        assert k > 0;
        assert a[1..][..k - 1] == a[..k][1..] && b[1..][..k - 1] == b[..k][1..];
      }
      if k: nat :| k <= |a| - 1 && k < |b| - 1 && a[1..][..k] == b[1..][..k]
                   && (k == |a| - 1 || a[1..][k] < b[1..][k]) {
        assert a[..k + 1] == [a[0]] + a[1..][..k] && b[..k + 1] == [b[0]] + b[1..][..k];
        assert k + 1 <= |a| && k + 1 < |b| && (k + 1 == |a| || a[k + 1] < b[k + 1]);
      }
    } else if a == "" && b != "" {
      assert a[..0] == b[..0];
    } else if a != "" && b != "" {
      assert a[..0] == b[..0];
      forall k: nat | 0 < k <= |a| && k < |b| ensures a[..k] != b[..k] {
        assert a[..k][0] == a[0] && b[..k][0] == b[0];
      }
    }
  }

  /** In a sorted listing no name stands after a greater one, and of one name no UID. */
  lemma SortedByNameThenUid(rows: seq<Row>, i: nat, j: nat)
    requires Sorted(rows) && i < j < |rows|
    ensures rows[i].name == rows[j].name || Less(rows[i].name, rows[j].name)
    ensures rows[i].name == rows[j].name ==> rows[i].uid == rows[j].uid || Less(rows[i].uid, rows[j].uid)
  {
    LessIsTotal(rows[i].name, rows[j].name);
    LessIsTotal(rows[i].uid, rows[j].uid);
  }

  /** Of a row only a host that is there is shown otherwise. */
  lemma OnlyHostsAreShown(r: Row, display: string -> string)
    ensures Shown(r, display).host == if r.host == "" then "" else display(r.host)
    ensures Shown(r, display).(host := r.host) == r
  {
  }

  function Shown(r: Row, display: string -> string): Row {
    if r.host != "" then r.(host := display(r.host)) else r
  }

  /** What the loop has when it has seen `all`. */
  ghost predicate Groups(all: seq<Sighting>, grouped: map<string, Row>, order: seq<string>) {
    && order == Boards(all)
    && (forall k :: k in grouped <==> k in order)
    && (forall k :: k in grouped ==> grouped[k] == Joined(all, k))
  }

  lemma GroupsGrow(all: seq<Sighting>, s: Sighting, grouped: map<string, Row>, order: seq<string>)
    requires Groups(all, grouped, order)
    ensures if s.key in grouped then Groups(all + [s], grouped[s.key := Filled(grouped[s.key], s.row)], order)
            else Groups(all + [s], grouped[s.key := s.row], order + [s.key])
  {
    hide Joined;
    hide Filled;
    assert (all + [s])[..|all|] == all;
    JoinedGrows(all, s, s.key);
    forall k | k in grouped && k != s.key ensures Joined(all + [s], k) == Joined(all, k) {
      JoinedGrows(all, s, k);
    }
  }

  /** The joining loop: one pass over the sightings, filling a dictionary and an order. */
  method Join(all: seq<Sighting>) returns (rows: seq<Row>)
    ensures rows == Table(all)
  {
    var grouped: map<string, Row> := map[];
    var order: seq<string> := [];
    assert all[..0] == [] && Groups([], grouped, order);
    hide Groups;
    hide Filled;
    for n := 0 to |all|
      invariant Groups(all[..n], grouped, order)
    {
      var s := all[n];
      assert all[..n + 1] == all[..n] + [s];
      GroupsGrow(all[..n], s, grouped, order);
      if s.key !in grouped {
        grouped := grouped[s.key := s.row];
        order := order + [s.key];
      } else {
        grouped := grouped[s.key := Filled(grouped[s.key], s.row)];
      }
    }
    assert all[..|all|] == all;
    GroupsTell(all, grouped, order);
    rows := seq(|order|, i requires 0 <= i < |order| => grouped[order[i]]);
  }

  lemma GroupsTell(all: seq<Sighting>, grouped: map<string, Row>, order: seq<string>)
    requires Groups(all, grouped, order)
    ensures |order| == |Table(all)|
    ensures forall i :: 0 <= i < |order| ==> order[i] in grouped && grouped[order[i]] == Table(all)[i]
  {
    hide Joined;
  }

  /**
    One row for each board seen, whichever of its two registrations were; every field
    is the first non-empty one among them, serial service first.  Rows are sorted by
    name and UID; host names are looked up for display afterwards.
   */
  method ListRemote(serial: seq<Service>, serialType: string, flash: seq<Service>, flashType: string,
                    display: string -> string) returns (rows: seq<Row>)
    ensures var table := Table(Sightings(serial, serialType) + Sightings(flash, flashType));
            && Sorted(Sort(table)) && multiset(Sort(table)) == multiset(table)
            && |rows| == |Sort(table)| == |table|
            && forall i :: 0 <= i < |rows| ==> rows[i] == Shown(Sort(table)[i], display)
  {
    var table := Join(Sightings(serial, serialType) + Sightings(flash, flashType));
    hide Table;
    hide Sightings;
    SortSorts(table);
    var sorted := Sort(table);
    hide Sort;
    hide Sorted;
    assert |sorted| == |multiset(sorted)| == |multiset(table)| == |table|;
    rows := seq(|sorted|, i requires 0 <= i < |sorted| => Shown(sorted[i], display));
  }
}
