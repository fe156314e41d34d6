/**
  The few string operations of the Python source that the protocol depends on,
  over ASCII text; a byte of a stream is a `char`.
 */
module Text {
  predicate StartsWith(s: string, prefix: string) {
    prefix <= s
  }

  predicate EndsWith(s: string, suffix: string) {
    |suffix| <= |s| && s[|s| - |suffix|..] == suffix
  }

  predicate OccursAt(s: string, sub: string, i: nat) {
    i + |sub| <= |s| && s[i..i + |sub|] == sub
  }

  /** `sub in s` for strings. */
  predicate Contains(s: string, sub: string) {
    exists i :: 0 <= i <= |s| && OccursAt(s, sub, i)
  }

  predicate IsSpace(c: char) {
    c == ' ' || '\t' <= c <= '\r' || 28 as char <= c <= 31 as char
  }

  predicate NoSpace(s: string) {
    forall i :: 0 <= i < |s| ==> !IsSpace(s[i])
  }

  predicate IsDigit(c: char) {
    '0' <= c <= '9'
  }

  predicate IsDigits(s: string) {
    s != "" && forall i :: 0 <= i < |s| ==> IsDigit(s[i])
  }

  function LowerChar(c: char): char {
    if 'A' <= c <= 'Z' then (c as int + 32) as char else c
  }

  function UpperChar(c: char): char {
    if 'a' <= c <= 'z' then (c as int - 32) as char else c
  }

  function Lower(s: string): string {
    seq(|s|, i requires 0 <= i < |s| => LowerChar(s[i]))
  }

  function Upper(s: string): string {
    seq(|s|, i requires 0 <= i < |s| => UpperChar(s[i]))
  }

  // --- whitespace splitting ---

  /** How many leading characters belong to the first word of `s`. */
  function WordLength(s: string): (n: nat)
    ensures n <= |s| && NoSpace(s[..n])
    ensures n < |s| ==> IsSpace(s[n])
  {
    if s == "" || IsSpace(s[0]) then 0 else 1 + WordLength(s[1..])
  }

  /** `s.split()`. */
  function Split(s: string): seq<string>
    decreases |s|
  {
    if s == "" then []
    else if IsSpace(s[0]) then Split(s[1..])
    else [s[..WordLength(s)]] + Split(s[WordLength(s)..])
  }

  function LStrip(s: string): string {
    if s != "" && IsSpace(s[0]) then LStrip(s[1..]) else s
  }

  function RStrip(s: string): string {
    if s != "" && IsSpace(s[|s| - 1]) then RStrip(s[..|s| - 1]) else s
  }

  /** `s.strip()`. */
  function Strip(s: string): string {
    RStrip(LStrip(s))
  }

  lemma {:induction false} WordLengthOf(w: string, rest: string)
    requires NoSpace(w) && (rest != "" ==> IsSpace(rest[0]))
    ensures WordLength(w + rest) == |w|
  {
    if w == "" {
      assert w + rest == rest;
    } else {
      assert (w + rest)[1..] == w[1..] + rest;
      WordLengthOf(w[1..], rest);
    }
  }

  /** The first word comes off whole. */
  lemma SplitWord(w: string, rest: string)
    requires w != "" && NoSpace(w)
    ensures Split(w + " " + rest) == [w] + Split(rest)
    ensures Split(w) == [w]
  {
    var tail := " " + rest;
    assert w + " " + rest == w + tail;
    WordLengthOf(w, tail);
    assert (w + tail)[..|w|] == w && (w + tail)[|w|..] == tail;
    assert tail[1..] == rest;
    WordLengthOf(w, "");
    assert w + "" == w && w[..|w|] == w && w[|w|..] == "";
  }

  // --- decimal numbers ---

  function Digit(d: nat): char
    requires d < 10
  {
    ('0' as int + d) as char
  }

  /** `str(n)` for a natural number. */
  function Dec(n: nat): string {
    if n < 10 then [Digit(n)] else Dec(n / 10) + [Digit(n % 10)]
  }

  /** `int(s)` for a string of digits. */
  function ParseNat(s: string): nat
    requires forall i :: 0 <= i < |s| ==> IsDigit(s[i])
  {
    if s == "" then 0
    else assert IsDigit(s[|s| - 1]); 10 * ParseNat(s[..|s| - 1]) + (s[|s| - 1] as int - '0' as int)
  }

  /** Printing a number and reading it back gives the number. */
  lemma {:induction false} DecRoundTrip(n: nat)
    ensures IsDigits(Dec(n)) && ParseNat(Dec(n)) == n
  {
    if n >= 10 {
      DecRoundTrip(n / 10);
      assert Dec(n)[..|Dec(n)| - 1] == Dec(n / 10);
    } else {
      assert [Digit(n)][..0] == "";
    }
  }

  function SignedDec(n: int): string {
    if n < 0 then "-" + Dec(-n) else Dec(n)
  }

  // --- lines of a byte stream ---

  predicate OneLine(s: string) {
    '\n' !in s
  }

  /** What follows the last newline. */
  function Tail(s: string): string {
    if s == "" || s[|s| - 1] == '\n' then "" else Tail(s[..|s| - 1]) + [s[|s| - 1]]
  }

  /** The newline-terminated lines of `s`, without their newlines. */
  function Lines(s: string): seq<string> {
    if s == "" then []
    else if s[|s| - 1] == '\n' then Lines(s[..|s| - 1]) + [Tail(s[..|s| - 1])]
    else Lines(s[..|s| - 1])
  }

  lemma Snoc(s: string, c: char)
    ensures c == '\n' ==> Lines(s + [c]) == Lines(s) + [Tail(s)] && Tail(s + [c]) == ""
    ensures c != '\n' ==> Lines(s + [c]) == Lines(s) && Tail(s + [c]) == Tail(s) + [c]
  {
    assert (s + [c])[..|s|] == s;
  }

  /** More of the current line changes no finished line. */
  lemma {:induction false} AppendWithinLine(s: string, t: string)
    requires OneLine(t)
    ensures Lines(s + t) == Lines(s) && Tail(s + t) == Tail(s) + t
  {
    if t == "" {
      assert s + t == s;
    } else {
      var u := t[..|t| - 1];
      AppendWithinLine(s, u);
      assert s + t == (s + u) + [t[|t| - 1]];
      Snoc(s + u, t[|t| - 1]);
    }
  }

  /** The finished lines of a prefix are a prefix of the finished lines. */
  lemma {:induction false} LinesOfPrefix(s: string, n: nat)
    requires n <= |s|
    ensures Lines(s[..n]) <= Lines(s)
  {
    if n < |s| {
      var u := s[..|s| - 1];
      LinesOfPrefix(u, n);
      assert u[..n] == s[..n];
      assert s == u + [s[|s| - 1]];
      Snoc(u, s[|s| - 1]);
    } else {
      assert s[..n] == s;
    }
  }

  /** Bytes of a sequence of lines, newlines included. */
  function Size(lines: seq<string>): nat {
    if lines == [] then 0 else Size(lines[..|lines| - 1]) + |lines[|lines| - 1]| + 1
  }

  lemma {:induction false} SizeOfLines(s: string)
    ensures |s| == Size(Lines(s)) + |Tail(s)|
  {
    if s != "" {
      var u := s[..|s| - 1];
      SizeOfLines(u);
      assert s == u + [s[|s| - 1]];
      Snoc(u, s[|s| - 1]);
      if s[|s| - 1] == '\n' {
        assert Lines(s)[..|Lines(s)| - 1] == Lines(u);
      }
    }
  }

  lemma {:induction false} SizeOfPrefix(lines: seq<string>, n: nat)
    requires n <= |lines|
    ensures Size(lines[..n]) <= Size(lines)
  {
    if n < |lines| {
      var u := lines[..|lines| - 1];
      SizeOfPrefix(u, n);
      assert u[..n] == lines[..n];
    } else {
      assert lines[..n] == lines;
    }
  }
}
