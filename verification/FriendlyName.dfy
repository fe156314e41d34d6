/** The five-letter board name: the device id, modulo 3125, in base 5. */
module FriendlyNames {
  const CONSONANTS := "zvgpt"
  const VOWELS := "uoiea"
  const NAMES: nat := 3125

  /** Column `i` of the codebook, counting from the least significant digit. */
  function Column(i: nat): (col: string)
    ensures |col| == 5
  {
    if i % 2 == 0 then CONSONANTS else VOWELS
  }

  lemma ColumnIsInjective(i: nat, a: nat, b: nat)
    requires a < 5 && b < 5 && Column(i)[a] == Column(i)[b]
    ensures a == b
  {
    assert CONSONANTS == ['z', 'v', 'g', 'p', 't'] && VOWELS == ['u', 'o', 'i', 'e', 'a'];
  }

  /** The low 32 bits of the device id. */
  function Word(deviceId: int): nat {
    deviceId % 0x1_0000_0000
  }

  /** Digits `i` to 4 of `n`, most significant first. */
  function Letters(n: nat, i: nat): string
    requires i <= 5
    decreases 5 - i
  {
    if i == 5 then "" else Letters(n / 5, i + 1) + [Column(i)[n % 5]]
  }

  function FriendlyName(deviceId: int): string {
    Letters(Word(deviceId), 0)
  }

  function DividedBy5(n: nat, times: nat): nat {
    if times == 0 then n else DividedBy5(n, times - 1) / 5
  }

  lemma {:induction false} LettersAreDigits(n: nat, i: nat, m: nat, k: nat)
    requires i <= k < 5 && n == DividedBy5(m, i)
    ensures |Letters(n, i)| == 5 - i
    ensures Letters(n, i)[4 - k] == Column(k)[DividedBy5(m, k) % 5]
    decreases 5 - i
  {
    if i < 4 {
      LettersAreDigits(n / 5, i + 1, m, if k == i then i + 1 else k);
    }
  }

  method ComputeName(deviceId: int) returns (name: string)
    ensures name == FriendlyName(deviceId) && |name| == 5
  {
    var n := Word(deviceId);
    ghost var m := n;
    var letters := new char[5];
    for i := 0 to 5
      invariant n == DividedBy5(m, i)
      invariant forall k :: 0 <= k < i ==> letters[4 - k] == Column(k)[DividedBy5(m, k) % 5]
    {
      letters[4 - i] := Column(i)[n % 5];
      n := n / 5;
    }
    name := letters[..];
    LettersAreDigits(m, 0, m, 0);
    forall j | 0 <= j < 5 ensures name[j] == FriendlyName(deviceId)[j] {
      LettersAreDigits(m, 0, m, 4 - j);
      assert letters[4 - (4 - j)] == Column(4 - j)[DividedBy5(m, 4 - j) % 5];
    }
  }

  // ---------------------------------------------------------------------------
  // Decoding
  // ---------------------------------------------------------------------------

  /** Where `c` stands in a column, or 5. */
  function IndexIn(col: string, c: char): (k: nat)
    ensures k <= |col|
    ensures k < |col| ==> col[k] == c
  {
    if col == "" || col[0] == c then 0 else 1 + IndexIn(col[1..], c)
  }

  function Decode(name: string, i: nat): nat
    decreases |name|
  {
    if name == "" then 0
    else IndexIn(Column(i), name[|name| - 1]) + 5 * Decode(name[..|name| - 1], i + 1)
  }

  /** A possible name: every letter from its column. */
  predicate IsName(name: string, i: nat)
    decreases |name|
  {
    name != "" ==> name[|name| - 1] in Column(i) && IsName(name[..|name| - 1], i + 1)
  }

  function Pow5(k: nat): (p: nat)
    ensures p > 0
  {
    if k == 0 then 1 else 5 * Pow5(k - 1)
  }

  lemma {:induction false} IndexOfColumn(col: string, a: nat)
    requires a < |col| && forall b :: 0 <= b < a ==> col[b] != col[a]
    ensures IndexIn(col, col[a]) == a
  {
    if a > 0 {
      assert col[0] != col[a];
      assert forall b :: 0 <= b < a - 1 ==> col[1..][b] == col[b + 1];
      IndexOfColumn(col[1..], a - 1);
    }
  }

  lemma {:induction false} IndexFindsMember(col: string, c: char)
    requires c in col
    ensures IndexIn(col, c) < |col|
  {
    if col[0] != c {
      IndexFindsMember(col[1..], c);
    }
  }

  /** One more base-5 digit. */
  lemma DigitStep(n: nat, m: nat)
    requires m > 0
    ensures n % 5 + 5 * ((n / 5) % m) == n % (5 * m)
  {
    var q, r := (n / 5) / m, (n / 5) % m;
    var low := n % 5 + 5 * r;
    assert n / 5 == m * q + r;
    assert n == 5 * (m * q + r) + n % 5;
    assert 5 * (m * q) == (5 * m) * q;
    assert n == (5 * m) * q + low && 0 <= low < 5 * m;
    ModUnique(n, 5 * m, q, low);
  }

  lemma ModUnique(n: nat, d: nat, q: nat, r: nat)
    requires d > 0 && n == d * q + r && r < d
    ensures n % d == r
  {
    var q' := n / d;
    assert n == d * q' + n % d;
    if q < q' {
      MulAtLeast(d, q, q');
    } else if q' < q {
      MulAtLeast(d, q', q);
    }
  }

  lemma MulAtLeast(d: nat, a: nat, b: nat)
    requires a < b
    ensures d * a + d <= d * b
  {
    var k := b - a - 1;
    assert d * b == d * a + d + d * k;
    assert d * k >= 0;
  }

  /** One more letter at the end is one more digit at the bottom. */
  lemma DecodeStep(init: string, c: char, i: nat)
    ensures Decode(init + [c], i) == IndexIn(Column(i), c) + 5 * Decode(init, i + 1)
    ensures IsName(init + [c], i) <==> c in Column(i) && IsName(init, i + 1)
  {
    assert (init + [c])[..|init + [c]| - 1] == init;
  }

  /** One more letter for one more digit. */
  lemma LettersStep(k: nat, q: nat, i: nat)
    requires k < 5 && i < 5
    ensures Letters(k + 5 * q, i) == Letters(q, i + 1) + [Column(i)[k]]
  {
    assert (k + 5 * q) / 5 == q && (k + 5 * q) % 5 == k;
  }

  lemma NoLetters(n: nat)
    ensures Letters(n, 5) == "" && Decode("", 5) == 0 == n % Pow5(0) && IsName("", 5)
  {
  }

  lemma {:induction false} DecodeLetters(n: nat, i: nat)
    requires i <= 5
    ensures Decode(Letters(n, i), i) == n % Pow5(5 - i)
    ensures IsName(Letters(n, i), i) && |Letters(n, i)| == 5 - i
    decreases 5 - i
  {
    hide Letters;
    hide Decode;
    hide IsName;
    hide IndexIn;
    hide Column;
    if i == 5 {
      NoLetters(n);
    } else {
      var q, d := n / 5, n % 5;
      assert n == d + 5 * q;
      var init, c := Letters(q, i + 1), Column(i)[d];
      DecodeLetters(q, i + 1);
      LettersStep(d, q, i);
      DecodeStep(init, c, i);
      IndexOfDigit(i, d);
      DigitStep(n, Pow5(4 - i));
      assert Pow5(5 - i) == 5 * Pow5(4 - i);
      hide Pow5;
      assert Letters(n, i) == init + [c];
    }
  }

  lemma IndexOfDigit(i: nat, d: nat)
    requires d < 5
    ensures IndexIn(Column(i), Column(i)[d]) == d && Column(i)[d] in Column(i)
  {
    forall b | 0 <= b < d ensures Column(i)[b] != Column(i)[d] {
      if Column(i)[b] == Column(i)[d] {
        ColumnIsInjective(i, b, d);
      }
    }
    IndexOfColumn(Column(i), d);
  }

  /** Decoding a possible name and spelling the number out again gives the name. */
  lemma {:induction false} LettersOfDecode(name: string, i: nat)
    requires i <= 5 && |name| == 5 - i && IsName(name, i)
    ensures Letters(Decode(name, i), i) == name
    decreases 5 - i
  {
    hide Letters;
    hide Decode;
    hide IsName;
    hide IndexIn;
    hide Column;
    if i == 5 {
      NoLetters(Decode(name, 5));
    } else {
      var init, c := name[..|name| - 1], name[|name| - 1];
      assert name == init + [c];
      DecodeStep(init, c, i);
      LettersOfDecode(init, i + 1);
      IndexFindsMember(Column(i), c);
      LettersStep(IndexIn(Column(i), c), Decode(init, i + 1), i);
    }
  }

  // ---------------------------------------------------------------------------
  // The theorems
  // ---------------------------------------------------------------------------

  lemma PowFive()
    ensures Pow5(5) == NAMES
  {
    assert Pow5(1) == 5 && Pow5(2) == 25 && Pow5(3) == 125 && Pow5(4) == 625;
  }

  /** The name determines exactly the low 32 bits of the id modulo 3125. */
  lemma NameDecodes(deviceId: int)
    ensures Decode(FriendlyName(deviceId), 0) == Word(deviceId) % NAMES
    ensures |FriendlyName(deviceId)| == 5
  {
    DecodeLetters(Word(deviceId), 0);
    PowFive();
  }

  /** Two ids share a name exactly when those residues agree. */
  lemma SameNameIffSameResidue(a: int, b: int)
    ensures FriendlyName(a) == FriendlyName(b) <==> Word(a) % NAMES == Word(b) % NAMES
  {
    NameDecodes(a);
    NameDecodes(b);
    DecodeLetters(Word(a), 0);
    DecodeLetters(Word(b), 0);
    LettersOfDecode(FriendlyName(a), 0);
    LettersOfDecode(FriendlyName(b), 0);
  }

  lemma {:induction false} DecodeBounded(name: string, i: nat)
    requires IsName(name, i)
    ensures Decode(name, i) < Pow5(|name|)
    decreases |name|
  {
    if name != "" {
      DecodeBounded(name[..|name| - 1], i + 1);
      IndexFindsMember(Column(i), name[|name| - 1]);
    }
  }

  /** Every possible name is some board's: the 3125 residues reach them all. */
  lemma EveryNameIsReached(name: string)
    requires |name| == 5 && IsName(name, 0)
    ensures Decode(name, 0) < NAMES && FriendlyName(Decode(name, 0)) == name
  {
    hide Letters;
    hide Decode;
    hide IsName;
    hide Pow5;
    DecodeBounded(name, 0);
    PowFive();
    LettersOfDecode(name, 0);
    assert Pow5(|name|) == Pow5(5);
    var n := Decode(name, 0);
    assert n < 3125;
    assert Word(n) == n;
  }

  /** A name is consonant, vowel, consonant, vowel, consonant. */
  lemma NamesArePronounceable(deviceId: int)
    ensures var name := FriendlyName(deviceId);
            && |name| == 5
            && name[0] in "zvgpt" && name[2] in "zvgpt" && name[4] in "zvgpt"
            && name[1] in "uoiea" && name[3] in "uoiea"
  {
    var m := Word(deviceId);
    forall k: nat | k < 5 ensures |FriendlyName(deviceId)| == 5 && FriendlyName(deviceId)[4 - k] in Column(k) {
      LettersAreDigits(m, 0, m, k);
    }
    assert FriendlyName(deviceId)[4 - 0] in Column(0) && FriendlyName(deviceId)[4 - 1] in Column(1);
    assert FriendlyName(deviceId)[4 - 2] in Column(2) && FriendlyName(deviceId)[4 - 3] in Column(3);
    assert FriendlyName(deviceId)[4 - 4] in Column(4);
  }

  lemma FiveLetters(n: nat, a: nat, b: nat, c: nat, d: nat, e: nat, more: nat)
    requires a < 5 && b < 5 && c < 5 && d < 5 && e < 5 && n < 0x1_0000_0000
    requires n == a + 5 * (b + 5 * (c + 5 * (d + 5 * (e + 5 * more))))
    ensures FriendlyName(n) == [CONSONANTS[e], VOWELS[d], CONSONANTS[c], VOWELS[b], CONSONANTS[a]]
  {
    var n4 := e + 5 * more;
    var n3 := d + 5 * n4;
    var n2 := c + 5 * n3;
    var n1 := b + 5 * n2;
    assert n == a + 5 * n1 && Word(n) == n;
    hide Letters;
    LettersOfFive(n1, n2, n3, n4, more, a, b, c, d, e);
  }

  lemma LettersOfFive(n1: nat, n2: nat, n3: nat, n4: nat, n5: nat, a: nat, b: nat, c: nat, d: nat, e: nat)
    requires a < 5 && b < 5 && c < 5 && d < 5 && e < 5
    requires n4 == e + 5 * n5 && n3 == d + 5 * n4 && n2 == c + 5 * n3 && n1 == b + 5 * n2
    ensures Letters(a + 5 * n1, 0) == [CONSONANTS[e], VOWELS[d], CONSONANTS[c], VOWELS[b], CONSONANTS[a]]
  {
    NoLetters(n5);
    hide Letters;
    LettersStep(e, n5, 4);
    LettersStep(d, n4, 3);
    LettersStep(c, n3, 2);
    LettersStep(b, n2, 1);
    LettersStep(a, n1, 0);
  }

  /** Names that boards are known to bear. */
  lemma KnownNames()
    ensures FriendlyName(0) == "zuzuz" && FriendlyName(2314287040) == "tovez"
    ensures FriendlyName(2175407711) == "gopiv" && FriendlyName(1198504156) == "vevov"
  {
    FiveLetters(0, 0, 0, 0, 0, 0, 0);
    FiveLetters(2314287040, 0, 3, 1, 1, 4, 740571);
    FiveLetters(2175407711, 1, 2, 3, 1, 2, 696130);
    FiveLetters(1198504156, 1, 1, 1, 3, 1, 383521);
    hide FriendlyName;
  }
}
