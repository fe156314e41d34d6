/**
  The `FLASH <bytes> sha256=<hex>[ force-relay]` line: how the client prints it
  and how the daemon reads it.
 */
module FlashHeader {
  import opened Wrappers
  import opened Text

  datatype Header = Header(nbytes: nat, sha256: Option<string>, forceRelay: bool)

  /** The line `deploy_over_network` sends. */
  function HeaderLine(nbytes: nat, sha256: string, forceRelay: bool): string {
    "FLASH " + Dec(nbytes) + " sha256=" + sha256 + (if forceRelay then " force-relay" else "")
  }

  /** One optional token: the last `sha256=` wins, unknown tokens are ignored. */
  function Option1(tok: string, h: Header): Header {
    if StartsWith(tok, "sha256=") then h.(sha256 := Some(tok[7..]))
    else if tok == "force-relay" then h.(forceRelay := true)
    else h
  }

  function Options(toks: seq<string>, h: Header): Header {
    if toks == [] then h else Option1(toks[|toks| - 1], Options(toks[..|toks| - 1], h))
  }

  /** Python neither prints nor reads an integer of more decimal digits than these. */
  const MAX_DIGITS: nat := 4300

  /** What parsing comes to: a header, a refusal, or an exception out of `int`. */
  datatype Parsed = Read(header: Header) | Malformed | Raised

  /** The header a line holds, if it holds one. */
  function ParseHeader(text: string): Option<Header> {
    var parts := Split(text);
    if |parts| < 2 || parts[0] != "FLASH" || !IsDigits(parts[1]) then None
    else Some(Options(parts[2..], Header(ParseNat(parts[1]), None, false)))
  }

  predicate IsHash(tok: string) {
    StartsWith(tok, "sha256=")
  }

  /** `h` is what the words `toks` say, in whatever order: the flag if it is among them,
      the digest of the last `sha256=`, and no other word matters. */
  predicate Means(toks: seq<string>, h: Header) {
    && (h.forceRelay <==> "force-relay" in toks)
    && (h.sha256.None? ==> forall i :: 0 <= i < |toks| ==> !IsHash(toks[i]))
    && (h.sha256.Some? ==> exists i :: 0 <= i < |toks| && IsHash(toks[i]) && toks[i][7..] == h.sha256.value
                                       && forall j :: i < j < |toks| ==> !IsHash(toks[j]))
  }

  /** The words mean one header only. */
  lemma OneMeaning(toks: seq<string>, h: Header, k: Header)
    requires Means(toks, h) && Means(toks, k) && h.nbytes == k.nbytes
    ensures h == k
  {
  }

  lemma {:induction false} OptionsMean(toks: seq<string>, nbytes: nat)
    ensures Means(toks, Options(toks, Header(nbytes, None, false)))
    ensures Options(toks, Header(nbytes, None, false)).nbytes == nbytes
  {
    if toks != [] {
      var init, last := toks[..|toks| - 1], toks[|toks| - 1];
      OptionsMean(init, nbytes);
      var was := Options(init, Header(nbytes, None, false));
      assert toks == init + [last];
      assert !IsHash("force-relay") by {
        assert "force-relay"[0] == 'f';
      }
      if !IsHash(last) && was.sha256.Some? {
        var i :| 0 <= i < |init| && IsHash(init[i]) && init[i][7..] == was.sha256.value
                 && forall j :: i < j < |init| ==> !IsHash(init[j]);
        assert IsHash(toks[i]) && toks[i][7..] == was.sha256.value;
      }
    }
  }

  /** The size is the second word; what the others mean is stated outright. */
  method ParseFlashHeader(text: string) returns (parsed: Parsed)
    ensures parsed.Read? ==> ParseHeader(text) == Some(parsed.header)
    ensures parsed.Malformed? <==> ParseHeader(text) == None
    ensures var parts := Split(text);
            && (parsed == Malformed <==> |parts| < 2 || parts[0] != "FLASH" || !IsDigits(parts[1]))
            && (parsed == Raised <==> parsed != Malformed && |parts[1]| > MAX_DIGITS)
            && (parsed.Read? ==> Means(parts[2..], parsed.header) && parsed.header.nbytes == ParseNat(parts[1]))
  {
    var parts := Split(text);
    if |parts| < 2 || parts[0] != "FLASH" || !IsDigits(parts[1]) {
      return Malformed;
    }
    if |parts[1]| > MAX_DIGITS {
      return Raised;
    }
    var nbytes := ParseNat(parts[1]);
    hide Split;
    hide ParseNat;
    var h := Header(nbytes, None, false);
    for i := 2 to |parts|
      invariant h == Options(parts[2..i], Header(nbytes, None, false))
    {
      var tok := parts[i];
      assert parts[2..i + 1][..i - 2] == parts[2..i];
      if StartsWith(tok, "sha256=") {
        h := h.(sha256 := Some(tok[7..]));
      } else if tok == "force-relay" {
        h := h.(forceRelay := true);
      }
    }
    assert parts[2..] == parts[2..|parts|];
    OptionsMean(parts[2..], nbytes);
    return Read(h);
  }

  predicate IsLowerHex(s: string) {
    forall i :: 0 <= i < |s| ==> '0' <= s[i] <= '9' || 'a' <= s[i] <= 'f'
  }

  lemma DigitsAreNotSpace(s: string)
    requires IsDigits(s)
    ensures NoSpace(s)
  {
  }

  lemma ThreeWords(a: string, b: string, c: string)
    requires a != "" && NoSpace(a) && b != "" && NoSpace(b) && c != "" && NoSpace(c)
    ensures Split(a + " " + b + " " + c) == [a, b, c]
  {
    hide Split;
    hide NoSpace;
    SplitWord(c, "");
    SplitWord(b, c);
    SplitWord(a, b + " " + c);
    assert a + " " + b + " " + c == a + " " + (b + " " + c);
  }

  lemma FourWords(a: string, b: string, c: string, d: string)
    requires a != "" && NoSpace(a) && b != "" && NoSpace(b) && c != "" && NoSpace(c) && d != "" && NoSpace(d)
    ensures Split(a + " " + b + " " + (c + " " + d)) == [a, b, c, d]
  {
    hide Split;
    hide NoSpace;
    ThreeWords(b, c, d);
    SplitWord(a, b + " " + c + " " + d);
    assert a + " " + b + " " + (c + " " + d) == a + " " + (b + " " + c + " " + d);
  }

  function HashToken(sha256: string): string {
    "sha256=" + sha256
  }

  lemma HashTokenIsOneWord(sha256: string)
    requires IsLowerHex(sha256)
    ensures HashToken(sha256) != "" && NoSpace(HashToken(sha256))
  {
  }

  lemma HeaderShape(n: nat, sha256: string, force: bool)
    ensures HeaderLine(n, sha256, force)
         == if force then "FLASH" + " " + Dec(n) + " " + (HashToken(sha256) + " " + "force-relay")
            else "FLASH" + " " + Dec(n) + " " + HashToken(sha256)
  {
    var digits := Dec(n);
    assert "FLASH " + digits == "FLASH" + " " + digits;
    assert digits + " sha256=" == digits + " " + "sha256=";
  }

  /** The words of a printed header. */
  lemma HeaderWords(n: nat, sha256: string, force: bool)
    requires IsLowerHex(sha256)
    ensures Split(HeaderLine(n, sha256, force))
         == ["FLASH", Dec(n), HashToken(sha256)] + (if force then ["force-relay"] else [])
  {
    DecRoundTrip(n);
    DigitsAreNotSpace(Dec(n));
    HashTokenIsOneWord(sha256);
    HeaderShape(n, sha256, force);
    assert NoSpace("FLASH") && NoSpace("force-relay");
    if force {
      FourWords("FLASH", Dec(n), HashToken(sha256), "force-relay");
    } else {
      ThreeWords("FLASH", Dec(n), HashToken(sha256));
    }
  }

  /** The daemon reads back exactly what the client printed. */
  lemma HeaderRoundTrip(n: nat, sha256: string, force: bool)
    requires IsLowerHex(sha256)
    ensures ParseHeader(HeaderLine(n, sha256, force)) == Some(Header(n, Some(sha256), force))
  {
    HeaderWords(n, sha256, force);
    DecRoundTrip(n);
    var parts := Split(HeaderLine(n, sha256, force));
    var start := Header(n, None, false);
    var hash := HashToken(sha256);
    assert hash[7..] == sha256;
    var none: seq<string> := [];
    assert [hash][..0] == none;
    assert Options(none, start) == start;
    assert Options([hash], start) == Header(n, Some(sha256), false);
    if force {
      var flag := "force-relay";
      assert [hash, flag][..1] == [hash];
      assert !StartsWith(flag, "sha256=") by {
        assert flag[0] == 'f';
      }
      assert Options([hash, flag], start) == Header(n, Some(sha256), true);
      assert parts[2..] == [hash, flag];
    } else {
      assert parts[2..] == [hash];
    }
  }

  /** A printed header is one line that stripping leaves alone. */
  lemma HeaderIsOneLine(n: nat, sha256: string, force: bool)
    requires IsLowerHex(sha256)
    ensures OneLine(HeaderLine(n, sha256, force))
    ensures Strip(HeaderLine(n, sha256, force)) == HeaderLine(n, sha256, force)
    ensures !StartsWith(HeaderLine(n, sha256, force), "AUTH ")
  {
    DecRoundTrip(n);
    var h := HeaderLine(n, sha256, force);
    assert forall i :: 0 <= i < |Dec(n)| ==> IsDigit(Dec(n)[i]);
    assert !IsSpace(h[|h| - 1]) by {
      if !force {
        var hash := "sha256=" + sha256;
        assert h[|h| - 1] == hash[|hash| - 1];
      }
    }
    assert h[0] == 'F';
  }
}
