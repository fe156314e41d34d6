/** The two dialects in which a board announces itself. */
module Announcements {
  import opened Wrappers
  import opened Text

  datatype Announcement = Announcement(role: string, commonName: string, deviceName: string,
                                       serial: string, raw: string)

  /** `s.split(c)`. */
  function SplitOn(s: string, c: char): (parts: seq<string>)
    ensures parts != []
  {
    if s == "" then [""]
    else
      var rest := SplitOn(s[1..], c);
      if s[0] == c then [""] + rest else [[s[0]] + rest[0]] + rest[1..]
  }

  /** `c.join(parts)`. */
  function JoinOn(parts: seq<string>, c: char): string {
    if parts == [] then "" else if |parts| == 1 then parts[0] else parts[0] + [c] + JoinOn(parts[1..], c)
  }

  function Parse(text: string): Option<Announcement> {
    if StartsWith(text, "DEVICE:") then
      var parts := SplitOn(text, ':');
      if |parts| >= 5 then Some(Announcement(parts[1], parts[2], parts[3], JoinOn(parts[4..], ':'), text)) else None
    else if StartsWith(text, "device ") then
      var parts := Split(text);
      if |parts| >= 5 then Some(Announcement(parts[1], parts[2], parts[3], parts[4], text)) else None
    else None
  }

  /** What a board that says `texts` announces: its first announcement, if any. */
  function Announced(texts: seq<string>): (info: Option<Announcement>)
    ensures info.Some? ==> Parse(info.value.raw) == info
  {
    if texts == [] then None else if Parse(texts[0]).Some? then Parse(texts[0]) else Announced(texts[1..])
  }

  /** The first of the lines read that announces a board. */
  method FirstAnnouncement(texts: seq<string>) returns (info: Option<Announcement>)
    ensures info.None? ==> forall i :: 0 <= i < |texts| ==> Parse(texts[i]).None?
    ensures info.Some? ==> exists i :: 0 <= i < |texts| && info == Parse(texts[i])
                                       && forall j :: 0 <= j < i ==> Parse(texts[j]).None?
    ensures info == Announced(texts)
  {
    for i := 0 to |texts|
      invariant forall j :: 0 <= j < i ==> Parse(texts[j]).None?
      invariant Announced(texts) == Announced(texts[i..])
    {
      if Parse(texts[i]).Some? {
        return Parse(texts[i]);
      }
    }
    return None;
  }

  // ---------------------------------------------------------------------------
  // Both dialects carry the same five fields
  // ---------------------------------------------------------------------------

  lemma {:induction false} JoinOfSplit(s: string, c: char)
    ensures JoinOn(SplitOn(s, c), c) == s
  {
    if s != "" {
      JoinOfSplit(s[1..], c);
      var rest := SplitOn(s[1..], c);
      if s[0] == c {
        assert ([""] + rest)[1..] == rest;
      } else {
        var parts := SplitOn(s, c);
        assert parts[1..] == rest[1..];
      }
    }
  }

  function Count(s: string, c: char): nat {
    if s == "" then 0 else Count(s[1..], c) + if s[0] == c then 1 else 0
  }

  lemma {:induction false} OneMorePart(s: string, c: char)
    ensures |SplitOn(s, c)| == Count(s, c) + 1
  {
    if s != "" {
      OneMorePart(s[1..], c);
    }
  }

  /** Exactly these lines announce a board: `DEVICE:` with at least four colons, or
      `device ` with at least five words; whatever they say, they are kept whole. */
  lemma AnnouncesIff(text: string)
    ensures Parse(text).Some? <==>
            (StartsWith(text, "DEVICE:") && Count(text, ':') >= 4)
            || (StartsWith(text, "device ") && |Split(text)| >= 5)
    ensures Parse(text).Some? ==> Parse(text).value.raw == text
  {
    OneMorePart(text, ':');
    assert !(StartsWith(text, "DEVICE:") && StartsWith(text, "device ")) by {
      assert "DEVICE:"[0] == 'D' && "device "[0] == 'd';
    }
    hide SplitOn;
    hide Split;
    hide Count;
  }

  /** A part without the separator comes off whole. */
  lemma {:induction false} SplitPart(p: string, c: char, rest: string)
    requires c !in p
    ensures SplitOn(p + [c] + rest, c) == [p] + SplitOn(rest, c)
  {
    if p == "" {
      assert p + [c] + rest == [c] + rest;
      assert ([c] + rest)[1..] == rest;
    } else {
      assert (p + [c] + rest)[1..] == p[1..] + [c] + rest;
      SplitPart(p[1..], c, rest);
      assert [p[0]] + p[1..] == p;
    }
  }

  /** The relay's line gives its fields back; only the serial may hold colons. */
  lemma ColonDialect(role: string, common: string, device: string, serial: string)
    requires ':' !in role && ':' !in common && ':' !in device
    ensures var text := "DEVICE" + ":" + (role + ":" + (common + ":" + (device + ":" + serial)));
            Parse(text) == Some(Announcement(role, common, device, serial, text))
  {
    var r := role + ":" + (common + ":" + (device + ":" + serial));
    var text := "DEVICE" + ":" + r;
    ColonParts(role, common, device, serial);
    hide SplitOn;
    hide JoinOn;
    StartsWithWord("DEVICE", ":", r);
  }

  lemma ColonParts(role: string, common: string, device: string, serial: string)
    requires ':' !in role && ':' !in common && ':' !in device
    ensures var parts := SplitOn("DEVICE" + ":" + (role + ":" + (common + ":" + (device + ":" + serial))), ':');
            && |parts| >= 5 && parts[1] == role && parts[2] == common && parts[3] == device
            && JoinOn(parts[4..], ':') == serial
  {
    var d := device + ":" + serial;
    var c := common + ":" + d;
    var r := role + ":" + c;
    SplitPart(device, ':', serial);
    SplitPart(common, ':', d);
    SplitPart(role, ':', c);
    SplitPart("DEVICE", ':', r);
    JoinOfSplit(serial, ':');
    FourAndRest("DEVICE", role, common, device, SplitOn(serial, ':'));
    hide *;
  }

  lemma FourAndRest(a: string, b: string, c: string, d: string, rest: seq<string>)
    ensures var parts := [a] + ([b] + ([c] + ([d] + rest)));
            |parts| == 4 + |rest| && parts[..4] == [a, b, c, d] && parts[4..] == rest
            && parts[1] == b && parts[2] == c && parts[3] == d
  {
  }

  lemma StartsWithWord(word: string, sep: string, rest: string)
    ensures StartsWith(word + sep + rest, word + sep)
  {
  }

  /** The robot's line gives its fields back; words after the serial are ignored. */
  lemma SpaceDialect(role: string, common: string, device: string, serial: string, more: string)
    requires NoSpace(role) && NoSpace(common) && NoSpace(device) && NoSpace(serial)
    requires role != "" && common != "" && device != "" && serial != ""
    ensures var text := "device" + " " + (role + " " + (common + " " + (device + " " + (serial + " " + more))));
            Parse(text) == Some(Announcement(role, common, device, serial, text))
  {
    var r := role + " " + (common + " " + (device + " " + (serial + " " + more)));
    var text := "device" + " " + r;
    SpaceParts(role, common, device, serial, more);
    hide Split;
    hide NoSpace;
    StartsWithWord("device", " ", r);
    assert "device" + " " == "device ";
    assert !StartsWith(text, "DEVICE:") by {
      assert text[0] == 'd' && "DEVICE:"[0] == 'D';
    }
  }

  lemma SpaceParts(role: string, common: string, device: string, serial: string, more: string)
    requires NoSpace(role) && NoSpace(common) && NoSpace(device) && NoSpace(serial)
    requires role != "" && common != "" && device != "" && serial != ""
    ensures var parts := Split("device" + " " + (role + " " + (common + " " + (device + " " + (serial + " " + more)))));
            && |parts| >= 5 && parts[1] == role && parts[2] == common && parts[3] == device && parts[4] == serial
  {
    assert NoSpace("device");
    var s := serial + " " + more;
    var d := device + " " + s;
    var c := common + " " + d;
    SplitWord(serial, more);
    SplitWord(device, s);
    SplitWord(common, d);
    SplitWord(role, c);
    SplitWord("device", role + " " + c);
    FourAndRest("device", role, common, device, Split(s));
    hide *;
    assert Split(s) == [serial] + Split(more);
  }
}
