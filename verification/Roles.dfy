/** Which announced roles name a radio relay. */
module Roles {
  import opened Wrappers
  import opened Text

  predicate IsRelay(role: Option<string>) {
    && role.Some? && role.value != ""
    && (Contains(Upper(role.value), "RELAY") || Contains(Upper(role.value), "BRIDGE"))
  }

  lemma {:induction false} UpperTwice(s: string)
    ensures Upper(Upper(s)) == Upper(s) && Upper(Lower(s)) == Upper(s)
  {
  }

  /** Whatever stands around either word, in whatever case, it names a relay. */
  lemma RelayWords(before: string, word: string, after: string)
    requires Lower(word) == "relay" || Lower(word) == "bridge"
    ensures IsRelay(Some(before + word + after))
  {
    var whole := before + word + after;
    var big := if Lower(word) == "relay" then "RELAY" else "BRIDGE";
    assert Upper(Lower(word)) == big;
    UpperTwice(word);
    assert Upper(whole)[|before|..|before| + |word|] == Upper(word);
    assert OccursAt(Upper(whole), big, |before|);
  }

  /** Without either word, in whatever case, it does not; nor does no role at all. */
  lemma OtherRoles(role: string)
    requires !Contains(Upper(role), "RELAY") && !Contains(Upper(role), "BRIDGE")
    ensures !IsRelay(Some(role)) && !IsRelay(None) && !IsRelay(Some(""))
  {
  }

  /** A robot is no relay. */
  lemma RobotIsNoRelay()
    ensures !IsRelay(Some("NEZHA2"))
  {
    var up := Upper("NEZHA2");
    assert |up| == 6 && up[0] == 'N' && up[1] == 'E' && up[2] == 'Z';
    assert !OccursAt(up, "RELAY", 0) && !OccursAt(up, "RELAY", 1) && !OccursAt(up, "BRIDGE", 0);
  }
}
