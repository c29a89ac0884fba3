/**
  The two functions of Go's `strings` package that the server's decisions
  rest on: `strings.HasSuffix` (the ephemeral-port test in `Start`) and
  `strings.Contains` (the content-type test in `isGRPCRequest`). Strings are
  sequences of characters; Go compares bytes, and nothing here depends on the
  difference because both tests compare ASCII tokens.
 */
module GoStrings {

  /** `sub` occurs in `s` starting at position `i`. */
  predicate OccursAt(s: string, sub: string, i: int)
  {
    0 <= i && i + |sub| <= |s| && s[i..i + |sub|] == sub
  }

  /** `strings.HasSuffix(s, suffix)`: the last `|suffix|` characters of `s` are `suffix`. */
  predicate HasSuffix(s: string, suffix: string): (b: bool)
    ensures b <==> |suffix| <= |s|
                   && forall i :: 0 <= i < |suffix| ==> s[|s| - |suffix| + i] == suffix[i]
  {
    |suffix| <= |s| && s[|s| - |suffix|..] == suffix
  }

  /**
    `strings.Contains(s, sub)`: scans `s` from the left for an occurrence of
    `sub`. The empty string is contained in every string.
   */
  function Contains(s: string, sub: string): (r: bool)
    ensures r <==> exists i :: OccursAt(s, sub, i)
    decreases |s|
  {
    if |sub| > |s| then
      false
    else if s[..|sub|] == sub then
      assert OccursAt(s, sub, 0);
      true
    else
      var rest := Contains(s[1..], sub);
      if rest then
        var i :| OccursAt(s[1..], sub, i);
        assert s[1..][i..i + |sub|] == s[i + 1..i + 1 + |sub|];
        assert OccursAt(s, sub, i + 1);
        true
      else
        forall i | OccursAt(s, sub, i) ensures OccursAt(s[1..], sub, i - 1) {
          assert s[1..][i - 1..i - 1 + |sub|] == s[i..i + |sub|];
        }
        false
  }

  /**
    Surrounding text never hides an occurrence: whatever is written before or
    after a string containing `sub`, the result still contains it.
   */
  lemma {:induction false} ContainsSurrounded(before: string, s: string, after: string, sub: string)
    requires Contains(s, sub)
    ensures Contains(before + s + after, sub)
  {
    var i :| OccursAt(s, sub, i);
    var t := before + s + after;
    assert t[|before| + i..|before| + i + |sub|] == s[i..i + |sub|];
    assert OccursAt(t, sub, |before| + i);
  }
}
