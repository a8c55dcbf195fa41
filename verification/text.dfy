/** Python's substring test `sub in s` on strings. */
module Text {

  /** `sub in s`: `sub` occurs as a contiguous run of characters of `s`. */
  function Contains(s: string, sub: string): bool
    decreases |s|
  {
    if |sub| > |s| then false
    else if s[..|sub|] == sub then true
    else Contains(s[1..], sub)
  }

  /** `sub` starts at position `i` of `s`. */
  predicate OccursAt(s: string, sub: string, i: int)
  {
    0 <= i && i + |sub| <= |s| && s[i..i + |sub|] == sub
  }

  /** The scan in `Contains` finds an occurrence exactly when one exists. */
  lemma {:induction false} ContainsIff(s: string, sub: string)
    ensures Contains(s, sub) <==> exists i :: OccursAt(s, sub, i)
    decreases |s|
  {
    if |sub| > |s| {
    } else if s[..|sub|] == sub {
      assert OccursAt(s, sub, 0);
    } else {
      ContainsIff(s[1..], sub);
      if Contains(s[1..], sub) {
        var i :| OccursAt(s[1..], sub, i);
        assert s[1..][i..i + |sub|] == s[i + 1..i + 1 + |sub|];
        assert OccursAt(s, sub, i + 1);
      } else {
        forall i | OccursAt(s, sub, i) ensures false {
          if i > 0 {
            assert s[1..][i - 1..i - 1 + |sub|] == s[i..i + |sub|];
            assert OccursAt(s[1..], sub, i - 1);
          }
        }
      }
    }
  }
}
