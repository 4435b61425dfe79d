/** Swift's `String.contains(_:)` on character sequences. */
module Strings {

  /** `sub` occurs in `s` starting at position `i`. */
  ghost predicate OccursAt(s: string, sub: string, i: nat)
  {
    i + |sub| <= |s| && s[i..i + |sub|] == sub
  }

  /** `s.contains(sub)`: `sub` is a prefix of `s` or of one of its suffixes. */
  predicate Contains(s: string, sub: string)
    ensures Contains(s, sub) ==> |sub| <= |s|
    decreases |s|
  {
    sub <= s || (|s| > 0 && Contains(s[1..], sub))
  }

  /** A string found by Contains occurs at some position. */
  lemma {:induction false} ContainsOccurs(s: string, sub: string)
    requires Contains(s, sub)
    ensures exists i: nat :: OccursAt(s, sub, i)
    decreases |s|
  {
    if sub <= s {
      assert OccursAt(s, sub, 0);
    } else {
      ContainsOccurs(s[1..], sub);
      var i: nat :| OccursAt(s[1..], sub, i);
      assert s[1..][i..i + |sub|] == s[i + 1..i + 1 + |sub|];
      assert OccursAt(s, sub, i + 1);
    }
  }

  /** An occurrence at any position is found by Contains. */
  lemma {:induction false} OccursContains(s: string, sub: string, i: nat)
    requires OccursAt(s, sub, i)
    ensures Contains(s, sub)
    decreases i
  {
    if i > 0 {
      assert s[1..][i - 1..i - 1 + |sub|] == s[i..i + |sub|];
      OccursContains(s[1..], sub, i - 1);
    }
  }

  /** Contains agrees with the positional definition, in both directions. */
  lemma ContainsIffOccurs(s: string, sub: string)
    ensures Contains(s, sub) <==> exists i: nat :: OccursAt(s, sub, i)
  {
    if Contains(s, sub) {
      ContainsOccurs(s, sub);
    }
    if exists i: nat :: OccursAt(s, sub, i) {
      var i: nat :| OccursAt(s, sub, i);
      OccursContains(s, sub, i);
    }
  }

  /** Every string contains each of its prefixes. */
  lemma ContainsPrefix(p: string, rest: string)
    ensures Contains(p + rest, p)
  {
  }

  /** A non-empty needle can only be found where its first character occurs. */
  lemma {:induction false} ContainsFirstChar(s: string, sub: string)
    requires |sub| > 0 && Contains(s, sub)
    ensures sub[0] in s
    decreases |s|
  {
    if sub <= s {
      assert s[0] == sub[0];
    } else {
      ContainsFirstChar(s[1..], sub);
      assert s[1..] <= s || sub[0] in s[1..];
    }
  }
}
