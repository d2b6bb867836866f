/**
 The substring test the transient-error classifier relies on (Go's
 strings.Contains), given once as a recursive function and once as a
 reference definition by position, with a proof that the two agree.
 */
module Strings {

  /** `p` is a prefix of `s`. */
  predicate IsPrefix(p: string, s: string)
  {
    |p| <= |s| && s[..|p|] == p
  }

  /** `sub` occurs in `s` starting at index `i`. */
  predicate OccursAt(s: string, sub: string, i: int)
  {
    0 <= i && i + |sub| <= |s| && s[i..i + |sub|] == sub
  }

  /** Reference definition: `sub` occurs somewhere in `s`. */
  ghost predicate Occurs(s: string, sub: string)
  {
    exists i :: OccursAt(s, sub, i)
  }

  /**
   strings.Contains(s, sub): scan `s` from the left for a position where
   `sub` is a prefix of the remainder. The empty string is contained in
   every string.
   */
  predicate Contains(s: string, sub: string)
    decreases |s|
  {
    IsPrefix(sub, s) || (|s| > 0 && Contains(s[1..], sub))
  }

  lemma {:induction false} ContainsSound(s: string, sub: string)
    requires Contains(s, sub)
    ensures Occurs(s, sub)
    decreases |s|
  {
    if IsPrefix(sub, s) {
      assert OccursAt(s, sub, 0);
    } else {
      ContainsSound(s[1..], sub);
      var i :| OccursAt(s[1..], sub, i);
      assert s[1..][i..i + |sub|] == s[i + 1..i + 1 + |sub|];
      assert OccursAt(s, sub, i + 1);
    }
  }

  lemma {:induction false} ContainsComplete(s: string, sub: string, i: int)
    requires OccursAt(s, sub, i)
    ensures Contains(s, sub)
    decreases i
  {
    if i == 0 {
      assert IsPrefix(sub, s);
    } else {
      assert s[1..][i - 1..i - 1 + |sub|] == s[i..i + |sub|];
      ContainsComplete(s[1..], sub, i - 1);
    }
  }

  /** The recursive scan agrees with the reference definition, both ways. */
  lemma ContainsIffOccurs(s: string, sub: string)
    ensures Contains(s, sub) <==> Occurs(s, sub)
  {
    if Contains(s, sub) {
      ContainsSound(s, sub);
    }
    if Occurs(s, sub) {
      var i :| OccursAt(s, sub, i);
      ContainsComplete(s, sub, i);
    }
  }

  /** Whatever surrounds it, a string contains `sub` when `sub` is spliced into it. */
  lemma ContainsInfix(before: string, sub: string, after: string)
    ensures Contains(before + sub + after, sub)
  {
    var s := before + sub + after;
    assert s[|before|..|before| + |sub|] == sub;
    ContainsComplete(s, sub, |before|);
  }

  /** A `sub` longer than `s` is never contained in it. */
  lemma ContainsNeedsRoom(s: string, sub: string)
    requires |s| < |sub|
    ensures !Contains(s, sub)
  {
    if Contains(s, sub) {
      ContainsSound(s, sub);
    }
  }
}
