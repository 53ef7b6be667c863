/** Python's `sub in s` test on strings, as a recursive scan, together with
    the positional definition it is proved equal to. */
module Substrings {

  /** `k` occurs in `s` starting at index `i`. */
  ghost predicate OccursAt(s: string, k: string, i: nat)
  {
    i + |k| <= |s| && s[i..i + |k|] == k
  }

  /** Reference definition of containment: some position holds `k`. */
  ghost predicate Mentions(s: string, k: string)
  {
    exists i: nat :: OccursAt(s, k, i)
  }

  /** `k in s`: try every start position from the left. */
  function Contains(s: string, k: string): (r: bool)
    ensures k <= s ==> r
    ensures r ==> |k| <= |s|
  {
    k <= s || (|s| > 0 && Contains(s[1..], k))
  }

  /** The scan finds exactly the positions of the reference definition. */
  lemma {:induction false} ContainsCorrect(s: string, k: string)
    ensures Contains(s, k) <==> Mentions(s, k)
  {
    if k <= s {
      assert OccursAt(s, k, 0);
    } else if |s| == 0 {
      assert forall i: nat :: !OccursAt(s, k, i);
    } else {
      ContainsCorrect(s[1..], k);
      if Contains(s[1..], k) {
        var i: nat :| OccursAt(s[1..], k, i);
        assert s[i + 1..i + 1 + |k|] == s[1..][i..i + |k|];
        assert OccursAt(s, k, i + 1);
      }
      if Mentions(s, k) {
        var i: nat :| OccursAt(s, k, i);
        assert i != 0;
        assert s[1..][i - 1..i - 1 + |k|] == s[i..i + |k|];
        assert OccursAt(s[1..], k, i - 1);
      }
    }
  }

  /** A non-empty `k` whose first character never appears in `p` cannot start
      inside `p`, so prefixing `p` neither creates nor hides an occurrence. */
  lemma {:induction false} ContainsAfterPrefix(p: string, e: string, k: string)
    requires |k| > 0 && k[0] !in p
    ensures Contains(p + e, k) <==> Contains(e, k)
  {
    if |p| > 0 {
      assert p[0] != k[0];
      assert !(k <= p + e);
      assert (p + e)[1..] == p[1..] + e;
      ContainsAfterPrefix(p[1..], e, k);
    } else {
      assert p + e == e;
    }
  }

  /** A non-empty `k` whose first character never appears in `s` is not in `s`. */
  lemma {:induction false} AbsentFirstChar(s: string, k: string)
    requires |k| > 0 && k[0] !in s
    ensures !Contains(s, k)
  {
    ContainsAfterPrefix(s, [], k);
    assert s + [] == s;
  }
}
