/** Small facts about sequences that the solver does not find on its own cheaply. */
module Seqs {
  lemma AppendAssoc<T>(a: seq<T>, b: seq<T>, c: seq<T>)
    ensures (a + b) + c == a + (b + c)
  {
  }

  /** Dropping the last element of a + b, for b non-empty, drops it from b. */
  lemma AppendDropLast<T>(a: seq<T>, b: seq<T>)
    requires b != []
    ensures (a + b)[..|a + b| - 1] == a + b[..|b| - 1]
    ensures (a + b)[|a + b| - 1] == b[|b| - 1]
  {
  }

  /**
   * Swapping s[k] with s[k + 1] moves s[k] one place right; dropping it
   * from there leaves what dropping it from s leaves, and nothing after it moves.
   */
  lemma SwapNext<T>(s: seq<T>, k: nat)
    requires k + 1 < |s|
    ensures var w := s[..k] + [s[k + 1], s[k]] + s[k + 2..];
      && |w| == |s| && w[k + 1] == s[k]
      && w[..k + 1] + w[k + 2..] == s[..k] + s[k + 1..]
      && (forall j :: k + 1 < j < |s| ==> w[j] == s[j])
  {
    var w := s[..k] + [s[k + 1], s[k]] + s[k + 2..];
    assert w[..k + 1] == s[..k] + [s[k + 1]];
    assert w[k + 2..] == s[k + 2..];
    assert s[k + 1..] == [s[k + 1]] + s[k + 2..];
    AppendAssoc(s[..k], [s[k + 1]], s[k + 2..]);
  }

  /**
   * When b is a reordering of a, its last element occurs in a, and dropping
   * one occurrence of it from each leaves reorderings of each other.
   */
  lemma PermutationDropLast<T>(a: seq<T>, b: seq<T>)
    requires b != [] && multiset(a) == multiset(b)
    ensures b[|b| - 1] in a
    ensures forall k :: 0 <= k < |a| && a[k] == b[|b| - 1] ==>
      multiset(a[..k] + a[k + 1..]) == multiset(b[..|b| - 1])
  {
    var m := |b| - 1;
    assert b == b[..m] + [b[m]];
    assert b[m] in multiset(a);
    forall k | 0 <= k < |a| && a[k] == b[m]
      ensures multiset(a[..k] + a[k + 1..]) == multiset(b[..m])
    {
      assert a == a[..k] + [a[k]] + a[k + 1..];
      assert multiset(a[..k] + a[k + 1..]) == multiset(a) - multiset{b[m]};
      assert multiset(b[..m]) == multiset(b) - multiset{b[m]};
    }
  }
}
