/**
 * Appending the elements of one list to another one at a time, as the loops of both
 * programs do (push_back in C++, append in Python), and the facts about rearranged
 * lists that the model's sums need.
 */
module Lists {
  /** xs with the elements of ys appended one by one. */
  method AppendEach<T>(xs: seq<T>, ys: seq<T>) returns (r: seq<T>)
    ensures r == xs + ys
  {
    r := xs;
    for k := 0 to |ys|
      invariant r == xs + ys[..k]
    {
      r := r + [ys[k]];
    }
    assert ys[..|ys|] == ys;
  }

  /** Where two lists hold the same elements, the last element of the first sits at some
      index of the second, and the rest of the first holds the same elements as the
      second without that index. */
  lemma MatchLast<T>(a: seq<T>, b: seq<T>) returns (k: nat)
    requires |a| > 0 && multiset(a) == multiset(b)
    ensures k < |b| && b[k] == a[|a| - 1]
    ensures multiset(a[..|a| - 1]) == multiset(b[..k] + b[k + 1..])
  {
    var x := a[|a| - 1];
    var a' := a[..|a| - 1];
    assert a == a' + [x];
    assert x in multiset(b);
    k :| 0 <= k < |b| && b[k] == x;
    var rest := b[..k] + b[k + 1..];
    assert b == b[..k] + [x] + b[k + 1..];
    assert multiset(a) == multiset(a') + multiset{x};
    assert multiset(b) == multiset(b[..k]) + multiset{x} + multiset(b[k + 1..]);
    assert multiset(rest) == multiset(b[..k]) + multiset(b[k + 1..]);
    assert multiset(a') == multiset(rest) by {
      forall z
        ensures multiset(a')[z] == multiset(rest)[z]
      {
        assert multiset(a)[z] == multiset(a')[z] + multiset{x}[z];
        assert multiset(b)[z] == multiset(b[..k])[z] + multiset{x}[z] + multiset(b[k + 1..])[z];
      }
    }
  }
}
