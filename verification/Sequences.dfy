/** Facts about sequences that several modules use. */
module Sequences {
  /** Takes the last element of one arrangement out of another. */
  lemma Rearranged<T>(a: seq<T>, b: seq<T>) returns (left: seq<T>, right: seq<T>)
    requires a != [] && multiset(a) == multiset(b)
    ensures b == left + [a[|a| - 1]] + right
    ensures multiset(a[..|a| - 1]) == multiset(left + right)
  {
    var x, init := a[|a| - 1], a[..|a| - 1];
    assert a == init + [x];
    assert x in multiset(b);
    var k :| 0 <= k < |b| && b[k] == x;
    left, right := b[..k], b[k + 1..];
    assert b == left + [x] + right;
    assert multiset(init) + multiset{x} == multiset(a);
    assert multiset(left + right) + multiset{x} == multiset(b);
    assert multiset(init) == multiset(a) - multiset{x};
    assert multiset(left + right) == multiset(b) - multiset{x};
  }
}
