/** Sorting by a caller's comparison, as the runtime's list sort does it. */
module Sorting {
  ghost predicate Ordered<T(!new)>(s: seq<T>, less: (T, T) -> bool) {
    forall i, j :: 0 <= i < j < |s| ==> less(s[i], s[j])
  }

  ghost predicate Distinct<T>(s: seq<T>) {
    forall i, j :: 0 <= i < j < |s| ==> s[i] != s[j]
  }

  /** The comparison orders any two different members one way. */
  ghost predicate Orders<T(!new)>(less: (T, T) -> bool, members: seq<T>) {
    && (forall x, y :: x in members && y in members && x != y ==> less(x, y) || less(y, x))
    && (forall x, y, z :: x in members && y in members && z in members && less(x, y) && less(y, z) ==> less(x, z))
  }

  /** The place where `x` belongs among members already in order. */
  method Place<T(!new)>(s: seq<T>, x: T, less: (T, T) -> bool) returns (k: nat)
    requires Ordered(s, less) && x !in s && Orders(less, s + [x])
    ensures k <= |s| && Ordered(s[..k] + [x] + s[k..], less)
  {
    k := 0;
    while k < |s| && less(s[k], x)
      invariant k <= |s| && forall i :: 0 <= i < k ==> less(s[i], x)
    {
      k := k + 1;
    }
    if k < |s| {
      assert s[k] in s + [x] && x in s + [x];
      forall i | k <= i < |s| ensures less(x, s[i]) {
        assert s[i] in s + [x];
      }
    }
  }

  method Sort<T(!new)>(members: seq<T>, less: (T, T) -> bool) returns (sorted: seq<T>)
    requires Distinct(members) && Orders(less, members)
    ensures Ordered(sorted, less) && Distinct(sorted) && |sorted| == |members|
    ensures forall x :: x in sorted <==> x in members
  {
    sorted := [];
    for n := 0 to |members|
      invariant Ordered(sorted, less) && Distinct(sorted) && |sorted| == n
      invariant forall x :: x in sorted <==> x in members[..n]
    {
      var x := members[n];
      assert forall y :: y in sorted + [x] ==> y in members;
      var k := Place(sorted, x, less);
      sorted := sorted[..k] + [x] + sorted[k..];
      assert members[..n + 1] == members[..n] + [x];
    }
    assert members[..|members|] == members;
  }
}
