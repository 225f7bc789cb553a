/** Sums over finite maps, and the ascending order of a finite set of numbers. */
module Collections {
  ghost function Sum<K>(sizes: map<K, nat>): nat {
    if sizes == map[] then 0
    else var k :| k in sizes; sizes[k] + Sum(sizes - {k})
  }

  lemma {:induction false} SumWithout<K>(sizes: map<K, nat>, key: K)
    requires key in sizes
    ensures Sum(sizes) == sizes[key] + Sum(sizes - {key})
    ensures |sizes| == |sizes - {key}| + 1
    decreases |sizes|
  {
    assert (sizes - {key}).Keys == sizes.Keys - {key};
    assert |sizes| == |sizes.Keys| && |sizes - {key}| == |(sizes - {key}).Keys|;
    var k :| k in sizes && Sum(sizes) == sizes[k] + Sum(sizes - {k});
    if k != key {
      assert (sizes - {k}).Keys == sizes.Keys - {k};
      assert |sizes - {k}| == |(sizes - {k}).Keys|;
      SumWithout(sizes - {k}, key);
      SumWithout(sizes - {key}, k);
      assert sizes - {k} - {key} == sizes - {key} - {k};
    }
  }

  lemma SumInsert<K>(sizes: map<K, nat>, key: K, size: nat)
    requires key !in sizes
    ensures Sum(sizes[key := size]) == Sum(sizes) + size && |sizes[key := size]| == |sizes| + 1
  {
    var updated := sizes[key := size];
    SumWithout(updated, key);
    assert updated - {key} == sizes;
  }

  lemma SumUpdate<K>(sizes: map<K, nat>, key: K, size: nat)
    ensures Sum(sizes[key := size]) == Sum(sizes) - (if key in sizes then sizes[key] else 0) + size
    ensures |sizes[key := size]| == |sizes| + (if key in sizes then 0 else 1)
  {
    if key in sizes {
      var others := sizes - {key};
      SumWithout(sizes, key);
      SumInsert(others, key, size);
      assert sizes[key := size] == others[key := size];
    } else {
      SumInsert(sizes, key, size);
    }
  }

  function Only<K, V>(m: map<K, V>, part: set<K>): map<K, V> { map k | k in m && k in part :: m[k] }

  lemma OnlyWithout<K>(sizes: map<K, nat>, part: set<K>, k: K)
    requires k in sizes && k in part
    ensures Sum(Only(sizes, part)) == sizes[k] + Sum(Only(sizes - {k}, part))
    ensures sizes - part == sizes - {k} - part
  {
    var only := Only(sizes, part);
    assert only - {k} == Only(sizes - {k}, part);
    SumWithout(only, k);
  }

  /** Splitting a map by its keys splits its sum. */
  lemma {:induction false} SumSplit<K>(sizes: map<K, nat>, part: set<K>)
    ensures Sum(sizes) == Sum(sizes - part) + Sum(Only(sizes, part))
    decreases |sizes|
  {
    var common := sizes.Keys * part;
    if common == {} {
      assert sizes - part == sizes;
      assert Only(sizes, part) == map[];
    } else {
      var k :| k in common;
      SumWithout(sizes, k);
      SumSplit(sizes - {k}, part);
      OnlyWithout(sizes, part, k);
    }
  }

  function SetOf<T(==)>(s: seq<T>): set<T> { set x | x in s }

  ghost predicate IsLeast(n: nat, s: set<nat>) {
    n in s && forall m :: m in s ==> n <= m
  }

  lemma {:induction false} HasLeast(s: set<nat>)
    requires s != {}
    ensures exists n :: IsLeast(n, s)
    decreases |s|
  {
    var k :| k in s;
    var rest := s - {k};
    assert forall m :: m in s ==> m == k || m in rest;
    if rest == {} {
      assert IsLeast(k, s);
    } else {
      HasLeast(rest);
      var n :| IsLeast(n, rest);
      assert IsLeast(if k < n then k else n, s);
    }
  }

  ghost function Least(s: set<nat>): (n: nat)
    requires s != {}
    ensures IsLeast(n, s)
  {
    HasLeast(s);
    var n :| IsLeast(n, s);
    n
  }

  /** The numbers of a set in ascending order. */
  ghost function Ascending(s: set<nat>): seq<nat>
    decreases |s|
  {
    if s == {} then [] else [Least(s)] + Ascending(s - {Least(s)})
  }

  lemma {:induction false} AscendingSpec(s: set<nat>)
    ensures |Ascending(s)| == |s|
    ensures forall n :: n in Ascending(s) <==> n in s
    ensures forall i, j :: 0 <= i < j < |Ascending(s)| ==> Ascending(s)[i] < Ascending(s)[j]
    decreases |s|
  {
    if s != {} {
      var n := Least(s);
      AscendingSpec(s - {n});
      forall m | m in Ascending(s - {n}) ensures n < m {
        assert m in s - {n};
      }
    }
  }

  /** Lists a set in ascending order, as `ORDER BY` does over distinct numbers. */
  method Sort(s: set<nat>) returns (sorted: seq<nat>)
    ensures sorted == Ascending(s)
  {
    sorted := [];
    var rest := s;
    while rest != {}
      invariant sorted + Ascending(rest) == Ascending(s)
      decreases |rest|
    {
      HasLeast(rest);
      var n: nat :| n in rest && forall m :: m in rest ==> n <= m;
      assert IsLeast(n, rest);
      assert n == Least(rest);
      sorted := sorted + [n];
      rest := rest - {n};
    }
  }

  lemma AscendingSet(s: set<nat>)
    ensures SetOf(Ascending(s)) == s
  {
    AscendingSpec(s);
  }

  lemma SetOfSplit<T>(s: seq<T>, i: nat, j: nat)
    requires i <= j <= |s|
    ensures SetOf(s[..j]) == SetOf(s[..i]) + SetOf(s[i..j])
    ensures SetOf(s[i..j]) <= SetOf(s)
  {
    assert s[..j] == s[..i] + s[i..j];
  }
}
