/** Order-preserving filtering, the list comprehension
    `[x for x in xs if keep(x)]` the views use to drop cart lines and
    library entries. */
module Seqs {

  function Filter<T>(keep: T -> bool, s: seq<T>): (r: seq<T>)
    ensures |r| <= |s|
    ensures forall i :: 0 <= i < |r| ==> r[i] in s && keep(r[i])
    ensures forall i :: 0 <= i < |s| && keep(s[i]) ==> s[i] in r
  {
    if s == [] then []
    else if keep(s[0]) then [s[0]] + Filter(keep, s[1..])
    else Filter(keep, s[1..])
  }

  /** Filtering distributes over concatenation: kept elements stay in their
      original relative order. */
  lemma {:induction false} FilterConcat<T>(keep: T -> bool, a: seq<T>, b: seq<T>)
    ensures Filter(keep, a + b) == Filter(keep, a) + Filter(keep, b)
  {
    if a == [] {
      assert a + b == b;
    } else {
      assert (a + b)[1..] == a[1..] + b;
      FilterConcat(keep, a[1..], b);
    }
  }

  /** When every element is kept, nothing changes. */
  lemma {:induction false} FilterKeepsAll<T>(keep: T -> bool, s: seq<T>)
    requires forall i :: 0 <= i < |s| ==> keep(s[i])
    ensures Filter(keep, s) == s
  {
    if s != [] {
      FilterKeepsAll(keep, s[1..]);
    }
  }

  /** No two elements share a key. */
  predicate DistinctKeys<T, K(==)>(key: T -> K, s: seq<T>) {
    forall p, q :: 0 <= p < q < |s| ==> key(s[p]) != key(s[q])
  }

  /** Filtering keeps keys distinct. */
  lemma {:induction false} FilterDistinctKeys<T, K>(keep: T -> bool, key: T -> K, s: seq<T>)
    requires DistinctKeys(key, s)
    ensures DistinctKeys(key, Filter(keep, s))
  {
    if s != [] {
      var t := Filter(keep, s[1..]);
      assert DistinctKeys(key, s[1..]) by {
        forall p, q | 0 <= p < q < |s[1..]|
          ensures key(s[1..][p]) != key(s[1..][q])
        {
          assert s[1..][p] == s[p + 1] && s[1..][q] == s[q + 1];
        }
      }
      FilterDistinctKeys(keep, key, s[1..]);
      if keep(s[0]) {
        var r := [s[0]] + t;
        forall p, q | 0 <= p < q < |r|
          ensures key(r[p]) != key(r[q])
        {
          if p == 0 {
            assert r[q] == t[q - 1];
            assert t[q - 1] in s[1..];
            var m :| 0 <= m < |s[1..]| && s[1..][m] == t[q - 1];
            assert s[m + 1] == r[q];
          } else {
            assert r[p] == t[p - 1] && r[q] == t[q - 1];
          }
        }
      }
    }
  }

  /** No element occurs twice: distinct under the identity key. */
  predicate Distinct<T(==)>(s: seq<T>) {
    DistinctKeys(Self, s)
  }

  function Self<T>(x: T): T {
    x
  }
}
