/** Helpers for the Java collections the engines read and iterate over. */
module Collections {
  import opened Wrappers

  /** The entry of `m` under `k`, as a Java `get`. */
  function Lookup<K, V>(m: map<K, V>, k: K): Option<V> {
    if k in m then Some(m[k]) else None
  }

  /** The entry under `k` and then `l` of a map of maps. */
  function Lookup2<K, L, V>(m: map<K, map<L, V>>, k: K, l: L): Option<V> {
    if k in m then Lookup(m[k], l) else None
  }

  /** Two maps with the same lookups are equal. */
  lemma LookupsEqual<K, V>(m: map<K, V>, n: map<K, V>)
    requires forall k :: Lookup(m, k) == Lookup(n, k)
    ensures m == n
  {
    assert m.Keys == n.Keys by {
      forall k ensures k in m <==> k in n {
        assert Lookup(m, k).Some? == Lookup(n, k).Some?;
      }
    }
    forall k | k in m ensures m[k] == n[k] {
      assert Lookup(m, k) == Lookup(n, k);
    }
  }

  /** An element of a non-empty set, as a `for` over a hash set takes the next one. */
  method Pick<T>(s: set<T>) returns (x: T)
    requires s != {}
    ensures x in s
  {
    x :| x in s;
  }

  /** The least element of a non-empty set of ids, as a `for` over a tree map's keys takes the next one. */
  method Least(s: set<int>) returns (x: int)
    requires s != {}
    ensures x in s && forall y | y in s :: x <= y
  {
    x := Pick(s);
    var rest := s - {x};
    while rest != {}
      invariant rest <= s && x in s
      invariant forall y | y in s && y !in rest :: x <= y
      decreases rest
    {
      var y := Pick(rest);
      if y < x {
        x := y;
      }
      rest := rest - {y};
    }
  }

  /** A fresh array holding the elements of `s`. */
  method ArrayOf(s: seq<real>) returns (a: array<real>)
    ensures fresh(a) && a[..] == s
  {
    a := new real[|s|];
    var i := 0;
    while i < |s|
      invariant 0 <= i <= |s|
      invariant a[..i] == s[..i]
    {
      a[i] := s[i];
      i := i + 1;
    }
  }
}
