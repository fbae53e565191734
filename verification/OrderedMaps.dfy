/**
 A map that remembers the order in which its keys were first set: what a
 JavaScript `Map` is. Setting a present key keeps its place, and the first
 key is the oldest one.
 */
module OrderedMaps {

  datatype OrderedMap<K(==), V> = OrderedMap(keys: seq<K>, vals: map<K, V>) {
    ghost predicate Valid() {
      && NoDup(keys)
      && (forall k <- keys :: k in vals)
      && (forall k <- vals :: k in keys)
    }
  }

  ghost predicate NoDup<K>(s: seq<K>) {
    forall i, j :: 0 <= i < j < |s| ==> s[i] != s[j]
  }

  type OMap<K(==), V> = m: OrderedMap<K, V> | m.Valid() witness OrderedMap([], map[])

  function Empty<K(==), V>(): OMap<K, V> {
    OrderedMap([], map[])
  }

  function Put<K(==), V>(m: OMap<K, V>, k: K, v: V): (r: OMap<K, V>)
    ensures r.vals == m.vals[k := v]
    ensures r.keys == if k in m.vals then m.keys else m.keys + [k]
  {
    OrderedMap(if k in m.vals then m.keys else m.keys + [k], m.vals[k := v])
  }

  /** `set`, then, over `cap` entries, the oldest one is deleted. */
  function PutCapped<K(==), V>(m: OMap<K, V>, k: K, v: V, cap: nat): (r: OMap<K, V>)
    ensures |m.keys| <= cap ==> |r.keys| <= cap
    ensures forall x <- r.vals :: x == k || x in m.vals
    ensures forall x <- r.vals :: r.vals[x] == if x == k then v else m.vals[x]
    ensures 0 < cap && k !in m.vals && |m.keys| <= cap ==> k in r.vals
  {
    var p := Put(m, k, v);
    if |p.keys| > cap then DropFirst(p) else p
  }

  function DropFirst<K(==), V>(m: OMap<K, V>): (r: OMap<K, V>)
    requires m.keys != []
    ensures r.keys == m.keys[1..]
    ensures r.vals == m.vals - {m.keys[0]}
  {
    var r := OrderedMap(m.keys[1..], m.vals - {m.keys[0]});
    assert forall k <- m.keys :: k == m.keys[0] || k in m.keys[1..];
    r
  }

  function Delete<K(==), V>(m: OMap<K, V>, k: K): (r: OMap<K, V>)
    ensures r.vals == m.vals - {k}
    ensures k !in m.vals ==> r == m
  {
    if k !in m.vals then m
    else OrderedMap(Without(m.keys, k), m.vals - {k})
  }

  /** `s` with every occurrence of `k` left out, the rest in order. */
  function Without<K(==)>(s: seq<K>, k: K): (r: seq<K>)
    ensures (forall x <- r :: x in s && x != k) && (forall x <- s :: x != k ==> x in r)
    ensures NoDup(s) ==> NoDup(r)
  {
    if s == [] then []
    else if s[0] == k then Without(s[1..], k)
    else
      var rest := Without(s[1..], k);
      assert NoDup(s) ==> NoDup(s[1..]) && s[0] !in s[1..];
      [s[0]] + rest
  }

  /** The same keys in the same order, under other values. */
  function WithVals<K(==), V>(m: OMap<K, V>, vals: map<K, V>): (r: OMap<K, V>)
    requires vals.Keys == m.vals.Keys
    ensures r.keys == m.keys && r.vals == vals
  {
    OrderedMap(m.keys, vals)
  }

  /** The elements of `s` that satisfy `p`, in order. */
  function Filter<T>(s: seq<T>, p: T -> bool): (r: seq<T>)
    ensures forall x <- r :: x in s && p(x)
    ensures forall x <- s :: p(x) ==> x in r
  {
    if s == [] then []
    else
      var last := s[|s| - 1];
      Filter(s[..|s| - 1], p) + if p(last) then [last] else []
  }

  lemma FilterNext<T>(s: seq<T>, i: nat, p: T -> bool)
    requires i < |s|
    ensures Filter(s[..i + 1], p) == Filter(s[..i], p) + if p(s[i]) then [s[i]] else []
  {
    assert s[..i + 1][..i] == s[..i];
  }

  lemma FilterLast<T>(s: seq<T>, x: T, p: T -> bool)
    ensures Filter(s + [x], p) == Filter(s, p) + if p(x) then [x] else []
  {
    assert (s + [x])[..|s|] == s;
  }

  lemma Last<T>(a: seq<T>, b: seq<T>)
    requires b != []
    ensures a + b == a + b[..|b| - 1] + [b[|b| - 1]]
  {}

  lemma Nothing<T>(a: seq<T>)
    ensures a + [] == a && [] + a == a
  {}

  lemma Assoc<T>(a: seq<T>, b: seq<T>, c: seq<T>)
    ensures a + b + c == a + (b + c)
  {}

  lemma {:induction false} FilterConcat<T>(a: seq<T>, b: seq<T>, p: T -> bool)
    ensures Filter(a + b, p) == Filter(a, p) + Filter(b, p)
  {
    if b == [] {
      assert a + b == a;
    } else {
      var init, last := b[..|b| - 1], b[|b| - 1];
      Last(a, b);
      Last([], b);
      Nothing(b);
      Nothing(init);
      hide *;
      FilterConcat(a, init, p);
      FilterLast(a + init, last, p);
      FilterLast(init, last, p);
      Assoc(Filter(a, p), Filter(init, p), if p(last) then [last] else []);
    }
  }

  lemma {:induction false} FilterAll<T>(s: seq<T>, p: T -> bool)
    requires forall i :: 0 <= i < |s| ==> p(s[i])
    ensures Filter(s, p) == s
  {
    if s != [] {
      var init, last := s[..|s| - 1], s[|s| - 1];
      assert p(last);
      Last([], s);
      Nothing(s);
      Nothing(init);
      hide *;
      FilterAll(init, p);
      FilterLast(init, last, p);
    }
  }

  lemma {:induction false} FilterSame<T>(s: seq<T>, p: T -> bool, q: T -> bool)
    requires forall x <- s :: p(x) == q(x)
    ensures Filter(s, p) == Filter(s, q)
  {
    if s != [] {
      FilterSame(s[..|s| - 1], p, q);
    }
  }

  lemma {:induction false} FilterOnce<T>(s: seq<T>, p: T -> bool)
    requires NoDup(s)
    ensures NoDup(Filter(s, p))
  {
    if s != [] {
      var init := s[..|s| - 1];
      FilterOnce(init, p);
      assert s[|s| - 1] !in init;
    }
  }
}
