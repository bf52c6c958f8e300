/**
 * A plain JavaScript object used as a dictionary (`obj[k] = (obj[k] || 0) + v`):
 * a sequence of key/value pairs in insertion order, each key at most once.
 * Every key the program uses is a non-numeric string, so the object's key order
 * is its insertion order.
 */
module AssocList {
  import opened Wrappers

  type Dict<K, V> = seq<(K, V)>

  function Keys<K, V>(d: seq<(K, V)>): (ks: seq<K>)
    ensures |ks| == |d|
    ensures forall i :: 0 <= i < |d| ==> ks[i] == d[i].0
  {
    seq(|d|, i requires 0 <= i < |d| => d[i].0)
  }

  function Values<K, V>(d: seq<(K, V)>): (vs: seq<V>)
    ensures |vs| == |d|
    ensures forall i :: 0 <= i < |d| ==> vs[i] == d[i].1
  {
    seq(|d|, i requires 0 <= i < |d| => d[i].1)
  }

  ghost predicate Distinct<K>(ks: seq<K>) {
    forall i, j :: 0 <= i < j < |ks| ==> ks[i] != ks[j]
  }

  /** A duplicate-free sequence has as many elements as its set. */
  lemma {:induction false} DistinctCard<K>(ks: seq<K>)
    requires Distinct(ks)
    ensures |set x | x in ks| == |ks|
  {
    if ks != [] {
      var init := ks[..|ks| - 1];
      var k := ks[|ks| - 1];
      DistinctCard(init);
      assert ks == init + [k];
      assert (set x | x in ks) == (set x | x in init) + {k};
    }
  }

  /** Sum of a sequence of integers (`reduce((a, b) => a + b, 0)`). */
  function Sum(s: seq<int>): int {
    if s == [] then 0 else Sum(s[..|s| - 1]) + s[|s| - 1]
  }

  /** The distinct elements of `ks`, each at the position of its first occurrence. */
  function FirstSeen<K(==, !new)>(ks: seq<K>): (r: seq<K>)
    ensures Distinct(r)
    ensures forall x :: x in r <==> x in ks
    ensures |r| <= |ks|
  {
    if ks == [] then []
    else
      var p := FirstSeen(ks[..|ks| - 1]);
      var k := ks[|ks| - 1];
      assert forall x :: x in ks <==> x in ks[..|ks| - 1] || x == k by {
        assert ks == ks[..|ks| - 1] + [k];
      }
      if k in p then p else p + [k]
  }

  /** Index of the first occurrence of `x` in `ks`. */
  function IndexOf<K(==)>(ks: seq<K>, x: K): (i: nat)
    requires x in ks
    ensures i < |ks| && ks[i] == x
    ensures forall j :: 0 <= j < i ==> ks[j] != x
  {
    if ks[0] == x then 0 else 1 + IndexOf(ks[1..], x)
  }

  /** Elements of `FirstSeen(ks)` appear in the order of their first occurrence in `ks`. */
  lemma {:induction false} FirstSeenOrder<K(!new)>(ks: seq<K>, i: nat, j: nat)
    requires i < j < |FirstSeen(ks)|
    ensures IndexOf(ks, FirstSeen(ks)[i]) < IndexOf(ks, FirstSeen(ks)[j])
  {
    var init := ks[..|ks| - 1];
    var k := ks[|ks| - 1];
    var p := FirstSeen(init);
    assert ks == init + [k];
    var a, b := FirstSeen(ks)[i], FirstSeen(ks)[j];
    assert a in p;
    if j < |p| {
      FirstSeenOrder(init, i, j);
      IndexOfPrefix(init, k, a);
      IndexOfPrefix(init, k, b);
    } else {
      // b is the new key k, which does not occur in init
      assert b == k && k !in init;
      IndexOfPrefix(init, k, a);
      assert IndexOf(ks, b) == |init|;
    }
  }

  lemma IndexOfPrefix<K>(init: seq<K>, k: K, x: K)
    requires x in init
    ensures IndexOf(init + [k], x) == IndexOf(init, x)
  {
    var s := init + [k];
    var i := IndexOf(init, x);
    assert s[i] == init[i];
    var n := IndexOf(s, x);
    assert s[n] == init[n];
  }

  /** First position of key `k` in `d` (a property lookup `obj[k]`). */
  function Find<K(==), V>(d: seq<(K, V)>, k: K): (r: Option<nat>)
    ensures r.Some? ==> r.value < |d| && d[r.value].0 == k
    ensures r.None? <==> k !in Keys(d)
  {
    if d == [] then None
    else if d[0].0 == k then Some(0)
    else
      match Find(d[1..], k)
      case Some(j) => Some(j + 1)
      case None =>
        assert Keys(d) == [d[0].0] + Keys(d[1..]);
        None
  }

  /** `obj[k]`: the value stored under `k`, or `undefined`. */
  function Lookup<K(==), V>(d: seq<(K, V)>, k: K): (r: Option<V>)
    ensures r.Some? <==> k in Keys(d)
    ensures r.Some? ==> exists i :: 0 <= i < |d| && d[i] == (k, r.value)
  {
    match Find(d, k)
    case Some(j) => Some(d[j].1)
    case None => None
  }

  /** `obj[k] = (obj[k] || 0) + v`: add `v` to the entry for `k`, creating it at the end if absent. */
  function Add<K(==)>(d: seq<(K, int)>, k: K, v: int): seq<(K, int)> {
    match Find(d, k)
    case Some(j) => d[j := (k, d[j].1 + v)]
    case None => d + [(k, v)]
  }

  /** Sum of the values in `ps` stored under key `k`. */
  function SumFor<K(==)>(ps: seq<(K, int)>, k: K): int {
    if ps == [] then 0
    else SumFor(ps[..|ps| - 1], k) + (if ps[|ps| - 1].0 == k then ps[|ps| - 1].1 else 0)
  }

  /**
   * The dictionary a `forEach` that does `obj[k] = (obj[k] || 0) + v` over `ps`
   * produces: every key of `ps` once, in first-seen order, with its sum.
   */
  function Totals<K(==, !new)>(ps: seq<(K, int)>): (d: Dict<K, int>)
    ensures Keys(d) == FirstSeen(Keys(ps))
  {
    var ks := FirstSeen(Keys(ps));
    seq(|ks|, i requires 0 <= i < |ks| => (ks[i], SumFor(ps, ks[i])))
  }

  lemma {:induction false} SumForAbsent<K>(ps: seq<(K, int)>, k: K)
    requires k !in Keys(ps)
    ensures SumFor(ps, k) == 0
  {
    if ps != [] {
      assert Keys(ps[..|ps| - 1]) == Keys(ps)[..|ps| - 1];
      SumForAbsent(ps[..|ps| - 1], k);
    }
  }

  /** One step of the accumulating `forEach`: folding one more pair into the totals. */
  lemma {:induction false} AddTotals<K(!new)>(ps: seq<(K, int)>, k: K, v: int)
    ensures Add(Totals(ps), k, v) == Totals(ps + [(k, v)])
  {
    var qs := ps + [(k, v)];
    assert qs[..|qs| - 1] == ps;
    assert Keys(qs) == Keys(ps) + [k];
    assert Keys(qs)[..|qs| - 1] == Keys(ps);
    var ks := FirstSeen(Keys(ps));
    var d := Totals(ps);
    var e := Totals(qs);
    assert forall x :: SumFor(qs, x) == SumFor(ps, x) + (if x == k then v else 0);
    match Find(d, k)
    case Some(j) =>
      assert k in ks;
      assert Keys(e) == ks;
      var a := Add(d, k, v);
      assert |a| == |e|;
      forall i | 0 <= i < |e| ensures a[i] == e[i] {
        if i != j { assert ks[i] != k; }
      }
    case None =>
      assert k !in ks;
      assert k !in Keys(ps);
      SumForAbsent(ps, k);
      assert Keys(e) == ks + [k];
  }

  /** The dictionary's values add up to the sum of all amounts folded into it. */
  lemma {:induction false} TotalsSum<K(!new)>(ps: seq<(K, int)>)
    ensures Sum(Values(Totals(ps))) == Sum(Values(ps))
  {
    if ps != [] {
      var init := ps[..|ps| - 1];
      var (k, v) := ps[|ps| - 1];
      assert ps == init + [(k, v)];
      TotalsSum(init);
      AddTotals(init, k, v);
      AddSum(Totals(init), k, v);
      assert Values(ps)[..|ps| - 1] == Values(init);
    }
  }

  lemma AddSum<K>(d: seq<(K, int)>, k: K, v: int)
    ensures Sum(Values(Add(d, k, v))) == Sum(Values(d)) + v
  {
    match Find(d, k)
    case Some(j) =>
      assert Values(Add(d, k, v)) == Values(d)[j := d[j].1 + v];
      SumUpdate(Values(d), j, d[j].1 + v);
    case None =>
      assert Values(d + [(k, v)])[..|d|] == Values(d);
  }

  lemma {:induction false} SumUpdate(s: seq<int>, j: nat, x: int)
    requires j < |s|
    ensures Sum(s[j := x]) == Sum(s) - s[j] + x
  {
    var t := s[j := x];
    if j < |s| - 1 {
      assert t[..|t| - 1] == s[..|s| - 1][j := x];
      SumUpdate(s[..|s| - 1], j, x);
    } else {
      assert t[..|t| - 1] == s[..|s| - 1];
    }
  }

  /** Looking a key up in the totals yields its sum exactly when the key occurs. */
  lemma TotalsLookup<K(!new)>(ps: seq<(K, int)>, k: K)
    ensures Lookup(Totals(ps), k) == if k in Keys(ps) then Some(SumFor(ps, k)) else None
  {
    var d := Totals(ps);
    if k in Keys(ps) {
      var j := Find(d, k).value;
      assert d[j] == (k, SumFor(ps, k));
    }
  }

  /**
   * The accumulating `forEach` itself: starts from `{}` and folds every pair in order.
   */
  method Tally<K(==, !new)>(ps: seq<(K, int)>) returns (d: Dict<K, int>)
    ensures d == Totals(ps)
  {
    d := [];
    var i := 0;
    while i < |ps|
      invariant 0 <= i <= |ps|
      invariant d == Totals(ps[..i])
    {
      AddTotals(ps[..i], ps[i].0, ps[i].1);
      assert ps[..i + 1] == ps[..i] + [ps[i]];
      d := Add(d, ps[i].0, ps[i].1);
      i := i + 1;
    }
    assert ps[..i] == ps;
  }
}
