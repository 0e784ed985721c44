/**
 * Python's `list.sort(key=..., reverse=True)`, slicing `s[:k]`, and `min`/`max` of a list. The sort is modelled on
 * items decorated with their keys, as Python computes each key once: a stable insertion sort
 * into non-increasing key order, in which items with equal keys keep their order.
 */
module Ranking {

  /** Inserts `p` before the first item whose key is not greater than its own. */
  function Insert<T>(p: (real, T), s: seq<(real, T)>): seq<(real, T)>
  {
    if s == [] || s[0].0 <= p.0 then [p] + s else [s[0]] + Insert(p, s[1..])
  }

  /** `s` sorted by key, largest first, equal keys in their original order. */
  function SortDesc<T>(s: seq<(real, T)>): seq<(real, T)>
  {
    if s == [] then [] else Insert(s[0], SortDesc(s[1..]))
  }

  predicate SortedDesc<T>(s: seq<(real, T)>)
  {
    forall i, j :: 0 <= i < j < |s| ==> s[i].0 >= s[j].0
  }

  /** The items of `s` whose key is `k`, in order. */
  function WithKey<T>(s: seq<(real, T)>, k: real): seq<(real, T)>
  {
    if s == [] then []
    else (if s[0].0 == k then [s[0]] else []) + WithKey(s[1..], k)
  }

  /** The items, keys dropped. */
  function Items<T>(s: seq<(real, T)>): (r: seq<T>)
    ensures |r| == |s|
    ensures forall i :: 0 <= i < |s| ==> r[i] == s[i].1
  {
    if s == [] then [] else [s[0].1] + Items(s[1..])
  }

  lemma {:induction false} InsertPermutes<T>(p: (real, T), s: seq<(real, T)>)
    ensures multiset(Insert(p, s)) == multiset(s) + multiset{p}
  {
    if s != [] && s[0].0 > p.0 {
      InsertPermutes(p, s[1..]);
      assert s == [s[0]] + s[1..];
    }
  }

  lemma {:induction false} InsertSorted<T>(p: (real, T), s: seq<(real, T)>)
    requires SortedDesc(s)
    ensures SortedDesc(Insert(p, s))
  {
    if s != [] && s[0].0 > p.0 {
      InsertSorted(p, s[1..]);
      var r := Insert(p, s[1..]);
      InsertPermutes(p, s[1..]);
      forall j | 0 <= j < |r| ensures s[0].0 >= r[j].0 {
        assert r[j] in multiset(r);
        assert r[j] in multiset(s[1..]) || r[j] == p;
        if r[j] != p {
          var m :| 0 <= m < |s[1..]| && s[1..][m] == r[j];
          assert s[m + 1] == r[j];
        }
      }
    }
  }

  lemma {:induction false} InsertWithKey<T>(p: (real, T), s: seq<(real, T)>, k: real)
    ensures WithKey(Insert(p, s), k) == (if p.0 == k then [p] else []) + WithKey(s, k)
  {
    if s == [] || s[0].0 <= p.0 {
      WithKeyCons(p, s, k);
    } else {
      var r := Insert(p, s[1..]);
      InsertWithKey(p, s[1..], k);
      WithKeyCons(s[0], r, k);
      WithKeyCons(s[0], s[1..], k);
      assert [s[0]] + s[1..] == s;
      var a, b := if s[0].0 == k then [s[0]] else [], if p.0 == k then [p] else [];
      assert a == [] || b == [];
      assert a + (b + WithKey(s[1..], k)) == b + (a + WithKey(s[1..], k));
    }
  }

  /** The items with key `k` of a sequence that starts with `x`. */
  lemma WithKeyCons<T>(x: (real, T), s: seq<(real, T)>, k: real)
    ensures WithKey([x] + s, k) == (if x.0 == k then [x] else []) + WithKey(s, k)
  {
    assert ([x] + s)[1..] == s;
  }

  /** The sort's result is ordered by key, largest first. */
  lemma {:induction false} SortDescSorted<T>(s: seq<(real, T)>)
    ensures SortedDesc(SortDesc(s))
  {
    if s != [] {
      SortDescSorted(s[1..]);
      InsertSorted(s[0], SortDesc(s[1..]));
    }
  }

  /** The sort's result holds exactly the items it was given. */
  lemma {:induction false} SortDescPermutes<T>(s: seq<(real, T)>)
    ensures multiset(SortDesc(s)) == multiset(s)
  {
    if s != [] {
      SortDescPermutes(s[1..]);
      InsertPermutes(s[0], SortDesc(s[1..]));
      assert s == [s[0]] + s[1..];
    }
  }

  /** The sort is stable: the items sharing any one key appear in their original order. */
  lemma {:induction false} SortDescStable<T>(s: seq<(real, T)>, k: real)
    ensures WithKey(SortDesc(s), k) == WithKey(s, k)
  {
    if s != [] {
      SortDescStable(s[1..], k);
      InsertWithKey(s[0], SortDesc(s[1..]), k);
    }
  }

  /** `s[:k]` for any integer `k`: a negative `k` drops that many items from the end. */
  function Take<T>(s: seq<T>, k: int): (r: seq<T>)
    ensures |r| <= |s| && r == s[..|r|]
    ensures 0 <= k ==> |r| == if k < |s| then k else |s|
    ensures k < 0 ==> |r| == if |s| + k > 0 then |s| + k else 0
  {
    if k >= |s| then s
    else if k >= 0 then s[..k]
    else if |s| + k > 0 then s[..|s| + k]
    else []
  }

  /** `min(xs)`. */
  function Least(xs: seq<real>): (m: real)
    requires xs != []
    ensures m in xs
    ensures forall x :: x in xs ==> m <= x
  {
    if |xs| == 1 then xs[0]
    else
      assert forall x :: x in xs ==> x == xs[0] || x in xs[1..];
      var rest := Least(xs[1..]);
      if xs[0] <= rest then xs[0] else rest
  }

  /** `max(xs)`. */
  function Greatest(xs: seq<real>): (m: real)
    requires xs != []
    ensures m in xs
    ensures forall x :: x in xs ==> x <= m
  {
    if |xs| == 1 then xs[0]
    else
      assert forall x :: x in xs ==> x == xs[0] || x in xs[1..];
      var rest := Greatest(xs[1..]);
      if xs[0] >= rest then xs[0] else rest
  }
}
