/**
 * `get_statistics`: counts, the sum, mean, least and greatest of the derived amounts, and
 * the number of records of each type, as functions of the records in store order.
 */
module Statistics {
  import opened Wrappers
  import opened Documents
  import opened Ranking

  /** The dictionary `get_statistics` returns; `min_amount` and `max_amount` are absent without amounts. */
  datatype Stats = Stats(
    totalDocuments: nat,
    documentsWithAmounts: nat,
    totalAmount: real,
    averageAmount: real,
    documentTypes: seq<(string, nat)>,   // `doc_types`, in first-seen order
    minAmount: Option<real>,
    maxAmount: Option<real>)

  /** The derived amounts of the records that have one, in store order (the `amounts` list). */
  function AmountsOf(docs: seq<Document>): (r: seq<real>)
    ensures |r| <= |docs|
  {
    if docs == [] then []
    else
      var d := docs[|docs| - 1];
      AmountsOf(docs[..|docs| - 1]) + (match Amount(d) case Some(a) => [a] case None => [])
  }

  /** The sum of `xs`, added left to right. */
  function Sum(xs: seq<real>): real
  {
    if xs == [] then 0.0 else Sum(xs[..|xs| - 1]) + xs[|xs| - 1]
  }

  /** The count recorded for type `t` (`doc_types.get(t, 0)`). */
  function Lookup(types: seq<(string, nat)>, t: string): nat
  {
    if types == [] then 0
    else if types[0].0 == t then types[0].1
    else Lookup(types[1..], t)
  }

  /** `doc_types[t] = doc_types.get(t, 0) + 1`: an existing key keeps its place, a new one goes last. */
  function Bump(types: seq<(string, nat)>, t: string): seq<(string, nat)>
  {
    if types == [] then [(t, 1)]
    else if types[0].0 == t then [(t, types[0].1 + 1)] + types[1..]
    else [types[0]] + Bump(types[1..], t)
  }

  /** The per-type counts after visiting `docs` in order. */
  function TypeCounts(docs: seq<Document>): seq<(string, nat)>
  {
    if docs == [] then [] else Bump(TypeCounts(docs[..|docs| - 1]), docs[|docs| - 1].docType)
  }

  /** The record types, in store order. */
  function TypesOf(docs: seq<Document>): (r: seq<string>)
    ensures |r| == |docs|
    ensures forall i :: 0 <= i < |docs| ==> r[i] == docs[i].docType
  {
    if docs == [] then [] else TypesOf(docs[..|docs| - 1]) + [docs[|docs| - 1].docType]
  }

  /** The keys of `types`, in order. */
  function Keys(types: seq<(string, nat)>): (r: seq<string>)
    ensures |r| == |types|
    ensures forall i :: 0 <= i < |types| ==> r[i] == types[i].0
  {
    if types == [] then [] else [types[0].0] + Keys(types[1..])
  }

  predicate Distinct(ks: seq<string>)
  {
    forall i, j :: 0 <= i < j < |ks| ==> ks[i] != ks[j]
  }

  /** The distinct elements of `s`, in the order of their first occurrence. */
  function FirstSeen(s: seq<string>): seq<string>
  {
    if s == [] then []
    else
      var seen := FirstSeen(s[..|s| - 1]);
      if s[|s| - 1] in seen then seen else seen + [s[|s| - 1]]
  }

  function SumCounts(types: seq<(string, nat)>): nat
  {
    if types == [] then 0 else types[0].1 + SumCounts(types[1..])
  }

  /** Dividing by a positive count and multiplying back gives the total again. */
  lemma AverageTimesCount(total: real, n: real)
    requires n > 0.0
    ensures (total / n) * n == total
  {
  }

  /** The mean of `count` amounts totalling `total`, or 0 when there are none. */
  function Average(total: real, count: nat): (r: real)
    ensures count > 0 ==> r * count as real == total
    ensures count == 0 ==> r == 0.0
  {
    if count > 0 then AverageTimesCount(total, count as real); total / count as real else 0.0
  }

  /**
   * What `get_statistics()` returns for the records `docs`, in store order. No more records
   * have amounts than there are records; the average is the mean over the records with
   * amounts; with none, the total is 0 and there is no minimum; the minimum and the maximum
   * are present together, in order.
   */
  function StatsOf(docs: seq<Document>): (s: Stats)
    ensures s.totalDocuments == |docs| && s.documentsWithAmounts <= s.totalDocuments
    ensures s.averageAmount == Average(s.totalAmount, s.documentsWithAmounts)
    ensures s.documentsWithAmounts == 0 ==> s.totalAmount == 0.0 && s.minAmount.None?
    ensures s.minAmount.Some? <==> s.maxAmount.Some?
    ensures s.minAmount.Some? ==> s.minAmount.value <= s.maxAmount.value
  {
    var amounts := AmountsOf(docs);
    var total := Sum(amounts);
    Stats(
      |docs|,
      |amounts|,
      total,
      Average(total, |amounts|),
      TypeCounts(docs),
      if amounts != [] then Some(Least(amounts)) else None,
      if amounts != [] then Some(Greatest(amounts)) else None)
  }

  /** Every entry of the amounts list is the derived amount of some record. */
  lemma {:induction false} AmountsOfSound(docs: seq<Document>, x: real)
    requires x in AmountsOf(docs)
    ensures exists i :: 0 <= i < |docs| && Amount(docs[i]) == Some(x)
  {
    var init := docs[..|docs| - 1];
    if x in AmountsOf(init) {
      AmountsOfSound(init, x);
      var i :| 0 <= i < |init| && Amount(init[i]) == Some(x);
      assert docs[i] == init[i];
    } else {
      assert Amount(docs[|docs| - 1]) == Some(x);
    }
  }

  /** Every record's derived amount is in the amounts list. */
  lemma {:induction false} AmountsOfComplete(docs: seq<Document>, i: int)
    requires 0 <= i < |docs| && Amount(docs[i]).Some?
    ensures Amount(docs[i]).value in AmountsOf(docs)
  {
    var init := docs[..|docs| - 1];
    if i < |init| {
      assert init[i] == docs[i];
      AmountsOfComplete(init, i);
    }
  }

  /** The amounts list holds exactly the derived amounts of the records that have one. */
  lemma AmountsOfMeaning(docs: seq<Document>)
    ensures forall x :: x in AmountsOf(docs) <==> exists i :: 0 <= i < |docs| && Amount(docs[i]) == Some(x)
    ensures AmountsOf(docs) == [] <==> forall i :: 0 <= i < |docs| ==> Amount(docs[i]).None?
  {
    forall x | x in AmountsOf(docs) ensures exists i :: 0 <= i < |docs| && Amount(docs[i]) == Some(x) {
      AmountsOfSound(docs, x);
    }
    forall i | 0 <= i < |docs| && Amount(docs[i]).Some? ensures Amount(docs[i]).value in AmountsOf(docs) {
      AmountsOfComplete(docs, i);
    }
    if AmountsOf(docs) != [] {
      assert AmountsOf(docs)[0] in AmountsOf(docs);
    }
  }

  /** A sum lies between the count times the least and the count times the greatest term. */
  lemma {:induction false} SumBounds(xs: seq<real>, lo: real, hi: real)
    requires forall x :: x in xs ==> lo <= x <= hi
    ensures |xs| as real * lo <= Sum(xs) <= |xs| as real * hi
  {
    if xs != [] {
      var init := xs[..|xs| - 1];
      assert forall x :: x in init ==> x in xs;
      assert xs[|xs| - 1] in xs;
      SumBounds(init, lo, hi);
    }
  }

  /** Bumping `t` keeps the keys in place and appends `t` when it is new. */
  lemma {:induction false} BumpKeys(types: seq<(string, nat)>, t: string)
    ensures Keys(Bump(types, t)) == if t in Keys(types) then Keys(types) else Keys(types) + [t]
  {
    if types != [] {
      BumpKeys(types[1..], t);
      assert Keys(types) == [types[0].0] + Keys(types[1..]);
    }
  }

  /** Bumping `t` adds one to its count and leaves every other count alone. */
  lemma {:induction false} BumpLookup(types: seq<(string, nat)>, t: string, u: string)
    ensures Lookup(Bump(types, t), u) == Lookup(types, u) + (if u == t then 1 else 0)
  {
    if types != [] && types[0].0 != t {
      BumpLookup(types[1..], t, u);
    }
  }

  /** Bumping adds one to the total of the counts. */
  lemma {:induction false} BumpSum(types: seq<(string, nat)>, t: string)
    ensures SumCounts(Bump(types, t)) == SumCounts(types) + 1
  {
    if types != [] && types[0].0 != t {
      BumpSum(types[1..], t);
    }
  }

  /** Appending a new element keeps a sequence distinct. */
  lemma DistinctAppend(ks: seq<string>, t: string)
    requires Distinct(ks) && t !in ks
    ensures Distinct(ks + [t])
  {
  }

  /**
   * `doc_types` counts every record once: its keys are the record types in the order they are
   * first seen, each with the number of records of that type, and the counts add up to the
   * number of records.
   */
  lemma {:induction false} TypeCountsMeaning(docs: seq<Document>)
    ensures Keys(TypeCounts(docs)) == FirstSeen(TypesOf(docs))
    ensures Distinct(Keys(TypeCounts(docs)))
    ensures forall t :: Lookup(TypeCounts(docs), t) == multiset(TypesOf(docs))[t]
    ensures SumCounts(TypeCounts(docs)) == |docs|
  {
    if docs != [] {
      var init := docs[..|docs| - 1];
      var t := docs[|docs| - 1].docType;
      TypeCountsMeaning(init);
      var before := TypeCounts(init);
      BumpKeys(before, t);
      BumpSum(before, t);
      assert TypesOf(docs) == TypesOf(init) + [t];
      assert TypesOf(docs)[..|docs| - 1] == TypesOf(init);
      if t !in Keys(before) {
        DistinctAppend(Keys(before), t);
      }
      forall u ensures Lookup(TypeCounts(docs), u) == multiset(TypesOf(docs))[u] {
        BumpLookup(before, t, u);
      }
    }
  }

  /** The mean of a non-empty list lies between its least and greatest element. */
  lemma {:induction false} AverageBounds(xs: seq<real>)
    requires xs != []
    ensures Least(xs) <= Average(Sum(xs), |xs|) <= Greatest(xs)
  {
    var lo, hi := Least(xs), Greatest(xs);
    SumBounds(xs, lo, hi);
    DivisionBounds(Sum(xs), |xs| as real, lo, hi);
  }

  /** `lo <= s / n <= hi` when `n * lo <= s <= n * hi` and `n > 0`. */
  lemma {:induction false} DivisionBounds(s: real, n: real, lo: real, hi: real)
    requires n > 0.0
    requires n * lo <= s <= n * hi
    ensures lo <= s / n <= hi
  {
    var q := s / n;
    assert q * n == s;
    assert (q - lo) * n == s - n * lo;
    assert (hi - q) * n == n * hi - s;
  }

  /** The least and greatest amounts are present exactly when some record has an amount. */
  lemma {:induction false} StatsExtremesPresent(docs: seq<Document>)
    ensures StatsOf(docs).minAmount.Some? <==> exists i :: 0 <= i < |docs| && Amount(docs[i]).Some?
    ensures StatsOf(docs).maxAmount.Some? <==> StatsOf(docs).minAmount.Some?
  {
    AmountsOfMeaning(docs);
  }

  /**
   * The least and greatest amounts are amounts of records, bound every record's amount,
   * and bound the average.
   */
  lemma {:induction false} StatsExtremes(docs: seq<Document>)
    requires StatsOf(docs).minAmount.Some?
    ensures var s := StatsOf(docs);
      && s.maxAmount.Some?
      && s.minAmount.value <= s.averageAmount <= s.maxAmount.value
      && (exists i :: 0 <= i < |docs| && Amount(docs[i]) == s.minAmount)
      && (exists i :: 0 <= i < |docs| && Amount(docs[i]) == s.maxAmount)
      && forall i :: 0 <= i < |docs| && Amount(docs[i]).Some? ==>
           s.minAmount.value <= Amount(docs[i]).value <= s.maxAmount.value
  {
    var amounts := AmountsOf(docs);
    var lo, hi := Least(amounts), Greatest(amounts);
    assert StatsOf(docs).minAmount == Some(lo);
    assert StatsOf(docs).maxAmount == Some(hi);
    assert StatsOf(docs).averageAmount == Average(Sum(amounts), |amounts|);
    AverageBounds(amounts);
    AmountsOfSound(docs, lo);
    AmountsOfSound(docs, hi);
    forall i | 0 <= i < |docs| && Amount(docs[i]).Some?
      ensures lo <= Amount(docs[i]).value <= hi
    {
      AmountsOfComplete(docs, i);
    }
  }
}
