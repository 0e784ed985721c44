/** What each of the store's queries returns, stated over the records in store order. */
module QueryMeaning {
  import opened Wrappers
  import opened Text
  import opened Documents
  import opened Ranking
  import opened Queries

  /** Reordering a sequence of chunks keeps its ids. */
  lemma {:induction false} IdsOfPermuted(a: seq<Chunk>, b: seq<Chunk>)
    requires multiset(a) == multiset(b)
    ensures IdsOf(a) == IdsOf(b)
    ensures forall c :: c in a <==> c in b
  {
    forall c ensures c in a <==> c in b {
      assert c in a <==> c in multiset(a);
      assert c in b <==> c in multiset(b);
    }
  }

  /** When every verdict is the score 1.0, every record is gathered, in order, scored 1.0. */
  lemma {:induction false} GatherEvery(docs: seq<Document>, hits: seq<Option<real>>)
    requires |hits| == |docs| && forall i :: 0 <= i < |hits| ==> hits[i] == Some(1.0)
    ensures |Gather(docs, hits)| == |docs|
    ensures forall i :: 0 <= i < |docs| ==> Gather(docs, hits)[i] == Project(docs[i], 1.0)
  {
    if docs != [] {
      var init, rest := docs[..|docs| - 1], hits[..|hits| - 1];
      assert forall i :: 0 <= i < |rest| ==> rest[i] == hits[i];
      GatherEvery(init, rest);
      assert hits[|hits| - 1] == Some(1.0);
    }
  }

  /** `retrieve_all` returns one chunk per record, in store order, each scored 1.0. */
  lemma AllMeaning(docs: seq<Document>)
    ensures Eval(docs, AllDocuments).Ok?
    ensures |Eval(docs, AllDocuments).value| == |docs|
    ensures forall i :: 0 <= i < |docs| ==> Eval(docs, AllDocuments).value[i] == Project(docs[i], 1.0)
  {
    GatherEvery(docs, Hits(docs, Every));
  }

  /**
   * `retrieve_by_keyword` returns only chunks that score above zero, best first, `top_k` of
   * them or all when fewer match (a negative `top_k` drops that many from the end): the leading part of the ranking of every
   * matching record by score. The ranking keeps exactly the matching records and is stable,
   * so records with equal scores stay in store order.
   */
  lemma {:induction false} KeywordMeaning(docs: seq<Document>, text: string, topK: int)
    ensures Eval(docs, Keyword(text, topK)).Ok?
    ensures var r := Eval(docs, Keyword(text, topK)).value;
      var matching := Select(docs, Keywords(text));
      var ranked := RankByScore(matching);
      && r == ranked[..|r|]
      && (topK >= 0 ==> |r| == if topK < |ranked| then topK else |ranked|)
      && (topK < 0 ==> |r| == if |ranked| + topK > 0 then |ranked| + topK else 0)
      && (forall i :: 0 <= i < |r| ==> r[i].score > 0.0)
      && (forall i, j :: 0 <= i < j < |r| ==> r[i].score >= r[j].score)
      && multiset(ranked) == multiset(matching)
      && (forall v :: WithScore(ranked, v) == WithScore(matching, v))
  {
    var matching := Select(docs, Keywords(text));
    var ranked := RankByScore(matching);
    var r := Eval(docs, Keyword(text, topK)).value;
    RankByScoreMeaning(matching);
    assert r == Take(ranked, topK);
    forall i | 0 <= i < |r| ensures r[i].score > 0.0 {
      assert r[i] == ranked[i];
      assert ranked[i] in multiset(matching);
      KeywordChunkPositive(docs, text, ranked[i]);
    }
  }

  /** Every keyword match scores above zero. */
  lemma {:induction false} KeywordChunkPositive(docs: seq<Document>, text: string, x: Chunk)
    requires x in Select(docs, Keywords(text))
    ensures x.score > 0.0
  {
    SelectSound(docs, Keywords(text), x);
  }

  /** A record is a keyword match exactly when it mentions one of the query's lower-cased tokens. */
  lemma {:induction false} KeywordMatchMeaning(d: Document, text: string)
    ensures Hit(Keywords(text), d).Some? <==>
      exists j :: 0 <= j < |Split(Lower(text))| && Mentions(d, Split(Lower(text))[j])
  {
    var words := Split(Lower(text));
    ScoreMeaning(d, words);
    assert Hit(Keywords(text), d).Some? <==> Score(d, words) > 0.0;
    if Hit(Keywords(text), d).Some? {
      var j :| 0 <= j < |words| && Mentions(d, words[j]);
      assert Mentions(d, Split(Lower(text))[j]);
      assert exists j :: 0 <= j < |Split(Lower(text))| && Mentions(d, Split(Lower(text))[j]);
    }
  }

  /** `retrieve_by_type` returns, in store order, the records whose type matches ignoring case. */
  lemma {:induction false} TypeMeaning(docs: seq<Document>, docType: string)
    requires DistinctIds(docs)
    ensures Eval(docs, ByType(docType)).Ok?
    ensures forall i :: 0 <= i < |docs| ==>
      (docs[i].docId in IdsOf(Eval(docs, ByType(docType)).value) <==> Lower(docs[i].docType) == Lower(docType))
  {
    SelectIds(docs, OfType(docType));
  }

  /** Every chunk of a selection that keeps records without scoring them has score 1.0. */
  lemma {:induction false} UnscoredSelection(docs: seq<Document>, c: Criterion)
    requires c.Every? || c.OfType? || c.HasAmount? || c.InRange? || c.Near?
    ensures forall x :: x in Select(docs, c) ==> x.score == 1.0
  {
    SelectMembers(docs, c);
  }

  /**
   * `retrieve_by_amount_range` returns exactly the records that have an amount within the
   * given bounds; a missing bound does not constrain.
   */
  lemma {:induction false} RangeMembers(docs: seq<Document>, min: Option<real>, max: Option<real>)
    requires DistinctIds(docs)
    ensures Eval(docs, AmountRange(min, max)).Ok?
    ensures forall i :: 0 <= i < |docs| ==>
      (docs[i].docId in IdsOf(Eval(docs, AmountRange(min, max)).value) <==>
        Amount(docs[i]).Some? && InBounds(Amount(docs[i]).value, min, max))
  {
    var r := RangeResult(docs, min, max);
    assert Eval(docs, AmountRange(min, max)) == Ok(r);
    if min.None? && max.None? {
      IdsKept(docs, HasAmount, r);
      forall i | 0 <= i < |docs|
        ensures Hit(HasAmount, docs[i]).Some? <==> Amount(docs[i]).Some? && InBounds(Amount(docs[i]).value, min, max)
      {
        RangeHit(docs[i], min, max);
      }
    } else {
      RankByAmountMeaning(Select(docs, InRange(min, max)));
      IdsKept(docs, InRange(min, max), r);
      forall i | 0 <= i < |docs|
        ensures Hit(InRange(min, max), docs[i]).Some? <==> Amount(docs[i]).Some? && InBounds(Amount(docs[i]).value, min, max)
      {
        RangeHit(docs[i], min, max);
      }
    }
  }

  /** The range test of one record, and the test of having an amount, which is the range test without bounds. */
  lemma RangeHit(d: Document, min: Option<real>, max: Option<real>)
    ensures Hit(InRange(min, max), d).Some? <==> Amount(d).Some? && InBounds(Amount(d).value, min, max)
    ensures min.None? && max.None? ==> (Hit(HasAmount, d).Some? <==> Amount(d).Some? && InBounds(Amount(d).value, min, max))
  {
  }

  /** Any rearrangement of a selection holds the id of exactly the records the criterion keeps. */
  lemma {:induction false} IdsKept(docs: seq<Document>, c: Criterion, r: seq<Chunk>)
    requires DistinctIds(docs) && WellFormed(c)
    requires multiset(r) == multiset(Select(docs, c))
    ensures forall i :: 0 <= i < |docs| ==> (docs[i].docId in IdsOf(r) <==> Hit(c, docs[i]).Some?)
  {
    IdsOfPermuted(r, Select(docs, c));
    SelectIds(docs, c);
  }

  /** With neither bound, the range search is every record that has an amount, in store order. */
  lemma {:induction false} RangeUnbounded(docs: seq<Document>)
    ensures Eval(docs, AmountRange(None, None)) == Ok(Select(docs, HasAmount))
  {
  }

  /** With at least one bound, the range search is sorted by amount, largest first, and keeps every kept record. */
  lemma {:induction false} RangeSorted(docs: seq<Document>, min: Option<real>, max: Option<real>)
    requires min.Some? || max.Some?
    ensures Eval(docs, AmountRange(min, max)).Ok?
    ensures var r := Eval(docs, AmountRange(min, max)).value;
      && multiset(r) == multiset(Select(docs, InRange(min, max)))
      && forall i, j :: 0 <= i < j < |r| ==> ChunkAmount(r[i]) >= ChunkAmount(r[j])
  {
    RankByAmountMeaning(Select(docs, InRange(min, max)));
  }

  /** The amount a range result is sorted by is the record's own derived amount. */
  lemma {:induction false} RangeSortKey(docs: seq<Document>, min: Option<real>, max: Option<real>, x: Chunk)
    requires x in Select(docs, InRange(min, max))
    ensures exists i :: (0 <= i < |docs| && x.docId == docs[i].docId && Amount(docs[i]).Some? &&
      ChunkAmount(x) == Amount(docs[i]).value)
  {
    SelectSound(docs, InRange(min, max), x);
    var i :| 0 <= i < |docs| && Hit(InRange(min, max), docs[i]).Some?
      && x == Project(docs[i], Hit(InRange(min, max), docs[i]).value);
    ChunkAmountOfProjection(docs[i], 1.0);
  }

  /** `retrieve_by_exact_amount` returns, in store order, the records whose amount is within the tolerance of the target. */
  lemma {:induction false} ExactMeaning(docs: seq<Document>, target: real, tolerance: real)
    requires DistinctIds(docs)
    ensures Eval(docs, ExactAmount(Some(target), tolerance)).Ok?
    ensures forall i :: 0 <= i < |docs| ==>
      (docs[i].docId in IdsOf(Eval(docs, ExactAmount(Some(target), tolerance)).value) <==>
        Amount(docs[i]).Some? && Abs(Amount(docs[i]).value - target) <= tolerance)
  {
    SelectIds(docs, Near(target, tolerance));
  }

  /**
   * `retrieve_by_approximate_amount` with a non-zero tolerance returns exactly the records
   * whose amount lies in the band of that percentage around the target (none, when the
   * tolerance is negative).
   */
  lemma {:induction false} ApproximateMembers(docs: seq<Document>, target: real, percentage: real)
    requires DistinctIds(docs)
    requires Tolerance(target, percentage) != 0.0
    ensures Eval(docs, ApproximateAmount(Some(target), percentage)).Ok?
    ensures var tol := Tolerance(target, percentage);
      forall i :: 0 <= i < |docs| ==>
        (docs[i].docId in IdsOf(Eval(docs, ApproximateAmount(Some(target), percentage)).value) <==>
          Amount(docs[i]).Some? && target - tol <= Amount(docs[i]).value <= target + tol)
  {
    var tol := Tolerance(target, percentage);
    var kept := Select(docs, Within(target, tol));
    var r := RankByScore(kept);
    ApproximateIsRanked(docs, target, percentage);
    RankByScoreMeaning(kept);
    IdsKept(docs, Within(target, tol), r);
    forall i | 0 <= i < |docs|
      ensures Hit(Within(target, tol), docs[i]).Some? <==>
        Amount(docs[i]).Some? && target - tol <= Amount(docs[i]).value <= target + tol
    {
      WithinHit(docs[i], target, tol);
    }
  }

  /** The band test of one record. */
  lemma WithinHit(d: Document, target: real, tol: real)
    requires tol != 0.0
    ensures Hit(Within(target, tol), d).Some? <==> Amount(d).Some? && target - tol <= Amount(d).value <= target + tol
  {
  }

  /** The approximate search is sorted by score, best first, and keeps every record in the band. */
  lemma {:induction false} ApproximateSorted(docs: seq<Document>, target: real, percentage: real)
    requires Tolerance(target, percentage) != 0.0
    ensures Eval(docs, ApproximateAmount(Some(target), percentage)).Ok?
    ensures var r := Eval(docs, ApproximateAmount(Some(target), percentage)).value;
      && multiset(r) == multiset(Select(docs, Within(target, Tolerance(target, percentage))))
      && forall i, j :: 0 <= i < j < |r| ==> r[i].score >= r[j].score
  {
    var tol := Tolerance(target, percentage);
    var kept := Select(docs, Within(target, tol));
    assert Eval(docs, ApproximateAmount(Some(target), percentage)) == Ok(RankByScore(kept));
    RankByScoreMeaning(kept);
  }

  /** A record the band keeps is scored between 0 and 1. */
  lemma {:induction false} BandScore(d: Document, target: real, tol: real)
    requires tol != 0.0
    requires Hit(Within(target, tol), d).Some?
    ensures Amount(d).Some? && target - tol <= Amount(d).value <= target + tol
    ensures Hit(Within(target, tol), d).value == 1.0 - Abs(Amount(d).value - target) / tol
    ensures 0.0 <= Hit(Within(target, tol), d).value <= 1.0
  {
    // a band with a negative tolerance is empty, so the hit makes the tolerance positive
    assert target - tol <= target + tol;
    var q := Abs(Amount(d).value - target) / tol;
    assert Abs(Amount(d).value - target) <= tol;
    assert q * tol == Abs(Amount(d).value - target);
    assert 0.0 <= q <= 1.0;
  }

  /**
   * Without a target, the exact search fails on the first record that has an amount, and
   * returns nothing when no record has one.
   */
  lemma {:induction false} ExactWithoutTarget(docs: seq<Document>, tolerance: real)
    ensures Eval(docs, ExactAmount(None, tolerance)) ==
      if exists i :: 0 <= i < |docs| && Amount(docs[i]).Some? then Err(TypeMismatch) else Ok([])
  {
    SelectEmpty(docs, HasAmount);
  }

  /** The approximate search with a non-zero tolerance is the band's selection ranked by score. */
  lemma {:induction false} ApproximateIsRanked(docs: seq<Document>, target: real, percentage: real)
    requires Tolerance(target, percentage) != 0.0
    ensures Eval(docs, ApproximateAmount(Some(target), percentage)) ==
      Ok(RankByScore(Select(docs, Within(target, Tolerance(target, percentage)))))
  {
  }

  /**
   * Each chunk of the approximate search is a record in the band scored
   * `1 - distance / tolerance`, a score between 0 and 1.
   */
  lemma {:induction false} ApproximateScore(docs: seq<Document>, target: real, percentage: real, x: Chunk)
    requires Tolerance(target, percentage) != 0.0
    requires Eval(docs, ApproximateAmount(Some(target), percentage)).Ok?
    requires x in Eval(docs, ApproximateAmount(Some(target), percentage)).value
    ensures 0.0 <= x.score <= 1.0
    ensures exists i :: 0 <= i < |docs| && InBand(docs[i], target, Tolerance(target, percentage), x)
  {
    var tol := Tolerance(target, percentage);
    var c := Within(target, tol);
    var kept := Select(docs, c);
    ApproximateIsRanked(docs, target, percentage);
    RankByScoreMeaning(kept);
    IdsOfPermuted(RankByScore(kept), kept);
    BandMember(docs, target, tol, x);
  }

  /** `x` is the chunk of `d` when `d`'s amount lies in the band, scored by its distance to the target. */
  predicate InBand(d: Document, target: real, tol: real, x: Chunk)
    requires tol != 0.0
  {
    && Amount(d).Some?
    && target - tol <= Amount(d).value <= target + tol
    && x == Project(d, 1.0 - Abs(Amount(d).value - target) / tol)
  }

  /** A chunk the band keeps is a record in the band, scored between 0 and 1. */
  lemma {:induction false} BandMember(docs: seq<Document>, target: real, tol: real, x: Chunk)
    requires tol != 0.0
    requires x in Select(docs, Within(target, tol))
    ensures 0.0 <= x.score <= 1.0
    ensures exists i :: 0 <= i < |docs| && InBand(docs[i], target, tol, x)
  {
    var c := Within(target, tol);
    SelectSound(docs, c, x);
    var i :| 0 <= i < |docs| && Hit(c, docs[i]).Some? && x == Project(docs[i], Hit(c, docs[i]).value);
    BandChunk(docs[i], target, tol, x);
  }

  /** The chunk the band makes of a record it keeps. */
  lemma {:induction false} BandChunk(d: Document, target: real, tol: real, x: Chunk)
    requires tol != 0.0
    requires Hit(Within(target, tol), d).Some?
    requires x == Project(d, Hit(Within(target, tol), d).value)
    ensures InBand(d, target, tol, x)
    ensures 0.0 <= x.score <= 1.0
  {
    BandScore(d, target, tol);
  }

  /** Whether some record's amount is exactly `target`. */
  predicate SomeAmountIs(docs: seq<Document>, target: real)
  {
    exists i :: 0 <= i < |docs| && Amount(docs[i]) == Some(target)
  }

  /**
   * With a zero tolerance the approximate search divides by zero exactly when some record's
   * amount equals the target; otherwise it returns nothing.
   */
  lemma ApproximateZeroTolerance(docs: seq<Document>, target: real, percentage: real)
    requires Tolerance(target, percentage) == 0.0
    ensures Eval(docs, ApproximateAmount(Some(target), percentage)) ==
      if SomeAmountIs(docs, target) then Err(DivisionByZero) else Ok([])
  {
    NearZeroKeeps(docs, target);
  }

  /**
   * With a negative tolerance (a negative target, or a negative percentage) the band's lower
   * end lies above its upper end, so the approximate search returns nothing, even for a
   * record whose amount is exactly the target.
   */
  lemma {:induction false} ApproximateNegativeBand(docs: seq<Document>, target: real, percentage: real)
    requires Tolerance(target, percentage) < 0.0
    ensures Eval(docs, ApproximateAmount(Some(target), percentage)) == Ok([])
  {
    var tol := Tolerance(target, percentage);
    var c := Within(target, tol);
    forall i | 0 <= i < |docs| ensures Hit(c, docs[i]).None? {
      WithinHit(docs[i], target, tol);
    }
    SelectEmpty(docs, c);
    ApproximateIsRanked(docs, target, percentage);
    RankByScoreMeaning(Select(docs, c));
  }

  /** The exact search with zero tolerance keeps some record exactly when some amount equals the target. */
  lemma NearZeroKeeps(docs: seq<Document>, target: real)
    ensures Select(docs, Near(target, 0.0)) == [] <==> !SomeAmountIs(docs, target)
  {
    SelectEmpty(docs, Near(target, 0.0));
    if SomeAmountIs(docs, target) {
      var i :| 0 <= i < |docs| && Amount(docs[i]) == Some(target);
      assert Hit(Near(target, 0.0), docs[i]).Some?;
    } else {
      forall i | 0 <= i < |docs| ensures Hit(Near(target, 0.0), docs[i]).None? {
        assert Amount(docs[i]) != Some(target);
      }
    }
  }
}
