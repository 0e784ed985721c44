/**
 * What each query of the store returns, as functions of the records in store order. The
 * store's methods are proved to compute exactly these; the lemmas below state what the
 * results mean.
 */
module Queries {
  import opened Wrappers
  import opened Text
  import opened Documents
  import opened Ranking

  const DEFAULT_TOP_K: int := 3
  const DEFAULT_TOLERANCE: real := 0.01
  const DEFAULT_PERCENTAGE: real := 10.0

  function Abs(x: real): real
  {
    if x < 0.0 then -x else x
  }

  /** `amount >= min` when a minimum is given and `amount <= max` when a maximum is given. */
  predicate InBounds(amount: real, min: Option<real>, max: Option<real>)
  {
    (min.None? || amount >= min.value) && (max.None? || amount <= max.value)
  }

  /** The metadata keys whose value, lower-cased by `str()`, contains `w`. */
  function MetaHitKeys(meta: Metadata, w: string): set<string>
  {
    set k | k in meta && Contains(Lower(Str(meta[k])), w)
  }

  /** The number of metadata values whose lower-cased `str()` contains `w`. */
  function MetaHits(meta: Metadata, w: string): nat
  {
    |MetaHitKeys(meta, w)|
  }

  /** What one query token adds to a record's keyword score. */
  function TokenScore(d: Document, w: string): real
    requires |w| > 0
  {
    (if Contains(Lower(d.title), w) then 2.0 else 0.0)
    + Count(Lower(d.content), w) as real * 0.5
    + MetaHits(d.metadata, w) as real
  }

  /** A record's keyword score: the sum of its token scores, never negative. */
  function Score(d: Document, words: seq<string>): (r: real)
    requires forall w :: w in words ==> |w| > 0
    ensures r >= 0.0
  {
    if words == [] then 0.0
    else Score(d, words[..|words| - 1]) + TokenScore(d, words[|words| - 1])
  }

  /** The (lower-case) token `w` occurs in the record's title, its content or a metadata value. */
  predicate Mentions(d: Document, w: string)
  {
    || Contains(Lower(d.title), w)
    || Contains(Lower(d.content), w)
    || exists k :: k in d.metadata && Contains(Lower(Str(d.metadata[k])), w)
  }

  /** A token scores nothing negative, and something exactly when the record mentions it. */
  lemma TokenScoreMeaning(d: Document, w: string)
    requires |w| > 0
    ensures TokenScore(d, w) >= 0.0
    ensures TokenScore(d, w) > 0.0 <==> Mentions(d, w)
  {
    CountZeroIffAbsent(Lower(d.content), w);
    var hits := set k | k in d.metadata && Contains(Lower(Str(d.metadata[k])), w);
    if exists k :: k in d.metadata && Contains(Lower(Str(d.metadata[k])), w) {
      var k :| k in d.metadata && Contains(Lower(Str(d.metadata[k])), w);
      assert k in hits;
    }
  }

  /** A keyword score is positive exactly when the record mentions one of the tokens. */
  lemma {:induction false} ScoreMeaning(d: Document, words: seq<string>)
    requires forall w :: w in words ==> |w| > 0
    ensures Score(d, words) >= 0.0
    ensures Score(d, words) > 0.0 <==> exists j :: 0 <= j < |words| && Mentions(d, words[j])
  {
    if words != [] {
      var init, last := words[..|words| - 1], words[|words| - 1];
      ScoreMeaning(d, init);
      TokenScoreMeaning(d, last);
      if exists j :: 0 <= j < |words| && Mentions(d, words[j]) {
        var j :| 0 <= j < |words| && Mentions(d, words[j]);
        if j < |words| - 1 {
          assert init[j] == words[j];
        }
      }
      if exists j :: 0 <= j < |init| && Mentions(d, init[j]) {
        var j :| 0 <= j < |init| && Mentions(d, init[j]);
        assert words[j] == init[j];
      }
    }
  }

  /** What a query keeps a record for. */
  datatype Criterion =
    | Every                                   // retrieve_all
    | Keywords(query: string)                 // retrieve_by_keyword, before ranking
    | OfType(docType: string)                 // retrieve_by_type
    | HasAmount                               // _retrieve_all_with_amounts
    | InRange(min: Option<real>, max: Option<real>)   // retrieve_by_amount_range, before sorting
    | Near(target: real, tolerance: real)     // retrieve_by_exact_amount
    | Within(target: real, tolerance: real)   // retrieve_by_approximate_amount, before sorting

  /** The approximate band's score divides by its tolerance. */
  predicate WellFormed(c: Criterion)
  {
    c.Within? ==> c.tolerance != 0.0
  }

  /** The score a record gets under `c`, or None when `c` drops it. */
  function Hit(c: Criterion, d: Document): Option<real>
    requires WellFormed(c)
  {
    match c
    case Every => Some(1.0)
    case Keywords(q) =>
      var s := Score(d, Split(Lower(q)));
      if s > 0.0 then Some(s) else None
    case OfType(t) => if Lower(d.docType) == Lower(t) then Some(1.0) else None
    case HasAmount => if Amount(d).Some? then Some(1.0) else None
    case InRange(lo, hi) =>
      if Amount(d).Some? && InBounds(Amount(d).value, lo, hi) then Some(1.0) else None
    case Near(t, tol) =>
      if Amount(d).Some? && Abs(Amount(d).value - t) <= tol then Some(1.0) else None
    case Within(t, tol) =>
      if Amount(d).Some? && t - tol <= Amount(d).value <= t + tol
      then Some(1.0 - Abs(Amount(d).value - t) / tol)
      else None
  }

  /**
   * The verdict of `c` on each record, in store order. A separate function so that `Select`
   * and its lemmas reason about the verdicts through this contract and never unfold `Hit`.
   */
  function Hits(docs: seq<Document>, c: Criterion): (hs: seq<Option<real>>)
    requires WellFormed(c)
    ensures |hs| == |docs| && forall i :: 0 <= i < |docs| ==> hs[i] == Hit(c, docs[i])
  {
    seq(|docs|, i requires 0 <= i < |docs| => Hit(c, docs[i]))
  }

  /** The chunks of the records whose verdict in `hits` is a score, in store order. */
  function Gather(docs: seq<Document>, hits: seq<Option<real>>): (r: seq<Chunk>)
    requires |hits| == |docs|
    ensures |r| <= |docs|
  {
    if docs == [] then []
    else
      var d := docs[|docs| - 1];
      Gather(docs[..|docs| - 1], hits[..|hits| - 1]) +
        (match hits[|hits| - 1] case Some(s) => [Project(d, s)] case None => [])
  }

  /** The chunks of the records `c` keeps, in store order. */
  function Select(docs: seq<Document>, c: Criterion): (r: seq<Chunk>)
    requires WellFormed(c)
    ensures |r| <= |docs|
  {
    Gather(docs, Hits(docs, c))
  }

  /** Every gathered chunk is the projection of a record with a score, with that score. */
  lemma {:induction false} GatherSound(docs: seq<Document>, hits: seq<Option<real>>, x: Chunk)
    requires |hits| == |docs| && x in Gather(docs, hits)
    ensures exists i :: 0 <= i < |docs| && hits[i].Some? && x == Project(docs[i], hits[i].value)
  {
    var init, rest := docs[..|docs| - 1], hits[..|hits| - 1];
    if x in Gather(init, rest) {
      GatherSound(init, rest, x);
      var i :| 0 <= i < |init| && rest[i].Some? && x == Project(init[i], rest[i].value);
      assert docs[i] == init[i] && hits[i] == rest[i];
    } else {
      assert hits[|hits| - 1].Some?;
    }
  }

  /** Every record with a score has its projection, with that score, gathered. */
  lemma {:induction false} GatherComplete(docs: seq<Document>, hits: seq<Option<real>>, i: int)
    requires |hits| == |docs| && 0 <= i < |docs| && hits[i].Some?
    ensures Project(docs[i], hits[i].value) in Gather(docs, hits)
  {
    var init, rest := docs[..|docs| - 1], hits[..|hits| - 1];
    var tail := match hits[i] case Some(s) => [Project(docs[i], s)] case None => [];
    if i < |init| {
      assert init[i] == docs[i] && rest[i] == hits[i];
      GatherComplete(init, rest, i);
    } else {
      assert Gather(docs, hits) == Gather(init, rest) + tail;
      assert tail[0] == Project(docs[i], hits[i].value);
    }
  }

  /** The set of ids among `cs`. */
  function IdsOf(cs: seq<Chunk>): set<string>
  {
    set c | c in cs :: c.docId
  }

  predicate DistinctIds(docs: seq<Document>)
  {
    forall i, j :: 0 <= i < j < |docs| ==> docs[i].docId != docs[j].docId
  }

  /** Every chunk of a selection is the projection of a kept record, with its score. */
  lemma SelectSound(docs: seq<Document>, c: Criterion, x: Chunk)
    requires WellFormed(c)
    requires x in Select(docs, c)
    ensures exists i :: 0 <= i < |docs| && Hit(c, docs[i]).Some? && x == Project(docs[i], Hit(c, docs[i]).value)
  {
    GatherSound(docs, Hits(docs, c), x);
  }

  /** Every kept record's projection, with its score, is in the selection. */
  lemma SelectComplete(docs: seq<Document>, c: Criterion, i: int)
    requires WellFormed(c)
    requires 0 <= i < |docs| && Hit(c, docs[i]).Some?
    ensures Project(docs[i], Hit(c, docs[i]).value) in Select(docs, c)
  {
    GatherComplete(docs, Hits(docs, c), i);
  }

  /** A selection holds exactly the projections of the kept records, each with its score. */
  lemma SelectMembers(docs: seq<Document>, c: Criterion)
    requires WellFormed(c)
    ensures forall x :: x in Select(docs, c) <==>
      exists i :: 0 <= i < |docs| && Hit(c, docs[i]).Some? && x == Project(docs[i], Hit(c, docs[i]).value)
  {
    forall x | x in Select(docs, c)
      ensures exists i :: 0 <= i < |docs| && Hit(c, docs[i]).Some? && x == Project(docs[i], Hit(c, docs[i]).value)
    {
      SelectSound(docs, c, x);
    }
    forall i | 0 <= i < |docs| && Hit(c, docs[i]).Some?
      ensures Project(docs[i], Hit(c, docs[i]).value) in Select(docs, c)
    {
      SelectComplete(docs, c, i);
    }
  }

  /** A selection is empty exactly when `c` keeps no record. */
  lemma {:induction false} SelectEmpty(docs: seq<Document>, c: Criterion)
    requires WellFormed(c)
    ensures Select(docs, c) == [] <==> forall i :: 0 <= i < |docs| ==> Hit(c, docs[i]).None?
  {
    if Select(docs, c) != [] {
      SelectSound(docs, c, Select(docs, c)[0]);
    } else {
      forall i | 0 <= i < |docs| ensures Hit(c, docs[i]).None? {
        if Hit(c, docs[i]).Some? {
          SelectComplete(docs, c, i);
        }
      }
    }
  }

  /** With distinct ids, a record's id is among the selection's exactly when `c` keeps it. */
  lemma SelectIds(docs: seq<Document>, c: Criterion)
    requires WellFormed(c)
    requires DistinctIds(docs)
    ensures forall i :: 0 <= i < |docs| ==> (docs[i].docId in IdsOf(Select(docs, c)) <==> Hit(c, docs[i]).Some?)
  {
    forall i | 0 <= i < |docs|
      ensures docs[i].docId in IdsOf(Select(docs, c)) <==> Hit(c, docs[i]).Some?
    {
      if docs[i].docId in IdsOf(Select(docs, c)) {
        var x :| x in Select(docs, c) && x.docId == docs[i].docId;
        SelectSound(docs, c, x);
        var j :| 0 <= j < |docs| && Hit(c, docs[j]).Some? && x == Project(docs[j], Hit(c, docs[j]).value);
        assert docs[j].docId == docs[i].docId;
        assert i == j;
      }
      if Hit(c, docs[i]).Some? {
        SelectComplete(docs, c, i);
        var x := Project(docs[i], Hit(c, docs[i]).value);
        assert x.docId in IdsOf(Select(docs, c));
      }
    }
  }

  /** The errors a store call can raise: TypeError (None in arithmetic) and ZeroDivisionError. */
  datatype QueryError = TypeMismatch | DivisionByZero

  /** A call to the store, with the arguments Python passes it (None included). */
  datatype Query =
    | AllDocuments                                            // retrieve_all()
    | Keyword(text: string, topK: int)                        // retrieve_by_keyword(text, top_k)
    | ByType(docType: string)                                 // retrieve_by_type(doc_type)
    | AmountRange(min: Option<real>, max: Option<real>)       // retrieve_by_amount_range(min, max)
    | ExactAmount(target: Option<real>, tolerance: real)      // retrieve_by_exact_amount(amount, tolerance)
    | ApproximateAmount(target: Option<real>, percentage: real) // retrieve_by_approximate_amount(amount, percentage)

  /** Chunks decorated with their scores, as `sort(key=lambda x: x.relevance_score)` sees them. */
  function KeyedByScore(cs: seq<Chunk>): (r: seq<(real, Chunk)>)
    ensures |r| == |cs|
    ensures forall i :: 0 <= i < |cs| ==> r[i] == (cs[i].score, cs[i])
  {
    if cs == [] then [] else [(cs[0].score, cs[0])] + KeyedByScore(cs[1..])
  }

  /** Chunks decorated with their chunk-side amounts, as the amount-range sort sees them. */
  function KeyedByAmount(cs: seq<Chunk>): (r: seq<(real, Chunk)>)
    ensures |r| == |cs|
    ensures forall i :: 0 <= i < |cs| ==> r[i] == (ChunkAmount(cs[i]), cs[i])
  {
    if cs == [] then [] else KeyedByAmount(cs[..|cs| - 1]) + [(ChunkAmount(cs[|cs| - 1]), cs[|cs| - 1])]
  }

  /** `cs.sort(key=lambda x: x.relevance_score, reverse=True)`. */
  function RankByScore(cs: seq<Chunk>): seq<Chunk>
  {
    Items(SortDesc(KeyedByScore(cs)))
  }

  /** `cs.sort(key=_get_document_amount_from_chunk, reverse=True)`. */
  function RankByAmount(cs: seq<Chunk>): seq<Chunk>
  {
    Items(SortDesc(KeyedByAmount(cs)))
  }

  /** The half-width of the approximate band: `amount * (percentage / 100)`. */
  function Tolerance(target: real, percentage: real): (tol: real)
    ensures target > 0.0 && percentage > 0.0 ==> tol > 0.0
    ensures target == 0.0 || percentage == 0.0 ==> tol == 0.0
  {
    target * (percentage / 100.0)
  }

  /** `retrieve_by_amount_range(lo, hi)`. */
  function RangeResult(docs: seq<Document>, lo: Option<real>, hi: Option<real>): seq<Chunk>
  {
    if lo.None? && hi.None? then Select(docs, HasAmount)
    else RankByAmount(Select(docs, InRange(lo, hi)))
  }

  /** `retrieve_by_exact_amount(target, tol)`. */
  function ExactResult(docs: seq<Document>, target: Option<real>, tol: real): Result<seq<Chunk>, QueryError>
  {
    if target.Some? then Ok(Select(docs, Near(target.value, tol)))
    // abs(doc_amount - None) raises at the first record that has an amount
    else if Select(docs, HasAmount) == [] then Ok([])
    else Err(TypeMismatch)
  }

  /** `retrieve_by_approximate_amount(target, p)`. */
  function ApproximateResult(docs: seq<Document>, target: Option<real>, p: real): Result<seq<Chunk>, QueryError>
  {
    if target.None? then Err(TypeMismatch)   // None * (percentage / 100)
    else
      var t := target.value;
      var tol := Tolerance(t, p);
      if tol != 0.0 then Ok(RankByScore(Select(docs, Within(t, tol))))
      // a zero tolerance keeps only the target itself, and then divides by zero
      else if Select(docs, Near(t, 0.0)) == [] then Ok([])
      else Err(DivisionByZero)
  }

  /** What the store returns for `q` over `docs`, or the exception it raises. */
  function Eval(docs: seq<Document>, q: Query): (r: Result<seq<Chunk>, QueryError>)
    ensures r.Err? ==> (q.ExactAmount? || q.ApproximateAmount?) && (r.error == TypeMismatch <==> q.target.None?)
    ensures r.Err? && r.error == DivisionByZero ==> q.ApproximateAmount?
  {
    match q
    case AllDocuments => Ok(Select(docs, Every))
    case Keyword(text, k) => Ok(Take(RankByScore(Select(docs, Keywords(text))), k))
    case ByType(t) => Ok(Select(docs, OfType(t)))
    case AmountRange(lo, hi) => Ok(RangeResult(docs, lo, hi))
    case ExactAmount(target, tol) => ExactResult(docs, target, tol)
    case ApproximateAmount(target, p) => ApproximateResult(docs, target, p)
  }

  /** The chunks of `cs` that have score `v`, in order. */
  function WithScore(cs: seq<Chunk>, v: real): seq<Chunk>
  {
    if cs == [] then [] else (if cs[0].score == v then [cs[0]] else []) + WithScore(cs[1..], v)
  }

  /** The chunks of `cs` whose chunk-side amount is `v`, in order. */
  function WithAmount(cs: seq<Chunk>, v: real): seq<Chunk>
  {
    if cs == [] then [] else (if ChunkAmount(cs[0]) == v then [cs[0]] else []) + WithAmount(cs[1..], v)
  }

  /** Every pair of `s` carries its chunk's score as its key. */
  predicate ScoreKeyed(s: seq<(real, Chunk)>)
  {
    forall i :: 0 <= i < |s| ==> s[i].0 == s[i].1.score
  }

  /** Every pair of `s` carries its chunk's amount as its key. */
  predicate AmountKeyed(s: seq<(real, Chunk)>)
  {
    forall i :: 0 <= i < |s| ==> s[i].0 == ChunkAmount(s[i].1)
  }

  lemma SortDescKeepsPairs(s: seq<(real, Chunk)>)
    ensures forall p :: p in SortDesc(s) ==> p in s
  {
    SortDescPermutes(s);
    forall p | p in SortDesc(s) ensures p in s {
      assert p in multiset(SortDesc(s));
    }
  }

  lemma {:induction false} WithScoreOfItems(s: seq<(real, Chunk)>, v: real)
    requires ScoreKeyed(s)
    ensures WithScore(Items(s), v) == Items(WithKey(s, v))
  {
    if s != [] {
      assert ScoreKeyed(s[1..]) by {
        forall i | 0 <= i < |s[1..]| ensures s[1..][i].0 == s[1..][i].1.score {
          assert s[1..][i] == s[i + 1];
        }
      }
      WithScoreOfItems(s[1..], v);
      assert Items(s)[1..] == Items(s[1..]);
      assert Items([s[0]] + WithKey(s[1..], v)) == [s[0].1] + Items(WithKey(s[1..], v)) by {
        assert ([s[0]] + WithKey(s[1..], v))[1..] == WithKey(s[1..], v);
      }
    }
  }

  lemma {:induction false} WithAmountOfItems(s: seq<(real, Chunk)>, v: real)
    requires AmountKeyed(s)
    ensures WithAmount(Items(s), v) == Items(WithKey(s, v))
  {
    if s != [] {
      assert AmountKeyed(s[1..]) by {
        forall i | 0 <= i < |s[1..]| ensures s[1..][i].0 == ChunkAmount(s[1..][i].1) {
          assert s[1..][i] == s[i + 1];
        }
      }
      WithAmountOfItems(s[1..], v);
      assert Items(s)[1..] == Items(s[1..]);
      assert Items([s[0]] + WithKey(s[1..], v)) == [s[0].1] + Items(WithKey(s[1..], v)) by {
        assert ([s[0]] + WithKey(s[1..], v))[1..] == WithKey(s[1..], v);
      }
    }
  }

  /**
   * Ranking by score orders the chunks by score, largest first, keeps exactly the chunks it
   * is given, and is stable: chunks with equal scores stay in the order they came in.
   */
  lemma RankByScoreMeaning(cs: seq<Chunk>)
    ensures forall i, j :: 0 <= i < j < |RankByScore(cs)| ==> RankByScore(cs)[i].score >= RankByScore(cs)[j].score
    ensures multiset(RankByScore(cs)) == multiset(cs)
    ensures forall v :: WithScore(RankByScore(cs), v) == WithScore(cs, v)
  {
    var keyed := KeyedByScore(cs);
    var sorted := SortDesc(keyed);
    SortDescSorted(keyed);
    SortDescPermutes(keyed);
    SortDescKeepsPairs(keyed);
    assert ScoreKeyed(sorted) by {
      forall i | 0 <= i < |sorted| ensures sorted[i].0 == sorted[i].1.score {
        assert sorted[i] in keyed;
      }
    }
    assert Items(keyed) == cs;
    ItemsSortDesc(keyed);
    forall v ensures WithScore(RankByScore(cs), v) == WithScore(cs, v) {
      SortDescStable(keyed, v);
      WithScoreOfItems(sorted, v);
      WithScoreOfItems(keyed, v);
    }
  }

  /**
   * Ranking by amount orders the chunks by amount, largest first, keeps exactly the chunks it
   * is given, and is stable: chunks with equal amounts stay in the order they came in.
   */
  lemma RankByAmountMeaning(cs: seq<Chunk>)
    ensures forall i, j :: 0 <= i < j < |RankByAmount(cs)| ==> ChunkAmount(RankByAmount(cs)[i]) >= ChunkAmount(RankByAmount(cs)[j])
    ensures multiset(RankByAmount(cs)) == multiset(cs)
    ensures forall v :: WithAmount(RankByAmount(cs), v) == WithAmount(cs, v)
  {
    var keyed := KeyedByAmount(cs);
    var sorted := SortDesc(keyed);
    SortDescSorted(keyed);
    SortDescKeepsPairs(keyed);
    assert AmountKeyed(sorted) by {
      forall i | 0 <= i < |sorted| ensures sorted[i].0 == ChunkAmount(sorted[i].1) {
        assert sorted[i] in keyed;
      }
    }
    assert Items(keyed) == cs;
    SortDescPermutes(keyed);
    ItemsSortDesc(keyed);
    forall v ensures WithAmount(RankByAmount(cs), v) == WithAmount(cs, v) {
      SortDescStable(keyed, v);
      WithAmountOfItems(sorted, v);
      WithAmountOfItems(keyed, v);
    }
  }

  lemma {:induction false} ItemsInsert(p: (real, Chunk), s: seq<(real, Chunk)>)
    ensures multiset(Items(Insert(p, s))) == multiset(Items(s)) + multiset{p.1}
  {
    if s != [] && s[0].0 > p.0 {
      ItemsInsert(p, s[1..]);
      assert Items([s[0]] + Insert(p, s[1..])) == [s[0].1] + Items(Insert(p, s[1..]));
      assert Items(s) == [s[0].1] + Items(s[1..]);
    } else {
      assert Items([p] + s) == [p.1] + Items(s);
    }
  }

  /** Sorting pairs rearranges their items. */
  lemma {:induction false} ItemsSortDesc(s: seq<(real, Chunk)>)
    ensures multiset(Items(SortDesc(s))) == multiset(Items(s))
  {
    if s != [] {
      ItemsSortDesc(s[1..]);
      ItemsInsert(s[0], SortDesc(s[1..]));
      assert Items(s) == [s[0].1] + Items(s[1..]);
    }
  }
}
