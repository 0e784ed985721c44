/**
 * The store itself: `SimulatedRetriever`, a dictionary of records keyed by id that keeps
 * insertion order, and the query methods that walk it in that order. Each query method is
 * proved to return exactly what `Eval` (or `StatsOf`) says of the records in store order,
 * and the lemmas of the other modules say what that means.
 */
module Retrieval {
  import opened Wrappers
  import opened Text
  import opened AmountText
  import opened Documents
  import opened Ranking
  import opened Queries
  import opened Parsing
  import opened Statistics

  /**
   * A dictionary that remembers insertion order: `order` lists every key once, in the order
   * the keys were first added, and every record is filed under its own id.
   */
  predicate Indexed(documents: map<string, Document>, order: seq<string>)
  {
    && |documents| == |order|
    && (forall i, j :: 0 <= i < j < |order| ==> order[i] != order[j])
    && (forall i :: 0 <= i < |order| ==> order[i] in documents)
    && (forall id :: id in documents ==> id in order)
    && (forall id :: id in documents ==> documents[id].docId == id)
  }

  /** The records of `documents` in the order of `order` (`self.documents.values()`). */
  function DocsOf(documents: map<string, Document>, order: seq<string>): (r: seq<Document>)
    requires forall i :: 0 <= i < |order| ==> order[i] in documents
    ensures |r| == |order|
    ensures forall i :: 0 <= i < |order| ==> r[i] == documents[order[i]]
  {
    seq(|order|, i requires 0 <= i < |order| => documents[order[i]])
  }

  /** The records of a well-kept dictionary have distinct ids. */
  lemma IndexedDistinct(documents: map<string, Document>, order: seq<string>)
    requires Indexed(documents, order)
    ensures DistinctIds(DocsOf(documents, order))
  {
    var docs := DocsOf(documents, order);
    forall i, j | 0 <= i < j < |docs| ensures docs[i].docId != docs[j].docId {
      assert docs[i].docId == order[i] && docs[j].docId == order[j];
    }
  }

  /** Storing a record under a new id appends it to the records in store order. */
  lemma AddNew(documents: map<string, Document>, order: seq<string>, d: Document)
    requires Indexed(documents, order)
    requires d.docId !in documents
    ensures Indexed(documents[d.docId := d], order + [d.docId])
    ensures DocsOf(documents[d.docId := d], order + [d.docId]) == DocsOf(documents, order) + [d]
  {
    AddNewIndexed(documents, order, d);
    AddNewDocs(documents, order, d);
  }

  lemma AddNewIndexed(documents: map<string, Document>, order: seq<string>, d: Document)
    requires Indexed(documents, order)
    requires d.docId !in documents
    ensures Indexed(documents[d.docId := d], order + [d.docId])
  {
    var documents', order' := documents[d.docId := d], order + [d.docId];
    assert |documents'| == |documents| + 1;
    assert order'[|order|] == d.docId;
    forall id | id in documents'
      ensures id in order'
    {
      if id != d.docId {
        assert id in documents;
      }
    }
  }

  lemma AddNewDocs(documents: map<string, Document>, order: seq<string>, d: Document)
    requires Indexed(documents, order)
    requires d.docId !in documents
    ensures DocsOf(documents[d.docId := d], order + [d.docId]) == DocsOf(documents, order) + [d]
  {
    var documents', order' := documents[d.docId := d], order + [d.docId];
    var before, after := DocsOf(documents, order), DocsOf(documents', order');
    forall i | 0 <= i < |order'|
      ensures after[i] == (before + [d])[i]
    {
      if i < |order| {
        assert order[i] in documents;
      }
    }
  }

  /**
   * Storing a record under an id already present replaces that record where it stands:
   * the order of the records does not change and no other record changes.
   */
  lemma Replace(documents: map<string, Document>, order: seq<string>, d: Document)
    requires Indexed(documents, order)
    requires d.docId in documents
    ensures Indexed(documents[d.docId := d], order)
    ensures var before, after := DocsOf(documents, order), DocsOf(documents[d.docId := d], order);
      && |after| == |before|
      && forall i :: 0 <= i < |before| ==> after[i] == if before[i].docId == d.docId then d else before[i]
  {
  }

  /**
   * In a well-kept dictionary an id is found among the records in store order exactly when it
   * is a key, and what is found is the record filed under it.
   */
  lemma Lookup(documents: map<string, Document>, order: seq<string>, id: string)
    requires Indexed(documents, order)
    ensures (exists i :: 0 <= i < |order| && DocsOf(documents, order)[i].docId == id) <==> id in documents
    ensures forall i :: 0 <= i < |order| && DocsOf(documents, order)[i].docId == id ==>
      DocsOf(documents, order)[i] == documents[id]
  {
    if id in documents {
      var i :| 0 <= i < |order| && order[i] == id;
      assert DocsOf(documents, order)[i].docId == id;
    }
  }

  /**
   * `add_document(d)` followed by a lookup of `id` in store order (`get_document_by_id`):
   * the id of `d` finds `d` and nothing else, and every other id finds what it found before.
   */
  lemma AddThenLookup(documents: map<string, Document>, order: seq<string>, d: Document, id: string)
    requires Indexed(documents, order)
    ensures var documents' := documents[d.docId := d];
      var order' := if d.docId in documents then order else order + [d.docId];
      && Indexed(documents', order')
      && var before, after := DocsOf(documents, order), DocsOf(documents', order');
      && (id == d.docId ==>
            && (exists i :: 0 <= i < |after| && after[i].docId == id)
            && forall i :: 0 <= i < |after| && after[i].docId == id ==> after[i] == d)
      && (id != d.docId ==>
            && ((exists i :: 0 <= i < |after| && after[i].docId == id) <==>
                (exists j :: 0 <= j < |before| && before[j].docId == id))
            && forall i, j :: 0 <= i < |after| && 0 <= j < |before| && after[i].docId == id && before[j].docId == id ==>
                 after[i] == before[j])
  {
    var documents' := documents[d.docId := d];
    var order' := if d.docId in documents then order else order + [d.docId];
    if d.docId in documents {
      Replace(documents, order, d);
    } else {
      AddNewIndexed(documents, order, d);
    }
    Lookup(documents, order, id);
    Lookup(documents', order', id);
    if id == d.docId {
      assert id in documents' && documents'[id] == d;
    } else {
      assert (id in documents') == (id in documents);
      assert id in documents ==> documents'[id] == documents[id];
    }
  }

  /** Walking one more record extends a selection by that record's chunk, if it is kept. */
  lemma SelectStep(docs: seq<Document>, i: int, c: Criterion)
    requires WellFormed(c) && 0 <= i < |docs|
    ensures Select(docs[..i + 1], c) ==
      Select(docs[..i], c) + (if Hit(c, docs[i]).Some? then [Project(docs[i], Hit(c, docs[i]).value)] else [])
  {
    var hs := Hits(docs[..i + 1], c);
    assert docs[..i + 1][..i] == docs[..i];
    assert hs[..i] == Hits(docs[..i], c);
  }

  /** Scoring one more token adds that token's score. */
  lemma ScoreStep(d: Document, words: seq<string>, j: int)
    requires forall w :: w in words ==> |w| > 0
    requires 0 <= j < |words|
    ensures Score(d, words[..j + 1]) == Score(d, words[..j]) + TokenScore(d, words[j])
  {
    assert words[..j + 1][..j] == words[..j];
  }

  /** A selection is not empty once one record is kept. */
  lemma SelectKeeps(docs: seq<Document>, i: int, c: Criterion)
    requires WellFormed(c) && 0 <= i < |docs| && Hit(c, docs[i]).Some?
    ensures Select(docs, c) != []
  {
    SelectEmpty(docs, c);
  }

  /** Walking one more record adds its type to the counts and its amount, if any, to the amounts. */
  lemma StatsStep(docs: seq<Document>, i: int)
    requires 0 <= i < |docs|
    ensures TypeCounts(docs[..i + 1]) == Bump(TypeCounts(docs[..i]), docs[i].docType)
    ensures AmountsOf(docs[..i + 1]) == AmountsOf(docs[..i]) + (if Amount(docs[i]).Some? then [Amount(docs[i]).value] else [])
  {
    assert docs[..i + 1][..i] == docs[..i];
  }

  /** Adding one more amount to the running total. */
  lemma SumStep(xs: seq<real>, x: real)
    ensures Sum(xs + [x]) == Sum(xs) + x
  {
    assert (xs + [x])[..|xs|] == xs;
  }

  /** `any(word in text for word in cues)`, evaluated word by word and stopping at the first hit. */
  method AnyMentioned(text: string, cues: seq<string>) returns (found: bool)
    ensures found == Mentioned(text, cues)
  {
    found := false;
    var i := 0;
    while i < |cues| && !found
      invariant 0 <= i <= |cues|
      invariant found == exists k :: 0 <= k < i && Contains(text, cues[k])
    {
      found := Contains(text, cues[i]);
      i := i + 1;
    }
  }

  /** The `if/elif` tests of `_parse_and_retrieve_by_amount`: the first family whose cue words occur. */
  method FirstCue(text: string) returns (cue: Cue)
    ensures cue == CueOf(text)
  {
    var over := AnyMentioned(text, OVER_CUES);
    if over { return OverCue; }
    var under := AnyMentioned(text, UNDER_CUES);
    if under { return UnderCue; }
    var between := AnyMentioned(text, BETWEEN_CUES);
    if between { return BetweenCue; }
    var around := AnyMentioned(text, AROUND_CUES);
    if around { return AroundCue; }
    var exact := AnyMentioned(text, EXACT_CUES);
    if exact { return ExactCue; }
    return NoCue;
  }

  /** The dictionary left by adding the records of `seed` one after the other: the last record with an id wins. */
  function Latest(seed: seq<Document>): map<string, Document>
  {
    if seed == [] then map[]
    else Latest(seed[..|seed| - 1])[seed[|seed| - 1].docId := seed[|seed| - 1]]
  }

  /** The ids of `seed`, in order. */
  function IdList(seed: seq<Document>): (r: seq<string>)
    ensures |r| == |seed|
    ensures forall i :: 0 <= i < |seed| ==> r[i] == seed[i].docId
  {
    seq(|seed|, i requires 0 <= i < |seed| => seed[i].docId)
  }

  /** One more record adds its id to the first-seen ids unless it was seen already. */
  lemma FirstSeenStep(seed: seq<Document>, k: int)
    requires 0 <= k < |seed|
    ensures var seen := FirstSeen(IdList(seed[..k]));
      FirstSeen(IdList(seed[..k + 1])) == if seed[k].docId in seen then seen else seen + [seed[k].docId]
  {
    var s := IdList(seed[..k + 1]);
    assert s[..|s| - 1] == IdList(seed[..k]);
  }

  /** The first `k + 1` records are the first `k` and then record `k`. */
  lemma OneMore(seed: seq<Document>, k: int)
    requires 0 <= k < |seed|
    ensures seed[..k + 1] == seed[..k] + [seed[k]]
    ensures Latest(seed[..k + 1]) == Latest(seed[..k])[seed[k].docId := seed[k]]
  {
    assert seed[..k + 1][..k] == seed[..k];
  }

  /** The ids filed are exactly the ids of the records added. */
  lemma {:induction false} LatestKeys(seed: seq<Document>)
    ensures forall id :: id in Latest(seed) <==> exists k :: 0 <= k < |seed| && seed[k].docId == id
  {
    if seed != [] {
      var init := seed[..|seed| - 1];
      LatestKeys(init);
      assert Latest(seed) == Latest(init)[seed[|seed| - 1].docId := seed[|seed| - 1]];
      forall id | id in Latest(seed)
        ensures exists k :: 0 <= k < |seed| && seed[k].docId == id
      {
        if id != seed[|seed| - 1].docId {
          var k :| 0 <= k < |init| && init[k].docId == id;
          assert seed[k] == init[k];
        }
      }
      forall k | 0 <= k < |seed|
        ensures seed[k].docId in Latest(seed)
      {
        if k < |init| {
          assert init[k] == seed[k];
        }
      }
    }
  }

  /** A record that no later record shares its id with is the one filed under that id. */
  lemma {:induction false} LatestWins(seed: seq<Document>, k: int)
    requires 0 <= k < |seed|
    requires forall j :: k < j < |seed| ==> seed[j].docId != seed[k].docId
    ensures seed[k].docId in Latest(seed) && Latest(seed)[seed[k].docId] == seed[k]
  {
    if k < |seed| - 1 {
      var init := seed[..|seed| - 1];
      assert init[k] == seed[k];
      assert seed[|seed| - 1].docId != seed[k].docId;
      LatestWins(init, k);
    }
  }

  /** With distinct ids, each record added is filed under an id not seen before. */
  lemma LatestFresh(seed: seq<Document>, k: int)
    requires DistinctIds(seed) && 0 <= k < |seed|
    ensures seed[k].docId !in Latest(seed[..k])
  {
    LatestKeys(seed[..k]);
    forall j | 0 <= j < k
      ensures seed[..k][j].docId != seed[k].docId
    {
      assert seed[..k][j] == seed[j];
    }
  }

  /** `SimulatedRetriever`: the records by id, and the order their ids were first added in. */
  class Retriever {
    var documents: map<string, Document>
    var order: seq<string>

    /** The class invariant: `documents` and `order` form a well-kept dictionary. */
    ghost predicate Valid()
      reads this
    {
      Indexed(documents, order)
    }

    /** Every id in `order` has a record, which is all a walk over the records needs. */
    ghost predicate Listed()
      reads this
    {
      forall i :: 0 <= i < |order| ==> order[i] in documents
    }

    /** The records in store order. */
    ghost function Docs(): seq<Document>
      reads this
      requires Listed()
    {
      DocsOf(documents, order)
    }

    /**
     * `__init__`: a store holding the sample records `seed`, added one after the other, so
     * that a later record with the same id replaces an earlier one (`LatestKeys`,
     * `LatestWins`) but keeps the position its id was first added at; with distinct ids the
     * store holds exactly `seed`, in order.
     */
    constructor (seed: seq<Document>)
      ensures Valid()
      ensures documents == Latest(seed)
      ensures order == FirstSeen(IdList(seed))
      ensures DistinctIds(seed) ==> Docs() == seed
    {
      documents := map[];
      order := [];
      new;
      for k := 0 to |seed|
        invariant Valid()
        invariant documents == Latest(seed[..k])
        invariant order == FirstSeen(IdList(seed[..k]))
        invariant DistinctIds(seed) ==> Docs() == seed[..k]
      {
        if DistinctIds(seed) {
          LatestFresh(seed, k);
        }
        assert seed[k].docId in documents <==> seed[k].docId in order;
        FirstSeenStep(seed, k);
        AddDocument(seed[k]);
        OneMore(seed, k);
      }
      assert seed[..|seed|] == seed;
    }

    /** `add_document`: file `d` under its id, replacing any record already there. */
    method AddDocument(d: Document)
      requires Valid()
      modifies this
      ensures Valid()
      ensures documents == old(documents)[d.docId := d]
      ensures order == if d.docId in old(documents) then old(order) else old(order) + [d.docId]
      ensures d.docId !in old(documents) ==> Docs() == old(Docs()) + [d]
      ensures d.docId in old(documents) ==>
        && |Docs()| == |old(Docs())|
        && forall i :: 0 <= i < |Docs()| ==> Docs()[i] == if old(Docs())[i].docId == d.docId then d else old(Docs())[i]
    {
      if d.docId in documents {
        Replace(documents, order, d);
      } else {
        AddNew(documents, order, d);
        order := order + [d.docId];
      }
      documents := documents[d.docId := d];
    }

    /** `_get_document_amount`: the fields are tried in priority order and the first usable one wins. */
    static method GetDocumentAmount(d: Document) returns (r: Option<real>)
      ensures r == Amount(d)
    {
      var fields := AMOUNT_FIELDS;
      var i := 0;
      while i < |fields|
        invariant 0 <= i <= |fields|
        invariant AmountIn(d.metadata, fields[i..]) == Amount(d)
      {
        assert fields[i..][1..] == fields[i + 1..];
        var field := fields[i];
        if field in d.metadata && d.metadata[field] != Null {
          var n := Convert(d.metadata[field]);   // float(), or the exception it raises
          if n.Some? {
            return n;
          }
        }
        i := i + 1;
      }
      return None;
    }

    /** `_get_document_amount_from_chunk`: the same priority, no None test, 0.0 when nothing converts. */
    static method GetDocumentAmountFromChunk(c: Chunk) returns (r: real)
      ensures r == ChunkAmount(c)
    {
      var fields := AMOUNT_FIELDS;
      var i := 0;
      while i < |fields|
        invariant 0 <= i <= |fields|
        invariant ChunkAmountIn(c.metadata, fields[i..]) == ChunkAmount(c)
      {
        assert fields[i..][1..] == fields[i + 1..];
        var field := fields[i];
        if field in c.metadata {
          var n := Convert(c.metadata[field]);
          if n.Some? {
            return n.value;
          }
        }
        i := i + 1;
      }
      return 0.0;
    }

    /**
     * The relevance score of the keyword loop in `retrieve_by_keyword`: per token, 2.0 for the
     * title, 0.5 per occurrence in the content and 1.0 per metadata value that contains it.
     */
    static method ScoreDocument(d: Document, words: seq<string>) returns (score: real)
      requires forall w :: w in words ==> |w| > 0
      ensures score == Score(d, words)
    {
      var contentLower := Lower(d.content);
      var titleLower := Lower(d.title);
      score := 0.0;
      for j := 0 to |words|
        invariant score == Score(d, words[..j])
      {
        var w := words[j];
        ScoreStep(d, words, j);
        var before := score;
        if Contains(titleLower, w) {
          score := score + 2.0;
        }
        score := score + Count(contentLower, w) as real * 0.5;
        var hits := MetaHitCount(d.metadata, w);
        score := score + hits as real;
        assert score == before + TokenScore(d, w);
      }
      assert words[..|words|] == words;
    }

    /** The metadata loop of the keyword score: one point per value whose text contains `w`. */
    static method MetaHitCount(meta: Metadata, w: string) returns (n: nat)
      ensures n == MetaHits(meta, w)
    {
      n := 0;
      var rest := meta.Keys;
      ghost var hits: set<string> := {};
      while rest != {}
        invariant rest <= meta.Keys
        invariant hits == MetaHitKeys(meta, w) - rest
        invariant n == |hits|
        decreases |rest|
      {
        var k :| k in rest;
        if Contains(Lower(Str(meta[k])), w) {
          n := n + 1;
          hits := hits + {k};
        }
        rest := rest - {k};
      }
    }

    /** Whether the loop of a query keeps `d`, and with which relevance score. */
    static method HitOf(c: Criterion, d: Document) returns (h: Option<real>)
      requires WellFormed(c)
      ensures h == Hit(c, d)
    {
      match c
      case Every =>
        h := Some(1.0);
      case Keywords(q) =>
        var s := ScoreDocument(d, Split(Lower(q)));
        h := if s > 0.0 then Some(s) else None;
      case OfType(t) =>
        h := if Lower(d.docType) == Lower(t) then Some(1.0) else None;
      case HasAmount =>
        var a := GetDocumentAmount(d);
        h := if a.Some? then Some(1.0) else None;
      case InRange(lo, hi) =>
        var a := GetDocumentAmount(d);
        h := None;
        if a.Some? {
          var matches := true;
          if lo.Some? && a.value < lo.value {
            matches := false;
          }
          if hi.Some? && a.value > hi.value {
            matches := false;
          }
          if matches {
            h := Some(1.0);
          }
        }
      case Near(t, tol) =>
        var a := GetDocumentAmount(d);
        h := if a.Some? && Abs(a.value - t) <= tol then Some(1.0) else None;
      case Within(t, tol) =>
        var a := GetDocumentAmount(d);
        h := None;
        if a.Some? && t - tol <= a.value <= t + tol {
          var distance := Abs(a.value - t);
          h := Some(1.0 - distance / tol);
        }
    }

    /** The loop the queries share: one chunk per record `c` keeps, in store order. */
    method Collect(c: Criterion) returns (results: seq<Chunk>)
      requires Listed() && WellFormed(c)
      ensures results == Select(Docs(), c)
    {
      var docs := DocsOf(documents, order);   // self.documents.values()
      results := [];
      for i := 0 to |docs|
        invariant results == Select(docs[..i], c)
      {
        var d := docs[i];
        SelectStep(docs, i, c);
        var h := HitOf(c, d);
        if h.Some? {
          results := results + [Project(d, h.value)];
        }
      }
      assert docs[..|docs|] == docs;
    }

    /** `retrieve_all`. */
    method RetrieveAll() returns (results: seq<Chunk>)
      requires Listed()
      ensures Eval(Docs(), AllDocuments) == Ok(results)
    {
      results := Collect(Every);
    }

    /** `retrieve_by_keyword`: the matching records ranked by score, cut to `top_k`. */
    method RetrieveByKeyword(query: string, topK: int) returns (results: seq<Chunk>)
      requires Listed()
      ensures Eval(Docs(), Keyword(query, topK)) == Ok(results)
    {
      var found := Collect(Keywords(query));
      results := Take(RankByScore(found), topK);
    }

    /** `retrieve_by_type`: case-insensitive equality of the type. */
    method RetrieveByType(docType: string) returns (results: seq<Chunk>)
      requires Listed()
      ensures Eval(Docs(), ByType(docType)) == Ok(results)
    {
      results := Collect(OfType(docType));
    }

    /** `_retrieve_all_with_amounts`. */
    method RetrieveAllWithAmounts() returns (results: seq<Chunk>)
      requires Listed()
      ensures results == Select(Docs(), HasAmount)
    {
      results := Collect(HasAmount);
    }

    /** `retrieve_by_amount_range`: without bounds every record with an amount, else the bounded ones by amount. */
    method RetrieveByAmountRange(min: Option<real>, max: Option<real>) returns (results: seq<Chunk>)
      requires Listed()
      ensures Eval(Docs(), AmountRange(min, max)) == Ok(results)
    {
      if min.None? && max.None? {
        results := RetrieveAllWithAmounts();
        return;
      }
      var found := Collect(InRange(min, max));
      results := RankByAmount(found);
    }

    /**
     * The same loop where keeping a record raises `err` instead: it stops at the first record
     * `c` keeps, and returns an empty list when `c` keeps none.
     */
    method RaiseOnHit(c: Criterion, err: QueryError) returns (r: Result<seq<Chunk>, QueryError>)
      requires Listed() && WellFormed(c)
      ensures r == if Select(Docs(), c) == [] then Ok([]) else Err(err)
    {
      var docs := DocsOf(documents, order);   // self.documents.values()
      for i := 0 to |docs|
        invariant Select(docs[..i], c) == []
      {
        var d := docs[i];
        SelectStep(docs, i, c);
        var h := HitOf(c, d);
        if h.Some? {
          SelectKeeps(docs, i, c);
          return Err(err);
        }
      }
      assert docs[..|docs|] == docs;
      return Ok([]);
    }

    /**
     * `retrieve_by_exact_amount`: the records whose amount is within `tolerance` of the target.
     * With a missing target, `abs(doc_amount - None)` raises at the first record that has an
     * amount, and nothing is returned when no record has one.
     */
    method RetrieveByExactAmount(amount: Option<real>, tolerance: real) returns (r: Result<seq<Chunk>, QueryError>)
      requires Listed()
      ensures r == Eval(Docs(), ExactAmount(amount, tolerance))
    {
      if amount.Some? {
        var results := Collect(Near(amount.value, tolerance));
        return Ok(results);
      }
      r := RaiseOnHit(HasAmount, TypeMismatch);
    }

    /**
     * `retrieve_by_approximate_amount`: the records within `percentage` percent of the target,
     * the closest first. A missing target raises before the loop. A zero band keeps only
     * records whose amount is the target, and the score of the first one divides by zero.
     */
    method RetrieveByApproximateAmount(amount: Option<real>, percentage: real) returns (r: Result<seq<Chunk>, QueryError>)
      requires Listed()
      ensures r == Eval(Docs(), ApproximateAmount(amount, percentage))
    {
      if amount.None? {
        return Err(TypeMismatch);
      }
      var target := amount.value;
      var tolerance := Tolerance(target, percentage);
      if tolerance == 0.0 {
        r := RaiseOnHit(Near(target, 0.0), DivisionByZero);
        return;
      }
      var results := Collect(Within(target, tolerance));
      return Ok(RankByScore(results));
    }

    /** Runs one store call. */
    method Run(q: Query) returns (r: Result<seq<Chunk>, QueryError>)
      requires Listed()
      ensures r == Eval(Docs(), q)
    {
      match q
      case AllDocuments =>
        var results := RetrieveAll();
        r := Ok(results);
      case Keyword(text, k) =>
        var results := RetrieveByKeyword(text, k);
        r := Ok(results);
      case ByType(t) =>
        var results := RetrieveByType(t);
        r := Ok(results);
      case AmountRange(lo, hi) =>
        var results := RetrieveByAmountRange(lo, hi);
        r := Ok(results);
      case ExactAmount(target, tol) =>
        r := RetrieveByExactAmount(target, tol);
      case ApproximateAmount(target, p) =>
        r := RetrieveByApproximateAmount(target, p);
    }

    /** `_parse_and_retrieve_by_amount`: the cue chain, then the band around the numbers, then keywords. */
    method ParseAndRetrieveByAmount(question: string) returns (r: Result<seq<Chunk>, QueryError>)
      requires Listed()
      ensures r == Eval(Docs(), ParseQuery(question))
    {
      var queryLower := Lower(question);
      var amounts := Amounts(question);
      var cue := FirstCue(queryLower);
      assert ParseQuery(question) == QueryFor(cue, amounts, question);
      if cue == OverCue {
        if |amounts| > 0 {
          var results := RetrieveByAmountRange(Some(amounts[0]), None);
          return Ok(results);
        }
      } else if cue == UnderCue {
        if |amounts| > 0 {
          var results := RetrieveByAmountRange(None, Some(amounts[0]));
          return Ok(results);
        }
      } else if cue == BetweenCue {
        if |amounts| >= 2 {
          var results := RetrieveByAmountRange(Some(Min(amounts[0], amounts[1])), Some(Max(amounts[0], amounts[1])));
          return Ok(results);
        }
      } else if cue == AroundCue {
        if |amounts| > 0 {
          r := RetrieveByApproximateAmount(Some(amounts[0]), DEFAULT_PERCENTAGE);
          return;
        }
      } else if cue == ExactCue {
        if |amounts| > 0 {
          r := RetrieveByExactAmount(Some(amounts[0]), DEFAULT_TOLERANCE);
          return;
        }
      }
      FallsThrough(cue, amounts, question);
      if |amounts| > 0 {
        var low, high := Least(amounts) * 0.9, Greatest(amounts) * 1.1;
        assert ParseQuery(question) == AmountRange(Some(low), Some(high));
        var results := RetrieveByAmountRange(Some(low), Some(high));
        return Ok(results);
      }
      assert ParseQuery(question) == Keyword(question, DEFAULT_TOP_K);
      var results := RetrieveByKeyword(question, DEFAULT_TOP_K);
      return Ok(results);
    }

    /** `retrieve_by_amount`: a recognised comparison name picks the call, anything else parses the question. */
    method RetrieveByAmount(question: string, comparison: Option<string>, amount: Option<real>,
                            min: Option<real>, max: Option<real>) returns (r: Result<seq<Chunk>, QueryError>)
      requires Listed()
      ensures r == Eval(Docs(), AmountQuery(question, comparison, amount, min, max))
    {
      if comparison.Some? && comparison.value != "" {
        var c := comparison.value;
        if c in GREATER_NAMES {
          var results := RetrieveByAmountRange(amount, None);
          return Ok(results);
        } else if c in LESS_NAMES {
          var results := RetrieveByAmountRange(None, amount);
          return Ok(results);
        } else if c in EXACT_NAMES {
          r := RetrieveByExactAmount(amount, DEFAULT_TOLERANCE);
          return;
        } else if c in APPROXIMATE_NAMES {
          r := RetrieveByApproximateAmount(amount, DEFAULT_PERCENTAGE);
          return;
        } else if c in RANGE_NAMES {
          var results := RetrieveByAmountRange(min, max);
          return Ok(results);
        }
      }
      r := ParseAndRetrieveByAmount(question);
    }

    /** `get_document_by_id`: the chunk of the record with that id, if there is one. */
    method GetDocumentById(id: string) returns (r: Option<Chunk>)
      requires Valid()
      ensures r.None? <==> forall i :: 0 <= i < |Docs()| ==> Docs()[i].docId != id
      ensures forall i :: 0 <= i < |Docs()| && Docs()[i].docId == id ==> r == Some(Project(Docs()[i], 1.0))
    {
      if id in documents {
        var d := documents[id];
        r := Some(Project(d, 1.0));
        var i :| 0 <= i < |order| && order[i] == id;
        assert Docs()[i].docId == id;
      } else {
        r := None;
      }
    }

    /**
     * The loop of `get_statistics` over the records in store order: the count per type, and the
     * number, running total and list of the derived amounts.
     */
    static method Tally(docs: seq<Document>) returns (withAmounts: nat, total: real, amounts: seq<real>, types: seq<(string, nat)>)
      ensures amounts == AmountsOf(docs)
      ensures withAmounts == |amounts| && total == Sum(amounts)
      ensures types == TypeCounts(docs)
    {
      withAmounts, total, amounts, types := 0, 0.0, [], [];
      for i := 0 to |docs|
        invariant types == TypeCounts(docs[..i])
        invariant amounts == AmountsOf(docs[..i])
        invariant withAmounts == |amounts|
        invariant total == Sum(amounts)
      {
        var d := docs[i];
        StatsStep(docs, i);
        types := Bump(types, d.docType);
        var a := GetDocumentAmount(d);
        if a.Some? {
          withAmounts := withAmounts + 1;
          total := total + a.value;
          SumStep(amounts, a.value);
          amounts := amounts + [a.value];
        }
      }
      assert docs[..|docs|] == docs;
    }

    /** `get_statistics`: one pass over the records in store order. */
    method GetStatistics() returns (s: Stats)
      requires Valid()
      ensures s == StatsOf(Docs())
    {
      var totalDocs := |documents|;
      var docs := DocsOf(documents, order);   // self.documents.values()
      var withAmounts, total, amounts, types := Tally(docs);
      s := Stats(
        totalDocs,
        withAmounts,
        total,
        Average(total, withAmounts),
        types,
        if |amounts| > 0 then Some(Least(amounts)) else None,
        if |amounts| > 0 then Some(Greatest(amounts)) else None);
    }
  }
}
