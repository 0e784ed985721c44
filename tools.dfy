/**
 * The document-search tool: how its arguments are routed to the store. `_handle_amount_search`
 * picks one store call from the amount arguments; `document_search` picks a call from the
 * search type, intersects a type search with an amount search by id, and otherwise guesses
 * the kind of search from the words of the query.
 */
module Tools {
  import opened Wrappers
  import opened Text
  import opened AmountText
  import opened Documents
  import opened Queries
  import opened Parsing
  import opened QueryMeaning
  import opened Retrieval

  /** Python truthiness of an optional string: present and not empty. */
  predicate Truthy(s: Option<string>)
  {
    s.Some? && s.value != ""
  }

  /**
   * The store call `_handle_amount_search` makes. A comparison applies only with the amounts
   * it needs; otherwise an explicit bound gives a range, and without one the query is parsed.
   */
  function AmountSearch(comparison: Option<string>, amount: Option<real>,
                        min: Option<real>, max: Option<real>, query: string): (r: Query)
    ensures !r.AllDocuments? && !r.ByType?
    ensures (r.ExactAmount? || r.ApproximateAmount?) ==> r.target.Some?
    ensures r.Keyword? ==> r == Keyword(query, DEFAULT_TOP_K)
  {
    if Truthy(comparison) && comparison.value == "over" && amount.Some? then AmountRange(amount, None)
    else if Truthy(comparison) && comparison.value == "under" && amount.Some? then AmountRange(None, amount)
    else if Truthy(comparison) && comparison.value == "exact" && amount.Some? then
      ExactAmount(amount, DEFAULT_TOLERANCE)
    else if Truthy(comparison) && comparison.value == "approximate" && amount.Some? then
      ApproximateAmount(amount, DEFAULT_PERCENTAGE)
    else if Truthy(comparison) && comparison.value == "between" && min.Some? && max.Some? then
      AmountRange(min, max)
    else if min.Some? || max.Some? then AmountRange(min, max)
    else ParseQuery(query)
  }

  /** The call made when no comparison applies: a range on the bounds given, or the parsed query. */
  function NoComparison(min: Option<real>, max: Option<real>, query: string): Query
  {
    if min.Some? || max.Some? then AmountRange(min, max) else ParseQuery(query)
  }

  /** "over" and "under" with an amount are one-sided ranges; "exact" and "approximate" search around it. */
  lemma AmountSearchComparisons(amount: real, min: Option<real>, max: Option<real>, query: string)
    ensures AmountSearch(Some("over"), Some(amount), min, max, query) == AmountRange(Some(amount), None)
    ensures AmountSearch(Some("under"), Some(amount), min, max, query) == AmountRange(None, Some(amount))
    ensures AmountSearch(Some("exact"), Some(amount), min, max, query) == ExactAmount(Some(amount), DEFAULT_TOLERANCE)
    ensures AmountSearch(Some("approximate"), Some(amount), min, max, query) ==
      ApproximateAmount(Some(amount), DEFAULT_PERCENTAGE)
  {
  }

  /**
   * "between" applies only with both bounds; a comparison without the amount it needs, an
   * unknown comparison or none at all falls through to the bounds, then to the parser.
   */
  lemma AmountSearchFallsThrough(comparison: Option<string>, amount: Option<real>,
                                 min: Option<real>, max: Option<real>, query: string)
    ensures comparison == Some("between") && min.Some? && max.Some? ==>
      AmountSearch(comparison, amount, min, max, query) == AmountRange(min, max)
    ensures comparison == Some("between") && (min.None? || max.None?) ==>
      AmountSearch(comparison, amount, min, max, query) == NoComparison(min, max, query)
    ensures amount.None? && comparison != Some("between") ==>
      AmountSearch(comparison, amount, min, max, query) == NoComparison(min, max, query)
    ensures !Truthy(comparison) ==> AmountSearch(comparison, amount, min, max, query) == NoComparison(min, max, query)
    ensures Truthy(comparison) && !(comparison.value in ["over", "under", "exact", "approximate", "between"]) ==>
      AmountSearch(comparison, amount, min, max, query) == NoComparison(min, max, query)
  {
  }

  /** The amount search never hands the store a missing amount, so it never raises a type error. */
  lemma AmountSearchNeverMismatches(docs: seq<Document>, comparison: Option<string>, amount: Option<real>,
                                    min: Option<real>, max: Option<real>, query: string)
    ensures Eval(docs, AmountSearch(comparison, amount, min, max, query)) != Err(TypeMismatch)
  {
    var q := AmountSearch(comparison, amount, min, max, query);
    if q == ParseQuery(query) {
      ParseNeverMismatches(docs, query);
    } else {
      assert q.AmountRange? || (q.ExactAmount? && q.target.Some?) || (q.ApproximateAmount? && q.target.Some?);
    }
  }

  /** `[r for r in results if r.doc_id in ids]`. */
  function KeepIds(results: seq<Chunk>, ids: set<string>): (r: seq<Chunk>)
    ensures |r| <= |results|
  {
    if results == [] then []
    else
      var last := results[|results| - 1];
      KeepIds(results[..|results| - 1], ids) + (if last.docId in ids then [last] else [])
  }

  /** A chunk is kept exactly when it is among the results and its id is among `ids`. */
  lemma {:induction false} KeepIdsMembers(results: seq<Chunk>, ids: set<string>)
    ensures forall x :: x in KeepIds(results, ids) <==> x in results && x.docId in ids
  {
    if results != [] {
      var init, last := results[..|results| - 1], results[|results| - 1];
      KeepIdsMembers(init, ids);
      assert results == init + [last];
    }
  }

  /** Filtering keeps the order of the results: it distributes over concatenation. */
  lemma {:induction false} KeepIdsAppend(a: seq<Chunk>, b: seq<Chunk>, ids: set<string>)
    ensures KeepIds(a + b, ids) == KeepIds(a, ids) + KeepIds(b, ids)
    decreases |b|
  {
    if b == [] {
      assert a + b == a;
    } else {
      var init, last := b[..|b| - 1], b[|b| - 1];
      assert (a + b)[..|a + b| - 1] == a + init;
      KeepIdsAppend(a, init, ids);
    }
  }

  /** Results whose ids are all in `ids` are kept whole. */
  lemma {:induction false} KeepIdsAll(results: seq<Chunk>, ids: set<string>)
    requires forall i :: 0 <= i < |results| ==> results[i].docId in ids
    ensures KeepIds(results, ids) == results
  {
    if results != [] {
      var init := results[..|results| - 1];
      assert forall i :: 0 <= i < |init| ==> init[i] == results[i];
      KeepIdsAll(init, ids);
    }
  }

  /** What `document_search` does with its search type. */
  datatype Plan =
    | Call(q: Query)                              // one store call
    | Intersect(docType: string, amounts: Query)  // a type search cut to the ids of an amount search

  /** The amount words that send a free-form query to the amount parser. */
  const AMOUNT_WORDS: seq<string> := ["over", "under", "above", "below", "between", "around", "exactly", "$"]

  /** The document types a free-form query may name, in the order they are tried. */
  const TYPE_WORDS: seq<string> := ["invoice", "contract", "claim"]

  /** The first of `words` that occurs in `text`. */
  function FirstMentioned(text: string, words: seq<string>): (r: Option<string>)
    ensures r.Some? ==> r.value in words && Contains(text, r.value)
  {
    if words == [] then None
    else if Contains(text, words[0]) then Some(words[0])
    else FirstMentioned(text, words[1..])
  }

  /** Some word is found exactly when some word occurs. */
  lemma {:induction false} FirstMentionedMeaning(text: string, words: seq<string>)
    ensures FirstMentioned(text, words).Some? <==> Mentioned(text, words)
  {
    if words != [] {
      var rest := words[1..];
      FirstMentionedMeaning(text, rest);
      if Mentioned(text, words) && !Contains(text, words[0]) {
        var k :| 0 <= k < |words| && Contains(text, words[k]);
        assert rest[k - 1] == words[k];
      }
      if Mentioned(text, rest) {
        var k :| 0 <= k < |rest| && Contains(text, rest[k]);
        assert words[k + 1] == rest[k];
      }
    }
  }

  /**
   * The fallback of `document_search`: a query with an amount word is parsed as an amount
   * question; else the first type word it names selects a type search; else keywords.
   */
  function FreeFormQuery(query: string): (r: Query)
    ensures !r.AllDocuments?
    ensures r.ByType? ==> r.docType in TYPE_WORDS && Contains(Lower(query), r.docType)
    ensures r.Keyword? ==> r == Keyword(query, DEFAULT_TOP_K)
  {
    var text := Lower(query);
    if Mentioned(text, AMOUNT_WORDS) then ParseQuery(query)
    else match FirstMentioned(text, TYPE_WORDS)
      case Some(t) => ByType(t)
      case None => Keyword(query, DEFAULT_TOP_K)
  }

  /** The routing of the fallback, word family by word family. */
  lemma FreeFormRouting(query: string)
    ensures var text := Lower(query);
      && (Mentioned(text, AMOUNT_WORDS) ==> FreeFormQuery(query) == ParseQuery(query))
      && (!Mentioned(text, AMOUNT_WORDS) && Contains(text, "invoice") ==> FreeFormQuery(query) == ByType("invoice"))
      && (!Mentioned(text, AMOUNT_WORDS) && !Contains(text, "invoice") && Contains(text, "contract") ==>
            FreeFormQuery(query) == ByType("contract"))
      && ((!Mentioned(text, AMOUNT_WORDS) && !Contains(text, "invoice") && !Contains(text, "contract")
             && Contains(text, "claim")) ==> FreeFormQuery(query) == ByType("claim"))
      && (!Mentioned(text, AMOUNT_WORDS) && !Mentioned(text, TYPE_WORDS) ==>
            FreeFormQuery(query) == Keyword(query, DEFAULT_TOP_K))
  {
    var text := Lower(query);
    FirstMentionedMeaning(text, TYPE_WORDS);
    assert TYPE_WORDS[0] == "invoice" && TYPE_WORDS[1..] == ["contract", "claim"];
    assert ["contract", "claim"][0] == "contract" && ["contract", "claim"][1..] == ["claim"];
    assert ["claim"][0] == "claim" && ["claim"][1..] == [];
    if !Contains(text, "invoice") {
      assert FirstMentioned(text, TYPE_WORDS) == FirstMentioned(text, ["contract", "claim"]);
      if !Contains(text, "contract") {
        assert FirstMentioned(text, ["contract", "claim"]) == FirstMentioned(text, ["claim"]);
      }
    }
  }

  /**
   * The `if/elif` chain of `document_search` after its first test (keyword, type with
   * optional amount criteria, amount, free form). Every branch assigns the results.
   */
  function Chain(query: string, searchType: string, docType: Option<string>, min: Option<real>,
                 max: Option<real>, comparison: Option<string>, amount: Option<real>): (r: Plan)
    ensures !(r.Call? && r.q.AllDocuments?)
    ensures r.Intersect? ==> searchType == "type" && Truthy(docType) && r.docType == docType.value
    ensures r.Intersect? ==> !r.amounts.AllDocuments? && !r.amounts.ByType?
    ensures searchType !in {"keyword", "type", "amount", "amount_range"} ==> r == Call(FreeFormQuery(query))
  {
    if searchType == "keyword" then Call(Keyword(query, DEFAULT_TOP_K))
    else if searchType == "type" && Truthy(docType) then
      if Truthy(comparison) || min.Some? || max.Some?
      then Intersect(docType.value, AmountSearch(comparison, amount, min, max, query))
      else Call(ByType(docType.value))
    else if searchType == "amount" || searchType == "amount_range" then
      Call(AmountSearch(comparison, amount, min, max, query))
    else Call(FreeFormQuery(query))
  }

  /**
   * `document_search` as written: the "all" test is a separate `if`, so the chain after it
   * runs for "all" as well and its results replace those of `retrieve_all`.
   */
  function PlanAsWritten(query: string, searchType: string, docType: Option<string>, min: Option<real>,
                         max: Option<real>, comparison: Option<string>, amount: Option<real>): (r: Plan)
    ensures !(r.Call? && r.q.AllDocuments?)
    ensures searchType == "all" ==> r == Call(FreeFormQuery(query))
  {
    Chain(query, searchType, docType, min, max, comparison, amount)
  }

  /** `document_search` as evidently intended: "all" is the first branch of the chain. */
  function PlanOf(query: string, searchType: string, docType: Option<string>, min: Option<real>,
                  max: Option<real>, comparison: Option<string>, amount: Option<real>): (r: Plan)
    ensures searchType == "all" ==> r == Call(AllDocuments)
    ensures r.Intersect? ==> searchType == "type" && Truthy(docType) && r.docType == docType.value
    ensures r.Intersect? ==> !r.amounts.AllDocuments? && !r.amounts.ByType?
    ensures r.Call? && r.q.Keyword? ==> r.q.topK == DEFAULT_TOP_K
  {
    if searchType == "all" then Call(AllDocuments)
    else Chain(query, searchType, docType, min, max, comparison, amount)
  }

  /** What a plan returns on the records `docs`; an exception of the amount search ends the search. */
  function Outcome(docs: seq<Document>, p: Plan): (r: Result<seq<Chunk>, QueryError>)
    ensures r.Err? ==> if p.Call? then p.q.ExactAmount? || p.q.ApproximateAmount? else Eval(docs, p.amounts).Err?
    ensures r.Ok? && p.Intersect? ==> |r.value| <= |Eval(docs, ByType(p.docType)).value|
  {
    match p
    case Call(q) => Eval(docs, q)
    case Intersect(t, aq) =>
      match Eval(docs, aq)
      case Err(e) => Err(e)
      case Ok(amountResults) => Ok(KeepIds(Eval(docs, ByType(t)).value, IdsOf(amountResults)))
  }

  /**
   * A type search with amount criteria returns the type results whose ids the amount search
   * also returned, in type-result order: a subset of both.
   */
  lemma IntersectMeaning(docs: seq<Document>, t: string, aq: Query)
    requires Eval(docs, aq).Ok?
    ensures Outcome(docs, Intersect(t, aq)).Ok?
    ensures var r := Outcome(docs, Intersect(t, aq)).value;
      && r == KeepIds(Eval(docs, ByType(t)).value, IdsOf(Eval(docs, aq).value))
      && forall x :: x in r <==> x in Eval(docs, ByType(t)).value && x.docId in IdsOf(Eval(docs, aq).value)
  {
    KeepIdsMembers(Eval(docs, ByType(t)).value, IdsOf(Eval(docs, aq).value));
  }

  /** Both plans agree on every search type other than "all". */
  lemma PlansAgree(query: string, searchType: string, docType: Option<string>, min: Option<real>,
                   max: Option<real>, comparison: Option<string>, amount: Option<real>)
    requires searchType != "all"
    ensures PlanOf(query, searchType, docType, min, max, comparison, amount) ==
      PlanAsWritten(query, searchType, docType, min, max, comparison, amount)
  {
  }

  /** An empty query names no amount word and no type word. */
  lemma EmptyQueryIsKeyword()
    ensures FreeFormQuery("") == Keyword("", DEFAULT_TOP_K)
  {
    assert Lower("") == "";
    forall k | 0 <= k < |AMOUNT_WORDS| ensures !Contains("", AMOUNT_WORDS[k]) {
      assert |AMOUNT_WORDS[k]| > 0;
    }
    forall k | 0 <= k < |TYPE_WORDS| ensures !Contains("", TYPE_WORDS[k]) {
      assert |TYPE_WORDS[k]| > 0;
    }
    FirstMentionedMeaning("", TYPE_WORDS);
  }

  /** A keyword search for the empty query scores every record 0 and returns nothing. */
  lemma EmptyKeywordSearch(docs: seq<Document>)
    ensures Eval(docs, Keyword("", DEFAULT_TOP_K)) == Ok([])
  {
    assert Lower("") == [] && Split([]) == [];
    forall i | 0 <= i < |docs| ensures Hit(Keywords(""), docs[i]).None? {
      assert Score(docs[i], []) == 0.0;
    }
    SelectEmpty(docs, Keywords(""));
  }

  /**
   * As written, "all" with an empty query returns no record at all, whatever the store holds:
   * the free-form fallback runs a keyword search for "".
   */
  lemma AllAsWrittenLosesRecords(docs: seq<Document>, docType: Option<string>, min: Option<real>,
                                 max: Option<real>, comparison: Option<string>, amount: Option<real>)
    ensures Outcome(docs, PlanAsWritten("", "all", docType, min, max, comparison, amount)) == Ok([])
  {
    EmptyQueryIsKeyword();
    EmptyKeywordSearch(docs);
  }

  /** As intended, "all" returns one chunk per record, in store order, whatever the query. */
  lemma AllReturnsEveryRecord(docs: seq<Document>, query: string, docType: Option<string>, min: Option<real>,
                              max: Option<real>, comparison: Option<string>, amount: Option<real>)
    ensures var r := Outcome(docs, PlanOf(query, "all", docType, min, max, comparison, amount));
      && r.Ok? && |r.value| == |docs|
      && forall i :: 0 <= i < |docs| ==> r.value[i] == Project(docs[i], 1.0)
  {
    AllMeaning(docs);
  }

  /**
   * The message shown for an empty result list, written as short joined literals so that
   * the solver can take its first character without unfolding the whole text.
   */
  const NO_RESULTS: string := "No documents " + "found matching " + "your search criteria."

  /**
   * The first line of the reply: the no-results message, or the number of documents found.
   * The no-results message appears exactly when nothing was found.
   */
  function Headline(results: seq<Chunk>): (r: string)
    ensures r == NO_RESULTS <==> results == []
  {
    if results == [] then NO_RESULTS
    else
      var head := "Found " + Numeral(|results|);
      assert head[0] == 'F';
      assert NO_RESULTS[0] == ("No documents " + "found matching ")[0] == 'N';
      head + " document(s):\n\n"
  }

  /** The fallback's type loop: the first type word the lower-cased query contains. */
  method FirstTypeWord(text: string) returns (t: Option<string>)
    ensures t == FirstMentioned(text, TYPE_WORDS)
  {
    var words := TYPE_WORDS;
    t := None;
    var i := 0;
    while i < |words|
      invariant 0 <= i <= |words|
      invariant FirstMentioned(text, words) == FirstMentioned(text, words[i..])
    {
      if Contains(text, words[i]) {
        return Some(words[i]);
      }
      assert words[i..][1..] == words[i + 1..];
      i := i + 1;
    }
  }

  /** `[r for r in results if r.doc_id in ids]`, one result at a time. */
  method KeepWithIds(results: seq<Chunk>, ids: set<string>) returns (kept: seq<Chunk>)
    ensures kept == KeepIds(results, ids)
  {
    kept := [];
    for i := 0 to |results|
      invariant kept == KeepIds(results[..i], ids)
    {
      assert results[..i + 1][..i] == results[..i];
      if results[i].docId in ids {
        kept := kept + [results[i]];
      }
    }
    assert results[..|results|] == results;
  }

  /** The free-form fallback of `document_search`: amount words, then type words, then keywords. */
  method FreeFormSearch(retriever: Retriever, query: string) returns (r: Result<seq<Chunk>, QueryError>)
    requires retriever.Listed()
    ensures r == Eval(retriever.Docs(), FreeFormQuery(query))
  {
    var queryLower := Lower(query);
    var amountWords := AnyMentioned(queryLower, AMOUNT_WORDS);
    if amountWords {
      r := retriever.ParseAndRetrieveByAmount(query);
      return;
    }
    var typeWord := FirstTypeWord(queryLower);
    var results;
    if typeWord.Some? {
      results := retriever.RetrieveByType(typeWord.value);
    } else {
      results := retriever.RetrieveByKeyword(query, DEFAULT_TOP_K);
    }
    r := Ok(results);
  }

  /** A type search cut to the ids an amount search returns (`result_ids` and the filter). */
  method TypeAndAmountSearch(retriever: Retriever, docType: string, amountQuery: Query)
    returns (r: Result<seq<Chunk>, QueryError>)
    requires retriever.Listed()
    ensures r == Outcome(retriever.Docs(), Intersect(docType, amountQuery))
  {
    var results := retriever.RetrieveByType(docType);
    var amountResults := retriever.Run(amountQuery);
    if amountResults.Err? {
      return Err(amountResults.error);
    }
    var resultIds := IdsOf(amountResults.value);
    results := KeepWithIds(results, resultIds);
    r := Ok(results);
  }

  /**
   * `document_search` up to the formatting of its reply, with "all" as the first branch of the
   * chain. A store exception ends the search with that exception.
   */
  method DocumentSearch(retriever: Retriever, query: string, searchType: string, docType: Option<string>,
                        min: Option<real>, max: Option<real>, comparison: Option<string>, amount: Option<real>)
    returns (r: Result<seq<Chunk>, QueryError>)
    requires retriever.Listed()
    ensures r == Outcome(retriever.Docs(), PlanOf(query, searchType, docType, min, max, comparison, amount))
  {
    if searchType == "all" {
      var results := retriever.RetrieveAll();
      r := Ok(results);
    } else if searchType == "keyword" {
      var results := retriever.RetrieveByKeyword(query, DEFAULT_TOP_K);
      r := Ok(results);
    } else if searchType == "type" && Truthy(docType) {
      if Truthy(comparison) || min.Some? || max.Some? {
        r := TypeAndAmountSearch(retriever, docType.value, AmountSearch(comparison, amount, min, max, query));
      } else {
        var results := retriever.RetrieveByType(docType.value);
        r := Ok(results);
      }
    } else if searchType == "amount" || searchType == "amount_range" {
      r := retriever.Run(AmountSearch(comparison, amount, min, max, query));
    } else {
      r := FreeFormSearch(retriever, query);
    }
  }
}
