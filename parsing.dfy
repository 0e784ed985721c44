/**
 * How the store reads an amount question: `_parse_and_retrieve_by_amount`, which picks a
 * query from the cue words and the numbers of a natural-language question, and
 * `retrieve_by_amount`, which prefers an explicit comparison name and otherwise parses.
 * Both are modelled as the `Query` they hand to the store; the store's methods run it.
 */
module Parsing {
  import opened Wrappers
  import opened Text
  import opened AmountText
  import opened Ranking
  import opened Queries

  /** The cue words of each comparison, looked up as substrings in the lower-cased question. */
  const OVER_CUES: seq<string> := ["over", "above", "more than", "greater than", ">"]
  const UNDER_CUES: seq<string> := ["under", "below", "less than", "<"]
  const BETWEEN_CUES: seq<string> := ["between", "range", "from"]
  const AROUND_CUES: seq<string> := ["around", "about", "approximately", "roughly", "~"]
  const EXACT_CUES: seq<string> := ["exactly", "exact", "precisely", "="]

  /** `any(word in text for word in cues)`. */
  predicate Mentioned(text: string, cues: seq<string>)
  {
    exists i :: 0 <= i < |cues| && Contains(text, cues[i])
  }

  /** The comparison families, in the order the parser tests them. */
  datatype Cue = OverCue | UnderCue | BetweenCue | AroundCue | ExactCue | NoCue

  /** The first family whose cue words occur in the lower-cased question (the `if/elif` chain). */
  function CueOf(text: string): Cue
  {
    if Mentioned(text, OVER_CUES) then OverCue
    else if Mentioned(text, UNDER_CUES) then UnderCue
    else if Mentioned(text, BETWEEN_CUES) then BetweenCue
    else if Mentioned(text, AROUND_CUES) then AroundCue
    else if Mentioned(text, EXACT_CUES) then ExactCue
    else NoCue
  }

  /** `min(a, b)` and `max(a, b)`. */
  function Min(a: real, b: real): real { if a <= b then a else b }
  function Max(a: real, b: real): real { if a >= b then a else b }

  /**
   * The query `_parse_and_retrieve_by_amount(question)` runs. A family whose cue occurs but
   * whose numbers are missing (none, or fewer than two for a range) runs no query of its own
   * and falls through to the default: a band from 90% of the smallest number to 110% of the
   * largest, or a keyword search when the question has no number at all.
   */
  function ParseQuery(question: string): (r: Query)
    ensures !r.AllDocuments? && !r.ByType?
    ensures (r.ExactAmount? || r.ApproximateAmount?) ==> r.target.Some?
    ensures r.Keyword? ==> r == Keyword(question, DEFAULT_TOP_K)
  {
    QueryFor(CueOf(Lower(question)), Amounts(question), question)
  }

  /** The decision of `_parse_and_retrieve_by_amount`, given the first cue family and the numbers found. */
  function QueryFor(cue: Cue, amounts: seq<real>, question: string): Query
  {
    if cue == OverCue && |amounts| >= 1 then AmountRange(Some(amounts[0]), None)
    else if cue == UnderCue && |amounts| >= 1 then AmountRange(None, Some(amounts[0]))
    else if cue == BetweenCue && |amounts| >= 2 then
      AmountRange(Some(Min(amounts[0], amounts[1])), Some(Max(amounts[0], amounts[1])))
    else if cue == AroundCue && |amounts| >= 1 then ApproximateAmount(Some(amounts[0]), DEFAULT_PERCENTAGE)
    else if cue == ExactCue && |amounts| >= 1 then ExactAmount(Some(amounts[0]), DEFAULT_TOLERANCE)
    else if |amounts| >= 1 then AmountRange(Some(Least(amounts) * 0.9), Some(Greatest(amounts) * 1.1))
    else Keyword(question, DEFAULT_TOP_K)
  }

  /**
   * A family whose numbers are missing runs no query of its own: the decision is then the same
   * as with no cue at all, a band around the numbers or a keyword search.
   */
  lemma FallsThrough(cue: Cue, amounts: seq<real>, question: string)
    requires cue == BetweenCue ==> |amounts| < 2
    requires cue != BetweenCue && cue != NoCue ==> amounts == []
    ensures QueryFor(cue, amounts, question) == QueryFor(NoCue, amounts, question)
  {
  }

  /** A question turns into a keyword search (with the default `top_k`) exactly when it has no digit. */
  lemma ParseKeywordIffNoDigit(question: string)
    ensures ParseQuery(question).Keyword? <==> !HasDigit(question)
    ensures ParseQuery(question).Keyword? ==> ParseQuery(question) == Keyword(question, DEFAULT_TOP_K)
  {
    AmountsIffDigit(question);
  }

  /**
   * Cue precedence: when the question has a number, an "over" cue wins over every other cue,
   * an "under" cue over the remaining ones, and so on; the bound or target is the first number.
   */
  lemma ParseFollowsCues(question: string)
    requires Amounts(question) != []
    ensures var text := Lower(question);
      var first := Amounts(question)[0];
      && (Mentioned(text, OVER_CUES) ==> ParseQuery(question) == AmountRange(Some(first), None))
      && (!Mentioned(text, OVER_CUES) && Mentioned(text, UNDER_CUES) ==>
            ParseQuery(question) == AmountRange(None, Some(first)))
      && (CueOf(text) == AroundCue ==> ParseQuery(question) == ApproximateAmount(Some(first), DEFAULT_PERCENTAGE))
      && (CueOf(text) == ExactCue ==> ParseQuery(question) == ExactAmount(Some(first), DEFAULT_TOLERANCE))
  {
  }

  /**
   * A range cue with two numbers searches between them whichever order they are written in;
   * with a single number it falls back to the band around it. (`ParseQuery(question)` is this
   * decision for `CueOf(Lower(question)) == BetweenCue` and `amounts == Amounts(question)`.)
   */
  lemma ParseBetween(amounts: seq<real>, question: string)
    ensures |amounts| >= 2 ==>
      QueryFor(BetweenCue, amounts, question) ==
      AmountRange(Some(Min(amounts[0], amounts[1])), Some(Max(amounts[0], amounts[1])))
    ensures |amounts| >= 2 ==> Min(amounts[0], amounts[1]) <= Max(amounts[0], amounts[1])
    ensures |amounts| == 1 ==>
      QueryFor(BetweenCue, amounts, question) == AmountRange(Some(amounts[0] * 0.9), Some(amounts[0] * 1.1))
  {
    if |amounts| == 1 {
      assert Least(amounts) == amounts[0] && Greatest(amounts) == amounts[0];
    }
  }

  /**
   * Without a usable cue, a question with numbers searches a band that holds every number it
   * mentions: from 90% of the smallest to 110% of the largest.
   */
  lemma ParseFallbackBand(question: string)
    requires Amounts(question) != []
    requires CueOf(Lower(question)) == NoCue
    ensures ParseQuery(question).AmountRange?
    ensures ParseQuery(question).min.Some? && ParseQuery(question).max.Some?
    ensures forall x :: x in Amounts(question) ==>
      ParseQuery(question).min.value <= x <= ParseQuery(question).max.value
  {
  }

  /**
   * Every bound or target the parser produces is one of the question's numbers (or a band
   * around them), so it is never negative, and a two-sided range is never empty.
   */
  lemma ParseBoundsSound(question: string)
    ensures var q := ParseQuery(question);
      && (q.AmountRange? && q.min.Some? ==> q.min.value >= 0.0)
      && (q.AmountRange? && q.max.Some? ==> q.max.value >= 0.0)
      && (q.AmountRange? && q.min.Some? && q.max.Some? ==> q.min.value <= q.max.value)
      && (q.ExactAmount? ==> q.target.Some? && q.target.value >= 0.0)
      && (q.ApproximateAmount? ==> q.target.Some? && q.target.value >= 0.0)
  {
    var amounts := Amounts(question);
    if amounts != [] {
      assert amounts[0] in amounts;
      assert amounts[0] >= 0.0;
      if |amounts| >= 2 {
        assert amounts[1] in amounts;
      }
    }
  }

  /** A parsed question never hands the store a missing amount, so it never fails with a type error. */
  lemma ParseNeverMismatches(docs: seq<Documents.Document>, question: string)
    ensures Eval(docs, ParseQuery(question)) != Err(TypeMismatch)
  {
    ParseBoundsSound(question);
  }

  /** The comparison names `retrieve_by_amount` recognises, one list per family. */
  const GREATER_NAMES: seq<string> := ["greater", "over", "above", "more than"]
  const LESS_NAMES: seq<string> := ["less", "under", "below", "less than"]
  const EXACT_NAMES: seq<string> := ["exact", "exactly", "equal", "equals"]
  const APPROXIMATE_NAMES: seq<string> := ["approximate", "around", "about", "roughly"]
  const RANGE_NAMES: seq<string> := ["between", "range"]

  /** The comparison name is recognised: it is truthy and in one of the lists. */
  predicate Named(comparison: Option<string>)
  {
    && comparison.Some?
    && var c := comparison.value;
       c in GREATER_NAMES || c in LESS_NAMES || c in EXACT_NAMES || c in APPROXIMATE_NAMES || c in RANGE_NAMES
  }

  /**
   * The query `retrieve_by_amount(question, comparison, amount, min, max)` runs: an explicit
   * comparison name selects the store call with the given numbers (missing ones passed on as
   * None); no name, an empty one or an unknown one parses the question.
   */
  function AmountQuery(question: string, comparison: Option<string>, amount: Option<real>,
                       min: Option<real>, max: Option<real>): Query
  {
    if comparison.Some? && comparison.value != "" then
      var c := comparison.value;
      if c in GREATER_NAMES then AmountRange(amount, None)
      else if c in LESS_NAMES then AmountRange(None, amount)
      else if c in EXACT_NAMES then ExactAmount(amount, DEFAULT_TOLERANCE)
      else if c in APPROXIMATE_NAMES then ApproximateAmount(amount, DEFAULT_PERCENTAGE)
      else if c in RANGE_NAMES then AmountRange(min, max)
      else ParseQuery(question)
    else ParseQuery(question)
  }

  /** A recognised comparison ignores the question's text; any other comparison parses it. */
  lemma AmountQueryDispatch(question: string, other: string, comparison: Option<string>,
                            amount: Option<real>, min: Option<real>, max: Option<real>)
    ensures Named(comparison) ==>
      AmountQuery(question, comparison, amount, min, max) == AmountQuery(other, comparison, amount, min, max)
    ensures !Named(comparison) ==> AmountQuery(question, comparison, amount, min, max) == ParseQuery(question)
  {
  }

  /**
   * Only the range names read `min` and `max`; every other recognised name uses `amount`
   * alone, as the bound on the side its name says or as the target.
   */
  lemma AmountQueryUses(question: string, comparison: Option<string>, amount: Option<real>,
                        min: Option<real>, max: Option<real>)
    requires Named(comparison)
    ensures var q := AmountQuery(question, comparison, amount, min, max);
      var c := comparison.value;
      && (c in GREATER_NAMES ==> q == AmountRange(amount, None))
      && (c in LESS_NAMES ==> q == AmountRange(None, amount))
      && (c in RANGE_NAMES ==> q == AmountRange(min, max))
      && (!(c in RANGE_NAMES) ==> forall m1, m2 :: AmountQuery(question, comparison, amount, m1, m2) == q)
  {
    assert comparison.value != "";
  }

  /**
   * A "greater" comparison without an amount passes no bound at all, so the store returns
   * every record that has an amount, in store order.
   */
  lemma GreaterWithoutAmount(docs: seq<Documents.Document>, question: string, min: Option<real>, max: Option<real>)
    ensures Eval(docs, AmountQuery(question, Some("greater"), None, min, max)) == Ok(Select(docs, HasAmount))
  {
    assert "greater" in GREATER_NAMES;
  }
}
