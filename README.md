# Simulated document retrieval, modelled in Dafny

This project models the retrieval core of the Report Building Agent. `SimulatedRetriever` is an
in-memory store of invoices, contracts and claims. It is a dictionary of records keyed by
document id that keeps insertion order. It answers keyword, type and amount searches, and it
computes collection statistics. The document-search tool routes its arguments to the store: the
search type, an optional document type, amount bounds, a comparison word and an amount.

Layout (one module per file):

- `wrappers.dfy`: `Option` and `Result`.
- `text.dfy`: ASCII lower-casing, whitespace splitting, substring test and non-overlapping
  substring count. These are `str.lower`, `str.split`, `in` and `str.count`.
- `amount_text.dfy`: the number scanner behind the pattern `\$?(\d+(?:,\d{3})*(?:\.\d{2})?)`
  and its conversion to a value.
- `documents.dfy`: records, metadata values, the chunk a record is returned as, and the amount
  derived from a record or from a chunk.
- `ranking.dfy`: Python's stable descending `sort(key=..., reverse=True)`, and slicing.
- `queries.dfy`: the per-record criteria, the selection of records in store order, the queries
  the store answers (`Eval`), and their error outcomes.
- `query_meaning.dfy`: what each query returns, stated record by record.
- `parsing.dfy`: how a natural-language amount question and a comparison name become a query.
- `parse_examples.dfy`: the documented example questions, parsed.
- `statistics.dfy`: `get_statistics`.
- `retrieval.dfy`: the `Retriever` class. Its methods walk the records with loops and are proved
  to return what the specification functions say.
- `tools.dfy`: `_handle_amount_search` and the dispatch of `document_search`.

A Python exception raised by the store is modelled as an `Err` result:

- `TypeMismatch` for arithmetic on `None`;
- `DivisionByZero` for a zero tolerance.

`document_search` catches both and returns an error message. The model ends the search with the
same `Err`.

## Model

| member | source | states |
|---|---|---|
| Text.Lower | src/retrieval.py:192 | the lower-cased string has the same length, and each character is the lower-cased original |
| Text.Split | src/retrieval.py:193 | every piece is a non-empty run of non-whitespace characters |
| Text.SplitSkipsSpace | src/retrieval.py:193 | leading whitespace (the full set `str.split()` splits on) starts no word and is dropped |
| Text.SplitTakesWord | src/retrieval.py:193 | a whitespace-free word followed by nothing or by whitespace comes out whole, as the next word |
| Text.SplitJoinSpaced | src/retrieval.py:193 | splitting the words joined by single spaces gives back exactly those words |
| Text.CountZeroIffAbsent | src/retrieval.py:207 | the non-overlapping count is zero exactly when the keyword does not occur |
| Text.Count | src/retrieval.py:207 | the occurrences counted fit in the text without overlapping: count × length ≤ text length |
| Text.ContainsFits | src/retrieval.py:204 | a substring is never longer than the text it occurs in |
| Text.AbsentByChar | src/retrieval.py:397 | a cue word that has a character the text lacks does not occur in the text |
| Text.LowerIdentity | src/retrieval.py:192 | a text without upper-case ASCII letters is its own lower-case form |
| AmountText.Amounts | src/retrieval.py:393-394 | every number the pattern yields is non-negative |
| AmountText.AmountsIffDigit | src/retrieval.py:393-394 | the pattern finds at least one number exactly when the text has a digit |
| AmountText.TokenValueOfGrouped | src/retrieval.py:394 | removing the thousands commas and converting gives back the written number |
| AmountText.AmountsOfGrouped | src/retrieval.py:393-394 | a comma-grouped number followed by a non-number is found as that number, then the rest is scanned |
| AmountText.AmountsOfNumeral | src/retrieval.py:393-394 | a number written without separators, followed by a non-number, is found with its value |
| AmountText.TokenLengthOfCents | src/retrieval.py:393 | the match of a grouped number followed by `.dd` is the number and its three cents characters, whatever follows |
| AmountText.DigitsValueOfCents | src/retrieval.py:394 | the two cents digits spell their value |
| AmountText.TokenValueOfCents | src/retrieval.py:394 | a grouped number with `.dd` converts to its whole value plus the cents as hundredths |
| AmountText.AmountsStep | src/retrieval.py:393-394 | when the match at a digit is exactly some text, the scan yields its value and continues after it |
| AmountText.AmountsOfCents | src/retrieval.py:393-394 | a grouped number with `.dd` is found as whole value + cents/100, and scanning resumes right after the cents |
| AmountText.AmountsOfDollars | src/retrieval.py:393-394 | the optional `$` is skipped and the number after it is found with its value |
| AmountText.AmountsSkipText | src/retrieval.py:393-394 | text without digits or `$` adds no number |
| AmountText.DigitsValueOfGrouped | src/retrieval.py:394 | the digits of a comma-grouped numeral spell its value |
| Documents.ProjectMetadata | src/retrieval.py:179-183 | chunk metadata holds the record's keys plus title and doc_type; a record key overrides the store-written title/doc_type |
| Documents.AmountIsFirstUsable | src/retrieval.py:155-170 | the amount is absent iff no field in priority order is present, non-null and convertible; else it is the first such field's value |
| Documents.ChunkAmountInAgrees | src/retrieval.py:447-458 | over fields other than title/doc_type, the chunk's sort amount equals the record's amount, or 0.0 when absent |
| Documents.ChunkAmountOfProjection | src/retrieval.py:447-458 | a chunk's sort key is its record's amount, or 0.0 when the record has none |
| Ranking.Items | src/retrieval.py:226 | stripping the sort keys keeps the chunks in place |
| Ranking.InsertPermutes | src/retrieval.py:226 | inserting one keyed chunk adds exactly that element |
| Ranking.InsertSorted | src/retrieval.py:226 | inserting into a descending list keeps it descending |
| Ranking.SortDescSorted | src/retrieval.py:226 | the sort yields keys in descending order |
| Ranking.SortDescPermutes | src/retrieval.py:226 | the sort is a permutation of its input |
| Ranking.SortDescStable | src/retrieval.py:226 | elements with equal keys keep their original relative order (Python's sort is stable, also with reverse=True) |
| Ranking.Take | src/retrieval.py:227 | `results[:top_k]` is a prefix of length min(top_k, n); a negative top_k drops that many from the end |
| Ranking.Least | src/retrieval.py:506 | `min(amounts)` is one of the amounts and at most each of them |
| Ranking.Greatest | src/retrieval.py:507 | `max(amounts)` is one of the amounts and at least each of them |
| Queries.Score | src/retrieval.py:199-211 | a record's keyword score is never negative (ScoreMeaning says when it is positive) |
| Queries.TokenScoreMeaning | src/retrieval.py:202-211 | one keyword's contribution is non-negative; positive iff it occurs in title, content or a metadata value |
| Queries.ScoreMeaning | src/retrieval.py:201-213 | a record's score is non-negative; positive (kept) iff some keyword occurs in it |
| Queries.GatherSound | src/retrieval.py:174-186 | every returned chunk is the projection of a record that passed the test, with its score |
| Queries.GatherComplete | src/retrieval.py:174-186 | every record that passes the test is returned |
| Queries.SelectMembers | src/retrieval.py:174-186 | a chunk is in the selection exactly when it projects a record that passes the criterion |
| Queries.SelectEmpty | src/retrieval.py:174-186 | the selection is empty exactly when no record passes |
| Queries.SelectIds | src/retrieval.py:174-186 | with distinct ids, a record's id is returned exactly when the record passes |
| Queries.Eval | src/retrieval.py:293-350 | only the exact and approximate searches raise: None-arithmetic exactly when the target is missing, division by zero only in the approximate search |
| Queries.KeyedByScore | src/retrieval.py:226 | each chunk is paired with its relevance score as sort key |
| Queries.KeyedByAmount | src/retrieval.py:290 | each chunk is paired with its chunk-derived amount as sort key |
| Queries.Tolerance | src/retrieval.py:324 | the band is positive for a positive target and percentage, zero if either is zero |
| Queries.RankByScoreMeaning | src/retrieval.py:226 | ranked by score: descending, a permutation, and equal scores keep store order |
| Queries.RankByAmountMeaning | src/retrieval.py:290 | ranked by amount: descending by the chunk amount, a permutation, and equal amounts keep store order |
| Queries.WithAmountOfItems | src/retrieval.py:290 | chunks with a given amount keep their order when the sort keys are stripped |
| Queries.WithScoreOfItems | src/retrieval.py:226 | chunks with a given score keep their order when the sort keys are stripped |
| QueryMeaning.AllMeaning | src/retrieval.py:172-186 | `retrieve_all` returns one chunk per record, in store order, each with score 1.0 |
| QueryMeaning.KeywordMeaning | src/retrieval.py:188-227 | keyword results: exactly min(top_k, matches) of them (a negative top_k drops that many from the end), all positive, score-descending, a prefix of the stably ranked matches |
| QueryMeaning.KeywordChunkPositive | src/retrieval.py:213 | every keyword match has a positive score |
| QueryMeaning.KeywordMatchMeaning | src/retrieval.py:192-213 | a record matches iff one of the lower-cased query's words occurs in it |
| QueryMeaning.TypeMeaning | src/retrieval.py:229-244 | a record is returned exactly when its type equals the requested type case-insensitively |
| QueryMeaning.UnscoredSelection | src/retrieval.py:184 | all, type, with-amount, range and exact results carry score 1.0 |
| QueryMeaning.RangeMembers | src/retrieval.py:259-287 | a record is returned iff it has an amount within the given bounds; a missing bound does not constrain |
| QueryMeaning.RangeHit | src/retrieval.py:264-277 | the per-record range test is "has an amount, not below min, not above max" |
| QueryMeaning.IdsKept | src/retrieval.py:290 | reordering the selection keeps the same ids |
| QueryMeaning.RangeUnbounded | src/retrieval.py:259-261 | with neither bound, the range search returns every record with an amount, unsorted |
| QueryMeaning.RangeSorted | src/retrieval.py:289-291 | a bounded range result is a permutation of the matches, sorted by amount descending |
| QueryMeaning.RangeSortKey | src/retrieval.py:290 | a matched chunk's sort key is its record's amount |
| QueryMeaning.ExactMeaning | src/retrieval.py:293-313 | a record is returned iff its amount is within the tolerance of the target |
| QueryMeaning.ExactWithoutTarget | src/retrieval.py:298-301 | a missing target raises at the first record with an amount, else returns nothing |
| QueryMeaning.ApproximateMembers | src/retrieval.py:324-332 | for any non-zero tolerance, a record is returned iff its amount lies between target − target·percentage/100 and target + target·percentage/100 |
| QueryMeaning.WithinHit | src/retrieval.py:332 | the per-record band test is inclusive at both ends, for either sign of the tolerance |
| QueryMeaning.ApproximateSorted | src/retrieval.py:348-350 | with a non-zero tolerance, approximate results are the band's records, sorted by relevance descending |
| QueryMeaning.BandScore | src/retrieval.py:334-335 | a record the band keeps has a positive tolerance, and its relevance is 1 − distance/tolerance, between 0 and 1 |
| QueryMeaning.ApproximateIsRanked | src/retrieval.py:315-350 | with a non-zero tolerance, the approximate search is the band selection ranked by score |
| QueryMeaning.ApproximateScore | src/retrieval.py:332-346 | with a non-zero tolerance, every approximate result scores in [0, 1] and comes from a record in the band |
| QueryMeaning.ApproximateNegativeBand | src/retrieval.py:324-332 | with a negative tolerance (negative target or percentage), the lower end exceeds the upper end, and the search returns nothing, even for a record whose amount equals the target |
| QueryMeaning.BandMember | src/retrieval.py:332-346 | each chunk of the band selection scores in [0, 1] and projects a record in the band |
| QueryMeaning.ApproximateZeroTolerance | src/retrieval.py:324-335 | with a zero tolerance, the search divides by zero iff some record's amount equals the target, else it is empty |
| QueryMeaning.NearZeroKeeps | src/retrieval.py:332 | a zero-width band keeps a record exactly when its amount equals the target |
| QueryMeaning.IdsOfPermuted | src/retrieval.py:290 | permuted results have the same ids and elements |
| Parsing.ParseQuery | src/retrieval.py:386-428 | the parser only runs amount or keyword searches; exact and approximate always get a target; its keyword search is the whole question with top_k 3 |
| Parsing.FallsThrough | src/retrieval.py:397-425 | a cue family without the numbers it needs falls through to the default band or keyword search |
| Parsing.ParseKeywordIffNoDigit | src/retrieval.py:420-428 | the parser falls back to a keyword search with top_k 3 exactly when the question has no digit |
| Parsing.ParseFollowsCues | src/retrieval.py:397-418 | with a number present, over-cues give min = first number; otherwise under-cues give max; around → approximate; exactly → exact |
| Parsing.ParseBetween | src/retrieval.py:405-410 | a between-cue with two numbers gives the ordered range of the first two; with one it falls to the 90%–110% band |
| Parsing.ParseFallbackBand | src/retrieval.py:420-425 | without a cue, the range spans 90% of the least to 110% of the greatest number, covering every number |
| Parsing.ParseBoundsSound | src/retrieval.py:393-425 | every parsed bound or target is non-negative, a parsed range has min ≤ max, and exact/approximate always get a target |
| Parsing.ParseNeverMismatches | src/retrieval.py:386-428 | a parsed query never raises the None-arithmetic error |
| Parsing.AmountQueryDispatch | src/retrieval.py:370-384 | a known comparison name ignores the question; an unknown or empty one parses it |
| Parsing.AmountQueryUses | src/retrieval.py:371-381 | greater names give min = amount, less names give max = amount, range names give both bounds; other names ignore the bounds |
| Parsing.GreaterWithoutAmount | src/retrieval.py:372-373 | "greater" without an amount becomes an unbounded range: every record with an amount |
| ParseExamples.OverExample | src/retrieval.py:364 | "over $50,000" parses to amounts of at least 50000 |
| ParseExamples.UnderExample | src/retrieval.py:365 | "under $10,000" parses to amounts of at most 10000 |
| ParseExamples.BetweenExample | src/retrieval.py:366 | "between $20,000 and $80,000" parses to the range 20000–80000 |
| ParseExamples.AroundExample | src/retrieval.py:367 | "around $25,000" parses to the approximate search for 25000 at 10% |
| ParseExamples.ExactlyExample | src/retrieval.py:368 | "exactly $100,000" parses to the exact search for 100000 at tolerance 0.01 |
| ParseExamples.TwoDollarAmounts | src/retrieval.py:393-394 | two dollar amounts separated by plain words are found in order |
| Statistics.AmountsOfMeaning | src/retrieval.py:490-495 | the collected amounts are exactly the records' derived amounts, and are empty iff no record has one |
| Statistics.TypeCountsMeaning | src/retrieval.py:486-488 | type keys appear once each in first-seen order, each count is that type's number of records, and the counts sum to the total |
| Statistics.Average | src/retrieval.py:501 | average × count = total when there are amounts, and 0 otherwise |
| Statistics.AverageBounds | src/retrieval.py:501-507 | the average of the amounts lies between their minimum and maximum |
| Statistics.StatsOf | src/retrieval.py:476-509 | total = number of records; with-amounts ≤ total; average = total / with-amounts (0 with none); with no amounts the total is 0 and there is no min; min and max present together, min ≤ max |
| Statistics.StatsExtremesPresent | src/retrieval.py:505-507 | min/max are present exactly when some record has an amount |
| Statistics.StatsExtremes | src/retrieval.py:501-507 | min ≤ average ≤ max; min and max are some record's amount; every amount lies between them |
| Statistics.SumBounds | src/retrieval.py:494 | a sum of values within [lo, hi] lies within n·lo and n·hi |
| Retrieval.IndexedDistinct | src/retrieval.py:24 | a dictionary's records have distinct ids |
| Retrieval.AddNew | src/retrieval.py:151-153 | storing a new id appends the record at the end of store order |
| Retrieval.Replace | src/retrieval.py:153 | storing an existing id replaces that record in place, keeping its position |
| Retrieval.Lookup | src/retrieval.py:462-463 | in a well-kept dictionary an id is found in store order iff it is a key, and the record found is the one filed under it |
| Retrieval.AddThenLookup | src/retrieval.py:151-153 | after `add_document(d)`, looking up d's id finds d and only d; any other id finds what it found before |
| Retrieval.LatestKeys | src/retrieval.py:148-149 | the loaded store has exactly the ids of the sample records |
| Retrieval.LatestWins | src/retrieval.py:148-149 | a sample record not followed by one with the same id is the one stored |
| Retrieval.AnyMentioned | src/retrieval.py:397 | the loop reports whether any cue occurs in the text |
| Retrieval.FirstCue | src/retrieval.py:397-418 | the `if/elif` over the cue families yields the first family with an occurring cue |
| Retrieval.Retriever.constructor | src/retrieval.py:23-25 | the store is a well-kept dictionary holding the last record per id, ids in first-seen order; with distinct ids it is exactly the samples, in order |
| Retrieval.Retriever.AddDocument | src/retrieval.py:151-153 | keeps the dictionary invariant; a new id is appended; an existing id is replaced in place, other records unchanged |
| Retrieval.Retriever.GetDocumentAmount | src/retrieval.py:155-170 | the loop over the priority fields returns the record's derived amount |
| Retrieval.Retriever.Collect | src/retrieval.py:174-186 | the walk over the records returns the selection in store order |
| Retrieval.Retriever.RetrieveAll | src/retrieval.py:172-186 | returns every record's chunk in store order (see AllMeaning) |
| Retrieval.Retriever.ScoreDocument | src/retrieval.py:201-211 | the keyword loop adds up the score the specification gives |
| Retrieval.Retriever.MetaHitCount | src/retrieval.py:209-211 | the count of metadata values containing the keyword |
| Retrieval.Retriever.RetrieveByKeyword | src/retrieval.py:188-227 | returns the keyword query's result (see KeywordMeaning) |
| Retrieval.Retriever.RetrieveByType | src/retrieval.py:229-244 | returns the type query's result (see TypeMeaning) |
| Retrieval.Retriever.RetrieveAllWithAmounts | src/retrieval.py:430-445 | returns the records that have an amount, in store order |
| Retrieval.Retriever.RetrieveByAmountRange | src/retrieval.py:246-291 | returns the range query's result (see RangeMembers, RangeSorted) |
| Retrieval.Retriever.RaiseOnHit | src/retrieval.py:298-301 | raises the given error iff some record passes the test, else returns nothing |
| Retrieval.Retriever.RetrieveByExactAmount | src/retrieval.py:293-313 | returns the exact query's outcome, including the None-target error |
| Retrieval.Retriever.RetrieveByApproximateAmount | src/retrieval.py:315-350 | returns the approximate query's outcome, including both error cases |
| Retrieval.Retriever.GetDocumentAmountFromChunk | src/retrieval.py:447-458 | the loop returns the chunk's sort amount, 0.0 when no field converts |
| Retrieval.Retriever.Run | src/tools.py:203-222 | performs the store call a query names, with its outcome |
| Retrieval.Retriever.ParseAndRetrieveByAmount | src/retrieval.py:386-428 | returns the outcome of the parsed query (see Parsing lemmas) |
| Retrieval.Retriever.RetrieveByAmount | src/retrieval.py:352-384 | returns the outcome of the comparison-name dispatch (see AmountQueryUses) |
| Retrieval.Retriever.GetDocumentById | src/retrieval.py:460-474 | None iff no record has the id; otherwise that record's chunk with score 1.0 |
| Retrieval.Retriever.GetStatistics | src/retrieval.py:476-509 | the loop's statistics equal StatsOf of the records (see StatsOf, StatsExtremes) |
| Tools.AmountSearch | src/tools.py:203-222 | the handler only runs amount searches or the parser's keyword search; it never runs an exact or approximate search without an amount |
| Tools.AmountSearchComparisons | src/tools.py:205-213 | over/under with an amount become one-sided ranges; exact and approximate search around the amount |
| Tools.AmountSearchFallsThrough | src/tools.py:205-222 | "between" needs both bounds; otherwise, or with no/unknown comparison or a missing amount, the bounds give a range, else the query is parsed |
| Tools.AmountSearchNeverMismatches | src/tools.py:203-222 | the amount search never passes a missing amount to the store |
| Tools.KeepIds | src/tools.py:128 | the filter returns no more results than it was given |
| Tools.KeepIdsMembers | src/tools.py:126-128 | a result is kept iff it was a type result and its id is among the amount results' ids |
| Tools.KeepIdsAppend | src/tools.py:128 | the filter keeps order: it distributes over concatenation |
| Tools.KeepIdsAll | src/tools.py:128 | results whose ids are all among the amount ids are kept whole |
| Tools.FirstMentioned | src/tools.py:145-148 | a type word found is one of the type words and occurs in the query |
| Tools.FirstMentionedMeaning | src/tools.py:144-148 | a type word is picked iff some type word occurs |
| Tools.FreeFormQuery | src/tools.py:135-151 | the fallback never returns everything; a type search is for a type word that occurs in the query; a keyword search is the whole query with top_k 3 |
| Tools.FreeFormRouting | src/tools.py:135-151 | amount words → amount parser; else invoice, then contract, then claim; else keyword search |
| Tools.IntersectMeaning | src/tools.py:119-128 | type plus amount criteria returns the type results whose ids the amount search returned, in type order: a subset of both |
| Tools.PlanOf | src/tools.py:109-151 | "all" returns everything; an intersection only for type searches with a type, cut by an amount search; every keyword search uses top_k 3 |
| Tools.Chain | src/tools.py:116-151 | the keyword/type/amount/free-form chain never yields the retrieve-all results; an intersection comes only from a truthy type with "type", and its amount half is an amount query; an unknown search type falls through to the free-form fallback |
| Tools.PlanAsWritten | src/tools.py:113-151 | as written, no search type ends with the retrieve-all results: "all" is overwritten by the free-form fallback |
| Tools.Outcome | src/tools.py:119-128 | only an exact or approximate amount search can raise; an intersection raises only when its amount search does, and is never longer than the type results |
| Tools.PlansAgree | src/tools.py:113-151 | the corrected and the as-written dispatch agree on every search type but "all" |
| Tools.EmptyQueryIsKeyword | src/tools.py:135-151 | an empty query falls through to a keyword search |
| Tools.EmptyKeywordSearch | src/retrieval.py:188-227 | a keyword search for the empty query returns nothing |
| Tools.AllAsWrittenLosesRecords | src/tools.py:113-151 | as written, "all" with an empty query returns no record, whatever the store holds |
| Tools.AllReturnsEveryRecord | src/tools.py:113-114 | as intended, "all" returns every record's chunk in store order, whatever the query |
| Tools.Headline | src/tools.py:154-157 | the reply opens with the no-results message exactly when the result list is empty |
| Tools.FirstTypeWord | src/tools.py:145-148 | the loop with `break` returns the first type word that occurs |
| Tools.KeepWithIds | src/tools.py:127-128 | the comprehension's loop computes the id filter |
| Tools.FreeFormSearch | src/tools.py:135-151 | the fallback returns the outcome of the free-form routing |
| Tools.TypeAndAmountSearch | src/tools.py:119-128 | returns the intersection, or the amount search's error |
| Tools.DocumentSearch | src/tools.py:109-151 | returns the outcome of the corrected dispatch ("all" first); a store error ends the search |

## Left out

- Sample data: `_load_sample_documents` (src/retrieval.py:27-149) becomes the constructor's `seed` parameter. The five concrete records are not modelled.
- `float()` on metadata values: each metadata value carries its `str()` text and the outcome of `float()` on it. Python's string-to-float grammar is not modelled.
- Floating point: amounts, scores and tolerances are exact reals. Rounding of `0.5`, `0.9`, `1.1`, `percentage / 100` and the division in relevance is not modelled.
- Numbers from the pattern: they are exact non-negative decimals, and the two-digit cents part is read as hundredths.
- Dictionary ordering: metadata iteration order is not modelled. The keyword score only counts matching metadata values, so the order does not change it.
- Character handling: `str.lower` is modelled on ASCII letters only. Whitespace for `str.split` is the full set of characters for which Python's `str.isspace()` holds, Unicode ones included (`Text.IsSpace`). `\d` is the ASCII digits only, not every Unicode decimal digit.
- Result formatting: the per-document lines of `document_search` (src/tools.py:158-175) are not modelled. These are the title, type, amount, relevance and a 200-character preview. Only the headline is modelled (`Tools.Headline`).
- Logging: `ToolLogger` and every `log_tool_use` call (src/tools.py:14-63, 177-190, 196-200) are I/O.
- Error messages: the text "Error searching documents: ..." is not modelled. The search ends with the store's `Err` instead.
- Other tools: the calculator, document reader and statistics tools and `get_all_tools` in src/tools.py are outside this model. So are src/assistant.py, src/agent.py, main.py, src/prompts.py and src/schemas.py. `DocumentChunk` from src/schemas.py is modelled only through the fields the core uses.
- `Literal` type hints: the search type and comparison are arbitrary strings, because the hints are not enforced at run time.
- Retrieval.Retriever.RetrieveByKeyword: `top_k` is an explicit argument. The tool always passes the default 3 (`DEFAULT_TOP_K`).
- QueryMeaning.ApproximateMembers: the band is stated for any non-zero tolerance. The method's description (src/retrieval.py:321-322) promises amounts within the percentage of the target. With a negative amount the code's band has its lower end above its upper end, so the search returns nothing, not even an exact match (QueryMeaning.ApproximateNegativeBand). The model keeps that behaviour as written. What a negative target was meant to match is not stated anywhere, so no corrected band is modelled.
- Retrieval.Retriever.RetrieveByExactAmount and Retrieval.Retriever.RetrieveByApproximateAmount: the tolerance and percentage are explicit arguments. Their defaults are `DEFAULT_TOLERANCE` and `DEFAULT_PERCENTAGE`.

## Findings

| source | as written | input that shows it | evidently intended | confidence | as-written member | corrected member |
|---|---|---|---|---|---|---|
| src/tools.py:113-151 | `if search_type == "all"` is followed by `if`, not `elif`, so the keyword/type/amount chain runs after it. "all" matches none of those tests, so the free-form fallback overwrites the `retrieve_all` results | `search_type="all"`, `query=""`: the fallback runs a keyword search for the empty query, which scores every record 0 and returns no record | "all" returns every record, in store order | not executed | Tools.AllAsWrittenLosesRecords (on Tools.PlanAsWritten) | Tools.AllReturnsEveryRecord (on Tools.PlanOf, which Tools.DocumentSearch implements) |
