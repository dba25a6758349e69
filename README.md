# AdvisorAI matching core in Dafny

AdvisorAI matches a graduate-school applicant to professors. The applicant gives
one research keyword and a list of learning styles. Every professor has a
catalog of question-and-answer entries, each filed under one of five indicators
(A research keyword, B methodology, C communication, D academic approach,
E preferred student type).

For each indicator the matcher does the following:
- It embeds the relevant texts.
- It compares the applicant's keyword (A) or learning styles (B-E) with the professor's answers by cosine similarity.
- It maps the mean similarity onto a score lane. The lane is [80, 95] for the professor `prof_001` and [60, 90] for everyone else.

The five indicator scores are then combined into a weighted mean. That mean is
remapped onto a total in [70, 89] for `prof_001`, or [70, 88] for everyone else.
The professors are sorted by that total.

A conversation with a professor's "twin" gives a second score, either from a
language model's grade or from the mean message length. The final score
combines that score with the initial total.

The HTTP layer checks requests against closed lists of keywords and styles. It
stores the applicant and serves these endpoints: matching, applicant updates,
final reports and e-mail drafts.

Other modelled parts:
- The retrieval-augmented chat that answers as the professor.
- The script that loads the catalog into the vector index.
- A small Jaccard keyword score.

The modules follow the source files:

| module | models |
|---|---|
| `Wrappers` | `Option`, `Result` |
| `PyNum` | Python's `int()` (truncation), `round()` (ties to even), `min(hi, max(lo, x))` |
| `PyStr` | `split`, `strip`, `join`, `in` on strings, slicing |
| `Similarity` | `cosine_similarity` |
| `Catalog` | `professor_data.json` items, the per-indicator QA filter, the set of professor ids |
| `Services` | the embedding service and the failures the scorer can raise |
| `Indicators` | `calculate_indicator_score`: a pure specification `IndicatorSpec` that threads the style cache, and the class `StyleCache` with methods whose loops are proved against it |
| `Aggregate` | `calculate_matching_score` |
| `Matcher` | `match_all_professors` |
| `Conversation` | `calculate_chat_based_score`, `calculate_final_matching_score` |
| `Rag` | `chat.py`: `format_context`, `generate_answer` |
| `Upsert` | `embadding.py`: `upsert_chunks` |
| `Keywords` | `main.py`: `calculate_keyword_match_score` |
| `Api` | the request handling of `api.py` for match, update, report, e-mail draft and chat |

Modelling choices:
- Floats are exact reals.
- Square roots, `** 1.5` and every external service are function parameters:
  - the embedding service and the catalog (`Services.Env`);
  - the vector search, the professor-name lookup and the chat model (`Rag.RagEnv`);
  - the conversation evaluator (`Conversation.Evaluator`);
  - the session lookup.
- An exception in the source becomes `Err` or `None` in the model.

Behaviour worth noting, where the model follows the code as written:
- **The final combiner.** `calculate_final_matching_score` truncates the weighted score with `int()` (matching.py:845). So 0.6 × 71 + 0.4 × 70 = 70.6 gives 70, where rounding would give 71 (`Conversation.FinalTruncates`).
- **The total remap.** For professors other than `prof_001`, the remap of the weighted mean is not monotone: above 78 it maps higher means to lower totals. `Aggregate.OtherTotalNotMonotone` shows a mean of 78 giving 78 but a mean of 82 giving 75. The comments beside the remap (matching.py:318-343) describe it as widening differences.
- **The comment examples.** The same comments give examples ("80.47 → 82", "78.33 → 85") that the formulas do not produce. The model uses the formulas.

## Model

| member | source | states |
|---|---|---|
| PyNum.Trunc | matching.py:845 | `int()` of a real: the integer toward zero, less than 1 away |
| PyNum.RoundHalfEven | matching.py:235 | `round()`: within 0.5 of the input, an exact half goes to the even neighbour |
| PyNum.Clamp | matching.py:241-245 | `min(hi, max(lo, x))` lies in [lo, hi], is `x` inside it and the nearer bound outside |
| PyNum.RoundMonotone | matching.py:235 | `round()` never decreases as its argument grows |
| PyNum.RoundBetween | matching.py:235 | a real between two integers rounds to a value between them |
| PyNum.RoundOfInt | matching.py:324 | rounding an integer gives it back |
| PyNum.TruncMonotone | matching.py:845 | `int()` never decreases as its argument grows |
| PyNum.ClampMonotone | matching.py:848 | clamping preserves order |
| PyStr.Split | api.py:994 | `str.split` always yields at least one part |
| PyStr.StripAll | api.py:994 | one stripped part per part, in order |
| PyStr.Take | matching.py:137 | `s[:k]` is a prefix of `s`: its first `min(k, len(s))` elements for `k >= 0`, and for negative `k` all but the last `-k` (empty when `-k >= len(s)`) |
| PyStr.SplitNoSep | api.py:994 | a string without the separator splits into itself |
| PyStr.SplitAtSep | api.py:994 | splitting at the first separator gives the part before it and the split of the rest |
| PyStr.LeadingSpaceVanishes | api.py:994 | leading whitespace does not change the stripped parts |
| PyStr.JoinSplitRoundTrip | api.py:868 | joining clean parts with ", " and reading them back by split-and-strip returns the parts |
| PyStr.RoundTripInduction | api.py:868 | the same round trip, by induction over the parts |
| PyStr.JoinedPieces | api.py:868 | the first part of a join reads back on its own, ahead of the pieces of the rest |
| PyStr.AllCleanFromForall | api.py:868 | the per-index cleanliness condition gives the recursive one |
| PyStr.JoinCons | api.py:868 | a join of two or more parts is the first part, the separator and the join of the rest |
| PyStr.StripAllCons | api.py:994 | stripping distributes over the first part |
| PyStr.EmptyListDoesNotRoundTrip | api.py:868 | the empty list joins to "" and reads back as `[""]` |
| PyStr.ContainsTransitive | chat.py:120 | a substring of a substring is a substring |
| PyStr.PrefixContains | chat.py:120 | a substring of a prefix is a substring |
| Similarity.Cosine | matching.py:47-56 | the cosine similarity; its contract is carried by `CosineSymmetric`, `CosineWithZeroVector` and `CosineSelf` |
| Similarity.DotSymmetric | matching.py:49 | the dot product is symmetric |
| Similarity.DotSelf | matching.py:50 | a vector's dot product with itself is its sum of squares |
| Similarity.SumSquaresOfZero | matching.py:50 | the zero vector has sum of squares 0 |
| Similarity.CosineSymmetric | matching.py:47-56 | cosine similarity is symmetric |
| Similarity.CosineWithZeroVector | matching.py:53-54 | a zero-magnitude vector on either side gives 0.0 |
| Similarity.CosineSelf | matching.py:47-56 | a non-zero vector has similarity 1.0 with itself, given an exact square root |
| Catalog.QaEntries | matching.py:62-78 | at most one entry per catalog item |
| Catalog.QaEntriesExact | matching.py:68-76 | the entries are exactly the QA items of that professor and indicator, with "" for absent fields, one per matching item |
| Catalog.CatalogProfessorIds | matching.py:384-387 | fails with the missing key exactly when some item lacks `professor_id`; otherwise it is exactly the set of ids that occur |
| Services.EmbedTexts | matching.py:32-42 | the empty list needs no call; a service failure is reported; a success gives one vector per text taken from the service's answer; an answer with at least one vector per text is a success holding its first `len(texts)` vectors, and a shorter answer is the `IndexError` (`EmbeddingTooShort`) |
| Indicators.Answers | matching.py:124 | one answer text per QA entry |
| Indicators.KeywordSims | matching.py:132-134 | one similarity per answer vector |
| Indicators.KeywordDetails | matching.py:135-139 | one detail per QA entry |
| Indicators.StyleSims | matching.py:186-187 | one similarity per style vector |
| Indicators.StyleBest | matching.py:182-192 | one best match per answer |
| Indicators.Firsts | matching.py:192 | one similarity per best match |
| Indicators.StyleDetails | matching.py:193-198 | one detail per QA entry |
| Indicators.StyleVectors | matching.py:175 | one vector per style, read from the cache |
| Indicators.RemapIndicator | matching.py:206-245 | the indicator remap; its contract is carried by `RemapCases` (lane, floor, ceiling, the rounded lanes) and `RemapMonotone` |
| Indicators.BestMatch | matching.py:182-190 | the inner best-style loop as a function; its contract is carried by `BestMatchSpec` and met by the method `BestStyle` |
| Indicators.CacheStep | matching.py:155-175 | the cache step; its contract is carried by `CacheStepGrows`, `CacheStepPrefilled`, `CacheStepOnlyEmbedsMissing` and met by `StyleCache.Fill` |
| Indicators.Missing | matching.py:160-166 | the styles to embed; its contract is carried by `MissingMembers` and `MissingNone` |
| Indicators.Filled | matching.py:169-172 | storing the new vectors; its contract is carried by `FilledKeys` |
| Indicators.KeywordScore | matching.py:119-139 | indicator A's score; its contract is carried by `IndicatorShape` |
| Indicators.StyleScore | matching.py:141-198 | the score of B-E; its contract is carried by `StyleScoreRows` and `IndicatorShape` |
| Indicators.IndicatorSpec | matching.py:84-252 | the whole indicator scorer, with the cache before and after; its contract is carried by `IndicatorShape`, `IndicatorZero`, `ScoredIndicator`, `IndicatorKeepsPrefilledCache` and met by `CalculateIndicatorScore` |
| Indicators.StyleCache.constructor | matching.py:156-157 | a new cache is empty |
| Indicators.StyleCache.Fill | matching.py:159-175 | the cache gains exactly what `CacheStep` adds (all missing styles, or those stored before the embedding answer ran short); the style vectors are returned in style order, or the failure |
| Indicators.BestStyle | matching.py:183-190 | the inner loop's result is `BestMatch` of the per-style similarities |
| Indicators.KeywordRows | matching.py:132-139 | the indicator-A loop yields exactly `KeywordSims` and `KeywordDetails` |
| Indicators.StyleRows | matching.py:182-198 | the B-E loop yields exactly the best similarity and detail per answer |
| Indicators.CalculateIndicatorScore | matching.py:84-252 | the result and the new cache are those of `IndicatorSpec`; without a cache, calls share nothing |
| Indicators.RemapCases | matching.py:206-245 | the score lies in the professor's lane; at or below 0.15 it is the floor, at or above 0.4 the ceiling, and in between the rounded linear lane (`prof_001`) or squared lane (others) |
| Indicators.RemapMonotone | matching.py:206-245 | a higher mean similarity never gives a lower indicator score |
| Indicators.LinearLaneMonotone | matching.py:219-224 | the linear lane is monotone |
| Indicators.SquaredLaneMonotone | matching.py:235-239 | the squared lane is monotone |
| Indicators.BestMatchSpec | matching.py:182-190 | the best similarity is at least 0 and every style's similarity; it is the earliest strict maximum when positive, and the style stays "" when nothing is positive |
| Indicators.CacheStepOnlyEmbedsMissing | matching.py:160-172 | only the styles missing from the cache are sent to the embedding service |
| Indicators.MissingMembers | matching.py:160-166 | the styles to embed are exactly the styles not in the cache |
| Indicators.FilledKeys | matching.py:171-172 | storing new vectors adds exactly their styles and keeps every other entry |
| Indicators.CacheStepGrows | matching.py:155-175 | the cache only grows, only by the applicant's styles, and on success covers all of them |
| Indicators.CacheStepPrefilled | matching.py:169 | with every style cached, nothing is embedded and the cache is unchanged |
| Indicators.MissingNone | matching.py:163-166 | with every style cached, nothing is missing |
| Indicators.IndicatorKeepsPrefilledCache | matching.py:155-175 | scoring an indicator with every style cached leaves the cache as it was |
| Indicators.ScoredIndicator | matching.py:247-252 | a score is labelled with the indicator it was computed for |
| Indicators.IndicatorZero | matching.py:108-114 | no QA entries, or B-E without learning styles, give score 0 and no details |
| Indicators.IndicatorShape | matching.py:108-252 | the score is labelled with its indicator and its QA count; in the zero cases it is 0 with no details, and otherwise it is in the professor's lane with one detail per QA entry |
| Indicators.StyleScoreRows | matching.py:182-198 | each B-E detail carries the question, the 100-character preview, the chosen style and the rounded best similarity, which is at least every style's similarity; the score is the remap of the mean of the per-answer best similarities |
| Aggregate.WeightedSum | matching.py:310-313 | the weighted sum; its contract is carried by `SumsSnoc` and `WeightedMean` and met by `WeightedTotals` |
| Aggregate.ExpandTotal | matching.py:317-343 | the expansion of the weighted mean; its contract is carried by `BoostedTotalMonotone`, `OtherTotalNotMonotone` and `OtherTotalMiddle` |
| Aggregate.TotalScore | matching.py:345-349 | the clamped total; its contract is carried by `MatchResultShape` ([70, 89] or [70, 88]) and the monotonicity lemmas |
| Aggregate.Assemble | matching.py:351-362 | the result record; its contract is carried by `MatchResultShape` |
| Aggregate.MatchingSpec | matching.py:258-362 | the whole matching score with the cache before and after; its contract is carried by `MatchResultShape`, `MatchingScores`, `ZeroSlots`, `MatchingKeepsPrefilledCache` and met by `CalculateMatchingScore` |
| Aggregate.ScoreStep | matching.py:301-313 | one indicator: an earlier failure is kept, a success appends one score, and the cache is threaded only when one was given |
| Aggregate.ScoreIndicators | matching.py:301-313 | a success holds one score per indicator |
| Aggregate.TotalWeight | matching.py:290-313 | every weight is at least 1 |
| Aggregate.SumsSnoc | matching.py:310-313 | each turn adds score × weight to the sum and the weight to the total |
| Aggregate.ScoreAllIndicators | matching.py:301-313 | the loop yields the scores and the cache of `ScoreIndicators` over A-E |
| Aggregate.FoldSnoc | matching.py:301-313 | scoring one more indicator is one `ScoreStep` |
| Aggregate.StepAfterCall | matching.py:302-308 | a call of the indicator scorer is one `ScoreStep` |
| Aggregate.WeightedTotals | matching.py:298-313 | the loop yields the weighted sum and the total weight |
| Aggregate.CalculateMatchingScore | matching.py:258-362 | the result and the new cache are those of `MatchingSpec` |
| Aggregate.ErrorPersists | matching.py:301-308 | an indicator that raises ends the whole computation with its error |
| Aggregate.PrefixOk | matching.py:301-308 | when all indicators succeed, every prefix succeeds with the first scores |
| Aggregate.LabelledInOrder | matching.py:279-285 | a scorer that labels its results gives them in the order scored |
| Aggregate.IndicatorOrder | matching.py:279-285 | the indicator scores come in the order A-E |
| Aggregate.WeightedMean | matching.py:290-317 | the mean is (1.3 A + 1.2 B + C + D + E) / 5.5 |
| Aggregate.MatchResultShape | matching.py:345-362 | a result names its professor, lists the scores A-E, mirrors them in the breakdown, and its total lies in [70, 89] for `prof_001` and [70, 88] otherwise |
| Aggregate.ZeroSlots | matching.py:108-153 | a slot without QA entries, or a B-E slot without styles, holds 0 with no details |
| Aggregate.Slot | matching.py:301-308 | the k-th score is what the scorer gives with the cache left by the first k |
| Aggregate.StepValue | matching.py:302-308 | a successful step appends the scorer's result |
| Aggregate.MatchingScores | matching.py:301-362 | the record holds exactly the loop's scores, and fails exactly when the loop fails, with the same error |
| Aggregate.ScoringKeepsPrefilledCache | matching.py:155-175 | with every style cached, scoring all indicators leaves the cache unchanged |
| Aggregate.MatchingKeepsPrefilledCache | matching.py:258-362 | with every style cached, matching leaves the cache unchanged |
| Aggregate.BoostedTotalMonotone | matching.py:321-324 | for `prof_001` the total never decreases with the mean |
| Aggregate.OtherTotalNotMonotone | matching.py:325-332 | for other professors a mean of 78 gives 78 and a mean of 82 gives 75 |
| Aggregate.OtherTotalMiddle | matching.py:333-335 | for other professors a mean in [75, 78) gives a total within 0.5 of it |
| Matcher.Fallback | matching.py:415-424 | the record of a professor whose scoring raised; its contract (the id kept, the total within bounds) is carried by `PerProfessorId` and `MatchAllBounds` |
| Matcher.PerProfessor | matching.py:411-424 | one professor's record, matched or fallback; its contract is carried by `PerProfessorId` and `MatchAllBounds` |
| Matcher.Prefill | matching.py:390-399 | the style pre-pass; its contract is carried by `PrefillCovers` and met by `PrefillCache` |
| Matcher.MatchAllSpec | matching.py:368-429 | the whole run over resolved ids; its contract is carried by `MatchAllResults`, `MatchAllFailures`, `MatchAllBounds` and met by `MatchAll` |
| Matcher.MapIds | matching.py:405-408 | one record per id |
| Matcher.PerProfessors | matching.py:403-424 | one record per professor id |
| Matcher.IdsOf | matching.py:427 | one id per record |
| Matcher.Insert | matching.py:427 | inserting adds one record |
| Matcher.SortDesc | matching.py:427 | the sort keeps the length |
| Matcher.InsertSorted | matching.py:427 | inserting into a sorted list keeps it sorted |
| Matcher.InsertPermutes | matching.py:427 | inserting adds exactly that record |
| Matcher.InsertIds | matching.py:427 | inserting adds exactly that record's id |
| Matcher.InsertFirstIds | matching.py:427 | the same, when the record goes first |
| Matcher.InsertLaterIds | matching.py:427 | the same, when it goes after the head |
| Matcher.ConsIds | matching.py:427 | a common head keeps an id-multiset difference |
| Matcher.IdsOfCons | matching.py:427 | the ids of a list start with its head's id |
| Matcher.SortDescSorted | matching.py:427 | the records come out from highest total to lowest |
| Matcher.SortDescPermutes | matching.py:427 | the sort only rearranges the records |
| Matcher.SortDescIds | matching.py:427 | the professor ids come out rearranged, none lost or added |
| Matcher.ResolveProfessorIds | matching.py:384-387 | the given ids are used as they are; otherwise each catalog id exactly once, or the `KeyError` of an item without `professor_id` |
| Matcher.PrefillCache | matching.py:390-399 | a fresh cache holding every style's vector, or the embedding failure |
| Matcher.ScoreProfessors | matching.py:403-424 | the records of `PerProfessors`, in submission order, and the shared cache unchanged |
| Matcher.MatchAll | matching.py:368-429 | the result is `MatchAllSpec` over the given ids, or over an enumeration of the catalog's ids |
| Matcher.IdsOfMap | matching.py:405-408 | records that name their own id keep the id list |
| Matcher.MapIdsSnoc | matching.py:405-408 | one more id adds one more record |
| Matcher.PerProfessorId | matching.py:409-424 | a record, matched or fallback, names its professor |
| Matcher.IdsOfPerProfessors | matching.py:403-424 | the records name exactly the submitted ids, in order |
| Matcher.PerProfessorsSnoc | matching.py:403-424 | one more id adds that professor's record |
| Matcher.PrefillCovers | matching.py:396-399 | the pre-pass caches every learning style |
| Matcher.ScoringLeavesSharedCache | matching.py:403-408 | no professor's scoring changes the shared cache |
| Matcher.MatchAllResults | matching.py:368-429 | a success is sorted high to low, names each given id as often as it was given, and rearranges the per-professor records |
| Matcher.MatchAllFailures | matching.py:394-424 | the run fails exactly when the pre-pass fails or there are no ids (no workers); one professor's failure never stops it |
| Matcher.MatchAllBounds | matching.py:345-362 | every total lies in [70, 89], and in [70, 88] for professors other than `prof_001`, fallbacks included |
| Conversation.ScaleGrade | matching.py:790-793 | the scaling of the model's grade; its contract is carried by `ScaleGradeRange` |
| Conversation.LengthScore | matching.py:805-808 | the length fallback; its contract is carried by `LengthScoreRange` |
| Conversation.Graded | matching.py:769-817 | the score from the evaluator's outcome; its contract is carried by `GradedOrLength` and `ChatScoreRange` |
| Conversation.ChatBasedScore | matching.py:691-817 | the conversation score; its contract is carried by `GuardsScoreZero`, `GradedOrLength`, `PastGuards` and `ChatScoreRange` |
| Conversation.Contents | matching.py:728-729 | every content it yields comes from a message with that role, every such message's content is in it, and it is no longer than the history; order and multiplicity are stated by `ContentsSingleton` and `ContentsAppend` |
| Conversation.ContentsSingleton | matching.py:728-729 | one message yields its content exactly when it has the role |
| Conversation.ContentsAppend | matching.py:728-739 | the contents of two joined histories are the first's followed by the second's, so the comprehension keeps message order and repeats, which the `zip` pairing relies on |
| Conversation.FinalMatchingScore | matching.py:823-856 | the inputs are echoed and the final score lies in [70, 98] |
| Conversation.GuardsScoreZero | matching.py:711-736 | no messages, one message, or no user or professor message give 0 with the fixed analysis and no details |
| Conversation.NoneOfRole | matching.py:728-729 | no message of a role gives no contents |
| Conversation.GradedOrLength | matching.py:738-817 | past the guards, the score is the evaluator's total (0 when absent) truncated and scaled, or, when grading raises, the length score of the mean message length with the fixed fallback analysis |
| Conversation.PastGuards | matching.py:731-738 | past the guards the score is the evaluator's branch |
| Conversation.SomeOfRole | matching.py:728-729 | a message of a role gives some content |
| Conversation.ScaleGradeRange | matching.py:790-793 | a positive grade lands in [70, 98] (100 gives 98); a grade of 0 or less passes through |
| Conversation.LengthScoreRange | matching.py:805-808 | the length score lies in [70, 98], never decreases with the mean length, and is 98 from 500 on |
| Conversation.ChatScoreRange | matching.py:691-817 | a chat score is at most 0, or lies in [70, 98]; the length fallback always lies in [70, 98] |
| Conversation.FinalBetweenInputs | matching.py:845-848 | inputs in [70, 98] need no clamp and combine to a value between them |
| Conversation.TruncBetween | matching.py:845 | `int()` of a value at least `n` is at least `n` |
| Conversation.FinalMonotone | matching.py:845-848 | the final score never decreases as either input grows |
| Conversation.FinalTruncates | matching.py:845 | 0.6 × 71 + 0.4 × 70 gives 70, where `round` would give 71 |
| Keywords.KeywordMatchScore | main.py:14-40 | the Jaccard score; its contract is carried by `ScoreRange`, `Symmetric`, `OnlySetsMatter` and `Extremes` |
| Keywords.AsSet | main.py:31-32 | the set holds exactly the listed keywords |
| Keywords.SubsetCard | main.py:34-35 | a subset is no larger |
| Keywords.Ratio | main.py:40 | a ratio of a part to a non-empty whole lies in [0, 1] |
| Keywords.UnionNonEmpty | main.py:35-38 | two non-empty lists have a non-empty union |
| Keywords.ScoreRange | main.py:14-40 | the score lies in [0, 1], is 0 when either list is empty, and otherwise times the union size is the intersection size |
| Keywords.Symmetric | main.py:14-40 | the score is symmetric |
| Keywords.OnlySetsMatter | main.py:31-32 | order and repeats do not change the score |
| Keywords.Extremes | main.py:14-40 | a non-empty list scores 1 against itself, and disjoint lists score 0 |
| Rag.SelectMatches | chat.py:147-153 | the matches that form the context; its contract is carried by `SelectionBounds` |
| Rag.AnswerSpec | chat.py:115-201 | the whole answer; its contract is carried by `EmptySearch`, `ReferencesPerMatch` and met by `GenerateAnswer` |
| Rag.AnyContained | chat.py:120 | true exactly when some keyword occurs in the question |
| Rag.SearchK | chat.py:124 | an introduction question fetches `max(3 top_k, 10)`, any other `top_k` |
| Rag.OfType | chat.py:132-133 | exactly the matches of that type |
| Rag.ChunkIds | chat.py:142 | exactly the chunk ids of the matches |
| Rag.NewProfiles | chat.py:143-145 | no more extras than were found |
| Rag.ContextParts | chat.py:74-87 | one context part per match |
| Rag.References | chat.py:193-199 | one reference per match |
| Rag.AppendNewProfiles | chat.py:142-145 | the profiles followed by the extras whose chunk id was not among the original profiles |
| Rag.FormatContext | chat.py:71-89 | the context is the parts joined by a blank line |
| Rag.ReferenceLines | chat.py:193-199 | the loop yields exactly `References` |
| Rag.GenerateAnswer | chat.py:115-201 | the answer is `AnswerSpec` |
| Rag.EmptySearch | chat.py:127-128 | no match gives the fixed message and no references |
| Rag.ReferencesPerMatch | chat.py:193-199 | one reference per original match, in order: a QA match's question, any other's title |
| Rag.SelectionBounds | chat.py:147-153 | the context holds at most seven matches for an introduction question and at most `2 + top_k` otherwise, all of them profile or QA matches |
| Rag.NewProfilesSpec | chat.py:142-145 | the extras kept are exactly those with a new chunk id; repeats among them stay |
| Rag.IntroDetection | chat.py:120 | a question containing "자기소개" is an introduction question, and a research question holding none of the six keywords is not |
| Rag.NotContainsFirst | chat.py:120 | a piece whose first character never occurs in the text is not contained in it |
| Upsert.EmbedText | embadding.py:67-70 | the text to embed; its contract is carried by `RecordFields` |
| Upsert.RecordOf | embadding.py:66-96 | one item's record or its first failure; its contract is carried by `RecordFields` and met by `BuildRecord` |
| Upsert.Records | embadding.py:62-96 | one record per item |
| Upsert.BuildRecord | embadding.py:66-96 | one turn of the loop yields `RecordOf` |
| Upsert.UpsertChunks | embadding.py:62-97 | the records sent are `Records`: all items in order, or the first failure |
| Upsert.RecordsAfterFailure | embadding.py:65-96 | a failure ends the run with that error |
| Upsert.CopyPresentSpec | embadding.py:82-90 | the optional keys present in the item are copied with their values, and nothing else changes |
| Upsert.RecordFields | embadding.py:66-96 | a record's id and metadata carry the chunk id, professor id, type (default "") and embedded text, plus exactly the optional keys the item has; its vector is the text's embedding |
| Upsert.RecordsInOrder | embadding.py:65-96 | a success has one record per item, in order, each that item's record |
| Upsert.RecordsFailure | embadding.py:65-96 | the run fails exactly when some item's record fails |
| Api.MatchRequestError | api.py:842-855 | the match request's validation; its contract is carried by `MatchRejects` |
| Api.UpdateError | api.py:740-755 | the update's truthy-only validation; its contract is carried by `FalsyFieldsSkipValidation` and met by `ApplicantRecord.Update` |
| Api.Updated | api.py:758-765 | the updated row; its contract is carried by `UpdateIsPartial` and `FalsyFieldsSkipValidation` |
| Api.ReportScores | api.py:1105-1148 | the report's scores; its contract is carried by `ReportScoresRange` |
| Api.EmailDraftScore | api.py:1245-1294 | the e-mail draft's score; its contract is carried by `EmailDraftScoreCases` |
| Api.ChatRequestError | api.py:347-357 | the chat request's validation; its contract is carried by `ChatRejectsBeforeRetrieval` |
| Api.Chat | api.py:346-365 | the chat endpoint without message storage; its contract is carried by `ChatRejectsBeforeRetrieval` |
| Api.CheckStyles | api.py:849-855 | the loop accepts exactly the lists whose every style is valid |
| Api.MatchApplicant | api.py:812-918 | a request outside the lists is rejected with 400 and nothing stored; otherwise the row is stored with the joined styles, and the results are the matching run or a 500 |
| Api.ApplicantRecord.constructor | api.py:732-737 | the record holds the row loaded |
| Api.ApplicantRecord.Update | api.py:739-770 | validation fails with the same 400 as `UpdateError` and changes nothing; otherwise exactly the given fields are assigned |
| Api.SelectFinalScore | api.py:1127-1148 | the initial and conversation scores and the analysis are echoed, and the weighted score is the final score |
| Api.MatchRejects | api.py:842-855 | the keyword is checked first, then the styles; a request passes exactly when both are in the lists |
| Api.FalsyFieldsSkipValidation | api.py:740-765 | "" and [] skip validation and are stored |
| Api.UpdateIsPartial | api.py:758-765 | an update changes exactly the fields given; an empty update changes nothing |
| Api.ValidStylesClean | api.py:849 | no valid style holds a comma or surrounding whitespace |
| Api.StylesRoundTrip | api.py:868 | a non-empty list of valid styles is read back exactly as stored |
| Api.EmptyStylesComeBackAsEmptyString | api.py:868 | an empty list is stored as "" and read back as `[""]` |
| Api.SelectFinalCases | api.py:1127-1140 | a conversation score of 0 keeps the initial total; any other gives the combined score in [70, 98] |
| Api.ReportScoresRange | api.py:1105-1148 | the initial score lies in [70, 89] and the final one in [70, 98]; the report fails exactly when the initial matching fails |
| Api.EmailDraftScoreCases | api.py:1245-1294 | a score is given only for a found session whose initial matching succeeds; a session without messages gives the initial total; every score lies in [70, 98] |
| Api.SelectFinalRange | api.py:1127-1140 | an initial total in [70, 98] gives a final score in [70, 98] |
| Api.ChatRejectsBeforeRetrieval | api.py:347-357 | an empty or blank question, or a missing professor id, is a 400 whatever the search and model would do |

## Left out

- Database access is not modelled. That covers sessions, the applicant and professor lookups, their 404 and 400 errors, commits and rollbacks, and the saving of chat messages. The model starts from the row or the message list that was found.
- The professor-name enrichment of match results (api.py:878-885) and the response formatting are left out; they do not change scores or order.
- The thread pool's concurrency and completion order are left out. The calls are scored one after another, which is sound because no call changes the shared cache (`Matcher.ScoringLeavesSharedCache`). The output is specified by sortedness and permutation only.
- The language-model prose is left out: rationales, final reports, e-mail drafts and their streaming, `remove_markdown`, and the chat answer's text. The evaluator and the chat completion are parameters.
- Sending e-mail, the startup hook, health and listing endpoints, the migration and data-editing scripts, and `db_init.py` are left out. They are I/O with no logic under test.
- Catalog items are modelled as `map<string, string>` (`Catalog.Item`). A JSON `null` or a non-string value in `professor_data.json` cannot be represented. For a null `question`, for example, `qa.get("question", "")` yields `None` in the source rather than a string.
- Floating point is modelled as exact reals. Rounding at the 53-bit mantissa is not captured, so `0.6 * 71` is exactly 42.6 here.
- Square root and `** 1.5` are uninterpreted parameters. The lemmas that need facts about them take those facts as preconditions.
- `Rag.AnswerSpec`: the vector search, the name lookup and the chat model are parameters. The prompt text is not modelled. A `None` from the chat model stands for two source cases: the call raised, or `message.content` was `None` (chat.py:190), where the source returns `(None, references)` without raising. At `/chat` both end the same way, in a 500: `ChatResponse.answer` is a `str`, so building the response from a `None` answer fails, and that error is caught at api.py:403-408.
- `Conversation.ChatBasedScore`: the JSON parsing of the model's reply is folded into the evaluator parameter. It yields the reply's fields as numbers, with an absent field as `None`. A reply that cannot be parsed, or a call that raises, is `None`.
- `Upsert.UpsertChunks`: the final `index.upsert` call, the progress bar and the printed count are left out. The model returns the records that would be sent.
- `Keywords.KeywordMatchScore` is the only logic in main.py. `models.py` is not part of this model.
- `Api.Chat` and `Rag.AnswerSpec`: `top_k` is an integer in the model. The chat request declares it `Optional[int]` (api.py:56), and a request with an explicit `top_k: None` is not modelled. In the source that `None` would reach `top_k * 3` (chat.py:124) and `qa_matches[:top_k]` (chat.py:153). The request field's limits `1 <= top_k <= 10` are left to the framework.

