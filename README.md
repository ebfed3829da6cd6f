# BTC predictor feedback loop — a Dafny model

The system makes a five-minute BTC direction call with a primary LLM. A second LLM (the verifier) agrees or disagrees with each call. Once the window closes, both are resolved against the actual price.

Batches of resolved calls are then classified. Rare cases ("extremes") are flagged and an LLM extracts a learning from each. Every 100 predictions, a meta-learner turns those learnings into rules. A dashboard serves ingestion and resolution endpoints, plus a page of counters, a streak and labels.

This project models that bookkeeping exactly:

- **Record store** (`Store`): the four tables as a class `Database` with sequence fields and sequential ids.
- **Resolution arithmetic** (`Resolve`).
- **Primary classifier** (`Predictor`) and **verifier classifier** (`Verifier`): the batch guard, the percentile threshold, first-match-wins rules, and write-back.
- **Consensus** (`Consensus`): the consensus decision and the 2×2 outcome table.
- **Meta-learner** (`MetaLearner`): its scheduling and rule stamping.
- **Trend cascade** (`MarketStructure`).
- **Dashboard endpoints** (`DashboardApi`): auth, field checks, 404, resolution.
- **Dashboard page** (`DashboardView`, `HtmlText`): counters, countdown, streak, labels, escaping and truncation.

Every LLM answer is a function parameter (an oracle). The model says what is done with an answer, never what the answer is. Timestamps are naturals whose order is insertion order. Prices are `real`.

Modules and files:

| module | file |
|---|---|
| `Wrappers` | wrappers.dfy |
| `Text` | text.dfy |
| `Records` | records.dfy |
| `Queries` | queries.dfy |
| `Sorting` | sorting.dfy |
| `Store` | store.dfy |
| `Resolve` | resolution.dfy |
| `Predictor` | predictor.dfy |
| `Verifier` | verifier.dfy |
| `Consensus` | consensus.dfy |
| `MetaLearner` | meta_learner.dfy |
| `MarketStructure` | market.dfy |
| `DashboardApi` | dashboard_api.dfy |
| `HtmlText` | html_text.dfy |
| `DashboardView` | dashboard_view.dfy |

Reading the code as written:

- A verifier row whose `gpt_was_correct` is NULL counts as wrong, because Python's `not None` is true (`Records.VerifierPrediction.Wrong`).
- `str.replace` removes every occurrence of `'Bearer '`, not only a leading one. So the header `Bearer Bearer k` authenticates against key `k` (`DashboardApi.RepeatedPrefixAccepted`).
- The classifiers' threshold index is `int(n * 0.9)` over floats. It is modelled as the exact integer `n * 90 / 100`, which is 18 for the batch size of 20 that is the only size ever used.

## Model

| member | source | states |
|---|---|---|
| Store.Database.SavePrediction | predictor.py:410-425 | appends the row with the next id (table length + 1) and returns that id; other tables unchanged; ids stay sequential |
| Store.Database.UpdateResolution | predictor.py:427-448 | the row with the record's id takes its resolution and classification fields, keeping its stored creation fields; every other row and table unchanged |
| Store.ApplyUpdatesAt | predictor.py:427-448 | after a run of updates that agree per id, each row is the merge of its update, or unchanged if no update names it; length kept |
| Store.Database.SaveVerifierPrediction | predictor.py:184-200 | appends the verifier row with the next id and returns it; other tables unchanged |
| Store.Database.UpdateVerifierResolution | predictor.py:202-217 | the verifier row with that id takes resolved_at, gpt_was_correct, is_extreme, extreme_reason and learning; nothing else changes |
| Store.ApplyVerifierUpdatesAt | predictor.py:202-217 | per-row effect of a run of verifier updates, as for predictions |
| Store.Database.SaveMetaLearning | predictor.py:561-583 | appends the rule with the next id, active, and returns the id |
| Store.Database.SaveConsensusOutcome | predictor.py:345-358 | appends the outcome row with the next id; other tables unchanged |
| Store.Database.SetResolution | dashboard.py:2469-2486 | exactly the rows with that id get the new resolution; nothing else changes |
| Store.Database.Find | dashboard.py:2443-2446 | Some exactly when a row has the id, and then it is that stored row |
| Store.Database.GetRecentForBatchAnalysis | predictor.py:477-489 | the newest resolved, unclassified rows, newest first, at most the limit, as many as exist up to it |
| Store.Database.GetVerifierRecentForBatch | predictor.py:259-270 | same selection on the verifier table |
| Store.Database.GetAllExtremes | predictor.py:464-475 | exactly the stored rows flagged extreme that carry a learning, in insertion order, each once (ids strictly increasing) |
| Store.Database.GetActiveMetaRules | predictor.py:585-597 | min(5, #active) active rules, drawn from the active ones, in non-increasing confidence; no active rule left out is more confident than one kept |
| Store.TopByConfidence | predictor.py:589-593 | the k most confident rules (or all, if fewer): a sub-multiset of the input, sorted by confidence descending, with no rule left out more confident than one kept |
| Store.Database.GetLastMetaAnalysisCount | predictor.py:599-609 | 0 with no rules, else the newest rule's predictions_analyzed |
| Store.Database.GetStats | predictor.py:505-541 | total is the table size; resolved is the number of resolved rows and correct the number whose direction was right; correct <= resolved <= total; accuracy is correct/resolved as a percentage, in [0, 100] |
| Store.AccuracyPct | predictor.py:536 | in [0, 100]; 0 when nothing is resolved; otherwise exactly 100 * correct / resolved, so 100 when every resolved row is correct |
| Store.CountCorrect | predictor.py:515-516 | never more than the resolved count |
| Store.ResolvedAtMostTotal | predictor.py:509-513 | the resolved count never exceeds the total |
| Queries.NewestFirst | predictor.py:481-486 | min(limit, #matching) rows, the i-th being the i-th newest matching row |
| Resolve.ResolutionOf | predictor.py:1262-1276 | direction UP iff actual > current (tie is DOWN); correct iff it equals the call; error × current = abs(actual − target) × 100, non-negative for current > 0; calibration in [0,1] and complementary between right and wrong |
| Resolve.ExampleCorrectUp | predictor.py:1264-1274 | 50000 → 50100 with target 50500 at 80%: UP, correct, error 0.8, calibration 0.8 |
| Resolve.ExampleWrongUp | predictor.py:1264-1274 | the same call against 49900: DOWN, wrong, error 1.2, calibration 0.2 |
| Predictor.ResolvePrediction | predictor.py:1262-1277 | the resolved copy is returned and written by id; a zero current price raises (None) and writes nothing |
| Predictor.ThresholdIndex | predictor.py:1289 | the percentile index is inside any non-empty batch |
| Predictor.ThresholdIndexOfBatch | predictor.py:1289 | for a batch of 20 the index is 18, leaving two rows at or above the threshold |
| Predictor.PrimaryRule | predictor.py:1297-1315 | extreme iff one of the four rules holds; the confidence rules win first with their own reason; accuracy/miss verdicts carry the row's error and only reach non-outlier confidences; a miss is above 0.05 and at or over the threshold |
| Predictor.ExampleConfidentMissFlagged | predictor.py:1297-1300 | the wrong 80% call is flagged "high confidence but wrong" whatever the threshold |
| Predictor.Classified | predictor.py:1316-1324 | only the classification fields change; is_extreme is set from the rules; an extreme row gets its reason and the oracle's learning; a non-extreme row keeps its reason and learning |
| Predictor.AnalyzeBatchForExtremes | predictor.py:1279-1326 | a short batch returns [] and writes nothing; otherwise it returns the flagged rows in batch order and writes every classified row back |
| Predictor.WriteBack | predictor.py:1293-1324 | after the loop the returned rows are exactly the flagged classified rows, in batch order, and the table is the old table with every classified row merged in |
| Predictor.WriteBackRow | predictor.py:1294-1324 | one pass over row i extends both the written-back prefix and the flagged prefix by that row |
| Predictor.ClassifyRow | predictor.py:1294-1322 | the row produced is the classified row, and it is reported extreme exactly when a rule fires |
| Predictor.FullBatchHasExtremes | predictor.py:1289-1315 | a full batch always yields at least n − index extremes (two for 20) |
| Predictor.FlaggedAtLeastCount | predictor.py:1312-1315 | every row whose error reaches the threshold is flagged, so flagged rows are at least as many as those |
| Predictor.ClassificationSettles | predictor.py:1316-1326 | after the write-back every batch row is classified and no longer pending; rows outside the batch are unchanged |
| Sorting.SortAsc | predictor.py:1289 | sorted ascending and a permutation of the input |
| Sorting.SortedIndexBound | predictor.py:1289 | at least n − k values are at or above the k-th smallest |
| Verifier.GptWasCorrect | predictor.py:982-985 | the verifier was right iff agreeing matches the primary being right |
| Verifier.ResolveVerification | predictor.py:975-988 | resolved_at and gpt_was_correct set as above, written by id, nothing else changes |
| Verifier.VerifierRule | predictor.py:1002-1016 | not extreme iff it agreed and was right or of middling confidence; confidence rules win first; a caught error is a right disagreement, a false alarm a wrong middling disagreement |
| Verifier.ResolvedRuleOutcome | predictor.py:1009-1016 | after resolution: caught error iff disagreed with a wrong primary; false alarm iff disagreed with a right primary at 21..79% |
| Verifier.ClassifiedVerifier | predictor.py:1018-1024 | the flag is set; an extreme row gets its reason and learning, others keep theirs |
| Verifier.AnalyzeBatchForExtremes | predictor.py:990-1028 | short batch (< 8): [] and no write; otherwise flagged rows in order, every row written back |
| Verifier.WriteBack | predictor.py:998-1026 | after the loop the returned rows are exactly the flagged classified verifications, in order, and the table is the old one with each merged in |
| Verifier.WriteBackRow | predictor.py:999-1026 | one pass over verification i extends both the written-back prefix and the flagged prefix by it |
| Verifier.ClassifyRow | predictor.py:999-1024 | the row produced is the classified verification, reported extreme exactly when it is flagged |
| Verifier.ClassificationSettles | predictor.py:1018-1026 | every batch row leaves the pending set; rows outside it are unchanged |
| Consensus.DetermineConsensus | predictor.py:1369-1395 | direction is always the primary's; STRONG iff agree at >= 70, VETO iff disagree at <= 30; HIGH iff strong or veto, MEDIUM iff weak; confidence is the floor of the average, or of half the primary's |
| Consensus.ConsensusConfidenceBounds | predictor.py:1379-1388 | with inputs in 0..100 the confidence is in 0..100, no more than the larger input, and at most 50 on disagreement |
| Consensus.OutcomeRoundTrip | predictor.py:1398-1410 | the outcome tag determines agreement and correctness and is determined by them (total and one-to-one) |
| Consensus.OutcomeVerifierCorrect | predictor.py:1398-1410 | the verifier was right exactly for consensus_win and gpt_caught_error |
| Consensus.OutcomeRecord | predictor.py:1464-1474 | the row records agreement, the tag and the correctness flags it determines; the confidence is the consensus's when there is one and the primary's otherwise; gpt_correct is the verifier's stored correctness; the direction is the primary's either way |
| Consensus.ResolveAndRecord | predictor.py:1459-1474 | the verification is resolved, then exactly one outcome row is appended whose gpt_correct agrees with its tag |
| MetaLearner.ShouldAnalyzeCounts | predictor.py:712-720 | due iff total >= last count + 100 |
| MetaLearner.ShouldAnalyze | predictor.py:712-720 | due iff at least 100 predictions since the newest rule's count (or in all, with no rule) |
| MetaLearner.Categorize | predictor.py:732-735 | each category holds exactly the extremes satisfying its filter |
| MetaLearner.CategoriesCoverRules | predictor.py:732-735 | a row flagged high-confidence-wrong, low-confidence-correct or exceptional-accuracy lands in the matching category (high_conf_wrong, low_conf_right, accurate_targets); a row flagged only for a batch-threshold miss need not reach the 0.15 of large_misses and is not claimed |
| MetaLearner.PlannedPatterns | predictor.py:724-767 | fewer than 20 extremes plans nothing; an unresolved extreme aborts; otherwise a parsed reply yields exactly its `patterns` (none when the key is missing), an unparseable one none, and a raised call aborts |
| MetaLearner.RuleFor | predictor.py:768-777 | the rule takes the given id and timestamp, copies each pattern key the reply gave, applies the defaults for missing keys, and is stamped with the total, learnings and accuracy |
| MetaLearner.RulesFor | predictor.py:767-780 | one rule per pattern, the k-th built from the k-th pattern with id lastId + k + 1, each stamped with the prediction total read before saving |
| MetaLearner.Analyze | predictor.py:722-782 | exactly the planned rules are appended; after a non-empty save no analysis is due; counts keep tracking the total |
| MetaLearner.SavePatterns | predictor.py:766-782 | one rule per pattern, in order, appended with consecutive ids and stamped with the statistics read before the first save |
| MetaLearner.RunMetaAnalysisIfNeeded | predictor.py:1356-1366 | when not due, nothing is stored; when due, it is Analyze |
| MetaLearner.AnalyzeKeepsCountsTracking | predictor.py:770 | stamping with the current total keeps counts non-decreasing and no larger than the total |
| MetaLearner.NewestCountIsMax | predictor.py:603-609 | under that invariant the newest rule has the largest count |
| MarketStructure.TrendOf | predictor.py:1129-1138 | each trend name iff its chain of strict inequalities (strong before plain) |
| MarketStructure.AnalyzeMarketStructure | predictor.py:1098-1111 | None iff fewer than 12 closes; the 1h average is over the last 12 closes, the 4h average over the last 48 when there are at least 48 and over all otherwise, the 24h average over all |
| MarketStructure.FlatMarketRanges | predictor.py:1129-1138 | a constant series is ranging |
| MarketStructure.TrendOfMirror | predictor.py:1129-1138 | negating price and averages swaps up and down trends |
| MarketStructure.MirroredSeriesMirrorsTrend | predictor.py:1107-1138 | the negated series has the mirrored trend |
| DashboardApi.AuthorizePrediction | dashboard.py:2338-2352 | no key: pass; else 401 iff the header lacks "Bearer ", 403 iff the stripped key differs; pass iff it matches |
| DashboardApi.AuthorizeResolve | dashboard.py:2405-2412 | only the 403 check: pass iff no key or the stripped header equals it |
| DashboardApi.StripPrefix | dashboard.py:2346 | "Bearer " + key strips to key when the key holds no "Bearer " |
| DashboardApi.WellFormedHeaderPasses | dashboard.py:2338-2352 | the well-formed header passes both endpoints |
| DashboardApi.WrongKeyForbidden | dashboard.py:2346-2352 | any other key gives 403 "Invalid API key" on both endpoints |
| DashboardApi.RepeatedPrefixAccepted | dashboard.py:2346 | a doubled "Bearer " prefix still passes |
| DashboardApi.MissingPredictionFields | dashboard.py:2368-2375 | empty iff all four fields are present; exactly the missing ones, in the order current_price, direction, target, confidence, each at most once |
| DashboardApi.MissingResolveFields | dashboard.py:2426-2433 | empty iff prediction_id and actual_price are present; exactly the missing ones, in the order prediction_id, actual_price, each at most once |
| DashboardApi.NormalizeTimeframe | dashboard.py:2378-2380 | a known timeframe is kept; anything else becomes "5" |
| DashboardApi.ExternalRow | dashboard.py:62-75 | the payload's numbers, direction upper-cased, timestamp/reasoning/source defaults, unresolved and unclassified |
| DashboardApi.DirectionUpperCased | dashboard.py:70 | "up", "down" and "Up" are stored as UP/DOWN |
| DashboardApi.ResolveEndpointMatchesPredictor | dashboard.py:2464-2486 | the endpoint's write equals the predictor's update_resolution with the same resolution |
| DashboardApi.DashboardServer.StoreFor | dashboard.py:82-84 | one of the three stores; unknown timeframes use the 5-minute store |
| DashboardApi.DashboardServer.HandlePrediction | dashboard.py:2336-2401 | 401/403/400 write nothing; 201 iff authorized with all fields, appending the external row to the timeframe's store only |
| DashboardApi.DashboardServer.HandleResolve | dashboard.py:2403-2507 | 403, 400 and 404 write nothing; for an authorised complete body, a missing row gives 404, a found row with zero current price gives 500 and no write, any other found row gives 200 and writes its resolution |
| DashboardView.AccuracyClass | dashboard.py:1588 | success iff >= 55, error iff < 45, warning otherwise |
| DashboardView.MaxAnalyzed | dashboard.py:1604-1605 | 0 with no rules, else a stamped count no smaller than any other |
| DashboardView.NextMeta | dashboard.py:1604-1609 | max(0, largest count + 100 − total); without the table, 100 − total below 100, else 0 |
| DashboardView.Stats | dashboard.py:1571-1612 | the counters (correct and resolved equal to the predictor's statistics), accuracy equal to the predictor's figure, its class, extremes, active rules and the countdown |
| DashboardView.MissingTableIsEmptyTable | dashboard.py:1604-1609 | no rule table counts down like an empty one |
| DashboardView.MaxIsNewestCount | dashboard.py:1604-1605 | while counts track the total the largest count is the newest rule's |
| DashboardView.CountdownMatchesScheduler | dashboard.py:1606 | the countdown is 0 exactly when the meta-learner would analyze |
| DashboardView.CountdownIsExact | dashboard.py:1606 | after exactly that many more predictions an analysis is due, and not one sooner |
| DashboardView.MarkOf | dashboard.py:1997-2002 | pending iff unresolved, win iff resolved and correct |
| DashboardView.OldestFirstMarks | dashboard.py:1996 | the rows' marks in reversed order |
| DashboardView.RenderStreak | dashboard.py:1994-2007 | empty input gives the empty-state block; otherwise the page parses back to the marks oldest first |
| DashboardView.StreakRoundTrip | dashboard.py:1994-2007 | the rendered page reads back to exactly the marks it was rendered from |
| DashboardView.JoinRenders | dashboard.py:1994-2007 | joining the items built for a run of marks gives that run's page text |
| DashboardView.RecentStreak | dashboard.py:1645-1658 | the newest min(20, n) rows, newest first |
| DashboardView.StreakShowsLatestOldestFirst | dashboard.py:1645-1658 | the streak shows the last min(20, n) predictions, oldest on the left |
| DashboardView.LabelMatchesConsensus | dashboard.py:1942-1955 | the card's caption is the predictor's consensus signal |
| DashboardView.ContextLabel | dashboard.py:2190-2198 | caught iff "caught" occurs case-insensitively, with text CAUGHT ERROR; false-alarm iff not that and "false alarm" occurs, with text FALSE ALARM; blind-spot when neither occurs, with the first 30 characters upper-cased |
| DashboardView.CaughtErrorTagged | dashboard.py:2190-2192 | a stored caught-error reason is labelled CAUGHT ERROR |
| DashboardView.FalseAlarmTagged | dashboard.py:2193-2195 | a stored false-alarm reason is labelled FALSE ALARM |
| HtmlText.EscapeHtml | dashboard.py:1897 | the three replace passes equal mapping each character to its entity once |
| HtmlText.UnescapeEscape | dashboard.py:1897 | unescaping the escaped text gives it back |
| HtmlText.EscapedHasNoBrackets | dashboard.py:1897 | escaped text contains no raw < or > |
| HtmlText.Truncate | dashboard.py:1898 | unchanged up to the limit; else the first limit characters followed by "..." |
| HtmlText.TruncateIdempotent | dashboard.py:1898 | truncating twice equals truncating once |
| HtmlText.ReasoningShort | dashboard.py:1896-1898 | placeholder when empty, else the escaped reasoning cut at 150; no raw brackets |
| HtmlText.VerifierReasoningShort | dashboard.py:1919-1920 | exactly the escaped reasoning truncated at 100 characters ("..." added when cut, so at most 103); no raw brackets; short text reads back intact |
| HtmlText.LearningDisplay | dashboard.py:2074-2083 | reason ("Unknown" when missing or empty) and learning are their HTML-escaped forms, which read back to the originals and hold no raw brackets; short is the full text cut at 100 |
| HtmlText.MetaRuleDisplay | dashboard.py:2105-2111 | description and rule are their HTML-escaped forms, which read back to the originals and hold no raw brackets; short is the rule cut at 100 |

## Left out

- MetaLearner.RulesFor: every rule saved by one analysis carries the same timestamp `now`, where predictor.py:769 reads the clock once per pattern. Timestamps are opaque here and rules keep their insertion order, so no property depends on the difference.
- SQLite plumbing is not modelled: connections, `CREATE TABLE`, the `PRAGMA`/`ALTER` migration and the `sqlite_master` checks. Tables are in-memory sequences. The dashboard's "no rule table" case is an `Option` argument.
- LLM calls and prompt text are oracle parameters. This covers `make_prediction`, both `_extract_learning`, `verify_prediction`, `_build_meta_prompt`, `build_context` and `get_meta_context`. The regex/JSON parsing of the meta reply is reduced to a parsed or unparseable reply.
- An exception raised by an LLM call is not modelled. The one exception `analyze` can meet on stored data, an unresolved extreme, is modelled as "stores nothing" (None).
- A meta reply that is valid JSON but not an object is not modelled.
- `BinanceClient` is not modelled (network I/O). Actual prices are parameters.
- Volatility, momentum, highs, lows and volume in `analyze_market_structure` are not modelled (floating-point metrics, not decisions). Zero closes are out of scope too.
- `run_single_cycle` and `run_continuous` are orchestration with sleeps and printing, and are not modelled. Only the outcome record they write is modelled.
- Export, `show_status`, the CLI, the HTML template and the surrounding markup of the `render_*` functions are not modelled (presentation and I/O).
- `get_db_path` filesystem probing, `HTTPServer` and start.py are not modelled (process and file-system management).
- The 500 returned when storing an ingested prediction fails is not modelled. So are payload values of the wrong JSON type.
- Timestamps are opaque naturals. "ORDER BY timestamp" is insertion order.
- The reason text of the primary's extremes, which embeds a float formatted to 3 or 2 places, is kept as structured data rather than text.
- Upper- and lower-casing are modelled only for ASCII letters.
- The verifier's meta tables, `get_verifier_extremes`, `get_extremes`, `get_resolved`, `get_accuracy_for_range` and the average columns of the stats queries are not part of the feedback loop modelled here, so they are left out.
- The two confidence-based verifier reasons are not proved to map to the blind-spot label, because that would need the digits of the formatted confidence; the label of any reason that mentions neither "caught" nor "false alarm" is proved to be blind-spot.
