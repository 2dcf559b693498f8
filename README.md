# A verified model of the asair-ai-sandbox evaluation core

asair-ai-sandbox is a framework for conversational tests. It sends scripted messages to a chat application and checks each answer with assertions. It scores cases and suites, and it extracts "golden scenes" from real chat logs. This project models the framework's decision logic in Dafny and proves what that logic promises.

Modules, one per component of the framework:

- **Records** (`schema.dfy`, `values.dfy`, `text.dfy`, `seqs.dfy`, `wrappers.dfy`): the result and specification records, dynamically typed JSON/YAML values with insertion-ordered dicts, and the string operations the code relies on (`strip`, `in`, slicing, `join`).
- **Scoring** (`scorer.dfy`): `Scorer.score_case` and `SuiteScorer.score_suite`. Their accumulation loops are methods proved against specification functions.
- **Assertions**:
  - `assertion_base.dfy`: the evaluation context and `format_history`.
  - `string_match.dfy`: the contains, not_contains, regex and equals checks.
  - `performance.dfy`: the latency and token-usage checks.
  - `llm_judge.dfy`: the LLM-judge check.
  - `scene_judge.dfy`: the scene judge, covering behaviour selection, the prompt's behaviour list, the per-behaviour score parser, and the weighted average.
  - `assertions.dfy`: dispatch behind the one `evaluate` contract.
  - `builder.dfy`: `build_assertion`.
- **Judge-output parsing** (`judge_parser.dfy`): the three-stage fallback chain of `JudgeLLMClient._parse_judge_response`. The fenced-block and `"key": value` regexes are written out as scanners with Python's leftmost, lazy and greedy matching.
- **Runners**:
  - `runner_base.dfy`: the per-turn build-and-evaluate loop.
  - `multi_turn.dfy`: the multi-turn conversation loop, with conversation-id threading.
  - `single_turn.dfy`: the single-turn runner.
  - `engine.dfy`: `TestEngine`, covering target lookup, runner dispatch, scene loading, and result collection in case order.
- **Utilities**:
  - `rate_limiter.dfy`: the token-bucket limiter, as a class with an explicit clock.
  - `template.dfy`: `${VAR}` interpolation.
  - `config.dfy`: `.env` loading into a mutable environment, and `load_config`'s error mapping.
  - `scene_extractor.dfy`: YAML extraction from a model's reply.

External effects are parameters, listed under "Left out":

- the chat target;
- the judge model;
- `json.loads`;
- the regex engine for user-written patterns;
- `yaml.dump`;
- scene-file loading;
- the clock.

Scores are `real`.

## Model

| member | source | states |
|---|---|---|
| Scorer.FlattenedLength | src/sandbox/scoring/scorer.py:52-58 | the flattened list is as long as all turns' assertion lists plus the final assertions together |
| Scorer.FlattenedTurnOrder | src/sandbox/scoring/scorer.py:55-56 | assertion k of turn i sits right after all assertions of the earlier turns, so turn order and spec order are kept |
| Scorer.FlattenedFinalOrder | src/sandbox/scoring/scorer.py:57 | the final assertions come after every turn assertion, in their own order |
| Scorer.FlattenAssertions | src/sandbox/scoring/scorer.py:52-58 | the extend loop yields exactly the turn-by-turn flattening followed by the final assertions |
| Scorer.PassedCount | src/sandbox/scoring/scorer.py:26 | the number of passed results never exceeds the number of results |
| Scorer.PassedCountFull | src/sandbox/scoring/scorer.py:25-26 | the passed count equals the length exactly when every result passed |
| Scorer.DimScores | src/sandbox/scoring/scorer.py:31 | the scores selected for a dimension are no more than the results |
| Scorer.DimScoresNonEmpty | src/sandbox/scoring/scorer.py:31-32 | a dimension has scores exactly when some result is tagged with it and carries a score |
| Scorer.DimScoresInUnit | src/sandbox/scoring/scorer.py:31 | scores in [0, 1] select scores in [0, 1] |
| Scorer.MeanInUnit | src/sandbox/scoring/scorer.py:33 | a mean of values in [0, 1] lies in [0, 1] |
| Scorer.DimensionScoresEntries | src/sandbox/scoring/scorer.py:29-33 | a dimension has an entry iff it is configured and some result tagged with it carries a score; the entry is the mean of those scores and lies in [0, 1] when they do |
| Scorer.DimensionScoresStep | src/sandbox/scoring/scorer.py:30-33 | each configured dimension adds its own entry and changes no other |
| Scorer.WeightedSumBounds | src/sandbox/scoring/scorer.py:38-41 | with non-negative weights and scores in [0, 1], 0 <= Σ score·weight <= Σ weight |
| Scorer.EmptyCaseScore | src/sandbox/scoring/scorer.py:16-22 | a case with no assertions passes iff it completed, and its pass rate and overall score are both 1.0, else both 0.0 |
| Scorer.CasePassedIffAllPassed | src/sandbox/scoring/scorer.py:25 | a case with assertions passes iff every flattened assertion passed |
| Scorer.PassRateBounds | src/sandbox/scoring/scorer.py:26 | the pass rate is passed/total, lies in [0, 1], and is 1 exactly when every assertion passed |
| Scorer.OverallRule | src/sandbox/scoring/scorer.py:36-42 | overall = Σ dim·weight / Σ weight over the scored dimensions when that total is > 0, otherwise the pass rate |
| Scorer.OverallInUnit | src/sandbox/scoring/scorer.py:36-42 | with non-negative weights and assertion scores in [0, 1], the overall score lies in [0, 1] |
| Scorer.HalfPassRate | src/sandbox/scoring/scorer.py:25-26 | one passing and one failing assertion give pass rate 0.5 and a failed case |
| Scorer.WeightedTotals | src/sandbox/scoring/scorer.py:36-41 | the accumulation loop computes the weighted sum and the weight total over the scored dimensions |
| Scorer.ScoreCase | src/sandbox/scoring/scorer.py:13-50 | `score_case` computes the case score specified by the rules above |
| Scorer.CaseScores | src/sandbox/scoring/scorer.py:68 | one case score per case result |
| Scorer.CaseScoresOrder | src/sandbox/scoring/scorer.py:68 | case score i is the score of case result i |
| Scorer.PassedCases | src/sandbox/scoring/scorer.py:80 | the passed cases are at most all cases |
| Scorer.PassedCasesFull | src/sandbox/scoring/scorer.py:80 | the passed count is the total exactly when every case passed |
| Scorer.DimColumn | src/sandbox/scoring/scorer.py:84-87 | a dimension's list of scores is non-empty exactly when some case scored it |
| Scorer.ScoredDimsMember | src/sandbox/scoring/scorer.py:85-87 | a dimension is collected exactly when some case has a score for it |
| Scorer.DimColumnInUnit | src/sandbox/scoring/scorer.py:84-87 | case dimension scores in [0, 1] collect into a list in [0, 1] |
| Scorer.EmptySuiteScore | src/sandbox/scoring/scorer.py:70-77 | an empty suite scores 0 cases, 0 passed, pass rate 0.0, average 0.0, with no division |
| Scorer.SuiteCounts | src/sandbox/scoring/scorer.py:68-80 | total is the number of case results, passed <= total, and case score i belongs to case i |
| Scorer.SuitePassRate | src/sandbox/scoring/scorer.py:94 | a non-empty suite's pass rate is passed/total, in [0, 1], and 1 exactly when every case passed |
| Scorer.SuiteAverageInUnit | src/sandbox/scoring/scorer.py:81 | under the bounds above the average overall score lies in [0, 1] |
| Scorer.DimensionAveragesEntries | src/sandbox/scoring/scorer.py:83-88 | a dimension has a suite average iff some case scored it; the average is the mean over exactly those cases |
| Scorer.AppendScores | src/sandbox/scoring/scorer.py:86-87 | the inner loop appends each of one case's dimension scores to that dimension's list |
| Scorer.CollectColumns | src/sandbox/scoring/scorer.py:84-87 | the setdefault/append loop builds each dimension's list of scores in case order |
| Scorer.ScoreSuite | src/sandbox/scoring/scorer.py:67-98 | `score_suite` computes the suite score specified by the rules above |
| AssertionBase.HistoryLines | src/sandbox/assertion/base.py:16-22 | two lines per turn, "用户: " + user message then "AI: " + bot response, in history order |
| AssertionBase.FormatHistory | src/sandbox/assertion/base.py:16-22 | the append loop yields exactly the newline-joined lines |
| AssertionBase.HistoryTextEmpty | src/sandbox/assertion/base.py:17-22 | the text is empty exactly when the history is |
| AssertionBase.HistoryTextAppend | src/sandbox/assertion/base.py:19-22 | one more turn appends exactly its two lines, each after a newline, and no trailing newline |
| AssertionBase.ConversationContext | src/sandbox/assertion/llm_judge.py:57 | the prompt's conversation section is the placeholder "(无上下文，首轮对话)" for an empty history and the formatted history otherwise |
| AssertionBase.ContextPlaceholder | src/sandbox/assertion/llm_judge.py:57 | the placeholder appears exactly when the history is empty; no formatted history can be mistaken for it |
| StringMatch.ContainsCheck | src/sandbox/assertion/string_match.py:15-23 | passes iff the value is a substring of the response; type "contains", expected the value, actual "found" or "not found", no score |
| StringMatch.ContainsExtends | src/sandbox/assertion/string_match.py:16 | a response that contains the value still does with any text around it |
| StringMatch.ContainsEmpty | src/sandbox/assertion/string_match.py:16 | the empty value is contained in every response |
| StringMatch.NotContainsCheck | src/sandbox/assertion/string_match.py:32-41 | passes iff no configured value occurs in the response; a failure reports the occurring values in configured order; type "not_contains" |
| StringMatch.NotContainsDual | src/sandbox/assertion/string_match.py:33-34 | with one forbidden word, not_contains passes exactly when contains fails |
| StringMatch.NotContainsMonotone | src/sandbox/assertion/string_match.py:33-34 | adding forbidden words can only turn a pass into a failure |
| StringMatch.RegexCheck | src/sandbox/assertion/string_match.py:50-59 | passes iff the search finds a match; actual is the matched text or "no match"; expected is the pattern; a pattern the engine rejects raises |
| StringMatch.RegexActualInResponse | src/sandbox/assertion/string_match.py:58 | with an engine whose matches are pieces of the text, the reported match occurs in the response |
| StringMatch.EqualsCheck | src/sandbox/assertion/string_match.py:68-76 | passes iff both sides are equal after stripping whitespace; actual is the first 200 characters of the response |
| StringMatch.EqualsIgnoresPadding | src/sandbox/assertion/string_match.py:69 | surrounding whitespace on either side never changes the verdict |
| StringMatch.EqualsReflexive | src/sandbox/assertion/string_match.py:69 | a text equals itself and its own stripped form |
| Performance.LatencyCheck | src/sandbox/assertion/performance.py:14-28 | passes iff the latest latency is <= max_ms; type "latency_ms"; a latency that is not a number raises |
| Performance.TokenUsageCheck | src/sandbox/assertion/performance.py:37-52 | passes iff the latest total_tokens is <= max_total; type "token_usage"; a total that is not a number raises |
| Performance.LatestTurnOnly | src/sandbox/assertion/performance.py:15-19 | earlier turns, the turn index and (given a history) the raw response never change either outcome |
| Performance.LatencyFromLastTurn | src/sandbox/assertion/performance.py:15-17 | with a history the last turn's latency is compared |
| Performance.LatencyFromRaw | src/sandbox/assertion/performance.py:18-19 | without a history the raw "_latency_ms" is compared, 0 when absent; a non-number there raises |
| Performance.LatencyBoundary | src/sandbox/assertion/performance.py:21 | a latency equal to the ceiling passes and one above it fails |
| Performance.TokensDefaultZero | src/sandbox/assertion/performance.py:39-43 | no history, no usage dict or no "total_tokens" key gives 0 tokens |
| Performance.TokenBoundary | src/sandbox/assertion/performance.py:45 | a total equal to the ceiling passes and one above it fails |
| LLMJudge.LLMJudgeCheck | src/sandbox/assertion/llm_judge.py:49-88 | a judge failure gives a failed result with actual "error", a message starting "LLM Judge 调用失败: " and no score or dimension; otherwise passes iff score >= threshold, with score, actual and message taken from the judge and dimension the first configured one |
| LLMJudge.ScoreIffNoFailure | src/sandbox/assertion/llm_judge.py:61-88 | a result carries a score exactly when the judge call succeeded |
| LLMJudge.ThresholdMonotone | src/sandbox/assertion/llm_judge.py:76 | lowering the threshold never turns a pass into a failure |
| LLMJudge.UnparsableReplyFails | src/sandbox/assertion/llm_judge.py:61-74 | a judge reply that no parse stage reads is a caught failure carrying the "无法解析" message, never a default score |
| Assertions.EvaluateKind | src/sandbox/assertion/base.py:25-35 | every result an evaluator returns carries that evaluator's own type tag |
| Assertions.StringChecksIgnoreContext | src/sandbox/assertion/string_match.py:15-76 | the string checks read neither the raw response nor the context |
| Assertions.ServicesUnused | src/sandbox/assertion/base.py:25-35 | only the regex and scene-judge evaluators depend on the regex engine and JSON decoder |
| Builder.ForbiddenValues | src/sandbox/assertion/builder.py:31 | the forbidden words are `values` when non-empty, else the stringified `value`, else none |
| Builder.Build | src/sandbox/assertion/builder.py:22-76 | an evaluator is returned exactly when every field its kind needs is present (and, for llm_judge, a judge client), and it is the evaluator named by the spec's type |
| Builder.BuildKeepsFields | src/sandbox/assertion/builder.py:28-70 | a built evaluator carries the spec's stringified value, forbidden words, pattern, bounds, or criteria, threshold, client and dimensions |
| Builder.OnlyKnownKinds | src/sandbox/assertion/builder.py:72-76 | scene_judge, json_path and json_field are always rejected as deferred, any other unknown type as unknown, and no scene judge is ever built |
| Builder.JudgeChecksInOrder | src/sandbox/assertion/builder.py:57-62 | llm_judge reports a missing criteria first, then a missing threshold, then a missing judge client |
| Builder.IntValueKept | src/sandbox/assertion/builder.py:28 | stringifying distinct integer values gives distinct texts |
| JudgeParser.FirstFromLeftmost | src/sandbox/client/judge_llm.py:80 | a search reports the match at the leftmost start position, and none exactly when no position matches |
| JudgeParser.FirstClose | src/sandbox/client/judge_llm.py:80 | the lazy `.*?\}` stops at the first `}` followed by optional whitespace and a closing fence |
| JudgeParser.FenceAt | src/sandbox/client/judge_llm.py:80 | a fenced-block match starts with three backquotes and captures a text that opens with `{` and closes with `}` |
| JudgeParser.NumberAt | src/sandbox/client/judge_llm.py:93 | the captured score is a non-empty run of digits and dots |
| JudgeParser.StringAt | src/sandbox/client/judge_llm.py:94 | the captured reasoning holds no double quote |
| JudgeParser.DataStage | src/sandbox/client/judge_llm.py:70-77 | a decoded object yields a score only when it has a "score" key whose value converts to a float; anything else falls through |
| JudgeParser.Decide | src/sandbox/client/judge_llm.py:66-103 | the chain's outcome is the first stage that does not fall through, and nothing exactly when every stage falls through |
| JudgeParser.DecideFirst | src/sandbox/client/judge_llm.py:66-100 | the first stage that does not fall through decides, whatever the later stages would give |
| JudgeParser.ParseJudgeResponse | src/sandbox/client/judge_llm.py:66-103 | a result keeps the reply as raw_text and comes from the first stage that matched; when no stage matches the error is "无法解析 Judge LLM 响应: " plus the first 500 characters; no default score is invented |
| JudgeParser.WholeTextWins | src/sandbox/client/judge_llm.py:69-75 | a reply that decodes to an object whose score `float` accepts (float, int, bool or numeric string) is read by the first stage as that float, reasoning defaulting to "" |
| JudgeParser.IntScoreRead | src/sandbox/client/judge_llm.py:69-75 | an integer score 4 with reasoning "ok" parses to score 4.0 and that reasoning |
| JudgeParser.BoolScoreRead | src/sandbox/client/judge_llm.py:69-75 | a boolean score true parses to 1.0, with reasoning "" when the key is missing |
| JudgeParser.FenceStageWins | src/sandbox/client/judge_llm.py:80-88 | when the whole text is not a score object, the first fenced block's object supplies score and reasoning, for any score `float` accepts |
| JudgeParser.SecondStageDecides | src/sandbox/client/judge_llm.py:79-90 | the fenced stage decides when the whole-text stage falls through |
| JudgeParser.FenceStageFound | src/sandbox/client/judge_llm.py:80-88 | a fenced object with any score `float` accepts is found by the fenced stage, with that float |
| JudgeParser.ScanStageWins | src/sandbox/client/judge_llm.py:93-100 | when both JSON stages fall through, a scanned decimal is the score, with the scanned reasoning or else the first 200 characters |
| JudgeParser.NoBackquoteNoFence | src/sandbox/client/judge_llm.py:80 | a reply without a backquote has no fenced block |
| JudgeParser.NoQuoteNoNumber | src/sandbox/client/judge_llm.py:93 | a reply without a double quote has no scanned score |
| JudgeParser.NoQuotesUnparsable | src/sandbox/client/judge_llm.py:103 | a non-JSON reply with no quote and no backquote ends in the "cannot parse" error |
| JudgeParser.MalformedNumberScan | src/sandbox/client/judge_llm.py:93 | the scan captures "1.2.3" from `"score": 1.2.3` |
| JudgeParser.MalformedNumberEscapes | src/sandbox/client/judge_llm.py:97 | a scanned number that float() rejects raises its conversion error out of the chain instead of the "cannot parse" error |
| JudgeParser.MalformedDecimal | src/sandbox/client/judge_llm.py:97 | "1.2.3" is not a decimal float() accepts |
| JudgeParser.DecidingStage | src/sandbox/client/judge_llm.py:66-100 | the deciding stage's score, reasoning or exception is the result |
| JudgeParser.FenceRoundTrip | src/sandbox/client/judge_llm.py:80 | fencing an object without backquotes, optionally tagged json and with whitespace around it, captures exactly that object |
| SceneJudge.SelectedMembers | src/sandbox/assertion/scene_judge.py:69-71 | a behaviour is scored iff it is in the scene and the filter is absent, empty or lists its id; a non-empty filter keeps scene order |
| SceneJudge.Block | src/sandbox/assertion/scene_judge.py:128-133 | each behaviour gives a numbered header, description and good example, the bad-example line only when a bad example is present, and a closing empty line |
| SceneJudge.FormatBehaviors | src/sandbox/assertion/scene_judge.py:125-134 | the append loop yields exactly the blocks of all behaviours joined by newlines |
| SceneJudge.BehaviorLinesCount | src/sandbox/assertion/scene_judge.py:126-133 | four lines per behaviour plus one for each that has a bad example |
| SceneJudge.BehaviorLinesPrefix | src/sandbox/assertion/scene_judge.py:127-133 | the lines of the first k behaviours begin the lines of all of them |
| SceneJudge.HeaderAt | src/sandbox/assertion/scene_judge.py:127-128 | behaviour k is announced by header number k + 1 right after the lines of the behaviours before it |
| SceneJudge.BehaviorsIn | src/sandbox/assertion/scene_judge.py:146-147 | a decoded value yields a list exactly when it is an object with a "behaviors" key |
| SceneJudge.FallbackScore | src/sandbox/assertion/scene_judge.py:163-164 | the fallback score is the scanned "overall" number, or 0.5 when there is none |
| SceneJudge.FallbackScores | src/sandbox/assertion/scene_judge.py:165-168 | the fallback gives one entry per selected behaviour, in order, all with the same score |
| SceneJudge.ParseBehaviorScores | src/sandbox/assertion/scene_judge.py:136-168 | the whole text's "behaviors" wins, else the first fenced block's, else the uniform fallback list |
| SceneJudge.DefaultFallbackScores | src/sandbox/assertion/scene_judge.py:162-168 | with no readable list and no "overall" number every behaviour is scored 0.5 |
| SceneJudge.MalformedOverallRaises | src/sandbox/assertion/scene_judge.py:164 | an "overall" number float() rejects raises instead of falling back |
| SceneJudge.Put | src/sandbox/assertion/scene_judge.py:174 | a new id goes last with its weight; an existing id adds no entry (its in-place update is `PutExisting`) |
| SceneJudge.KeyIndex | src/sandbox/assertion/scene_judge.py:174 | the position of an id's first entry: it holds the id and no earlier entry does |
| SceneJudge.PutExisting | src/sandbox/assertion/scene_judge.py:174 | assigning an existing id replaces the weight at its position and changes nothing else, so the ids and their order are kept |
| SceneJudge.Lookup | src/sandbox/assertion/scene_judge.py:185 | a lookup finds exactly the ids present |
| SceneJudge.PutLookup | src/sandbox/assertion/scene_judge.py:174 | after assigning an id its lookup gives the new weight and every other lookup is unchanged |
| SceneJudge.WeightMapLast | src/sandbox/assertion/scene_judge.py:174 | when ids repeat the last behaviour's weight wins |
| SceneJudge.WeightMapDistinct | src/sandbox/assertion/scene_judge.py:174-175 | with distinct ids the dict lists every behaviour once, in order, and the weight total is the sum of their weights |
| SceneJudge.ScoresOf | src/sandbox/assertion/scene_judge.py:178 | one score per entry |
| SceneJudge.NumberSum | src/sandbox/assertion/scene_judge.py:178-179 | `sum(scores)` succeeds exactly when every score is a number, and then gives their arithmetic total |
| SceneJudge.SumFrom | src/sandbox/assertion/scene_judge.py:178-179 | adding the scores from the front to an accumulator succeeds exactly when every score is a number, giving the accumulator plus their total |
| SceneJudge.NumberSumFirstBad | src/sandbox/assertion/scene_judge.py:178-179 | the first non-number raises "unsupported operand type(s) for +: '<float or int>' and '<its type>'", float exactly when a float came before it |
| SceneJudge.StrMeetsIntTotal | src/sandbox/assertion/scene_judge.py:178-179 | a string first in the scores gives "… 'int' and 'str'" |
| SceneJudge.StrMeetsFloatTotal | src/sandbox/assertion/scene_judge.py:178-179 | a string after a float gives "… 'float' and 'str'", whatever follows |
| SceneJudge.Weight | src/sandbox/assertion/scene_judge.py:185 | an id's weight is its entry, or 0 when absent |
| SceneJudge.IdWeight | src/sandbox/assertion/scene_judge.py:183-185 | a string id is looked up with default 0 |
| SceneJudge.ErrorStops | src/sandbox/assertion/scene_judge.py:182-186 | once an entry raises, later entries are never reached |
| SceneJudge.SumLoop | src/sandbox/assertion/scene_judge.py:181-186 | the accumulation loop computes the sum of the entries' terms, or the first error |
| SceneJudge.WeightedAverage | src/sandbox/assertion/scene_judge.py:170-188 | `_weighted_average` computes the weighted average specified below |
| SceneJudge.ScoreEntryTerm | src/sandbox/assertion/scene_judge.py:183-186 | a score entry contributes its score times its id's weight |
| SceneJudge.WeightMapTwo | src/sandbox/assertion/scene_judge.py:174-175 | two behaviours with distinct ids give both weights, in order, and their sum as total |
| SceneJudge.WeightedAverageList | src/sandbox/assertion/scene_judge.py:181-188 | with a non-zero weight total the average is the weighted sum divided by the total |
| SceneJudge.WeightedStep | src/sandbox/assertion/scene_judge.py:182-186 | one more entry adds its term unless an error came first |
| SceneJudge.EntryAdds | src/sandbox/assertion/scene_judge.py:185-186 | an entry whose id is not selected adds nothing to the weighted sum |
| SceneJudge.TwoEntries | src/sandbox/assertion/scene_judge.py:182-186 | two score entries add their two weighted scores |
| SceneJudge.TwoBehaviours | src/sandbox/assertion/scene_judge.py:170-188 | weights 0.6 and 0.4 with scores 0.9 and 0.8 give 0.86 |
| SceneJudge.MissingScoreCounts | src/sandbox/assertion/scene_judge.py:175 | a selected behaviour with no returned score still counts in the denominator |
| SceneJudge.ZeroWeightsMean | src/sandbox/assertion/scene_judge.py:176-179 | when the selected weights total 0 the result is the plain mean of the scores, or 0 when there are none |
| SceneJudge.PlainMeanTwo | src/sandbox/assertion/scene_judge.py:178-179 | the plain mean of two scores is their half sum |
| SceneJudge.PhaseText | src/sandbox/assertion/scene_judge.py:87 | the prompt's phase is the configured one, or "全场景" when absent or empty |
| SceneJudge.Scored | src/sandbox/assertion/scene_judge.py:111-112 | the overall score is the weighted average of the parsed per-behaviour scores |
| SceneJudge.SceneJudgeCheck | src/sandbox/assertion/scene_judge.py:62-123 | no matching behaviour fails with "no matching behaviors"; a judge failure fails with actual "error" and a "调用失败" message and no score; otherwise passes iff overall >= threshold, with score and actual the overall and details the per-behaviour list |
| SceneJudge.NoMatchSkipsJudge | src/sandbox/assertion/scene_judge.py:72-79 | when the filter matches nothing the judge is never consulted |
| SceneJudge.SceneThresholdMonotone | src/sandbox/assertion/scene_judge.py:114 | a pass carries a score at or above the threshold, and lowering the threshold keeps it a pass |
| Runner.WithLatencyGet | src/sandbox/runner/multi_turn.py:66 | the raw response handed to assertions holds the turn's latency under "_latency_ms" and every other key of the raw data unchanged |
| Runner.CheckAllResults | src/sandbox/runner/multi_turn.py:68-71 | the assertion loop yields one result per spec, in spec order, exactly when no spec raises |
| Runner.CheckAllStops | src/sandbox/runner/multi_turn.py:68-71 | the first spec that raises ends the loop with its error; later specs are never evaluated |
| Runner.CheckSpecs | src/sandbox/runner/single_turn.py:48-58 | the build-and-evaluate loop computes the results of every spec in order, or the first error |
| MultiTurn.TurnInputs | src/sandbox/runner/multi_turn.py:45 | shared inputs go out on turn 0 only; later turns send {} |
| MultiTurn.StoppedStays | src/sandbox/runner/multi_turn.py:42-85 | once an exception ends the loop, later turns change nothing |
| MultiTurn.PlayTurn | src/sandbox/runner/multi_turn.py:43-74 | one pass of the loop body: send, record the turn, evaluate its assertions, or stop at an exception |
| MultiTurn.Execute | src/sandbox/runner/multi_turn.py:28-85 | the turn loop computes the case result and the requests specified by the run |
| MultiTurn.StepsInvariant | src/sandbox/runner/multi_turn.py:39-74 | after any number of turns the requests are threaded, the completed turns are recorded, and only the last request can lack a completed turn |
| MultiTurn.ConversationThreading | src/sandbox/runner/multi_turn.py:39-52 | the first request carries an empty conversation id, each later one the id the previous answer returned; shared inputs go with the first request only |
| MultiTurn.CompletedRun | src/sandbox/runner/multi_turn.py:55-76 | a completed run has one turn per scripted turn, in order, each with index k, its message, the answer and one result per spec |
| MultiTurn.TurnContext | src/sandbox/runner/multi_turn.py:64-71 | turn k's assertions are evaluated, spec by spec, against the answer, its raw data with the latency, and a context holding turns 0..k and index k |
| MultiTurn.FailedRunKeepsEarlierTurns | src/sandbox/runner/multi_turn.py:27-85 | an exception at turn k makes an error result that keeps exactly the k completed turns, each recorded against its request (index, message, answer, assertion results), with error_message the target's exception for request k or else the first exception one of turn k's assertions raised |
| MultiTurn.NoTurnsNoCalls | src/sandbox/runner/multi_turn.py:35-36 | missing or empty turns give an error naming turns, and the target is never called |
| SingleTurn.Execute | src/sandbox/runner/single_turn.py:17-66 | the runner computes the case result and the requests specified by the run |
| SingleTurn.NoInputNoCall | src/sandbox/runner/single_turn.py:23-24 | without an input the case is an error "单轮测试缺少 input 配置" and the target is never called |
| SingleTurn.OneRequest | src/sandbox/runner/single_turn.py:29-36 | exactly one request: the query, a fresh conversation, the case user or "sandbox_test", and inputs where case keys win over shared ones |
| SingleTurn.CompletedOneTurn | src/sandbox/runner/single_turn.py:38-62 | a completed case has exactly one turn, index 0, with the answer and one result per spec in order, each evaluated with history [that turn] and index 0 |
| SingleTurn.ErrorKeepsNoTurns | src/sandbox/runner/single_turn.py:24-66 | a failed case keeps no turns, and its error_message is the missing-input message, the target's exception, or the first exception an assertion raised, by which step failed |
| SingleTurn.LLMJudgeAlwaysErrors | src/sandbox/runner/single_turn.py:50 | an answered case with an llm_judge spec is always an error, since the builder gets no judge client |
| Engine.NewEngine | src/sandbox/runner/engine.py:30-44 | with the runner built without arguments, construction succeeds exactly when concurrency >= 0 and rate_limit_rpm != 0, raising the semaphore's ValueError or the rate limiter's ZeroDivisionError (in that order) otherwise; the engine keeps its configuration and has a judge client exactly when the judge api_key is non-empty |
| Engine.EngineConstruction | src/sandbox/runner/engine.py:30-43 | as written, construction raises for every configuration: the same exception as the corrected version where that one raises, and the runner's TypeError exactly where it builds an engine |
| Engine.GetRunner | src/sandbox/runner/engine.py:116-123 | "single_turn" and "multi_turn" pick their runners; every other type raises "Runner 类型 '…' 将在后续阶段实现" |
| Engine.Outcomes | src/sandbox/runner/engine.py:67-72 | one outcome per case, in case order, outcome i being case i's task; the flag selects the dispatch as written (`scene=` passed to every runner) or as intended |
| Engine.Collect | src/sandbox/runner/engine.py:75-86 | the post-processing loop keeps one result per outcome, in order, turning an escaped exception into an error result for that case |
| Engine.RunSuite | src/sandbox/runner/engine.py:46-92 | `run_suite` computes the suite result specified by the properties below, for the dispatch as written or as intended |
| Engine.RunCaseKeepsId | src/sandbox/runner/engine.py:94-114 | every result a case task returns carries that case's id |
| Engine.UnknownTargetShortCircuits | src/sandbox/runner/engine.py:48-62 | an unknown target gives one error result per case, with the same ids in suite order, and no runner, chat target or scene loader is consulted: the result is the same for every world and either dispatch |
| Engine.SuiteNamesCopied | src/sandbox/runner/engine.py:88-92 | suite name and target are copied into the result |
| Engine.OneResultPerCase | src/sandbox/runner/engine.py:72-86 | for either dispatch, result i carries case i's id and is case i's own outcome, or the error result for the exception its task raised |
| Engine.UnknownTypeRaises | src/sandbox/runner/engine.py:97 | a case type with no runner raises before anything else |
| Engine.SceneLoadFailureSkipsCase | src/sandbox/runner/engine.py:101-112 | a scene file that fails to load gives an error result "加载场景文件失败: …" and the case is not run |
| Engine.DispatchRunsNamedRunner | src/sandbox/runner/engine.py:114 | a known case type is run by its runner: single-turn without a judge client, multi-turn with the engine's |
| Engine.SingleTurnRejectedAsWritten | src/sandbox/runner/engine.py:114 | as written, every single-turn case whose scene loads ends as an error result carrying the `scene` keyword's TypeError |
| Engine.SuiteSingleTurnAsWritten | src/sandbox/runner/engine.py:72-114 | as written, in a suite with a known target, the result of every single-turn case whose scene loads is the error result carrying the `scene` keyword's TypeError |
| Engine.SuiteSingleTurnRuns | src/sandbox/runner/engine.py:72-114 | with the intended dispatch, that case's suite result is the single-turn runner's own result against the chat target for the case |
| RateLimiter.Refilled | src/sandbox/utils/rate_limiter.py:23-25 | a refill gives min(burst, tokens + elapsed/interval): never above burst, and never negative for a positive rate and burst from a non-negative bucket |
| RateLimiter.Take | src/sandbox/utils/rate_limiter.py:20-35 | with at least one token after the refill one is taken and nothing slept; otherwise the bucket is left empty, and the caller sleeps (a positive time) exactly when the interval is positive; last_refill is the end of the sleep |
| RateLimiter.TakeKeepsBounds | src/sandbox/utils/rate_limiter.py:25-35 | for any non-zero interval and non-negative burst, tokens stay within [0, burst] after every acquire, sleeps are non-negative, and the refill time never goes back |
| RateLimiter.FullBucketServesBurst | src/sandbox/utils/rate_limiter.py:16-30 | from a full bucket, n <= burst acquires at one instant never wait and leave burst − n tokens |
| RateLimiter.NextAcquireWaits | src/sandbox/utils/rate_limiter.py:28-35 | the acquire after the first burst at one instant waits a whole interval |
| RateLimiter.Settle | src/sandbox/utils/rate_limiter.py:27-35 | once the refill leaves t tokens: t >= 1 takes one and sleeps 0; otherwise the bucket is emptied and the sleep is (1 − t)·interval when the interval is positive and 0 otherwise |
| RateLimiter.NegativeRateNeverSleeps | src/sandbox/utils/rate_limiter.py:16-32 | a negative rpm (negative interval) makes no acquire ever sleep: the limiter does not limit |
| RateLimiter.SmallBurstAlwaysSleeps | src/sandbox/utils/rate_limiter.py:17-33 | with a positive rate and burst < 1, every acquire sleeps and leaves the bucket empty |
| RateLimiter.TokenBucket.constructor | src/sandbox/utils/rate_limiter.py:12-18 | for any non-zero integer rpm and any integer burst, a new limiter holds burst tokens, interval 60/rpm, last refill now |
| RateLimiter.TokenBucket.Acquire | src/sandbox/utils/rate_limiter.py:20-35 | `acquire` updates tokens and last_refill and returns the time slept exactly as Take specifies (a non-positive computed wait sleeps 0, as `asyncio.sleep` does), keeping tokens within [0, burst] when burst is non-negative |
| Template.CloseAt | src/sandbox/utils/template.py:9 | finds the first `}` at or after a position, or reports there is none |
| Template.RefEnd | src/sandbox/utils/template.py:9 | a reference is `${`, one or more characters other than `}`, then `}` |
| Template.InterpolateOkIffSet | src/sandbox/utils/template.py:12-22 | the substitution succeeds exactly when every referenced variable is set; a failure reports "环境变量未设置: " and the first unset name met |
| Template.NoReferenceUnchanged | src/sandbox/utils/template.py:22 | text with no `${...}` comes back unchanged |
| Template.ValueNotRescanned | src/sandbox/utils/template.py:15-22 | a reference is replaced by the variable's value verbatim and the scan resumes after it, so the value is never rescanned |
| Template.CloseAtSkips | src/sandbox/utils/template.py:9 | the name ends at the first `}` |
| Template.InterpolateItems | src/sandbox/utils/template.py:33-36 | a list keeps its length; only its string items are interpolated, dicts and other items are kept as they are |
| Template.InterpolateFromKeepsKeys | src/sandbox/utils/template.py:27-39 | the result has exactly the same keys in the same order, and values that are not strings, dicts or lists are unchanged |
| Template.InterpolateKeepsKeys | src/sandbox/utils/template.py:25-39 | `interpolate_dict` keeps every key, in order, and every value that is not a string, dict or list |
| Template.InterpolateErrNamesUnset | src/sandbox/utils/template.py:18-19 | a failed substitution names a variable the environment lacks |
| Template.ItemsErrNamesUnset | src/sandbox/utils/template.py:34-36 | a failure inside a list names an unset variable |
| Template.EntriesErrNamesUnset | src/sandbox/utils/template.py:28-38 | every error `interpolate_dict` raises, however deeply nested, names an unset variable |
| Template.InterpolateDict | src/sandbox/utils/template.py:25-39 | the loop fills the result entry by entry, recursing into nested dicts, and computes the interpolated dict or the first error |
| Config.FirstEquals | src/sandbox/core/config.py:29 | finds the first `=` at or after a position, or reports there is none |
| Config.ParseLineMeaning | src/sandbox/core/config.py:23-31 | a line assigns nothing exactly when, stripped, it is blank, starts with '#' or has no '='; otherwise it assigns the stripped text before the first '=' the stripped text after it |
| Config.SplitAtFirstEquals | src/sandbox/core/config.py:29-31 | `KEY=VALUE` with nothing to strip assigns VALUE whole, even when VALUE contains '=' |
| Config.AssignStep | src/sandbox/core/config.py:23-34 | the lines are applied one after another, in file order |
| Config.AssignKeys | src/sandbox/core/config.py:33-34 | one line adds at most its own key and changes no variable already set |
| Config.NeverOverwrites | src/sandbox/core/config.py:33-34 | a variable already set keeps its value and nothing is removed |
| Config.AddedKeys | src/sandbox/core/config.py:23-34 | the variables afterwards are exactly those set before plus the keys the lines assign |
| Config.FirstAssignmentWins | src/sandbox/core/config.py:33-34 | for a key not set before, the first line that assigns it decides its value |
| Config.UnsetNowhere | src/sandbox/core/config.py:44-52 | a name the interpolation finds unset was set neither in the environment nor by any line of the `.env` file |
| Config.LoadConfigOutcomes | src/sandbox/core/config.py:37-57 | a missing file is a ConfigError and leaves the environment alone; otherwise the `.env` file is applied first, a loader error passes through, a failed interpolation is a ConfigError naming an unset variable, a rejected configuration is a ConfigError, and a loaded configuration is the validation of the interpolated data |
| Config.Environment.constructor | src/sandbox/core/config.py:33-34 | the environment starts with the given variables |
| Config.Environment.ApplyRawLine | src/sandbox/core/config.py:24-34 | one pass of the loop applies the line's assignment, if any, without overwriting |
| Config.Environment.LoadDotenv | src/sandbox/core/config.py:15-34 | the loop leaves the environment updated by every line in order; a missing file changes nothing |
| Config.Environment.LoadConfig | src/sandbox/core/config.py:37-57 | `load_config` leaves the environment and returns the outcome specified above |
| SceneExtractor.YamlTagEnd | src/sandbox/extractor/scene_extractor.py:90 | the optional `yaml` tag after an opening fence ends within the text |
| SceneExtractor.LastNewline | src/sandbox/extractor/scene_extractor.py:90 | the greedy `\s*` gives back exactly the last newline of the whitespace run |
| SceneExtractor.NextFence | src/sandbox/extractor/scene_extractor.py:90 | the lazy `(.*?)` ends at the first closing fence |
| SceneExtractor.NoBackquoteNoBlock | src/sandbox/extractor/scene_extractor.py:90-91 | text without a backquote holds no fenced block |
| SceneExtractor.NoFenceNoBlock | src/sandbox/extractor/scene_extractor.py:90-91 | text where no fence opens at any position yields no fenced block |
| SceneExtractor.BlockAt | src/sandbox/extractor/scene_extractor.py:90-92 | a fence, optional tag and newline followed by text up to the next fence yields that text, stripped |
| SceneExtractor.LeftmostBlock | src/sandbox/extractor/scene_extractor.py:90 | a match with no backquote before it is the one the search reports |
| SceneExtractor.FencedBlockExtracted | src/sandbox/extractor/scene_extractor.py:90-92 | a reply holding a fenced block, tagged yaml or not, yields the block's contents stripped |
| SceneExtractor.ExtractBlockAt | src/sandbox/extractor/scene_extractor.py:90-92 | the leftmost block's stripped contents are returned whatever follows it |
| SceneExtractor.BareSceneTaken | src/sandbox/extractor/scene_extractor.py:95-96 | whenever no fenced block matches, a reply whose stripped form starts with "scene:" is returned stripped |
| SceneExtractor.JsonOrRawFallback | src/sandbox/extractor/scene_extractor.py:99-106 | whenever no fenced block matches and the stripped reply does not start with "scene:", JSON is re-emitted as YAML and anything else is returned unchanged |
| SceneExtractor.ExtractStampsSource | src/sandbox/extractor/scene_extractor.py:75-85 | the judge sees the fixed prompts; the extracted scene is the parsed one with source replaced by source_path and nothing else changed; a judge failure propagates |
| SceneExtractor.PromptHoldsLog | src/sandbox/extractor/scene_extractor.py:75 | the user prompt contains the chat log verbatim |
| Text.Strip | src/sandbox/assertion/string_match.py:69 | `strip()` keeps a piece of the text that neither starts nor ends with whitespace, empty exactly when the text is all whitespace |
| Text.StripUnique | src/sandbox/assertion/string_match.py:69 | whatever whitespace surrounds an unpadded text, `strip()` gives back exactly that text |
| Text.StripPadding | src/sandbox/core/config.py:24 | more surrounding whitespace does not change what `strip()` keeps |
| Text.StripIdempotent | src/sandbox/core/config.py:24 | stripping twice is stripping once |
| Text.Take | src/sandbox/assertion/string_match.py:75 | `s[:n]` is a prefix of length min(n, len(s)) |
| Values.Get | src/sandbox/runner/single_turn.py:29 | a lookup finds a value exactly for a key the dict holds |
| Values.MergeGet | src/sandbox/runner/single_turn.py:29 | in `{**a, **b}` the value of `b` wins where both have the key, and each side's other keys are kept |
| Values.NatStrRoundTrip | src/sandbox/assertion/builder.py:28 | reading back the digits of `str(n)` gives n |
| Values.ParseDecimal | src/sandbox/client/judge_llm.py:97 | `float()` accepts exactly the scanned texts that are decimals, and gives a non-negative number |
| Values.ToFloat | src/sandbox/client/judge_llm.py:72 | `float()` keeps a float, converts an int, and raises on null, lists and dicts with "float() argument must be a string or a real number, not '<type>'" |
| Values.AtMost | src/sandbox/assertion/performance.py:21 | a comparison with an int bound succeeds exactly for numbers and gives their order |
| Seqs.Filter | src/sandbox/assertion/scene_judge.py:71 | the comprehension keeps exactly the elements that pass, in order |
| Schema.ErrorResult | src/sandbox/runner/single_turn.py:24 | an error result carries the case id, status "error", the message, and no turns |

## Left out

- HTTP transport (`DifyChatClient`, `BaseHTTPClient`, `JudgeLLMClient.evaluate`), retries and latency measurement: the chat target is a function from the call index and request to a response or an exception text. The judge is a function from the two prompts to a `JudgeResult` or an exception text.
- The runners also return the log of requests they sent. It is how the model states conversation-id threading and "the target is never called".
- The assertion layer inside a runner is a parameter (`Runner.Assess`). `Runner.Assessor` instantiates it with `build_assertion` followed by `evaluate`.
- The mutation `turn_result.assertions = ...` after construction is modelled as a record update of an immutable value.
- Concurrency: the engine's semaphore and `asyncio.gather` are sequentialised, with case i run as the i-th task. With concurrency 0 the semaphore admits no task, so `run_suite` on a non-empty suite with a known target never returns; the model runs the cases anyway. The rate limiter's `asyncio.Lock` is not modelled. `asyncio.sleep` advances the explicit clock by exactly the time waited.
- Scorer.DimensionScores: dimension scores and dimension averages are maps, which lose the insertion order a Python dict keeps; no value the scorer computes depends on that order.
- Schema.Dimensions: dimensions are a list of (name, configuration) pairs in the mapping's order. A Python dict cannot hold a name twice, but the list type does not exclude it; a loaded configuration never has one.
- The engine does not call the rate limiter in the model; the limiter is modelled on its own as `RateLimiter.TokenBucket`.
- RateLimiter.TokenBucket.constructor: requires rpm != 0; with rpm = 0 the source raises ZeroDivisionError, which is not modelled. Negative rpm and burst are admitted, as in the source.
- RateLimiter.TokenBucket.Acquire: requires the clock not to run backwards (`lastRefill <= now`), as a monotonic clock guarantees.
- File I/O: `load_yaml`/`load_and_validate`, the scene-file loader and the report writer are left out. The `.env` file is given as its lines, or `None` when it does not exist. Whether the configuration file exists is a parameter. `str(Path)` normalisation of the path is not modelled.
- Config.Environment.LoadDotenv: Python's `os.environ` rejects a key that is empty or holds '=' or NUL with an exception. The model stores such keys like any other.
- Foreign parsers: `json.loads`, `yaml.safe_load`, `yaml.dump` and pydantic validation are parameters. Schema validation (such as `SceneSpec` needing at least one behaviour) is stated as `Schema.SceneSpec.Valid` and not enforced on parsed values.
- SceneExtractor.ExtractYaml: the `TypeError` caught after `json.loads` cannot occur for a `str` argument and is not modelled.
- StringMatch.RegexCheck: Python `re` semantics for user-written patterns are a parameter (`Search`). Only the "matches are pieces of the text" property is assumed, by `StringMatch.RegexActualInResponse`.
- Text.IsDigit: the regex class `\d` is restricted to ASCII digits; Python also matches other Unicode decimal digits.
- Values.ToFloat: strings are accepted only in the plain decimal form `[0-9.]` with at most one dot. Python's `float` also accepts signs, exponents, `inf`/`nan` and surrounding whitespace. Strings reach it only from the judge's own JSON. For an f-string the ValueError message leaves out the rendered text, which the model does not produce.
- JudgeParser.MalformedNumberEscapes: the `ValueError` text omits the quotes Python puts around the rejected string.
- Values.Fmt: f-strings are kept as their parts, not rendered. Number formatting (`{latency:.0f}`, `{overall:.2f}`, `str()` of a float) is not reproduced. Python's `str()` of a float in the behaviour list is a parameter (`FloatRepr`).
- SceneJudge.ZeroWeightsMean: the source returns the integer 0 when no scores were returned; the model returns 0.0.
- IEEE floating point: scores are exact reals, so sums and means carry no rounding.
- Logging calls and the exception class hierarchy are left out. Errors are their message texts. `load_config`'s three outcomes are `Config.ConfigLoad`.
- The scene extractor's prompt constants are reproduced, but the judge call itself is a parameter.
- The CLI, the report writer and the unused dimension table are outside this model.

## Findings

| source | as written | input that shows it | evidently intended | confidence | as-written member | corrected member |
|---|---|---|---|---|---|---|
| src/sandbox/runner/engine.py:43 | `SingleTurnRunner(judge_client=self.judge_client)` is called, but `SingleTurnRunner` defines no `__init__` (src/sandbox/runner/single_turn.py:14-22), so the call raises `TypeError` and no `TestEngine` can be built | any `SandboxConfig` with concurrency >= 0 and rate_limit_rpm != 0 (others raise earlier, at lines 32-33) | build the single-turn runner without arguments; a judge client exists exactly when the judge api_key is non-empty | high (not executed) | Engine.EngineConstruction | Engine.NewEngine |
| src/sandbox/runner/engine.py:114 | `runner.execute(case, target_config, shared_inputs, scene=scene)` passes `scene`, which `SingleTurnRunner.execute` does not accept (src/sandbox/runner/single_turn.py:17-22), so every single-turn case whose scene loads ends as an error result carrying the `TypeError` | a suite with one `single_turn` case, no `judge_scene`, and a known target | run the single-turn case, ignoring the scene | high (not executed) | Engine.SuiteSingleTurnAsWritten | Engine.SuiteSingleTurnRuns |
