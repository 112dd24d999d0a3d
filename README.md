# Agentic movie recommender: the deterministic core in Dafny

This project models the deterministic decision logic of a staged movie-recommendation
pipeline and proves properties about it. The pipeline is:

intent → plan → retrieve → rank → critic → (rerank)? → explain

Each stage wraps a language-model call whose JSON answer is only advice. Hard rules then
override it:

- the intent guards, the planner's weight resolver and the critic's guardrails;
- the explainer's output sanitiser.

Two fusion rankers turn the retrieval candidates into scored recommendations:

- v1 is a linear fusion of the two retrieval scores;
- v2 is advantage weighted, with a popularity baseline from the item statistics.

A bounded JSON-repair client sits under every agent.

Modules, one per source file, plus four shared ones:

| module | file | models |
|---|---|---|
| `Text` | text.dfy | `strip`, `lower`, `split`, `find`/`rfind` and substring search on `seq<char>` (the ASCII whitespace that `str.isspace()` accepts, ASCII case) |
| `Config` | config.dfy | the configuration constants the core reads |
| `Domain` | domain.dfy | the shared records: context, candidate, plan, recommendation, verdict, intent result, explanation |
| `Arith` | arith.dfy | small facts about weighted sums and quotients of reals |
| `JsonClient` | json_client.dfy | `_try_parse` and `generate_json` of agents/openai_client.py |
| `ItemStats` | item_stats.dfy | item_stats.py |
| `Fusion` | fusion.dfy | the outer merge, max-normalisation and descending sort shared by both rankers |
| `RankerV1` | ranker_v1.dfy | rankers/ranker_v1.py |
| `RankerV2` | ranker_v2.dfy | ranker_v2.py |
| `Critic` | critic.dfy | critic_agent.py |
| `Planner` | planner.dfy | agents/planner_agent.py |
| `Intent` | intent.dfy | agents/intent_agent.py |
| `Explainer` | explainer.dfy | agents/explainer_agent.py |
| `Orchestrator` | orchestrator.dfy | orchestrator.py |

How the form of the source is kept:

- Code that reassigns locals step by step becomes a `method`. This covers the rankers'
  normalisation and record loops, the critic's accumulator loops, the planner's and the
  intent agent's rule chains, the explainer's padding loop, the repair loop and the graph's
  run. Each such method's `ensures` ties its result to a specification function, and the
  lemmas state the properties of that function.
- Code made of comprehensions and lookups becomes a function: item statistics, the
  top-3 projection, and the graph's nodes with their copy-on-write state.
- The language-model call `_call` is an oracle parameter: attempt number and shown text
  in, returned text or a raised error out. `json.loads` is an oracle too.
- The advisory JSON is decoded into records with `Option` fields. `None` means the key is
  absent or holds a value of the wrong JSON type.
- The agents, the two retrieval tools and the ranker the graph calls are function-typed
  fields of an `Agents` record.

## Model

| member | source | states |
|---|---|---|
| Text.StripEmptyIffBlank | agents/openai_client.py:54-55 | `strip()` gives "" exactly for all-whitespace text, so `not raw or not raw.strip()` is one blank test |
| Text.Split | critic_agent.py:33 | `split("\|")` gives at least one piece; no piece holds the separator; joining the pieces with it gives the text back |
| Domain.Clamp01 | agents/intent_agent.py:96 | `max(0, min(1, x))` lies in [0, 1]; it is x inside the range, 0 below it and 1 above it |
| Domain.Take | ranker_v2.py:69 | `head(k)` is the prefix of length min(\|s\|, k) |
| JsonClient.TryParse | agents/openai_client.py:53-67 | blank text is not parsed; a direct parse wins; otherwise only the brace slice is tried; the parse fails exactly when the text is blank, or the direct parse fails and the slice is missing or fails too |
| JsonClient.BraceSliceExists | agents/openai_client.py:60-62 | the fallback slice exists exactly when some `{` comes before some `}` |
| JsonClient.BraceSliceWidest | agents/openai_client.py:60-64 | the slice opens with `{`, closes with `}`, has no `{` before it and no `}` after it |
| JsonClient.Generate | agents/openai_client.py:87-137 | the calls number 1 to 1 + max_retries; an object on the first attempt exactly gives `ok` after one call with an empty trace; otherwise there is one trace entry per call; when `ok` holds, `data` is the object decoded from the returned `raw`; exhaustion gives `ok` false, the empty object and every call used; a repair success is the last trace entry |
| JsonClient.Repairs | agents/openai_client.py:104-134 | from a given repair on: the calls stay within the bound, each adds one trace entry, and success ends the loop with "json_repair_success", `data` being the object decoded from the reply kept as `raw` |
| JsonClient.RepairLoop | agents/openai_client.py:104-134 | the repair `for` loop with its early return computes exactly what `Repairs` describes from the state the first attempt left |
| JsonClient.GenerateJson | agents/openai_client.py:87-137 | the attempt-then-repair loop returns exactly what `Generate` describes, within 1 + max_retries calls; an `ok` response carries the object decoded from its `raw` |
| JsonClient.RepairStep | agents/openai_client.py:120-134 | one repair: a call that raises keeps `raw` and logs "openai_repair_failed:"; an unparsable reply replaces `raw` and logs "json_repair_failed"; an object returns at once with that reply as `raw` |
| JsonClient.RepairsAllRaise | agents/openai_client.py:130-134 | when every repair call raises, `raw` stays as it was and there is one "openai_repair_failed:" entry per repair |
| JsonClient.ServiceDown | agents/openai_client.py:87-137 | with every call raising: `ok` false, the empty object, `raw` "", 1 + max_retries calls and trace entries, the first being "openai_call_failed:" |
| ItemStats.Build | item_stats.py:14-27 | the three maps share one key set, the ids present in the ratings; `rating_count` is each id's number of ratings, at least 1 |
| ItemStats.MaxCountSpec | item_stats.py:17-18 | the max count bounds every id's count, is reached by one of them when there are ratings, and is at least 1 |
| ItemStats.BuildValues | item_stats.py:19-24 | popularity is count / max count; rating is (mean − 0.5) / 4.5 |
| ItemStats.PopularityBounds | item_stats.py:17-19 | every popularity lies in (0, 1]; it is 1 exactly for the ids with the max count; some id has 1 when there are ratings |
| ItemStats.PopularityMonotone | item_stats.py:19 | more ratings never give a lower popularity |
| ItemStats.AvgRatingBounds | item_stats.py:22-24 | ratings in [0.5, 5] give a normalised mean in [0, 1] |
| ItemStats.AsDebugDict | item_stats.py:35-42 | the debug count is 0 for an unknown id and the rating count otherwise; `GettersOnBuild` states the getter defaults it reports |
| ItemStats.GettersOnBuild | item_stats.py:29-33 | on built statistics both getters lie in [0, 1]; an unknown id gets popularity 0.0, rating 0.5 and count 0 |
| Fusion.MergeSpec | ranker_v2.py:38-43 | the merged ids are the union of both candidate id sets; a score absent from one side is 0, otherwise it is that side's candidate score; the merge is empty exactly when both sides are |
| Fusion.CfRowsSpec | ranker_v2.py:38-41 | the CF-side rows carry exactly the CF ids, each with its own CF score |
| Fusion.SemOnlyRowsSpec | ranker_v2.py:38-43 | the semantic-only rows are the semantic ids missing from CF, with CF score 0 |
| Fusion.ColMaxSpec | ranker_v2.py:47 | a column's max bounds every entry and is reached (0.0 for no rows) |
| Fusion.NormalizeColumnSpec | ranker_v2.py:46-49 | a column with max > 0 is divided by it: its max becomes 1 and non-negative entries land in [0, 1]; a column with max ≤ 0 is unchanged; ids, length and the other column are kept |
| Fusion.NormalizeColumns | ranker_v2.py:46-49 | the loop over the two signal columns, CF first, yields the doubly normalised frame |
| Fusion.NormalizedInUnit | ranker_v2.py:46-49 | non-negative scores give both normalised columns in [0, 1] |
| Fusion.SortDescSpec | ranker_v2.py:69 | the sort is non-increasing by score and a permutation of its input |
| Fusion.TopOfSorted | ranker_v2.py:69 | the first k of the sorted rows are sorted, taken from the input, and score at least as high as every row left out |
| RankerV1.Rank | rankers/ranker_v1.py:16-63 | the merge, normalisation loop, score column, sort/head and record loop compute `RankSpec` |
| RankerV1.BuildRecs | rankers/ranker_v1.py:47-63 | the record loop appends one record per kept row, in order |
| RankerV1.RankShape | rankers/ranker_v1.py:26-45 | length min(final_k, \|merged\|), so at most 20; non-increasing scores; only ids some source returned; [] when both sources are empty |
| RankerV1.RankIsTopK | rankers/ranker_v1.py:44 | a pool row that was cut scores no higher than any recommendation |
| RankerV1.PoolShape | rankers/ranker_v1.py:41-43 | every pool row's score is w_cf·cf + w_sem·sem of its normalised signals, and its id comes from a source |
| RankerV1.RankRecords | rankers/ranker_v1.py:47-62 | every record carries only the two linear signals, its score is their weighted sum, and its metadata defaults to "Unknown" and "" |
| RankerV1.RankScoresInUnit | rankers/ranker_v1.py:36-43 | non-negative source scores and non-negative weights summing to 1 put every score in [0, 1] |
| RankerV2.Rank | ranker_v2.py:26-91 | the merge, normalisation loop, score columns, sort/head and record loop compute `RankSpec` |
| RankerV2.BuildRecs | ranker_v2.py:71-91 | the record loop appends one record per kept row, in order |
| RankerV2.RankShape | ranker_v2.py:35-69 | length min(final_k, \|merged\|); non-increasing scores; only ids some source returned; [] when both sources are empty |
| RankerV2.PoolShape | ranker_v2.py:51-67 | each pool row has utility w_cf·cf + w_sem·sem, baseline `get_popularity`, advantage utility − 0.6·baseline, novelty 0.2·(1 − baseline), and score their sum; weights default to 0.4/0.6 without a plan |
| RankerV2.RankKeepsAllWhenSmall | ranker_v2.py:69 | when at most final_k ids were retrieved, every one of them is recommended |
| RankerV2.RankIsTopK | ranker_v2.py:69 | a pool row that was cut scores no higher than any recommendation |
| RankerV2.RankRecords | ranker_v2.py:71-91 | each record's signals hold the intermediate values, its score is advantage + novelty boost, and its metadata defaults to "Unknown" and "" |
| RankerV2.NoveltyFavoursLessPopular | ranker_v2.py:65-67 | of two rows with equal utility, the less popular one scores strictly higher |
| RankerV2.ScoreBounds | ranker_v2.py:56-67 | signals in [0, 1], weights summing to 1 and popularity in [0, 1] give utility in [0, 1] and score in [−0.6, 1.2] |
| RankerV2.WorkedExample | ranker_v2.py:38-69 | for cf {1: 0.8, 2: 0.4}, sem {2: 0.9, 3: 0.3} and popularity {1: 0.9, 2: 0.3, 3: 0.1} the order is 2 (0.76), 3 (0.32), 1 (−0.12) |
| Critic.GenresOfMembers | critic_agent.py:29-37 | a genre counts exactly when it is a non-empty stripped `\|`-token of one of the records |
| Critic.GenreDiversity | critic_agent.py:29-37 | the nested token loop counts the distinct genres of the first `topn` records |
| Critic.AddTokens | critic_agent.py:33-36 | the inner token loop adds exactly the non-empty stripped tokens to the set |
| Critic.MeanPopularity | critic_agent.py:39-45 | the loop computes the mean baseline popularity of the first `topn` records |
| Critic.MeanOfBounds | critic_agent.py:39-45 | the mean is 0 for no values and otherwise lies between any bounds of the values |
| Critic.HighMeanHasHighValue | critic_agent.py:63-64 | a mean above the threshold means some record's popularity is above it |
| Critic.CollectGenreTokens | critic_agent.py:81-85 | the loop collects the stripped tokens of the first `topn` records, empty ones included |
| Critic.ChildrenRatioSpec | critic_agent.py:87-90 | the ratio exceeds 0.30 exactly when 10·children > 3·max(1, tokens); it lies in [0, 1] |
| Critic.FamilyQueryNoVeto | critic_agent.py:92-98 | a lowercased query holding kid, kids, family, children or child as a substring prevents the veto |
| Critic.Guardrails | critic_agent.py:54-101 | the step-by-step checks build the deterministic verdict |
| Critic.DeterministicSpec | critic_agent.py:57-101 | a rerank is needed exactly when some check fires; `novelty_lambda` = 0.30 is present exactly for high popularity, `diversity_boost` = 0.10 for low diversity, and `exclude_genres` = ["Children"] for the veto; there is one message per firing check; "hard_veto_children_content" is present exactly for the veto |
| Critic.MergeAdviceSpec | critic_agent.py:144-159 | `needs_rerank` is the OR of both; no deterministic key is removed, but the service's value for a key replaces it; the trace is exactly the deterministic messages, the service's trace, the client's trace, then "openai_critic_v2" |
| Critic.Run | critic_agent.py:47-165 | the guardrails, one client call with one repair, and the merge give `RunSpec` |
| Critic.RunServiceDown | critic_agent.py:136-159 | with the service down, the flag and adjustments are the deterministic ones; the trace is the deterministic messages, then the client's failure entries (the first "openai_call_failed:", two in all), then "openai_critic_v2" last |
| Critic.NarrowListRequestsRerank | critic_agent.py:71-75 | fewer than four genres in the first ten records always request a rerank with `diversity_boost` |
| Critic.EmptyListRequestsRerank | critic_agent.py:71-75 | an empty list always requests a rerank |
| Critic.VetoRequestsRerank | critic_agent.py:98-101 | a fired children veto survives the merge: the final verdict asks for a rerank, keeps `exclude_genres` and carries "hard_veto_children_content", whatever the service answers |
| Planner.Resolve | agents/planner_agent.py:77-135 | the reassignment chain gives `ResolveSpec` |
| Planner.Run | agents/planner_agent.py:28-135 | the intent is stripped and lowercased, the query stripped, and the service asked once with one repair before the rules |
| Planner.ResolveFlags | agents/planner_agent.py:81-124 | semantic is on exactly with a query or the service's advice; a search under hybrid enforcement forces CF on; the tools are never both off |
| Planner.ResolveTrace | agents/planner_agent.py:78-127 | the trace is the service's trace, the hybrid note, the neither-tool note, the client trace, then "openai_planner_v2"; "Corrected: CF re-enabled" is never appended |
| Planner.HybridWeights | agents/planner_agent.py:97-105 | hybrid search with both tools gives CF = min(1, max(advised, 0.20)) and semantic = 1 − CF, both in [0, 1] |
| Planner.NormalizedWeights | agents/planner_agent.py:97-105 | otherwise both-on weights keep the advised proportion; they sum to 1 when the advised sum is ≥ 1e-6; non-negative advice gives weights in [0, 1] |
| Planner.SingleToolWeights | agents/planner_agent.py:107-118 | CF alone gives (1, 0); semantic alone happens only outside hybrid search and gives (0, 1) |
| Planner.EmptyAdviceDefaults | agents/planner_agent.py:77-127 | empty advice gives CF on, semantic on exactly with a query, weights 0.4/0.6 or 1/0, and the tag last |
| Planner.ZeroAdvisedWeights | agents/planner_agent.py:104-105 | advised weights 0 and 0 with both tools on stay 0 and 0: the 1e-6 floor prevents division by zero, not a zero sum |
| Intent.Decide | agents/intent_agent.py:73-119 | the guard, clamp and clarification reassignments give `DecideSpec` |
| Intent.Run | agents/intent_agent.py:71-119 | one client call with one repair, then the guards |
| Intent.IntentGuards | agents/intent_agent.py:79-90 | a query gives "search"; else novelty < 0.3 gives "comfort"; else minutes ≤ 45 gives "quick_watch"; else the advised intent, or "explore" |
| Intent.QueryMeansSearch | agents/intent_agent.py:79-85 | a non-blank query always gives "search" |
| Intent.ConfidenceClamped | agents/intent_agent.py:92-96 | confidence lies in [0, 1]; it is 0.6 when none was advised and the advised value when already in range |
| Intent.ClarificationRule | agents/intent_agent.py:98-111 | clarification is needed exactly when advised or when confidence < 0.5; it always comes with a question; the default question is used, and noted last in the trace, exactly when none was given |
| Intent.TraceOrder | agents/intent_agent.py:74-76 | the trace is the advised trace, the client trace and "intent_agent_openai", then at most the default-question note |
| Intent.IntentServiceDown | agents/intent_agent.py:71-96 | with the service down: the guarded intent or "explore", confidence 0.6, no clarification, and three trace entries |
| Explainer.Top3 | agents/explainer_agent.py:59-65 | the prompt sees the first min(3, n) recommendations, title and genres only |
| Explainer.StringsOfMembers | agents/explainer_agent.py:130 | the filter keeps exactly the string entries, and no more entries than it was given |
| Explainer.StringsOfAppend | agents/explainer_agent.py:130 | the filter keeps their order: it distributes over concatenation |
| Explainer.FirstThree | agents/explainer_agent.py:132-135 | padding then truncation gives exactly three bullets: entry i if present, else "" |
| Explainer.Sanitize | agents/explainer_agent.py:119-140 | the type tests, filter, padding loop and truncation give `SanitizeSpec` |
| Explainer.Run | agents/explainer_agent.py:111-140 | one client call with one repair, then the sanitiser |
| Explainer.ExplanationShape | agents/explainer_agent.py:119-135 | three bullets: the first up-to-three advised strings in order, then ""; every bullet is "" or an advised string; a non-string one-liner becomes "" |
| Explainer.BulletsTruncatedOrBlank | agents/explainer_agent.py:127-135 | three or more strings keep their first three; a value that is not a list gives three "" |
| Explainer.NotOkIsBlank | agents/explainer_agent.py:119-135 | no usable reply gives "" and ["", "", ""] |
| Orchestrator.AppendTrace | orchestrator.py:24-27 | the log is the old log plus exactly the one event at its end; nothing else changes |
| Orchestrator.ShouldRerankSpec | orchestrator.py:90-105 | the rerank edge is taken exactly for a present verdict with `needs_rerank`, else explain; the critic node stores its agent's verdict |
| Orchestrator.RetrieveSpec | orchestrator.py:56-82 | `cf` is the tool's answer exactly when the plan uses CF, else kept; `sem` is [] for a blank query, the tool's answer otherwise, or kept when semantic is off; the event counts the rows; nothing else changes |
| Orchestrator.BlankQuerySkipsSemanticTool | orchestrator.py:65-70 | with a blank query, retrieval does not depend on the semantic tool |
| Orchestrator.RerankWeightsSpec | orchestrator.py:118-133 | both new weights lie in [0, 1]; two positive clamped weights keep their proportion and sum to 1 once they reach 1e-6; CF alone gives (1, 0); CF at 0 gives (0, 1) |
| Orchestrator.RerankIdempotent | orchestrator.py:118-133 | without deltas, normalised weights come back unchanged |
| Orchestrator.RerankNodeSpec | orchestrator.py:107-145 | only the plan and `recs` change; the flags are kept and "critic_rerank_applied" is appended to the plan trace; `recs` is replaced by the ranker's answer on the updated state; no deltas on a normalised plan keep its weights |
| Orchestrator.ApplyRerank | orchestrator.py:107-155 | the step-by-step weight reassignment and re-rank give the rerank node's state |
| Orchestrator.NextDecreases | orchestrator.py:171-178 | every edge moves closer to END, so the graph has no cycle |
| Orchestrator.Invoke | orchestrator.py:163-180 | following the edges from START until END gives `RunFrom(Start, ...)` |
| Orchestrator.RunUnrolled | orchestrator.py:171-178 | a run is intent, plan, retrieve, rank and critic, then rerank exactly when asked, then explain |
| Orchestrator.PipelineTrace | orchestrator.py:163-178 | the log grows by 6 events, or 7 with the rerank, in stage order; the earlier entries stay; the critic runs once and the rerank at most once |
| Orchestrator.FreshRunTraceLength | orchestrator.py:171-178 | a fresh state ends with 6 log entries, or 7 with the rerank |
| Orchestrator.PipelineWithRankerV2 | orchestrator.py:141-145 | with the v2 ranker, the final list is ranked on the reranked plan's weights after a rerank, holds at most 20 entries, and is sorted by score |

## Left out

- I/O and foreign code are abstract functions or left out:
  - the OpenAI calls, prompt texts and `json.loads`;
  - the CF and semantic tools (numpy, embeddings, the ANN index);
  - pandas, langgraph and `graph.compile()`;
  - printing and logging.
- data_loader.py, cf_tool.py, tools/semantic_tool.py and config.py are not part of this model. Only the constants the core reads are copied.
- Floating point is modelled as exact `real` arithmetic. Float formatting is not modelled, so the critic's popularity message leaves out the `:.2f` mean.
- Text handling covers ASCII only: `Text.Strip` trims the ASCII characters Python counts as whitespace (space, tab, line and page breaks, U+001C to U+001F) but not non-ASCII Unicode whitespace such as U+00A0 or U+2028, and `Text.Lower` folds ASCII letters only.
- Exceptions from `float(...)`, `str(...)` or `int(...)` on malformed advisory values are not modelled. The decoders map such values to `None`, so the model treats them as absent keys. The source does that only for the intent agent's confidence (agents/intent_agent.py:92-95); the planner's weights (agents/planner_agent.py:94-95) and the rerank deltas (orchestrator.py:118-122) raise instead.
- JSON truthiness, non-dict sub-values and `isinstance` checks belong to the decoder that fills the `Option` fields.
- Python's `isinstance(True, int)` case of the novelty and minutes guards is not modelled: the context holds `Option<real>`.
- Row order: pandas' outer merge orders rows by key, while the model keeps CF rows first. `sort_values` has no tie-break, and the model claims no order among equal scores.
- The critic's `intent` parameter and the explainer's intent, strategy and context are prompt-only. They are not modelled.
- The critic adjustments `novelty_lambda`, `diversity_boost` and `exclude_genres` do not influence ranking. The rankers read λ from the configuration, and rerank reads only the two weight deltas.
- RankerV1 reads `state["plan"]`, which is a `Plan` here. The 0.5/0.5 defaults for missing weight keys therefore cannot arise.
- Orchestrator.RerankNodeSpec: a missing plan is represented by `DefaultPlan` (CF on, semantic off, 0.4/0.6). In the source the copied plan would then hold only the weights and the trace.
- The critic code's comment says the hard rules win. The code calls `dict.update`, which lets the service's value replace a deterministic one. The model follows the code.
- Orchestrator.Delta: a delta reaches the model only as a `Number`; the decoder is assumed to turn whatever `float()` accepts (numeric strings, booleans) into a `Number`. Any other value, on which `float()` would raise, is read as 0.0 here; the exception is not modelled.
