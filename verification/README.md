# Senior WB Analyst — a verified model of the question pipeline

This project models the core of the analyst bot: a question-answering service for a marketplace seller.
A question goes through an intent-driven graph of five nodes, in this order:

1. **classify** picks an intent. It uses the language model's JSON reply; when that reply is not JSON, it uses an ordered keyword cascade.
2. **describe** collects baseline facts from data tools, chosen by keyword groups.
3. **diagnose** looks for causes. It runs only for the diagnose and prescribe intents.
4. **prescribe** collects recommendations. It runs only for the prescribe intent.
5. **synthesize** renders the collected context into prompt fragments and takes the model's answer as the response.

Around the graph sit four more pieces:
- the per-session conversation memory (history, the `last_*` mirror of the latest turn, a digest of recent turns);
- the `SeniorAnalyst` facade (`ask`, `report_error`);
- the feedback rows and the feedback statistics;
- the chat front end's own logic: one analyst per user, replies cut into 4000-character slices, the `/history` listing, and the `/error` and `/newsession` commands.

One Dafny module per source file:

| module | file |
|---|---|
| `State` | `src/graph/state.py` |
| `Classify` | `src/graph/nodes/classify.py` |
| `Graph` | `src/graph/graph.py` |
| `Describe` | `src/graph/nodes/describe.py` |
| `Diagnose` | `src/graph/nodes/diagnose.py` |
| `Prescribe` | `src/graph/nodes/prescribe.py` |
| `Synthesize` | `src/graph/nodes/synthesize.py` |
| `Conversation` | `src/memory/conversation.py` |
| `Feedback` | `src/tools/feedback.py` |
| `Analyst` | `src/agents/wb_senior_analyst.py` |
| `Bot` | `src/bot/telegram_bot.py` |

Three support modules:
- `Wrappers` holds Option and Result.
- `Text` gives the Python string built-ins the code relies on: `in`, `split`, `join`, `strip`, `lower`, slicing, `isdigit` and `int` over Unicode decimal digits, `str(int)`.
- `Tools` holds the data tools. Each tool is an uninterpreted function from its arguments to the text it returns, and `diagnose_sku` may also raise.

The model follows the code's own form:
- The graph nodes are functions over an `AnalystState` datatype.
- Where the source appends step by step, a method does the same and is proved equal to its function:
  - describe's nine keyword groups;
  - diagnose's SKU loop;
  - prescribe's keyword `if`s;
  - synthesize's data loop;
  - the digest loop;
  - the counting and listing loops of the statistics.
- `ConversationMemory`, `SeniorAnalyst` and the session map are classes whose methods update fields.

Exceptions that the source does not catch end a run. Three of them are modelled, as `Failed(...)` results:
- a JSON payload that is not an object;
- entities that are not an object;
- SKUs that cannot be sliced.

The world outside the program is passed in as a parameter, `Graph.Env`. It holds:
- the language model's classification reply and its answer function;
- `json.loads`, as a partial parser;
- the data tools;
- today's day number.

The clock stamp of a new exchange is also a parameter.

Three behaviours of the code that the model keeps as written:
- `get_date_from_range` resolves `"last_week"` to today−7.
- The intent the language model returns is not validated. A value outside the four literals is kept as `Intent.Unlisted`, and routing treats it like `describe`.
- Every node returns the full state (`{**state, ...}`), not only the keys it changed. See the finding below.

## Model

| member | source | states |
|---|---|---|
| State.Get | src/graph/nodes/classify.py:44-45 | `d.get(key, default)`: the stored value when the key is present, the default when absent, and a failure when the value is not a dict |
| State.IntentFromJson | src/graph/state.py:14 | the intent is one of the four declared literals exactly when the JSON value is one of those four strings; any other value is kept verbatim as `Unlisted` |
| State.IntentTextRoundTrip | src/bot/telegram_bot.py:144 | the printed intent of a string intent is that string |
| State.ToolNames | src/agents/wb_senior_analyst.py:64 | the tool names of a context have its length, and name `i` is entry `i`'s tool |
| State.ToolNamesAppend | src/agents/wb_senior_analyst.py:64 | the tool names of a concatenation are the concatenation of the tool names |
| State.ReduceConcatenates | src/graph/state.py:18-20 | the `add` reducer keeps the current `data_context` and `insights` as prefixes, appends the update after them, and lengths add; `recommendations`, `intent` and `response` take the returned value |
| State.ReduceOntoEmpty | src/graph/state.py:18-19 | merging into empty lists yields the returned state itself |
| Classify.StripJsonFence | src/graph/nodes/classify.py:37-38 | with a "```json" fence, the parsed text is what follows the first "```json", up to the next "```", and it contains no "```" |
| Classify.StripPlainFence | src/graph/nodes/classify.py:39-40 | with only "```" fences, the parsed text is the segment between the first and the second fence, and it contains no "```" |
| Classify.StripNoFence | src/graph/nodes/classify.py:36-42 | without a fence, the reply reaches `strip()` unchanged |
| Classify.JsonFenceHasFence | src/graph/nodes/classify.py:37-39 | a reply with "```json" also contains "```" |
| Classify.PrefixCut | src/graph/nodes/classify.py:38 | cutting at the first "```json" and then at the first "```" leaves the text up to the earlier of the two cut points |
| Classify.FallbackIntent | src/graph/nodes/classify.py:49-58 | ordered cascade: `diagnose` iff a causal word occurs; `prescribe` iff no causal word and an action word occurs; `describe` otherwise; never `clarify` |
| Classify.ClassifyNode | src/graph/nodes/classify.py:17-70 | only `intent` and `entities` change; the node raises exactly when the parsed value is not an object; an unparsable reply gives the fallback intent and exactly the fallback entities |
| Classify.ClassifyParsed | src/graph/nodes/classify.py:42-45 | a parsed object: a missing intent reads as `describe`, missing entities as `{}`, and a present intent is taken without validation |
| Graph.RouteAfterDescribe | src/graph/graph.py:39-48 | after describe: diagnose iff the intent is diagnose or prescribe, synthesize otherwise (clarify and unknown values included) |
| Graph.RouteAfterDiagnose | src/graph/graph.py:60-67 | after diagnose: prescribe iff the intent is prescribe, synthesize otherwise |
| Graph.Next | src/graph/graph.py:36-82 | every edge of the table strictly lowers the distance to the end, so the graph has no cycle |
| Graph.ThreePaths | src/graph/graph.py:16-19 | the visited sequence is exactly one of the three paths the docstring of `create_analyst_graph` lists, chosen by the intent |
| Graph.PathEnds | src/graph/graph.py:33-82 | every path starts classify, describe and ends with synthesize |
| Graph.PathSynthesizeOnce | src/graph/graph.py:79-82 | synthesize occurs exactly once on every path |
| Graph.PathBranches | src/graph/graph.py:39-67 | diagnose is visited iff the intent is diagnose or prescribe; prescribe iff the intent is prescribe, and then only after diagnose |
| Graph.IntentKept | src/graph/graph.py:41-62 | the nodes after classify return the intent they were given, so both branch points read the classifier's intent |
| Graph.VisitedFollowsPath | src/graph/graph.py:36-82 | from any node after classify, a successful run visits the path of the state's intent, whatever the merge, and ends with that intent |
| Graph.RunVisitsPath | src/graph/graph.py:12-85 | a successful run visits exactly the path of its final intent |
| Graph.RunStep | src/graph/graph.py:36-82 | one step of a run: merge the node's returned state, then continue at the edge chosen by the merged intent |
| Graph.EndNotOnPath | src/graph/graph.py:82 | the end marker is never a node to run |
| Graph.CorrectedRunComposes | src/graph/graph.py:12-85 | when each returned state overwrites the current one, a run is the composition of the nodes along the intent's path, each seeing what the previous returned |
| Graph.DescribePathRun | src/graph/graph.py:36-82 | on the describe path, the run merges describe's state and then synthesize's state; describe's context is non-empty and its insights are empty |
| Graph.ClassifyMergedWhole | src/graph/state.py:18-19 | on a state with empty lists, classify's returned state is merged in whole under either merge |
| Graph.SynthesizeMerged | src/graph/state.py:18 | synthesize returns the context it was given: overwriting keeps it, the declared `add` reducer doubles it |
| Graph.AsWrittenRunDuplicates | src/graph/state.py:18 | with the declared reducer, a describe-path run that starts with empty lists ends with the describe entries twice |
| Describe.ResolveDateRange | src/graph/nodes/describe.py:30-45 | `today`→today (iff), `yesterday`→today−1, `last_week`→today−7 (iff); any other string holding a "-" is passed through verbatim; any other string without one, and every non-string, means yesterday; every resolved day lies in the past week |
| Describe.GroupEntriesNamed | src/graph/nodes/describe.py:64-114 | each group appends its fixed tool names; plan appends plan_fact then plan_forecast, ads appends ads_summary then high_drr_campaigns |
| Describe.OrderPrefixIsDescribeOrder | src/graph/nodes/describe.py:64-114 | the nine groups in checking order contribute exactly the eleven names margin … underperforming in that order |
| Describe.MatchedInOrder | src/graph/nodes/describe.py:64-114 | the names the first `n` matched groups append are a subsequence of the first `n` groups' names, in table order |
| Describe.MatchedEmpty | src/graph/nodes/describe.py:64-117 | the groups append nothing exactly when the question mentions no word of any group |
| Describe.DescribeEntriesShape | src/graph/nodes/describe.py:64-123 | the context is never empty and follows the fixed order; it is exactly [margin_summary, plan_fact] iff no group matched, and the matched entries otherwise |
| Describe.DescribeNode | src/graph/nodes/describe.py:55-56 | the node raises exactly when `entities` is not a dict |
| Describe.DescribeGuarantee | src/graph/nodes/describe.py:48-129 | a node that does not raise returns a non-empty context in table order, empty insights, and every other field unchanged |
| Describe.ApplyGroup | src/graph/nodes/describe.py:64-66 | one group's `if`: the context extended by the group's entries when the question mentions a word of the group |
| Describe.Describe | src/graph/nodes/describe.py:48-129 | the node as written, with its sequential appends and the default, equals `DescribeNode` |
| Diagnose.FirstSkus | src/graph/nodes/diagnose.py:30-36 | `skus[:3]` under `if skus:`: at most three items, a list's first three, a string's first three characters, nothing when falsy; raises exactly for a truthy value that is neither |
| Diagnose.SkuNumberOfText | src/graph/nodes/diagnose.py:37-43 | an SKU yields a number exactly when its `str()` is non-empty and all Unicode decimal digits (any script), and the number is `int` of that text; a digit `isdigit` admits but `int` refuses raises inside the `try` and so yields none |
| Diagnose.SkuNumberExamples | src/graph/nodes/diagnose.py:37-43 | Arabic-Indic "٣٤" is SKU 34; a superscript "²", "12a" and the empty string give no SKU |
| Diagnose.SkuEntriesSound | src/graph/nodes/diagnose.py:35-43 | at most one entry per SKU, and each is the lookup of a non-zero SKU number whose lookup did not raise |
| Diagnose.SkuEntriesNamed | src/graph/nodes/diagnose.py:41 | every SKU entry is named diagnose_sku |
| Diagnose.KeywordEntriesNamed | src/graph/nodes/diagnose.py:46-63 | the keyword groups append only analyze_margin_change, compare_periods and find_anomalies; the analysis comes first, and it comes first iff a causal word occurs |
| Diagnose.SkuLookupsAtMostThree | src/graph/nodes/diagnose.py:35-43 | at most three diagnose_sku entries are appended |
| Diagnose.CausalSkipsDefault | src/graph/nodes/diagnose.py:46-69 | when a causal word occurs, the default analysis is not appended |
| Diagnose.AnalysisAtMostOnce | src/graph/nodes/diagnose.py:46-69 | analyze_margin_change is appended at most once per call |
| Diagnose.AnalysisCountInAdditions | src/graph/nodes/diagnose.py:35-63 | before the default scan, the SKU lookups and keyword entries name analyze_margin_change exactly once when a causal word occurs and not at all otherwise |
| Diagnose.AnalysisIsDiagnostic | src/graph/nodes/diagnose.py:66-69 | the default analysis passes the final scan |
| Diagnose.DiagnoseNode | src/graph/nodes/diagnose.py:25-36 | the node raises exactly when `entities` is not a dict or `skus` cannot be sliced |
| Diagnose.DiagnoseGuarantee | src/graph/nodes/diagnose.py:26-75 | the incoming context is a prefix of the result, some entry starts with a diagnostic prefix, and every other field, `insights` included, is unchanged |
| Diagnose.DiagnoseDefault | src/graph/nodes/diagnose.py:35-69 | the SKU lookups and keyword entries come first; `analyze_margin_change(days_back=7)` follows exactly when no diagnostic entry is present yet; with no SKU entry, no group word and no diagnostic entry on entry, it is the only addition |
| Diagnose.KeywordGroupsFire | src/graph/nodes/diagnose.py:46-63 | analyze_margin_change, compare_periods and find_anomalies are each appended exactly when a word of their own group occurs |
| Diagnose.LookupSkus | src/graph/nodes/diagnose.py:35-43 | the SKU loop appends exactly the lookups of the batch, in order |
| Diagnose.Diagnose | src/graph/nodes/diagnose.py:18-75 | the node as written, appending to the incoming context, equals `DiagnoseNode` |
| Prescribe.KeywordEntriesInOrder | src/graph/nodes/prescribe.py:31-48 | the names the groups append follow actionable, optimization, scaling, plan, each at most once |
| Prescribe.KeywordEntriesPrescriptive | src/graph/nodes/prescribe.py:31-48 | every group entry is one of the four recommendation tools, and there are at most four |
| Prescribe.AppendedPrescription | src/graph/nodes/prescribe.py:51-53 | appending any recommendation tool makes the final scan succeed |
| Prescribe.PrescribeGuarantee | src/graph/nodes/prescribe.py:31-55 | afterwards a recommendation tool is present; the added names are in group order, at most four; with none present on entry, at least one is added; the keyword entries come first and `actionable_insights` follows exactly when no recommendation tool is present yet; with no group word and none on entry, that default is the only addition |
| Prescribe.KeywordGroupsFire | src/graph/nodes/prescribe.py:31-48 | each of actionable_insights, optimization_candidates, scaling_candidates and plan_recommendations is appended exactly when a word of its own group occurs |
| Prescribe.PrescribeNodeFrame | src/graph/nodes/prescribe.py:25-61 | the incoming context is a prefix, `recommendations` becomes [], and nothing else changes |
| Prescribe.Prescribe | src/graph/nodes/prescribe.py:18-61 | the node as written, appending to the incoming context, equals `PrescribeNode` |
| Synthesize.Block | src/graph/nodes/synthesize.py:28 | an entry's block starts with "\n### tool:\n", ends with a newline, and is eight characters longer than tool and result together |
| Synthesize.RenderDataAppend | src/graph/nodes/synthesize.py:26-28 | rendering distributes over concatenation of contexts |
| Synthesize.RenderDataShape | src/graph/nodes/synthesize.py:26-28 | a non-empty context renders non-empty, and entry `i`'s block sits right after the blocks of the entries before it |
| Synthesize.DataBlock | src/graph/nodes/synthesize.py:26-28 | the `+=` loop builds exactly the in-order rendering |
| Synthesize.InsightsText | src/graph/nodes/synthesize.py:30 | no insights give the placeholder; a single insight is shown as itself |
| Synthesize.InsightsRoundTrip | src/graph/nodes/synthesize.py:30 | insights without line breaks are recovered by splitting the fragment on "\n" |
| Synthesize.RecommendationsText | src/graph/nodes/synthesize.py:31 | no recommendations give the placeholder; a single one is shown as its text |
| Synthesize.RecommendationsRoundTrip | src/graph/nodes/synthesize.py:31 | recommendation texts without line breaks are recovered by splitting on "\n" |
| Synthesize.SynthesizeFrame | src/graph/nodes/synthesize.py:49-52 | only `response` changes, and it depends only on the question and the three fragments |
| Synthesize.Synthesize | src/graph/nodes/synthesize.py:16-52 | the node as written equals `SynthesizeNode` |
| Conversation.Digest | src/memory/conversation.py:106-107 | the digest is empty exactly when the history is |
| Conversation.DigestLastFive | src/memory/conversation.py:111 | only the last five exchanges reach the digest |
| Conversation.DigestExtend | src/memory/conversation.py:111-115 | below the window, a new exchange is listed last with the next number |
| Conversation.DigestSingle | src/memory/conversation.py:109-115 | a one-exchange history is listed as turn 1 under the header |
| Conversation.FormatHistory | src/memory/conversation.py:96-117 | the numbering loop builds exactly the digest |
| Conversation.ToolsOrEmpty | src/memory/conversation.py:146 | `tools_used or []` |
| Conversation.ConversationRecord | src/memory/conversation.py:42-50 | the stored response is None iff empty, otherwise a prefix of at most 10000 characters (the whole text when short); the tool list is stored only when non-empty |
| Conversation.ConversationMemory.constructor | src/memory/conversation.py:127-132 | the given session id, or the clock stamp when none; empty history and reset `last_*` fields |
| Conversation.ConversationMemory.AddExchange | src/memory/conversation.py:134-162 | exactly one exchange appended with earlier ones unchanged; `last_*` set to the arguments, a missing tool list becoming []; session id kept; the database row built |
| Conversation.ConversationMemory.Context | src/memory/conversation.py:164-169 | the digest of the history, empty exactly when the history is |
| Conversation.ConversationMemory.LastExchange | src/memory/conversation.py:171-175 | the last exchange, or None exactly when the history is empty |
| Conversation.ConversationMemory.Clear | src/memory/conversation.py:177-182 | empty history, `last_*` reset, session id kept |
| Text.AbbreviateBounds | src/memory/conversation.py:114 | text of at most `n` characters is shown verbatim; longer text is exactly `n + 3` characters: its first `n` characters followed by "..." |
| Text.FindFrom | src/graph/nodes/classify.py:37 | the first occurrence at or after the start position, and no earlier one |
| Text.SplitHead | src/graph/nodes/classify.py:38 | the first piece of a split is the text up to the first separator and contains no separator |
| Text.JoinSplit | src/graph/nodes/classify.py:38 | joining the pieces of a split with the separator gives back the text |
| Text.SplitJoin | src/graph/nodes/synthesize.py:30-31 | splitting a join on a one-character separator absent from the parts gives the parts back |
| Text.TrimStart | src/graph/nodes/classify.py:42 | the suffix left after dropping leading whitespace |
| Text.TrimEnd | src/graph/nodes/classify.py:42 | the prefix left after dropping trailing whitespace |
| Text.NatToString | src/memory/conversation.py:112 | the decimal rendering is all digits and reads back as the number |
| Text.IntToStringInjective | src/bot/telegram_bot.py:50 | `str(i)` renders different integers differently |
| Feedback.NormaliseType | src/tools/feedback.py:44-48 | the type is one of the five; valid types are kept, anything else becomes `other` |
| Feedback.NormaliseIdempotent | src/tools/feedback.py:99-103 | normalising twice is normalising once |
| Feedback.ShortRecord | src/tools/feedback.py:44-56 | the short row: normalised type, the comment and expected answer, status `new`, no context columns |
| Feedback.FullRecord | src/tools/feedback.py:99-114 | the full row: the response is None iff absent or empty, otherwise a prefix of at most 5000 characters (the whole text when short); tools are stored only when non-empty; status `new` |
| Feedback.ConfirmationShows | src/tools/feedback.py:62-68 | the confirmation names the stored type and comment, and shows the expected answer exactly when one was given |
| Feedback.TypeKeys | src/tools/feedback.py:146-148 | one key per row: a missing or empty type is counted as `other`, any other type as itself |
| Feedback.StatusKeys | src/tools/feedback.py:152-154 | one key per row: a missing or empty status is counted as `new`, any other status as itself |
| Feedback.BumpCount | src/tools/feedback.py:148 | `d[k] = d.get(k, 0) + 1` adds one to `k`'s count and to the total, and leaves other counts alone |
| Feedback.BumpKnown | src/tools/feedback.py:148 | bumping a present key keeps the dict's keys in place |
| Feedback.BumpNew | src/tools/feedback.py:148 | bumping a new key appends it with count 1 |
| Feedback.BumpDistinct | src/tools/feedback.py:148 | keys stay distinct, and the key set grows by the bumped key |
| Feedback.TallyKeys | src/tools/feedback.py:145-148 | the dict has distinct keys, exactly the keys that occur |
| Feedback.TallyCounts | src/tools/feedback.py:142-154 | every count is the key's number of occurrences, and the counts sum to the number of rows |
| Feedback.TallyFirstSeen | src/tools/feedback.py:145-148 | the dict lists keys in the order of their first occurrence |
| Feedback.InsertStable | src/tools/feedback.py:162 | insertion keeps the relative order of items with equal counts |
| Feedback.SortByCountFacts | src/tools/feedback.py:162-167 | the sorted listing is a permutation of the dict, in descending count, with ties in dict order |
| Feedback.StatsText | src/tools/feedback.py:139-140 | the text is the "no feedback yet" notice exactly when there are no rows |
| Feedback.Count | src/tools/feedback.py:145-148 | the counting loop builds exactly the tally of the keys |
| Feedback.AppendLines | src/tools/feedback.py:162-163 | the listing loop appends exactly the lines of the items, in order |
| Feedback.FeedbackStats | src/tools/feedback.py:126-169 | the statistics as written equal `StatsText` |
| Analyst.CommentType | src/agents/wb_senior_analyst.py:86-96 | the ordered classifier: one of the five types, with each type chosen exactly when its words occur and no earlier group's words do |
| Analyst.CommentTypeIsStored | src/agents/wb_senior_analyst.py:86-101 | the computed type passes normalisation unchanged |
| Analyst.InitialState | src/agents/wb_senior_analyst.py:45-54 | intent describe, empty entities, lists and response, and the memory's history |
| Analyst.Recorded | src/agents/wb_senior_analyst.py:57-65 | a run that raises records nothing; otherwise exactly one exchange is appended, with the question, the response and the context's tool names in order |
| Analyst.ExpectedOrEmpty | src/agents/wb_senior_analyst.py:103 | `expected or ""` |
| Analyst.SeniorAnalyst.constructor | src/agents/wb_senior_analyst.py:27-29 | a fresh memory under the session id, and no last result |
| Analyst.SeniorAnalyst.Ask | src/agents/wb_senior_analyst.py:31-69 | the graph runs on the initial state; on success one exchange is recorded, `last_*` and the last result are set, and the stored response is returned; a raising run changes nothing |
| Analyst.SeniorAnalyst.ReportError | src/agents/wb_senior_analyst.py:71-107 | no last question gives the fixed text and no row; otherwise the row carries the last question, response and tools, the classified type, the comment and `expected or ""`, and the reply is the feedback tool's |
| Analyst.ReportCarriesTurn | src/agents/wb_senior_analyst.py:98-105 | the row keeps a prefix of the last answer, the tool list exactly when it is non-empty, and status `new` |
| Bot.SessionId | src/bot/telegram_bot.py:50 | the session id is "tg_" followed by `str` of the user id |
| Bot.SessionIdInjective | src/bot/telegram_bot.py:50 | different users get different session ids |
| Bot.SlicesAt | src/bot/telegram_bot.py:184 | slice `i` is the text from `i·n` up to `n` characters further, cut at the end |
| Bot.SlicesConcat | src/bot/telegram_bot.py:184 | the slices put back together give the text |
| Bot.SlicesSizes | src/bot/telegram_bot.py:184 | every slice has 1 to `n` characters, all but the last exactly `n`, and there is a slice iff the text is non-empty |
| Bot.Chunks | src/bot/telegram_bot.py:182-188 | an answer of at most 4000 characters is sent whole |
| Bot.ChunksFacts | src/bot/telegram_bot.py:182-188 | the replies concatenate to the answer, are non-empty in number, each has at most 4000 characters, and all but the last exactly 4000 |
| Bot.Replies | src/bot/telegram_bot.py:177-195 | a raising run gives the apology; otherwise the replies concatenate to the answer and respect the limit |
| Bot.HistoryText | src/bot/telegram_bot.py:136-146 | no history gives the empty notice; otherwise the listing starts with the header |
| Bot.HistoryLastTen | src/bot/telegram_bot.py:141 | only the last ten exchanges are listed |
| Bot.HistoryNoticeOnlyWhenEmpty | src/bot/telegram_bot.py:136-140 | the empty notice is shown exactly when there is no history |
| Bot.HistoryItemShowsQuestion | src/bot/telegram_bot.py:142-144 | the item is the number, ". ", the question and a newline, then the `_Intent: …_` line; a question of at most 50 characters is listed whole, a longer one as its first 50 and "..." |
| Bot.HistoryItemsNumbered | src/bot/telegram_bot.py:141-144 | the listing is the items of the turns in order, numbered from 1 |
| Bot.ListItems | src/bot/telegram_bot.py:141-144 | the listing loop builds exactly the numbered items |
| Bot.HistoryListing | src/bot/telegram_bot.py:136-146 | the command's text equals `HistoryText` of the history |
| Bot.CommentOf | src/bot/telegram_bot.py:117 | the comment is the arguments joined by spaces; no comment exactly when there are no arguments or they join to the empty string |
| Bot.NewSessionReply | src/bot/telegram_bot.py:157-160 | the reply announces the new session, followed by the line `Session ID: ` and the user's session id in backquotes |
| Bot.SessionStore.constructor | src/bot/telegram_bot.py:44 | no sessions |
| Bot.SessionStore.Install | src/bot/telegram_bot.py:153-155 | a fresh analyst with empty history is stored for the user, and no other entry changes |
| Bot.SessionStore.GetAnalyst | src/bot/telegram_bot.py:47-51 | an existing analyst is returned and nothing changes; otherwise a fresh one with empty history is created for this user only |
| Bot.SessionStore.NewSession | src/bot/telegram_bot.py:149-161 | the user's analyst is replaced by a fresh one with empty history; every other user keeps theirs |
| Bot.SessionStore.History | src/bot/telegram_bot.py:131-146 | an existing user's session map is left as it was and the listing is of their existing history; a new user gets a fresh analyst, added to the map and nothing else, and sees the empty notice |
| Bot.SessionStore.ErrorCommand | src/bot/telegram_bot.py:111-128 | an existing user's session map is left as it was; a new user gets a fresh analyst and nothing else changes; without a comment, the usage text and no report; otherwise the report about the user's previous question, for the joined arguments, prefixed with a check mark, for a stored row and for a failed insert alike; the stored row is the full record of the previous turn (its question, response and tool list) with the comment's type and the empty expected answer |
| Bot.SessionStore.AskAs | src/bot/telegram_bot.py:175-179 | the user's analyst answers and records the turn; every other analyst and its memory are unchanged and the store stays valid |
| Bot.SessionStore.HandleMessage | src/bot/telegram_bot.py:164-195 | the replies are the answer's slices or the apology; an existing user keeps their own analyst, and their history gets exactly the turn `ask` records; other users keep the same analyst, with its memory and last result unchanged |

## Left out

- The data tools' bodies (database queries, aggregation, floating point). Their results are opaque strings supplied by `Tools.Toolbox`, and no tool call fails except `diagnose_sku` inside diagnose's per-SKU `try`, where a failure only skips that SKU.
- The language-model calls. The classification reply and the answer are parameters (`Graph.Env`), and the prompt templates are not part of this model.
- `json.loads` is an abstract partial parser. JSON numbers are integers.
- The clock. "Today" is a day number, and a date is a day number or a string passed through. `strftime` formatting and the timestamps of exchanges and sessions are parameters.
- Lower-casing covers ASCII and the basic Cyrillic alphabet (with Ё) only.
- State.PyStr: prints a list as `[...]` and a dict as `{...}`, not their contents as Python's `str()` does. This reaches the printed intent (the `/history` listing and the stored exchange) only when the language model's JSON intent is a list or an object.
- Persistence I/O: the inserts into the conversation and feedback tables and the statistics query. The rows are built and returned; an insert failure is a parameter (`insertError`). `save_conversation_to_db`'s return flag and `get_conversation_history` are left out. The JSON encoding of the tool list is left abstract.
- The graph runtime's aliasing. Diagnose and prescribe append in place to the list object held by the incoming state, which the runtime also holds. The model copies the list, so the extra sharing this causes under the declared reducer is not captured.
- The runtime itself (`StateGraph`, `compile`, `invoke`) is replaced by the explicit edge table and `Graph.RunFrom`.
- Chat transport: async handlers, Markdown parsing, `send_chat_action`, the `/start` and `/help` texts, `error_handler`, and the polling loop in `main`.
- The console loop `interactive_session` and the module-level `ask` function.
- `get_session_id` is a plain read of `memory.sessionId`.
- Concurrency. The session map is shared by async handlers without locking; the model runs one handler at a time.
- `ask` computes `get_context()` and discards the value, as the source does, so the digest never reaches the graph.
- Bot.SessionStore.HandleMessage: a failed run is one of the three `Failed` results of the graph; the language-model and data-tool failures of the next line, and errors from sending a message, are not modelled.
- Failures of the language-model calls (classify.py:31, before its `try`; synthesize.py:47) and of every data-tool call outside diagnose's per-SKU `try` (describe.py:64-123, diagnose.py:46-69, prescribe.py:31-55) are not modelled: `Graph.Env` and `Tools.Toolbox` always answer. In the source each of them escapes `ask`, which then records nothing, and the bot answers with the same apology as for a modelled failure (telegram_bot.py:190-195).
- The exception text a failed feedback insert produces is a parameter (`insertError`).
- Diagnose.SkuNumber: the decimal digits are those of Unicode 15 (68 runs of ten); a digit that a later Unicode version adds is not one here. A digit that `isdigit` admits but `int` refuses (a superscript, a circled digit) is not told apart from a non-digit: both give no SKU, as the `try` makes them.
- Analyst.Outcome: runs the graph with the corrected merge (`Graph.Overwrite`), not the declared `add` reducer, so `SeniorAnalyst.Ask`, `Analyst.Recorded` and `Bot.SessionStore.HandleMessage` record each tool name once, where the source as written would record the duplicated list (see Findings).

## Findings

| source | as written | input that shows it | evidently intended | confidence | as-written member | corrected member |
|---|---|---|---|---|---|---|
| src/graph/state.py:18 | `data_context` is declared with the `add` reducer, but every node returns the whole state (`{**state, ...}`), so the runtime appends the full list to itself | a question routed to describe, e.g. "какая маржа?" with a reply that is not JSON: describe returns `[margin_summary]`, and synthesize returns that list again, so the final context is `[margin_summary, margin_summary]` and `ask` records both | each tool appears once; every node sees exactly the context the previous node returned | not executed; assumes the runtime applies the declared reducer to full-state returns | Graph.AsWrittenRunDuplicates | Graph.CorrectedRunComposes |

The rest of the model uses the corrected run: `Analyst.Outcome` runs the graph with `Graph.Overwrite`.
