# LINE insurance chatbot: debounce buffer, routing and conversation store

This project models the logic under the HTTP, language-model and search plumbing
of a LINE chatbot that answers questions about insurance products and services.

- **Debounce buffer** (`api_webhook.py`). Each user has a buffer of text
  fragments, the newest reply token and one scheduled batch task. Every
  fragment is appended, and the previous task is cancelled and replaced. When a
  task wakes up it takes the buffer and empties it. The text `"CHAT RESET"`
  bypasses the buffer: it deletes the history, confirms, and drops the buffer.
  Tasks are ids. A cancelled task is an id that is no longer pending, and it
  takes nothing when it wakes up.
- **Pipeline** (`_run_rag_pipeline`). The fragments are joined into one query.
  An exact FAQ key gets a canned answer. Otherwise the conversation state is
  read and the classifier's label is validated. The routing table then picks the
  search, whether the history reaches the answerer, and the label to store.
  After the reply, the query and the answer are saved.
- **Conversation store** (`utils/chat_history_func.py`). This is a map from user
  to records in insertion order. The state is derived from the 20 newest
  records, and the history is compacted above 3500 characters.
- **Label validation and result formatting** (`utils/rag_func.py`).
- **Older synchronous handler** (`INSURANCE_PROD_LINE_API.py`). It has its own
  routing table, five labels, a 2000-character budget and ten records of history.

The classifier, search index, summariser, answer generator and LINE reply are
uninterpreted functions. Each returns `None` when the call raises. A run is the
sequence of effects it issues, the collection it leaves behind, and its result.
Every exception in the pipeline is caught at its end. A failing call therefore
ends the run where it failed, and nothing after it happens.

The code is followed where it departs from an idealised design:

- `MORE` and `RESET` are stored verbatim.
- `CONTINUE CONVERSATION` without a stored decision resolves to `INSURANCE_PRODUCT`.
- A continuation after an `OFF-TOPIC` turn keeps the history.
- There is no fallback reply when a run fails.
- A reset does not cancel the scheduled task. That task still wakes up and takes
  whatever the new buffer holds (`Debounce.ResetLeavesOrphanTask`).
- Compaction in the current handler calls `save_chat_history` with four
  arguments. The function requires five, so the call raises after the history
  has been deleted. An oversized history is therefore wiped, and the run ends
  without a reply (`Pipeline.OversizedHistoryAbortsRun`).

Modules:

| module | file | models |
|---|---|---|
| `Types` | `types.dfy` | records, effects, collaborators |
| `Text` | `text.dfy` | `strip()`, `upper()`, `join()` |
| `Labels` | `labels.dfy` | `decide_search_path` validation |
| `Formatting` | `formatting.dfy` | result formatters and context join |
| `ChatHistory` | `chat_history.dfy` | the collection and `get_conversation_state` |
| `Routing` | `routing.dfy` | the routing table of the current handler |
| `Pipeline` | `pipeline.dfy` | `_run_rag_pipeline` |
| `Debounce` | `debounce.dfy` | `USER_BUFFERS` |
| `Webhook` | `webhook.dfy` | the handler class |
| `Legacy` | `legacy.dfy` | the older handler |

## Model

| member | source | states |
|---|---|---|
| Text.Upper | utils/rag_func.py:160 | upper-casing keeps the length and maps each character on its own |
| Text.StripLeft | utils/rag_func.py:160 | leading whitespace is dropped; the rest is a suffix and starts with a non-space |
| Text.StripRight | utils/rag_func.py:160 | trailing whitespace is dropped; the rest is a prefix and ends with a non-space |
| Text.StripPadded | utils/rag_func.py:160 | `strip()` returns the text between any whitespace padding |
| Text.JoinSnoc | api_webhook.py:185 | joining one more element appends the separator and the element, so order is kept |
| Text.JoinEmptyIff | utils/rag_func.py:78 | a join is empty exactly when there is nothing to join (first element non-empty) |
| Labels.Lookup | utils/rag_func.py:163-165 | finds the category with the given name, or reports that no category has it |
| Labels.Validate | utils/rag_func.py:163-165 | the result is a listed category or OFF-TOPIC; a known name is kept, any other text becomes OFF-TOPIC |
| Labels.DecideSearchPathSound | utils/rag_func.py:159-167 | the result is one of the six labels; it is the label the normalised text names, else OFF-TOPIC |
| Labels.LegacyDecideSearchPathSound | INSURANCE_PROD_LINE_API.py:214-222 | the older result is one of five labels and never MORE |
| Labels.NameInjective | utils/rag_func.py:163 | distinct labels have distinct names |
| Labels.NameIsNormal | utils/rag_func.py:163 | every label name is upper case with no surrounding whitespace |
| Labels.DecideSearchPathVariant | utils/rag_func.py:160-165 | whitespace padding and lower-case letters around a label's name still give that label (both handlers; MORE only in the current one) |
| Labels.DecideSearchPathOfName | utils/rag_func.py:160-165 | validation is the identity on a valid label |
| Labels.LegacyAgreesExceptMore | INSURANCE_PROD_LINE_API.py:218-220 | the two validations agree except that the older one turns MORE into OFF-TOPIC |
| Formatting.PrintResults | utils/rag_func.py:42-52 | the loop builds the seven lines of every product in result order (the older handler has an identical copy) |
| Formatting.PrintResultsService | utils/rag_func.py:54-61 | the loop builds the four lines of every service in result order (the older handler has an identical copy) |
| Formatting.FormatProductsLayout | utils/rag_func.py:42-52 | exactly 7 lines per product in field order; the seventh is the URL ending in a newline; no results give no lines |
| Formatting.FormatServicesLayout | utils/rag_func.py:54-61 | exactly 4 lines per service in field order |
| Formatting.ContextEmptyIff | utils/rag_func.py:78 | the context is the empty string exactly when the search returned no results |
| ChatHistory.Saved | utils/chat_history_func.py:47-54 | one record is appended for the user; other users keep their records |
| ChatHistory.Deleted | utils/chat_history_func.py:56-57 | the user has no records left; other users keep theirs |
| ChatHistory.Recent | utils/chat_history_func.py:21-30 | the at most `n` newest records, in chronological order |
| ChatHistory.Lines | utils/chat_history_func.py:33 | one `sender: message` line per record, in order |
| ChatHistory.LastTwo | utils/chat_history_func.py:40-42 | both branches give the last at most two user messages, in order |
| ChatHistory.FetchState | utils/chat_history_func.py:17-44 | a returned state leaves the collection untouched; the only possible change is deleting the user's records |
| ChatHistory.SummarizeBelowBudget | utils/rag_func.py:97-98 | at or below 3500 characters the history text is returned unchanged and nothing is written |
| ChatHistory.SummarizeAboveBudget | utils/rag_func.py:100-115 | above the budget the records are deleted if the summariser returns, no summary record is written, and no state comes back |
| ChatHistory.FetchStateOfNewUser | utils/chat_history_func.py:26-27 | a user without records gets `("", None, "")` and nothing is compacted |
| ChatHistory.LatestDecisionIsNewest | utils/chat_history_func.py:37 | the decision is the `path_decision` of the newest record |
| ChatHistory.UserMessagesAppend | utils/chat_history_func.py:40 | the user messages of two record lists concatenate |
| ChatHistory.HistorySnoc | utils/chat_history_func.py:33-40 | one more record adds one history line and, if the user wrote it, one user message |
| ChatHistory.OlderTurnsIgnored | utils/chat_history_func.py:21-25 | records older than the 20 newest change neither the state nor compaction |
| ChatHistory.ConversationStore.InsertOne | utils/chat_history_func.py:48-54 | `insert_one` appends the record for its user |
| ChatHistory.ConversationStore.DeleteMany | utils/chat_history_func.py:57 | `delete_many` removes the user's records |
| ChatHistory.ConversationStore.FindRecent | utils/chat_history_func.py:21-30 | a cursor loop collects at most n records newest first, and a second loop reverses them; the result is `Recent`, the last n records of the user in insertion order |
| ChatHistory.ConversationStore.GetConversationState | utils/chat_history_func.py:17-44 | what it returns and leaves in the collection is `FetchState`, compaction included |
| ChatHistory.SaveChatHistory | utils/chat_history_func.py:47-54 | exactly one record with the given fields and label is added |
| ChatHistory.DelChatHistory | utils/chat_history_func.py:56-57 | every record of the user goes, and nothing else |
| Routing.PlanRoute | api_webhook.py:218-249 | SERVICE searches (3,0,service), PRODUCT (7,0), MORE (7,7); a continuation resolves from the stored decision, with None giving PRODUCT and OFF-TOPIC giving no search; only RESET and OFF-TOPIC drop the history; every other label is stored unchanged |
| Pipeline.EmptyBatchIsNoOp | api_webhook.py:179-181 | no fragments or no reply token: no effect, no change, no result |
| Pipeline.FaqTable | api_webhook.py:49-54 | the FAQ table has exactly the four questions; the two promotion answers come from their settings when set and non-empty, and otherwise are the fixed "no promotion" texts |
| Pipeline.FaqShortCircuit | api_webhook.py:189-208 | an FAQ query gets the canned answer and is stored as OFF-TOPIC; no history read, classification, search or generation |
| Pipeline.CompletedRun | api_webhook.py:253-273 | a completed run replied once and then saved the user record and the assistant record, both with the final label, which is never CONTINUE CONVERSATION |
| Pipeline.AbortedRun | api_webhook.py:275-276 | a failed run saved nothing, replied at most once as its last effect, and at most deleted the user's history |
| Pipeline.RoutedRun | api_webhook.py:211-253 | after the fetch and the classification, the planned retrieval is issued next: a search on the query, or the query condensed with the latest user messages and a search on that sub-query; the answerer gets that search's result as its context (empty when nothing is searched) and the history exactly when `PlanRoute` keeps it; the stored label is the plan's |
| Pipeline.OversizedHistoryAbortsRun | utils/rag_func.py:111-115 | an oversized history that is compacted is deleted, and the run ends with no reply and no save |
| Pipeline.AnsweringShape | api_webhook.py:225-271 | once answering starts, the run issues the planned retrieval on the right text, answers on its result, and ends with the reply and two saves, or with nothing saved |
| Pipeline.AnsweringRetrieves | api_webhook.py:225-253 | the first effects are the planned search on the query, or the condensation and the search on the sub-query, and the answerer call carries that search's result; a raising call ends the effects there |
| Pipeline.AnsweringEnds | api_webhook.py:253-276 | the answering run ends with the reply and the two saves under the plan's label, or saves nothing and leaves the collection unchanged |
| Pipeline.AnsweringFollows | api_webhook.py:225-253 | every search uses the plan's parameters, none when the plan searches nothing, and every answerer call has the plan's history |
| Pipeline.DeliverShape | api_webhook.py:256-271 | the reply comes first and the two saves follow only if it went through |
| Pipeline.ClassifiedShape | api_webhook.py:211-273 | with the state in hand and a label, the run starts with the fetch and the classification, then issues the planned search on the query or on the condensed sub-query and answers on its result, with the history the table gives |
| Pipeline.ClassifiedFollows | api_webhook.py:211-253 | the run starts with the fetch and the classification, and its searches and answerer calls use the plan's parameters and history |
| Pipeline.ClassifiedRetrieves | api_webhook.py:215-253 | after the fetch and the classification come the planned retrieval and the answer on its result |
| Pipeline.ClassifiedEnding | api_webhook.py:253-276 | such a run ends with the reply and the two saves under the plan's label, or saves nothing and leaves the collection as the fetch left it |
| Debounce.AppendedValid | api_webhook.py:149-156 | appending keeps the bookkeeping: a stored task is pending for its user, and buffered text has a token and a task |
| Debounce.FiredValid | api_webhook.py:163-167 | waking a task keeps the bookkeeping |
| Debounce.PoppedValid | api_webhook.py:142 | popping an entry keeps the bookkeeping |
| Webhook.HandleMessageKeepsValid | api_webhook.py:126-156 | handling a message keeps the bookkeeping, for the sentinel and for a fragment |
| Webhook.ProcessMessageBatchKeepsValid | api_webhook.py:159-172 | waking a batch task keeps the bookkeeping |
| Debounce.TrackedSingle | api_webhook.py:153-156 | while every pending task is the stored one, each user has at most one |
| Debounce.AppendedTracked | api_webhook.py:153-156 | appending cancels the user's pending task and tracks exactly the new one |
| Debounce.FiredTracked | api_webhook.py:163-167 | waking a task keeps the other pending tasks tracked |
| Debounce.PoppedTracked | api_webhook.py:142 | a reset keeps the tasks tracked exactly when the user had no task; otherwise its batch task stays pending with no entry |
| Debounce.FiredTakesBuffer | api_webhook.py:159-170 | a pending task takes exactly the buffer's fragments and token and leaves it empty; a cancelled one changes nothing |
| Debounce.AppendedStep | api_webhook.py:149-156 | one fragment is appended with its token; a fresh task is pending for the user, the stored one is cancelled, and other buffers are unchanged |
| Debounce.AppendAllBurst | api_webhook.py:149-156 | after a burst the buffer holds the old fragments and the burst in order, with the newest token and task; the earlier tasks of the burst were cancelled |
| Debounce.BurstThenFire | api_webhook.py:149-170 | only the newest task of a burst delivers, and it delivers the whole burst with the newest token |
| Debounce.ResetLeavesOrphanTask | api_webhook.py:142 | after "a", a reset and "b", the first task delivers "b" early and the second wakes to an empty buffer |
| Webhook.ResetHandled | api_webhook.py:132-143 | the sentinel deletes the history and sends the confirmation; no indicator is shown; the entry is dropped if the reply went through; no task is cancelled |
| Webhook.FragmentHandled | api_webhook.py:144-156 | the text is appended, its token becomes the newest and a fresh task replaces the cancelled one; the indicator is shown exactly when no task was pending |
| Webhook.HandleAllAppends | api_webhook.py:144-156 | a burst without the sentinel only appends |
| Webhook.BurstAnsweredOnce | api_webhook.py:149-185 | the newest task of a burst runs the pipeline on the burst's texts joined by spaces, with the newest token |
| Webhook.BurstEarlierTasksIdle | api_webhook.py:153-156 | the earlier tasks of a burst wake up to nothing |
| Webhook.CancelledTaskIdle | api_webhook.py:169-170 | a cancelled task ends without effect |
| Webhook.WokenTaskRuns | api_webhook.py:163-167 | a task that takes a batch runs the pipeline on exactly that batch |
| Webhook.WebhookHandler.constructor | api_webhook.py:49-76 | the handler starts with no buffers and no tasks, and its FAQ table is `FaqCachedAnswers` of the two promotion settings |
| Webhook.WebhookHandler.HandleMessage | api_webhook.py:126-156 | the handler class performs `HandleMessageStep` on its buffer table and on the collection |
| Webhook.WebhookHandler.ProcessMessageBatch | api_webhook.py:159-172 | the handler class performs `ProcessMessageBatchStep` |
| Webhook.WebhookHandler.RunRagPipeline | api_webhook.py:175-276 | the imperative pipeline issues the effects and leaves the collection of `Pipeline.RunRagPipeline` |
| Webhook.WebhookHandler.AnswerQuery | api_webhook.py:224-273 | retrieval, answer and delivery as `Pipeline.Answering` |
| Webhook.WebhookHandler.RetrieveContext | api_webhook.py:225-249 | the `if`/`elif` chain gives the retrieval, history and stored label of `PlanRoute` |
| Webhook.WebhookHandler.Deliver | api_webhook.py:256-271 | the reply, then the two saves with the final label |
| Legacy.SummarizeIdentityBelowBudget | INSURANCE_PROD_LINE_API.py:112-115 | at or below 2000 characters the history text comes back unchanged and nothing is written; nothing is written only then |
| Legacy.CompactionLeavesOneSummary | INSURANCE_PROD_LINE_API.py:127-131 | above the budget the user's records are replaced by the one summary record |
| Legacy.LegacyPlanRoute | INSURANCE_PROD_LINE_API.py:260-268 | only SERVICE and PRODUCT search, each its own index, two results; the history is dropped for every label except those two and the continuation |
| Legacy.LegacyResetClearsHistory | INSURANCE_PROD_LINE_API.py:247-257 | RESET deletes every record of the user, replies with the confirmation and saves nothing |
| Legacy.LegacyRoutedRun | INSURANCE_PROD_LINE_API.py:260-272 | SERVICE and PRODUCT search their own index for two results on the query, and the answerer gets those results rendered as its context; every other label answers on an empty context; the history follows the table; a run that delivers nothing saves nothing |
| Legacy.LegacyAnsweringRetrieves | INSURANCE_PROD_LINE_API.py:260-270 | the first effect is the table's search on the query, and the answerer call carries its rendered results; a raising search ends the effects there |
| Legacy.LegacyDeliveredRun | INSURANCE_PROD_LINE_API.py:272-283 | a delivered answer is followed by the query record and the answer record, with one timestamp and no label |
| Legacy.SummarizeText | INSURANCE_PROD_LINE_API.py:112-131 | identity at or below the budget; above it, delete, then save the summary |
| Legacy.LegacySaveChatHistory | INSURANCE_PROD_LINE_API.py:156-162 | one record without a label |
| Legacy.GetChatHistory | INSURANCE_PROD_LINE_API.py:164-173 | the ten newest records as lines, then `summarize_text` |
| Legacy.RetrieveLegacyContext | INSURANCE_PROD_LINE_API.py:83-110 | the formatted results joined by blank lines |
| Legacy.LegacyHandleMessage | INSURANCE_PROD_LINE_API.py:238-283 | the method performs `LegacyHandleMessageStep` on the collection |
| Legacy.HandleClassified | INSURANCE_PROD_LINE_API.py:244-257 | classification and the RESET branch |
| Legacy.AnswerLegacy | INSURANCE_PROD_LINE_API.py:260-283 | the routing chain, the answer, the reply and the two saves |

## Left out

- Asyncio timing and concurrency (`asyncio.sleep`, `run_coroutine_threadsafe`,
  the thread pool). Handler calls are atomic steps in any order the caller picks.
  A task wakes up only when `ProcessMessageBatch` is called with its id, and
  the fixed window length is not modelled.
- The LINE transport: the webhook endpoint, signature checks, and the
  loading-indicator HTTP request (only the `LoadingIndicator` effect is kept).
  The reply call is reduced to whether it went through.
- `FAQ_QUICK_REPLY` and `FAQ_BUTTON_META` are display data only.
- Clock readings and time zones are `int` parameters. Records are assumed to be
  inserted in timestamp order, so "newest by timestamp" means "last inserted".
  The current handler reads the clock once per record, so its records do not tie.
- The current handler builds coroutine objects for three searches beside the
  classifier, but `_to_thread` is an `async def` (api_webhook.py:85-88), so a
  search runs only when its coroutine is awaited. Only the awaited search is an
  effect; the other coroutines never run.
- `get_search_results` and `summarize_context` are imported by `api_webhook.py`
  but are not defined in `utils/rag_func.py`. They are not part of this model,
  so they appear only as the uninterpreted `search` and `condense`.
- Embeddings, prompts, model parameters, and the search client setup. Search
  results in the current handler are the context text itself.
- `utils/clients.py` (client construction) and `utils/cache.py` (entirely
  commented out) are not part of this model.
- Database failures: collection operations always succeed.
- Text.UpperChar: maps only the ASCII letters, not the other cased letters of
  `str.upper()`. Non-ASCII letters such as `ſ` (`"reſet"` upper-cases to
  `"RESET"`) can upper-case to text that names a label, and those cases are not captured. Every label name is ASCII.
- Formatting: the field values of a search result are strings. The `str()`
  rendering of other value types is not modelled.
- Legacy.GetChatHistory: the older handler stamps both records of a turn with one
  clock reading (INSURANCE_PROD_LINE_API.py:281-283), and the query sorts on the
  timestamp alone (INSURANCE_PROD_LINE_API.py:165-170). MongoDB returns tied
  records in no guaranteed order, so the order of a pair in the history text, and
  which half of a pair the ten-record cut keeps, is unspecified. The model takes
  insertion order; `Legacy.LegacyHandleMessage` inherits this choice.
- Legacy: an exception anywhere in the older handler propagates out of it. The
  model ends the handler at that call, as in the current pipeline.
