# webex-assistant: the gateway client and chat-command logic, in Dafny

This project models the decision logic of a Webex chat bot that forwards
prompts to a LiteLLM model gateway. It has three parts:

- **Nested-key lookup** (`get_value`, `utility.dfy`). A JSON-like value is the
  datatype `Json.Json`. Python's `operator.getitem` is `Json.GetItem`. Dict keys
  are strings. List and string indices may be negative and count from the end.
  `None` stands for every `KeyError`, `IndexError` and `TypeError`.
  `Utility.Lookup` is `reduce(operator.getitem, keys, d)` with an early abort.
  `Utility.GetValue` is the Python result, where a failure and a JSON `null`
  are both `None`. Lookup only reads its input: Dafny values cannot be
  mutated.
- **LiteLLM client** (`lite_llm.dfy`). `LiteLLM.__init__` becomes the value
  `NewClient(url, key)`. Each HTTP exchange is an input
  `Response = TransportError | Http(status, body)`, where a `None` body means
  that `res.json()` raised. `raise_for_status` raises exactly for statuses
  400 to 599. Every method is a function of its responses. `get_model_info` and
  `get_ollama_model_info` also return the requests they issued, so "no POST is
  made" can be stated and proved.
- **The `/chat` command** (`llm_chat.dfy`). The module globals `llm_model` and
  `TEMPERATURE` are the class `ChatConfig`. `ChatCallback.Execute` overwrites
  them from a submitted card. `ChatCommand` holds the `session_histories` map
  that its constructor seeds. Its `Execute` is the guard chain and
  `ShowConfigCard` builds the card's model choices with the source's append
  loop. Both methods are proved equal to the specification functions
  `ExecuteOutcome` and `CardOutcome`. The gateway responses and the LangChain
  result are inputs. Each outcome lists the gateway requests and the chain
  call it made, in order.

Three behaviours of the code shape the model:

- Only `is_reachable` insists on status 200. The data calls use
  `raise_for_status`, which lets every status below 400, and from 600 up,
  through, so `RaisesForStatus` is `400 <= status < 600`.
- `TEMPERATURE` starts as the float `0.5`, becomes whatever string a card
  submits, and is never parsed. It is modelled as a string, starting at
  `"0.5"`.
- One `data` entry without an `id` empties the whole model list, not just that
  entry.

## Model

| member | source | states |
|---|---|---|
| Utility.Lookup | src/utility.py:6-11 | the fold returns the input for an empty path, aborts when the first key cannot be applied, and otherwise continues from the value reached; the step-by-step reading is proved equal by `GetValueReaches` |
| Utility.GetValue | src/utility.py:6-11 | `get_value` returns the value the lookup reaches, and `None` whenever any step raises; its properties are proved by the lemmas below |
| Utility.GetValueEmptyPath | src/utility.py:9 | with no keys, `reduce` returns its initial value: the input itself |
| Utility.LookupAppend | src/utility.py:8-11 | looking up `p + q` is looking up `p`, then `q` from the value reached; a failed `p` fails the whole path |
| Utility.GetValueCons | src/utility.py:9 | `get_value(d, [k] + ks) == get_value(d[k], ks)` whenever `d[k]` exists |
| Utility.GetValueTwoSteps | src/utility.py:9 | a path made of two parts can be looked up in two steps |
| Utility.LookupFailureAbsorbs | src/utility.py:8-11 | once a lookup fails, every extension of the path fails |
| Utility.GetValueNoneAbsorbs | src/utility.py:8-11 | if `get_value(d, p)` is `None`, then `get_value(d, p + q)` is `None` for every non-empty `q` (subscripting `None` raises) |
| Utility.WalkGivesLookup | src/utility.py:9 | if every key along the path is present, the result is the value reached by indexing step by step in order |
| Utility.LookupGivesWalk | src/utility.py:9 | a successful lookup comes from such a step-by-step walk |
| Utility.GetValueReaches | src/utility.py:9 | the lookup reaches `v` if and only if a step-by-step walk ends at `v` |
| Utility.GetValueStepFails | src/utility.py:8-11 | a missing key, or an intermediate value that cannot be indexed, gives `None` without raising, whatever keys follow |
| Json.GetItem | src/utility.py:9 | `operator.getitem` succeeds only on dicts, lists and strings; on a dict with a string key it gives the key's value exactly when the key is present; on a list it gives the item at Python's index (negative indices count from the end) and raises out of range; on a string it gives the one-character string at that index |
| Json.DictGet | src/commands/lite_llm.py:40 | `.get(key, default)` works exactly on dicts, gives the key's value when it is present and the default when it is missing |
| Json.Truthy | src/commands/lite_llm.py:112 | the `if not ...` tests (also at lite_llm.py:65 and llm_chat.py:63, 205, 209) treat exactly `None`, `False`, `0`, `""`, `[]` and `{}` as false |
| LiteLlm.RStripSlashes | src/commands/lite_llm.py:12 | `rstrip("/")` gives a prefix of the URL that does not end with `/`, and everything it cut off is `/` |
| LiteLlm.RStripSlashesUnique | src/commands/lite_llm.py:12 | that description fits only one string: the URL with all its trailing slashes removed |
| LiteLlm.RStripSlashesIdempotent | src/commands/lite_llm.py:12 | normalising twice is the same as normalising once |
| LiteLlm.NewClient | src/commands/lite_llm.py:10-17 | `base_url` is the URL without trailing slashes; the headers are exactly `Content-Type: application/json` and `Authorization: Bearer <key>` |
| LiteLlm.DataRequestsAuthorized | src/commands/lite_llm.py:14-17 | `/models` and `/model/info` are fetched below the normalised base URL with the bearer header; the reachability GET carries no headers |
| LiteLlm.RaisesForStatus | src/commands/lite_llm.py:38 | `raise_for_status` lets every status below 400, and from 600 up, through; a 200 never raises |
| LiteLlm.Payload | src/commands/lite_llm.py:37-39 | the decoded body is used if and only if the exchange succeeded and `raise_for_status` did not raise; it is then exactly the body |
| LiteLlm.DataOf | src/commands/lite_llm.py:39-40 | when the payload is a dict with a `data` key, the result is that key's value; a result exists only for a dict payload |
| LiteLlm.IsReachable | src/commands/lite_llm.py:20-30 | `is_reachable` is true if and only if the gateway answered over HTTP with status 200; other statuses and transport errors give false; a reachable answer also passes `raise_for_status` |
| LiteLlm.CollectIds | src/commands/lite_llm.py:41 | the list comprehension succeeds if and only if every entry has an `id`, and then gives each entry's `id` in order |
| LiteLlm.ListModels | src/commands/lite_llm.py:33-45 | a non-empty list is the ids of the `data` array in response order; whenever every entry has an `id`, the list is exactly those ids; everything else gives `[]` |
| LiteLlm.MissingIdVoidsList | src/commands/lite_llm.py:41-45 | one entry without an `id` empties the whole list, not just that entry |
| LiteLlm.IsAvailable | src/commands/lite_llm.py:48-51 | a model is available only when the listing fetch passed the status check, `data` is an array, and some entry's `id` is the name; `IsAvailableIff` gives the converse |
| LiteLlm.IsAvailableIff | src/commands/lite_llm.py:48-51 | `is_available(name)` holds if and only if the listing is well formed and some entry's `id` is `name` |
| LiteLlm.UnavailableWhenFetchFails | src/commands/lite_llm.py:51 | a failed list fetch makes every model unavailable |
| LiteLlm.FindModel | src/commands/lite_llm.py:64 | the `next(...)` scan finds the first entry whose `model_name` is the name, with every earlier entry named otherwise; it reports no match only when every entry is named otherwise; it raises at the first earlier entry that has no `model_name` |
| LiteLlm.FirstMatchFound | src/commands/lite_llm.py:64 | the first entry with the name, preceded only by entries with other names, is the one the scan returns |
| LiteLlm.FirstUnnamedRaises | src/commands/lite_llm.py:64 | an entry without `model_name`, preceded only by entries named otherwise, makes the scan raise |
| LiteLlm.ScanData | src/commands/lite_llm.py:62-64 | only a `data` array can yield a match; dicts, strings and scalars give no match or raise |
| LiteLlm.RemovePrefix | src/commands/lite_llm.py:115 | `removeprefix` removes exactly one leading copy of the prefix, and leaves other names unchanged |
| LiteLlm.OllamaModelInfo | src/commands/lite_llm.py:109-124 | at most one POST is made, and it sends the name without its one `ollama/` prefix; with no POST the answer is `{}` |
| LiteLlm.OllamaWithoutApiBase | src/commands/lite_llm.py:111-113 | when `api_base` is missing or empty, the answer is `{}` and no POST is made |
| LiteLlm.OllamaWithApiBase | src/commands/lite_llm.py:115-124 | otherwise exactly one POST is made, and the answer is the response's `model_info`, or `{}` when that field is missing or the request fails |
| LiteLlm.GetModelInfo | src/commands/lite_llm.py:54-78 | the `/model/info` GET always comes first, and a second request happens only for an `ollama/` name |
| LiteLlm.GetModelInfoNoMatch | src/commands/lite_llm.py:62-66 | no entry with the name (or a failed fetch) gives `{}`, with no further request |
| LiteLlm.GetModelInfoUnnamedEntry | src/commands/lite_llm.py:64-78 | an entry without `model_name` ahead of every entry with the name makes the scan raise, and the handler answers `{}` after the single GET |
| LiteLlm.GetModelInfoFirstMatch | src/commands/lite_llm.py:64-74 | the first matching entry decides: an `ollama/` name delegates with that entry's `litellm_params`; any other name gets the entry's `model_info`, defaulting to `{}` |
| LlmChat.IsSpace | src/commands/llm_chat.py:61 | the characters `str.strip()` removes include space, tab, newline and carriage return, and exclude letters and digits |
| LlmChat.StripLeading | src/commands/llm_chat.py:61 | the left strip is a suffix of the input, all of whose removed characters are whitespace, and it does not start with whitespace |
| LlmChat.StripTrailing | src/commands/llm_chat.py:61 | the right strip is a prefix of the input, all of whose removed characters are whitespace, and it does not end with whitespace |
| LlmChat.Strip | src/commands/llm_chat.py:61 | the stripped prompt is a slice `prompt[i:j]` such that every character before `i` and from `j` on is whitespace, and it neither starts nor ends with whitespace |
| LlmChat.StripEmptyIff | src/commands/llm_chat.py:61-64 | a prompt strips to empty if and only if it is empty or all whitespace |
| LlmChat.ModelChoices | src/commands/llm_chat.py:138-140 | one choice per listed model, in list order, titled and valued by its id |
| LlmChat.DefaultSelection | src/commands/llm_chat.py:142 | the default is the configured model if it is listed, else `""` |
| LlmChat.CardOutcome | src/commands/llm_chat.py:112-186 | the card first checks reachability, makes at most the two gateway requests and never calls the chain; its contents are stated by `CardOutcomeShape` and `CardListsModels` |
| LlmChat.AnswerOutcome | src/commands/llm_chat.py:78-109 | a question first checks reachability and makes at most three actions; an exception reaches the framework only after the chain is invoked; the guard order is stated by `AnswerOutcomeShape` |
| LlmChat.ExecuteOutcome | src/commands/llm_chat.py:59-109 | every prompt first checks reachability, and at most three actions follow; the branches are stated by `BlankPromptShowsCard`, `UnreachableWarns`, `UnavailableWarns` and `ChainOnlyAfterGuards` |
| LlmChat.CardOutcomeShape | src/commands/llm_chat.py:132-134 | the card branch never invokes the chain; an unreachable gateway yields the warning instead of the card |
| LlmChat.CardListsModels | src/commands/llm_chat.py:132-173 | a reachable gateway yields the card: its model choices are exactly `ModelChoices` of the listed ids (one per model, in list order), the configured model is preselected only if listed, and its temperature choices are exactly the five fixed ones, with the current temperature preselected |
| LlmChat.BlankPromptShowsCard | src/commands/llm_chat.py:61-64 | an empty or whitespace-only prompt always takes the config-card branch and never reaches the chain |
| LlmChat.UnreachableWarns | src/commands/llm_chat.py:78-80 | for an unreachable gateway the warning contains the gateway URL, and the only action is the reachability check (no availability check, no chain call) |
| LlmChat.UnavailableWarns | src/commands/llm_chat.py:82-83 | for a reachable gateway that does not list the configured model, the warning names that model and the chain is not invoked |
| LlmChat.AnswerOutcomeShape | src/commands/llm_chat.py:78-109 | for a non-blank question the chain is invoked if and only if both checks pass; it is then the third and last action, and an AIMessage result is returned as its content |
| LlmChat.ChainOnlyAfterGuards | src/commands/llm_chat.py:59-109 | over all prompts, the chain is invoked if and only if the prompt is not blank, the gateway is reachable and the model is listed; it receives the configured model and temperature, the stripped prompt and the session's history |
| LlmChat.Overwrite | src/commands/llm_chat.py:204-210 | a submitted field replaces the setting only when it is present and non-empty; otherwise the setting is unchanged |
| LlmChat.OverwriteIdempotent | src/commands/llm_chat.py:204-210 | submitting the same form twice has the same effect as submitting it once |
| LlmChat.ConfirmationEchoes | src/commands/llm_chat.py:212 | the confirmation names both the model and the temperature |
| LlmChat.ChatConfig.constructor | src/commands/llm_chat.py:25-27 | the configuration starts as model `gpt-4o`, temperature `"0.5"` |
| LlmChat.ChatCallback.constructor | src/commands/llm_chat.py:191-194 | the callback acts on the same configuration as the command |
| LlmChat.ChatCallback.Execute | src/commands/llm_chat.py:197-212 | `llm_model` and `TEMPERATURE` are each overwritten only by a present, non-empty submitted value, with no range or type check; the reply echoes the resulting model and temperature |
| LlmChat.ChatCommand.constructor | src/commands/llm_chat.py:32-45 | `session_histories` holds exactly one key, `session_id`, mapped to an empty history; the callback shares the command's configuration |
| LlmChat.ChatCommand.ShowConfigCard | src/commands/llm_chat.py:112-186 | the append loop builds exactly the specified model choices; the card is the one `CardOutcome` describes |
| LlmChat.ChatCommand.Execute | src/commands/llm_chat.py:59-109 | `execute` with the configuration as it stands behaves as `ExecuteOutcome` describes; the history lookup always succeeds because the constructor seeded it |

## Left out

- HTTP transport: `requests.get`/`post`, the 3 s and 10 s timeouts, JSON decoding and the `print` diagnostics are I/O. Each exchange is an input `Response`.
- LangChain: `ChatOpenAI`, the prompt template, the fixed system context text and `RunnableWithMessageHistory` are foreign code. The chain's result is an input (`AiMessage`, some other value, or an exception). The history appends the library performs are not modelled, so `ChatCommand.Execute` leaves `sessionHistories` unchanged. `ChatOpenAI` takes its API key from the environment, which is not modelled.
- Webex card layout (text blocks, columns, submit action) and `response_from_adaptive_card`: only the two choice sets and their defaults are kept. The `formatting` and `models` modules are not part of this model: `quote_info` and `quote_warning` are the `Info` and `Warning` replies, and an exception left to the bot framework is `Unhandled`.
- `src/start.py` and the module-level `load_dotenv()` calls only set things up and hold no logic.
- Floating point: JSON numbers are integers (`JNum`), so a float `0.0` is not modelled as falsy. The temperature is an opaque string.
- Concurrency: the globals and `session_histories` are shared without locks. Execution is assumed single-threaded, and interleavings are not modelled.
- Python subscript quirks outside JSON: bools used as list indices, non-string dict keys and custom objects.
- Dict iteration order: a JSON object is a `map`. The order of its keys never changes a result here, because iterating a non-empty dict in `list_models` or `get_model_info` raises on its first key.
- The target of the POST: `PostShow` keeps `api_base` as the JSON value. The URL `f"{api_base}/api/show"` is not built as a string, because `str()` of a non-string JSON value is not modelled.
- The default argument `session_id="default"` of `LLM_Chat_Command.__init__` (src/commands/llm_chat.py:32): Dafny has no default arguments, so the constructor always takes a session id.
- `log.info` in `execute` (src/commands/llm_chat.py:66) only writes to the log.
- `LiteLLM.get_model_info` is not called by the chat command, so it is modelled only on its own.
