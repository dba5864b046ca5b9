# DuckDuckGo chat adapter — Dafny model

This project models the core of `llm_duckduckgo_chat.py`. That file is a plugin
that lets the `llm` framework talk to DuckDuckGo's chat HTTP API. Once the
network and the JSON parser are abstracted, four pieces of logic remain, and
each is modelled here:

- **Message builder** (`DuckChatModel.build_messages`). The method
  `DuckChatModels.DuckChatModel.BuildMessages` builds the list with a loop, as
  the source does. It is proved against `MessagesFor`. Without a conversation,
  the result is one user message, with a truthy system text glued on after
  exactly one space. With a conversation, each prior response becomes a
  user/assistant pair, in order, and the prompt comes last.
- **Token slot and fetch** (`DuckChat.fetch_vqd` and the class attribute
  `_vqd_cache`). The class `DuckChatClient.DuckChat` has one field, `vqdCache`.
  A single object of that class stands for the process-wide attribute.
  `FetchVqd` returns the slot when it is truthy and issues no request.
  Otherwise it dispatches on the status of the status endpoint's reply: 200
  stores and returns the `x-vqd-4` header, 429 raises `RateLimitError`, and
  anything else raises a plain error. The function `FetchEach` runs many calls
  in a row; its lemmas state the populate-once behaviour of the slot.
- **Chat status check** (`DuckChat.fetch_response`). `ChatRequest` builds the
  POST with payload `{model, messages}` and the token header. `FetchResponse`
  passes a 200 reply through unchanged. Every other status, 429 included,
  becomes `Failed to send message: <status> <body>`.
- **Stream decoder** (`DuckChat.process_stream`). `ProcessStream` is a loop
  with `break`. It is proved against `Decode`, which collects the non-empty
  `message` values of `data: ` lines before the first `data: [DONE]` line. The
  method also reports how many lines it read, which shows that nothing after
  the sentinel is consumed.
- **Turn driver** (`DuckChatModel.execute`). `Execute` changes the token slot
  and the prompt's `options.vqd`. It is proved equal to `TurnSpec`, which
  composes the pieces above.

Lemmas about `TurnSpec` cover five behaviours:

- how the token is selected;
- how errors are wrapped into phase-named `RuntimeError`s;
- how the refreshed token is written back;
- that batch mode is the concatenation of stream mode;
- that the token is handed from one turn to the next.

The network is replaced by abstract replies (`HttpResponse`: status, headers,
body text, body lines). These are the answers the endpoints would give if
asked. The requests the adapter would issue are returned as `HttpRequest`
values. The JSON parser is a function parameter `parse` from the payload text
to `ParseFailure` or an object with an optional `message`. Exceptions are the
`Error` datatype, one constructor per Python exception type the code raises.
The exception's `message` is what `str(e)` gives.

The code lacks some behaviours a reader might expect, and the model follows the code:

- A 429 on the chat endpoint is a plain error, not a `RateLimitError`.
- There is no token-hash header.
- There is no fallback fetch when the last prior response has no token.
- `execute` wraps a `RateLimitError` from the token fetch into a
  `RuntimeError`. So at the turn boundary, a rate limit is told apart from
  other failures only by the message text.
- A conversation that is present but has no responses goes down the
  conversation path. There, `responses[-1]` raises `IndexError` before any
  request is sent. The framework's conversation object defines no truthiness
  of its own, so any conversation that is present counts as true. The model
  keeps this behaviour (`EmptyConversationRaises`).
- The token slot is never refreshed from a chat reply's `x-vqd-4` header.
  Only the prompt's `options.vqd` is written (`FreshTurnUsesFetchedToken`).

## Model

| member | source | states |
|---|---|---|
| `DuckChatModels.DuckChatModel.BuildMessages` | llm_duckduckgo_chat.py:88-102 | the list the loop builds is `MessagesFor` of the prompt text, the system text and the conversation |
| `DuckChatModels.MessagesForShape` | llm_duckduckgo_chat.py:89-102 | no conversation: exactly one user message, the prompt, or the prompt + " " + system text when that is truthy; conversation of N: 2N+1 messages, user(prompt)/assistant(text) per prior response in order, then user(prompt); the system text is ignored on that path |
| `DuckChatModels.UnrollShape` | llm_duckduckgo_chat.py:98-100 | the prior responses unroll to 2N messages, position 2i the user prompt and 2i+1 the assistant text of response i |
| `DuckChatClient.DuckChat.constructor` | llm_duckduckgo_chat.py:113 | the process-wide slot starts out empty (None) |
| `DuckChatClient.DuckChat.FetchVqd` | llm_duckduckgo_chat.py:115-128 | result, new slot and issued request are those of `FetchVqdSpec` on the old slot |
| `DuckChatClient.FetchVqdSpec` | llm_duckduckgo_chat.py:117-128 | a request (the status GET) goes out iff the slot is falsy; a truthy slot is returned as is; otherwise success iff status 200, and the token is the x-vqd-4 header (None if absent) and becomes the slot; failures leave the slot unchanged, are a RateLimitError iff status 429 (with the "Too many requests" text), else a plain error with status and body |
| `DuckChatClient.WarmCacheServesEveryCall` | llm_duckduckgo_chat.py:117-118 | with a truthy slot, any number of calls issue no request, keep the slot and all return it |
| `DuckChatClient.TokenStableOnceTruthy` | llm_duckduckgo_chat.py:117-124 | once a call returns a truthy token, every later call returns the same token |
| `DuckChatClient.CacheComesFromReplies` | llm_duckduckgo_chat.py:122-128 | after any run of calls the slot holds its initial value or the x-vqd-4 header of some 200 reply |
| `DuckChatClient.StatusRequest` | llm_duckduckgo_chat.py:119-121 | the token fetch is a GET to the status endpoint whose only header is `x-vqd-accept: 1` |
| `DuckChatClient.ChatHeaders` | llm_duckduckgo_chat.py:133-137 | the chat headers carry `x-vqd-4` exactly when a token is present, with that token as value, plus `Content-Type: application/json` and `Accept: text/event-stream`, and nothing else |
| `DuckChatClient.ChatRequest` | llm_duckduckgo_chat.py:131-138 | the chat request is a POST to the given URL whose JSON payload is `{model, messages}` and whose headers are exactly those above: `x-vqd-4` iff a token is present, the two fixed headers, no other key |
| `DuckChatClient.DuckChat.FetchResponse` | llm_duckduckgo_chat.py:140-142 | success iff status 200, and then the reply is returned unchanged; any other status, 429 included, is a plain (non rate-limit) error "Failed to send message: <status> <body>" |
| `DuckChatClient.FirstDone` | llm_duckduckgo_chat.py:146-150 | the index of the first `data: [DONE]` line, or the number of lines when there is none |
| `DuckChatClient.DuckChat.ProcessStream` | llm_duckduckgo_chat.py:144-158 | the fragments are `Decode` of the lines, and the lines read are those up to and including the first sentinel (all lines when there is none) |
| `DuckChatClient.CollectAppend` | llm_duckduckgo_chat.py:146-158 | the lines are decoded independently of each other: decoding a concatenation is the concatenation of the decodings |
| `DuckChatClient.CollectMembers` | llm_duckduckgo_chat.py:151-156 | a string is among the fragments of sentinel-free lines iff some line yields exactly it |
| `DuckChatClient.DecodeMembers` | llm_duckduckgo_chat.py:146-156 | a string is a decoded fragment iff it is the non-empty `message` of a `data: ` line that parses, before the first sentinel; no fragment is empty |
| `DuckChatClient.DecodeStopsAtDone` | llm_duckduckgo_chat.py:149-150 | whatever follows the first sentinel line has no effect on the output |
| `DuckChatClient.DecodeSkipsLine` | llm_duckduckgo_chat.py:147-158 | an empty line, a line without the `data: ` prefix, a payload that fails to parse, or an object whose message is missing or "" yields nothing and decoding goes on with the next line |
| `DuckChatClient.DecodePrefix` | llm_duckduckgo_chat.py:145-158 | decoding the first n lines yields a prefix of decoding all of them: fragments come out as lines arrive and are never retracted |
| `DuckChatClient.DecoderExample` | llm_duckduckgo_chat.py:146-156 | the stream A, B, `data: [DONE]`, C decodes to exactly A, B whatever C's payload parses to |
| `DuckChatModels.ConcatAppend` | llm_duckduckgo_chat.py:82-84 | the batch accumulation distributes over concatenation of fragment lists |
| `DuckChatModels.DuckChatModel.Execute` | llm_duckduckgo_chat.py:49-85 | output or raised error, requests issued, new token slot and new `options.vqd` of the prompt are those of `TurnSpec` |
| `DuckChatModels.ConversationReusesRecordedToken` | llm_duckduckgo_chat.py:56-70 | with a non-empty conversation the slot is untouched and the only request is the chat POST carrying the last prior response's recorded token and the built messages (no status request) |
| `DuckChatModels.FreshTurnUsesFetchedToken` | llm_duckduckgo_chat.py:58-76 | without a conversation the slot afterwards is what `fetch_vqd` left (the chat reply's header never reaches it), and when the fetch succeeds the requests are the fetch's own request, if any, followed by the chat POST carrying the fetched token and the built messages |
| `DuckChatModels.WarmTurnSendsCachedToken` | llm_duckduckgo_chat.py:58-70 | with a truthy slot and no conversation the slot is unchanged and the only request is the chat POST, whose `x-vqd-4` is the cached token |
| `DuckChatModels.EmptyConversationRaises` | llm_duckduckgo_chat.py:56-57 | a present but empty conversation raises IndexError, sends nothing and changes nothing |
| `DuckChatModels.FetchFailureIsWrapped` | llm_duckduckgo_chat.py:58-62 | without a conversation and with a falsy slot, a non-200 status reply makes the turn raise RuntimeError "Failed to fetch vqd: " + the rate-limit text (429) or the status/body text, after only the status GET, with slot and prompt token unchanged |
| `DuckChatModels.ChatFailureIsWrapped` | llm_duckduckgo_chat.py:64-72 | with a token in hand, a non-200 chat reply (429 included) makes the turn raise RuntimeError "Error during chat: Failed to send message: <status> <body>" and leaves the prompt token unchanged |
| `DuckChatModels.TurnOutcome` | llm_duckduckgo_chat.py:56-76 | a turn succeeds iff a token was obtained and the chat reply is 200; on success the prompt's `options.vqd` becomes the reply's x-vqd-4 header or "" when absent; on failure it is unchanged |
| `DuckChatModels.BatchIsConcatenatedStream` | llm_duckduckgo_chat.py:78-85 | stream and batch turns issue the same requests and leave the same state; stream yields the decoded fragments one by one, batch yields exactly one string, their in-order separator-free concatenation |
| `DuckChatModels.NextTurnReusesToken` | llm_duckduckgo_chat.py:56-76 | after a successful first turn, any next turn (whatever its text, system text and own recorded token) whose last prior response carries the recorded token sends exactly that token in its only request and leaves the slot alone |
| `DuckChatModels.TestStreamDecodes` | tests/test_llm_duckduckgo_chat.py:22-25 | the test's stream of one data line and the sentinel decodes to its one message |
| `DuckChatModels.BatchTurnExample` | tests/test_llm_duckduckgo_chat.py:11-34 | the test's batch turn yields "I am fine." and records "new_vqd" on the prompt |

## Left out

- HTTP traffic is not modelled. This covers `requests.get`, `requests.post` with `stream=True`, connection lifetime and transport exceptions such as connection errors and timeouts. Replies are abstract values. Requests are returned as values and are never performed.
- Header lookup is case-sensitive in the model. The HTTP client's header dictionary ignores case; the model uses a plain map with the exact key `x-vqd-4`.
- A token of None sent on the chat request is modelled as an absent `x-vqd-4` header. This is how the HTTP client treats None-valued headers.
- JSON parsing and UTF-8 decoding are not modelled. Lines arrive already decoded, and `parse` is an uninterpreted oracle.
- A JSON payload that is not an object is not modelled. In the source, `data.get` then fails in a way that depends on library internals.
- A `message` member that is not a string is not modelled, because the model types `message` as a string. In the source, a truthy non-string would be yielded, and batch mode would then fail on `+=`.
- Generator laziness is not modelled. `execute` and `process_stream` are generators, and nothing runs until the consumer pulls. The model runs a turn to completion. `DecodePrefix` states the incremental view of the decoder.
- A consumer that stops pulling early is not modelled.
- Plugin wiring is left out: `register_commands`, `register_models`, the `Options` class, `__init__`, `__str__` and the `MODELS` alias table. These are framework registration and configuration.
- The `response._prompt_json` bookkeeping is left out. It is a side channel of the framework.
- Concurrency is left out. The source never locks the shared slot, and the model has a single flow of control.
