# Lani Bot study assistant — a verified model of its request and streaming logic

Lani Bot is a study assistant for the cadets of Detachment 175. A React
frontend lets a cadet pick the Leadership Laboratory lessons (LLABs 1 to 12) to study and a
quiz mode, then chat. A Flask backend checks each chat request and relays the
model provider's streamed answer to the browser as server-sent events (the
`data:` field of section 9.2 of the WHATWG HTML Living Standard, in a
simplified form). The backend also serves questions from a static bank.

This project models that logic in Dafny and proves what it promises:

| file | module | models |
|---|---|---|
| `text.dfy` | `Text` | `split`/`join` on one character, `startsWith`, JavaScript `trim` and Python `strip`, and decimal rendering |
| `results.dfy` | `Results` | `Option` and `Result` |
| `stream_client.dfy` | `StreamClient` | `getTurnstileToken` and `sendChatMessage` in frontend/src/lib/api.ts: the chunk buffer, line split, line classification and terminal handling |
| `chat_interface.dfy` | `ChatInterface` | the conversation view in ChatInterface.tsx as a class `Chat`: the greeting, `handleSend` and its three callbacks |
| `llab_selector.dfy` | `LlabSelector` | the topic picker in LLABSelector.tsx: `toggleLLAB` as a pure function, and the component state as a class `Selector` |
| `rate_limit.dfy` | `RateLimit` | `check_rate_limit` in backend/app.py as a class `RateLimiter` over the per-IP map, plus a replay of many requests |
| `request_checks.dfy` | `RequestChecks` | `get_client_ip`, the skip rule of `verify_turnstile_token`, the `/chat` checks and the system-prompt prepend |
| `relay.dfy` | `Relay` | the line relay in `generate()`, plus the end-to-end link with the browser's reader |
| `static_questions.dfy` | `StaticQuestions` | `load_static_questions` and `/static-question` |
| `endpoints.dfy` | `Endpoints` | the two routes behind `rate_limit_required`, over the module-level state |

The main results are:

- **Chunk independence.** `ReadStream` emits the events of the concatenated
  text, however the body is cut into chunks.
- **One terminal event.** Every `SendChatMessage` ends in exactly one
  `Complete` or `Error`.
- **The relay is transparent.** `RelayToClient`: through the relay and the
  framing, the browser sees the events it would see reading the provider's
  lines directly.
- **Sliding-window bound.** `SlidingWindow`: with a non-decreasing clock, no
  window ever holds more than `limit` admitted requests from one client.
- **Toggle laws.** Toggling an LLAB flips only that LLAB, keeps the selection
  strictly ascending, and undoes itself.

The environment, the network, the clock, `JSON.parse` and `random.choice` are
parameters of the model. `parse` classifies a `data:` payload the way
`JSON.parse` and the field tests after it do. The Turnstile verification
service is a function `siteverify`. The provider's answer is an `Upstream`
value. The clock is an integer argument `now`. The random choice is an index
`pick`.

## Model

| member | source | states |
|---|---|---|
| Text.Split | frontend/src/lib/api.ts:78 | `split('\n')` gives at least one piece and no piece contains the separator |
| Text.SplitJoin | frontend/src/lib/api.ts:77-81 | splitting a join of separator-free pieces gives the pieces back |
| Text.JoinSplit | frontend/src/lib/api.ts:77-81 | joining the pieces of a split gives the text back, so lines plus buffer always reproduce the text received |
| Text.SplitAppend | frontend/src/lib/api.ts:77-81 | appending text never changes the lines already terminated; only the carried fragment is re-split |
| Text.SplitExtend | frontend/src/lib/api.ts:77-81 | splitting processed lines plus buffer plus a new chunk keeps the processed lines and re-splits buffer + chunk |
| Text.TrimSpec | frontend/src/lib/api.ts:87 | `trim`/`strip` keep a contiguous slice that neither starts nor ends with a space character and is surrounded only by space characters |
| Text.JoinWithContains | frontend/src/components/ChatInterface.tsx:32 | every item occurs in the list joined with `", "` |
| StreamClient.ClassifyLine | frontend/src/lib/api.ts:83-107 | a line ends the run only with a terminal event; it gives `Complete` iff it is a `data: ` line whose trimmed payload is `[DONE]`; it emits a chunk iff it is another `data: ` line whose payload parses to a non-empty delta, and the chunk is that content; it gives `Error(m)` iff the payload parses to an `error` field `m` |
| StreamClient.Run | frontend/src/lib/api.ts:83-109 | each complete line yields at most one event |
| StreamClient.RunShape | frontend/src/lib/api.ts:83-109 | every event is a `Chunk` except the last of a stopped run, which is its single terminal event |
| StreamClient.EndEvent | frontend/src/lib/api.ts:70-75 | the end of the body gives `Complete`, and nothing else does; a read that throws gives `Error` of its message (lines 111-114) |
| StreamClient.StreamEvents | frontend/src/lib/api.ts:69-114 | the events of a whole body are zero or more `Chunk`s then exactly one `Complete` or `Error`; a run that met a terminal line ends there, and otherwise the end of the body adds its event after the run's |
| StreamClient.RunConcat | frontend/src/lib/api.ts:83-109 | lines after a terminal line are never looked at; otherwise the events of two stretches concatenate |
| StreamClient.IgnoredLineInvisible | frontend/src/lib/api.ts:84-107 | a line that classifies as ignored can be removed without changing the run |
| StreamClient.NonDataLineInvisible | frontend/src/lib/api.ts:84-85 | a line without the `data: ` prefix produces no event and changes nothing |
| StreamClient.MalformedFrameInvisible | frontend/src/lib/api.ts:92-107 | a payload that does not parse is skipped and the lines after it are still processed |
| StreamClient.DeltaInPlace | frontend/src/lib/api.ts:100-103 | a non-empty delta gives exactly one `Chunk` of that content, in line order |
| StreamClient.DoneIsFinal | frontend/src/lib/api.ts:87-90 | the sentinel emits `Complete` and no later line is looked at |
| StreamClient.ErrorIsFinal | frontend/src/lib/api.ts:95-98 | an `error` field emits `Error(msg)` and stops; earlier chunks stay |
| StreamClient.TrailingFragmentIgnored | frontend/src/lib/api.ts:77-81 | a trailing fragment without `'\n'` is never parsed |
| StreamClient.ReadStream | frontend/src/lib/api.ts:69-110 | the read loop emits exactly `StreamEvents(Concat(chunks))`, so the events depend only on the text received, not on how it was chunked |
| StreamClient.TakeLines | frontend/src/lib/api.ts:78-81 | the popped buffer is the last piece of the split; the rest are the complete lines |
| StreamClient.HandleLines | frontend/src/lib/api.ts:83-109 | the `for` loop emits `Run(lines)` and reports whether it returned early |
| StreamClient.BufferStep | frontend/src/lib/api.ts:77-81 | the carry-over invariant for one chunk |
| StreamClient.RunStep | frontend/src/lib/api.ts:83-109 | one more line after a stretch that met no terminal line |
| StreamClient.ReturnAfterTerminal | frontend/src/lib/api.ts:87-98 | returning at a terminal line gives the events of the whole body |
| StreamClient.GetTurnstileToken | frontend/src/lib/api.ts:8-30 | `test-token` in development or without a site key; `Turnstile not initialized` iff the widget is missing; `Failed to get Turnstile token` iff its response is empty; otherwise the credential is the widget's response, never empty |
| StreamClient.OpenStream | frontend/src/lib/api.ts:41-64 | the credential, the status and the body are checked in this order; a non-OK response fails with the truthy `error` field as text, else `HTTP <status>`, or with the JSON failure's message; a missing body fails with `No response body`; the stream opens iff all three pass, and then it is the response's body |
| StreamClient.SendChatMessage | frontend/src/lib/api.ts:35-115 | any failure before the loop is exactly one `Error`; otherwise the events of the body; always exactly one terminal event |
| ChatInterface.LlabLabels | frontend/src/components/ChatInterface.tsx:32 | one label per selected LLAB |
| ChatInterface.Greeting | frontend/src/components/ChatInterface.tsx:29-35 | the greeting is an assistant turn naming every selected LLAB as `LLAB n` |
| ChatInterface.ApplyEvent | frontend/src/components/ChatInterface.tsx:68-93 | a chunk is appended to the in-flight turn, `Complete` leaves it, an error replaces it by the marker and the message |
| ChatInterface.ChunksAccumulate | frontend/src/components/ChatInterface.tsx:68-80 | while only chunks arrive, the in-flight turn is its old content followed by the chunks in order |
| ChatInterface.StreamOutcome | frontend/src/components/ChatInterface.tsx:68-93 | after `Complete` the turn holds all chunks in order; after `Error` it holds the marker and the message only |
| ChatInterface.Chat.constructor | frontend/src/components/ChatInterface.tsx:13-35 | the mounted view holds exactly the greeting, an empty input and both flags clear |
| ChatInterface.Chat.SetInput | frontend/src/components/ChatInterface.tsx:230 | only the input changes |
| ChatInterface.Chat.BeginSend | frontend/src/components/ChatInterface.tsx:37-59 | blank input or a send in flight changes nothing and sends nothing; otherwise it appends the trimmed user turn and an empty assistant turn, clears the input, raises both flags and sends the transcript without greeting and placeholder |
| ChatInterface.Chat.OnChunk | frontend/src/components/ChatInterface.tsx:68-80 | the last turn gets the chunk appended and keeps its role; length, earlier turns and flags stay |
| ChatInterface.Chat.OnComplete | frontend/src/components/ChatInterface.tsx:81-84 | the transcript stays; both flags clear |
| ChatInterface.Chat.OnError | frontend/src/components/ChatInterface.tsx:85-93 | the last turn becomes `⚠️ Error: ` + message; length and earlier turns stay; both flags clear |
| ChatInterface.Chat.OnSendThrew | frontend/src/components/ChatInterface.tsx:95-99 | both flags clear |
| ChatInterface.Chat.Receive | frontend/src/components/ChatInterface.tsx:62-94 | the callbacks in order fold the events into the last turn; the send stays in flight iff no terminal event came |
| ChatInterface.Chat.HandleSend | frontend/src/components/ChatInterface.tsx:37-100 | the whole send: guard, the two appended turns, the request, the transport's events, and afterwards the assistant turn built from them with both flags clear |
| LlabSelector.ModeOf | frontend/src/components/LLABSelector.tsx:149-162 | the drop-down's option values and the quiz modes correspond one to one |
| LlabSelector.Insert | frontend/src/components/LLABSelector.tsx:15 | insertion adds exactly the new value to the multiset |
| LlabSelector.InsertAscending | frontend/src/components/LLABSelector.tsx:15 | insertion keeps a list ascending |
| LlabSelector.InsertStrict | frontend/src/components/LLABSelector.tsx:15 | inserting a new value keeps a list strictly ascending |
| LlabSelector.Sort | frontend/src/components/LLABSelector.tsx:15 | `sort((a, b) => a - b)` gives an ascending permutation |
| LlabSelector.SortDistinct | frontend/src/components/LLABSelector.tsx:15 | sorting a repeat-free list gives a strictly ascending one |
| LlabSelector.Remove | frontend/src/components/LLABSelector.tsx:15 | `filter(n => n !== num)` keeps exactly the other members and keeps strict order |
| LlabSelector.Toggle | frontend/src/components/LLABSelector.tsx:13-17 | after a toggle `n` is selected iff it was not; no other number changes membership |
| LlabSelector.ToggleKeepsAscending | frontend/src/components/LLABSelector.tsx:15 | a strictly ascending selection stays strictly ascending |
| LlabSelector.AscendingUnique | frontend/src/components/LLABSelector.tsx:15 | two strictly ascending lists with the same members are equal |
| LlabSelector.ToggleTwice | frontend/src/components/LLABSelector.tsx:13-17 | toggling the same number twice restores the selection |
| LlabSelector.Selector.constructor | frontend/src/components/LLABSelector.tsx:8-9 | nothing selected, mode `mixed` |
| LlabSelector.Selector.ToggleLlab | frontend/src/components/LLABSelector.tsx:13-17 | the selection becomes the toggle, flips only `n`, stays strictly ascending; the mode stays |
| LlabSelector.Selector.SelectAll | frontend/src/components/LLABSelector.tsx:19-21 | the selection becomes exactly `[1..12]` |
| LlabSelector.Selector.ClearAll | frontend/src/components/LLABSelector.tsx:23-25 | the selection becomes empty |
| LlabSelector.Selector.SetQuizMode | frontend/src/components/LLABSelector.tsx:149 | the mode becomes the one the chosen option value names; only the mode changes |
| LlabSelector.Selector.HandleStart | frontend/src/components/LLABSelector.tsx:27-33 | no start iff nothing is selected; otherwise one start with the selection, non-empty and strictly ascending, and the mode |
| RateLimit.Prune | backend/app.py:61 | pruning never lengthens a list |
| RateLimit.PruneMembers | backend/app.py:59-61 | a timestamp survives iff it was there and `now - t < window` |
| RateLimit.PruneIdempotent | backend/app.py:61 | pruning twice at the same time removes nothing more |
| RateLimit.PruneLater | backend/app.py:59-61 | pruning earlier and then later equals pruning later |
| RateLimit.PruneConcat | backend/app.py:61 | pruning distributes over concatenation |
| RateLimit.Admit | backend/app.py:59-67 | a request is admitted iff fewer than `limit` timestamps survive pruning; the new list holds exactly the surviving timestamps, plus `now` when admitted |
| RateLimit.AdmitBound | backend/app.py:63-67 | an admitted request leaves the pruned list plus `now`; a refused one leaves exactly the pruned list, which is at the limit; never more than `limit` |
| RateLimit.Replay | backend/app.py:57-67 | one decision per request |
| RateLimit.ReplayBound | backend/app.py:57-67 | over any sequence of calls a client's list never exceeds the limit |
| RateLimit.ReplayWindow | backend/app.py:57-67 | with a non-decreasing clock the stored list, pruned, is exactly the admitted requests inside the window |
| RateLimit.SlidingWindow | backend/app.py:57-67 | a request is admitted iff fewer than `limit` admitted requests lie in the window before it; no window holds more than `limit` |
| RateLimit.RateLimiter.constructor | backend/app.py:47 | the store starts empty |
| RateLimit.RateLimiter.CheckRateLimit | backend/app.py:57-67 | prune, refuse at the limit, else append `now`; only this client's list changes and it exists afterwards; the bound is kept |
| RequestChecks.GetClientIp | backend/app.py:50-54 | a header-derived address has no comma and no surrounding whitespace; without a non-empty header it is the peer address, or `unknown` when there is none; an empty result only comes from a header |
| RequestChecks.ClientIpFirstHop | backend/app.py:52 | only the first entry of `X-Forwarded-For` counts, stripped |
| RequestChecks.ClientIpSingleHop | backend/app.py:52 | a single-entry header gives that entry, stripped |
| RequestChecks.VerifyTurnstileToken | backend/app.py:70-86 | a token is refused only when a secret other than `test-secret` is configured and the service rejects it |
| RequestChecks.TurnstileSkip | backend/app.py:70-86 | with no secret or `test-secret` every token passes and the service's answer is irrelevant; otherwise the service decides |
| RequestChecks.ChatToken | backend/app.py:220 | a non-empty `turnstile_token` in the body wins; the header is used otherwise |
| RequestChecks.WithSystemPrompt | backend/app.py:233-235 | the forwarded list starts with a system turn; the prompt is prepended iff the first turn is not a system turn; the client's turns follow unchanged |
| RequestChecks.SystemPromptOnce | backend/app.py:233-235 | prepending is idempotent |
| RequestChecks.ChatDecision | backend/app.py:206-235 | a request is accepted iff the key is set, the body is a non-empty object with messages and LLABs, and the token passes; an accepted request forwards the prompt-prefixed conversation |
| RequestChecks.ChatRefusals | backend/app.py:206-230 | the checks run in order (key 500, no JSON 400, non-object 500, messages 400, LLABs 400, token 401) and the first failure decides, with its own error text; a request that passes the earlier checks and fails the token check gets 401 `Invalid Turnstile token` |
| RequestChecks.CredentialCheckedLast | backend/app.py:222-230 | a request refused by an earlier check gets the same answer whatever the verification service says |
| Relay.SentinelLine | backend/app.py:273-276 | `data: [DONE]` is the sentinel for both the relay and the browser |
| Relay.RelayLine | backend/app.py:270-279 | a line is dropped iff it lacks the `data: ` prefix (empty lines included); it ends the relay iff its payload strips to `[DONE]`; a passed line is never the sentinel frame's line |
| Relay.Relayed | backend/app.py:270-279 | each provider line is relayed at most once |
| Relay.GeneratedLines | backend/app.py:254-286 | with status 200 the relayed lines, then nothing after the sentinel or a complete answer, and exactly the failure's error line after a broken connection; an unreachable provider gives exactly the failure's error line; another status gives exactly the `AI service error` line, or the failure's error line when reading the error body broke off |
| Relay.RelayedLines | backend/app.py:270-279 | every relayed line is a passed provider line, except a final `data: [DONE]` exactly when the sentinel was met |
| Relay.RelayTransparent | backend/app.py:270-279 | the browser's run over the relayed lines equals its run over the provider's lines |
| Relay.FramesOfAppend | backend/app.py:278 | framing distributes over concatenation |
| Relay.RelayLines | backend/app.py:270-279 | the loop sends exactly the frames of the relayed lines and breaks iff the sentinel was met |
| Relay.Generate | backend/app.py:254-286 | one error frame when the provider is unreachable or not 200 (`AI service error`, or the failure's own when reading the error body broke off); otherwise the relayed frames, then one error frame after a broken connection unless the sentinel came first |
| Relay.FrameAsJoin | backend/app.py:278 | one frame's text is its line and two empty lines joined by `'\n'` |
| Relay.FramesText | backend/app.py:278 | the frames' text is the lines joined by `'\n'` with a blank line after each |
| Relay.WithBlankLinesFree | backend/app.py:278 | interleaving blank lines keeps lines free of `'\n'` |
| Relay.BlankLinesInvisible | frontend/src/lib/api.ts:84 | the blank line after each frame produces nothing in the browser |
| Relay.LinesBody | frontend/src/lib/api.ts:77-81 | a body of `'\n'`-terminated lines has exactly those lines as its complete lines |
| Relay.ClientReadsFrames | backend/app.py:278 | the browser reading framed lines sees exactly the lines |
| Relay.FailureLinesFree | backend/app.py:281-286 | an error frame's line has no `'\n'` |
| Relay.GeneratedFree | backend/app.py:270-286 | the relay sends no line containing `'\n'` |
| Relay.RelayToClient | backend/app.py:254-286 | end to end: the browser's events through the relay equal its events reading the provider's lines, then the failure line, directly |
| Relay.ServiceErrorToClient | backend/app.py:264-268 | a status other than 200 whose error body is read whole reaches the browser as exactly `Error("AI service error")` |
| StaticQuestions.Chosen | backend/app.py:135-148 | no question is chosen when no section's LLAB is selected |
| StaticQuestions.ChosenConcat | backend/app.py:135-148 | choosing from concatenated section lists concatenates the choices |
| StaticQuestions.ChosenMembers | backend/app.py:135-148 | a question is chosen iff some section whose LLAB is selected holds it |
| StaticQuestions.UnpickedInvisible | backend/app.py:136-137 | a section whose LLAB is not selected contributes nothing |
| StaticQuestions.ExtendPicked | backend/app.py:135-137 | the `extend` loop appends the chosen questions in file order |
| StaticQuestions.LoadStaticQuestions | backend/app.py:123-152 | aircraft sections then cadet, enlisted and officer rank sections, filtered by LLAB in file order; a failed file contributes nothing |
| StaticQuestions.StaticQuestion | backend/app.py:306-334 | 500 for a missing or non-object body, 400 for no LLABs, `null` iff there is no candidate, otherwise a candidate |
| StaticQuestions.ServedFromSelected | backend/app.py:318-326 | a served question comes from a selected section of one of the two files |
| Endpoints.Server.constructor | backend/app.py:27-47 | the configuration and an empty store with the configured limit and window |
| Endpoints.Server.RateLimited | backend/app.py:89-98 | the decorator admits or refuses by the client's address, and the request counts against it |
| Endpoints.Server.Chat | backend/app.py:194-301 | 429 when rate-limited, before any other check; otherwise the `/chat` decision, and for an accepted request the frames of `generate()`; refused requests still use a rate-limit slot |
| Endpoints.Server.StaticQuestionRoute | backend/app.py:304-334 | 429 when rate-limited; otherwise a correct `/static-question` answer |

## Left out

- `TextDecoder` is not modelled. The body is given as already-decoded text chunks.
- `fetch` and the reader are not modelled. The response is a `Response` value, and the chunks are a list followed by how the stream ended.
- `JSON.parse` and the field look-ups after it are the parameter `parse`, a classification of payloads. No JSON parser is modelled.
- StreamClient.SendChatMessage assumes that the callbacks do not throw. The `'Unknown error'` branch for a thrown non-`Error` value is not modelled. A failure of `response.json()` on a non-OK response is modelled through its message.
- ChatInterface.Chat: the error updater assigns the last turn's `content` in place, on an object that the previous state shares. The model replaces the turn by value, so this aliasing is not captured.
- ChatInterface.Chat: each setter is one atomic step, in issue order. React's batching and asynchrony are not modelled.
- ChatInterface.Chat.constructor: the view is modelled after its greeting effect has run. The brief empty transcript before the effect is not modelled. Neither is a re-run of the effect on a changed LLAB list, because App.tsx mounts a new view for each session with a fixed list.
- Rendering, scrolling, markdown, `alert` and the `Enter` key handler are UI and are not modelled. `alert` appears only as "no start".
- App.tsx, types.ts, `getStaticQuestion` and `checkHealth` are not part of this model. They are layout, declarations or thin `fetch` wrappers.
- RateLimit: `time.time()` is modelled as integer seconds, so fractional timestamps are not captured. The environment variables are the limit and window given to the constructor.
- Concurrent requests and threads are not modelled. Each call is atomic.
- RequestChecks.VerifyTurnstileToken: the HTTP call to the verification service is the parameter `siteverify`. Its five-second timeout and logging are inside that parameter.
- RequestChecks.ChatDecision: the body is modelled only through its truth value and the keys the route reads. Ill-typed field values are not modelled: a string for `messages`, a non-object message (which makes `.get("role")` raise), or a non-string token. Neither is a `get_json()` that raises: a malformed body gives a 400 with werkzeug's own text, and a wrong content type gives, depending on the werkzeug version, that 400 or an `UnsupportedMediaType` that the route's generic handler turns into a 500. An explicit JSON `null` is read like an absent key, although `data.get` returns `None` for it: for `messages`, `llab_numbers` and `turnstile_token` only the truth value matters, and a `null` `quiz_mode` reaches the prompt builder as `None` rather than "mixed". `build_system_prompt` and `load_llab_content` (file reads and the prompt text) are the parameter `systemPrompt`.
- Relay: the request to the provider, its headers and payload, and `iter_lines`' UTF-8 decoding are not modelled. The provider's answer is given as its status and its lines. The text of a raised exception is given as `json.dumps` renders it.
- Relay.RelayTransparent and Relay.RelayToClient require that a line the relay takes for the sentinel (Python `strip`) is one the browser takes for the sentinel too (JavaScript `trim`). The two whitespace sets differ at a few code points, and for such a line the relay sends a canonical `data: [DONE]`.
- StaticQuestions.LoadStaticQuestions: a question file either loads whole or fails whole (`None`). An exception partway through a file, which keeps the questions already extended, is not modelled. A `llab` value that is not an integer is `None`. Python's `True == 1` inside `in` is not modelled.
- StaticQuestions.StaticQuestion: `random.choice` is the candidate at index `pick` modulo the number of candidates. Only membership is claimed about it. As for `/chat`, a `get_json()` that raises is not modelled (a malformed body is a 400 with werkzeug's own text through the route's `except BadRequest`; a wrong content type depends on the werkzeug version); the body is given already parsed.
- Logging, CORS, the 404 and 500 error handlers, the `/health` route and the load-test scripts are not modelled.
