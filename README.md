# Customer-support chat widget: conversation state, persistence and API client

This Dafny project models the core of an embeddable customer-support chat library.
The React hook `useCustomerSupport` keeps a conversation: an ordered list of
messages, a session id, a busy flag and the last error. It sends questions to a
chat backend, loads a stored history, clears the history and deletes single
messages. Messages and session id are mirrored into the browser's `localStorage`
by the `useLocalStorage` hook. The backend is reached through
`CustomerSupportAPIClient`, which turns every kind of failure into one `Error`
with a human-readable message.

Modules, one per source file plus two helpers:

- `Wrappers` holds `Option`.
- `Strings` holds the JavaScript string built-ins the code relies on: `trim`, ASCII case mapping, `substring`, decimal rendering and first-index search.
- `Types` mirrors `src/types/index.ts`. `Thrown` stands for a JavaScript throw value. `Outcome` is how an awaited request settles.
- `LocalStorage` mirrors `src/hooks/useLocalStorage.ts`. It has class `Storage` (the browser store), class `Cell<T>` (one `useLocalStorage` cell) and the session id generator.
- `ApiClient` mirrors `src/api/client.ts`. It has the interceptor's error classification, the status check, the rethrow, and the client class with its configuration and requests.
- `CustomerSupport` mirrors `src/hooks/useCustomerSupport.ts`. Its class `Controller` owns two cells, `isLoading`, `error`, the nullable client and a ghost log of `onError` calls.

Inputs that the source takes from the environment are parameters:

- the clock reading `now` (`Date.now()`), and for history loading one reading per entry, `clock`;
- the text of `Math.random().toString(36)`;
- the outcome of every request;
- the date parser `toMillis` (`new Date(created_at)`);
- whether `getItem` and `setItem` throw (`Storage.readable`, `Storage.writable`);
- the JSON codec (`Codec`: `encode` is total, `decode` may fail).

Each asynchronous operation is split at its `await` into two methods, a begin step and a complete step. For example, `BeginSend` is followed by `CompleteSend`.

`Cell.Set` takes the state setter's snapshot explicitly. `useLocalStorage` applies an updater to the `storedValue` of the render that created the setter, not to the latest value. `sendMessage` carries that snapshot across its `await` in `PendingSend`.

## Model

| member | source | states |
|---|---|---|
| `Strings.Decimal` | src/hooks/useLocalStorage.ts:40 | `${n}` is a non-empty string of digits with no leading zero |
| `Strings.ParseDecimalOfDecimal` | src/hooks/useLocalStorage.ts:40 | reading the decimal rendering back gives the same number |
| `Strings.DecimalInjective` | src/hooks/useLocalStorage.ts:40 | distinct clock readings render differently |
| `Strings.TrimStart` | src/hooks/useCustomerSupport.ts:50 | the result is a suffix of the input; only whitespace was dropped; it starts with a non-whitespace character or is empty |
| `Strings.TrimEnd` | src/hooks/useCustomerSupport.ts:50 | the result is a prefix of the input; only whitespace was dropped; it ends with a non-whitespace character or is empty |
| `Strings.Trim` | src/hooks/useCustomerSupport.ts:50 | `question.trim()` is empty exactly when every character is ECMAScript whitespace |
| `Strings.AsciiUpper` | src/hooks/useCustomerSupport.ts:120 | same length; every character is mapped to upper case |
| `Strings.AsciiLower` | src/hooks/useCustomerSupport.ts:119 | same length; every character is mapped to lower case |
| `Strings.LowerOfUpper` | src/hooks/useCustomerSupport.ts:119-120 | lower-casing the upper-cased role gives the lower-cased role |
| `Strings.UpperIdempotent` | src/hooks/useCustomerSupport.ts:120 | upper-casing twice is upper-casing once |
| `Strings.JsSubstring` | src/hooks/useLocalStorage.ts:40 | `substring(start, end)` has `min(end,len) - min(start,len)` characters, copied from position `start` on |
| `LocalStorage.NextValue` | src/hooks/useLocalStorage.ts:25 | a plain value is stored as it is; an updater is handed the setter's snapshot, and a throwing updater yields nothing to store |
| `LocalStorage.Storage.SetItem` | src/hooks/useLocalStorage.ts:27 | a write that succeeds sets just that key; a write that throws changes nothing |
| `LocalStorage.StoredAfter` | src/hooks/useLocalStorage.ts:27 | a successful write sets the key to the text; every other key keeps its entry |
| `LocalStorage.ReadInitial` | src/hooks/useLocalStorage.ts:11-19 | the initial value is the fallback when the key is absent, its text is empty, the read throws or decoding fails; otherwise it is the decoded value |
| `LocalStorage.ReadBackWritten` | src/hooks/useLocalStorage.ts:13-27 | a cell created after a successful write of `v` starts at `v` when `encode(v)` is non-empty and decodes to `v` |
| `LocalStorage.OtherKeyUnaffected` | src/hooks/useLocalStorage.ts:27 | writing one key never changes what a cell on another key reads |
| `LocalStorage.Cell.constructor` | src/hooks/useLocalStorage.ts:11-19 | the cell starts at `ReadInitial` of the store; creating it writes nothing |
| `LocalStorage.Cell.Set` | src/hooks/useLocalStorage.ts:22-31 | the updater receives the setter's snapshot, not the latest value; the value is kept in memory even when the write throws; a throwing updater changes neither memory nor store |
| `LocalStorage.RandomSuffix` | src/hooks/useLocalStorage.ts:40 | the suffix has exactly `min(9, len) - min(2, len)` characters, so at most 7 and none for text shorter than 3, copied from position 2 of the random text |
| `LocalStorage.GenerateSessionId` | src/hooks/useLocalStorage.ts:39-41 | every generated id starts with `session_` |
| `LocalStorage.ParseGeneratedSessionId` | src/hooks/useLocalStorage.ts:40 | a generated id splits back into its clock reading and its random suffix |
| `LocalStorage.SessionIdsAtDistinctTimesDiffer` | src/hooks/useLocalStorage.ts:40 | ids generated at distinct clock readings differ, whatever the random parts |
| `LocalStorage.RandomSuffixShape` | src/hooks/useLocalStorage.ts:40 | for real `Math.random().toString(36)` text the suffix has at most 7 characters, each in `[0-9a-z]` |
| `ApiClient.InterceptedMessage` | src/api/client.ts:23-31 | a response body gives the envelope's message or "An unknown error occurred"; a request with no response gives the connectivity message; otherwise the transport's message or "Request failed"; never empty |
| `ApiClient.Settle` | src/api/client.ts:42-50 | the call resolves exactly when the envelope status is "success", and then with `data` unchanged; another status rejects with the envelope's message verbatim; a rejected request rejects with the interceptor's message |
| `ApiClient.Rethrow` | src/api/client.ts:51-56 | an `Error` is rethrown unchanged; any other thrown value becomes an `Error` with the fallback message |
| `ApiClient.Caught` | src/api/client.ts:51-56 | the catch block keeps success and payload, and rethrows every failure through `Rethrow` |
| `ApiClient.CatchKeepsSettledOutcome` | src/api/client.ts:73-78 | everything the try block throws is an `Error`, so neither "Failed to send message" nor "Failed to load conversation history" is ever produced |
| `ApiClient.EmptyMessageOnlyFromEnvelope` | src/api/client.ts:46-48 | a rejection with an empty message can only come from a non-success envelope whose message is empty |
| `ApiClient.SendMessageResult` | src/api/client.ts:39-57 | `sendMessage` settles to the try block's outcome, and every failure is an `Error`, never the "Failed to send message" fallback |
| `ApiClient.HistoryResult` | src/api/client.ts:62-79 | `getConversationHistory` settles to the try block's outcome, and every failure is an `Error`, never the "Failed to load conversation history" fallback |
| `ApiClient.HistoryPath` | src/api/client.ts:64-66 | the history path is `/chat/history/`, then the session id, then `/` |
| `ApiClient.HistoryPathInjective` | src/api/client.ts:64-66 | different sessions are fetched from different paths |
| `ApiClient.MergedHeader` | src/api/client.ts:12-15 | the header a request carries is the instance's own header when it is set, and otherwise the `headers.common` one |
| `ApiClient.CommonKeyShadowed` | src/api/client.ts:14 | once the instance header holds a key, no key written to `headers.common` is sent |
| `ApiClient.CustomerSupportClient.constructor` | src/api/client.ts:9-17 | the API key goes into the instance headers and `headers.common` holds none; an absent base URL defaults to `http://localhost:8000/api` |
| `ApiClient.CustomerSupportClient.ChatRequest` | src/api/client.ts:41-44 | a POST to `/chat/` with body `{question, session_id}`, using the current base URL, the `X-API-Key` header merged from the two layers, JSON content type and 30000 ms timeout |
| `ApiClient.CustomerSupportClient.HistoryRequest` | src/api/client.ts:64-66 | a GET of the session's history path, using the current base URL and the `X-API-Key` header merged from the two layers |
| `ApiClient.CustomerSupportClient.UpdateApiKey` | src/api/client.ts:84-86 | as written: the key is written to `headers.common` and the instance header and base URL are kept, so the key requests carry does not change |
| `ApiClient.CustomerSupportClient.UpdateApiKeyIntended` | src/api/client.ts:84-86 | corrected: the key is written to the instance header, so every later chat and history request carries it |
| `ApiClient.CustomerSupportClient.UpdateBaseUrl` | src/api/client.ts:91-93 | the base URL changes and both key layers are kept |
| `CustomerSupport.UserMessage` | src/hooks/useCustomerSupport.ts:55-60 | the USER message has id `user_<now>`, the untrimmed question as content, the clock reading as timestamp and no sources |
| `CustomerSupport.AssistantMessage` | src/hooks/useCustomerSupport.ts:70-76 | the ASSISTANT message has id `assistant_<now>`, the answer as content and the answer's sources |
| `CustomerSupport.ErrorReply` | src/hooks/useCustomerSupport.ts:90-95 | the error message has id `error_<now>`, role ASSISTANT, "Sorry, I encountered an error: " plus the message as content, and no sources |
| `CustomerSupport.UserAndReplyIdsDiffer` | src/hooks/useCustomerSupport.ts:56-91 | a USER message and a reply never share an id, whatever the clock readings |
| `CustomerSupport.UserIdsAtDistinctTimesDiffer` | src/hooks/useCustomerSupport.ts:56 | USER messages made at distinct clock readings have distinct ids |
| `CustomerSupport.ClientFailureReply` | src/hooks/useCustomerSupport.ts:84-96 | after a client rejection, the synthetic ASSISTANT reply is the error prefix plus the client's own message, with no sources |
| `CustomerSupport.AsWrittenSendDropsUserMessage` | src/hooks/useCustomerSupport.ts:62-96 | as written, a completed send leaves the start list plus the reply only; the USER message is gone |
| `CustomerSupport.AsWrittenHelloScenario` | src/hooks/useCustomerSupport.ts:62-96 | sending "Hello" to an empty transcript and receiving "Hi there" leaves one message as written, and would leave two with the updater fixed |
| `CustomerSupport.IntendedSendAppendsBoth` | src/hooks/useCustomerSupport.ts:62-96 | with each updater given the current list, a send appends exactly its USER message and then its reply |
| `CustomerSupport.LoadedMessage` | src/hooks/useCustomerSupport.ts:118-123 | one history entry becomes a message with the history id, the role upper-cased, the content kept, the parsed timestamp and no sources |
| `CustomerSupport.LoadedMessages` | src/hooks/useCustomerSupport.ts:118-123 | the loaded list has one message per history entry |
| `CustomerSupport.LoadedHistoryAt` | src/hooks/useCustomerSupport.ts:118-123 | entry `i`: role upper-cased, content and parsed timestamp kept, no sources; the id is the lower-cased role, `_i_` and the clock reading taken for entry `i` |
| `CustomerSupport.HistoryIdDeterminesIndex` | src/hooks/useCustomerSupport.ts:119 | two history ids are equal only for the same position and the same clock reading, whatever the roles |
| `CustomerSupport.LoadedIdsUnique` | src/hooks/useCustomerSupport.ts:118-123 | a loaded history never holds two messages with the same id, whatever the roles and the clock readings |
| `CustomerSupport.Without` | src/hooks/useCustomerSupport.ts:147 | no kept message carries the deleted id, and the list never grows |
| `CustomerSupport.WithoutMembers` | src/hooks/useCustomerSupport.ts:147 | a message is kept exactly when it was present and has another id |
| `CustomerSupport.WithoutAppend` | src/hooks/useCustomerSupport.ts:147 | filtering distributes over concatenation, so the kept messages keep their order |
| `CustomerSupport.WithoutAbsent` | src/hooks/useCustomerSupport.ts:147 | deleting an id that no message carries is the identity |
| `CustomerSupport.WithoutRemovesOne` | src/hooks/useCustomerSupport.ts:147 | with unique ids, deleting the id at position `k` removes exactly that message |
| `CustomerSupport.Controller.constructor` | src/hooks/useCustomerSupport.ts:16-24 | the transcript starts from storage or `[]`; the session id starts from storage or a generated id; no client yet; idle; no error; nothing written |
| `CustomerSupport.Controller.InitClient` | src/hooks/useCustomerSupport.ts:27-29 | a fresh client with the given key and the base URL or its default; nothing else changes |
| `CustomerSupport.Controller.ClearError` | src/hooks/useCustomerSupport.ts:34-36 | only the error is cleared |
| `CustomerSupport.Controller.BeginSend` | src/hooks/useCustomerSupport.ts:43-67 | with no client, the error is "API client not initialized" and is reported once, before and whatever the blank check says; a blank question changes nothing; otherwise the start list plus the untrimmed USER message `user_<now>`, busy, error cleared, and the chat request carrying the current session id |
| `CustomerSupport.Controller.AppendUserMessage` | src/hooks/useCustomerSupport.ts:55-64 | the list becomes the start list plus the USER message and is written through; busy; error cleared; the pending send records the snapshot, the session id and the chat request |
| `CustomerSupport.Controller.FinishSend` | src/hooks/useCustomerSupport.ts:66-99 | the reply is appended to the given base list; on success the session id migrates to the returned one; on failure the error is recorded and reported once and the session id is kept; idle at the end |
| `CustomerSupport.Controller.CompleteSend` | src/hooks/useCustomerSupport.ts:66-99 | as written: the list becomes the begin-time snapshot plus `assistant_<now>` with the answer and sources, or plus `error_<now>` with "Sorry, I encountered an error: " and the message; the session id ends at the returned one; idle at the end |
| `CustomerSupport.Controller.CompleteSendIntended` | src/hooks/useCustomerSupport.ts:66-99 | corrected: the reply is appended to the list as it stands, so a begin and a complete leave the snapshot plus the USER message plus the reply |
| `CustomerSupport.Controller.BeginLoadHistory` | src/hooks/useCustomerSupport.ts:108-116 | nothing happens without a client or with an empty session id; otherwise busy, error cleared, and the history request for the current session |
| `CustomerSupport.Controller.CompleteLoadHistory` | src/hooks/useCustomerSupport.ts:116-132 | on success the transcript is replaced by the loaded list, with one clock reading per entry, and persisted; on failure it is untouched and the error is recorded and reported once; idle at the end |
| `CustomerSupport.Controller.ClearHistory` | src/hooks/useCustomerSupport.ts:138-141 | an empty transcript and a freshly generated session id, both written through |
| `CustomerSupport.Controller.DeleteMessage` | src/hooks/useCustomerSupport.ts:146-148 | the transcript becomes `Without(old, id)`, written through |

## Findings

| source | as written | input that shows it | evidently intended | confidence | as-written member | corrected member |
|---|---|---|---|---|---|---|
| src/hooks/useCustomerSupport.ts:62-96 with src/hooks/useLocalStorage.ts:25 | `sendMessage` keeps the one `setMessages` of the render it started in. That setter applies updaters to the `storedValue` it captured. So the reply's `prev => [...prev, reply]` runs on the list from before the USER message, and its write replaces the list that held the USER message. | empty transcript, `sendMessage("Hello")`, backend answers "success" with answer "Hi there": the final transcript is `[ASSISTANT "Hi there"]` | `[USER "Hello", ASSISTANT "Hi there"]`: exactly one USER message and then one reply per send | high (reasoned from the code, not executed) | `CustomerSupport.Controller.CompleteSend`, `CustomerSupport.AsWrittenSendDropsUserMessage`, `CustomerSupport.AsWrittenHelloScenario` | `CustomerSupport.Controller.CompleteSendIntended`, `CustomerSupport.IntendedSendAppendsBoth` |

| src/api/client.ts:14 with src/api/client.ts:85 | The constructor puts the key into the instance's own headers. `updateApiKey` writes `headers.common`. axios merges the instance headers over the common ones, so the instance header wins. | `new CustomerSupportAPIClient("A")`, then `updateApiKey("B")`, then `sendMessage("hi")`: the request carries `X-API-Key: A` | the method's doc comment says "Update API key": later requests carry `B` | medium (rests on the axios header merge order, which is not part of this model; not executed) | `ApiClient.CustomerSupportClient.UpdateApiKey`, `ApiClient.CommonKeyShadowed` | `ApiClient.CustomerSupportClient.UpdateApiKeyIntended` |

## Left out

- React scheduling, re-rendering and the effect's dependency tracking are not modelled. The client effect is the explicit `InitClient` step. The begin-time snapshot is the value the cell holds when `BeginSend` runs.
- Overlapping asynchronous calls are not modelled. One begin/complete pair runs at a time, and nothing else runs between its two steps.
- A complete step after the component unmounts is not modelled.
- axios is not part of this model. Only its header merge order is modelled, by `ApiClient.MergedHeader`, and the controller never calls `updateApiKey`.
- The axios transport is out of scope: real HTTP, the headers on the wire, URL joining of base URL and path, and the timeout itself. A request is a `Request` value. Its outcome is a `Transport` value, or for the controller an `Outcome` parameter. The timeout is a recorded constant, and a timed-out request is a rejection with no response.
- A response body without a `response` field (which would throw a `TypeError` on `.status`) and a "success" envelope whose `data` is `null` are not modelled. Envelopes are typed.
- In `RequestFailure`, an empty `responseData` stands for both "no response" and "a falsy body". An empty `message` stands for both "missing" and "empty".
- JSON is not modelled. `Codec` is an opaque encode/decode pair. Errors thrown by `JSON.stringify` are folded into a failed write (`Storage.writable`). Dates are not revived on read; timestamps are milliseconds.
- `console.warn` logging of storage failures is left out.
- `toUpperCase` and `toLowerCase` are modelled on ASCII letters only. Full Unicode case mapping, which can change a string's length, is left out.
- `Date.now()` is one reading per step of a send. The id and the `new Date()` timestamp of one message share that reading. History loading takes one reading per entry, the `clock` parameter.
- `new Date(created_at)` is the parameter `toMillis`. Date-string parsing and `Invalid Date` are left out.
- `Math.random()` is given as the text of its base-36 rendering. Floating point is left out.
- `Source.similarity` is a `real`. The range [0, 1] is documented and not enforced, as in the source.
- Message roles are strings. The source's `as 'USER' | 'ASSISTANT'` cast checks nothing at run time.
- `CustomerSupport.Controller.ClearHistory`: the new id is not proved different from the previous one. The previous id may have come from the backend, and the generator only makes collisions unlikely. `LocalStorage.SessionIdsAtDistinctTimesDiffer` covers two generated ids.
- The rendering components, the colour helpers, the examples, the build configuration and the re-exports in `src/index.ts` are not part of this model.
