# Insight-Forge core in Dafny

This project models the logic of Insight-Forge, a personal learning and journaling web application. Users build study plans made of chapters and talk with a tutor per chapter. They also keep a journal and talk with a companion about each entry. All data lives in the browser's `localStorage`. Two edge functions sit between the browser and a user-supplied OpenAI-compatible API:

- `chat`, a relay for chat completions;
- `test-connection`, a probe of the API settings.

The model covers:

- **The event-stream decoder of `useLLMChat.sendMessage`.** A class `StreamDecoder` holds the carried-over `buffer`, `fullContent` and the log of callback invocations. Its `Feed` method is proved to keep that state equal to a pure specification, `Decode`, over all text received so far. The result therefore does not depend on where chunk boundaries fall.
- **The `chat` relay.** A pure function from the incoming request and the upstream outcome to the response.
- **The `test-connection` probe.** The validation, the probe request, and the status and exception message tables. A request with a missing setting answers 400; every failure after that validation answers 200.
- **The client store (`src/lib/storage.ts`).** A class over an in-memory key→value map, with these operations:
  - upsert by id and delete by id;
  - first-match lookup;
  - the capped skill-score update;
  - the defaults.
- **The page and component logic:**
  - the conversation turns of the journal chat and learning pages;
  - chapter toggle, complete and reset;
  - mock chapter generation and title truncation;
  - the new-project form's submission and submit guard;
  - the journal editor's save defaults and delete guard;
  - tag stripping for journal previews;
  - the chat box's submit and Enter-key rules;
  - the dashboard counts.

The pages are classes whose fields are their React state cells. The store is a field of each page. Toasts, navigations, relay requests and sent messages are recorded in log fields.

Parameters stand in for everything the code cannot compute itself. Ids from `generateId()` are parameters, as are timestamps from `new Date().toISOString()` and the value of `Math.random()`. So are the relay's replies, the upstream outcome, and the result of `JSON.parse` on event-stream payloads, which is an oracle `parse`.

## Model

| member | source | states |
|---|---|---|
| SseDecoder.Lines | src/hooks/use-llm-chat.ts:72 | `split('\n')` has at least one piece |
| SseDecoder.LinesNewlineFree | src/hooks/use-llm-chat.ts:72 | no piece of the split contains '\n' |
| SseDecoder.JoinLines | src/hooks/use-llm-chat.ts:72 | joining the pieces with '\n' gives back the text |
| SseDecoder.LinesJoin | src/hooks/use-llm-chat.ts:72 | splitting joined newline-free lines gives back the lines |
| SseDecoder.NoNewlineOneLine | src/hooks/use-llm-chat.ts:72-73 | text without '\n' is one unfinished line, kept entirely as the buffer |
| SseDecoder.LinesAfterNewline | src/hooks/use-llm-chat.ts:72 | a newline-free prefix followed by '\n' is the first line of the split |
| SseDecoder.LastLine | src/hooks/use-llm-chat.ts:72-73 | the last piece of the split has no '\n' and completes the join of the other pieces to the text |
| SseDecoder.JoinSplitLast | src/hooks/use-llm-chat.ts:72-73 | rejoining the complete lines and the carried-over piece gives back the text |
| SseDecoder.CompleteLines | src/hooks/use-llm-chat.ts:72-73 | the lines the `for` loop visits contain no '\n' |
| SseDecoder.Rest | src/hooks/use-llm-chat.ts:73 | the carried-over buffer has no '\n', and the complete lines joined with it give back the text |
| SseDecoder.Payload | src/hooks/use-llm-chat.ts:77 | the payload is no longer than the line after `data: `, and it starts and ends with a non-space character when non-empty |
| SseDecoder.LinesAppend | src/hooks/use-llm-chat.ts:69-73 | splitting `a + b` yields the complete lines of `a`, then the split of (what follows `a`'s last '\n') + `b` |
| SseDecoder.CompleteLinesAppend | src/hooks/use-llm-chat.ts:69-73 | complete lines and the leftover buffer of `a + b` are those of `a`, then those of leftover(`a`) + `b` |
| SseDecoder.LineDelta | src/hooks/use-llm-chat.ts:76-87 | a line contributes a delta only if non-empty |
| SseDecoder.Deltas | src/hooks/use-llm-chat.ts:75-92 | at most one delta per line, none empty |
| SseDecoder.Decode | src/hooks/use-llm-chat.ts:65-92 | at most one delta per complete line of the text, none empty |
| SseDecoder.ConcatAppend | src/hooks/use-llm-chat.ts:84 | concatenation distributes over sequence append |
| SseDecoder.DeltasAppend | src/hooks/use-llm-chat.ts:75-92 | the deltas of two line runs are the deltas of each, in order |
| SseDecoder.DecodeAppend | src/hooks/use-llm-chat.ts:65-73 | decoding `a + b` is decoding `a`, then the complete lines of leftover(`a`) + `b` |
| SseDecoder.UnterminatedTailIgnored | src/hooks/use-llm-chat.ts:65-95 | a trailing fragment without '\n' adds no delta and stays in the buffer |
| SseDecoder.DoneLineSkipped | src/hooks/use-llm-chat.ts:76-78 | a `[DONE]` payload adds nothing, and later lines are still decoded |
| SseDecoder.MalformedLineSkipped | src/hooks/use-llm-chat.ts:80-90 | a payload that fails to parse adds nothing and raises nothing |
| SseDecoder.NonDataLineSkipped | src/hooks/use-llm-chat.ts:76 | a line without the exact prefix `data: ` adds nothing |
| SseDecoder.DeltaLineDecoded | src/hooks/use-llm-chat.ts:77-87 | a data line whose trimmed payload parses to a non-empty delta adds exactly that delta |
| SseDecoder.FrameLine | src/hooks/use-llm-chat.ts:72-77 | a frame `data: <payload>` plus '\n' in front of any text is one complete line, followed by the text's lines, and its payload is the trimmed `<payload>` |
| SseDecoder.DoneTrimmed | src/hooks/use-llm-chat.ts:77-78 | `[DONE]` is unchanged by `trim` |
| SseDecoder.DoneFramesDecoded | src/hooks/use-llm-chat.ts:65-95 | a stream holding only the `[DONE]` frame decodes to no delta |
| SseDecoder.DoneFrameDecoded | src/hooks/use-llm-chat.ts:76-78 | the frame `data: [DONE]` followed by '\n' decodes to no delta |
| SseDecoder.FrameDecoded | src/hooks/use-llm-chat.ts:76-87 | a well-formed frame in front of any text contributes exactly its delta, then the text decodes as before |
| SseDecoder.FramesStep | src/hooks/use-llm-chat.ts:65-95 | one well-formed frame in front of the remaining frames adds its delta in front of theirs |
| SseDecoder.FramesCons | src/hooks/use-llm-chat.ts:65-95 | the stream of N frames then a last one starts with the first frame |
| SseDecoder.FramesDecoded | src/hooks/use-llm-chat.ts:65-95 | N well-formed `data:` frames followed by `data: [DONE]` decode to exactly the N deltas, in order |
| SseDecoder.NotificationsAppend | src/hooks/use-llm-chat.ts:83-87 | callback invocations for two delta runs are those of each, in order |
| SseDecoder.NotifyOne | src/hooks/use-llm-chat.ts:83-87 | one invocation per supplied callback, each with the delta, the per-call callback first and the options callback last |
| SseDecoder.ArgsAppend | src/hooks/use-llm-chat.ts:85-86 | the arguments each callback receives distribute over append |
| SseDecoder.PerCallArgsAppend | src/hooks/use-llm-chat.ts:85 | the per-call callback's arguments distribute over append |
| SseDecoder.OptionsArgsAppend | src/hooks/use-llm-chat.ts:86 | the options callback's arguments distribute over append |
| SseDecoder.CallbackArguments | src/hooks/use-llm-chat.ts:83-87 | each supplied callback receives exactly the deltas in order; an absent one receives nothing |
| SseDecoder.StreamDecoder.constructor | src/hooks/use-llm-chat.ts:61-63 | empty buffer, empty content, no invocations |
| SseDecoder.StreamDecoder.Feed | src/hooks/use-llm-chat.ts:66-73 | after each chunk, buffer is what follows the last '\n' of old buffer + chunk; deltas, content and callbacks equal `Decode` of all text so far |
| SseDecoder.FeedStep | src/hooks/use-llm-chat.ts:69-73 | splitting buffer + chunk: the last piece is the new carry-over and the complete lines add exactly the new deltas to `Decode` |
| SseDecoder.StreamDecoder.DecodeLines | src/hooks/use-llm-chat.ts:75-92 | the `for` loop over complete lines appends their deltas in order and keeps content and callbacks in step |
| SseDecoder.StreamDecoder.ProcessLine | src/hooks/use-llm-chat.ts:76-91 | one line appends its delta (if any) to the content, then to the per-call and the options callbacks |
| SseDecoder.StreamDecoder.Emit | src/hooks/use-llm-chat.ts:84-86 | one delta joins the content and the per-call and options callbacks, in that order, keeping them in step with the emitted deltas |
| LlmChat.ErrorText | src/hooks/use-llm-chat.ts:97 | an `Error`'s message, else `请求失败` |
| LlmChat.RelayRequest | src/hooks/use-llm-chat.ts:33-42 | the relay body always asks for `stream: true` and carries the messages in order and the three settings |
| LlmChat.SettingsConfigured | src/hooks/use-llm-chat.ts:105-108 | the hook counts stored settings as configured exactly when `sendMessage` (line 25) does not refuse them and the relay would accept a request built from them |
| LlmChat.ConfiguredRequestForwarded | src/hooks/use-llm-chat.ts:25-42 | for stored settings, the relay forwards the hook's request iff the hook counts them configured; otherwise it answers 400 |
| LlmChat.ExpectedOutcome | src/hooks/use-llm-chat.ts:44-95 | a configured call fails exactly on an invoke error, a buffered `data.error` or a failed read; a stream resolves to the concatenated decoded deltas, a buffered reply to its content or `''` |
| LlmChat.ResolvedTextIsCallbackConcatenation | src/hooks/use-llm-chat.ts:82-95 | the resolved text equals the in-order concatenation of each supplied callback's arguments, none empty |
| LlmChat.ChunkingIrrelevant | src/hooks/use-llm-chat.ts:65-73 | two chunkings of the same text give the same outcome and the same callbacks; this holds by definition, as `ExpectedOutcome` reads the chunks only through their concatenation; that the read loop itself does not depend on chunk boundaries is the contract of `ChatHook.ReadStream` and `StreamDecoder.Feed`, built on `LinesAppend` and `DecodeAppend` |
| LlmChat.SplitChunk | src/hooks/use-llm-chat.ts:69 | splitting one chunk in two does not change the resolved text |
| LlmChat.WellFormedStreamResolves | src/hooks/use-llm-chat.ts:61-95 | for any chunking of N well-formed frames plus `[DONE]`, the call resolves to the deltas' concatenation and each callback gets exactly the N deltas |
| LlmChat.BufferedWithoutContent | src/hooks/use-llm-chat.ts:57-58 | a buffered reply without content and without error resolves to `''` |
| LlmChat.ChatHook.constructor | src/hooks/use-llm-chat.ts:15-17 | not loading, no error |
| LlmChat.ChatHook.IsConfigured | src/hooks/use-llm-chat.ts:105-108 | holds iff stored settings exist with all three fields non-empty |
| LlmChat.ChatHook.SendMessage | src/hooks/use-llm-chat.ts:19-103 | unconfigured: fails with the configure message before any relay call or state change; configured: one relay call, outcome and callbacks by the reply kind, `isLoading` ends false, `error` set exactly on failure |
| LlmChat.ChatHook.ReadStream | src/hooks/use-llm-chat.ts:61-95 | the read loop returns `Decode` of the concatenated chunks and the matching callback invocations |
| ChatRelay.WithContentType | supabase/functions/chat/index.ts:31 | the CORS headers plus the given content type |
| ChatRelay.StreamFlag | supabase/functions/chat/index.ts:24 | `stream` defaults to true when absent |
| ChatRelay.FullMessages | supabase/functions/chat/index.ts:36-38 | a non-empty system prompt becomes one leading system message; absent or empty adds nothing |
| ChatRelay.NormalizeBaseUrl | supabase/functions/chat/index.ts:41 | removes exactly one trailing '/', else unchanged |
| ChatRelay.Endpoint | supabase/functions/chat/index.ts:41-42 | ends with `/chat/completions` after the normalised base URL |
| ChatRelay.Bearer | supabase/functions/chat/index.ts:49 | `Bearer ` followed by the API key |
| ChatRelay.ServerError | supabase/functions/chat/index.ts:80-86 | status 500, JSON headers, the exception message or `Unknown error` |
| ChatRelay.Plan | supabase/functions/chat/index.ts:17-57 | preflight answers null with CORS; an unparsable body is a 500; forwarding happens iff all three fields are non-empty, else 400 |
| ChatRelay.Relay | supabase/functions/chat/index.ts:59-86 | non-ok status propagated with error and details; ok and streaming passes the body through as an event stream; ok and buffered re-serialises the JSON |
| ChatRelay.Handle | supabase/functions/chat/index.ts:17-87 | the plan's answer when not forwarding, else the relay of the upstream outcome |
| ChatRelay.MissingConfigRejected | supabase/functions/chat/index.ts:28-33 | a request missing a field gets 400 with the error body whatever upstream would do: no fetch |
| ChatRelay.ForwardedRequestShape | supabase/functions/chat/index.ts:41-56 | the upstream call has the normalised endpoint, bearer header, model, full messages and stream flag |
| ChatRelay.FullMessagesKeepsHistory | supabase/functions/chat/index.ts:36-38 | the caller's messages end the forwarded list in order, with at most one message before them |
| ChatRelay.NormalizeStripsOneSlash | supabase/functions/chat/index.ts:41 | `x//` normalises to `x/` and `x/` to `x` |
| ChatRelay.CorsOnEveryResponse | supabase/functions/chat/index.ts:17-87 | every response allows any origin |
| ChatRelay.UpstreamStatusPropagated | supabase/functions/chat/index.ts:59-66 | a non-ok upstream status is returned unchanged with the upstream text as details |
| ConnectionTest.JsonHeaders | supabase/functions/test-connection/index.ts:28 | CORS headers with JSON content type |
| ConnectionTest.StatusMessage | supabase/functions/test-connection/index.ts:56-63 | a non-empty message: one of the three fixed texts, or the generic text starting with `API 返回错误 (` |
| ConnectionTest.ExceptionMessage | supabase/functions/test-connection/index.ts:85-92 | the fixed unreachable text, `连接失败`, or the thrown message; an `Error` whose message lacks `fetch` yields its own message |
| ConnectionTest.StatusMessageTable | supabase/functions/test-connection/index.ts:56-63 | the generic message appears iff the status is not 401, 404 or 429, and it contains the status |
| ConnectionTest.FetchErrorsAreUnreachable | supabase/functions/test-connection/index.ts:85-92 | any exception message containing `fetch` maps to the fixed "cannot reach server" text |
| ConnectionTest.StatusErrorMessage | supabase/functions/test-connection/index.ts:56-63 | the `errorMessage` chain equals the status table |
| ConnectionTest.CaughtErrorMessage | supabase/functions/test-connection/index.ts:85-92 | the `catch` chain equals the exception table |
| ConnectionTest.Plan | supabase/functions/test-connection/index.ts:14-50 | 400 `Missing required fields` for a missing field, else a probe to the normalised endpoint with one user message `Hi` and `max_tokens` 5 |
| ConnectionTest.Handle | supabase/functions/test-connection/index.ts:14-99 | a request with a missing field answers 400 `Missing required fields`, and status 400 occurs only then; every failure after validation answers 200 with `success: false`; success reports `data.model` or the requested model |
| Storage.FindIndex | src/lib/storage.ts:142 | the first index with the key, or -1 exactly when there is none |
| Storage.FindIndexUnique | src/lib/storage.ts:142 | an index holding the key with no earlier match is what `findIndex` returns |
| Storage.Find | src/lib/storage.ts:137 | a found record has the key and is in the list; nothing is found iff no record has the key |
| Storage.FindAtFindIndex | src/lib/storage.ts:136-149 | `find` returns the element at `findIndex` |
| Storage.Upsert | src/lib/storage.ts:140-149 | the saved record is in the result; length grows by at most one; every other record comes from the old list |
| Storage.UpsertReplaces | src/lib/storage.ts:143-144 | an existing key replaces the first match; length and all other elements unchanged |
| Storage.UpsertAppends | src/lib/storage.ts:145-147 | a new key appends at the end; length grows by one |
| Storage.FindAfterUpsert | src/lib/storage.ts:136-149 | after saving, looking up the saved key returns the saved record |
| Storage.FindOtherAfterUpsert | src/lib/storage.ts:136-149 | saving does not change any other key's lookup |
| Storage.UpsertTwice | src/lib/storage.ts:140-149 | saving two records with one key equals saving the second alone |
| Storage.RemoveKey | src/lib/storage.ts:151-154 | never longer; every remaining record is from the list and has another key |
| Storage.RemoveKeySpec | src/lib/storage.ts:151-154 | delete removes every record with the key; lookup then fails; other keys' lookups unchanged |
| Storage.RemoveKeySingle | src/lib/storage.ts:152 | a one-record list loses its record iff the record has the key |
| Storage.RemoveKeyAppend | src/lib/storage.ts:152 | filtering `a + b` is filtering `a`, then filtering `b`: the survivors keep their order |
| Storage.RemoveKeyKeepsOthers | src/lib/storage.ts:151-154 | records with other keys survive a delete |
| Storage.DefaultProfileShape | src/lib/storage.ts:187-200 | six dimensions at 0 of 100, zero totals |
| Storage.AwardPoints | src/lib/storage.ts:207-214 | afterwards a dimension with the name exists; the count grows by at most one |
| Storage.AwardPointsKnown | src/lib/storage.ts:207-211 | the first dimension with the name gets `min(score + points, maxScore)`; count and others unchanged |
| Storage.AwardPointsUnknown | src/lib/storage.ts:212-213 | an unknown name is appended with the points, uncapped, out of 100 |
| Storage.LocalStore.constructor | src/lib/storage.ts:84-91 | the store holds the given key→value map |
| Storage.LocalStore.GetLlmSettings | src/lib/storage.ts:117-120 | the settings exactly when stored under the settings key |
| Storage.LocalStore.SaveLlmSettings | src/lib/storage.ts:122-124 | writes the settings key only; reading gives them back |
| Storage.LocalStore.GetAuthUser | src/lib/storage.ts:94-97 | the user exactly when stored |
| Storage.LocalStore.SaveAuthUser | src/lib/storage.ts:99-101 | writes the auth-user key only |
| Storage.LocalStore.GetAuthToken | src/lib/storage.ts:103-105 | the token exactly when stored |
| Storage.LocalStore.SaveAuthToken | src/lib/storage.ts:107-109 | writes the auth-token key only |
| Storage.LocalStore.ClearAuth | src/lib/storage.ts:111-114 | removes exactly the auth-user and auth-token keys |
| Storage.LocalStore.GetProjects | src/lib/storage.ts:127-130 | `[]` when the key is absent |
| Storage.LocalStore.GetProject | src/lib/storage.ts:136-138 | a found project has the id and is one of the stored projects |
| Storage.LocalStore.SaveProject | src/lib/storage.ts:140-149 | stores the upsert of the list; `getProject(p.id)` then returns `p` |
| Storage.LocalStore.DeleteProject | src/lib/storage.ts:151-154 | stores the filtered list; lookup then fails |
| Storage.LocalStore.GetJournals | src/lib/storage.ts:157-160 | `[]` when the key is absent |
| Storage.LocalStore.GetJournal | src/lib/storage.ts:166-168 | a found entry has the id and is one of the stored entries |
| Storage.LocalStore.JournalStored | src/lib/storage.ts:166-179 | after upserting an entry, looking up its id finds exactly that entry |
| Storage.SaveJournalTwice | src/lib/storage.ts:170-179 | saving two versions of the same entry leaves the store as saving only the second |
| Storage.LocalStore.SaveJournal | src/lib/storage.ts:170-179 | stores the upsert of the list; `getJournal(j.id)` then returns `j` |
| Storage.LocalStore.DeleteJournal | src/lib/storage.ts:181-184 | stores the filtered list; lookup then fails |
| Storage.LocalStore.GetUserProfile | src/lib/storage.ts:187-201 | the default profile when none is stored |
| Storage.LocalStore.SaveUserProfile | src/lib/storage.ts:203-205 | writes the profile key only |
| Storage.LocalStore.UpdateDimension | src/lib/storage.ts:207-216 | stores the profile with the awarded dimension list |
| JournalChat.History | src/pages/JournalChat.tsx:111-114 | the messages reduced to `{role, content}`, same length and order |
| JournalChat.HistoryAppend | src/pages/JournalChat.tsx:111-114 | the history of appended messages is the appended histories |
| JournalChat.SystemPrompt | src/pages/JournalChat.tsx:116-124 | the prompt starts with the companion persona |
| JournalChat.SystemPromptEmbeds | src/pages/JournalChat.tsx:116-124 | the prompt starts with the persona and contains the title (or `无标题`) and the content |
| JournalChat.RelayFor | src/pages/JournalChat.tsx:126-134 | the updated history, `stream: false`, the system prompt and the settings |
| JournalChat.WithMessage | src/pages/JournalChat.tsx:97-100 | appends one message; every other field unchanged |
| JournalChat.TurnError | src/pages/JournalChat.tsx:104-143 | no error iff configured, no transport error and no `data.error`; unconfigured gives the configure message |
| JournalChat.AssistantContent | src/pages/JournalChat.tsx:145-172 | the error prefix plus message on error, else the reply content or the apology when missing or empty; never empty |
| JournalChat.JournalChatPage.constructor | src/pages/JournalChat.tsx:65-72 | journal loaded by id, settings read at render, not loading |
| JournalChat.JournalChatPage.HandleSendMessage | src/pages/JournalChat.tsx:87-185 | the user message is saved first; exactly `[user, assistant]` are appended; a relay call only when configured; a toast exactly on error; `isLoading` ends false |
| JournalChat.JournalChatPage.Exchange | src/pages/JournalChat.tsx:101-181 | the entry with the user message is saved, then the entry with the answer; the store ends as if only the final entry had been upserted |
| JournalChat.JournalChatPage.Reply | src/pages/JournalChat.tsx:104-172 | the reply, or the error prefix and the failure, becomes the assistant message; one relay request only when configured; one toast exactly when the turn fails |
| JournalChat.JournalChatPage.Commit | src/pages/JournalChat.tsx:101-102 | the same entry goes into state and storage |
| JournalChat.JournalChatPage.Respond | src/pages/JournalChat.tsx:104-145 | the configuration check and relay call: failure or content as the tables say; a request only when configured |
| Learning.UpdateChapters | src/pages/Learning.tsx:43-47 | same length; exactly the chapters with the id are changed |
| Learning.AppendMessage | src/pages/Learning.tsx:43-47 | same length; each chapter with the id gains the message at the end, every other chapter unchanged |
| Learning.ResetChat | src/pages/Learning.tsx:76-78 | same length; each chapter with the id loses its messages, every other chapter unchanged |
| Learning.CompleteChapter | src/pages/Learning.tsx:89-91 | same length; each chapter with the id is marked completed, every other chapter unchanged |
| Learning.FindChapter | src/pages/Learning.tsx:17 | a found chapter has the id and belongs to the project; none is found iff no chapter has the id |
| Learning.Appending | src/pages/Learning.tsx:45 | appending a message keeps the chapter id |
| Learning.Cleared | src/pages/Learning.tsx:77 | same id, no messages |
| Learning.Completed | src/pages/Learning.tsx:90 | same id, completed |
| Learning.UpdateTwice | src/pages/Learning.tsx:43-67 | two chapter-scoped updates compose on the target chapters and leave the others |
| Learning.FindAfterUpdate | src/pages/Learning.tsx:17 | after an id-preserving update the found chapter is the updated one |
| Learning.TurnAppendsPair | src/pages/Learning.tsx:43-67 | after a turn the target chapter's messages are the old ones followed by `[user, assistant]`; others unchanged |
| Learning.FindAfterTurn | src/pages/Learning.tsx:17-67 | after a turn the chapter the page finds holds its old messages followed by `[user, assistant]` |
| Learning.ResetAndCompleteIdempotent | src/pages/Learning.tsx:75-92 | reset twice equals reset once; complete twice equals complete once |
| Learning.MockTemplates | src/pages/Learning.tsx:152-157 | four templates |
| Learning.MockIndex | src/pages/Learning.tsx:158 | the index is in `[0, 4)` |
| Learning.MockResponse | src/pages/Learning.tsx:151-159 | the reply is one of the four templates |
| Learning.MockTemplatesQuote | src/pages/Learning.tsx:153-156 | the first quotes the chapter title, the second the first 20 characters of the input, the other two are fixed |
| Learning.MockIndexQuarters | src/pages/Learning.tsx:158 | index 0 iff random < 0.25, index 3 iff random ≥ 0.75 |
| Learning.LearningPage.constructor | src/pages/Learning.tsx:11-15 | the project loaded by id, not loading |
| Learning.LearningPage.Commit | src/pages/Learning.tsx:49-51 | the same project goes into state and storage |
| Learning.LearningPage.ApplyToChapter | src/pages/Learning.tsx:49-51 | the updated project goes into state and storage; the current chapter is the updated one |
| Learning.LearningPage.HandleSendMessage | src/pages/Learning.tsx:32-73 | the target chapter gains `[user, mock reply]`; exactly two saves, the project with the user message and then the final project; the store's projects key holds the final project upserted into the old list, every other key unchanged; `isLoading` ends false |
| Learning.LearningPage.Turn | src/pages/Learning.tsx:42-71 | the two messages are appended to the chapter in order; both intermediate and final projects are saved; the store ends with the final project upserted |
| Learning.LearningPage.CommitTwice | src/pages/Learning.tsx:49-71 | two projects with one id go into state and storage in order; the store ends as after saving the second alone |
| Learning.LearningPage.HandleResetChat | src/pages/Learning.tsx:75-86 | the target chapter's messages emptied, saved, one toast |
| Learning.LearningPage.HandleCompleteChapter | src/pages/Learning.tsx:88-100 | the target chapter completed, saved, one toast, back to the project page |
| ProjectCard.CompletedChapters | src/components/projects/ProjectCard.tsx:11 | at most the chapter count; 0 iff none completed; the count iff all completed |
| ProjectCard.ProgressPercent | src/components/projects/ProjectCard.tsx:12-14 | in [0, 100]; 0 with no chapters or none completed; 100 when all completed |
| ProjectCard.RatioBounds | src/components/projects/ProjectCard.tsx:12-14 | completed over total lies in [0, 1] |
| ProjectDetail.Toggled | src/pages/ProjectDetail.tsx:59 | same id, `completed` flipped |
| ProjectDetail.ToggleChapter | src/pages/ProjectDetail.tsx:55-61 | flips `completed` exactly on chapters with the id; count, order and all other fields kept |
| ProjectDetail.ToggleInvolution | src/pages/ProjectDetail.tsx:58-59 | toggling twice restores the project |
| ProjectDetail.ToggleCount | src/pages/ProjectDetail.tsx:41-60 | toggling uncompleted chapters raises the completed count by the number of matching chapters |
| ProjectDetail.Matching | src/pages/ProjectDetail.tsx:58-59 | at most the chapter count |
| ProjectDetail.ProjectDetailPage.constructor | src/pages/ProjectDetail.tsx:26 | the project loaded by id |
| ProjectDetail.ProjectDetailPage.CompletedChapters | src/pages/ProjectDetail.tsx:41 | at most the chapter count |
| ProjectDetail.ProjectDetailPage.Progress | src/pages/ProjectDetail.tsx:42-44 | in [0, 100]; 0 with no chapters |
| ProjectDetail.ProjectDetailPage.ToggleChapterComplete | src/pages/ProjectDetail.tsx:55-64 | the same toggled project goes into state and storage |
| ProjectDetail.ProjectDetailPage.HandleDelete | src/pages/ProjectDetail.tsx:46-53 | deletes by `project.id`, one toast naming the title, back to `/projects` |
| CreateProject.MockChapters | src/pages/CreateProject.tsx:17-34 | exactly 5 chapters with the given ids, titled `第{i+1}章：` plus the fixed name, not completed, no messages |
| CreateProject.DescriptionsMentionTopic | src/pages/CreateProject.tsx:20-23 | the first four descriptions contain the topic |
| CreateProject.HeadingsDistinct | src/pages/CreateProject.tsx:29 | the five chapter headings are pairwise distinct |
| CreateProject.ProjectTitle | src/pages/CreateProject.tsx:45 | the topic when at most 20 characters, else the first 20 and `...`; at most 23 characters; starts with a prefix of the topic |
| CreateProject.TitleFixedPoints | src/pages/CreateProject.tsx:45 | truncation leaves a topic unchanged iff it has at most 20 characters, or 23 ending in `...` |
| CreateProject.NewProject | src/pages/CreateProject.tsx:43-54 | copies topic, goal, level, time per day and duration; progress 0; 5 fresh chapters |
| CreateProject.CreatedToastForFive | src/pages/CreateProject.tsx:58-61 | with the five generated chapters the toast description reads `共 5 个章节，开始你的学习之旅吧！` |
| CreateProject.CreateProjectPage.constructor | src/pages/CreateProject.tsx:11-14 | not loading, no toasts, no navigations |
| CreateProject.CreateProjectPage.HandleSubmit | src/pages/CreateProject.tsx:36-73 | saves the new project, toasts `共 5 个章节`, navigates to the project; `isLoading` ends false |
| CreateProjectForm.Submission | src/components/projects/CreateProjectForm.tsx:42-53 | goal is the custom text iff `custom` is selected, and `customGoal` is present only then; sliders give their first value |
| CreateProjectForm.InitialFormDefaults | src/components/projects/CreateProjectForm.tsx:35-40 | the initial state submits `兴趣了解`, level 1, 30 minutes, 30 days, and is disabled |
| CreateProjectForm.SliderChangesKeepValues | src/components/projects/CreateProjectForm.tsx:38-40 | slider and radio changes keep every slider populated |
| CreateProjectForm.SubmitDisabled | src/components/projects/CreateProjectForm.tsx:149 | submit is disabled iff loading, or the topic is blank, or the custom goal is selected and blank |
| CreateProjectForm.EnabledSubmissionIsFilled | src/components/projects/CreateProjectForm.tsx:149 | when submit is enabled, the submitted topic and goal each hold a non-space character |
| JournalEditor.Loaded | src/pages/JournalEditor.tsx:32-41 | loads only for a truthy id other than `new` |
| JournalEditor.EntryToSave | src/pages/JournalEditor.tsx:43-52 | keeps a loaded entry's non-empty id and creation time and its messages; else a fresh id, `now` and no messages; empty title saved as `无标题`; `updatedAt` is `now` |
| JournalEditor.SaveDisabled | src/pages/JournalEditor.tsx:124 | saving is disabled iff the content is all white space |
| JournalEditor.ResaveChangesOnlyUpdateTime | src/pages/JournalEditor.tsx:45-52 | re-saving a loaded entry unchanged only moves `updatedAt` |
| JournalEditor.SaveIdempotent | src/pages/JournalEditor.tsx:45-52 | saving the saved entry again with the same inputs gives the same entry |
| JournalEditor.JournalEditorPage.constructor | src/pages/JournalEditor.tsx:26-41 | title and content come from the loaded entry, else empty |
| JournalEditor.JournalEditorPage.SetTitle | src/pages/JournalEditor.tsx:28 | sets the title cell |
| JournalEditor.JournalEditorPage.SetContent | src/pages/JournalEditor.tsx:29 | sets the content cell |
| JournalEditor.JournalEditorPage.HandleSave | src/pages/JournalEditor.tsx:43-64 | saves the entry, one toast, navigates to `/journal/<id>` only when the route id is literally `new`, keeps the entry in state |
| JournalEditor.JournalEditorPage.HandleDelete | src/pages/JournalEditor.tsx:66-74 | deletes and toasts only when an entry is loaded; always navigates to `/journal` |
| JournalEditor.NewEntryPage | src/App.tsx:37-38 | the app's new-entry route `/journal/new` gives the editor no id, so `isNew` (JournalEditor.tsx:26) is false: typing and saving stores an entry with the fresh id, logs no navigation, and the delete button (JournalEditor.tsx:100) is shown |
| JournalCard.IndexOf | src/components/journal/JournalCard.tsx:25 | the first position of the character |
| JournalCard.IndexOfIs | src/components/journal/JournalCard.tsx:25 | a position holding the character with no earlier occurrence is the first position |
| JournalCard.StripTags | src/components/journal/JournalCard.tsx:25 | never longer than the input; keeps only characters of the input |
| JournalCard.StripTagsKeepsPlainPrefix | src/components/journal/JournalCard.tsx:25 | a prefix without `<` is kept unchanged in front of the stripped rest |
| JournalCard.StripTagsRemovesTag | src/components/journal/JournalCard.tsx:25 | a leading `<…>` with no `>` inside is removed entirely |
| JournalCard.StripTagsKeepsUnclosed | src/components/journal/JournalCard.tsx:25 | a `<` with no later `>` is kept |
| JournalCard.StripTagsKeepsOutsideMatches | src/components/journal/JournalCard.tsx:25 | in `u + <x> + v` with no `<` in `u` and no `>` in `x`, the tag goes and `u` is kept in front of the stripped `v` |
| JournalCard.StripTagsKeepsUntagged | src/components/journal/JournalCard.tsx:25 | text with no `<` followed later by `>` is unchanged |
| JournalCard.NoTagRemains | src/components/journal/JournalCard.tsx:25 | after stripping, no `<` is followed anywhere later by `>` |
| JournalCard.StripTagsFixedPoints | src/components/journal/JournalCard.tsx:25 | stripping leaves a text unchanged iff the pattern matches nowhere in it; text without `<` is unchanged |
| JournalCard.DisplayTitle | src/components/journal/JournalCard.tsx:22 | the title, or `无标题` when empty |
| JournalCard.Preview | src/components/journal/JournalCard.tsx:25 | the stripped content's prefix of length min(100, its length), followed by `...` |
| JournalCard.PreviewOfPlainText | src/components/journal/JournalCard.tsx:25 | for content without `<`, the preview body is the content's prefix of length min(100, length) |
| JournalCard.HasMessages | src/components/journal/JournalCard.tsx:12 | holds iff the entry has at least one message |
| JournalCard.MessageBadge | src/components/journal/JournalCard.tsx:12-43 | a badge appears iff there are messages; it reads the message count in decimal followed by ` 条对话` |
| ChatInterface.ChatBox.constructor | src/components/chat/ChatInterface.tsx:21 | empty input, nothing sent |
| ChatInterface.ChatBox.SetInput | src/components/chat/ChatInterface.tsx:111 | sets the input cell |
| ChatInterface.ChatBox.HandleSubmit | src/components/chat/ChatInterface.tsx:29-35 | blank input or loading: nothing changes; else exactly the trimmed input is sent once and the input cleared; sent messages are non-blank and trimmed |
| ChatInterface.SendKeepsTrimmed | src/components/chat/ChatInterface.tsx:31-33 | sending a non-empty trimmed message keeps every sent message non-empty and trimmed |
| ChatInterface.ChatBox.HandleKeyDown | src/components/chat/ChatInterface.tsx:37-42 | Enter without Shift submits and suppresses the newline; any other key changes nothing |
| ChatInterface.SendDisabled | src/components/chat/ChatInterface.tsx:120 | the send button is disabled, as `handleSubmit` refuses at line 31, iff loading or the input is all white space |
| ChatInterface.SubmitsOnKey | src/components/chat/ChatInterface.tsx:38 | neither Shift+Enter nor any key other than Enter submits |
| Dashboard.FirstAtMost | src/pages/Index.tsx:12-13 | a prefix of at most 3 items, the whole list when shorter |
| Dashboard.SumCompleted | src/pages/Index.tsx:14-17 | 0 for no projects |
| Dashboard.SumCompletedBounded | src/pages/Index.tsx:14-17 | the completed sum never exceeds the chapter total |
| Dashboard.JsRemainder60 | src/pages/Index.tsx:51 | JavaScript `%` by 60: in [0, 60) for non-negative input, in (-60, 0] for negative |
| Dashboard.Hours | src/pages/Index.tsx:50 | `Math.floor(m / 60)`: the largest h with h·60 ≤ m; non-negative for m ≥ 0 |
| Dashboard.HoursAndMinutes | src/pages/Index.tsx:50-51 | hours·60 + minutes = m and 0 ≤ minutes < 60 for m ≥ 0 |
| Dashboard.DashboardStats | src/pages/Index.tsx:11-17 | exactly `slice(0, 3)` of the stored projects and of the stored entries, so min(3, count) of each; completed chapters summed over the shown projects only, 0 with none stored |
| Dashboard.OnlyShownProjectsCount | src/pages/Index.tsx:12-17 | projects stored after the first three never change the completed sum |
| Text.TrimStartRemovesLeadingSpace | src/hooks/use-llm-chat.ts:77 | the trimmed-start text is a suffix of the input, everything dropped is white space, and it does not start with white space |
| Text.TrimEndRemovesTrailingSpace | src/hooks/use-llm-chat.ts:77 | the trimmed-end text is a prefix of the input, everything dropped is white space, and it does not end with white space |
| Text.TrimSpec | src/hooks/use-llm-chat.ts:77 | `trim` leaves no outer white space and yields `""` iff the input is all white space |
| Text.TrimLeavesNoOuterSpace | src/hooks/use-llm-chat.ts:77 | the trimmed text is empty or starts and ends with a non-space |
| Text.TrimmedAwayIsBlank | src/components/chat/ChatInterface.tsx:31 | text that trims to `""` is all white space |
| Text.BlankTrimsStartAway | src/components/chat/ChatInterface.tsx:31 | all-white-space text loses everything to the leading trim |
| Text.TrimStart | src/hooks/use-llm-chat.ts:77 | a suffix of the input; unchanged when the input starts with a non-space |
| Text.TrimEnd | src/hooks/use-llm-chat.ts:77 | a prefix of the input; unchanged when the input ends with a non-space |
| Text.Trim | src/hooks/use-llm-chat.ts:77 | never longer; unchanged when the input starts and ends with a non-space |
| Text.TrimEmptyIffBlank | src/components/chat/ChatInterface.tsx:31 | `trim()` is empty iff every character is white space |
| Text.TrimIdempotent | src/components/chat/ChatInterface.tsx:32 | trimming the trimmed input changes nothing |
| Text.Take | src/pages/CreateProject.tsx:45 | `substring(0, n)` is a prefix of length min(n, length) |
| Text.OrElse | src/pages/JournalEditor.tsx:46-51 | `a \|\| b` on strings |
| Text.Decimal | src/components/journal/JournalCard.tsx:41 | the decimal numeral is non-empty, all digits, with no leading zero, and one digit long iff the number is below 10 |
| Text.DecimalValueOfDecimal | src/components/journal/JournalCard.tsx:41 | the numeral written for `n` denotes `n` |
| Text.DecimalOfDecimalValue | src/components/journal/JournalCard.tsx:41 | every numeral without a leading zero is the one written for the number it denotes |
| Text.DecimalInjective | src/components/journal/JournalCard.tsx:41 | two numbers are written alike only when they are equal |
| Wire.ContentOr | src/hooks/use-llm-chat.ts:57 | the reply content when present and non-empty, else the fallback |

## Left out

- Byte-level UTF-8 decoding by `TextDecoder`. Chunks are already-decoded strings, so a character split across reads is not modelled.
- JavaScript string length counts UTF-16 code units, but here strings are sequences of code points. `substring(0, 20)` can cut a surrogate pair in the source; that is not modelled.
- `JSON.parse`, `JSON.stringify` and the optional-chaining lookups are oracles, or typed values standing for the JSON text.
  - A stored value of the wrong shape under a storage key reads as absent. The source would return whatever was parsed.
  - In the buffered relay path, `DataBody` carries the upstream JSON unchanged. Re-serialisation by `JSON.stringify` is a normalisation that is not modelled.
- JavaScript `number` fields (`score`, `maxScore`, `points`, `totalLearningMinutes`, `level`, `timePerDay`, `durationDays`) are integers here; the app writes only whole numbers to them (the sliders move by whole steps of 1, 15 and 7, and `updateDimension` has no caller), so non-integer values are not modelled.
- Network I/O is not modelled: `fetch`, `supabase.functions.invoke`, response bodies and stream readers. Their results are parameters, and in-flight stream transfer is out of scope.
- The relay logs `messages.length`, which throws when `messages` is missing (the 500 path); the model's request always has messages. A `null` `data` in a buffered reply is not modelled.
- An exception thrown by an `onDelta` callback is not modelled. Calls are recorded, not executed.
- Clocks and randomness are parameters: `generateId()`, `new Date().toISOString()` and `Math.random()`.
- The 1.5 s, 1 s and other `setTimeout` delays, and async interleaving, are not modelled. Each handler runs as one sequence.
- React rendering, focus and scrolling, toasts and navigation are not modelled. Toasts, navigations and the calls to `onSendMessage` are kept only as logs.
- The companion persona prompt in src/pages/JournalChat.tsx is a constructor parameter instead of the fixed text.
- JournalChat.JournalChatPage: the stored settings are read once per render, as in the source, and the page constant stands for that read.
- CreateProject.CreateProjectPage.HandleSubmit: the `catch` branch is not modelled. `saveProject` cannot fail in the in-memory store.
- JournalCard.HasMessages: a stored entry always has a `messages` list, so the "present" half of `messages && messages.length > 0` is not modelled.
- The optional `subChapters` field of a chapter (src/lib/storage.ts:28) and the `SubChapter` and `SkillReward` types (src/lib/storage.ts:33-47) are not modelled; no operation of the modelled pages or of the storage functions reads or writes them.
- CreateProject.NewProject: the literal at src/pages/CreateProject.tsx:43-54 sets no `learningObjectives`, so the field is undefined there; the model has no absent field and stores the empty list. Likewise each chapter from `generateMockChapters` (src/pages/CreateProject.tsx:27-33) has no `objectives`, stored as the empty list.
- CreateProjectForm.Submission: requires each slider to hold a value; the Slider component always reports one per thumb.
- Not part of this model:
  - the OAuth flow (supabase/functions/linuxdo-auth/index.ts, src/pages/Auth.tsx, src/hooks/useAuth.ts);
  - the date-sorted journal list (src/pages/Journal.tsx) and date formatting in the journal card;
  - the settings form (src/pages/Settings.tsx), whose configured check is `isConfigured`;
  - layout and rendering files.
- Behaviour of the code that the model keeps as written:
  - an empty `systemPrompt` adds no system message, because the relay tests it for truthiness;
  - a non-ok upstream response is wrapped as `{error: 'LLM API error: <status>', details}`, and its body is not passed through;
  - each delta goes to up to two callbacks, the per-call one first;
  - the preflight answer has status 200.
