# WhatsApp AI relay: a Dafny model

The system relays WhatsApp chats to a chat-completion model and shows them in a browser
dashboard. This project models both sides of it.

**The server** (`src/whatsapp.js`, `src/routes.js`, `src/ai.js`, `src/config.js`, and the legacy
single-file `index.js`):

- It receives Baileys message upserts.
- It skips messages that are its own, have no content or have no text.
- It records each inbound message in a per-chat conversation store. The store is idempotent by
  message id and capped at 50 messages.
- It skips chats that are paused.
- It prompts the model with the system prompt, the last five stored messages and the inbound
  text.
- It sends back the completion, or a fallback text chosen by the error. It then records that
  reply as its own message. An error while building the AI client (no API key at all) is not
  turned into a fallback: it is only logged, and the message gets no reply.
- It also tracks the connection status through `connection.update` events, with its reconnect
  decision.
- It serves an HTTP API:
  - conversation summaries and reading one conversation;
  - renaming and deleting contacts, deleting a message;
  - settings, the manual send, and the per-chat pause toggle.
- Broadcasts over Socket.IO are a log field of the server object. So are the `config.json`
  snapshots and the `.env` writes.

**The dashboard** (`public/js/*.js`):

- It keeps a shared state object. The cached conversations are keyed by jid.
- It merges socket events into that cache, and refreshes the cache after a reconnect.
- It sorts and filters the contact list.
- It labels contacts and messages.
- It appends a manually sent message optimistically.
- It deletes, clears and exports chats.
- It turns a typed phone number into a jid.
- It searches the rendered messages and moves between the results.
- It retries its start-up fetches with exponential back-off.
- It clears browser autofill from the search box.

**How the model is built.**

- Code that updates state in place is a `class` with `modifies` clauses. The server state is
  `ServerState.Server` and `Legacy.LegacyServer`; the dashboard state is `ClientState.State`,
  and the search box is `Events.SearchBox`.
- Each such method is specified by a function over the old state (`Relay`, `UpdatedStore`,
  `OverwriteAll`, `AfterAttempt`, ...), and the properties are proved about those functions.
- Pure code is written as functions and lemmas.
- JavaScript value rules are written out:
  - `||` on strings (`Js.OrElse`);
  - `trim` with every ECMAScript white space and line terminator, `toLowerCase` on the Basic
    Latin and Latin-1 letters, `includes`, `split('@')[0]`;
  - `String.length` in UTF-16 code units;
  - the truncating `%`;
  - the `"null"` key that `conversations[null]` reads.
- Clocks, randomness, fetch and completion outcomes, socket results and dialog answers are
  parameters.

## Model

| member | source | states |
|---|---|---|
| Js.Trim | public/js/ui-handlers.js:67 | the result is a slice of the text with only white space before and after it, neither starts nor ends with white space, is empty exactly for an all-space text, and is the text itself when it has no white space |
| Js.Lower | public/js/chat.js:12 | lowering keeps the length and maps each character on its own: Basic Latin and Latin-1 capitals to their small letters, anything else unchanged |
| Js.AccentedCapitalLowers | public/js/chat.js:18-19 | a Latin-1 capital is lowered like its ASCII counterparts, so "\u00C9lodie" and "\u00E9lodie" compare equal once lowered |
| Messages.WithoutId | src/routes.js:74 | filtering out an id leaves no message with it and never grows the list; an absent id leaves the list as it was |
| Messages.WithoutIdMember | src/routes.js:74 | a message survives the filter exactly when it was in the list and carries another id |
| Messages.WithoutIdConcat | public/js/chat.js:193 | the filter works element by element, so survivors keep their relative order across any split |
| Messages.WithoutIdRemovesOne | src/routes.js:74 | with unique ids, deleting the id at position k removes exactly that message and keeps the rest in order |
| Messages.WithoutIdKeepsUnique | src/routes.js:74 | deleting keeps ids unique, and deleting the same id again changes nothing |
| ConversationStore.KeepLatest | src/whatsapp.js:174-177 | the kept history is at most 50 long and is the newest suffix of the list |
| ConversationStore.Appended | src/whatsapp.js:173-178 | after an append the id is present; a stored id leaves the list unchanged; a new one is pushed and the list trimmed to the newest 50 |
| ConversationStore.AppendedKeepsUnique | src/whatsapp.js:173-174 | appending keeps message ids unique |
| ConversationStore.AppendedEvictsOldest | src/whatsapp.js:174-177 | at the cap a new message drops exactly the oldest and keeps the other 49 in order |
| ConversationStore.AppendedIdempotent | src/whatsapp.js:173 | delivering the same message twice equals delivering it once |
| ConversationStore.KeepLatestAbsorbs | src/whatsapp.js:174-177 | trimming early and trimming once at the end keep the same newest 50 |
| ConversationStore.AppendAllKeepsLatest | src/whatsapp.js:173-177 | appending messages with distinct ids one by one leaves exactly the newest 50 of all of them, in order |
| ConversationStore.AppendAllFromEmpty | src/whatsapp.js:173-177 | into an empty history, distinct messages leave the newest 50 |
| ConversationStore.FiftyOneMessagesKeepLastFifty | src/whatsapp.js:175-176 | 51 distinct messages into an empty history lose only the first |
| ConversationStore.NewConversation | src/whatsapp.js:163-171 | a new entry has the jid, no messages, the pause membership, the clock, and the jid with '@s.whatsapp.net' removed as its name |
| ConversationStore.NewConversationNamedByNumber | src/whatsapp.js:166 | the jid number@s.whatsapp.net is named by the number |
| ConversationStore.NewConversationKeepsOtherJids | src/whatsapp.js:166 | a jid without the suffix is its own name |
| ConversationStore.UpdatedConversation | src/whatsapp.js:160-180 | the entry keeps jid, name and pause flag, gets the append, and lastMessage is the timestamp or else the clock; an unknown jid gets a fresh entry holding just the message |
| ConversationStore.UpdatedStore | src/whatsapp.js:160-182 | only the entry of the jid changes, and the jid is added when missing |
| ConversationStore.UpdatedStoreKeepsInvariant | src/whatsapp.js:160-182 | every entry stays filed under its jid, within 50 messages, with unique ids |
| ConversationStore.UpdateReplayIsNoOp | src/whatsapp.js:173-180 | replaying the same message at the same clock leaves the store as one call does |
| Ai.WithDeadline | src/ai.js:18-21 | a call lasting at least the timeout throws the error the client raises on abort, whatever it would have returned; a faster call keeps its outcome; a client that cannot be built throws before the timer exists |
| Ai.FallbackFor | src/ai.js:42-50 | AbortError gives the timeout text whatever the status; otherwise 429 the rate-limit text, 401 the invalid-config text, anything else the generic text |
| Ai.FallbacksAreDistinct | src/ai.js:42-50 | every fallback is one of the four texts, and the four differ |
| Ai.GenerateResponse | src/ai.js:18-56 | success iff the first choice has content, and then its text; an error thrown inside the try becomes a failure with its message and its fallback; a malformed completion fails with the generic fallback; the promise rejects, with the error's message, exactly when building the client threw |
| Ai.TypeErrorsGetGenericFallback | src/ai.js:42-50 | the TypeError of a malformed completion is classified as generic |
| Ai.SlowCallFallsBackToTimeout | src/ai.js:18-21 | a call outlasting the timeout fails with the abort error's message and its fallback, which is the timeout text exactly when the client names that error AbortError; a client that cannot be built still rejects |
| Ai.ReplyText | src/whatsapp.js:129-136 | for a returned record, the reply is the completion text on success, the fallback on failure |
| Ai.FailureRepliesWithFallback | src/whatsapp.js:129-136 | a failure record (every error caught inside the try) still yields a non-empty reply, one of the four fallbacks |
| Config.InitConfig | src/config.js:41-48 | apiKey, baseUrl and modelName are the truthy saved value, else the environment's; baseUrl and modelName then get their defaults; systemPrompt ignores the environment |
| Config.InitConfigStableAcrossRestart | src/config.js:27-48 | saving the initialised configuration and initialising from it again gives the same configuration |
| Config.PausedList | src/config.js:31 | the array holds each paused jid exactly once and nothing else |
| Config.SaveConfig | src/config.js:27-32 | the snapshot is the configuration plus exactly the members of the pause set |
| Config.LoadConfig | src/config.js:13-24 | the parsed object, or null when the file is missing, unreadable or malformed |
| Config.FailedLoadUsesEnvAndDefaults | src/config.js:41-47 | after a failed load every field comes from the environment or the defaults |
| ServerState.StatusText | src/whatsapp.js:30-50 | each status is stored and broadcast as a non-empty string |
| ServerState.Server.constructor | src/routes.js:9 | the server starts with its loaded store, pause set and configuration, disconnected, with no QR code, no socket, and nothing broadcast or saved |
| WhatsApp.ExtractText | src/whatsapp.js:78-83 | the text is the first non-empty of the four fields, and empty only when all are |
| WhatsApp.Recent | src/whatsapp.js:111 | the window is the last min(5, n) messages |
| WhatsApp.HistoryTurns | src/whatsapp.js:106-118 | the loop builds one turn per recent message, in order |
| WhatsApp.PromptShape | src/whatsapp.js:107-124 | the prompt is the system turn, then one turn per recent message (own messages as assistant, others as user), then the inbound text as user |
| WhatsApp.InboundTextAppearsTwice | src/whatsapp.js:88-124 | a newly recorded inbound text reaches the model twice, as the last history turn and as the final user turn |
| WhatsApp.NewMessageIsLast | src/whatsapp.js:173-177 | a message with a new id is the last stored one after the update |
| WhatsApp.LastHistoryTurn | src/whatsapp.js:110-124 | the turn just before the inbound text is the newest stored message |
| WhatsApp.UpdateConversation | src/whatsapp.js:160-182 | the store becomes UpdatedStore, conversation_update is broadcast with the new entry, and the invariant is kept |
| WhatsApp.Relay | src/whatsapp.js:68-158 | handling a message always begins by logging it as received |
| WhatsApp.Recorded | src/whatsapp.js:87-93 | recording the inbound message adds its jid to the store, the message id is then stored there, and no other chat changes |
| WhatsApp.AfterRecord | src/whatsapp.js:95-157 | the handling stops as Paused exactly for a paused chat, and as a presence failure exactly without a socket or when the composing update fails; the store keeps its keys and changes only by a reply |
| WhatsApp.Answer | src/whatsapp.js:106-157 | the model's turn ends in a reply, a failed send or a rejection; something is always broadcast; the store keeps its keys and changes only by a reply |
| WhatsApp.RelayAll | src/whatsapp.js:59-65 | a batch broadcasts at least one event per message |
| WhatsApp.AnswerOutcome | src/whatsapp.js:106-157 | the prompt comes from the recorded history; a rejected generateResponse ends the handling with the store as it was; otherwise the reply is the text or the fallback, and the store changes only after a successful send and presence update, and only by our reply |
| WhatsApp.AnswerEvents | src/whatsapp.js:127-157 | a rejected generateResponse broadcasts only its error log; otherwise ai_error comes first exactly when the model failed, then the outgoing log, then the stored reply or the error log |
| WhatsApp.ReplyEvents | src/whatsapp.js:129-152 | once generateResponse has returned, ai_error is broadcast first exactly when the model failed, then the outgoing log of the reply, then either the stored conversation or the log of the failed send |
| WhatsApp.ReplyStoredAsOwnMessage | src/whatsapp.js:146-152 | when the client could be built and the send succeeds, the reply is the last stored message, from us |
| WhatsApp.SkippedMessagesOnlyLogged | src/whatsapp.js:73-83 | no content, own or no text: only the inbound log, and the store is untouched |
| WhatsApp.InboundRecordedFirst | src/whatsapp.js:87-100 | every other message is recorded and broadcast before the pause check; afterwards the store changes only by our reply |
| WhatsApp.AnswerWhenReached | src/whatsapp.js:102-157 | after recording, the store changes only when the model is asked, and then by our reply |
| WhatsApp.PausedChatRecordedWithoutReply | src/whatsapp.js:95-100 | a paused chat's message is stored and broadcast, then only the skip notice follows |
| WhatsApp.NoSocketNoCompletion | src/whatsapp.js:103-104 | without a socket, or when the composing update fails, the model is not asked and the error is logged |
| WhatsApp.ReachedChatIsAnswered | src/whatsapp.js:102-157 | past the pause and presence steps, the rest of the handling is Answer on the store that holds the inbound message |
| WhatsApp.RelayTouchesOnlyItsChat | src/whatsapp.js:68-158 | handling a message changes at most its own chat's entry |
| WhatsApp.RelayKeepsInvariant | src/whatsapp.js:68-158 | handling a message keeps the store invariant |
| WhatsApp.HandleIncomingMessage | src/whatsapp.js:68-158 | the store and the broadcast log become those of Relay, and the invariant holds |
| WhatsApp.RespondToInbound | src/whatsapp.js:95-104 | the pause check and presence step act as AfterRecord |
| WhatsApp.AnswerInbound | src/whatsapp.js:106-157 | prompt building, reply choice, send and recording act as Answer, including the logged rejection |
| WhatsApp.SendReply | src/whatsapp.js:129-152 | the broadcasts, the send and the recording of the reply act as the reply step, and the pause set, configuration, status, QR code and socket are left unchanged |
| WhatsApp.SkippedBatchOnlyLogged | src/whatsapp.js:59-65 | a batch of skipped messages leaves the store alone and logs each message once, in order |
| WhatsApp.RelayAllKeepsInvariant | src/whatsapp.js:59-65 | a whole batch keeps the store invariant |
| WhatsApp.RelayAllStep | src/whatsapp.js:62-64 | handling one more message of a batch is Relay on the store the earlier ones left, its events appended |
| WhatsApp.HandleUpsert | src/whatsapp.js:59-65 | non-notify batches change nothing; a notify batch is handled message by message, in order |
| WhatsApp.ShouldReconnect | src/whatsapp.js:38-39 | a close is final exactly when it carries a Boom error whose status code is loggedOut |
| WhatsApp.AfterUpdate | src/whatsapp.js:29-53 | qr sets waiting_for_scan and stores the code; open connects and clears it; close disconnects and keeps any pending code |
| WhatsApp.ScanThenOpenConnects | src/whatsapp.js:29-53 | a QR event then open ends connected with no QR code, from any state |
| WhatsApp.CloseKeepsPendingQr | src/whatsapp.js:37-43 | a close without a qr keeps the stored QR code and only broadcasts disconnected |
| WhatsApp.TransientCloseRecovers | src/whatsapp.js:37-53 | a close that reconnects, followed by open, ends connected with no QR code |
| WhatsApp.UpdateEvents | src/whatsapp.js:29-53 | nothing is broadcast exactly when the update has no QR code, no open and no close; connected is broadcast iff it opens, disconnected iff it closes, waiting_for_scan iff it carries a QR code |
| WhatsApp.ConnectionUpdate | src/whatsapp.js:26-54 | the status and QR code become AfterUpdate, the broadcasts are UpdateEvents, and it reconnects exactly on a close that ShouldReconnect allows |
| Routes.SummaryOf | src/routes.js:25-31 | a summary carries the entry's jid, name, time and pause flag, and the newest message's text, or '' |
| Routes.LastTextShowsLatest | src/routes.js:29 | the summary's lastText is the newest message's text, and empty for no messages |
| Routes.ListSummaries | src/routes.js:23-33 | one summary per stored conversation: as many summaries as entries, every entry's summary listed, and every listed summary built from some entry (each key visited once) |
| Routes.GetConversation | src/routes.js:36-40 | a stored jid gives its entry; an unknown one gives the placeholder {jid, name: jid, messages: []} and stores nothing |
| Routes.RenameContact | src/routes.js:43-54 | an existing entry changes only its name and contact_updated is broadcast; an unknown jid is a 404 with nothing changed |
| Routes.DeleteContact | src/routes.js:57-67 | exactly that key is removed and contact_deleted is broadcast; an unknown jid is a 404 |
| Routes.DeletedKeyOnly | src/routes.js:60-61 | after the delete the key is gone and every other entry is as it was |
| Routes.DeleteMessage | src/routes.js:70-79 | a known chat loses every message with the id and keeps the rest; an absent id still succeeds; an unknown chat is a 404 |
| Routes.DeleteMessageRemovesExactlyOne | src/routes.js:74 | with unique ids one message goes; with an absent id the list is unchanged |
| Routes.UpdateSettings | src/routes.js:82-91 | the four fields replace the configuration, and one snapshot of it with exactly the paused chats is saved |
| Routes.SettingsSurviveRestart | src/routes.js:87-88 | settings with four non-empty fields come back after a restart |
| Routes.ClearedSettingFallsBack | src/routes.js:87-88 | an emptied base URL or system prompt is replaced by the environment or the default after a restart |
| Routes.Send | src/routes.js:94-109 | refused unless connected with a socket; a send error is a 500 with its message; success is only logged, never stored |
| Routes.Toggled | src/routes.js:117-123 | the chat is in the new set iff the action is 'pause'; every other chat keeps its membership |
| Routes.ToggledMembership | src/routes.js:117-123 | the chat is paused afterwards iff the action is 'pause'; no other chat changes; repeating changes nothing |
| Routes.PauseThenResumeRestores | src/routes.js:117-123 | pausing then resuming an unpaused chat restores the set |
| Routes.ToggleBot | src/routes.js:112-129 | the set is toggled and saved, and the broadcast and the response carry the new membership |
| Routes.PausedChatGetsNoReply | src/routes.js:117-118 | after a pause toggle the chat's next text message is recorded but not answered |
| Legacy.LegacyServer.constructor | index.js:24-33 | start-up state: configuration from the environment, no socket, disconnected, nothing paused |
| Legacy.InitialConfigIsInitWithoutFile | index.js:25-30 | the legacy start-up configuration equals initConfig with nothing saved |
| Legacy.ConnectToWhatsApp | index.js:44-51 | after the call a socket exists and nothing else changes |
| Legacy.LegacyConnectionUpdate | index.js:53-83 | behaves as the modular listener, except that a close without lastDisconnect throws after the QR step |
| Legacy.CloseWithoutReasonIsLost | index.js:65-67 | such a close leaves the legacy status as it was, where the modular server disconnects and reconnects |
| Legacy.LegacyPrompt | index.js:123-126 | the legacy prompt is the modular prompt over an empty history: two turns |
| Legacy.LegacyRelay | index.js:87-142 | every message is logged first; it is ignored exactly when skipped, and paused exactly when its chat is paused |
| Legacy.LegacyAnswer | index.js:115-141 | the try block ends in a reply or a logged failure; a reply uses the two-turn prompt and happens exactly when the composing update, the completion (with a first choice) and the send all succeed |
| Legacy.LegacyPausedChatSkipped | index.js:108-113 | a paused chat's message is logged and skipped, and nothing is recorded |
| Legacy.LegacyRelayOutcomes | index.js:87-142 | skipped messages are only logged; replies use the two-turn prompt; a thrown completion error, or an error building the client, is only logged, with no fallback reply |
| Legacy.LegacyHandleMessage | index.js:90-142 | the broadcasts and the outcome are those of LegacyRelay, and no state but the log changes |
| Legacy.LegacyTry | index.js:115-141 | the try/catch block acts as LegacyAnswer |
| Legacy.LegacyRelayAll | index.js:87-143 | a batch broadcasts at least one event per message |
| Legacy.LegacyBatchLogsEachMessage | index.js:87-94 | every message of a batch is logged as received |
| Legacy.LegacyHandleUpsert | index.js:87-143 | non-notify batches change nothing; otherwise the log grows by LegacyRelayAll |
| Legacy.EnvContentHasThreeLines | index.js:156 | the .env text splits into exactly the API_KEY, BASE_URL and MODEL_NAME lines |
| Legacy.LegacySettings | index.js:151-160 | the four fields replace the configuration, and the three-line text is written |
| Legacy.EnvRead | index.js:13 | a value read from the .env lines is the rest of a line that starts with its key and '=' |
| Legacy.ReadThreeLines | index.js:156 | each of API_KEY, BASE_URL and MODEL_NAME reads back exactly the value written on its line |
| Legacy.SettingsAfterRestart | index.js:151-157 | after the settings route and a restart the key, URL and model come back from .env (an unset one as the text "undefined"), and the system prompt is the default whatever was posted |
| Legacy.StrictEquals | index.js:164 | values of different types are never strictly equal; equal values are |
| Legacy.LegacyGuardRejects | index.js:164 | the guard as written rejects exactly when there is no socket |
| Legacy.GuardIgnoresStatus | index.js:164 | a send passes the guard while disconnected or waiting for a scan |
| Legacy.LegacySend | index.js:162-173 | rejected only without a socket; otherwise as the modular send |
| Legacy.LegacyToggleBot | index.js:175-186 | the same set update, broadcast and response as the modular toggle, with nothing saved |
| ClientState.OverwriteAllUntouched | public/js/socket-handlers.js:185-188 | a key no listed entry carries keeps its cached entry, or stays absent |
| ClientState.OverwriteAllLastWins | public/js/socket-handlers.js:185-188 | the last listing of a jid is what the cache holds for it |
| ClientState.OverwriteAllKeyedByJid | public/js/socket-handlers.js:185-188 | writing a list keeps every entry filed under its jid |
| ClientState.OverwriteAllConcat | public/js/socket-handlers.js:185-188 | writing two lists one after the other equals writing them joined |
| ClientState.State.constructor | public/js/state.js:8-17 | the initial state: no conversations, no open chat, nothing paused, no context menu, not connected, no search, index -1 |
| ClientState.State.SetConversations | public/js/state.js:41 | replaces the conversations and nothing else |
| ClientState.State.SetCurrentJid | public/js/state.js:42 | replaces the open chat and nothing else |
| ClientState.State.SetPausedChats | public/js/state.js:43 | replaces the pause set and nothing else |
| ClientState.State.SetContextMenuJid | public/js/state.js:44 | replaces the context-menu chat and nothing else |
| ClientState.State.SetSocketConnected | public/js/state.js:45 | replaces the link flag and nothing else |
| ClientState.State.SetSearchResults | public/js/state.js:46 | replaces the results and nothing else |
| ClientState.State.SetCurrentSearchIndex | public/js/state.js:47 | replaces the active index and nothing else |
| ClientState.State.SetSearchQuery | public/js/state.js:48 | replaces the query and nothing else |
| ClientState.State.UpdateConversation | public/js/state.js:51 | sets that entry to the data; the other entries and fields are unchanged |
| ClientState.State.DeleteConversation | public/js/state.js:52 | removes only that jid; an absent jid is a no-op |
| ClientState.StoreAll | public/js/socket-handlers.js:185-188 | the loop writes each listed conversation under its jid, in list order (OverwriteAll) |
| SocketHandlers.LastTextOf | public/js/socket-handlers.js:60 | the text of the payload's last message, or empty |
| SocketHandlers.MergedEntry | public/js/socket-handlers.js:55-62 | the whole entry is replaced: messages come from the payload, else the cache, else empty; the preview is the last payload text, else the payload preview; isPaused is local membership |
| SocketHandlers.ConversationUpdateIdempotent | public/js/socket-handlers.js:55-62 | the same conversation_update twice equals it once |
| SocketHandlers.PayloadMessagesOverrideCache | public/js/socket-handlers.js:59 | a payload with messages gives the same entry whatever was cached |
| SocketHandlers.OnConversationUpdate | public/js/socket-handlers.js:46-71 | the cache entry becomes MergedEntry and nothing else changes |
| SocketHandlers.CreatedEntry | public/js/socket-handlers.js:76-83 | an unknown jid gets an entry named by the jid before '@', with no messages |
| SocketHandlers.WithNewMessage | public/js/socket-handlers.js:85-88 | the message is pushed, its timestamp is the time, and its text, else '[Media]', is the preview |
| SocketHandlers.AfterNewMessage | public/js/socket-handlers.js:73-88 | only the jid's entry changes, and it is created when missing |
| SocketHandlers.NewMessageAppended | public/js/socket-handlers.js:76-88 | the message ends last after the cached ones; an unknown jid gets just that message |
| SocketHandlers.RepeatedNewMessageDuplicates | public/js/socket-handlers.js:85-86 | there is no dedup: the same event twice stores two copies |
| SocketHandlers.NewContactNamedByNumber | public/js/socket-handlers.js:79 | a new number@domain is named by the number |
| SocketHandlers.OnNewMessage | public/js/socket-handlers.js:73-105 | the cache becomes AfterNewMessage and nothing else changes |
| SocketHandlers.PauseSetAfter | public/js/socket-handlers.js:108-112 | the chat is in the set iff the event says paused; other chats are unchanged |
| SocketHandlers.PauseFlagAfter | public/js/socket-handlers.js:114-116 | only an existing entry's flag is set; no entry is created |
| SocketHandlers.PauseEventAgreesAndRepeats | public/js/socket-handlers.js:107-116 | set and flag agree after the event, and a repeat changes nothing |
| SocketHandlers.OnAiStatusChanged | public/js/socket-handlers.js:107-123 | the set and the cache become PauseSetAfter and PauseFlagAfter |
| SocketHandlers.OnContactUpdated | public/js/socket-handlers.js:125-131 | a cached entry is renamed; otherwise the cache is unchanged |
| SocketHandlers.RefreshAfterReconnect | public/js/socket-handlers.js:178-200 | a fetched list overwrites entries in order; a failed fetch changes nothing |
| SocketHandlers.RefreshOverwritesListedOnly | public/js/socket-handlers.js:185-188 | unlisted entries stay, and the last listing of a jid wins |
| SocketHandlers.IndicatorFor | public/js/socket-handlers.js:158-164 | 'connected' and 'reconnecting' map to their indicators; any other key maps to offline |
| SocketHandlers.IndicatorKeysRoundTrip | public/js/socket-handlers.js:158-164 | each indicator is reached by its own key, and the three texts differ |
| SocketHandlers.UnknownStatusShowsOffline | public/js/socket-handlers.js:164 | an unknown status shows the offline text |
| SocketHandlers.OnReconnectFailed | public/js/socket-handlers.js:40-43 | the indicator shows offline |
| SocketHandlers.OnConnect | public/js/socket-handlers.js:16-20 | the link flag is set, connected is shown, and nothing else changes |
| SocketHandlers.OnDisconnect | public/js/socket-handlers.js:22-31 | the flag is cleared; reconnecting is shown iff the client is still active, else offline |
| SocketHandlers.OnReconnect | public/js/socket-handlers.js:33-38 | the flag is set, connected is shown, and the cache is refreshed |
| Chat.Insert | public/js/chat.js:13 | insertion keeps the list newest-first and adds exactly the element |
| Chat.SortByRecency | public/js/chat.js:13 | the result is a newest-first permutation of the contacts |
| Chat.FilterContacts | public/js/chat.js:17-20 | a contact is kept iff its lowered name or jid contains the term |
| Chat.FilterKeepsNewestFirst | public/js/chat.js:15-20 | filtering keeps the newest-first order |
| Chat.EmptyTermKeepsAll | public/js/chat.js:16 | an empty term keeps the list as it is |
| Chat.VisibleContacts | public/js/chat.js:11-30 | the list never grows, and an empty lowered search value shows every contact |
| Chat.VisibleContactsSpec | public/js/chat.js:11-30 | the list shows exactly the contacts matching the lowered search value, newest first; an empty box shows all |
| Chat.DisplayName | public/js/chat.js:35 | the name if set, else the jid up to the first '@' |
| Chat.UnnamedContactShowsNumber | public/js/chat.js:35 | an unnamed number@domain is shown as the number |
| Chat.MessageTypeLabel | public/js/chat.js:132-141 | the five media types map to their labels; anything else to the clip icon and the type, or 'Media' |
| Chat.LabelsAreDistinct | public/js/chat.js:132-141 | the five labels differ from each other and from every fallback label |
| Chat.MessageBody | public/js/chat.js:118 | a bubble shows the text, else the type label, and is never empty |
| Chat.SendMessage | public/js/chat.js:144-185 | blank input or no open chat does nothing; a refused request changes nothing; an accepted one appends the sent message with its text as the preview |
| Chat.SentMessageIsNewest | public/js/chat.js:162-174 | the sent message is last, from us, its text is the preview, and its clock is the chat's time |
| Chat.DeleteMessage | public/js/chat.js:188-197 | after confirmation the open chat's messages with that id are dropped; the key of no open chat is "null" |
| Chat.DeleteKeepsOthersInOrder | public/js/chat.js:193 | exactly the messages with another id survive, each on its side of any split |
| Chat.Flip | public/js/chat.js:233-237 | the chat's membership flips and no other chat changes |
| Chat.AiLabel | public/js/chat.js:200-207 | no label without an open chat; 'AI Off' iff the chat is paused, else 'AI On' |
| Chat.ToggleAI | public/js/chat.js:221-245 | with a chat open it posts the flipped value, and on delivery the membership flips |
| Chat.ToggleSwitchesLabel | public/js/chat.js:203-207 | a toggle swaps the label between 'AI On' and 'AI Off' |
| UiHandlers.DigitsOnly | public/js/ui-handlers.js:75 | the result is all digits and is the input itself when it was all digits |
| UiHandlers.StripLeadingZeros | public/js/ui-handlers.js:77 | only leading zeros are dropped, and the result does not start with zero |
| UiHandlers.WithCountryCode | public/js/ui-handlers.js:76-78 | a number starting with 62 is kept; any other becomes 62 plus the number without leading zeros |
| UiHandlers.PhoneFromInput | public/js/ui-handlers.js:67-78 | a blank input is rejected; otherwise the digits, with the country code |
| UiHandlers.IdeographicSpacesAreBlank | public/js/ui-handlers.js:67-72 | an input made only of ideographic spaces trims to nothing and is rejected |
| UiHandlers.WithCountryCodeShape | public/js/ui-handlers.js:76-78 | an all-digit number stays all digits and starts with 62 |
| UiHandlers.TrimKeepsDigits | public/js/ui-handlers.js:67 | trimming leaves an all-digit string as it is |
| UiHandlers.PhoneIsNormalForm | public/js/ui-handlers.js:75-78 | a derived number is all digits, starts with 62, and normalises to itself |
| UiHandlers.StripZerosBefore | public/js/ui-handlers.js:77 | any number of leading zeros before a non-zero rest is stripped to exactly that rest |
| UiHandlers.LocalNumberGetsCountryCode | public/js/ui-handlers.js:77 | 0812... becomes 62812... |
| UiHandlers.ConfirmNewChat | public/js/ui-handlers.js:65-95 | a blank input changes nothing; otherwise a fresh entry replaces any cached one under number@s.whatsapp.net, and that chat is opened |
| UiHandlers.RenameContact | public/js/ui-handlers.js:106-120 | a cached context-menu chat takes the trimmed name when it is not blank; otherwise nothing changes |
| UiHandlers.RenamedNameIsTrimmed | public/js/ui-handlers.js:113-114 | the stored name is already trimmed |
| UiHandlers.DeleteContact | public/js/ui-handlers.js:122-142 | after confirmation the entry is removed, and the open chat is closed iff it was that one |
| UiHandlers.ConnectionStatusText | public/js/ui-handlers.js:169-177 | 'open' gives Connected, 'connecting' gives Connecting..., anything else Disconnected |
| UiHandlers.ServerStatusesReadDisconnected | public/js/ui-handlers.js:169-177 | every status string the relay broadcasts reads Disconnected |
| UiHandlers.SafeFileName | public/js/ui-handlers.js:204 | the result has one character per UTF-16 code unit of the input and is only letters, digits and '_'; without characters above U+FFFF, every character outside [a-zA-Z0-9] becomes '_' in place |
| UiHandlers.SafeFileNameConcat | public/js/ui-handlers.js:204 | the replacement works character by character: a joined name is made safe part by part |
| UiHandlers.AstralCharBecomesTwoUnderscores | public/js/ui-handlers.js:204 | a character above U+FFFF (an emoji) becomes two underscores, since the pattern has no u flag |
| UiHandlers.SafeNameUnchanged | public/js/ui-handlers.js:204 | a name of letters, digits and '_' is left as it is |
| UiHandlers.SafeFileNameIsSafe | public/js/ui-handlers.js:204 | a safe name is only letters, digits and '_', and making it safe again changes nothing |
| UiHandlers.ExportTitle | public/js/ui-handlers.js:190 | the title is the contact's name, or its jid when the name is empty |
| UiHandlers.ExportFileName | public/js/ui-handlers.js:204 | chat-, then the title made safe (one character per UTF-16 unit), then .txt |
| UiHandlers.ExportHeader | public/js/ui-handlers.js:190-192 | the header starts with 'Chat with' and the title on its own line, and ends with a rule of 50 '=' and a blank line |
| UiHandlers.ExportLine | public/js/ui-handlers.js:195-197 | one line per message: it starts with '[' and ends with a line break right after the message's text, or '[Media]' |
| UiHandlers.Sender | public/js/ui-handlers.js:196 | 'You' for own messages, else the name, else 'Them' |
| UiHandlers.ExportLines | public/js/ui-handlers.js:194-198 | one line per message, in message order |
| UiHandlers.ExportBodyConcat | public/js/ui-handlers.js:194-198 | the body of two runs of messages is the first body followed by the second |
| UiHandlers.AppendLines | public/js/ui-handlers.js:194-198 | appending each message's line in order leaves the text so far followed by the lines of all messages, first to last |
| UiHandlers.ExportChat | public/js/ui-handlers.js:181-208 | no open chat or no messages exports nothing; otherwise the file name is the safe title and the content is the header plus one line per message |
| UiHandlers.OwnMediaLine | public/js/ui-handlers.js:196-197 | an own message without text exports as 'You: [Media]' |
| UiHandlers.ClearChat | public/js/ui-handlers.js:211-222 | after confirmation the open chat's messages become empty and nothing else changes |
| Search.RowsOf | public/js/search.js:47-50 | one row text per message bubble, in display order |
| Search.MatchingRowsSpec | public/js/search.js:47-58 | the matches among the first n rows are exactly the rows containing the query (case-insensitively), each with its own text, in increasing row order |
| Search.SearchMessages | public/js/search.js:32-74 | a short query clears the search; otherwise the loop pushes exactly the matching rows (MatchingRows), in display order, with the first one active |
| Search.JsRemainder | public/js/search.js:108-110 | the remainder takes the sign of the dividend and agrees with the mathematical one on non-negative values |
| Search.NavigationWrapsAndUndoes | public/js/search.js:104-111 | from a valid index both moves stay in range, wrap at the ends, and undo each other |
| Search.NavigateSearchResult | public/js/search.js:104-114 | no results: nothing changes; otherwise the index moves to the next or previous result, cyclically |
| Search.CounterText | public/js/search.js:133-146 | the counter is blank exactly when nothing matched and the query is shorter than two code units; an unmatched longer query reads '0 results'; with n matches it reads the active position plus one, ' of ', then n |
| Search.CounterAfterSearch | public/js/search.js:133-146 | blank for a short query, '0 results' for an unmatched long one, '1 of n' after a search with n matches |
| Search.CounterAfterNavigation | public/js/search.js:143-145 | after a move among n matches the counter reads the new position out of n, between 1 and n: 'Next' from the last wraps to '1 of n', 'Previous' from the first to 'n of n' |
| Search.ToggleMessageSearch | public/js/search.js:10-29 | opening or closing the bar resets the results, the index and the query |
| App.Backoff | public/js/app.js:35-38 | the wait never exceeds the cap |
| App.BackoffSchedule | public/js/app.js:35-38 | waits never decrease; the defaults give 1000, 2000 and 4000 ms, and the cap from the fifth wait on |
| App.FetchWithRetry | public/js/app.js:27-43 | at most retries+1 attempts; every earlier attempt failed and was followed by its back-off; it resolves with the first ok response, or rethrows the last error after the final attempt |
| App.BackoffDoubles | public/js/app.js:35-38 | each wait is twice the previous one until it reaches the cap, and then stays at the cap |
| App.DefaultRetriesWaitAtMostSevenSeconds | public/js/app.js:27-38 | with the default three retries the waits are 1000, 2000 and 4000 ms at most, 7000 ms in all |
| App.ErrorOf | public/js/app.js:32-34 | a response that is not ok fails with 'HTTP ' followed by its status in decimal; a network error keeps its own message |
| App.SetOf | public/js/app.js:73 | the set holds exactly the listed jids |
| App.AfterAttempt | public/js/app.js:55-94 | an attempt that cannot open the cache changes nothing; the pause set is replaced only when the cache and the status step both succeed |
| App.RunAttempt | public/js/app.js:55-94 | one attempt applies its steps up to the first that throws (AfterAttempt) and reports whether all succeeded |
| App.Init | public/js/app.js:46-115 | at most three attempts, 2000 ms apart; stops at the first complete attempt; otherwise gives up without throwing, keeping what the failed attempts wrote |
| App.CompletedAttemptTakesServerState | public/js/app.js:73-94 | on success the pause set is the server's list and every server conversation overwrites its entry; unlisted entries stay |
| App.FailedEarlyKeepsPauses | public/js/app.js:59-73 | an attempt failing before the status step keeps the pause set |
| Events.IsAutofillGarbage | public/js/events.js:104-109 | only a non-empty value can be garbage |
| Events.EmptyIsNotGarbage | public/js/events.js:104-109 | the empty value is not garbage |
| Events.ShortDottedValueIsKept | public/js/events.js:108 | a dotted value of at most 20 code units without the keywords is kept |
| Events.CheckedValue | public/js/events.js:117-121 | garbage is cleared and anything else is kept; the result is never garbage |
| Events.CheckIsIdempotent | public/js/events.js:128-133 | checking again on focus or blur never clears a kept value |
| Events.ClearedBoxShowsEveryContact | public/js/events.js:117-121 | after clearing, the contact list shows every contact |
| Events.SearchBox.ClearIfAutofill | public/js/events.js:127-135 | the box is cleared exactly when its value is garbage, and reports so |

## Left out

- `server.js` is not part of this model. The server's shared state object (`getState`/`setState`) is modelled by `ServerState.Server` from its uses in `src/whatsapp.js` and `src/routes.js`. `GET /api/status` and the other `server.js` wiring are left out.
- I/O is left out or reduced to its outcome:
  - Baileys socket creation, presence updates and `sendMessage` become `Step` outcomes;
  - the OpenAI HTTP call becomes a `CallOutcome`, and the abort timer becomes a deadline;
  - `fetch` results and IndexedDB reads are parameters;
  - IndexedDB and `fs` writes always succeed in the model, so a throw between two cache writes is not modelled;
  - `src/conversations.js`, `public/js/db.js` and `public/js/dom.js` are not part of this model.
- Time and randomness: every `Date.now()` is a parameter. The humanizing delay `5000 + Math.random()*3000` before a reply is left out. The `setTimeout` waits of the dashboard are returned as values, not slept.
- Chat.SendMessage: the three `Date.now()` reads of an optimistic send are one clock value. Clearing the input box (`input.value = ''`) is rendering and is not modelled.
- Chat.SendMessage: the handler is one atomic step on the chat open when it starts. The source posts to that chat (`public/js/chat.js:156`) but, after the `fetch` resolves, appends to whatever chat is open then (`:169-175`); a chat selected or a socket event handled during the request is not modelled.
- Chat.ToggleAI: one atomic step on the chat open when it starts. The source reads the pause flag before the `fetch` (`public/js/chat.js:224`) and changes the membership of the chat open after it (`:233-236`); a chat selected during the request is not modelled.
- UiHandlers.DeleteContact: one atomic step. The source tests `state.currentJid === jid` after `await DB.deleteConversation` (`public/js/ui-handlers.js:131-134`), so a chat selected meanwhile decides whether the view closes; the model tests the chat open when the handler starts.
- SocketHandlers.RefreshAfterReconnect: the fetched list is written in one step. The source awaits each IndexedDB save inside the loop (`public/js/socket-handlers.js:186-189`), where other socket events can interleave; those interleavings are not modelled.
- Legacy.LegacyHandleMessage: one atomic step, like Relay. The awaits at `index.js:119`, `:122` and `:135-136` can let other upserts and routes interleave; that is not modelled.
- Legacy.LegacyTry: the same atomicity as Legacy.LegacyHandleMessage.
- Relay, RelayAll, HandleIncomingMessage: one message is handled as one atomic step, and a batch message by message. The source awaits the composing update, the completion, the random delay and the send (`src/whatsapp.js:104`, `:127`, `:140`, `:143-144`), and other events can interleave there: another upsert, a route that renames or deletes the contact, a pause toggle. Those interleavings are not modelled.
- RelayAll: the batch is handled message by message, each as one atomic step (see Relay above); a prompt never holds a later message of the same batch.
- HandleIncomingMessage: the same atomicity as Relay; the server state cannot change between its awaits in the model.
- Js.Lower: only the Basic Latin and Latin-1 capitals are lowered; `toLowerCase` lowers the capitals of every script, and its special cases (a capital that lowers to two characters, context-dependent final sigma) are not modelled.
- Chat.FilterContacts: lowering (`Js.Lower`) covers the Basic Latin and Latin-1 capitals only. Capitals of other scripts (Greek, Cyrillic, Latin Extended) keep their case in the model where `toLowerCase` would lower them, so a match that depends on them is not modelled.
- Chat.VisibleContactsSpec: the same Latin-1 limit of `Js.Lower` as Chat.FilterContacts.
- Search.MatchingRowsSpec: the same Latin-1 limit of `Js.Lower`, for message rows.
- Search.SearchMessages: the same Latin-1 limit of `Js.Lower`, through MatchingRowsSpec.
- Ordering: `Object.values` order (summaries, contact list input) and `Array.from(set)` order are unconstrained. Sort stability is not modelled: `SortByRecency` is one newest-first permutation.
- Ai.GenerateResponse: the error the OpenAI client raises for an aborted request is a parameter of Ai.WithDeadline (`abortErr`), not fixed by the model; the timeout text follows only when that error is named `AbortError`, as `src/ai.js:42` tests. When the client's constructor throws is decided by the OpenAI library (no key passed and none in `OPENAI_API_KEY`), which is not part of this model: it is the `ClientThrew` outcome.
- Legacy.EnvRead: dotenv is reduced to plain `KEY=value` lines; its quote stripping, value trimming, comments and its rule of not overriding variables already set in the process are not modelled.
- Config.LoadConfig: dotenv parsing and JSON syntax are not modelled; the file is one of missing, unreadable, malformed or parsed.
- End-to-end agreement between the dashboard and the server is not modelled, because the two do not line up:
  - routes: the dashboard posts to `/api/toggle-ai` and `/api/config` and reads `/api/messages/`, while the server serves `/api/toggle-bot`, `/api/settings` and `/api/conversation/`;
  - events: the server emits `paused_update` while the dashboard listens for `ai_status_changed`;
  - status strings: `ServerStatusesReadDisconnected` shows that every status the server emits reads Disconnected.
- Several dashboard modules import the state module as a namespace (`import * as state`) while it only has a default export. Each operation is modelled as intended, on the single state object.
- Lookups in object literals (`labels[type]`, `statusMap[status]`, `statusConfig[status]`) are modelled as exact key matches. Inherited keys such as `constructor` are not modelled.
- Rendering is left out: HTML strings, class toggling, highlights, scrolling, QR drawing, alerts and notification sounds. The dialogs (`prompt`, `confirm`) become parameters.
- `selectChat`: only its `setCurrentJid` step is modelled, inside `UiHandlers.ConfirmNewChat`. Its message fetch is not part of this model.
- `formatTime` is a parameter of the export, because it depends on the locale.
- UiHandlers.RenameContact: a rename whose context-menu chat is not cached throws in the source, and is modelled as changing nothing.
- Search.SearchMessages: the rows are the texts of the rendered bubbles, passed in. Which DOM rows exist is not modelled.
- App.Init: the settings form, the QR display and the status line written during start-up are not modelled.
- App.Init: each attempt is one atomic step (App.RunAttempt). Socket events handled while an attempt awaits the database, the fetches or the saves in its loop (`public/js/app.js:55-94`), or during the 2000 ms pause, are not modelled.
- App.Init: `statusData.pausedChats` is modelled as a list or absent; other JSON shapes are not modelled.
- The server's `isPaused` flag on stored conversations is only set at creation, as in the source; the toggle does not refresh it.

## Findings

| source | as written | input that shows it | evidently intended | confidence | as-written member | corrected member |
|---|---|---|---|---|---|---|
| index.js:164 | `!status === 'connected' \|\| !sock` compares the boolean `!status` with a string, so that part is always false | status 'disconnected' with a socket present: the send goes through | `status !== 'connected' \|\| !sock`, rejecting every send while not connected | high, not executed | Legacy.GuardIgnoresStatus | Routes.Send |
