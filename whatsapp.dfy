/**
 * The WhatsApp side of the relay: `updateConversation`, the
 * `handleIncomingMessage` pipeline (filter, extract, record, pause check,
 * prompt, reply), the `messages.upsert` loop and the `connection.update`
 * state machine with its reconnect decision.
 *
 * Baileys calls are reduced to their outcomes: whether each presence update
 * and the send succeeded, and with which error message. `Date.now()` is a
 * parameter, and the completion call is its `CallOutcome`.
 */
module WhatsApp {
  import opened Js
  import opened Messages
  import opened ConversationStore
  import opened Ai
  import opened Config
  import opened ServerState

  /** Number of stored messages replayed to the model. */
  const HistoryWindow: nat := 5

  /** Baileys' `DisconnectReason.loggedOut`. */
  const LoggedOut: int := 401

  /** The TypeError raised by `state.sock.sendPresenceUpdate` when there is no socket. */
  const NoSockMessage: string := "Cannot read properties of undefined (reading 'sendPresenceUpdate')"

  // ---------------------------------------------------------------------
  // Text extraction
  // ---------------------------------------------------------------------

  /**
   * The `a || b || c || d` chain over the four text fields: the first
   * non-empty one, or "" when all are empty.
   */
  function ExtractText(c: Content): (text: string)
    ensures text == [] <==> c.conversation == [] && c.extendedText == [] && c.ephemeralExtendedText == [] && c.ephemeralConversation == []
    ensures c.conversation != [] ==> text == c.conversation
    ensures c.conversation == [] && c.extendedText != [] ==> text == c.extendedText
    ensures c.conversation == [] && c.extendedText == [] && c.ephemeralExtendedText != [] ==> text == c.ephemeralExtendedText
    ensures c.conversation == [] && c.extendedText == [] && c.ephemeralExtendedText == [] ==> text == c.ephemeralConversation
  {
    OrElse(c.conversation, OrElse(c.extendedText, OrElse(c.ephemeralExtendedText, c.ephemeralConversation)))
  }

  /** Messages the relay does not answer nor record: no content, our own, or no text. */
  predicate Skipped(msg: WaMessage) {
    msg.message.None? || msg.key.fromMe || ExtractText(msg.message.value) == []
  }

  // ---------------------------------------------------------------------
  // Prompt
  // ---------------------------------------------------------------------

  datatype Role = System | User | Assistant

  /** One `{role, content}` entry of the chat-completion request. */
  datatype Turn = Turn(role: Role, content: Option<string>)

  /** The history role of a stored message: ours are the assistant's. */
  function TurnOf(m: Message): Turn {
    Turn(if m.fromMe then Assistant else User, Some(m.text))
  }

  /** `msgs.slice(-5)`. */
  function Recent(msgs: seq<Message>): (r: seq<Message>)
    ensures |r| <= HistoryWindow && |r| <= |msgs|
    ensures r == msgs[|msgs| - |r|..]
    ensures |msgs| >= HistoryWindow ==> |r| == HistoryWindow
    ensures |msgs| < HistoryWindow ==> r == msgs
  {
    if |msgs| <= HistoryWindow then msgs else msgs[|msgs| - HistoryWindow..]
  }

  /** The history turns of a message list. */
  function History(msgs: seq<Message>): seq<Turn> {
    var recent := Recent(msgs);
    seq(|recent|, i requires 0 <= i < |recent| => TurnOf(recent[i]))
  }

  /** `[system, ...history, user]`. */
  function Prompt(systemPrompt: Option<string>, msgs: seq<Message>, text: string): seq<Turn> {
    [Turn(System, systemPrompt)] + History(msgs) + [Turn(User, Some(text))]
  }

  /** The `for` loop that builds `historyMessages`. */
  method HistoryTurns(msgs: seq<Message>) returns (turns: seq<Turn>)
    ensures turns == History(msgs)
  {
    turns := [];
    if |msgs| > 0 {
      var recent := if |msgs| <= HistoryWindow then msgs else msgs[|msgs| - HistoryWindow..];
      for i := 0 to |recent|
        invariant |turns| == i
        invariant forall k :: 0 <= k < i ==> turns[k] == TurnOf(recent[k])
      {
        turns := turns + [TurnOf(recent[i])];
      }
    }
  }

  /**
   * The prompt is the system prompt, then one turn per stored message among
   * the last five (in order, ours as the assistant's, the others as the
   * user's), then the inbound text as the user's.
   */
  lemma PromptShape(systemPrompt: Option<string>, msgs: seq<Message>, text: string)
    ensures var p := Prompt(systemPrompt, msgs, text);
            && |p| == 2 + (if |msgs| < HistoryWindow then |msgs| else HistoryWindow)
            && p[0] == Turn(System, systemPrompt)
            && p[|p| - 1] == Turn(User, Some(text))
            && forall i | 1 <= i < |p| - 1 ::
                 var m := msgs[|msgs| - (|p| - 2) + (i - 1)];
                 p[i].content == Some(m.text) && (p[i].role == Assistant <==> m.fromMe) && p[i].role != System
  {
    var p := Prompt(systemPrompt, msgs, text);
    var recent := Recent(msgs);
    var h := History(msgs);
    assert |h| == |recent| && |p| == |recent| + 2;
    forall i | 1 <= i < |p| - 1
      ensures var m := msgs[|msgs| - (|p| - 2) + (i - 1)];
              p[i].content == Some(m.text) && (p[i].role == Assistant <==> m.fromMe) && p[i].role != System
    {
      assert p[i] == h[i - 1] == TurnOf(recent[i - 1]);
      assert recent[i - 1] == msgs[|msgs| - |recent| + (i - 1)];
    }
  }

  /**
   * When the inbound message was newly recorded, it is the last stored
   * message, so its text reaches the model twice: as the last history turn
   * and as the final user turn.
   */
  lemma InboundTextAppearsTwice(convs: map<string, Conversation>, paused: set<string>, jid: string, m: Message, now: int, systemPrompt: Option<string>)
    requires StoreInvariant(convs) && !m.fromMe
    requires jid in convs ==> !HasId(convs[jid].messages, m.id)
    ensures var p := Prompt(systemPrompt, UpdatedStore(convs, paused, jid, m, now)[jid].messages, m.text);
            |p| >= 3 && p[|p| - 2] == p[|p| - 1] == Turn(User, Some(m.text))
  {
    var msgs := UpdatedStore(convs, paused, jid, m, now)[jid].messages;
    NewMessageIsLast(convs, paused, jid, m, now);
    LastHistoryTurn(systemPrompt, msgs, m.text);
  }

  /** A message with a new id is the last one stored after `updateConversation`. */
  lemma NewMessageIsLast(convs: map<string, Conversation>, paused: set<string>, jid: string, m: Message, now: int)
    requires StoreInvariant(convs)
    requires jid in convs ==> !HasId(convs[jid].messages, m.id)
    ensures var msgs := UpdatedStore(convs, paused, jid, m, now)[jid].messages;
            msgs != [] && msgs[|msgs| - 1] == m
  {
    if jid in convs {
      var before := convs[jid].messages;
      var msgs := UpdatedStore(convs, paused, jid, m, now)[jid].messages;
      assert msgs == KeepLatest(before + [m]);
    }
  }

  /** The turn before the final one is the last stored message's. */
  lemma LastHistoryTurn(systemPrompt: Option<string>, msgs: seq<Message>, text: string)
    requires msgs != []
    ensures var p := Prompt(systemPrompt, msgs, text);
            |p| >= 3 && p[|p| - 2] == TurnOf(msgs[|msgs| - 1])
  {
    var recent := Recent(msgs);
    var h := History(msgs);
    var p := Prompt(systemPrompt, msgs, text);
    assert p[|p| - 2] == h[|h| - 1];
  }

  // ---------------------------------------------------------------------
  // updateConversation
  // ---------------------------------------------------------------------

  /**
   * `updateConversation(jid, m)`: creates the entry for a new jid, appends
   * `m` unless its id is stored (dropping the oldest message past 50), sets
   * `lastMessage` and broadcasts the conversation.
   */
  method UpdateConversation(srv: Server, jid: string, m: Message, now: int)
    requires srv.Valid()
    modifies srv
    ensures srv.Valid()
    ensures srv.conversations == UpdatedStore(old(srv.conversations), old(srv.pausedChats), jid, m, now)
    ensures srv.emitted == old(srv.emitted) + [ConversationUpdate(jid, srv.conversations[jid])]
    ensures srv.pausedChats == old(srv.pausedChats) && srv.currentConfig == old(srv.currentConfig)
    ensures srv.status == old(srv.status) && srv.qrCodeData == old(srv.qrCodeData)
    ensures srv.sockPresent == old(srv.sockPresent) && srv.saved == old(srv.saved)
  {
    UpdatedStoreKeepsInvariant(srv.conversations, srv.pausedChats, jid, m, now);
    var conv: Conversation;
    if jid !in srv.conversations {
      conv := NewConversation(jid, jid in srv.pausedChats, now);
    } else {
      conv := srv.conversations[jid];
    }
    if !HasId(conv.messages, m.id) {
      var msgs := conv.messages + [m];
      if |msgs| > MaxHistory {
        msgs := msgs[1..];
      }
      conv := conv.(messages := msgs);
    }
    conv := conv.(lastMessage := if m.timestamp != 0 then m.timestamp else now);
    srv.conversations := srv.conversations[jid := conv];
    srv.emitted := srv.emitted + [ConversationUpdate(jid, conv)];
  }

  // ---------------------------------------------------------------------
  // handleIncomingMessage
  // ---------------------------------------------------------------------

  /** Outcome of one socket call. */
  datatype Step = Ok | Fail(message: string)

  /** Outcomes of `sendPresenceUpdate('composing')`, `sendMessage` and `sendPresenceUpdate('paused')`. */
  datatype Transport = Transport(composing: Step, send: Step, pausedPresence: Step)

  /**
   * Everything from outside that one message's handling depends on: the
   * message, the clock when it is recorded, the completion outcome, the clock
   * when the reply is recorded, and the socket outcomes.
   */
  datatype Delivery = Delivery(msg: WaMessage, now: nat, outcome: CallOutcome, replyNow: nat, transport: Transport)

  /** How the handling of one message ended. */
  datatype Handled =
    | Ignored
    | Paused
    | PresenceFailed(error: string)
    | AiRejected(prompt: seq<Turn>, error: string)
    | ReplyFailed(prompt: seq<Turn>, reply: string, error: string)
    | Replied(prompt: seq<Turn>, reply: string)

  /** The store, the broadcasts and the outcome of handling one message. */
  datatype RelayStep = RelayStep(convs: map<string, Conversation>, events: seq<Event>, handled: Handled)

  function SkippedLog(jid: string): string {
    "Skipped AI for " + jid + " (Paused)"
  }

  function ErrorLog(message: string): string {
    "Error: " + message
  }

  /** The inbound record `{id: key.id, text, fromMe: false, timestamp}`. */
  function Inbound(msg: WaMessage, text: string, now: int): Message {
    Message(msg.key.id, text, false, now, "")
  }

  /** Our reply's record: its id is the clock rendered in decimal. */
  function ReplyMessage(reply: string, replyNow: nat): Message {
    Message(Decimal(replyNow), reply, true, replyNow, "")
  }

  function AiErrorEvents(jid: string, result: AiResult): seq<Event> {
    if result.Failure? then [AiErrorEvent(jid, result.error)] else []
  }

  /** The first failing step among the send and the closing presence update, if any. */
  function AfterAi(t: Transport): Step {
    if t.send.Fail? then t.send else t.pausedPresence
  }

  /**
   * What `handleIncomingMessage` does to the store and the broadcast log,
   * given the pause set, the system prompt and whether a socket exists.
   */
  function Relay(convs: map<string, Conversation>, paused: set<string>, systemPrompt: Option<string>, sockPresent: bool, d: Delivery): (r: RelayStep)
    ensures r.events != [] && r.events[0] == MsgLogIn(d.msg)
  {
    if Skipped(d.msg) then RelayStep(convs, [MsgLogIn(d.msg)], Ignored)
    else
      var jid := d.msg.key.remoteJid;
      var c1 := Recorded(convs, paused, d);
      var rest := AfterRecord(c1, paused, systemPrompt, sockPresent, d);
      RelayStep(rest.convs, [MsgLogIn(d.msg), ConversationUpdate(jid, c1[jid])] + rest.events, rest.handled)
  }

  /** What follows once the inbound message is recorded in `c1`: the pause check and the reply. */
  function AfterRecord(c1: map<string, Conversation>, paused: set<string>, systemPrompt: Option<string>, sockPresent: bool, d: Delivery): (r: RelayStep)
    requires !Skipped(d.msg) && d.msg.key.remoteJid in c1
    ensures r.handled.Paused? <==> d.msg.key.remoteJid in paused
    ensures r.handled.PresenceFailed? <==> d.msg.key.remoteJid !in paused && (!sockPresent || d.transport.composing.Fail?)
    ensures r.convs.Keys == c1.Keys
    ensures !r.handled.Replied? ==> r.convs == c1
  {
    var jid := d.msg.key.remoteJid;
    if jid in paused then RelayStep(c1, [LogEvent(SkippedLog(jid))], Paused)
    else
      var composing := if sockPresent then d.transport.composing else Fail(NoSockMessage);
      if composing.Fail? then RelayStep(c1, [LogEvent(ErrorLog(composing.message))], PresenceFailed(composing.message))
      else Answer(c1, paused, systemPrompt, d)
  }

  /** Asking the model, sending the reply and recording it. */
  function Answer(c1: map<string, Conversation>, paused: set<string>, systemPrompt: Option<string>, d: Delivery): (r: RelayStep)
    requires !Skipped(d.msg) && d.msg.key.remoteJid in c1
    ensures r.handled.Replied? || r.handled.ReplyFailed? || r.handled.AiRejected?
    ensures r.events != []
    ensures r.convs.Keys == c1.Keys
    ensures !r.handled.Replied? ==> r.convs == c1
  {
    var jid := d.msg.key.remoteJid;
    var text := ExtractText(d.msg.message.value);
    var prompt := Prompt(systemPrompt, c1[jid].messages, text);
    var result := GenerateResponse(d.outcome);
    if result.Rejected? then
      // The rejection reaches the handler's `catch`, which only logs it.
      RelayStep(c1, [LogEvent(ErrorLog(result.message))], AiRejected(prompt, result.message))
    else
      Reply(c1, paused, jid, prompt, result, d.replyNow, d.transport)
  }

  /** Once `generateResponse` has returned its record: the logs, the send and the recording of the reply. */
  function Reply(c1: map<string, Conversation>, paused: set<string>, jid: string, prompt: seq<Turn>, result: AiResult, replyNow: nat, transport: Transport): (r: RelayStep)
    requires !result.Rejected? && jid in c1
  {
    var reply := ReplyText(result);
    var sent := AiErrorEvents(jid, result) + [MsgLogOut(jid, reply, false)];
    var last := AfterAi(transport);
    if last.Fail? then
      RelayStep(c1, sent + [LogEvent(ErrorLog(last.message))], ReplyFailed(prompt, reply, last.message))
    else
      var c2 := UpdatedStore(c1, paused, jid, ReplyMessage(reply, replyNow), replyNow);
      RelayStep(c2, sent + [ConversationUpdate(jid, c2[jid])], Replied(prompt, reply))
  }

  /**
   * Replying broadcasts `ai_error` first exactly when the model failed, then
   * the outgoing log of the reply, then one closing event: the stored reply,
   * or the error log of a failed send.
   */
  lemma ReplyEvents(c1: map<string, Conversation>, paused: set<string>, jid: string, prompt: seq<Turn>, result: AiResult, replyNow: nat, transport: Transport)
    requires !result.Rejected? && jid in c1
    ensures var r := Reply(c1, paused, jid, prompt, result, replyNow, transport);
            && |r.events| >= 2 && r.events[|r.events| - 2] == MsgLogOut(jid, ReplyText(result), false)
            && (result.Failure? ==> r.events[0] == AiErrorEvent(jid, result.error))
            && (result.Success? ==> NoAiError(r.events))
            && (r.handled.ReplyFailed? ==> r.events[|r.events| - 1] == LogEvent(ErrorLog(r.handled.error)))
            && (r.handled.Replied? ==> jid in r.convs && r.events[|r.events| - 1] == ConversationUpdate(jid, r.convs[jid]))
  {
    var r := Reply(c1, paused, jid, prompt, result, replyNow, transport);
    var out := MsgLogOut(jid, ReplyText(result), false);
    var closing := r.events[|r.events| - 1];
    assert r.events == AiErrorEvents(jid, result) + [out] + [closing];
    if result.Success? {
      assert r.events == [out, closing];
      assert !closing.AiErrorEvent?;
    }
  }

  /** The store once the inbound message of a non-skipped delivery is recorded. */
  function Recorded(convs: map<string, Conversation>, paused: set<string>, d: Delivery): (r: map<string, Conversation>)
    requires !Skipped(d.msg)
    ensures r.Keys == convs.Keys + {d.msg.key.remoteJid}
    ensures HasId(r[d.msg.key.remoteJid].messages, d.msg.key.id)
    ensures forall k | k in convs && k != d.msg.key.remoteJid :: r[k] == convs[k]
  {
    UpdatedStore(convs, paused, d.msg.key.remoteJid, Inbound(d.msg, ExtractText(d.msg.message.value), d.now), d.now)
  }

  /**
   * Answering ends in a reply, a failed send, or, when `generateResponse`
   * rejects because its client cannot be built, in the logged rejection
   * alone: the prompt is built from the recorded history, the reply is the
   * completion text or, on a caught failure, the fallback text, and the store
   * changes only when the send and the closing presence update both succeed,
   * by our reply.
   */
  lemma AnswerOutcome(c1: map<string, Conversation>, paused: set<string>, systemPrompt: Option<string>, d: Delivery)
    requires !Skipped(d.msg) && d.msg.key.remoteJid in c1
    ensures var r := Answer(c1, paused, systemPrompt, d);
            var result := GenerateResponse(d.outcome);
            && (r.handled.Replied? || r.handled.ReplyFailed? || r.handled.AiRejected?)
            && r.handled.prompt == Prompt(systemPrompt, c1[d.msg.key.remoteJid].messages, ExtractText(d.msg.message.value))
            && (r.handled.AiRejected? <==> result.Rejected?)
            && (r.handled.AiRejected? ==> r.convs == c1 && r.handled.error == result.message)
            && (result.Success? ==> r.handled.reply == result.text)
            && (result.Failure? ==> r.handled.reply == result.fallback)
            && (r.handled.ReplyFailed? <==> !result.Rejected? && AfterAi(d.transport).Fail?)
            && (r.handled.ReplyFailed? ==> r.convs == c1 && r.handled.error == AfterAi(d.transport).message)
            && (r.handled.Replied? ==> r.convs == UpdatedStore(c1, paused, d.msg.key.remoteJid, ReplyMessage(r.handled.reply, d.replyNow), d.replyNow))
  {
  }

  /**
   * A rejected `generateResponse` broadcasts only its error log. Otherwise
   * answering broadcasts `ai_error` first exactly when the model failed,
   * then the outgoing log of the reply, then one closing event: the stored
   * reply, or the error log of a failed send.
   */
  lemma AnswerEvents(c1: map<string, Conversation>, paused: set<string>, systemPrompt: Option<string>, d: Delivery)
    requires !Skipped(d.msg) && d.msg.key.remoteJid in c1
    ensures var r := Answer(c1, paused, systemPrompt, d);
            var result := GenerateResponse(d.outcome);
            && (result.Rejected? ==> r.events == [LogEvent(ErrorLog(result.message))] && NoAiError(r.events))
            && (!result.Rejected? ==> |r.events| >= 2 && r.events[|r.events| - 2] == MsgLogOut(d.msg.key.remoteJid, ReplyText(result), false))
            && (result.Failure? ==> r.events[0] == AiErrorEvent(d.msg.key.remoteJid, result.error))
            && (result.Success? ==> NoAiError(r.events))
            && (r.handled.ReplyFailed? ==> r.events[|r.events| - 1] == LogEvent(ErrorLog(r.handled.error)))
            && (r.handled.Replied? ==> r.events[|r.events| - 1] == ConversationUpdate(d.msg.key.remoteJid, r.convs[d.msg.key.remoteJid]))
  {
    var jid := d.msg.key.remoteJid;
    var result := GenerateResponse(d.outcome);
    if !result.Rejected? {
      var prompt := Prompt(systemPrompt, c1[jid].messages, ExtractText(d.msg.message.value));
      ReplyEvents(c1, paused, jid, prompt, result, d.replyNow, d.transport);
    }
  }

  /** No `ai_error` broadcast among the events. */
  predicate NoAiError(events: seq<Event>) {
    forall k | 0 <= k < |events| :: !events[k].AiErrorEvent?
  }

  /**
   * When the send and the closing presence update succeed, our reply is
   * stored as our own message; when its id is new it becomes the last
   * message of the conversation.
   */
  lemma ReplyStoredAsOwnMessage(c1: map<string, Conversation>, paused: set<string>, systemPrompt: Option<string>, d: Delivery)
    requires StoreInvariant(c1) && !Skipped(d.msg) && d.msg.key.remoteJid in c1
    requires !d.outcome.ClientThrew? && d.transport.send.Ok? && d.transport.pausedPresence.Ok?
    requires !HasId(c1[d.msg.key.remoteJid].messages, Decimal(d.replyNow))
    ensures var r := Answer(c1, paused, systemPrompt, d);
            var msgs := r.convs[d.msg.key.remoteJid].messages;
            && r.handled.Replied?
            && msgs != []
            && msgs[|msgs| - 1] == ReplyMessage(ReplyText(GenerateResponse(d.outcome)), d.replyNow)
            && msgs[|msgs| - 1].fromMe
  {
    var reply := ReplyText(GenerateResponse(d.outcome));
    AnswerOutcome(c1, paused, systemPrompt, d);
    NewMessageIsLast(c1, paused, d.msg.key.remoteJid, ReplyMessage(reply, d.replyNow), d.replyNow);
  }

  /**
   * A message without content, our own, or without text is only logged:
   * the store is untouched and nothing else is broadcast.
   */
  lemma SkippedMessagesOnlyLogged(convs: map<string, Conversation>, paused: set<string>, systemPrompt: Option<string>, sockPresent: bool, d: Delivery)
    ensures var r := Relay(convs, paused, systemPrompt, sockPresent, d);
            && (r.handled.Ignored? <==> Skipped(d.msg))
            && (Skipped(d.msg) ==> r.convs == convs && r.events == [MsgLogIn(d.msg)])
  {
  }

  /**
   * Every other message is recorded, and broadcast, before anything else
   * happens; afterwards the store changes again only by our reply.
   */
  lemma InboundRecordedFirst(convs: map<string, Conversation>, paused: set<string>, systemPrompt: Option<string>, sockPresent: bool, d: Delivery)
    requires !Skipped(d.msg)
    ensures var jid := d.msg.key.remoteJid;
            var c1 := Recorded(convs, paused, d);
            var r := Relay(convs, paused, systemPrompt, sockPresent, d);
            && jid in c1 && HasId(c1[jid].messages, d.msg.key.id)
            && |r.events| >= 2 && r.events[1] == ConversationUpdate(jid, c1[jid])
            && (r.handled.Replied? ==> r.convs == UpdatedStore(c1, paused, jid, ReplyMessage(r.handled.reply, d.replyNow), d.replyNow))
            && (!r.handled.Replied? ==> r.convs == c1)
  {
    AnswerWhenReached(convs, paused, systemPrompt, sockPresent, d);
  }

  /**
   * After recording, the store changes again only when the model is asked,
   * and then only by our reply.
   */
  lemma AnswerWhenReached(convs: map<string, Conversation>, paused: set<string>, systemPrompt: Option<string>, sockPresent: bool, d: Delivery)
    requires !Skipped(d.msg)
    ensures var c1 := Recorded(convs, paused, d);
            var r := AfterRecord(c1, paused, systemPrompt, sockPresent, d);
            && (r.handled.Replied? ==> r.convs == UpdatedStore(c1, paused, d.msg.key.remoteJid, ReplyMessage(r.handled.reply, d.replyNow), d.replyNow))
            && (!r.handled.Replied? ==> r.convs == c1)
  {
    var c1 := Recorded(convs, paused, d);
    if d.msg.key.remoteJid !in paused && sockPresent && d.transport.composing.Ok? {
      AnswerOutcome(c1, paused, systemPrompt, d);
    }
  }

  /**
   * A message to a paused chat is stored and broadcast, then only the skip
   * notice follows: no AI call, no reply, nothing more stored.
   */
  lemma PausedChatRecordedWithoutReply(convs: map<string, Conversation>, paused: set<string>, systemPrompt: Option<string>, sockPresent: bool, d: Delivery)
    requires !Skipped(d.msg) && d.msg.key.remoteJid in paused
    ensures var jid := d.msg.key.remoteJid;
            var c1 := Recorded(convs, paused, d);
            var r := Relay(convs, paused, systemPrompt, sockPresent, d);
            && r.handled == Paused
            && r.convs == c1
            && r.events == [MsgLogIn(d.msg), ConversationUpdate(jid, c1[jid]), LogEvent(SkippedLog(jid))]
  {
  }

  /** Without a socket, or when the composing update fails, the model is never asked. */
  lemma NoSocketNoCompletion(convs: map<string, Conversation>, paused: set<string>, systemPrompt: Option<string>, sockPresent: bool, d: Delivery)
    requires !Skipped(d.msg) && d.msg.key.remoteJid !in paused
    requires !sockPresent || d.transport.composing.Fail?
    ensures var r := Relay(convs, paused, systemPrompt, sockPresent, d);
            && r.handled.PresenceFailed?
            && r.convs == Recorded(convs, paused, d)
            && r.events[|r.events| - 1] == LogEvent(ErrorLog(r.handled.error))
            && (!sockPresent ==> r.handled.error == NoSockMessage)
  {
  }

  /**
   * Past the pause check and the composing presence update, the model is
   * asked with the store that already holds the inbound message: the rest
   * of the handling is `Answer` on that store.
   */
  lemma ReachedChatIsAnswered(convs: map<string, Conversation>, paused: set<string>, systemPrompt: Option<string>, sockPresent: bool, d: Delivery)
    requires !Skipped(d.msg) && d.msg.key.remoteJid !in paused
    requires sockPresent && d.transport.composing.Ok?
    ensures var jid := d.msg.key.remoteJid;
            var c1 := Recorded(convs, paused, d);
            var a := Answer(c1, paused, systemPrompt, d);
            Relay(convs, paused, systemPrompt, sockPresent, d) ==
              RelayStep(a.convs, [MsgLogIn(d.msg), ConversationUpdate(jid, c1[jid])] + a.events, a.handled)
  {
  }

  /** Handling a message touches at most the conversation of its own chat. */
  lemma RelayTouchesOnlyItsChat(convs: map<string, Conversation>, paused: set<string>, systemPrompt: Option<string>, sockPresent: bool, d: Delivery)
    ensures var r := Relay(convs, paused, systemPrompt, sockPresent, d);
            && convs.Keys <= r.convs.Keys <= convs.Keys + {d.msg.key.remoteJid}
            && forall k | k in convs && k != d.msg.key.remoteJid :: r.convs[k] == convs[k]
  {
    if !Skipped(d.msg) {
      AnswerWhenReached(convs, paused, systemPrompt, sockPresent, d);
    }
  }

  /** Handling a message keeps every conversation under its jid, within 50 messages, with unique ids. */
  lemma RelayKeepsInvariant(convs: map<string, Conversation>, paused: set<string>, systemPrompt: Option<string>, sockPresent: bool, d: Delivery)
    requires StoreInvariant(convs)
    ensures StoreInvariant(Relay(convs, paused, systemPrompt, sockPresent, d).convs)
  {
    if !Skipped(d.msg) {
      var jid := d.msg.key.remoteJid;
      UpdatedStoreKeepsInvariant(convs, paused, jid, Inbound(d.msg, ExtractText(d.msg.message.value), d.now), d.now);
      AnswerWhenReached(convs, paused, systemPrompt, sockPresent, d);
      var r := Relay(convs, paused, systemPrompt, sockPresent, d);
      if r.handled.Replied? {
        UpdatedStoreKeepsInvariant(Recorded(convs, paused, d), paused, jid, ReplyMessage(r.handled.reply, d.replyNow), d.replyNow);
      }
    }
  }

  /**
   * `handleIncomingMessage`, step by step: log, filter, extract, record,
   * then the pause check and the reply.
   */
  method HandleIncomingMessage(srv: Server, d: Delivery) returns (handled: Handled)
    requires srv.Valid()
    modifies srv
    ensures srv.Valid()
    ensures var r := Relay(old(srv.conversations), old(srv.pausedChats), old(srv.currentConfig.systemPrompt), old(srv.sockPresent), d);
            srv.conversations == r.convs && srv.emitted == old(srv.emitted) + r.events && handled == r.handled
    ensures srv.pausedChats == old(srv.pausedChats) && srv.currentConfig == old(srv.currentConfig)
    ensures srv.status == old(srv.status) && srv.qrCodeData == old(srv.qrCodeData)
    ensures srv.sockPresent == old(srv.sockPresent) && srv.saved == old(srv.saved)
  {
    var jid := d.msg.key.remoteJid;
    srv.emitted := srv.emitted + [MsgLogIn(d.msg)];
    if d.msg.message.None? || d.msg.key.fromMe {
      return Ignored;
    }
    var text := ExtractText(d.msg.message.value);
    if text == [] {
      return Ignored;
    }
    UpdateConversation(srv, jid, Inbound(d.msg, text, d.now), d.now);
    ghost var c1 := Recorded(old(srv.conversations), old(srv.pausedChats), d);
    assert srv.conversations == c1;
    ghost var rest := AfterRecord(c1, old(srv.pausedChats), old(srv.currentConfig.systemPrompt), old(srv.sockPresent), d);
    handled := RespondToInbound(srv, d);
    TwoThenRest(old(srv.emitted), MsgLogIn(d.msg), ConversationUpdate(jid, c1[jid]), rest.events);
  }

  /** Regrouping a log that grew by two events and then by a sequence of them. */
  lemma TwoThenRest<T>(log: seq<T>, x: T, y: T, rest: seq<T>)
    ensures log + [x] + [y] + rest == log + ([x, y] + rest)
  {
    assert [x] + [y] == [x, y];
  }

  /** The steps after recording: the pause check, the composing presence update, and the answer. */
  method RespondToInbound(srv: Server, d: Delivery) returns (handled: Handled)
    requires srv.Valid() && !Skipped(d.msg) && d.msg.key.remoteJid in srv.conversations
    modifies srv
    ensures srv.Valid()
    ensures var r := AfterRecord(old(srv.conversations), old(srv.pausedChats), old(srv.currentConfig.systemPrompt), old(srv.sockPresent), d);
            srv.conversations == r.convs && srv.emitted == old(srv.emitted) + r.events && handled == r.handled
    ensures srv.pausedChats == old(srv.pausedChats) && srv.currentConfig == old(srv.currentConfig)
    ensures srv.status == old(srv.status) && srv.qrCodeData == old(srv.qrCodeData)
    ensures srv.sockPresent == old(srv.sockPresent) && srv.saved == old(srv.saved)
  {
    var jid := d.msg.key.remoteJid;
    if jid in srv.pausedChats {
      srv.emitted := srv.emitted + [LogEvent(SkippedLog(jid))];
      return Paused;
    }
    if !srv.sockPresent {
      srv.emitted := srv.emitted + [LogEvent(ErrorLog(NoSockMessage))];
      return PresenceFailed(NoSockMessage);
    }
    if d.transport.composing.Fail? {
      srv.emitted := srv.emitted + [LogEvent(ErrorLog(d.transport.composing.message))];
      return PresenceFailed(d.transport.composing.message);
    }
    handled := AnswerInbound(srv, d);
  }

  /** Building the prompt, choosing the reply, sending it and recording it. */
  method AnswerInbound(srv: Server, d: Delivery) returns (handled: Handled)
    requires srv.Valid() && !Skipped(d.msg) && d.msg.key.remoteJid in srv.conversations
    modifies srv
    ensures srv.Valid()
    ensures var r := Answer(old(srv.conversations), old(srv.pausedChats), old(srv.currentConfig.systemPrompt), d);
            srv.conversations == r.convs && srv.emitted == old(srv.emitted) + r.events && handled == r.handled
    ensures srv.pausedChats == old(srv.pausedChats) && srv.currentConfig == old(srv.currentConfig)
    ensures srv.status == old(srv.status) && srv.qrCodeData == old(srv.qrCodeData)
    ensures srv.sockPresent == old(srv.sockPresent) && srv.saved == old(srv.saved)
  {
    var jid := d.msg.key.remoteJid;
    var text := ExtractText(d.msg.message.value);
    var history := HistoryTurns(srv.conversations[jid].messages);
    var prompt := [Turn(System, srv.currentConfig.systemPrompt)] + history + [Turn(User, Some(text))];
    assert prompt == Prompt(srv.currentConfig.systemPrompt, srv.conversations[jid].messages, text);
    var result := GenerateResponse(d.outcome);
    if result.Rejected? {
      srv.emitted := srv.emitted + [LogEvent(ErrorLog(result.message))];
      assert Answer(old(srv.conversations), old(srv.pausedChats), old(srv.currentConfig.systemPrompt), d)
        == RelayStep(old(srv.conversations), [LogEvent(ErrorLog(result.message))], AiRejected(prompt, result.message));
      return AiRejected(prompt, result.message);
    }
    handled := SendReply(srv, jid, prompt, result, d.replyNow, d.transport);
  }

  /** The logs, the send and the recording of the reply, once `generateResponse` has returned its record. */
  method SendReply(srv: Server, jid: string, prompt: seq<Turn>, result: AiResult, replyNow: nat, transport: Transport) returns (handled: Handled)
    requires srv.Valid() && !result.Rejected? && jid in srv.conversations
    modifies srv
    ensures srv.Valid()
    ensures var r := Reply(old(srv.conversations), old(srv.pausedChats), jid, prompt, result, replyNow, transport);
            srv.conversations == r.convs && srv.emitted == old(srv.emitted) + r.events && handled == r.handled
    ensures srv.pausedChats == old(srv.pausedChats) && srv.currentConfig == old(srv.currentConfig)
    ensures srv.status == old(srv.status) && srv.qrCodeData == old(srv.qrCodeData)
    ensures srv.sockPresent == old(srv.sockPresent) && srv.saved == old(srv.saved)
  {
    var reply := ReplyText(result);
    ghost var sent := AiErrorEvents(jid, result) + [MsgLogOut(jid, reply, false)];
    if result.Failure? {
      srv.emitted := srv.emitted + [AiErrorEvent(jid, result.error)];
      ConcatAssoc(old(srv.emitted), [AiErrorEvent(jid, result.error)], [MsgLogOut(jid, reply, false)]);
    }
    srv.emitted := srv.emitted + [MsgLogOut(jid, reply, false)];
    assert srv.emitted == old(srv.emitted) + sent;
    var failed := AfterAi(transport);
    if failed.Fail? {
      srv.emitted := srv.emitted + [LogEvent(ErrorLog(failed.message))];
      ConcatAssoc(old(srv.emitted), sent, [LogEvent(ErrorLog(failed.message))]);
      return ReplyFailed(prompt, reply, failed.message);
    }
    UpdateConversation(srv, jid, ReplyMessage(reply, replyNow), replyNow);
    ConcatAssoc(old(srv.emitted), sent, [ConversationUpdate(jid, srv.conversations[jid])]);
    return Replied(prompt, reply);
  }

  // ---------------------------------------------------------------------
  // messages.upsert
  // ---------------------------------------------------------------------

  /** The store and the broadcasts after handling a batch. */
  datatype BatchStep = BatchStep(convs: map<string, Conversation>, events: seq<Event>)

  /** Handling the deliveries of a batch one after the other, in order. */
  function RelayAll(convs: map<string, Conversation>, paused: set<string>, systemPrompt: Option<string>, sockPresent: bool, ds: seq<Delivery>): (b: BatchStep)
    ensures |b.events| >= |ds|
    decreases |ds|
  {
    if ds == [] then BatchStep(convs, [])
    else
      var before := RelayAll(convs, paused, systemPrompt, sockPresent, ds[..|ds| - 1]);
      var r := Relay(before.convs, paused, systemPrompt, sockPresent, ds[|ds| - 1]);
      BatchStep(r.convs, before.events + r.events)
  }

  /**
   * A batch made only of skipped messages (our own echoes, say) leaves the
   * store as it was and broadcasts one inbound log per message.
   */
  lemma {:induction false} SkippedBatchOnlyLogged(convs: map<string, Conversation>, paused: set<string>, systemPrompt: Option<string>, sockPresent: bool, ds: seq<Delivery>)
    requires forall k | 0 <= k < |ds| :: Skipped(ds[k].msg)
    ensures var b := RelayAll(convs, paused, systemPrompt, sockPresent, ds);
            && b.convs == convs
            && |b.events| == |ds|
            && forall k | 0 <= k < |ds| :: b.events[k] == MsgLogIn(ds[k].msg)
    decreases |ds|
  {
    if ds != [] {
      var init := ds[..|ds| - 1];
      SkippedBatchOnlyLogged(convs, paused, systemPrompt, sockPresent, init);
      SkippedMessagesOnlyLogged(convs, paused, systemPrompt, sockPresent, ds[|ds| - 1]);
    }
  }

  /** Handling a batch keeps the store invariant. */
  lemma {:induction false} RelayAllKeepsInvariant(convs: map<string, Conversation>, paused: set<string>, systemPrompt: Option<string>, sockPresent: bool, ds: seq<Delivery>)
    requires StoreInvariant(convs)
    ensures StoreInvariant(RelayAll(convs, paused, systemPrompt, sockPresent, ds).convs)
    decreases |ds|
  {
    if ds != [] {
      var before := RelayAll(convs, paused, systemPrompt, sockPresent, ds[..|ds| - 1]);
      RelayAllKeepsInvariant(convs, paused, systemPrompt, sockPresent, ds[..|ds| - 1]);
      RelayKeepsInvariant(before.convs, paused, systemPrompt, sockPresent, ds[|ds| - 1]);
    }
  }

  /** The `messages.upsert` listener: batches other than 'notify' are ignored. */
  method HandleUpsert(srv: Server, batchType: string, ds: seq<Delivery>)
    requires srv.Valid()
    modifies srv
    ensures srv.Valid()
    ensures batchType != "notify" ==> srv.conversations == old(srv.conversations) && srv.emitted == old(srv.emitted)
    ensures batchType == "notify" ==>
              var b := RelayAll(old(srv.conversations), old(srv.pausedChats), old(srv.currentConfig.systemPrompt), old(srv.sockPresent), ds);
              srv.conversations == b.convs && srv.emitted == old(srv.emitted) + b.events
    ensures srv.pausedChats == old(srv.pausedChats) && srv.currentConfig == old(srv.currentConfig)
    ensures srv.status == old(srv.status) && srv.qrCodeData == old(srv.qrCodeData)
    ensures srv.sockPresent == old(srv.sockPresent) && srv.saved == old(srv.saved)
  {
    if batchType != "notify" {
      return;
    }
    ghost var convs0 := srv.conversations;
    ghost var emitted0 := srv.emitted;
    ghost var paused := srv.pausedChats;
    ghost var systemPrompt := srv.currentConfig.systemPrompt;
    ghost var sock := srv.sockPresent;
    for i := 0 to |ds|
      invariant srv.Valid()
      invariant var b := RelayAll(convs0, paused, systemPrompt, sock, ds[..i]);
                srv.conversations == b.convs && srv.emitted == emitted0 + b.events
      invariant srv.pausedChats == old(srv.pausedChats) && srv.currentConfig == old(srv.currentConfig)
      invariant srv.status == old(srv.status) && srv.qrCodeData == old(srv.qrCodeData)
      invariant srv.sockPresent == old(srv.sockPresent) && srv.saved == old(srv.saved)
    {
      ghost var before := RelayAll(convs0, paused, systemPrompt, sock, ds[..i]);
      ghost var r := Relay(before.convs, paused, systemPrompt, sock, ds[i]);
      RelayAllStep(convs0, paused, systemPrompt, sock, ds, i);
      var _ := HandleIncomingMessage(srv, ds[i]);
      ConcatAssoc(emitted0, before.events, r.events);
    }
    assert ds[..|ds|] == ds;
  }

  /** One more delivery of the batch: the batch so far, then that delivery. */
  lemma RelayAllStep(convs: map<string, Conversation>, paused: set<string>, systemPrompt: Option<string>, sockPresent: bool, ds: seq<Delivery>, i: nat)
    requires i < |ds|
    ensures var before := RelayAll(convs, paused, systemPrompt, sockPresent, ds[..i]);
            var r := Relay(before.convs, paused, systemPrompt, sockPresent, ds[i]);
            RelayAll(convs, paused, systemPrompt, sockPresent, ds[..i + 1]) == BatchStep(r.convs, before.events + r.events)
  {
    assert ds[..i + 1][..i] == ds[..i];
  }

  // ---------------------------------------------------------------------
  // connection.update
  // ---------------------------------------------------------------------

  datatype Connection = Open | Close | Connecting

  /** `lastDisconnect.error`: a Boom error with its `output.statusCode`, another error, or none. */
  datatype CloseError = BoomError(statusCode: Option<int>) | PlainError | NoError

  /** A `connection.update` event; `lastDisconnect` is None when absent. */
  datatype ConnUpdate = ConnUpdate(connection: Option<Connection>, lastDisconnect: Option<CloseError>, qr: Option<string>)

  /** The connection part of the state: `status` and `qrCodeData`. */
  datatype Link = Link(status: ConnStatus, qr: Option<string>)

  /** `shouldReconnect`: a close is final only when Boom reports the logged-out status code. */
  function ShouldReconnect(lastDisconnect: Option<CloseError>): (reconnect: bool)
    ensures !reconnect <==> lastDisconnect.Some? && lastDisconnect.value.BoomError? && lastDisconnect.value.statusCode == Some(LoggedOut)
  {
    match lastDisconnect
    case Some(BoomError(code)) => code != Some(LoggedOut)
    case _ => true
  }

  /** The status and QR code after one `connection.update`. */
  function AfterUpdate(s: Link, u: ConnUpdate): (r: Link)
    ensures u.connection == Some(Open) ==> r == Link(Connected, None)
    ensures u.connection == Some(Close) ==> r.status == Disconnected
    ensures u.connection != Some(Open) && Truthy(u.qr) ==> r.qr == u.qr
    ensures u.connection != Some(Open) && !Truthy(u.qr) ==> r.qr == s.qr
    ensures u.connection != Some(Open) && u.connection != Some(Close) ==>
              r == (if Truthy(u.qr) then Link(WaitingForScan, u.qr) else s)
  {
    var s1 := if Truthy(u.qr) then Link(WaitingForScan, u.qr) else s;
    if u.connection == Some(Close) then s1.(status := Disconnected)
    else if u.connection == Some(Open) then Link(Connected, None)
    else s1
  }

  /** The broadcasts of one `connection.update`. */
  function UpdateEvents(u: ConnUpdate): (events: seq<Event>)
    ensures events == [] <==> !Truthy(u.qr) && u.connection != Some(Close) && u.connection != Some(Open)
    ensures StatusEvent(Connected) in events <==> u.connection == Some(Open)
    ensures StatusEvent(Disconnected) in events <==> u.connection == Some(Close)
    ensures StatusEvent(WaitingForScan) in events <==> Truthy(u.qr)
  {
    (if Truthy(u.qr) then [QrEvent(u.qr), StatusEvent(WaitingForScan)] else [])
    + (if u.connection == Some(Close) then [StatusEvent(Disconnected)]
       else if u.connection == Some(Open) then [StatusEvent(Connected), QrEvent(None)]
       else [])
  }

  /**
   * Scanning: a QR code is shown while waiting, and the following `open`
   * connects and withdraws it, from any starting state.
   */
  lemma {:induction false} ScanThenOpenConnects(s: Link, qr: string, openUpdate: ConnUpdate)
    requires qr != [] && openUpdate.connection == Some(Open)
    ensures var waiting := AfterUpdate(s, ConnUpdate(None, None, Some(qr)));
            && waiting == Link(WaitingForScan, Some(qr))
            && AfterUpdate(waiting, openUpdate) == Link(Connected, None)
            && UpdateEvents(ConnUpdate(None, None, Some(qr))) == [QrEvent(Some(qr)), StatusEvent(WaitingForScan)]
  {
    assert Truthy(Some(qr));
  }

  /**
   * A close does not withdraw a pending QR code: the last one issued stays
   * stored while disconnected, until an `open` clears it.
   */
  lemma CloseKeepsPendingQr(s: Link, u: ConnUpdate)
    requires u.connection == Some(Close) && !Truthy(u.qr)
    ensures AfterUpdate(s, u) == Link(Disconnected, s.qr)
    ensures UpdateEvents(u) == [StatusEvent(Disconnected)]
  {
  }

  /**
   * A transient close followed by a successful reconnection ends connected
   * without a new QR code; a logged-out close does not reconnect at all.
   */
  lemma TransientCloseRecovers(s: Link, close: ConnUpdate, reopen: ConnUpdate)
    requires close.connection == Some(Close) && ShouldReconnect(close.lastDisconnect)
    requires reopen.connection == Some(Open)
    ensures AfterUpdate(AfterUpdate(s, close), reopen) == Link(Connected, None)
    ensures close.lastDisconnect.Some? && close.lastDisconnect.value.BoomError? ==> close.lastDisconnect.value.statusCode != Some(LoggedOut)
  {
  }

  /**
   * The `connection.update` listener: applies the QR step and then the
   * close/open step, broadcasting each change; the result says whether a new
   * connection is started.
   */
  method ConnectionUpdate(srv: Server, u: ConnUpdate) returns (reconnect: bool)
    modifies srv
    ensures Link(srv.status, srv.qrCodeData) == AfterUpdate(Link(old(srv.status), old(srv.qrCodeData)), u)
    ensures srv.emitted == old(srv.emitted) + UpdateEvents(u)
    ensures reconnect <==> u.connection == Some(Close) && ShouldReconnect(u.lastDisconnect)
    ensures srv.conversations == old(srv.conversations) && srv.pausedChats == old(srv.pausedChats)
    ensures srv.currentConfig == old(srv.currentConfig) && srv.sockPresent == old(srv.sockPresent) && srv.saved == old(srv.saved)
  {
    reconnect := false;
    if u.qr.Some? && u.qr.value != [] {
      srv.qrCodeData := u.qr;
      srv.status := WaitingForScan;
      srv.emitted := srv.emitted + [QrEvent(u.qr), StatusEvent(WaitingForScan)];
    }
    if u.connection == Some(Close) {
      reconnect := ShouldReconnect(u.lastDisconnect);
      srv.status := Disconnected;
      srv.emitted := srv.emitted + [StatusEvent(Disconnected)];
    } else if u.connection == Some(Open) {
      srv.status := Connected;
      srv.qrCodeData := None;
      srv.emitted := srv.emitted + [StatusEvent(Connected), QrEvent(None)];
    }
  }
}
