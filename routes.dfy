/**
 * The HTTP API of the relay server: the conversation summaries, reading one
 * conversation, renaming and deleting a contact, deleting a message, the
 * settings update, the manual send and the pause toggle. Each handler works
 * on the shared server state; its JSON response is a `Response` value.
 */
module Routes {
  import opened Js
  import opened Messages
  import opened ConversationStore
  import opened Config
  import opened ServerState
  import opened WhatsApp

  /** `res.json({success: true, ...})` and `res.status(code).json({error})`. */
  datatype Response =
    | Succeeded
    | OkWithConfig(config: AiConfig)
    | OkPaused(isPaused: bool)
    | Error(status: int, error: string)

  const NotFound: int := 404
  const ServerError: int := 500
  const ContactNotFound: string := "Contact not found"
  const ChatNotFound: string := "Chat not found"
  const BotNotConnected: string := "Bot not connected"

  // ---------------------------------------------------------------------
  // GET /api/conversations
  // ---------------------------------------------------------------------

  /** One entry of the summary list. */
  datatype Summary = Summary(jid: string, name: string, lastMessage: int, lastText: string, isPaused: bool)

  /** `messages[messages.length - 1]?.text || ''`. */
  function LastText(msgs: seq<Message>): string {
    if msgs == [] then "" else msgs[|msgs| - 1].text
  }

  function SummaryOf(c: Conversation): (s: Summary)
    ensures s.jid == c.jid && s.name == c.name && s.lastMessage == c.lastMessage && s.isPaused == c.isPaused
    ensures c.messages == [] ==> s.lastText == ""
    ensures c.messages != [] ==> s.lastText == c.messages[|c.messages| - 1].text
  {
    Summary(c.jid, c.name, c.lastMessage, LastText(c.messages), c.isPaused)
  }

  /** The preview is the text of the newest message, and empty for an empty conversation. */
  lemma LastTextShowsLatest(msgs: seq<Message>, m: Message)
    ensures LastText([]) == ""
    ensures LastText(msgs + [m]) == m.text
  {
  }

  /**
   * `Object.values(conversations).map(...)`: one summary per stored
   * conversation. The order of `Object.values` is not modelled: `order`
   * is the sequence of keys visited, each key exactly once.
   */
  method ListSummaries(srv: Server) returns (list: seq<Summary>, ghost order: seq<string>)
    ensures |list| == |order| == |srv.conversations|
    ensures forall k :: k in order <==> k in srv.conversations
    ensures forall i, j | 0 <= i < j < |order| :: order[i] != order[j]
    ensures forall i | 0 <= i < |list| :: order[i] in srv.conversations && list[i] == SummaryOf(srv.conversations[order[i]])
    ensures |list| == |srv.conversations|
    ensures forall k | k in srv.conversations :: SummaryOf(srv.conversations[k]) in list
    ensures forall s | s in list :: exists k | k in srv.conversations :: s == SummaryOf(srv.conversations[k])
  {
    list := [];
    order := [];
    var rest := srv.conversations.Keys;
    while rest != {}
      invariant rest <= srv.conversations.Keys
      invariant |list| == |order|
      invariant forall k :: k in order <==> k in srv.conversations.Keys - rest
      invariant forall i, j | 0 <= i < j < |order| :: order[i] != order[j]
      invariant forall i | 0 <= i < |list| :: order[i] in srv.conversations && list[i] == SummaryOf(srv.conversations[order[i]])
      invariant |order| + |rest| == |srv.conversations.Keys|
      decreases |rest|
    {
      var k :| k in rest;
      assert k !in order;
      list := list + [SummaryOf(srv.conversations[k])];
      order := order + [k];
      rest := rest - {k};
    }
    assert |srv.conversations.Keys| == |srv.conversations|;
    forall k | k in srv.conversations
      ensures SummaryOf(srv.conversations[k]) in list
    {
      assert k in order;
      var i :| 0 <= i < |order| && order[i] == k;
      assert list[i] == SummaryOf(srv.conversations[k]);
    }
  }

  // ---------------------------------------------------------------------
  // GET /api/conversation/:jid
  // ---------------------------------------------------------------------

  /** A stored conversation, or the `{jid, name: jid, messages: []}` placeholder. */
  datatype ConversationView = Stored(conversation: Conversation) | Placeholder(jid: string, name: string, messages: seq<Message>)

  /** Reading an unknown jid answers a placeholder named by the jid and stores nothing. */
  method GetConversation(srv: Server, jid: string) returns (view: ConversationView)
    ensures view.Stored? <==> jid in srv.conversations
    ensures view.Stored? ==> view.conversation == srv.conversations[jid]
    ensures view.Placeholder? ==> view.jid == jid && view.name == jid && view.messages == []
  {
    if jid in srv.conversations {
      view := Stored(srv.conversations[jid]);
    } else {
      view := Placeholder(jid, jid, []);
    }
  }

  // ---------------------------------------------------------------------
  // PUT and DELETE /api/contact/:jid
  // ---------------------------------------------------------------------

  /** Renaming changes only the name of an existing conversation; an unknown jid is a 404. */
  method RenameContact(srv: Server, jid: string, name: string) returns (resp: Response)
    requires srv.Valid()
    modifies srv
    ensures srv.Valid()
    ensures resp == Succeeded <==> jid in old(srv.conversations)
    ensures jid in old(srv.conversations) ==>
              && srv.conversations == old(srv.conversations)[jid := old(srv.conversations)[jid].(name := name)]
              && srv.emitted == old(srv.emitted) + [ContactUpdated(jid, name)]
    ensures jid !in old(srv.conversations) ==>
              && resp == Error(NotFound, ContactNotFound)
              && srv.conversations == old(srv.conversations) && srv.emitted == old(srv.emitted)
    ensures srv.pausedChats == old(srv.pausedChats) && srv.currentConfig == old(srv.currentConfig)
    ensures srv.status == old(srv.status) && srv.qrCodeData == old(srv.qrCodeData)
    ensures srv.sockPresent == old(srv.sockPresent) && srv.saved == old(srv.saved)
  {
    if jid in srv.conversations {
      srv.conversations := srv.conversations[jid := srv.conversations[jid].(name := name)];
      srv.emitted := srv.emitted + [ContactUpdated(jid, name)];
      resp := Succeeded;
    } else {
      resp := Error(NotFound, ContactNotFound);
    }
  }

  /** Deleting removes exactly that key; an unknown jid is a 404. */
  method DeleteContact(srv: Server, jid: string) returns (resp: Response)
    requires srv.Valid()
    modifies srv
    ensures srv.Valid()
    ensures resp == Succeeded <==> jid in old(srv.conversations)
    ensures jid in old(srv.conversations) ==>
              && srv.conversations == old(srv.conversations) - {jid}
              && srv.emitted == old(srv.emitted) + [ContactDeleted(jid)]
    ensures jid !in old(srv.conversations) ==>
              && resp == Error(NotFound, ContactNotFound)
              && srv.conversations == old(srv.conversations) && srv.emitted == old(srv.emitted)
    ensures srv.pausedChats == old(srv.pausedChats) && srv.currentConfig == old(srv.currentConfig)
    ensures srv.status == old(srv.status) && srv.qrCodeData == old(srv.qrCodeData)
    ensures srv.sockPresent == old(srv.sockPresent) && srv.saved == old(srv.saved)
  {
    if jid in srv.conversations {
      srv.conversations := srv.conversations - {jid};
      srv.emitted := srv.emitted + [ContactDeleted(jid)];
      resp := Succeeded;
    } else {
      resp := Error(NotFound, ContactNotFound);
    }
  }

  /** After a delete the key is gone and every other entry is as it was. */
  lemma DeletedKeyOnly(convs: map<string, Conversation>, jid: string)
    ensures jid !in convs - {jid}
    ensures forall k | k in convs && k != jid :: k in convs - {jid} && (convs - {jid})[k] == convs[k]
  {
  }

  // ---------------------------------------------------------------------
  // DELETE /api/message
  // ---------------------------------------------------------------------

  /**
   * Deleting a message filters out every message with that id, keeping the
   * others in order; an absent id still succeeds, an unknown chat is a 404.
   * Nothing is broadcast.
   */
  method DeleteMessage(srv: Server, jid: string, messageId: string) returns (resp: Response)
    requires srv.Valid()
    modifies srv
    ensures srv.Valid()
    ensures resp == Succeeded <==> jid in old(srv.conversations)
    ensures jid in old(srv.conversations) ==>
              srv.conversations == old(srv.conversations)[jid := old(srv.conversations)[jid].(messages := WithoutId(old(srv.conversations)[jid].messages, messageId))]
    ensures jid !in old(srv.conversations) ==> resp == Error(NotFound, ChatNotFound) && srv.conversations == old(srv.conversations)
    ensures srv.emitted == old(srv.emitted)
    ensures srv.pausedChats == old(srv.pausedChats) && srv.currentConfig == old(srv.currentConfig)
    ensures srv.status == old(srv.status) && srv.qrCodeData == old(srv.qrCodeData)
    ensures srv.sockPresent == old(srv.sockPresent) && srv.saved == old(srv.saved)
  {
    if jid in srv.conversations {
      var c := srv.conversations[jid];
      WithoutIdKeepsUnique(c.messages, messageId);
      srv.conversations := srv.conversations[jid := c.(messages := WithoutId(c.messages, messageId))];
      resp := Succeeded;
    } else {
      resp := Error(NotFound, ChatNotFound);
    }
  }

  /**
   * In a conversation with unique ids, deleting the id of the message at
   * position `k` removes exactly that message; deleting an id not present
   * leaves the list as it was.
   */
  lemma DeleteMessageRemovesExactlyOne(msgs: seq<Message>, k: nat, absent: string)
    requires UniqueIds(msgs) && k < |msgs| && !HasId(msgs, absent)
    ensures WithoutId(msgs, msgs[k].id) == msgs[..k] + msgs[k + 1..]
    ensures WithoutId(msgs, absent) == msgs
  {
    WithoutIdRemovesOne(msgs, k);
  }

  // ---------------------------------------------------------------------
  // POST /api/settings
  // ---------------------------------------------------------------------

  /**
   * The settings update: the four submitted fields replace the configuration
   * (an absent field becomes undefined), and the configuration is saved with
   * the pause set.
   */
  method UpdateSettings(srv: Server, apiKey: Option<string>, baseUrl: Option<string>, modelName: Option<string>, systemPrompt: Option<string>) returns (resp: Response)
    modifies srv
    ensures srv.currentConfig == AiConfig(apiKey, baseUrl, modelName, systemPrompt)
    ensures resp == OkWithConfig(srv.currentConfig)
    ensures |srv.saved| == |old(srv.saved)| + 1 && srv.saved[..|old(srv.saved)|] == old(srv.saved)
    ensures srv.saved[|srv.saved| - 1].config == srv.currentConfig
    ensures forall j :: j in srv.saved[|srv.saved| - 1].pausedChats <==> j in srv.pausedChats
    ensures srv.conversations == old(srv.conversations) && srv.pausedChats == old(srv.pausedChats)
    ensures srv.status == old(srv.status) && srv.qrCodeData == old(srv.qrCodeData)
    ensures srv.sockPresent == old(srv.sockPresent) && srv.emitted == old(srv.emitted)
  {
    srv.currentConfig := AiConfig(apiKey, baseUrl, modelName, systemPrompt);
    var snap := SaveConfig(srv.currentConfig, srv.pausedChats);
    srv.saved := srv.saved + [snap];
    resp := OkWithConfig(srv.currentConfig);
  }

  /**
   * Settings whose four fields are non-empty survive a restart: initialising
   * from the saved snapshot gives them back, whatever the environment says.
   */
  lemma SettingsSurviveRestart(config: AiConfig, paused: seq<string>, env: Env)
    requires Truthy(config.apiKey) && Truthy(config.baseUrl) && Truthy(config.modelName) && Truthy(config.systemPrompt)
    ensures InitConfig(Some(Snapshot(config, paused)), env) == config
  {
  }

  /**
   * An empty or missing field does not survive: after a restart the
   * environment or the default takes its place.
   */
  lemma ClearedSettingFallsBack(config: AiConfig, paused: seq<string>, env: Env)
    requires !Truthy(config.baseUrl) && !Truthy(config.systemPrompt)
    ensures InitConfig(Some(Snapshot(config, paused)), env).baseUrl == (if Truthy(env.baseUrl) then env.baseUrl else Some(DefaultBaseUrl))
    ensures InitConfig(Some(Snapshot(config, paused)), env).systemPrompt == Some(DefaultSystemPrompt)
  {
  }

  // ---------------------------------------------------------------------
  // POST /api/send
  // ---------------------------------------------------------------------

  /**
   * A manual send: refused unless connected with a socket; a send error is a
   * 500 carrying its message; a sent message is only broadcast, never stored.
   */
  method Send(srv: Server, remoteJid: string, text: string, outcome: Step) returns (resp: Response)
    modifies srv
    ensures !(srv.status == Connected && srv.sockPresent) ==> resp == Error(ServerError, BotNotConnected) && srv.emitted == old(srv.emitted)
    ensures srv.status == Connected && srv.sockPresent && outcome.Fail? ==> resp == Error(ServerError, outcome.message) && srv.emitted == old(srv.emitted)
    ensures resp == Succeeded <==> srv.status == Connected && srv.sockPresent && outcome.Ok?
    ensures resp == Succeeded ==> srv.emitted == old(srv.emitted) + [MsgLogOut(remoteJid, text, true)]
    ensures srv.conversations == old(srv.conversations) && srv.pausedChats == old(srv.pausedChats)
    ensures srv.currentConfig == old(srv.currentConfig) && srv.status == old(srv.status) && srv.qrCodeData == old(srv.qrCodeData)
    ensures srv.sockPresent == old(srv.sockPresent) && srv.saved == old(srv.saved)
  {
    if srv.status != Connected || !srv.sockPresent {
      return Error(ServerError, BotNotConnected);
    }
    if outcome.Fail? {
      return Error(ServerError, outcome.message);
    }
    srv.emitted := srv.emitted + [MsgLogOut(remoteJid, text, true)];
    resp := Succeeded;
  }

  // ---------------------------------------------------------------------
  // POST /api/toggle-bot
  // ---------------------------------------------------------------------

  /** The pause set after a toggle: 'pause' adds the chat, any other action removes it. */
  function Toggled(paused: set<string>, jid: string, action: string): (r: set<string>)
    ensures jid in r <==> action == "pause"
    ensures forall k | k != jid :: k in r <==> k in paused
  {
    if action == "pause" then paused + {jid} else paused - {jid}
  }

  /**
   * The chat is paused afterwards exactly when the action is 'pause', no
   * other chat changes, and repeating the same toggle changes nothing more.
   */
  lemma ToggledMembership(paused: set<string>, jid: string, action: string)
    ensures jid in Toggled(paused, jid, action) <==> action == "pause"
    ensures forall k | k != jid :: k in Toggled(paused, jid, action) <==> k in paused
    ensures Toggled(Toggled(paused, jid, action), jid, action) == Toggled(paused, jid, action)
  {
  }

  /** Pausing and then resuming a chat that was not paused restores the pause set. */
  lemma PauseThenResumeRestores(paused: set<string>, jid: string, other: string)
    requires jid !in paused && other != "pause"
    ensures Toggled(Toggled(paused, jid, "pause"), jid, other) == paused
  {
  }

  /**
   * The toggle: updates the pause set, saves it with the configuration,
   * broadcasts the new membership and answers it.
   */
  method ToggleBot(srv: Server, remoteJid: string, action: string) returns (resp: Response)
    modifies srv
    ensures srv.pausedChats == Toggled(old(srv.pausedChats), remoteJid, action)
    ensures resp == OkPaused(remoteJid in srv.pausedChats)
    ensures srv.emitted == old(srv.emitted) + [PausedUpdate(remoteJid, remoteJid in srv.pausedChats)]
    ensures |srv.saved| == |old(srv.saved)| + 1 && srv.saved[..|old(srv.saved)|] == old(srv.saved)
    ensures srv.saved[|srv.saved| - 1].config == srv.currentConfig
    ensures forall j :: j in srv.saved[|srv.saved| - 1].pausedChats <==> j in srv.pausedChats
    ensures srv.conversations == old(srv.conversations) && srv.currentConfig == old(srv.currentConfig)
    ensures srv.status == old(srv.status) && srv.qrCodeData == old(srv.qrCodeData) && srv.sockPresent == old(srv.sockPresent)
  {
    if action == "pause" {
      srv.pausedChats := srv.pausedChats + {remoteJid};
    } else {
      srv.pausedChats := srv.pausedChats - {remoteJid};
    }
    var snap := SaveConfig(srv.currentConfig, srv.pausedChats);
    srv.saved := srv.saved + [snap];
    srv.emitted := srv.emitted + [PausedUpdate(remoteJid, remoteJid in srv.pausedChats)];
    resp := OkPaused(remoteJid in srv.pausedChats);
  }

  /**
   * Once a chat is paused through the toggle, its next text message is
   * recorded but gets no reply.
   */
  lemma PausedChatGetsNoReply(convs: map<string, Conversation>, paused: set<string>, systemPrompt: Option<string>, sockPresent: bool, d: Delivery)
    requires !Skipped(d.msg)
    ensures Relay(convs, Toggled(paused, d.msg.key.remoteJid, "pause"), systemPrompt, sockPresent, d).handled == Paused
  {
    PausedChatRecordedWithoutReply(convs, Toggled(paused, d.msg.key.remoteJid, "pause"), systemPrompt, sockPresent, d);
  }
}
