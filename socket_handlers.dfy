/**
 * The dashboard's Socket.IO handlers: how conversation_update, new_message,
 * ai_status_changed and contact_updated events are merged into the cached
 * conversations, how the cache is refreshed after a reconnect, and which
 * connection indicator each link event shows.
 */
module SocketHandlers {
  import opened Js
  import opened Messages
  import opened ClientState

  // ---------------------------------------------------------------------
  // conversation_update
  // ---------------------------------------------------------------------

  /** The `conversation` object carried by a conversation_update event. */
  datatype Payload = Payload(name: string, lastMessage: int, messages: Option<seq<Message>>, lastMessagePreview: string)

  /** `messages?.slice(-1)[0]?.text`, "" when there is no last message. */
  function LastTextOf(messages: Option<seq<Message>>): (text: string)
    ensures messages.Some? && messages.value != [] ==> text == messages.value[|messages.value| - 1].text
    ensures messages.None? || messages.value == [] ==> text == ""
  {
    if messages.Some? && messages.value != [] then messages.value[|messages.value| - 1].text else ""
  }

  /**
   * The entry a conversation_update writes: name and time from the payload,
   * the payload's messages, else the cached ones, else none; the preview is
   * the newest payload message's text, else the payload's preview; the pause
   * flag is the local pause set's.
   */
  function MergedEntry(convs: map<string, ClientConversation>, jid: string, p: Payload, paused: set<string>): (c: ClientConversation)
    ensures c.jid == jid && c.name == p.name && c.lastMessage == p.lastMessage
    ensures c.isPaused == Some(jid in paused)
    ensures c.messages.Some?
    ensures p.messages.Some? ==> c.messages == p.messages
    ensures p.messages.None? && jid in convs && convs[jid].messages.Some? ==> c.messages == convs[jid].messages
    ensures p.messages.None? && (jid !in convs || convs[jid].messages.None?) ==> c.messages == Some([])
    ensures LastTextOf(p.messages) != "" ==> c.lastMessagePreview == LastTextOf(p.messages)
    ensures LastTextOf(p.messages) == "" ==> c.lastMessagePreview == p.lastMessagePreview
  {
    var messages :=
      if p.messages.Some? then p.messages
      else if jid in convs && convs[jid].messages.Some? then convs[jid].messages
      else Some([]);
    ClientConversation(jid, p.name, p.lastMessage, messages, OrElse(LastTextOf(p.messages), p.lastMessagePreview), Some(jid in paused))
  }

  /** Receiving the same conversation_update twice leaves the cache as one delivery does. */
  lemma ConversationUpdateIdempotent(convs: map<string, ClientConversation>, jid: string, p: Payload, paused: set<string>)
    ensures var once := convs[jid := MergedEntry(convs, jid, p, paused)];
            once[jid := MergedEntry(once, jid, p, paused)] == once
  {
    var once := convs[jid := MergedEntry(convs, jid, p, paused)];
    assert MergedEntry(once, jid, p, paused) == once[jid];
  }

  /** A payload that carries its messages replaces the entry whatever was cached before. */
  lemma PayloadMessagesOverrideCache(convs1: map<string, ClientConversation>, convs2: map<string, ClientConversation>, jid: string, p: Payload, paused: set<string>)
    requires p.messages.Some?
    ensures MergedEntry(convs1, jid, p, paused) == MergedEntry(convs2, jid, p, paused)
  {
  }

  method OnConversationUpdate(st: State, jid: string, p: Payload)
    requires st.Valid()
    modifies st
    ensures st.Valid()
    ensures st.conversations == old(st.conversations)[jid := MergedEntry(old(st.conversations), jid, p, old(st.pausedChats))]
    ensures st.pausedChats == old(st.pausedChats) && ViewUnchanged(st)
  {
    st.UpdateConversation(jid, MergedEntry(st.conversations, jid, p, st.pausedChats));
  }

  // ---------------------------------------------------------------------
  // new_message
  // ---------------------------------------------------------------------

  /** The entry created for a jid with no cached conversation, named by the jid's user part. */
  function CreatedEntry(jid: string, now: int): (c: ClientConversation)
    ensures c.jid == jid && c.name == BeforeFirst(jid, '@') && c.lastMessage == now
    ensures c.messages == Some([]) && c.lastMessagePreview == "" && c.isPaused == None
  {
    ClientConversation(jid, BeforeFirst(jid, '@'), now, Some([]), "", None)
  }

  /** The messages of an entry, `[]` when it has none. */
  function MessagesOrEmpty(messages: Option<seq<Message>>): seq<Message> {
    if messages.Some? then messages.value else []
  }

  /** `push(message)`, then the time and preview of the message. */
  function WithNewMessage(c: ClientConversation, m: Message): (r: ClientConversation)
    ensures r.messages == Some(MessagesOrEmpty(c.messages) + [m])
    ensures r.lastMessage == m.timestamp
    ensures r.lastMessagePreview != []
    ensures m.text != [] ==> r.lastMessagePreview == m.text
    ensures m.text == [] ==> r.lastMessagePreview == "[Media]"
    ensures r.jid == c.jid && r.name == c.name && r.isPaused == c.isPaused
  {
    c.(messages := Some(MessagesOrEmpty(c.messages) + [m]), lastMessage := m.timestamp,
       lastMessagePreview := OrElse(m.text, "[Media]"))
  }

  /** The cache after a new_message event at clock `now`. */
  function AfterNewMessage(convs: map<string, ClientConversation>, jid: string, m: Message, now: int): (r: map<string, ClientConversation>)
    ensures r.Keys == convs.Keys + {jid}
    ensures forall k | k in convs && k != jid :: r[k] == convs[k]
  {
    var base := if jid in convs then convs[jid] else CreatedEntry(jid, now);
    convs[jid := WithNewMessage(base, m)]
  }

  /**
   * The message ends up last in its conversation, after everything cached
   * before; an unknown jid gets a fresh entry holding just that message.
   */
  lemma NewMessageAppended(convs: map<string, ClientConversation>, jid: string, m: Message, now: int)
    ensures var r := AfterNewMessage(convs, jid, m, now);
            && r[jid].messages.Some?
            && (jid in convs ==> r[jid].messages.value == MessagesOrEmpty(convs[jid].messages) + [m])
            && (jid !in convs ==> r[jid].messages.value == [m] && r[jid].name == BeforeFirst(jid, '@'))
  {
  }

  /** new_message does not look at ids: the same event twice stores the message twice. */
  lemma RepeatedNewMessageDuplicates(convs: map<string, ClientConversation>, jid: string, m: Message, now: int)
    ensures var once := AfterNewMessage(convs, jid, m, now);
            var twice := AfterNewMessage(once, jid, m, now);
            && twice[jid].messages.Some?
            && twice[jid].messages.value == MessagesOrEmpty(if jid in convs then convs[jid].messages else None) + [m, m]
  {
    var before := MessagesOrEmpty(if jid in convs then convs[jid].messages else None);
    assert before + [m] + [m] == before + [m, m];
  }

  /** A message for a WhatsApp jid nobody has cached is filed under a contact named by the number. */
  lemma NewContactNamedByNumber(convs: map<string, ClientConversation>, number: string, domain: string, m: Message, now: int)
    requires '@' !in number && number + "@" + domain !in convs
    ensures AfterNewMessage(convs, number + "@" + domain, m, now)[number + "@" + domain].name == number
  {
    BeforeFirstConcat(number, '@', domain);
  }

  method OnNewMessage(st: State, jid: string, m: Message, now: int)
    requires st.Valid()
    modifies st
    ensures st.Valid()
    ensures st.conversations == AfterNewMessage(old(st.conversations), jid, m, now)
    ensures st.pausedChats == old(st.pausedChats) && ViewUnchanged(st)
  {
    if jid !in st.conversations {
      st.UpdateConversation(jid, CreatedEntry(jid, now));
    }
    var c := st.conversations[jid];
    st.UpdateConversation(jid, WithNewMessage(c, m));
  }

  // ---------------------------------------------------------------------
  // ai_status_changed and contact_updated
  // ---------------------------------------------------------------------

  /** The pause set after an ai_status_changed event. */
  function PauseSetAfter(paused: set<string>, jid: string, isPaused: bool): (r: set<string>)
    ensures jid in r <==> isPaused
    ensures forall k | k != jid :: k in r <==> k in paused
  {
    if isPaused then paused + {jid} else paused - {jid}
  }

  /** The cache after an ai_status_changed event: only an existing entry's flag is set. */
  function PauseFlagAfter(convs: map<string, ClientConversation>, jid: string, isPaused: bool): (r: map<string, ClientConversation>)
    ensures r.Keys == convs.Keys
    ensures jid in convs ==> r[jid] == convs[jid].(isPaused := Some(isPaused))
    ensures forall k | k in convs && k != jid :: r[k] == convs[k]
  {
    if jid in convs then convs[jid := convs[jid].(isPaused := Some(isPaused))] else convs
  }

  /**
   * After the event the set and the cached flag agree on the chat, and a
   * second identical event changes nothing.
   */
  lemma PauseEventAgreesAndRepeats(convs: map<string, ClientConversation>, paused: set<string>, jid: string, isPaused: bool)
    ensures jid in PauseSetAfter(paused, jid, isPaused) <==> isPaused
    ensures jid in convs ==> PauseFlagAfter(convs, jid, isPaused)[jid].isPaused == Some(isPaused)
    ensures PauseSetAfter(PauseSetAfter(paused, jid, isPaused), jid, isPaused) == PauseSetAfter(paused, jid, isPaused)
    ensures PauseFlagAfter(PauseFlagAfter(convs, jid, isPaused), jid, isPaused) == PauseFlagAfter(convs, jid, isPaused)
  {
  }

  method OnAiStatusChanged(st: State, jid: string, isPaused: bool)
    requires st.Valid()
    modifies st
    ensures st.Valid()
    ensures st.pausedChats == PauseSetAfter(old(st.pausedChats), jid, isPaused)
    ensures st.conversations == PauseFlagAfter(old(st.conversations), jid, isPaused)
    ensures ViewUnchanged(st)
  {
    if isPaused {
      st.SetPausedChats(st.pausedChats + {jid});
    } else {
      st.SetPausedChats(st.pausedChats - {jid});
    }
    if jid in st.conversations {
      st.UpdateConversation(jid, st.conversations[jid].(isPaused := Some(isPaused)));
    }
  }

  /** A contact_updated event renames only a cached conversation and never creates one. */
  method OnContactUpdated(st: State, jid: string, name: string)
    requires st.Valid()
    modifies st
    ensures st.Valid()
    ensures jid in old(st.conversations) ==> st.conversations == old(st.conversations)[jid := old(st.conversations)[jid].(name := name)]
    ensures jid !in old(st.conversations) ==> st.conversations == old(st.conversations)
    ensures st.pausedChats == old(st.pausedChats) && ViewUnchanged(st)
  {
    if jid in st.conversations {
      st.UpdateConversation(jid, st.conversations[jid].(name := name));
    }
  }

  // ---------------------------------------------------------------------
  // Reconnect refresh
  // ---------------------------------------------------------------------

  /**
   * `refreshAfterReconnect`: with the summary list fetched, each listed
   * conversation overwrites its cached entry in list order; entries the list
   * does not mention are kept. A failed fetch changes nothing.
   */
  method RefreshAfterReconnect(st: State, fetched: Option<seq<ClientConversation>>)
    requires st.Valid()
    modifies st
    ensures st.Valid()
    ensures fetched.None? ==> st.conversations == old(st.conversations)
    ensures fetched.Some? ==> st.conversations == OverwriteAll(old(st.conversations), fetched.value)
    ensures st.pausedChats == old(st.pausedChats) && ViewUnchanged(st)
  {
    if fetched.Some? {
      StoreAll(st, fetched.value);
    }
  }

  /** What the refresh guarantees per jid: the last listing of a jid wins, unlisted entries stay. */
  lemma RefreshOverwritesListedOnly(convs: map<string, ClientConversation>, list: seq<ClientConversation>)
    ensures forall k | k in convs && (forall i | 0 <= i < |list| :: list[i].jid != k) ::
              k in OverwriteAll(convs, list) && OverwriteAll(convs, list)[k] == convs[k]
    ensures forall i | 0 <= i < |list| && (forall j | i < j < |list| :: list[j].jid != list[i].jid) ::
              list[i].jid in OverwriteAll(convs, list) && OverwriteAll(convs, list)[list[i].jid] == list[i]
  {
    forall k | k in convs && (forall i | 0 <= i < |list| :: list[i].jid != k)
      ensures k in OverwriteAll(convs, list) && OverwriteAll(convs, list)[k] == convs[k]
    {
      OverwriteAllUntouched(convs, list, k);
    }
    forall i | 0 <= i < |list| && (forall j | i < j < |list| :: list[j].jid != list[i].jid)
      ensures list[i].jid in OverwriteAll(convs, list) && OverwriteAll(convs, list)[list[i].jid] == list[i]
    {
      OverwriteAllLastWins(convs, list, i);
    }
  }

  // ---------------------------------------------------------------------
  // Connection indicator
  // ---------------------------------------------------------------------

  datatype Indicator = IndicatorConnected | IndicatorReconnecting | IndicatorOffline

  /** The status key of each indicator. */
  function IndicatorKey(i: Indicator): string {
    match i
    case IndicatorConnected => "connected"
    case IndicatorReconnecting => "reconnecting"
    case IndicatorOffline => "offline"
  }

  /** `statusConfig[status] || statusConfig['offline']`. */
  function IndicatorFor(status: string): (i: Indicator)
    ensures status == "connected" ==> i == IndicatorConnected
    ensures status == "reconnecting" ==> i == IndicatorReconnecting
    ensures status != "connected" && status != "reconnecting" ==> i == IndicatorOffline
  {
    if status == "connected" then IndicatorConnected
    else if status == "reconnecting" then IndicatorReconnecting
    else IndicatorOffline
  }

  function IndicatorText(i: Indicator): (text: string) {
    match i
    case IndicatorConnected => "\U{1F7E2} Connected"
    case IndicatorReconnecting => "\U{1F7E1} Reconnecting..."
    case IndicatorOffline => "\U{1F534} Offline"
  }

  /** Every indicator is reached by its own key, and the three show different texts. */
  lemma IndicatorKeysRoundTrip(i: Indicator, j: Indicator)
    ensures IndicatorFor(IndicatorKey(i)) == i
    ensures i != j ==> IndicatorText(i) != IndicatorText(j)
  {
    assert IndicatorText(i)[0] != IndicatorText(j)[0] || i == j;
  }

  /** Any status string other than the two known ones shows the offline text. */
  lemma UnknownStatusShowsOffline(status: string)
    requires status != "connected" && status != "reconnecting"
    ensures IndicatorText(IndicatorFor(status)) == "\U{1F534} Offline"
  {
  }

  /** When the client gives up reconnecting the indicator shows offline; the state is left alone. */
  method OnReconnectFailed() returns (shown: Indicator)
    ensures shown == IndicatorOffline
    ensures IndicatorText(shown) == "\U{1F534} Offline"
  {
    shown := IndicatorFor("offline");
  }

  method OnConnect(st: State) returns (shown: Indicator)
    modifies st
    ensures shown == IndicatorConnected && st.isSocketConnected
    ensures st.conversations == old(st.conversations) && st.pausedChats == old(st.pausedChats)
    ensures st.currentJid == old(st.currentJid) && st.contextMenuJid == old(st.contextMenuJid)
    ensures st.searchResults == old(st.searchResults) && st.currentSearchIndex == old(st.currentSearchIndex)
    ensures st.searchQuery == old(st.searchQuery)
  {
    st.SetSocketConnected(true);
    shown := IndicatorFor("connected");
  }

  /** A disconnect clears the link flag and shows reconnecting exactly while the client retries. */
  method OnDisconnect(st: State, active: bool) returns (shown: Indicator)
    modifies st
    ensures shown == (if active then IndicatorReconnecting else IndicatorOffline)
    ensures !st.isSocketConnected
    ensures st.conversations == old(st.conversations) && st.pausedChats == old(st.pausedChats)
    ensures st.currentJid == old(st.currentJid) && st.contextMenuJid == old(st.contextMenuJid)
    ensures st.searchResults == old(st.searchResults) && st.currentSearchIndex == old(st.currentSearchIndex)
    ensures st.searchQuery == old(st.searchQuery)
  {
    st.SetSocketConnected(false);
    if active {
      shown := IndicatorFor("reconnecting");
    } else {
      shown := IndicatorFor("offline");
    }
  }

  /** A reconnect sets the link flag, shows connected and refreshes the cache. */
  method OnReconnect(st: State, fetched: Option<seq<ClientConversation>>) returns (shown: Indicator)
    requires st.Valid()
    modifies st
    ensures st.Valid()
    ensures shown == IndicatorConnected && st.isSocketConnected
    ensures fetched.None? ==> st.conversations == old(st.conversations)
    ensures fetched.Some? ==> st.conversations == OverwriteAll(old(st.conversations), fetched.value)
    ensures st.pausedChats == old(st.pausedChats)
    ensures st.currentJid == old(st.currentJid) && st.contextMenuJid == old(st.contextMenuJid)
    ensures st.searchResults == old(st.searchResults) && st.currentSearchIndex == old(st.currentSearchIndex)
    ensures st.searchQuery == old(st.searchQuery)
  {
    st.SetSocketConnected(true);
    shown := IndicatorFor("connected");
    RefreshAfterReconnect(st, fetched);
  }
}
