/**
 * The dashboard's chat view: which contacts the list shows and in what
 * order, how a contact and a message are labelled, the optimistic append
 * after a manual send, deleting a cached message, and the per-chat AI switch.
 */
module Chat {
  import opened Js
  import opened Messages
  import opened ClientState
  import opened SocketHandlers

  // ---------------------------------------------------------------------
  // Contact list
  // ---------------------------------------------------------------------

  /** Most recent conversation first. */
  predicate NewestFirst(s: seq<ClientConversation>) {
    forall i, j | 0 <= i < j < |s| :: s[i].lastMessage >= s[j].lastMessage
  }

  /** Places `c` before the first conversation that is not more recent than it. */
  function Insert(c: ClientConversation, s: seq<ClientConversation>): (r: seq<ClientConversation>)
    requires NewestFirst(s)
    ensures NewestFirst(r)
    ensures multiset(r) == multiset(s) + multiset{c}
    ensures r != [] && (r[0] == c || (s != [] && r[0] == s[0]))
  {
    if s == [] || c.lastMessage >= s[0].lastMessage then
      NewestFirstCons(c, s);
      [c] + s
    else
      var rest := Insert(c, s[1..]);
      assert s == [s[0]] + s[1..];
      assert multiset([s[0]] + rest) == multiset{s[0]} + multiset(rest);
      NewestFirstCons(s[0], rest);
      [s[0]] + rest
  }

  /** Putting a conversation at least as recent as the head in front keeps a list newest-first. */
  lemma NewestFirstCons(x: ClientConversation, t: seq<ClientConversation>)
    requires NewestFirst(t) && (t == [] || x.lastMessage >= t[0].lastMessage)
    ensures NewestFirst([x] + t)
  {
    var r := [x] + t;
    forall i, j | 0 <= i < j < |r| ensures r[i].lastMessage >= r[j].lastMessage {
      if i == 0 && j > 1 {
        assert r[1] == t[0] && r[j] == t[j - 1];
      }
    }
  }

  /** `sort((a, b) => b.lastMessage - a.lastMessage)`: a newest-first permutation. */
  function SortByRecency(s: seq<ClientConversation>): (r: seq<ClientConversation>)
    ensures NewestFirst(r)
    ensures multiset(r) == multiset(s)
    ensures |r| == |s|
  {
    if s == [] then []
    else
      assert s == [s[0]] + s[1..];
      Insert(s[0], SortByRecency(s[1..]))
  }

  /** `name?.toLowerCase().includes(term) || jid?.toLowerCase().includes(term)`. */
  predicate Matches(c: ClientConversation, term: string) {
    Contains(Lower(c.name), term) || Contains(Lower(c.jid), term)
  }

  /** The contacts that match the term, in the order given. */
  function FilterContacts(s: seq<ClientConversation>, term: string): (r: seq<ClientConversation>)
    ensures |r| <= |s|
    ensures forall c :: c in r <==> c in s && Matches(c, term)
  {
    if s == [] then []
    else
      var rest := FilterContacts(s[1..], term);
      assert forall c :: c in s <==> c == s[0] || c in s[1..];
      if Matches(s[0], term) then [s[0]] + rest else rest
  }

  /** Filtering a newest-first list keeps it newest first. */
  lemma {:induction false} FilterKeepsNewestFirst(s: seq<ClientConversation>, term: string)
    requires NewestFirst(s)
    ensures NewestFirst(FilterContacts(s, term))
  {
    if s != [] {
      FilterKeepsNewestFirst(s[1..], term);
      var rest := FilterContacts(s[1..], term);
      forall j | 0 <= j < |rest| ensures s[0].lastMessage >= rest[j].lastMessage {
        assert rest[j] in s[1..];
      }
    }
  }

  /** Every string contains the empty one. */
  lemma ContainsEmpty(s: string)
    ensures Contains(s, "")
  {
    assert OccursAt(s, "", 0);
  }

  /** An empty term matches every contact, so the filter keeps the whole list. */
  lemma {:induction false} EmptyTermKeepsAll(s: seq<ClientConversation>)
    ensures FilterContacts(s, "") == s
  {
    if s != [] {
      ContainsEmpty(Lower(s[0].name));
      EmptyTermKeepsAll(s[1..]);
    }
  }

  /** The contact list for the search box's value: sorted, then filtered by the lowered term. */
  function VisibleContacts(contacts: seq<ClientConversation>, searchValue: string): (r: seq<ClientConversation>)
    ensures |r| <= |contacts|
    ensures Lower(searchValue) == "" ==> multiset(r) == multiset(contacts)
  {
    var sorted := SortByRecency(contacts);
    var term := Lower(searchValue);
    if term == "" then sorted else FilterContacts(sorted, term)
  }

  /**
   * The list shows exactly the contacts matching the lowered search value,
   * newest first; with an empty search box it shows every contact.
   */
  lemma VisibleContactsSpec(contacts: seq<ClientConversation>, searchValue: string)
    ensures NewestFirst(VisibleContacts(contacts, searchValue))
    ensures forall c :: c in VisibleContacts(contacts, searchValue) <==> c in contacts && Matches(c, Lower(searchValue))
    ensures searchValue == "" ==> multiset(VisibleContacts(contacts, searchValue)) == multiset(contacts)
  {
    var sorted := SortByRecency(contacts);
    assert forall c :: c in sorted <==> c in multiset(sorted);
    assert forall c :: c in contacts <==> c in multiset(contacts);
    if Lower(searchValue) == "" {
      forall c | c in contacts ensures Matches(c, "") {
        ContainsEmpty(Lower(c.name));
      }
    } else {
      FilterKeepsNewestFirst(sorted, Lower(searchValue));
    }
  }

  // ---------------------------------------------------------------------
  // Labels
  // ---------------------------------------------------------------------

  /** `contact.name || contact.jid.split('@')[0]`. */
  function DisplayName(c: ClientConversation): (r: string)
    ensures c.name != "" ==> r == c.name
    ensures c.name == "" ==> r == BeforeFirst(c.jid, '@')
  {
    OrElse(c.name, BeforeFirst(c.jid, '@'))
  }

  /** An unnamed contact is shown by the user part of its jid. */
  lemma UnnamedContactShowsNumber(c: ClientConversation, number: string, domain: string)
    requires c.name == "" && c.jid == number + "@" + domain && '@' !in number
    ensures DisplayName(c) == number
  {
    BeforeFirstConcat(number, '@', domain);
  }

  const ImageLabel: string := "\U{1F4F7} Image"
  const VideoLabel: string := "\U{1F3A5} Video"
  const AudioLabel: string := "\U{1F3B5} Audio"
  const DocumentLabel: string := "\U{1F4C4} Document"
  const StickerLabel: string := "\U{1F3AD} Sticker"

  /** `labels[type] || '📎 ' + (type || 'Media')`. */
  function MessageTypeLabel(mediaType: string): (shown: string)
    ensures mediaType == "image" ==> shown == ImageLabel
    ensures mediaType == "video" ==> shown == VideoLabel
    ensures mediaType == "audio" ==> shown == AudioLabel
    ensures mediaType == "document" ==> shown == DocumentLabel
    ensures mediaType == "sticker" ==> shown == StickerLabel
    ensures mediaType !in {"image", "video", "audio", "document", "sticker"} ==>
              shown == "\U{1F4CE} " + (if mediaType == "" then "Media" else mediaType)
  {
    if mediaType == "image" then ImageLabel
    else if mediaType == "video" then VideoLabel
    else if mediaType == "audio" then AudioLabel
    else if mediaType == "document" then DocumentLabel
    else if mediaType == "sticker" then StickerLabel
    else "\U{1F4CE} " + OrElse(mediaType, "Media")
  }

  /**
   * The five known types get five different labels, none of which an
   * unknown type can produce; every label is non-empty.
   */
  lemma LabelsAreDistinct(known: string, other: string)
    requires known in {"image", "video", "audio", "document", "sticker"}
    requires other !in {"image", "video", "audio", "document", "sticker"}
    ensures MessageTypeLabel(known) != MessageTypeLabel(other)
    ensures MessageTypeLabel(other) != [] && MessageTypeLabel(known) != []
    ensures |{ImageLabel, VideoLabel, AudioLabel, DocumentLabel, StickerLabel}| == 5
  {
    assert MessageTypeLabel(known)[0] != MessageTypeLabel(other)[0];
    assert ImageLabel[0] != VideoLabel[0] && ImageLabel[0] != AudioLabel[0] && ImageLabel[0] != DocumentLabel[0];
    assert ImageLabel[0] != StickerLabel[0] && VideoLabel[0] != AudioLabel[0] && VideoLabel[0] != DocumentLabel[0];
    assert VideoLabel[0] != StickerLabel[0] && AudioLabel[0] != DocumentLabel[0] && AudioLabel[0] != StickerLabel[0];
    assert DocumentLabel[0] != StickerLabel[0];
  }

  /** The text shown in a message bubble: its text, else the label of its media type. */
  function MessageBody(m: Message): (body: string)
    ensures body != []
    ensures m.text != [] ==> body == m.text
    ensures m.text == [] ==> body == MessageTypeLabel(m.mediaType)
  {
    OrElse(m.text, MessageTypeLabel(m.mediaType))
  }

  // ---------------------------------------------------------------------
  // Manual send
  // ---------------------------------------------------------------------

  datatype SendOutcome = NotSent | SendFailed | Sent(message: Message)

  /** The message appended optimistically, stamped with the clock it was sent at. */
  function SentMessage(text: string, now: nat): Message {
    Message(Decimal(now), text, true, now, "")
  }

  /**
   * `sendMessage`: nothing happens for a blank input or with no chat open; a
   * failed request changes nothing; an accepted one is appended to the open
   * chat's cache (when it has one) exactly as a new_message event for it
   * would append it, with the text as the preview.
   */
  method SendMessage(st: State, input: string, accepted: bool, now: nat) returns (outcome: SendOutcome)
    requires st.Valid()
    modifies st
    ensures st.Valid()
    ensures outcome.Sent? <==> Trim(input) != "" && old(st.currentJid).Some? && accepted
    ensures outcome == NotSent <==> Trim(input) == "" || old(st.currentJid).None?
    ensures outcome.Sent? ==> outcome.message == SentMessage(Trim(input), now)
    ensures outcome.Sent? && old(st.currentJid.value) in old(st.conversations) ==>
              st.conversations == old(st.conversations)[old(st.currentJid.value) := WithNewMessage(old(st.conversations)[old(st.currentJid.value)], outcome.message)]
    ensures !(outcome.Sent? && old(st.currentJid.value) in old(st.conversations)) ==> st.conversations == old(st.conversations)
    ensures st.pausedChats == old(st.pausedChats) && ViewUnchanged(st)
  {
    var text := Trim(input);
    if text == "" || st.currentJid.None? {
      return NotSent;
    }
    if !accepted {
      return SendFailed;
    }
    var m := SentMessage(text, now);
    var jid := st.currentJid.value;
    if jid in st.conversations {
      st.UpdateConversation(jid, WithNewMessage(st.conversations[jid], m));
    }
    outcome := Sent(m);
  }

  /** The sent message is the newest of its chat, its text is the preview, and it is the chat's time. */
  lemma SentMessageIsNewest(c: ClientConversation, input: string, now: nat)
    requires Trim(input) != ""
    ensures var r := WithNewMessage(c, SentMessage(Trim(input), now));
            && r.messages.Some? && r.messages.value[|r.messages.value| - 1] == SentMessage(Trim(input), now)
            && r.lastMessagePreview == Trim(input) && r.lastMessage == now
            && r.messages.value[|r.messages.value| - 1].fromMe
  {
  }

  // ---------------------------------------------------------------------
  // Deleting a cached message
  // ---------------------------------------------------------------------

  /** `conversations[currentJid]`: with no chat open the lookup key is the string "null". */
  function LookupKey(currentJid: Option<string>): string {
    if currentJid.Some? then currentJid.value else "null"
  }

  /**
   * `deleteMessage`: after confirmation, every cached message with the id is
   * dropped from the open chat, if its entry has a message list.
   */
  method DeleteMessage(st: State, id: string, confirmed: bool)
    requires st.Valid()
    modifies st
    ensures st.Valid()
    ensures var key := LookupKey(old(st.currentJid));
            if confirmed && key in old(st.conversations) && old(st.conversations)[key].messages.Some? then
              st.conversations == old(st.conversations)[key := old(st.conversations)[key].(messages := Some(WithoutId(old(st.conversations)[key].messages.value, id)))]
            else st.conversations == old(st.conversations)
    ensures st.pausedChats == old(st.pausedChats) && ViewUnchanged(st)
  {
    if !confirmed {
      return;
    }
    var key := LookupKey(st.currentJid);
    if key in st.conversations && st.conversations[key].messages.Some? {
      var c := st.conversations[key];
      st.UpdateConversation(key, c.(messages := Some(WithoutId(c.messages.value, id))));
    }
  }

  /**
   * What the delete keeps: exactly the messages with another id, those
   * before and after a split point staying on their side of it.
   */
  lemma DeleteKeepsOthersInOrder(before: seq<Message>, after: seq<Message>, id: string, m: Message)
    ensures m in WithoutId(before + after, id) <==> m in before + after && m.id != id
    ensures WithoutId(before + after, id) == WithoutId(before, id) + WithoutId(after, id)
  {
    WithoutIdMember(before + after, id, m);
    WithoutIdConcat(before, after, id);
  }

  // ---------------------------------------------------------------------
  // AI switch
  // ---------------------------------------------------------------------

  /** Adds the chat to the pause set when absent, removes it when present. */
  function Flip(paused: set<string>, jid: string): (r: set<string>)
    ensures jid in r <==> jid !in paused
    ensures forall k | k != jid :: k in r <==> k in paused
  {
    if jid in paused then paused - {jid} else paused + {jid}
  }

  /** The switch's label for the open chat; no label without one. */
  function AiLabel(paused: set<string>, currentJid: Option<string>): (shown: Option<string>)
    ensures currentJid.None? <==> shown.None?
    ensures currentJid.Some? ==> (shown == Some("AI Off") <==> currentJid.value in paused)
    ensures currentJid.Some? ==> (shown == Some("AI On") <==> currentJid.value !in paused)
  {
    if currentJid.None? then None
    else if currentJid.value in paused then Some("AI Off") else Some("AI On")
  }

  /**
   * `toggleAI`: with a chat open and the request delivered (its response is
   * not inspected), the chat's pause membership flips; it returns the `pause`
   * value it posted.
   */
  method ToggleAI(st: State, delivered: bool) returns (requested: Option<bool>)
    requires st.Valid()
    modifies st
    ensures st.Valid()
    ensures requested.Some? <==> old(st.currentJid).Some?
    ensures requested.Some? ==> requested.value == (old(st.currentJid).value !in old(st.pausedChats))
    ensures requested.Some? && delivered ==> st.pausedChats == Flip(old(st.pausedChats), old(st.currentJid).value)
    ensures !(requested.Some? && delivered) ==> st.pausedChats == old(st.pausedChats)
    ensures st.conversations == old(st.conversations) && ViewUnchanged(st)
  {
    if st.currentJid.None? {
      return None;
    }
    var jid := st.currentJid.value;
    var isPaused := jid in st.pausedChats;
    requested := Some(!isPaused);
    if delivered {
      if isPaused {
        st.SetPausedChats(st.pausedChats - {jid});
      } else {
        st.SetPausedChats(st.pausedChats + {jid});
      }
    }
  }

  /** A delivered toggle switches the label between 'AI On' and 'AI Off'. */
  lemma ToggleSwitchesLabel(paused: set<string>, jid: string)
    ensures AiLabel(paused, Some(jid)) == Some("AI On") <==> AiLabel(Flip(paused, jid), Some(jid)) == Some("AI Off")
    ensures AiLabel(Flip(Flip(paused, jid), jid), Some(jid)) == AiLabel(paused, Some(jid))
  {
  }
}
