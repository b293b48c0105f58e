/**
 * The dashboard's shared state object: the cached conversations, the open
 * chat, the set of paused chats, the chat a context menu was opened on,
 * whether the Socket.IO link is up, and the in-chat search (its results,
 * the active result and the query). Each setter replaces one field; the two
 * helpers write and delete one cached conversation. The retry settings used
 * by the start-up fetches live here too.
 */
module ClientState {
  import opened Js
  import opened Messages

  const MaxRetries: nat := 3
  const BaseDelayMs: nat := 1000
  const MaxDelayMs: nat := 10000

  /**
   * A cached conversation. `messages` is None when the entry came from the
   * summary list, which carries no messages; `isPaused` is None on an entry
   * created locally before any pause event. An empty name or preview stands
   * for a missing one, since both are only read through `||`.
   */
  datatype ClientConversation = ClientConversation(
    jid: string, name: string, lastMessage: int,
    messages: Option<seq<Message>>, lastMessagePreview: string, isPaused: Option<bool>)

  /** One search hit: the position of the message row on screen and its text. */
  datatype SearchResult = SearchResult(index: nat, text: string)

  /** Every cached conversation is filed under its own jid. */
  ghost predicate KeyedByJid(convs: map<string, ClientConversation>) {
    forall k | k in convs :: convs[k].jid == k
  }

  /**
   * `state.conversations[conv.jid] = conv` for each conversation of a server
   * list, in list order.
   */
  function OverwriteAll(convs: map<string, ClientConversation>, list: seq<ClientConversation>): map<string, ClientConversation>
    decreases |list|
  {
    if list == [] then convs else OverwriteAll(convs[list[0].jid := list[0]], list[1..])
  }

  /** A key that no listed conversation carries keeps its cached entry, or stays absent. */
  lemma {:induction false} OverwriteAllUntouched(convs: map<string, ClientConversation>, list: seq<ClientConversation>, k: string)
    requires forall i | 0 <= i < |list| :: list[i].jid != k
    ensures k in OverwriteAll(convs, list) <==> k in convs
    ensures k in convs ==> OverwriteAll(convs, list)[k] == convs[k]
    decreases |list|
  {
    if list != [] {
      OverwriteAllUntouched(convs[list[0].jid := list[0]], list[1..], k);
    }
  }

  /** A listed conversation replaces the cached one wholesale, the last listing of a jid winning. */
  lemma {:induction false} OverwriteAllLastWins(convs: map<string, ClientConversation>, list: seq<ClientConversation>, i: nat)
    requires i < |list|
    requires forall j | i < j < |list| :: list[j].jid != list[i].jid
    ensures list[i].jid in OverwriteAll(convs, list)
    ensures OverwriteAll(convs, list)[list[i].jid] == list[i]
    decreases |list|
  {
    var next := convs[list[0].jid := list[0]];
    if i == 0 {
      OverwriteAllUntouched(next, list[1..], list[0].jid);
    } else {
      OverwriteAllLastWins(next, list[1..], i - 1);
    }
  }

  /** Overwriting with conversations filed under their own jids keeps the cache keyed by jid. */
  lemma {:induction false} OverwriteAllKeyedByJid(convs: map<string, ClientConversation>, list: seq<ClientConversation>)
    requires KeyedByJid(convs)
    ensures KeyedByJid(OverwriteAll(convs, list))
    decreases |list|
  {
    if list != [] {
      OverwriteAllKeyedByJid(convs[list[0].jid := list[0]], list[1..]);
    }
  }

  /** Overwriting a list in two parts is overwriting the first part, then the second. */
  lemma {:induction false} OverwriteAllConcat(convs: map<string, ClientConversation>, a: seq<ClientConversation>, b: seq<ClientConversation>)
    ensures OverwriteAll(convs, a + b) == OverwriteAll(OverwriteAll(convs, a), b)
    decreases |a|
  {
    if a == [] {
      assert a + b == b;
    } else {
      assert (a + b)[0] == a[0];
      assert (a + b)[1..] == a[1..] + b;
      OverwriteAllConcat(convs[a[0].jid := a[0]], a[1..], b);
    }
  }

  class State {
    var conversations: map<string, ClientConversation>
    var currentJid: Option<string>
    var pausedChats: set<string>
    var contextMenuJid: Option<string>
    var isSocketConnected: bool
    var searchResults: seq<SearchResult>
    var currentSearchIndex: int
    var searchQuery: string

    /** The active search result is a valid position, and there is none without results. */
    ghost predicate SearchValid()
      reads this
    {
      if searchResults == [] then currentSearchIndex == -1
      else 0 <= currentSearchIndex < |searchResults|
    }

    ghost predicate Valid()
      reads this
    {
      KeyedByJid(conversations) && SearchValid()
    }

    /** The state a page load starts from. */
    constructor ()
      ensures Valid()
      ensures conversations == map[] && currentJid == None && pausedChats == {} && contextMenuJid == None
      ensures !isSocketConnected
      ensures searchResults == [] && currentSearchIndex == -1 && searchQuery == ""
    {
      conversations := map[];
      currentJid := None;
      pausedChats := {};
      contextMenuJid := None;
      isSocketConnected := false;
      searchResults := [];
      currentSearchIndex := -1;
      searchQuery := "";
    }

    method SetConversations(convs: map<string, ClientConversation>)
      modifies this
      ensures conversations == convs
      ensures currentJid == old(currentJid) && pausedChats == old(pausedChats) && contextMenuJid == old(contextMenuJid)
      ensures isSocketConnected == old(isSocketConnected)
      ensures searchResults == old(searchResults) && currentSearchIndex == old(currentSearchIndex) && searchQuery == old(searchQuery)
    {
      conversations := convs;
    }

    method SetCurrentJid(jid: Option<string>)
      modifies this
      ensures currentJid == jid
      ensures conversations == old(conversations) && pausedChats == old(pausedChats) && contextMenuJid == old(contextMenuJid)
      ensures isSocketConnected == old(isSocketConnected)
      ensures searchResults == old(searchResults) && currentSearchIndex == old(currentSearchIndex) && searchQuery == old(searchQuery)
    {
      currentJid := jid;
    }

    method SetPausedChats(chats: set<string>)
      modifies this
      ensures pausedChats == chats
      ensures conversations == old(conversations) && currentJid == old(currentJid) && contextMenuJid == old(contextMenuJid)
      ensures isSocketConnected == old(isSocketConnected)
      ensures searchResults == old(searchResults) && currentSearchIndex == old(currentSearchIndex) && searchQuery == old(searchQuery)
    {
      pausedChats := chats;
    }

    method SetContextMenuJid(jid: Option<string>)
      modifies this
      ensures contextMenuJid == jid
      ensures conversations == old(conversations) && currentJid == old(currentJid) && pausedChats == old(pausedChats)
      ensures isSocketConnected == old(isSocketConnected)
      ensures searchResults == old(searchResults) && currentSearchIndex == old(currentSearchIndex) && searchQuery == old(searchQuery)
    {
      contextMenuJid := jid;
    }

    method SetSocketConnected(connected: bool)
      modifies this
      ensures isSocketConnected == connected
      ensures conversations == old(conversations) && currentJid == old(currentJid) && pausedChats == old(pausedChats)
      ensures contextMenuJid == old(contextMenuJid)
      ensures searchResults == old(searchResults) && currentSearchIndex == old(currentSearchIndex) && searchQuery == old(searchQuery)
    {
      isSocketConnected := connected;
    }

    method SetSearchResults(results: seq<SearchResult>)
      modifies this
      ensures searchResults == results
      ensures conversations == old(conversations) && currentJid == old(currentJid) && pausedChats == old(pausedChats)
      ensures contextMenuJid == old(contextMenuJid) && isSocketConnected == old(isSocketConnected)
      ensures currentSearchIndex == old(currentSearchIndex) && searchQuery == old(searchQuery)
    {
      searchResults := results;
    }

    method SetCurrentSearchIndex(index: int)
      modifies this
      ensures currentSearchIndex == index
      ensures conversations == old(conversations) && currentJid == old(currentJid) && pausedChats == old(pausedChats)
      ensures contextMenuJid == old(contextMenuJid) && isSocketConnected == old(isSocketConnected)
      ensures searchResults == old(searchResults) && searchQuery == old(searchQuery)
    {
      currentSearchIndex := index;
    }

    method SetSearchQuery(query: string)
      modifies this
      ensures searchQuery == query
      ensures conversations == old(conversations) && currentJid == old(currentJid) && pausedChats == old(pausedChats)
      ensures contextMenuJid == old(contextMenuJid) && isSocketConnected == old(isSocketConnected)
      ensures searchResults == old(searchResults) && currentSearchIndex == old(currentSearchIndex)
    {
      searchQuery := query;
    }

    /** `conversations[jid] = data`: one entry written, the others kept. */
    method UpdateConversation(jid: string, data: ClientConversation)
      modifies this
      ensures conversations == old(conversations)[jid := data]
      ensures currentJid == old(currentJid) && pausedChats == old(pausedChats) && contextMenuJid == old(contextMenuJid)
      ensures isSocketConnected == old(isSocketConnected)
      ensures searchResults == old(searchResults) && currentSearchIndex == old(currentSearchIndex) && searchQuery == old(searchQuery)
    {
      conversations := conversations[jid := data];
    }

    /** `delete conversations[jid]`: one key removed; deleting an absent key changes nothing. */
    method DeleteConversation(jid: string)
      modifies this
      ensures conversations == old(conversations) - {jid}
      ensures jid !in old(conversations) ==> conversations == old(conversations)
      ensures currentJid == old(currentJid) && pausedChats == old(pausedChats) && contextMenuJid == old(contextMenuJid)
      ensures isSocketConnected == old(isSocketConnected)
      ensures searchResults == old(searchResults) && currentSearchIndex == old(currentSearchIndex) && searchQuery == old(searchQuery)
    {
      conversations := conversations - {jid};
    }
  }

  /** The open chat, the context-menu chat, the link flag and the search are as they were. */
  twostate predicate ViewUnchanged(st: State)
    reads st
  {
    && st.currentJid == old(st.currentJid) && st.contextMenuJid == old(st.contextMenuJid)
    && st.isSocketConnected == old(st.isSocketConnected)
    && st.searchResults == old(st.searchResults) && st.currentSearchIndex == old(st.currentSearchIndex)
    && st.searchQuery == old(st.searchQuery)
  }

  /**
   * The `for (const conv of list) state.conversations[conv.jid] = conv` loop:
   * each listed conversation is written under its jid, in list order.
   */
  method StoreAll(st: State, list: seq<ClientConversation>)
    requires st.Valid()
    modifies st
    ensures st.Valid()
    ensures st.conversations == OverwriteAll(old(st.conversations), list)
    ensures st.pausedChats == old(st.pausedChats) && ViewUnchanged(st)
  {
    for i := 0 to |list|
      invariant st.conversations == OverwriteAll(old(st.conversations), list[..i])
      invariant KeyedByJid(st.conversations)
      invariant st.pausedChats == old(st.pausedChats) && ViewUnchanged(st)
    {
      OverwriteAllConcat(old(st.conversations), list[..i], [list[i]]);
      assert list[..i + 1] == list[..i] + [list[i]];
      st.UpdateConversation(list[i].jid, list[i]);
    }
    assert list[..|list|] == list;
  }
}
