/**
 * The server's conversation record and the list discipline of
 * `updateConversation`: a message whose id is already stored is not stored
 * again, and the history keeps the 50 most recent messages, dropping the
 * oldest first.
 */
module ConversationStore {
  import opened Js
  import opened Messages

  const MaxHistory: nat := 50

  /** Suffix that the default display name strips from a jid. */
  const JidSuffix: string := "@s.whatsapp.net"

  datatype Conversation = Conversation(jid: string, name: string, messages: seq<Message>, lastMessage: int, isPaused: bool)

  /** The last `MaxHistory` elements of `s` (all of `s` when it is shorter). */
  function KeepLatest(s: seq<Message>): (r: seq<Message>)
    ensures |r| <= MaxHistory
    ensures |s| <= MaxHistory ==> r == s
    ensures |s| > MaxHistory ==> |r| == MaxHistory && r == s[|s| - MaxHistory..]
  {
    if |s| <= MaxHistory then s else s[|s| - MaxHistory..]
  }

  /** The message list after one `push` (unless the id is stored) and at most one `shift`. */
  function Appended(msgs: seq<Message>, m: Message): (r: seq<Message>)
    ensures HasId(r, m.id)
    ensures HasId(msgs, m.id) ==> r == msgs
    ensures !HasId(msgs, m.id) && |msgs| <= MaxHistory ==> r == KeepLatest(msgs + [m])
    ensures |msgs| <= MaxHistory ==> |r| <= MaxHistory
  {
    if HasId(msgs, m.id) then msgs
    else
      var pushed := msgs + [m];
      assert pushed[|pushed| - 1] == m;
      if |pushed| > MaxHistory then
        assert pushed[1..][|pushed| - 2] == m;
        pushed[1..]
      else pushed
  }

  /** Stored ids stay unique: a message is only pushed when its id is new. */
  lemma AppendedKeepsUnique(msgs: seq<Message>, m: Message)
    requires UniqueIds(msgs)
    ensures UniqueIds(Appended(msgs, m))
  {
    if !HasId(msgs, m.id) {
      var pushed := msgs + [m];
      assert UniqueIds(pushed) by {
        forall i, j | 0 <= i < j < |pushed| ensures pushed[i].id != pushed[j].id {
          if j == |msgs| {
            assert pushed[i] == msgs[i];
          } else {
            assert pushed[i] == msgs[i] && pushed[j] == msgs[j];
          }
        }
      }
      if |pushed| > MaxHistory {
        var r := pushed[1..];
        forall i, j | 0 <= i < j < |r| ensures r[i].id != r[j].id {
          assert r[i] == pushed[i + 1] && r[j] == pushed[j + 1];
        }
      }
    }
  }

  /**
   * At the cap, appending a new message drops exactly the oldest one and
   * keeps the other 49 in their order.
   */
  lemma AppendedEvictsOldest(msgs: seq<Message>, m: Message)
    requires |msgs| == MaxHistory && !HasId(msgs, m.id)
    ensures Appended(msgs, m) == msgs[1..] + [m]
    ensures |Appended(msgs, m)| == MaxHistory
  {
  }

  /** Delivering the same message twice leaves the list as one delivery does. */
  lemma AppendedIdempotent(msgs: seq<Message>, m: Message)
    ensures Appended(Appended(msgs, m), m) == Appended(msgs, m)
  {
  }

  /** Appends a batch of messages one by one, as repeated `updateConversation` calls do. */
  function AppendAll(msgs: seq<Message>, batch: seq<Message>): seq<Message>
    decreases |batch|
  {
    if batch == [] then msgs else AppendAll(Appended(msgs, batch[0]), batch[1..])
  }

  lemma KeepLatestAbsorbs(x: seq<Message>, y: seq<Message>)
    ensures KeepLatest(KeepLatest(x) + y) == KeepLatest(x + y)
  {
    if |x| > MaxHistory {
      var kx := KeepLatest(x);
      if |kx + y| > MaxHistory {
        var n := |x + y|;
        var p := (kx + y)[|kx + y| - MaxHistory..];
        var q := (x + y)[n - MaxHistory..];
        forall i | 0 <= i < MaxHistory ensures p[i] == q[i] {
          var j := |kx + y| - MaxHistory + i;
          assert |kx| == MaxHistory && j == |y| + i;
          assert p[i] == (kx + y)[j] && q[i] == (x + y)[n - MaxHistory + i];
          if j < |kx| {
            assert (kx + y)[j] == kx[j] == x[|x| - MaxHistory + j];
            assert (x + y)[n - MaxHistory + i] == x[|x| - MaxHistory + j];
          } else {
            assert (kx + y)[j] == y[j - |kx|];
            assert (x + y)[n - MaxHistory + i] == y[j - |kx|];
          }
        }
        assert p == q;
      }
    }
  }

  /** A suffix of a list with unique ids has unique ids. */
  lemma UniqueSuffix(s: seq<Message>, k: nat)
    requires UniqueIds(s) && k <= |s|
    ensures UniqueIds(s[k..])
  {
    var t := s[k..];
    forall i, j | 0 <= i < j < |t| ensures t[i].id != t[j].id {
      assert t[i] == s[k + i] && t[j] == s[k + j];
    }
  }

  /**
   * Appending messages with pairwise distinct new ids, one at a time, to a
   * history within the cap leaves exactly the 50 most recent of them all, in
   * their original order.
   */
  lemma {:induction false} AppendAllKeepsLatest(msgs: seq<Message>, batch: seq<Message>)
    requires |msgs| <= MaxHistory && UniqueIds(msgs + batch)
    ensures AppendAll(msgs, batch) == KeepLatest(msgs + batch)
    decreases |batch|
  {
    if batch != [] {
      var m := batch[0];
      var x := msgs + [m];
      assert msgs + batch == x + batch[1..];
      assert !HasId(msgs, m.id) by {
        forall i | 0 <= i < |msgs| ensures msgs[i].id != m.id {
          assert (msgs + batch)[i] == msgs[i] && (msgs + batch)[|msgs|] == m;
        }
      }
      var a := Appended(msgs, m);
      assert a == KeepLatest(x);
      var d := |x| - |a|;
      assert a + batch[1..] == (x + batch[1..])[d..];
      UniqueSuffix(msgs + batch, d);
      AppendAllKeepsLatest(a, batch[1..]);
      KeepLatestAbsorbs(x, batch[1..]);
    }
  }

  /** Messages with distinct ids into an empty history: the latest 50 are kept. */
  lemma AppendAllFromEmpty(batch: seq<Message>)
    requires UniqueIds(batch)
    ensures AppendAll([], batch) == KeepLatest(batch)
  {
    assert [] + batch == batch;
    AppendAllKeepsLatest([], batch);
  }

  /** Fifty-one messages with distinct ids into an empty history: the first one is gone. */
  lemma FiftyOneMessagesKeepLastFifty(batch: seq<Message>)
    requires |batch| == MaxHistory + 1 && UniqueIds(batch)
    ensures AppendAll([], batch) == batch[1..]
  {
    AppendAllFromEmpty(batch);
  }

  /** The conversation `updateConversation` creates for a jid it has not seen. */
  function NewConversation(jid: string, paused: bool, now: int): (c: Conversation)
    ensures c.jid == jid && c.messages == [] && c.isPaused == paused && c.lastMessage == now
    ensures c.name == ReplaceFirst(jid, JidSuffix, "")
  {
    Conversation(jid, ReplaceFirst(jid, JidSuffix, ""), [], now, paused)
  }

  /** A jid made of a number and the WhatsApp suffix is named by the number alone. */
  lemma NewConversationNamedByNumber(number: string, paused: bool, now: int)
    requires '@' !in number
    ensures NewConversation(number + JidSuffix, paused, now).name == number
  {
    ReplaceFirstAfter(number, JidSuffix, "", "");
    assert number + JidSuffix + "" == number + JidSuffix;
    assert number + "" + "" == number;
  }

  /** A jid without the WhatsApp suffix is its own name. */
  lemma NewConversationKeepsOtherJids(jid: string, paused: bool, now: int)
    requires !Contains(jid, JidSuffix)
    ensures NewConversation(jid, paused, now).name == jid
  {
    ReplaceFirstAbsent(jid, JidSuffix, "");
  }

  /** The conversation stored under `jid` after `updateConversation(jid, m)` at clock `now`. */
  function UpdatedConversation(convs: map<string, Conversation>, paused: set<string>, jid: string, m: Message, now: int): (c: Conversation)
    ensures HasId(c.messages, m.id)
    ensures c.lastMessage == (if m.timestamp != 0 then m.timestamp else now)
    ensures jid in convs ==> c.jid == convs[jid].jid && c.name == convs[jid].name && c.isPaused == convs[jid].isPaused
    ensures jid in convs ==> c.messages == Appended(convs[jid].messages, m)
    ensures jid !in convs ==> c.jid == jid && c.isPaused == (jid in paused) && c.messages == [m]
    ensures jid !in convs ==> c.name == ReplaceFirst(jid, JidSuffix, "")
  {
    var base := if jid in convs then convs[jid] else NewConversation(jid, jid in paused, now);
    assert jid !in convs ==> Appended(base.messages, m) == [m];
    base.(messages := Appended(base.messages, m), lastMessage := if m.timestamp != 0 then m.timestamp else now)
  }

  /** The store after `updateConversation(jid, m)`: only the entry for `jid` changes. */
  function UpdatedStore(convs: map<string, Conversation>, paused: set<string>, jid: string, m: Message, now: int): (r: map<string, Conversation>)
    ensures r.Keys == convs.Keys + {jid}
    ensures forall k | k in convs && k != jid :: r[k] == convs[k]
  {
    convs[jid := UpdatedConversation(convs, paused, jid, m, now)]
  }

  /**
   * What every stored conversation satisfies: it is filed under its own jid,
   * holds at most 50 messages, and no two of them share an id.
   */
  ghost predicate StoreInvariant(convs: map<string, Conversation>) {
    forall k | k in convs ::
      convs[k].jid == k && |convs[k].messages| <= MaxHistory && UniqueIds(convs[k].messages)
  }

  /** `updateConversation` keeps the store invariant. */
  lemma UpdatedStoreKeepsInvariant(convs: map<string, Conversation>, paused: set<string>, jid: string, m: Message, now: int)
    requires StoreInvariant(convs)
    ensures StoreInvariant(UpdatedStore(convs, paused, jid, m, now))
  {
    if jid in convs {
      AppendedKeepsUnique(convs[jid].messages, m);
    }
  }

  /**
   * Replaying the same message at the same clock changes nothing: the store
   * after two deliveries equals the store after one.
   */
  lemma {:induction false} UpdateReplayIsNoOp(convs: map<string, Conversation>, paused: set<string>, jid: string, m: Message, now: int)
    ensures var once := UpdatedStore(convs, paused, jid, m, now);
            UpdatedStore(once, paused, jid, m, now) == once
  {
    var once := UpdatedStore(convs, paused, jid, m, now);
    AppendedIdempotent(if jid in convs then convs[jid].messages else [], m);
    assert UpdatedConversation(once, paused, jid, m, now) == once[jid];
  }
}
