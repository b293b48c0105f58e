/**
 * The chat message record shared by the server store and the dashboard cache:
 * `{id, text, fromMe, timestamp}` plus the dashboard-only `type` of a media
 * message (`mediaType`, "" when absent; the server never sets it).
 * An empty `text` stands for both '' and a missing text, since every reader
 * of it only uses `text || ...`.
 */
module Messages {

  datatype Message = Message(id: string, text: string, fromMe: bool, timestamp: int, mediaType: string)

  /** `msgs.some(m => m.id === id)`. */
  predicate HasId(msgs: seq<Message>, id: string) {
    exists i | 0 <= i < |msgs| :: msgs[i].id == id
  }

  /** No two messages of the list share an id. */
  predicate UniqueIds(msgs: seq<Message>) {
    forall i, j | 0 <= i < j < |msgs| :: msgs[i].id != msgs[j].id
  }

  /** `msgs.filter(m => m.id !== id)`. */
  function WithoutId(msgs: seq<Message>, id: string): (r: seq<Message>)
    ensures |r| <= |msgs|
    ensures !HasId(r, id)
    ensures !HasId(msgs, id) ==> r == msgs
  {
    if msgs == [] then []
    else
      var rest := WithoutId(msgs[1..], id);
      if msgs[0].id == id then rest else [msgs[0]] + rest
  }

  /** A message survives the delete exactly when it was in the list and has another id. */
  lemma {:induction false} WithoutIdMember(msgs: seq<Message>, id: string, m: Message)
    ensures m in WithoutId(msgs, id) <==> m in msgs && m.id != id
  {
    if msgs != [] {
      WithoutIdMember(msgs[1..], id, m);
      assert m in msgs <==> m == msgs[0] || m in msgs[1..];
    }
  }

  /** The filter works element by element: the survivors of a list keep their order. */
  lemma {:induction false} WithoutIdConcat(a: seq<Message>, b: seq<Message>, id: string)
    ensures WithoutId(a + b, id) == WithoutId(a, id) + WithoutId(b, id)
    decreases |a|
  {
    if a == [] {
      assert a + b == b;
    } else {
      assert (a + b)[0] == a[0];
      assert (a + b)[1..] == a[1..] + b;
      WithoutIdConcat(a[1..], b, id);
    }
  }

  /**
   * On a list with unique ids, deleting the id found at position `k` removes
   * exactly that message and keeps the others in their order.
   */
  lemma {:induction false} WithoutIdRemovesOne(msgs: seq<Message>, k: nat)
    requires UniqueIds(msgs) && k < |msgs|
    ensures WithoutId(msgs, msgs[k].id) == msgs[..k] + msgs[k + 1..]
  {
    var id := msgs[k].id;
    UniqueTail(msgs);
    if k == 0 {
      HeadIdNotInTail(msgs);
    } else {
      var tail := msgs[1..];
      assert WithoutId(msgs, id) == [msgs[0]] + WithoutId(tail, id);
      assert tail[k - 1] == msgs[k];
      WithoutIdRemovesOne(tail, k - 1);
      assert tail[..k - 1] == msgs[1..k];
      assert tail[k..] == msgs[k + 1..];
      assert [msgs[0]] + msgs[1..k] == msgs[..k];
    }
  }

  lemma UniqueTail(msgs: seq<Message>)
    requires UniqueIds(msgs) && msgs != []
    ensures UniqueIds(msgs[1..])
  {
    var tail := msgs[1..];
    forall i, j | 0 <= i < j < |tail| ensures tail[i].id != tail[j].id {
      assert tail[i] == msgs[i + 1] && tail[j] == msgs[j + 1];
    }
  }

  lemma HeadIdNotInTail(msgs: seq<Message>)
    requires UniqueIds(msgs) && msgs != []
    ensures !HasId(msgs[1..], msgs[0].id)
  {
    var tail := msgs[1..];
    forall i | 0 <= i < |tail| ensures tail[i].id != msgs[0].id {
      assert tail[i] == msgs[i + 1];
    }
  }

  /** Deleting a message id keeps the ids of the list unique and a second delete changes nothing. */
  lemma {:induction false} WithoutIdKeepsUnique(msgs: seq<Message>, id: string)
    requires UniqueIds(msgs)
    ensures UniqueIds(WithoutId(msgs, id))
    ensures WithoutId(WithoutId(msgs, id), id) == WithoutId(msgs, id)
  {
    if msgs != [] {
      assert UniqueIds(msgs[1..]);
      WithoutIdKeepsUnique(msgs[1..], id);
      var rest := WithoutId(msgs[1..], id);
      if msgs[0].id != id {
        HeadIdNotInTail(msgs);
        forall i | 0 <= i < |rest| ensures rest[i].id != msgs[0].id {
          WithoutIdMember(msgs[1..], id, rest[i]);
        }
      }
    }
  }
}
