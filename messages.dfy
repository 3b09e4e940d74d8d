/**
 * The message service (controllers/messagecontroller.js): an append-only
 * message collection whose messages are tagged with their conversation's
 * composite id, and the read-flag / last-message summary it keeps on the
 * conversation.
 */
module Messages {
  import opened Common
  import opened Seqs
  import opened Conversations

  datatype Message = Message(
    sid: Id,            // storage id (`_id`)
    conversationId: Id, // the conversation's composite id
    userId: Id,         // the author
    desc: string,
    createdAt: nat)

  predicate TaggedWith(m: Message, cid: Id) { m.conversationId == cid }

  /** `Message.find({ conversationId: cid })`: the messages tagged `cid`, oldest first. */
  function Thread(msgs: seq<Message>, cid: Id): (r: seq<Message>)
    ensures forall m :: m in r <==> m in msgs && m.conversationId == cid
    ensures forall i :: 0 <= i < |r| ==> r[i].conversationId == cid
    ensures forall m :: multiset(r)[m] == if m.conversationId == cid then multiset(msgs)[m] else 0
  {
    Filter(msgs, m => TaggedWith(m, cid))
  }

  /**
   * `getMessages`: the messages tagged with `param`; when there are none,
   * the messages of the conversation whose storage id is `param`; when
   * there is no such conversation either, none.
   */
  function GetMessages(msgs: seq<Message>, rs: seq<Conversation>, param: Id): (r: seq<Message>)
    ensures forall m :: m in r ==> m in msgs
    ensures (exists m :: m in msgs && m.conversationId == param) ==>
              forall m :: multiset(r)[m] == if m.conversationId == param then multiset(msgs)[m] else 0
    ensures (forall m :: m in msgs ==> m.conversationId != param) && FindBySid(rs, param).Some? ==>
              forall m :: multiset(r)[m] ==
                if m.conversationId == FindBySid(rs, param).value.id then multiset(msgs)[m] else 0
    ensures (forall m :: m in msgs ==> m.conversationId != param) && FindBySid(rs, param).None? ==>
              r == []
  {
    var direct := Thread(msgs, param);
    if direct != [] then direct
    else
      match FindBySid(rs, param)
      case Some(c) => Thread(msgs, c.id)
      case None => []
  }

  /** No two messages share a storage id. */
  ghost predicate UniqueMessageSids(msgs: seq<Message>) {
    forall i, j :: 0 <= i < j < |msgs| ==> msgs[i].sid != msgs[j].sid
  }

  /** The message collection, in insertion order; it is only ever appended to. */
  class MessageStore {
    var messages: seq<Message>

    ghost predicate Valid()
      reads this
    {
      UniqueMessageSids(messages)
    }

    constructor ()
      ensures Valid() && messages == []
    {
      messages := [];
    }
  }

  /**
   * `createMessage`: resolves the conversation by storage id, appends a
   * message tagged with its composite id, then stamps the conversation with
   * the sender's read flags and the message text. `msgSid` is the storage
   * id the database assigns to the message.
   */
  method CreateMessage(convs: ConversationStore, store: MessageStore, convSid: Id,
                       userId: Id, isSeller: bool, desc: string, msgSid: Id, now: nat)
    returns (r: Result<Message>)
    requires convs.Valid() && store.Valid()
    requires forall m :: m in store.messages ==> m.sid != msgSid
    modifies convs, store
    ensures convs.Valid() && store.Valid()
    ensures FindBySid(old(convs.records), convSid).None? ==>
              r == Err(Http(404, "Conversation not found!")) &&
              convs.records == old(convs.records) && store.messages == old(store.messages)
    ensures FindBySid(old(convs.records), convSid).Some? ==>
              var c := FindBySid(old(convs.records), convSid).value;
              && r == Ok(Message(msgSid, c.id, userId, desc, now))
              && store.messages == old(store.messages) + [r.value]
              && convs.records == UpdateById(old(convs.records), c.id, NewMessage(isSeller, desc), now)
  {
    var found := FindBySid(convs.records, convSid);
    if found.None? {
      return Err(Http(404, "Conversation not found!"));
    }
    var c := found.value;
    var m := Message(msgSid, c.id, userId, desc, now);
    store.messages := store.messages + [m];
    UpdateByIdKeepsUnique(convs.records, c.id, NewMessage(isSeller, desc), now);
    convs.records := UpdateById(convs.records, c.id, NewMessage(isSeller, desc), now);
    r := Ok(m);
  }

  /**
   * `markAsRead`: on the conversation with composite id `cid`, the caller's
   * flag becomes true and the counterpart's false; an unknown id changes
   * nothing. The reply is always the same success text.
   */
  method MarkAsRead(convs: ConversationStore, cid: Id, isSeller: bool, now: nat) returns (reply: string)
    requires convs.Valid()
    modifies convs
    ensures convs.Valid()
    ensures convs.records == UpdateById(old(convs.records), cid, ReadFlags(isSeller), now)
    ensures reply == "Message marked as read."
  {
    UpdateByIdKeepsUnique(convs.records, cid, ReadFlags(isSeller), now);
    convs.records := UpdateById(convs.records, cid, ReadFlags(isSeller), now);
    reply := "Message marked as read.";
  }

  /**
   * What `createMessage` leaves behind: the conversation found by storage id
   * now carries the sender's flags and the new text, and nothing else in the
   * collection changed.
   */
  lemma CreateMessageSummary(rs: seq<Conversation>, k: nat, isSeller: bool, desc: string, now: nat)
    requires UniqueSids(rs) && UniqueIds(rs) && k < |rs|
    ensures var rs' := UpdateById(rs, rs[k].id, NewMessage(isSeller, desc), now);
            && |rs'| == |rs|
            && rs'[k].lastMessage == Some(desc)
            && rs'[k].readBySeller == isSeller && rs'[k].readByBuyer == !isSeller
            && rs'[k] == rs[k].(readBySeller := isSeller, readByBuyer := !isSeller,
                                lastMessage := Some(desc), updatedAt := now)
            && forall j :: 0 <= j < |rs| && j != k ==> rs'[j] == rs[j]
  {
    var rs' := UpdateById(rs, rs[k].id, NewMessage(isSeller, desc), now);
    assert rs'[k] == Apply(rs[k], NewMessage(isSeller, desc), now);
    forall j | 0 <= j < |rs| && j != k ensures rs'[j] == rs[j] {
      assert rs[j].id != rs[k].id by {
        if j < k { assert rs[j].id != rs[k].id; } else { assert rs[k].id != rs[j].id; }
      }
    }
  }

  /**
   * The same conversation's messages are returned whether it is named by its
   * composite id or by its storage id, provided no message is tagged with
   * the storage id itself and the composite id is not some conversation's
   * storage id.
   */
  lemma {:induction false} SameMessagesBySidOrId(msgs: seq<Message>, rs: seq<Conversation>, k: nat)
    requires UniqueSids(rs) && k < |rs|
    requires forall m :: m in msgs ==> m.conversationId != rs[k].sid
    requires forall c :: c in rs ==> c.sid != rs[k].id
    ensures GetMessages(msgs, rs, rs[k].sid) == GetMessages(msgs, rs, rs[k].id)
  {
    var c := rs[k];
    FindBySidUnique(rs, k);
    assert Thread(msgs, c.sid) == [];
    assert FindBySid(rs, c.id).None?;
  }

  /**
   * After `createMessage`, asking for the conversation's messages by its
   * composite id gives the earlier ones followed by the new message.
   */
  lemma NewMessageVisible(msgs: seq<Message>, rs: seq<Conversation>, m: Message)
    ensures GetMessages(msgs + [m], rs, m.conversationId) == Thread(msgs, m.conversationId) + [m]
  {
    FilterAppend(msgs, m, x => TaggedWith(x, m.conversationId));
  }
}
