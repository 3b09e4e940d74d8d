/**
 * The conversation service (controllers/conversationcontroller.js).
 *
 * A conversation is stored under a storage id (`_id`, chosen by the
 * database) and carries a composite id (`id`): the two participants' ids
 * concatenated, seller first. Each participant has a read flag; the
 * conversation keeps the text of its last message.
 */
module Conversations {
  import opened Common
  import opened Seqs

  datatype Conversation = Conversation(
    sid: Id,                     // storage id (`_id`)
    id: Id,                      // composite id
    sellerId: Id,
    buyerId: Id,
    readBySeller: bool,
    readByBuyer: bool,
    lastMessage: Option<string>, // absent until the first message
    createdAt: nat,
    updatedAt: nat)

  /** The participant that holds the given role. */
  function Party(c: Conversation, asSeller: bool): Id {
    if asSeller then c.sellerId else c.buyerId
  }

  /** The read flag of the given role. */
  function ReadBy(c: Conversation, asSeller: bool): bool {
    if asSeller then c.readBySeller else c.readByBuyer
  }

  /**
   * The conversation `createConversation` builds when `userId` (a seller
   * iff `isSeller`) starts one with `to`.
   */
  function NewConversation(sid: Id, userId: Id, to: Id, isSeller: bool, now: nat): (c: Conversation)
    ensures c.id == (if isSeller then userId + to else to + userId)
    ensures Party(c, isSeller) == userId && Party(c, !isSeller) == to
    ensures c.id == c.sellerId + c.buyerId
    ensures ReadBy(c, isSeller) && !ReadBy(c, !isSeller)
    ensures c.readBySeller != c.readByBuyer
    ensures c.sid == sid && c.lastMessage == None && c.createdAt == now && c.updatedAt == now
  {
    var sellerId := if isSeller then userId else to;
    var buyerId := if isSeller then to else userId;
    Conversation(sid, sellerId + buyerId, sellerId, buyerId, isSeller, !isSeller, None, now, now)
  }

  /** The three updates a conversation receives after it is created. */
  datatype Edit =
    | OwnRead(isSeller: bool)                 // updateConversation: the caller's flag only
    | ReadFlags(isSeller: bool)               // markAsRead: caller read, counterpart unread
    | NewMessage(isSeller: bool, desc: string) // createMessage: as ReadFlags, and the last message

  /** One conversation after an edit made at time `now`. */
  function Apply(c: Conversation, e: Edit, now: nat): (r: Conversation)
    ensures r == c.(readBySeller := r.readBySeller, readByBuyer := r.readByBuyer,
                    lastMessage := r.lastMessage, updatedAt := now)
    ensures ReadBy(r, e.isSeller)
    ensures e.OwnRead? ==> ReadBy(r, !e.isSeller) == ReadBy(c, !e.isSeller)
    ensures !e.OwnRead? ==> !ReadBy(r, !e.isSeller) && r.readBySeller != r.readByBuyer
    ensures r.lastMessage == if e.NewMessage? then Some(e.desc) else c.lastMessage
  {
    match e
    case OwnRead(isSeller) =>
      if isSeller then c.(readBySeller := true, updatedAt := now)
      else c.(readByBuyer := true, updatedAt := now)
    case ReadFlags(isSeller) =>
      c.(readBySeller := isSeller, readByBuyer := !isSeller, updatedAt := now)
    case NewMessage(isSeller, desc) =>
      c.(readBySeller := isSeller, readByBuyer := !isSeller, lastMessage := Some(desc), updatedAt := now)
  }

  lemma ApplyIdempotent(c: Conversation, e: Edit, now: nat)
    ensures Apply(Apply(c, e, now), e, now) == Apply(c, e, now)
  {
  }

  /** No two conversations share a storage id. */
  ghost predicate UniqueSids(rs: seq<Conversation>) {
    forall i, j :: 0 <= i < j < |rs| ==> rs[i].sid != rs[j].sid
  }

  /** No two conversations share a composite id (the unique index on `id`). */
  ghost predicate UniqueIds(rs: seq<Conversation>) {
    forall i, j :: 0 <= i < j < |rs| ==> rs[i].id != rs[j].id
  }

  predicate HasSid(c: Conversation, sid: Id) { c.sid == sid }
  predicate HasId(c: Conversation, cid: Id) { c.id == cid }

  /** `findById(sid)`. */
  function FindBySid(rs: seq<Conversation>, sid: Id): (r: Option<Conversation>)
    ensures r.Some? ==> r.value in rs && r.value.sid == sid
    ensures r.None? <==> forall c :: c in rs ==> c.sid != sid
  {
    FindFirst(rs, c => HasSid(c, sid))
  }

  /** `findOne({ id: cid })`. */
  function FindById(rs: seq<Conversation>, cid: Id): (r: Option<Conversation>)
    ensures r.Some? ==> r.value in rs && r.value.id == cid
    ensures r.None? <==> forall c :: c in rs ==> c.id != cid
  {
    FindFirst(rs, c => HasId(c, cid))
  }

  /** Under unique storage ids, `findById` finds the one conversation with that id. */
  lemma FindBySidUnique(rs: seq<Conversation>, k: nat)
    requires UniqueSids(rs) && k < |rs|
    ensures FindBySid(rs, rs[k].sid) == Some(rs[k])
  {
    var i := FirstIndex(rs, c => HasSid(c, rs[k].sid));
    assert i.Some?;
    assert !(i.value < k) && !(i.value > k);
  }

  /** Under unique composite ids, `findOne({ id })` finds the one conversation with that id. */
  lemma FindByIdUnique(rs: seq<Conversation>, k: nat)
    requires UniqueIds(rs) && k < |rs|
    ensures FindById(rs, rs[k].id) == Some(rs[k])
  {
    var i := FirstIndex(rs, c => HasId(c, rs[k].id));
    assert i.Some?;
    assert !(i.value < k) && !(i.value > k);
  }

  /**
   * `findOneAndUpdate({ id: cid }, edit)`: the first conversation with
   * composite id `cid` is edited; when there is none, nothing changes.
   */
  function UpdateById(rs: seq<Conversation>, cid: Id, e: Edit, now: nat): (r: seq<Conversation>)
    ensures |r| == |rs|
    ensures (forall c :: c in rs ==> c.id != cid) ==> r == rs
    ensures UniqueIds(rs) ==>
              forall i :: 0 <= i < |rs| ==> r[i] == if rs[i].id == cid then Apply(rs[i], e, now) else rs[i]
    ensures forall i :: 0 <= i < |rs| ==> r[i].sid == rs[i].sid && r[i].id == rs[i].id
  {
    match FirstIndex(rs, c => HasId(c, cid))
    case None => rs
    case Some(k) => rs[k := Apply(rs[k], e, now)]
  }

  /** Editing the same conversation twice with the same edit is the same as once. */
  lemma {:induction false} UpdateByIdIdempotent(rs: seq<Conversation>, cid: Id, e: Edit, now: nat)
    ensures UpdateById(UpdateById(rs, cid, e, now), cid, e, now) == UpdateById(rs, cid, e, now)
  {
    var once := UpdateById(rs, cid, e, now);
    match FirstIndex(rs, c => HasId(c, cid))
    case None =>
    case Some(k) =>
      assert once == rs[k := Apply(rs[k], e, now)];
      assert forall j :: 0 <= j < |rs| ==> (HasId(once[j], cid) <==> HasId(rs[j], cid));
      var k' := FirstIndex(once, c => HasId(c, cid));
      assert k' == Some(k);
      ApplyIdempotent(rs[k], e, now);
  }

  /** An edit keeps both uniqueness invariants. */
  lemma UpdateByIdKeepsUnique(rs: seq<Conversation>, cid: Id, e: Edit, now: nat)
    requires UniqueSids(rs) && UniqueIds(rs)
    ensures UniqueSids(UpdateById(rs, cid, e, now)) && UniqueIds(UpdateById(rs, cid, e, now))
  {
  }

  /**
   * `getSingleConversation`: a storage-id match first, then a composite-id
   * match, else 404.
   */
  function GetSingleConversation(rs: seq<Conversation>, param: Id): (r: Result<Conversation>)
    ensures r.Ok? ==> r.value in rs && (r.value.sid == param || r.value.id == param)
    ensures (exists c :: c in rs && c.sid == param) ==> r.Ok? && r.value.sid == param
    ensures r.Err? <==> forall c :: c in rs ==> c.sid != param && c.id != param
    ensures r.Err? ==> r.error == Http(404, "Not found!")
  {
    match FindBySid(rs, param)
    case Some(c) => Ok(c)
    case None =>
      match FindById(rs, param)
      case Some(c) => Ok(c)
      case None => Err(Http(404, "Not found!"))
  }

  /** The caller's conversations: the ones where the caller holds its own role. */
  predicate Involves(c: Conversation, userId: Id, isSeller: bool) {
    Party(c, isSeller) == userId
  }

  function UpdatedAt(c: Conversation): int { c.updatedAt }

  /**
   * `getConversations`: every conversation whose seller (seller caller) or
   * buyer (buyer caller) is the caller, each as often as it is stored, most
   * recently updated first.
   */
  function GetConversations(rs: seq<Conversation>, userId: Id, isSeller: bool): (r: seq<Conversation>)
    ensures forall c :: c in r <==> c in rs && Party(c, isSeller) == userId
    ensures forall c :: multiset(r)[c] == if Party(c, isSeller) == userId then multiset(rs)[c] else 0
    ensures forall i, j :: 0 <= i < j < |r| ==> r[i].updatedAt >= r[j].updatedAt
  {
    var mine := Filter(rs, c => Involves(c, userId, isSeller));
    var r := SortDesc(mine, UpdatedAt);
    assert forall c :: c in r <==> c in multiset(mine);
    assert forall i, j :: 0 <= i < j < |r| ==> UpdatedAt(r[i]) >= UpdatedAt(r[j]);
    r
  }

  /** `c` is a conversation between `a` and `b`, in either role assignment. */
  predicate Between(c: Conversation, a: Id, b: Id) {
    (c.sellerId == a && c.buyerId == b) || (c.sellerId == b && c.buyerId == a)
  }

  /**
   * `getConversationByGig`: 404 when the gig is missing; otherwise the
   * first stored conversation between the caller and the gig's owner, in
   * either role assignment, or a 404 reply when there is none.
   */
  function GetConversationByGig(rs: seq<Conversation>, gigs: map<Id, Gig>, gigId: Id, userId: Id)
    : (r: Result<Conversation>)
    ensures gigId !in gigs ==> r == Err(Http(404, "Gig not found!"))
    ensures gigId in gigs && r.Ok? ==> r.value in rs && Between(r.value, userId, gigs[gigId].userId)
    ensures gigId in gigs ==>
              (r.Err? <==> forall c :: c in rs ==> !Between(c, userId, gigs[gigId].userId))
    ensures gigId in gigs && r.Err? ==> r.error == Reply(404, "No conversation found")
  {
    if gigId !in gigs then Err(Http(404, "Gig not found!"))
    else
      var owner := gigs[gigId].userId;
      match FindFirst(rs, c => Between(c, userId, owner))
      case Some(c) => Ok(c)
      case None => Err(Reply(404, "No conversation found"))
  }

  /** The conversation collection, in insertion order. */
  class ConversationStore {
    var records: seq<Conversation>

    ghost predicate Valid()
      reads this
    {
      UniqueSids(records) && UniqueIds(records)
    }

    constructor ()
      ensures Valid() && records == []
    {
      records := [];
    }

    /**
     * `createConversation`: builds the conversation and saves it; the save
     * fails with a duplicate-key error when the composite id is taken.
     * `sid` is the storage id the database assigns.
     */
    method Create(sid: Id, userId: Id, to: Id, isSeller: bool, now: nat) returns (r: Result<Conversation>)
      requires Valid()
      requires forall c :: c in records ==> c.sid != sid
      modifies this
      ensures Valid()
      ensures var cid := if isSeller then userId + to else to + userId;
              if exists c :: c in old(records) && c.id == cid then
                r == Err(Db(DbError(DuplicateKeyCode, [("id", cid)]))) && records == old(records)
              else
                r == Ok(NewConversation(sid, userId, to, isSeller, now)) && records == old(records) + [r.value]
    {
      var c := NewConversation(sid, userId, to, isSeller, now);
      if FindById(records, c.id).Some? {
        r := Err(Db(DbError(DuplicateKeyCode, [("id", c.id)])));
      } else {
        records := records + [c];
        r := Ok(c);
      }
    }

    /**
     * `updateConversation`: sets the caller's own read flag on the
     * conversation with composite id `cid` and answers with the updated
     * conversation, or with null when there is none.
     */
    method Update(cid: Id, isSeller: bool, now: nat) returns (r: Option<Conversation>)
      requires Valid()
      modifies this
      ensures Valid()
      ensures records == UpdateById(old(records), cid, OwnRead(isSeller), now)
      ensures r == FindById(records, cid)
      ensures forall k :: 0 <= k < |old(records)| && old(records)[k].id == cid ==>
                r == Some(Apply(old(records)[k], OwnRead(isSeller), now))
      ensures (forall c :: c in old(records) ==> c.id != cid) ==> r == None
    {
      UpdateByIdKeepsUnique(records, cid, OwnRead(isSeller), now);
      ghost var before := records;
      records := UpdateById(records, cid, OwnRead(isSeller), now);
      r := FindById(records, cid);
      forall k | 0 <= k < |before| && before[k].id == cid
        ensures r == Some(Apply(before[k], OwnRead(isSeller), now))
      {
        FindByIdUnique(records, k);
      }
    }
  }

  /**
   * The composite id depends only on who is the seller and who the buyer:
   * a seller starting a conversation with a buyer and that buyer starting
   * one with the seller compute the same id, so the second save is refused
   * as a duplicate.
   */
  lemma CompositeIdFollowsRoles(sellerId: Id, buyerId: Id, sid1: Id, sid2: Id, t1: nat, t2: nat)
    ensures NewConversation(sid1, sellerId, buyerId, true, t1).id == NewConversation(sid2, buyerId, sellerId, false, t2).id
  {
  }

  /** A new conversation is listed for the caller in the caller's role and for the counterpart in the other role. */
  lemma NewConversationListedForBoth(rs: seq<Conversation>, sid: Id, userId: Id, to: Id, isSeller: bool, now: nat)
    ensures var c := NewConversation(sid, userId, to, isSeller, now);
            c in GetConversations(rs + [c], userId, isSeller) && c in GetConversations(rs + [c], to, !isSeller)
  {
    var c := NewConversation(sid, userId, to, isSeller, now);
    assert c in rs + [c];
  }

  /**
   * Once a buyer has started a conversation with a gig's owner, looking the
   * conversation up by that gig finds one.
   */
  lemma CreatedConversationFoundByGig(rs: seq<Conversation>, gigs: map<Id, Gig>, gigId: Id,
                                      sid: Id, userId: Id, isSeller: bool, now: nat)
    requires gigId in gigs
    ensures var c := NewConversation(sid, userId, gigs[gigId].userId, isSeller, now);
            GetConversationByGig(rs + [c], gigs, gigId, userId).Ok?
  {
    var c := NewConversation(sid, userId, gigs[gigId].userId, isSeller, now);
    assert c in rs + [c];
  }
}
