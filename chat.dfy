/** The conversation attached to an order: only the order's two participants
    may post to it or read it, a message always goes to the other
    participant, and reading the thread flips the reader's `seen` flags. */
module ChatController {
  import opened Http
  import opened Seqs
  import opened Tables
  import opened OrderController

  /** The order a chat request names, once the validator (`order_id` must
      exist) and the participant check have passed. The validator's `exists`
      rule answers 422 before the handler's own 404 test can be reached. */
  function ChatOrder(orders: seq<Order>, me: User, orderId: Option<nat>): (out: Outcome<Order>)
    ensures orderId.None? ==> out == Fail(ValidationError)
    ensures orderId.Some? && (forall o :: o in orders ==> o.id != orderId.value) ==> out == Fail(ValidationError)
    ensures out.Fail? ==> out.failure in {ValidationError, Forbidden}
    ensures out == Fail(Forbidden) <==>
      orderId.Some? && FindOrder(orders, orderId.value).Some? && !Participant(FindOrder(orders, orderId.value).value, me.id)
    ensures out.Ok? ==> out.value in orders && out.value.id == orderId.value && Participant(out.value, me.id)
    ensures orderId.Some? && FindOrder(orders, orderId.value).Some? && Participant(FindOrder(orders, orderId.value).value, me.id) ==>
      out == Ok(FindOrder(orders, orderId.value).value)
  {
    if orderId.None? then Fail(ValidationError)
    else
      match FindOrder(orders, orderId.value)
      case None => Fail(ValidationError)
      case Some(o) => if Participant(o, me.id) then Ok(o) else Fail(Forbidden)
  }

  /** The other participant of the order: the chef when the customer sends. */
  function Recipient(o: Order, sender: nat): (to: nat)
    requires Participant(o, sender)
    ensures Participant(o, to)
    ensures sender == o.userId ==> to == o.toId
    ensures o.userId != o.toId ==> to != sender
  {
    if sender == o.userId then o.toId else o.userId
  }

  /** The body of `sendMessage`. */
  datatype MessageRequest = MessageRequest(orderId: Option<nat>, msg: Option<string>, msgType: Option<int>)

  predicate MessageFieldsValid(req: MessageRequest) {
    && Filled(req.msg) && |req.msg.value| <= 255
    && (req.msgType.Some? ==> req.msgType.value in {0, 1})
  }

  /** The message `sendMessage` inserts, given the next row id and the clock. */
  function NewMessage(orders: seq<Order>, me: User, req: MessageRequest, id: nat, now: int): (out: Outcome<Chat>)
    ensures !MessageFieldsValid(req) ==> out == Fail(ValidationError)
    ensures MessageFieldsValid(req) && ChatOrder(orders, me, req.orderId).Fail? ==> out == Fail(ChatOrder(orders, me, req.orderId).failure)
    ensures out.Ok? <==> MessageFieldsValid(req) && ChatOrder(orders, me, req.orderId).Ok?
    ensures out.Ok? ==>
      var o := ChatOrder(orders, me, req.orderId).value;
      && out.value.id == id && out.value.userId == me.id && out.value.orderId == o.id
      && Participant(o, out.value.toId) && (me.id == o.userId ==> out.value.toId == o.toId)
      && (o.userId != o.toId ==> out.value.toId != me.id)
      && out.value.msg == req.msg.value && !out.value.seen
      && out.value.msgType in {0, 1} && (req.msgType.None? ==> out.value.msgType == 0)
      && (req.msgType.Some? ==> out.value.msgType == req.msgType.value)
      && out.value.datetime == 0 && out.value.timestamp == now
  {
    if !MessageFieldsValid(req) then Fail(ValidationError)
    else
      match ChatOrder(orders, me, req.orderId)
      case Fail(f) => Fail(f)
      case Ok(o) =>
        Ok(Chat(id, me.id, Recipient(o, me.id), o.id, req.msg.value, 0, req.msgType.GetOr(0), false, now))
  }

  /** `sendMessage`. `pushDelivered` is whether the push to the recipient
      went through; a failed push is caught and logged, so neither the answer
      nor the stored message depends on it. */
  method SendMessage(db: Db, me: User, req: MessageRequest, now: int, pushDelivered: bool) returns (out: Outcome<Chat>)
    requires db.Valid()
    modifies db`chats, db`nextId
    ensures db.Valid()
    ensures out == NewMessage(db.orders, me, req, old(db.nextId), now)
    ensures out.Ok? ==> db.chats == old(db.chats) + [out.value] && db.nextId == old(db.nextId) + 1
    ensures out.Fail? ==> db.chats == old(db.chats) && db.nextId == old(db.nextId)
  {
    out := NewMessage(db.orders, me, req, db.nextId, now);
    if out.Ok? {
      ChatAppendKeepsIds(db.chats, out.value, db.nextId);
      db.chats := db.chats + [out.value];
      db.nextId := db.nextId + 1;
    }
  }

  /** A message of this order, to `uid`, not yet seen. */
  predicate Unseen(c: Chat, orderId: nat, uid: nat) {
    c.orderId == orderId && c.toId == uid && !c.seen
  }

  /** How many messages of the order to `uid` are unseen. */
  function UnseenCount(chats: seq<Chat>, orderId: nat, uid: nat): (n: nat)
    ensures n <= |chats|
  {
    if chats == [] then 0
    else UnseenCount(chats[..|chats| - 1], orderId, uid) + (if Unseen(chats[|chats| - 1], orderId, uid) then 1 else 0)
  }

  /** The count is zero exactly when no message is unseen. */
  lemma {:induction false} UnseenCountZero(chats: seq<Chat>, orderId: nat, uid: nat)
    ensures UnseenCount(chats, orderId, uid) == 0 <==> forall i :: 0 <= i < |chats| ==> !Unseen(chats[i], orderId, uid)
  {
    if chats != [] {
      var init := chats[..|chats| - 1];
      UnseenCountZero(init, orderId, uid);
      assert forall i :: 0 <= i < |init| ==> init[i] == chats[i];
    }
  }

  /** The chat table after `update(['seen' => 1])` on the order's messages to `uid`. */
  function MarkSeen(chats: seq<Chat>, orderId: nat, uid: nat): (r: seq<Chat>)
    ensures |r| == |chats|
    ensures forall i :: 0 <= i < |r| ==> r[i].(seen := chats[i].seen) == chats[i]
    ensures forall i :: 0 <= i < |r| ==>
      (r[i].seen <==> chats[i].seen || (chats[i].orderId == orderId && chats[i].toId == uid))
  {
    seq(|chats|, i requires 0 <= i < |chats| =>
      if Unseen(chats[i], orderId, uid) then chats[i].(seen := true) else chats[i])
  }

  /** After marking, the reader has nothing unseen in that order. */
  lemma MarkSeenClears(chats: seq<Chat>, orderId: nat, uid: nat)
    ensures UnseenCount(MarkSeen(chats, orderId, uid), orderId, uid) == 0
  {
    UnseenCountZero(MarkSeen(chats, orderId, uid), orderId, uid);
  }

  /** Marking twice is marking once. */
  lemma MarkSeenIdempotent(chats: seq<Chat>, orderId: nat, uid: nat)
    ensures MarkSeen(MarkSeen(chats, orderId, uid), orderId, uid) == MarkSeen(chats, orderId, uid)
  {
    var once := MarkSeen(chats, orderId, uid);
    var twice := MarkSeen(once, orderId, uid);
    forall i | 0 <= i < |once|
      ensures twice[i] == once[i]
    {
      assert twice[i].(seen := once[i].seen) == once[i];
    }
  }

  /** Messages to the other participant, and messages of other orders, keep their rows. */
  lemma MarkSeenKeepsOthers(chats: seq<Chat>, orderId: nat, uid: nat, i: nat)
    requires i < |chats|
    requires chats[i].orderId != orderId || chats[i].toId != uid
    ensures MarkSeen(chats, orderId, uid)[i] == chats[i]
  {
    var r := MarkSeen(chats, orderId, uid);
    assert r[i].(seen := chats[i].seen) == chats[i];
  }

  /** Flips, row by row, the flags `MarkSeen` describes and counts the flips
      (the affected-rows count of the SQL update). */
  method FlagSeen(db: Db, orderId: nat, uid: nat) returns (flipped: nat)
    modifies db`chats
    ensures db.chats == MarkSeen(old(db.chats), orderId, uid)
    ensures flipped == UnseenCount(old(db.chats), orderId, uid)
  {
    ghost var before := db.chats;
    var i := 0;
    flipped := 0;
    while i < |db.chats|
      invariant 0 <= i <= |db.chats| == |before|
      invariant forall j :: 0 <= j < i ==> db.chats[j] == MarkSeen(before, orderId, uid)[j]
      invariant forall j :: i <= j < |before| ==> db.chats[j] == before[j]
      invariant flipped == UnseenCount(before[..i], orderId, uid)
    {
      assert before[..i + 1][..i] == before[..i];
      if Unseen(db.chats[i], orderId, uid) {
        db.chats := db.chats[i := db.chats[i].(seen := true)];
        flipped := flipped + 1;
      }
      i := i + 1;
    }
    assert before[..i] == before;
  }

  /** The order's messages, oldest first (`orderBy('timestamp', 'asc')`). */
  function Thread(chats: seq<Chat>, orderId: nat): (r: seq<Chat>)
    ensures forall c :: c in r <==> c in chats && c.orderId == orderId
    ensures multiset(r) == multiset(Filter(chats, (c: Chat) => c.orderId == orderId))
    ensures SortedBy(r, (c: Chat) => c.timestamp, true)
  {
    var mine := Filter(chats, (c: Chat) => c.orderId == orderId);
    var r := SortBy(mine, (c: Chat) => c.timestamp, true);
    assert forall c :: c in r <==> c in mine by {
      forall c ensures c in r <==> c in mine {
        assert c in r <==> multiset(r)[c] > 0;
        assert c in mine <==> multiset(mine)[c] > 0;
      }
    }
    r
  }

  lemma MarkSeenKeepsIds(chats: seq<Chat>, orderId: nat, uid: nat, next: nat)
    requires ChatIdsOk(chats, next)
    ensures ChatIdsOk(MarkSeen(chats, orderId, uid), next)
  {
    var r := MarkSeen(chats, orderId, uid);
    assert forall i :: 0 <= i < |r| ==> r[i].id == chats[i].id by {
      forall i | 0 <= i < |r| ensures r[i].id == chats[i].id {
        assert r[i].(seen := chats[i].seen) == chats[i];
      }
    }
  }

  /** `getChat`: the thread as it was read, before the reader's flags are set. */
  method GetChat(db: Db, me: User, orderId: Option<nat>, perPage: Option<int>) returns (out: Outcome<seq<Chat>>)
    requires db.Valid()
    modifies db`chats
    ensures db.Valid()
    ensures perPage.Some? && !(1 <= perPage.value <= 100) ==> out == Fail(ValidationError) && db.chats == old(db.chats)
    ensures (perPage.None? || 1 <= perPage.value <= 100) ==>
      match ChatOrder(db.orders, me, orderId)
      case Fail(f) => out == Fail(f) && db.chats == old(db.chats)
      case Ok(o) =>
        && out == Ok(Thread(old(db.chats), o.id))
        && db.chats == MarkSeen(old(db.chats), o.id, me.id)
  {
    if perPage.Some? && !(1 <= perPage.value <= 100) {
      return Fail(ValidationError);
    }
    match ChatOrder(db.orders, me, orderId)
    case Fail(f) =>
      out := Fail(f);
    case Ok(o) =>
      out := Ok(Thread(db.chats, o.id));
      MarkSeenKeepsIds(db.chats, o.id, me.id, db.nextId);
      var _ := FlagSeen(db, o.id, me.id);
  }

  /** `markAsSeen`: answers how many flags it flipped. */
  method MarkAsSeen(db: Db, me: User, orderId: Option<nat>) returns (out: Outcome<nat>)
    requires db.Valid()
    modifies db`chats
    ensures db.Valid()
    ensures match ChatOrder(db.orders, me, orderId)
      case Fail(f) => out == Fail(f) && db.chats == old(db.chats)
      case Ok(o) =>
        && out == Ok(UnseenCount(old(db.chats), o.id, me.id))
        && db.chats == MarkSeen(old(db.chats), o.id, me.id)
  {
    match ChatOrder(db.orders, me, orderId)
    case Fail(f) =>
      out := Fail(f);
    case Ok(o) =>
      MarkSeenKeepsIds(db.chats, o.id, me.id, db.nextId);
      var n := FlagSeen(db, o.id, me.id);
      out := Ok(n);
  }

  /** An immediate second `markAsSeen` flips nothing. */
  lemma SecondMarkFlipsNothing(chats: seq<Chat>, orderId: nat, uid: nat)
    ensures UnseenCount(MarkSeen(chats, orderId, uid), orderId, uid) == 0
    ensures MarkSeen(MarkSeen(chats, orderId, uid), orderId, uid) == MarkSeen(chats, orderId, uid)
  {
    MarkSeenClears(chats, orderId, uid);
    MarkSeenIdempotent(chats, orderId, uid);
  }

  /** The answer of `checkNewMessages`. */
  datatype Unread = Unread(count: nat, latest: Option<Chat>)

  /** `checkNewMessages`: counts the reader's unseen messages of the order
      and picks the newest of them, without changing anything. */
  method CheckNewMessages(db: Db, me: User, orderId: Option<nat>) returns (out: Outcome<Unread>)
    ensures ChatOrder(db.orders, me, orderId).Fail? ==> out == Fail(ChatOrder(db.orders, me, orderId).failure)
    ensures ChatOrder(db.orders, me, orderId).Ok? ==> out.Ok?
    ensures out.Ok? ==>
      var o := ChatOrder(db.orders, me, orderId).value;
      && out.value.count == UnseenCount(db.chats, o.id, me.id)
      && (out.value.latest.None? <==> out.value.count == 0)
      && (out.value.latest.Some? ==>
            && out.value.latest.value in db.chats && Unseen(out.value.latest.value, o.id, me.id)
            && forall c :: c in db.chats && Unseen(c, o.id, me.id) ==> c.timestamp <= out.value.latest.value.timestamp)
  {
    var access := ChatOrder(db.orders, me, orderId);
    if access.Fail? {
      return Fail(access.failure);
    }
    var o := access.value;
    var chats := db.chats;
    var count := 0;
    var latest: Option<Chat> := None;
    var i := 0;
    while i < |chats|
      invariant 0 <= i <= |chats|
      invariant count == UnseenCount(chats[..i], o.id, me.id)
      invariant latest.None? <==> count == 0
      invariant latest.Some? ==> latest.value in chats && Unseen(latest.value, o.id, me.id)
      invariant latest.Some? ==> forall j :: 0 <= j < i && Unseen(chats[j], o.id, me.id) ==> chats[j].timestamp <= latest.value.timestamp
      invariant latest.None? ==> forall j :: 0 <= j < i ==> !Unseen(chats[j], o.id, me.id)
    {
      assert chats[..i + 1][..i] == chats[..i];
      if Unseen(chats[i], o.id, me.id) {
        count := count + 1;
        if latest.None? || chats[i].timestamp > latest.value.timestamp {
          latest := Some(chats[i]);
        }
      }
      i := i + 1;
    }
    assert chats[..i] == chats;
    out := Ok(Unread(count, latest));
  }
}
