/** Orders and reviews: placing an order with a chef, the caller's order
    list, one order's details (participants only) and the customer's single
    review of a completed order. */
module OrderController {
  import opened Http
  import opened Seqs
  import opened Tables
  import opened Ratings

  const Pending := "pending"
  const Completed := "completed"

  /** A `required|numeric|min:0` amount. */
  predicate NonNegative(f: Option<int>) {
    f.Some? && f.value >= 0
  }

  /** The body of `POST /orders`. */
  datatype CreateOrderRequest = CreateOrderRequest(
    toId: Option<nat>,
    orderType: Option<string>,
    amount: Option<int>,
    deliveryFee: Option<int>,
    serviceFee: Option<int>,
    cartItems: Option<seq<Json>>,
    address: Option<string>,
    paymentMethod: Option<string>,
    lat: Option<string>,
    lng: Option<string>,
    txnId: Option<string>)

  /** The validator of `createOrder`; `to_id` must name an existing user. */
  predicate CreateOrderValid(users: seq<User>, req: CreateOrderRequest) {
    && req.toId.Some? && FindUser(users, req.toId.value).Some?
    && req.orderType.Some? && req.orderType.value in {"dinein", "delivery", "takeaway"}
    && NonNegative(req.amount) && NonNegative(req.deliveryFee) && NonNegative(req.serviceFee)
    && req.cartItems.Some? && req.cartItems.value != []
    && Filled(req.address) && Filled(req.paymentMethod) && Filled(req.lat) && Filled(req.lng)
  }

  predicate IsChef(users: seq<User>, id: nat) {
    var u := FindUser(users, id);
    u.Some? && u.value.userType == Chef
  }

  /** The order `createOrder` inserts for caller `me`, given the next row id,
      the drawn order number and the clock. */
  function PlaceOrder(users: seq<User>, me: User, req: CreateOrderRequest, id: nat, orderNo: nat, now: int): (out: Outcome<Order>)
    ensures !CreateOrderValid(users, req) ==> out == Fail(ValidationError)
    ensures CreateOrderValid(users, req) && !IsChef(users, req.toId.value) ==> out == Fail(NotFound)
    ensures out.Ok? <==> CreateOrderValid(users, req) && IsChef(users, req.toId.value)
    ensures out.Ok? ==>
      && out.value.id == id && out.value.orderNo == orderNo
      && out.value.status == Pending
      && out.value.userId == me.id && out.value.toId == req.toId.value
      && out.value.amount == req.amount.value && out.value.deliveryFee == req.deliveryFee.value
      && out.value.serviceFee == req.serviceFee.value && out.value.cartItems == req.cartItems.value
      && out.value.orderType == req.orderType.value && out.value.address == req.address.value
      && out.value.paymentMethod == req.paymentMethod.value
      && out.value.lat == req.lat.value && out.value.lng == req.lng.value
      && out.value.chefLat == FindUser(users, req.toId.value).value.currentLat.GetOr("")
      && out.value.chefLng == FindUser(users, req.toId.value).value.currentLng.GetOr("")
      && out.value.txnId == req.txnId.GetOr("")
      && out.value.timestamp == now && out.value.createdAt == now
  {
    if !CreateOrderValid(users, req) then Fail(ValidationError)
    else
      var chef := FindUser(users, req.toId.value).value;
      if chef.userType != Chef then Fail(NotFound)
      else
        Ok(Order(id, orderNo, req.orderType.value, me.id, req.toId.value,
                 req.amount.value, req.deliveryFee.value, req.serviceFee.value, req.cartItems.value,
                 req.address.value, req.paymentMethod.value, req.lat.value, req.lng.value,
                 chef.currentLat.GetOr(""), chef.currentLng.GetOr(""),
                 Pending, req.txnId.GetOr(""), now, now))
  }

  /** `POST /orders`. The push to the chef has no effect on the database or
      the answer and is not modelled. */
  method CreateOrder(db: Db, me: User, req: CreateOrderRequest, orderNo: nat, now: int) returns (out: Outcome<Order>)
    requires db.Valid()
    requires 10000000 <= orderNo <= 99999999
    modifies db`orders, db`nextId
    ensures db.Valid()
    ensures out == PlaceOrder(db.users, me, req, old(db.nextId), orderNo, now)
    ensures out.Ok? ==> db.orders == old(db.orders) + [out.value] && db.nextId == old(db.nextId) + 1
    ensures out.Fail? ==> db.orders == old(db.orders) && db.nextId == old(db.nextId)
  {
    out := PlaceOrder(db.users, me, req, db.nextId, orderNo, now);
    if out.Ok? {
      OrderAppendKeepsIds(db.orders, out.value, db.nextId);
      db.orders := db.orders + [out.value];
      db.nextId := db.nextId + 1;
    }
  }

  /** The caller placed the order or is the chef it was placed with. */
  predicate Participant(o: Order, uid: nat) {
    o.userId == uid || o.toId == uid
  }

  /** The answer of `GET /orders/{id}`. */
  datatype OrderDetails = OrderDetails(
    order: Order,
    totalAmount: int,
    chef: Option<User>,
    review: Option<Review>,
    hasReview: bool)

  /** The customer's review of an order, if any. */
  function ReviewOf(reviews: seq<Review>, o: Order): (r: Option<Review>)
    ensures r.Some? ==> r.value in reviews && r.value.orderId == o.id && r.value.userId == o.userId
    ensures r.None? <==> forall x :: x in reviews ==> !(x.orderId == o.id && x.userId == o.userId)
  {
    match FirstIndex(reviews, (x: Review) => x.orderId == o.id && x.userId == o.userId)
    case None => None
    case Some(k) => Some(reviews[k])
  }

  function GetOrderDetails(orders: seq<Order>, reviews: seq<Review>, users: seq<User>, me: User, id: nat): (out: Outcome<OrderDetails>)
    ensures out.Fail? ==> out.failure == NotFound
    ensures out.Ok? <==> exists o :: o in orders && o.id == id && Participant(o, me.id)
    ensures out.Ok? ==>
      && out.value.order in orders && out.value.order.id == id && Participant(out.value.order, me.id)
      && out.value.totalAmount == out.value.order.amount + out.value.order.deliveryFee + out.value.order.serviceFee
    ensures out.Ok? ==>
      (out.value.hasReview <==>
        exists x :: x in reviews && x.orderId == id && x.userId == out.value.order.userId)
  {
    match FirstIndex(orders, (o: Order) => o.id == id && Participant(o, me.id))
    case None => Fail(NotFound)
    case Some(k) =>
      var o := orders[k];
      var review := ReviewOf(reviews, o);
      Ok(OrderDetails(o, o.amount + o.deliveryFee + o.serviceFee, FindUser(users, o.toId), review, review.Some?))
  }

  /** `where user_id = me` and, when a status is given, `where status = status`. */
  predicate Selected(o: Order, uid: nat, status: Option<string>) {
    o.userId == uid && (status.None? || o.status == status.value)
  }

  function Selection(orders: seq<Order>, uid: nat, status: Option<string>): (r: seq<Order>)
    ensures forall o :: o in r <==> o in orders && Selected(o, uid, status)
    ensures forall o :: multiset(r)[o] == if Selected(o, uid, status) then multiset(orders)[o] else 0
  {
    Filter(orders, (o: Order) => Selected(o, uid, status))
  }

  /** The caller's orders, with the optional status filter, ordered by
      `created_at`: ascending only for `sort == "oldest"`. */
  function MyOrders(orders: seq<Order>, me: User, status: Option<string>, sort: Option<string>): (r: seq<Order>)
    ensures forall o :: multiset(r)[o] == if Selected(o, me.id, status) then multiset(orders)[o] else 0
    ensures forall o :: o in r <==> o in orders && Selected(o, me.id, status)
    ensures SortedBy(r, (o: Order) => o.createdAt, sort == Some("oldest"))
  {
    var mine := Selection(orders, me.id, status);
    var r := SortBy(mine, (o: Order) => o.createdAt, sort == Some("oldest"));
    assert forall o :: o in r <==> o in mine by {
      forall o ensures o in r <==> o in mine {
        assert o in r <==> multiset(r)[o] > 0;
        assert o in mine <==> multiset(mine)[o] > 0;
      }
    }
    r
  }

  /** The chef of a listed order with the chef's rating count and sum. */
  datatype RatedChef = RatedChef(user: User, rating: Summary)
  datatype ListedOrder = ListedOrder(order: Order, chef: Option<RatedChef>)

  function RateChef(users: seq<User>, reviews: seq<Review>, chefId: nat): (c: Option<RatedChef>)
    ensures c.Some? <==> FindUser(users, chefId).Some?
    ensures c.Some? ==> c.value.user.id == chefId && c.value.rating.count == |ChefReviews(reviews, chefId)|
    ensures c.Some? ==> c.value.rating.sum == Sum(RatingsOf(ChefReviews(reviews, chefId)))
    ensures c.Some? && (forall x :: x in reviews ==> x.restId != chefId) ==> c.value.rating == Summary(0, 0)
  {
    match FindUser(users, chefId)
    case None => None
    case Some(u) =>
      var group := ChefReviews(reviews, chefId);
      assert (forall x :: x in reviews ==> x.restId != chefId) ==> group == [] by {
        if group != [] { assert group[0] in group; }
      }
      Some(RatedChef(u, Summarize(group)))
  }

  /** `GET /orders` as evidently intended: every listed order carries its
      chef's review count and rating sum, 0 and 0 for a chef without reviews. */
  function GetUserOrders(orders: seq<Order>, reviews: seq<Review>, users: seq<User>, me: User,
                         status: Option<string>, sort: Option<string>): (r: seq<ListedOrder>)
    ensures var mine := MyOrders(orders, me, status, sort);
      && |r| == |mine|
      && forall i :: 0 <= i < |r| ==> r[i].order == mine[i] && r[i].chef == RateChef(users, reviews, mine[i].toId)
  {
    WithChefs(MyOrders(orders, me, status, sort), users, reviews)
  }

  /** Each order of a page with its chef's rating summary. */
  function WithChefs(page: seq<Order>, users: seq<User>, reviews: seq<Review>): (r: seq<ListedOrder>)
    ensures |r| == |page|
    ensures forall i :: 0 <= i < |r| ==> r[i].order == page[i] && r[i].chef == RateChef(users, reviews, page[i].toId)
  {
    seq(|page|, i requires 0 <= i < |page| => ListedOrder(page[i], RateChef(users, reviews, page[i].toId)))
  }

  /** `GET /orders` as written: the rating query names `DB` without importing
      the facade, so the class cannot be resolved and every call ends in an
      uncaught error. */
  function GetUserOrdersAsWritten(orders: seq<Order>, reviews: seq<Review>, users: seq<User>, me: User,
                                  status: Option<string>, sort: Option<string>): (out: Outcome<seq<ListedOrder>>)
    ensures out.Fail? && StatusCode(out.failure) == 500
  {
    Fail(ServerError)
  }

  /** The listing never reaches the caller as written, whatever the tables hold. */
  lemma UserOrdersNeverListed(orders: seq<Order>, reviews: seq<Review>, users: seq<User>, me: User,
                              status: Option<string>, sort: Option<string>)
    ensures GetUserOrdersAsWritten(orders, reviews, users, me, status, sort) != Ok(GetUserOrders(orders, reviews, users, me, status, sort))
    ensures StatusCode(GetUserOrdersAsWritten(orders, reviews, users, me, status, sort).failure) == 500
  {
  }

  /** The body of `POST /orders/{id}/review`. */
  datatype ReviewRequest = ReviewRequest(rating: Option<int>, detail: Option<string>, gallery: Option<Json>)

  predicate ReviewRequestValid(req: ReviewRequest) {
    && req.rating.Some? && 1 <= req.rating.value <= 5
    && (req.detail.Some? ==> |req.detail.value| <= 255)
  }

  /** The caller's own completed order with this id. */
  predicate Reviewable(o: Order, orderId: nat, uid: nat) {
    o.id == orderId && o.userId == uid && o.status == Completed
  }

  predicate HasReviewBy(reviews: seq<Review>, orderId: nat, uid: nat) {
    exists x :: x in reviews && x.orderId == orderId && x.userId == uid
  }

  /** The review `addReview` inserts, given the next row id and the clock. */
  function ReviewOrder(orders: seq<Order>, reviews: seq<Review>, me: User, orderId: nat, req: ReviewRequest, id: nat, now: int): (out: Outcome<Review>)
    ensures !ReviewRequestValid(req) ==> out == Fail(ValidationError)
    ensures ReviewRequestValid(req) && (forall o :: o in orders ==> !Reviewable(o, orderId, me.id)) ==> out == Fail(NotFound)
    ensures out == Fail(BadRequest) <==>
      ReviewRequestValid(req) && (exists o :: o in orders && Reviewable(o, orderId, me.id)) && HasReviewBy(reviews, orderId, me.id)
    ensures ReviewRequestValid(req) && (exists o :: o in orders && Reviewable(o, orderId, me.id)) && !HasReviewBy(reviews, orderId, me.id) ==>
      out.Ok?
    ensures out.Ok? ==>
      && !HasReviewBy(reviews, orderId, me.id)
      && (exists o :: o in orders && Reviewable(o, orderId, me.id) && o.toId == out.value.restId)
      && out.value.id == id && out.value.userId == me.id && out.value.orderId == orderId
      && out.value.rating == req.rating.value && 1 <= out.value.rating <= 5
      && out.value.dishId == None
      && out.value.detail == req.detail.GetOr("") && out.value.gallery == req.gallery.GetOr("")
      && out.value.timestamp == now
  {
    if !ReviewRequestValid(req) then Fail(ValidationError)
    else
      match FirstIndex(orders, (o: Order) => Reviewable(o, orderId, me.id))
      case None => Fail(NotFound)
      case Some(k) =>
        var o := orders[k];
        if HasReviewBy(reviews, o.id, me.id) then Fail(BadRequest)
        else Ok(Review(id, me.id, o.id, o.toId, None, req.rating.value, req.detail.GetOr(""), req.gallery.GetOr(""), now))
  }

  /** `POST /orders/{id}/review`. */
  method AddReview(db: Db, me: User, orderId: nat, req: ReviewRequest, now: int) returns (out: Outcome<Review>)
    requires db.Valid()
    modifies db`reviews, db`nextId
    ensures db.Valid()
    ensures out == ReviewOrder(db.orders, old(db.reviews), me, orderId, req, old(db.nextId), now)
    ensures out.Ok? ==> db.reviews == old(db.reviews) + [out.value] && db.nextId == old(db.nextId) + 1
    ensures out.Fail? ==> db.reviews == old(db.reviews) && db.nextId == old(db.nextId)
  {
    out := ReviewOrder(db.orders, db.reviews, me, orderId, req, db.nextId, now);
    if out.Ok? {
      ReviewAppendKeepsIds(db.reviews, out.value, db.nextId);
      db.reviews := db.reviews + [out.value];
      db.nextId := db.nextId + 1;
    }
  }

  /** No two reviews share an (order, customer) pair. */
  predicate OneReviewPerOrder(reviews: seq<Review>) {
    forall i, j :: 0 <= i < j < |reviews| ==>
      !(reviews[i].orderId == reviews[j].orderId && reviews[i].userId == reviews[j].userId)
  }

  /** Whatever `addReview` answers, the reviews table keeps one review per pair. */
  lemma ReviewKeepsOnePerOrder(orders: seq<Order>, reviews: seq<Review>, me: User, orderId: nat, req: ReviewRequest, id: nat, now: int)
    requires OneReviewPerOrder(reviews)
    ensures var out := ReviewOrder(orders, reviews, me, orderId, req, id, now);
      OneReviewPerOrder(if out.Ok? then reviews + [out.value] else reviews)
  {
    var out := ReviewOrder(orders, reviews, me, orderId, req, id, now);
    if out.Ok? {
      var r := reviews + [out.value];
      forall i, j | 0 <= i < j < |r|
        ensures !(r[i].orderId == r[j].orderId && r[i].userId == r[j].userId)
      {
        if j == |reviews| {
          assert r[i] in reviews;
        }
      }
    }
  }

  /** Once a review is in, any further valid review of that order is refused with 400. */
  lemma SecondReviewRejected(orders: seq<Order>, reviews: seq<Review>, me: User, orderId: nat,
                             req: ReviewRequest, id: nat, now: int, again: ReviewRequest, id2: nat, later: int)
    requires ReviewOrder(orders, reviews, me, orderId, req, id, now).Ok?
    requires ReviewRequestValid(again)
    ensures var first := ReviewOrder(orders, reviews, me, orderId, req, id, now).value;
      ReviewOrder(orders, reviews + [first], me, orderId, again, id2, later) == Fail(BadRequest)
  {
    var first := ReviewOrder(orders, reviews, me, orderId, req, id, now).value;
    assert first in reviews + [first];
  }

  /** A freshly placed order is visible to its customer and to its chef, and
      cannot be reviewed until it is completed. */
  lemma PlacedOrderVisibleNotReviewable(orders: seq<Order>, reviews: seq<Review>, users: seq<User>, me: User,
                                        req: CreateOrderRequest, id: nat, orderNo: nat, now: int,
                                        viewer: User, review: ReviewRequest, rid: nat, later: int)
    requires OrderIdsOk(orders, id)
    requires PlaceOrder(users, me, req, id, orderNo, now).Ok?
    requires viewer.id == me.id || viewer.id == req.toId.value
    requires ReviewRequestValid(review)
    ensures var o := PlaceOrder(users, me, req, id, orderNo, now).value;
      && GetOrderDetails(orders + [o], reviews, users, viewer, id).Ok?
      && GetOrderDetails(orders + [o], reviews, users, viewer, id).value.order == o
      && ReviewOrder(orders + [o], reviews, me, id, review, rid, later) == Fail(NotFound)
  {
    var o := PlaceOrder(users, me, req, id, orderNo, now).value;
    var all := orders + [o];
    assert o in all && Participant(o, viewer.id);
    forall x | x in all && x.id == id
      ensures x == o
    {
    }
  }
}
