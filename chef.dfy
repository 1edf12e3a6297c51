/** A chef's own profile and catalogue: onboarding, the availability status,
    and the dishes the chef creates, lists, edits field by field and deletes.
    Every catalogue call is refused with 403 unless the caller is a chef,
    and edits and deletions reach only the caller's own dishes. */
module ChefController {
  import opened Http
  import opened Seqs
  import opened Tables
  import opened Ratings

  // ---------------------------------------------------------------------
  // Onboarding and status

  /** The body of `onboard`. */
  datatype OnboardRequest = OnboardRequest(
    about: Option<string>,
    addressName: Option<string>,
    address: Option<string>,
    addressDetail: Option<string>,
    note: Option<string>,
    currentLat: Option<string>,
    currentLng: Option<string>,
    availabilityPickup: Option<Json>,
    availabilityDelivery: Option<Json>,
    availabilityDinein: Option<Json>)

  predicate AtMost(f: Option<string>, n: nat) {
    f.Some? ==> |f.value| <= n
  }

  /** The validator of `onboard` (the `numeric` and `json` formats are not checked). */
  predicate OnboardValid(req: OnboardRequest) {
    && Filled(req.about) && |req.about.value| <= 255
    && Filled(req.address)
    && AtMost(req.addressDetail, 255) && AtMost(req.note, 255)
    && Filled(req.currentLat) && Filled(req.currentLng)
    && Filled(req.availabilityPickup)
  }

  /** The caller's row after onboarding: every listed column takes the request
      value, an absent optional one becoming null, and the caller becomes an
      available chef. */
  function Onboarded(me: User, req: OnboardRequest): (u: User)
    requires OnboardValid(req)
    ensures u.userType == Chef && u.restStatus == Some("available")
    ensures u.about == req.about && u.address == req.address
    ensures u.currentLat == req.currentLat && u.currentLng == req.currentLng
    ensures u.availabilityPickup == req.availabilityPickup
    ensures u.addressName == req.addressName && u.addressDetail == req.addressDetail && u.note == req.note
    ensures u.availabilityDelivery == req.availabilityDelivery && u.availabilityDinein == req.availabilityDinein
    ensures u.(about := me.about, addressName := me.addressName, address := me.address,
               addressDetail := me.addressDetail, note := me.note, currentLat := me.currentLat,
               currentLng := me.currentLng, availabilityPickup := me.availabilityPickup,
               availabilityDelivery := me.availabilityDelivery, availabilityDinein := me.availabilityDinein,
               userType := me.userType, restStatus := me.restStatus) == me
  {
    me.(about := req.about, addressName := req.addressName, address := req.address,
        addressDetail := req.addressDetail, note := req.note, currentLat := req.currentLat,
        currentLng := req.currentLng, availabilityPickup := req.availabilityPickup,
        availabilityDelivery := req.availabilityDelivery, availabilityDinein := req.availabilityDinein,
        userType := Chef, restStatus := Some("available"))
  }

  /** Onboarding twice with the same answers is onboarding once. */
  lemma OnboardIdempotent(me: User, req: OnboardRequest)
    requires OnboardValid(req)
    ensures Onboarded(Onboarded(me, req), req) == Onboarded(me, req)
  {
  }

  /** `onboard`: open to any signed-in user. */
  method Onboard(db: Db, me: User, req: OnboardRequest) returns (out: Outcome<User>)
    requires db.Valid()
    modifies db`users
    ensures db.Valid()
    ensures !OnboardValid(req) ==> out == Fail(ValidationError) && db.users == old(db.users)
    ensures OnboardValid(req) ==> out == Ok(Onboarded(me, req)) && db.users == SetUser(old(db.users), Onboarded(me, req))
  {
    if !OnboardValid(req) {
      return Fail(ValidationError);
    }
    var u := Onboarded(me, req);
    SetUserKeepsIds(db.users, u, db.nextId);
    db.users := SetUser(db.users, u);
    out := Ok(u);
  }

  const RestStatuses: set<string> := {"available", "busy", "unavailable"}

  /** The caller's row after `updateStatus`. */
  function WithStatus(me: User, status: Option<string>): (out: Outcome<User>)
    ensures me.userType != Chef ==> out == Fail(Forbidden)
    ensures me.userType == Chef && !(status.Some? && status.value in RestStatuses) ==> out == Fail(ValidationError)
    ensures out.Ok? <==> me.userType == Chef && status.Some? && status.value in RestStatuses
    ensures out.Ok? ==> out.value.restStatus == status && out.value.(restStatus := me.restStatus) == me
  {
    if me.userType != Chef then Fail(Forbidden)
    else if !(status.Some? && status.value in RestStatuses) then Fail(ValidationError)
    else Ok(me.(restStatus := status))
  }

  /** `updateStatus`: chefs only; the status must be one of the three. */
  method UpdateStatus(db: Db, me: User, status: Option<string>) returns (out: Outcome<string>)
    requires db.Valid()
    modifies db`users
    ensures db.Valid()
    ensures WithStatus(me, status).Fail? ==> out == Fail(WithStatus(me, status).failure) && db.users == old(db.users)
    ensures WithStatus(me, status).Ok? ==>
      out == Ok(status.value) && db.users == SetUser(old(db.users), WithStatus(me, status).value)
  {
    var r := WithStatus(me, status);
    if r.Fail? {
      return Fail(r.failure);
    }
    SetUserKeepsIds(db.users, r.value, db.nextId);
    db.users := SetUser(db.users, r.value);
    out := Ok(status.value);
  }

  // ---------------------------------------------------------------------
  // Dishes

  /** The body of `addDish` and `updateDish`; absent fields are `None`. */
  datatype DishRequest = DishRequest(
    name: Option<string>,
    about: Option<string>,
    keywords: Option<seq<Json>>,
    category: Option<string>,
    cuisineId: Option<nat>,
    price: Option<int>,
    images: Option<seq<Json>>,
    deliveryPrice: Option<int>,
    dineinPrice: Option<int>,
    dineinLimit: Option<int>,
    sizes: Option<seq<Json>>)

  predicate NotNegative(f: Option<int>) {
    f.Some? ==> f.value >= 0
  }

  predicate CuisineExists(cuisines: seq<Cuisine>, id: Option<nat>) {
    id.Some? ==> exists c :: c in cuisines && c.id == id.value
  }

  /** The rules `addDish` and `updateDish` share, for the fields that are given. */
  predicate DishFieldsValid(cuisines: seq<Cuisine>, req: DishRequest) {
    && AtMost(req.name, 100) && AtMost(req.about, 255) && AtMost(req.category, 100)
    && CuisineExists(cuisines, req.cuisineId)
    && NotNegative(req.price) && NotNegative(req.deliveryPrice) && NotNegative(req.dineinPrice)
    && NotNegative(req.dineinLimit)
  }

  /** `addDish` further requires these fields, and non-empty lists. */
  predicate NewDishValid(cuisines: seq<Cuisine>, req: DishRequest) {
    && DishFieldsValid(cuisines, req)
    && Filled(req.name) && Filled(req.about) && Filled(req.category)
    && req.keywords.Some? && req.keywords.value != []
    && req.cuisineId.Some? && req.price.Some?
    && req.images.Some? && req.images.value != []
  }

  /** The dish `addDish` should insert for chef `me`, as evidently intended:
      the category is stored like every other field. */
  function NewDish(cuisines: seq<Cuisine>, me: User, req: DishRequest, id: nat, now: int): (out: Outcome<Dish>)
    ensures me.userType != Chef ==> out == Fail(Forbidden)
    ensures me.userType == Chef && !NewDishValid(cuisines, req) ==> out == Fail(ValidationError)
    ensures out.Ok? <==> me.userType == Chef && NewDishValid(cuisines, req)
    ensures out.Ok? ==>
      && out.value.id == id && out.value.userId == me.id
      && out.value.name == req.name.value && out.value.about == req.about.value
      && out.value.category == req.category
      && out.value.cuisineId == req.cuisineId.value && out.value.price == req.price.value
      && out.value.keywords == req.keywords.value && out.value.images == req.images.value
      && out.value.deliveryPrice == req.deliveryPrice && out.value.dineinPrice == req.dineinPrice
      && out.value.dineinLimit == req.dineinLimit
      && out.value.sizes == req.sizes.GetOr([]) && out.value.timestamp == now
  {
    if me.userType != Chef then Fail(Forbidden)
    else if !NewDishValid(cuisines, req) then Fail(ValidationError)
    else
      Ok(Dish(id, me.id, req.category, req.cuisineId.value, req.name.value, req.about.value,
              req.keywords.value, req.price.value, req.images.value, req.deliveryPrice,
              req.dineinPrice, req.dineinLimit, req.sizes.GetOr([]), now))
  }

  /** The dish `addDish` inserts as written: `Dish::create` keeps only the
      model's fillable columns, which name `cat_id` but not `category`, so the
      validated category is silently discarded. */
  function NewDishAsWritten(cuisines: seq<Cuisine>, me: User, req: DishRequest, id: nat, now: int): (out: Outcome<Dish>)
    ensures out.Ok? <==> NewDish(cuisines, me, req, id, now).Ok?
    ensures out.Fail? ==> out == NewDish(cuisines, me, req, id, now)
    ensures out.Ok? ==> out.value.category == None && out.value.(category := req.category) == NewDish(cuisines, me, req, id, now).value
  {
    match NewDish(cuisines, me, req, id, now)
    case Fail(f) => Fail(f)
    case Ok(d) => Ok(d.(category := None))
  }

  /** Every dish `addDish` accepts loses its required category as written;
      the intended insert keeps it. */
  lemma AddDishDropsCategory(cuisines: seq<Cuisine>, me: User, req: DishRequest, id: nat, now: int)
    requires me.userType == Chef && NewDishValid(cuisines, req)
    ensures NewDishAsWritten(cuisines, me, req, id, now).Ok?
    ensures NewDishAsWritten(cuisines, me, req, id, now).value.category == None
    ensures NewDish(cuisines, me, req, id, now).value.category == req.category != None
  {
  }

  /** `addDish`. */
  method AddDish(db: Db, me: User, req: DishRequest, now: int) returns (out: Outcome<Dish>)
    requires db.Valid()
    modifies db`dishes, db`nextId
    ensures db.Valid()
    ensures out == NewDish(db.cuisines, me, req, old(db.nextId), now)
    ensures out.Ok? ==> db.dishes == old(db.dishes) + [out.value] && db.nextId == old(db.nextId) + 1
    ensures out.Fail? ==> db.dishes == old(db.dishes) && db.nextId == old(db.nextId)
  {
    out := NewDish(db.cuisines, me, req, db.nextId, now);
    if out.Ok? {
      DishAppendKeepsIds(db.dishes, out.value, db.nextId);
      db.dishes := db.dishes + [out.value];
      db.nextId := db.nextId + 1;
    }
  }

  /** A listed dish with its review count and rating sum. */
  datatype RatedDish = RatedDish(dish: Dish, rating: Summary)

  /** The caller's dishes, newest first. */
  function OwnDishes(dishes: seq<Dish>, uid: nat): (r: seq<Dish>)
    ensures forall d :: d in r <==> d in dishes && d.userId == uid
    ensures multiset(r) == multiset(Filter(dishes, (d: Dish) => d.userId == uid))
    ensures SortedBy(r, (d: Dish) => d.timestamp, false)
  {
    var own := Filter(dishes, (d: Dish) => d.userId == uid);
    var r := SortBy(own, (d: Dish) => d.timestamp, false);
    assert forall d :: d in r <==> d in own by {
      forall d ensures d in r <==> d in own {
        assert d in r <==> multiset(r)[d] > 0;
        assert d in own <==> multiset(own)[d] > 0;
      }
    }
    r
  }

  function RateDish(reviews: seq<Review>, d: Dish): (r: RatedDish)
    ensures r.dish == d && r.rating.count == |DishReviews(reviews, d.id)|
    ensures r.rating.sum == Sum(RatingsOf(DishReviews(reviews, d.id)))
    ensures (forall x :: x in reviews ==> x.dishId != Some(d.id)) ==> r.rating == Summary(0, 0)
  {
    var group := DishReviews(reviews, d.id);
    assert (forall x :: x in reviews ==> x.dishId != Some(d.id)) ==> group == [] by {
      if group != [] { assert group[0] in group; }
    }
    RatedDish(d, Summarize(group))
  }

  /** `getDishes`: chefs only; each own dish with its rating, 0 and 0 when unreviewed. */
  function GetDishes(dishes: seq<Dish>, reviews: seq<Review>, me: User): (out: Outcome<seq<RatedDish>>)
    ensures me.userType != Chef <==> out == Fail(Forbidden)
    ensures me.userType == Chef ==> out.Ok?
    ensures out.Ok? ==>
      var own := OwnDishes(dishes, me.id);
      && |out.value| == |own|
      && forall i :: 0 <= i < |out.value| ==> out.value[i] == RateDish(reviews, own[i])
  {
    if me.userType != Chef then Fail(Forbidden)
    else Ok(RateAll(OwnDishes(dishes, me.id), reviews))
  }

  /** Each dish of a page with its rating summary. */
  function RateAll(page: seq<Dish>, reviews: seq<Review>): (r: seq<RatedDish>)
    ensures |r| == |page|
    ensures forall i :: 0 <= i < |r| ==> r[i] == RateDish(reviews, page[i])
  {
    seq(|page|, i requires 0 <= i < |page| => RateDish(reviews, page[i]))
  }

  /** The dish after `updateDish`: each given field replaces the stored one. */
  function PatchDish(d: Dish, req: DishRequest): (r: Dish)
    ensures r.id == d.id && r.userId == d.userId && r.timestamp == d.timestamp
    ensures Overwrites(req.name, d.name, r.name) && Overwrites(req.about, d.about, r.about)
    ensures Overwrites(req.keywords, d.keywords, r.keywords) && OverwritesNullable(req.category, d.category, r.category)
    ensures Overwrites(req.cuisineId, d.cuisineId, r.cuisineId) && Overwrites(req.price, d.price, r.price)
    ensures Overwrites(req.images, d.images, r.images) && Overwrites(req.sizes, d.sizes, r.sizes)
    ensures OverwritesNullable(req.deliveryPrice, d.deliveryPrice, r.deliveryPrice)
    ensures OverwritesNullable(req.dineinPrice, d.dineinPrice, r.dineinPrice)
    ensures OverwritesNullable(req.dineinLimit, d.dineinLimit, r.dineinLimit)
  {
    d.(name := req.name.GetOr(d.name),
       about := req.about.GetOr(d.about),
       keywords := req.keywords.GetOr(d.keywords),
       category := if req.category.Some? then req.category else d.category,
       cuisineId := req.cuisineId.GetOr(d.cuisineId),
       price := req.price.GetOr(d.price),
       images := req.images.GetOr(d.images),
       deliveryPrice := if req.deliveryPrice.Some? then req.deliveryPrice else d.deliveryPrice,
       dineinPrice := if req.dineinPrice.Some? then req.dineinPrice else d.dineinPrice,
       dineinLimit := if req.dineinLimit.Some? then req.dineinLimit else d.dineinLimit,
       sizes := req.sizes.GetOr(d.sizes))
  }

  /** Applying the same edit twice is applying it once. */
  lemma PatchDishIdempotent(d: Dish, req: DishRequest)
    ensures PatchDish(PatchDish(d, req), req) == PatchDish(d, req)
  {
  }

  /** An edit with no fields changes nothing. */
  lemma EmptyPatchKeepsDish(d: Dish)
    ensures PatchDish(d, DishRequest(None, None, None, None, None, None, None, None, None, None, None)) == d
  {
  }

  /** The index of the caller's dish with this id: the row the handler edits or deletes. */
  function OwnDishIndex(dishes: seq<Dish>, me: User, id: nat): (r: Option<nat>)
    ensures r.Some? ==> r.value < |dishes| && dishes[r.value].id == id && dishes[r.value].userId == me.id
    ensures r.None? <==> forall d :: d in dishes ==> !(d.id == id && d.userId == me.id)
  {
    match FirstIndex(dishes, (d: Dish) => d.id == id && d.userId == me.id)
    case None =>
      assert forall d :: d in dishes ==> !(d.id == id && d.userId == me.id) by {
        forall d | d in dishes ensures !(d.id == id && d.userId == me.id) {
          var j :| 0 <= j < |dishes| && dishes[j] == d;
        }
      }
      None
    case Some(k) => Some(k)
  }

  /** The guard of `updateDish`: 403, then 404, then the validator's 422. */
  function UpdateDishTarget(dishes: seq<Dish>, cuisines: seq<Cuisine>, me: User, id: nat, req: DishRequest): (out: Outcome<nat>)
    ensures me.userType != Chef ==> out == Fail(Forbidden)
    ensures me.userType == Chef && OwnDishIndex(dishes, me, id).None? ==> out == Fail(NotFound)
    ensures me.userType == Chef && OwnDishIndex(dishes, me, id).Some? && !DishFieldsValid(cuisines, req) ==>
      out == Fail(ValidationError)
    ensures out.Ok? <==> me.userType == Chef && OwnDishIndex(dishes, me, id).Some? && DishFieldsValid(cuisines, req)
    ensures out.Ok? ==> out.value == OwnDishIndex(dishes, me, id).value
    ensures out.Fail? ==> out.failure in {Forbidden, NotFound, ValidationError}
  {
    if me.userType != Chef then Fail(Forbidden)
    else
      match OwnDishIndex(dishes, me, id)
      case None => Fail(NotFound)
      case Some(k) => if DishFieldsValid(cuisines, req) then Ok(k) else Fail(ValidationError)
  }

  /** The assignments of `updateDish` to the descriptive fields. */
  method AssignDescription(d: Dish, req: DishRequest) returns (dish: Dish)
    ensures dish == d.(name := req.name.GetOr(d.name), about := req.about.GetOr(d.about),
                       keywords := req.keywords.GetOr(d.keywords),
                       category := if req.category.Some? then req.category else d.category)
  {
    dish := d;
    if req.name.Some? { dish := dish.(name := req.name.value); }
    if req.about.Some? { dish := dish.(about := req.about.value); }
    if req.keywords.Some? { dish := dish.(keywords := req.keywords.value); }
    if req.category.Some? { dish := dish.(category := req.category); }
  }

  /** The assignments of `updateDish` to the cuisine, price and images. */
  method AssignListing(d: Dish, req: DishRequest) returns (dish: Dish)
    ensures dish == d.(cuisineId := req.cuisineId.GetOr(d.cuisineId), price := req.price.GetOr(d.price),
                       images := req.images.GetOr(d.images))
  {
    dish := d;
    if req.cuisineId.Some? { dish := dish.(cuisineId := req.cuisineId.value); }
    if req.price.Some? { dish := dish.(price := req.price.value); }
    if req.images.Some? { dish := dish.(images := req.images.value); }
  }

  /** The assignments of `updateDish` to the service prices and sizes. */
  method AssignService(d: Dish, req: DishRequest) returns (dish: Dish)
    ensures dish == d.(deliveryPrice := if req.deliveryPrice.Some? then req.deliveryPrice else d.deliveryPrice,
                       dineinPrice := if req.dineinPrice.Some? then req.dineinPrice else d.dineinPrice,
                       dineinLimit := if req.dineinLimit.Some? then req.dineinLimit else d.dineinLimit,
                       sizes := req.sizes.GetOr(d.sizes))
  {
    dish := d;
    if req.deliveryPrice.Some? { dish := dish.(deliveryPrice := req.deliveryPrice); }
    if req.dineinPrice.Some? { dish := dish.(dineinPrice := req.dineinPrice); }
    if req.dineinLimit.Some? { dish := dish.(dineinLimit := req.dineinLimit); }
    if req.sizes.Some? { dish := dish.(sizes := req.sizes.value); }
  }

  /** Every assignment of `updateDish`, in the handler's order. */
  method AssignDishFields(d: Dish, req: DishRequest) returns (dish: Dish)
    ensures dish == PatchDish(d, req)
  {
    dish := AssignDescription(d, req);
    dish := AssignListing(dish, req);
    dish := AssignService(dish, req);
  }

  /** `updateDish`: assigns the given fields to the caller's dish and saves
      it in place. */
  method UpdateDish(db: Db, me: User, id: nat, req: DishRequest) returns (out: Outcome<Dish>)
    requires db.Valid()
    modifies db`dishes
    ensures db.Valid()
    ensures var target := UpdateDishTarget(old(db.dishes), db.cuisines, me, id, req);
      match target
      case Fail(f) => out == Fail(f) && db.dishes == old(db.dishes)
      case Ok(k) =>
        && out == Ok(PatchDish(old(db.dishes)[k], req))
        && db.dishes == old(db.dishes)[k := PatchDish(old(db.dishes)[k], req)]
  {
    var target := UpdateDishTarget(db.dishes, db.cuisines, me, id, req);
    if target.Fail? {
      return Fail(target.failure);
    }
    var k := target.value;
    var dish := AssignDishFields(db.dishes[k], req);
    db.dishes := db.dishes[k := dish];
    out := Ok(dish);
  }

  /** The guard of `deleteDish`: 403, then 404. */
  function DeleteDishTarget(dishes: seq<Dish>, me: User, id: nat): (out: Outcome<nat>)
    ensures me.userType != Chef ==> out == Fail(Forbidden)
    ensures me.userType == Chef && OwnDishIndex(dishes, me, id).None? ==> out == Fail(NotFound)
    ensures out.Ok? <==> me.userType == Chef && OwnDishIndex(dishes, me, id).Some?
    ensures out.Ok? ==> out.value == OwnDishIndex(dishes, me, id).value
    ensures out.Fail? ==> out.failure in {Forbidden, NotFound}
  {
    if me.userType != Chef then Fail(Forbidden)
    else
      match OwnDishIndex(dishes, me, id)
      case None => Fail(NotFound)
      case Some(k) => Ok(k)
  }

  lemma DishRemoveKeepsIds(t: seq<Dish>, k: nat, next: nat)
    requires k < |t| && DishIdsOk(t, next)
    ensures DishIdsOk(RemoveAt(t, k), next)
  {
    var r := RemoveAt(t, k);
    forall i, j | 0 <= i < j < |r|
      ensures r[i].id != r[j].id
    {
      var i' := if i < k then i else i + 1;
      var j' := if j < k then j else j + 1;
      assert r[i] == t[i'] && r[j] == t[j'];
    }
  }

  /** With unique ids, deleting the row at the found index leaves no dish with that id. */
  lemma DeletedDishGone(dishes: seq<Dish>, k: nat, next: nat)
    requires k < |dishes| && DishIdsOk(dishes, next)
    ensures forall d :: d in RemoveAt(dishes, k) ==> d.id != dishes[k].id
    ensures multiset(RemoveAt(dishes, k)) == multiset(dishes) - multiset{dishes[k]}
  {
    var r := RemoveAt(dishes, k);
    forall d | d in r
      ensures d.id != dishes[k].id
    {
      var j :| 0 <= j < |r| && r[j] == d;
      if j < k {
        assert r[j] == dishes[j];
      } else {
        assert r[j] == dishes[j + 1];
      }
    }
  }

  /** `deleteDish`: removes exactly the caller's dish with that id. */
  method DeleteDish(db: Db, me: User, id: nat) returns (out: Outcome<nat>)
    requires db.Valid()
    modifies db`dishes
    ensures db.Valid()
    ensures match DeleteDishTarget(old(db.dishes), me, id)
      case Fail(f) => out == Fail(f) && db.dishes == old(db.dishes)
      case Ok(k) => out == Ok(id) && db.dishes == RemoveAt(old(db.dishes), k)
  {
    var target := DeleteDishTarget(db.dishes, me, id);
    if target.Fail? {
      return Fail(target.failure);
    }
    DishRemoveKeepsIds(db.dishes, target.value, db.nextId);
    db.dishes := RemoveAt(db.dishes, target.value);
    out := Ok(id);
  }
}
