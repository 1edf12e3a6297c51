/** The public catalogue: the chef search plan, a chef's page (dishes with
    star histograms and like flags), a chef's reviews, and the like toggles
    for dishes and chefs. */
module HomeController {
  import opened Http
  import opened Seqs
  import opened Tables
  import opened Ratings

  // ---------------------------------------------------------------------
  // Star histograms

  /** `total`, `sum` and the five star buckets; `counts[k - 1]` is bucket `k`. */
  datatype RatingStats = RatingStats(total: nat, sum: int, counts: seq<nat>)

  /** The reference histogram of a list of ratings. */
  function Histogram(rs: seq<int>): (st: RatingStats)
    ensures st.total == |rs| && |st.counts| == 5
    ensures forall k :: 1 <= k <= 5 ==> st.counts[k - 1] == Occurrences(rs, k)
    ensures rs == [] ==> st == RatingStats(0, 0, [0, 0, 0, 0, 0])
  {
    RatingStats(|rs|, Sum(rs), [Occurrences(rs, 1), Occurrences(rs, 2), Occurrences(rs, 3), Occurrences(rs, 4), Occurrences(rs, 5)])
  }

  /** With every rating in 1..5 the buckets add up to the total and the
      star-weighted buckets add up to the sum. */
  lemma {:induction false} BucketsAddUp(rs: seq<int>)
    requires AllStars(rs)
    ensures Occurrences(rs, 1) + Occurrences(rs, 2) + Occurrences(rs, 3) + Occurrences(rs, 4) + Occurrences(rs, 5) == |rs|
    ensures 1 * Occurrences(rs, 1) + 2 * Occurrences(rs, 2) + 3 * Occurrences(rs, 3) + 4 * Occurrences(rs, 4) + 5 * Occurrences(rs, 5) == Sum(rs)
  {
    if rs != [] {
      BucketsAddUp(rs[..|rs| - 1]);
    }
  }

  /** The same facts about a computed histogram, and its average in 1..5. */
  lemma HistogramConsistent(rs: seq<int>)
    requires AllStars(rs)
    ensures var st := Histogram(rs);
      && st.counts[0] + st.counts[1] + st.counts[2] + st.counts[3] + st.counts[4] == st.total
      && 1 * st.counts[0] + 2 * st.counts[1] + 3 * st.counts[2] + 4 * st.counts[3] + 5 * st.counts[4] == st.sum
      && (st.total > 0 ==> var m := Average(st.sum, st.total); m.den <= m.num <= 5 * m.den)
  {
    BucketsAddUp(rs);
    AverageOfStars(rs);
  }

  /** The tallying loop: total and sum grow with every rating, and a rating in
      1..5 bumps its bucket. A rating outside 1..5 still counts in total and
      sum but in no bucket. */
  method Tally(ratings: seq<int>) returns (st: RatingStats)
    ensures st == Histogram(ratings)
  {
    var counts := new nat[5](k => 0);
    var total: nat, sum := 0, 0;
    var i := 0;
    while i < |ratings|
      invariant 0 <= i <= |ratings|
      invariant total == i && sum == Sum(ratings[..i])
      invariant forall k :: 1 <= k <= 5 ==> counts[k - 1] == Occurrences(ratings[..i], k)
    {
      assert ratings[..i + 1][..i] == ratings[..i];
      var v := ratings[i];
      total := total + 1;
      sum := sum + v;
      if 1 <= v <= 5 {
        counts[v - 1] := counts[v - 1] + 1;
      }
      i := i + 1;
    }
    assert ratings[..i] == ratings;
    st := RatingStats(total, sum, counts[..]);
  }

  // ---------------------------------------------------------------------
  // Likes

  /** `auth('api')->id()` used as a condition: absent, or id 0, is no viewer. */
  predicate SignedIn(viewer: Option<nat>) {
    viewer.Some? && viewer.value != 0
  }

  /** A `like` favourite of this user, of one kind. */
  predicate LikeRow(f: Favourite, uid: nat, kind: LikeType) {
    f.userId == uid && f.likeType == kind && f.status == "like"
  }

  /** The ids a user has a `like` favourite for, of one kind (`pluck('to_id')`). */
  function Likes(favs: seq<Favourite>, uid: nat, kind: LikeType): (r: seq<nat>)
    ensures forall x :: x in r <==> exists f :: f in favs && LikeRow(f, uid, kind) && f.toId == x
  {
    var rows := Filter(favs, (f: Favourite) => LikeRow(f, uid, kind));
    assert forall f :: f in rows <==> f in favs && LikeRow(f, uid, kind);
    TargetsOf(rows)
  }

  /** `pluck('to_id')`: the targets of some rows, in order. */
  function TargetsOf(rows: seq<Favourite>): (r: seq<nat>)
    ensures forall x :: x in r <==> exists f :: f in rows && f.toId == x
  {
    if rows == [] then []
    else
      assert forall f :: f in rows <==> f == rows[0] || f in rows[1..];
      [rows[0].toId] + TargetsOf(rows[1..])
  }

  /** `is_liked` of a dish or chef page: only a signed-in viewer with a
      `like` favourite for that target sees true. */
  function IsLiked(favs: seq<Favourite>, viewer: Option<nat>, toId: nat, kind: LikeType): (b: bool)
    ensures b <==> (SignedIn(viewer) &&
      exists f :: f in favs && f.userId == viewer.value && f.toId == toId && f.likeType == kind && f.status == "like")
    ensures !SignedIn(viewer) ==> !b
  {
    SignedIn(viewer) && toId in Likes(favs, viewer.value, kind)
  }

  /** A favourite row of this user for this target and kind, whatever its status. */
  predicate LikeOf(f: Favourite, uid: nat, toId: nat, kind: LikeType) {
    f.userId == uid && f.toId == toId && f.likeType == kind
  }

  predicate HasLike(favs: seq<Favourite>, uid: nat, toId: nat, kind: LikeType) {
    exists f :: f in favs && LikeOf(f, uid, toId, kind)
  }

  /** At most one row per (user, target, kind). */
  predicate AtMostOneLike(favs: seq<Favourite>, uid: nat, toId: nat, kind: LikeType) {
    forall i, j :: 0 <= i < j < |favs| && LikeOf(favs[i], uid, toId, kind) ==> !LikeOf(favs[j], uid, toId, kind)
  }

  datatype Toggled = Toggled(favourites: seq<Favourite>, isLiked: bool)

  /** The like toggle: the first existing row is deleted (now not liked), or
      a `like` row is created (now liked). Rows of other keys are untouched. */
  function Toggle(favs: seq<Favourite>, uid: nat, toId: nat, kind: LikeType, id: nat, now: int): (t: Toggled)
    ensures t.isLiked <==> !HasLike(favs, uid, toId, kind)
    ensures t.isLiked ==> t.favourites == favs + [Favourite(id, uid, toId, kind, "like", now)]
    ensures !t.isLiked ==> exists k :: 0 <= k < |favs| && LikeOf(favs[k], uid, toId, kind) && t.favourites == RemoveAt(favs, k)
    ensures forall f :: !LikeOf(f, uid, toId, kind) ==> multiset(t.favourites)[f] == multiset(favs)[f]
  {
    match FirstIndex(favs, (f: Favourite) => LikeOf(f, uid, toId, kind))
    case Some(k) => Toggled(RemoveAt(favs, k), false)
    case None =>
      assert forall f :: f in favs ==> !LikeOf(f, uid, toId, kind) by {
        forall f | f in favs ensures !LikeOf(f, uid, toId, kind) {
          var j :| 0 <= j < |favs| && favs[j] == f;
        }
      }
      Toggled(favs + [Favourite(id, uid, toId, kind, "like", now)], true)
  }

  /** Liking something not yet liked and toggling again restores the table. */
  lemma ToggleTwiceRestores(favs: seq<Favourite>, uid: nat, toId: nat, kind: LikeType, id: nat, now: int, id2: nat, later: int)
    requires !HasLike(favs, uid, toId, kind)
    ensures var once := Toggle(favs, uid, toId, kind, id, now);
      once.isLiked && Toggle(once.favourites, uid, toId, kind, id2, later) == Toggled(favs, false)
  {
    var once := Toggle(favs, uid, toId, kind, id, now);
    var liked := favs + [Favourite(id, uid, toId, kind, "like", now)];
    assert liked[|favs|] in liked;
    var twice := Toggle(liked, uid, toId, kind, id2, later);
    forall j | 0 <= j < |favs|
      ensures !LikeOf(liked[j], uid, toId, kind)
    {
      assert liked[j] == favs[j] && favs[j] in favs;
    }
    var k :| 0 <= k < |liked| && LikeOf(liked[k], uid, toId, kind) && twice.favourites == RemoveAt(liked, k);
    assert k == |favs|;
    assert RemoveAt(liked, k) == favs;
  }

  /** Toggling keeps at most one row per key and flips whether one exists. */
  lemma ToggleFlips(favs: seq<Favourite>, uid: nat, toId: nat, kind: LikeType, id: nat, now: int)
    requires AtMostOneLike(favs, uid, toId, kind)
    ensures var t := Toggle(favs, uid, toId, kind, id, now);
      && AtMostOneLike(t.favourites, uid, toId, kind)
      && (HasLike(t.favourites, uid, toId, kind) <==> !HasLike(favs, uid, toId, kind))
      && t.isLiked == HasLike(t.favourites, uid, toId, kind)
  {
    var t := Toggle(favs, uid, toId, kind, id, now);
    if t.isLiked {
      LikeAdds(favs, uid, toId, kind, Favourite(id, uid, toId, kind, "like", now));
    } else {
      var k :| 0 <= k < |favs| && LikeOf(favs[k], uid, toId, kind) && t.favourites == RemoveAt(favs, k);
      UnlikeClears(favs, uid, toId, kind, k);
    }
  }

  lemma LikeAdds(favs: seq<Favourite>, uid: nat, toId: nat, kind: LikeType, n: Favourite)
    requires !HasLike(favs, uid, toId, kind) && LikeOf(n, uid, toId, kind)
    ensures AtMostOneLike(favs + [n], uid, toId, kind) && HasLike(favs + [n], uid, toId, kind)
  {
    var after := favs + [n];
    assert after[|favs|] in after;
    forall i | 0 <= i < |favs|
      ensures !LikeOf(after[i], uid, toId, kind)
    {
      assert after[i] == favs[i] && favs[i] in favs;
    }
  }

  lemma UnlikeClears(favs: seq<Favourite>, uid: nat, toId: nat, kind: LikeType, k: nat)
    requires AtMostOneLike(favs, uid, toId, kind)
    requires k < |favs| && LikeOf(favs[k], uid, toId, kind)
    ensures !HasLike(RemoveAt(favs, k), uid, toId, kind)
    ensures AtMostOneLike(RemoveAt(favs, k), uid, toId, kind)
  {
    var after := RemoveAt(favs, k);
    forall j | 0 <= j < |after|
      ensures !LikeOf(after[j], uid, toId, kind)
    {
      if j < k {
        assert after[j] == favs[j];
      } else {
        assert after[j] == favs[j + 1];
      }
    }
  }

  /** A chef user with this id (`where id, user_type chef, first()`). */
  function ChefById(users: seq<User>, id: nat): (r: Option<User>)
    ensures r.Some? ==> r.value in users && r.value.id == id && r.value.userType == Chef
    ensures r.None? <==> forall u :: u in users ==> !(u.id == id && u.userType == Chef)
  {
    match FirstIndex(users, (u: User) => u.id == id && u.userType == Chef)
    case None =>
      assert forall u :: u in users ==> !(u.id == id && u.userType == Chef) by {
        forall u | u in users ensures !(u.id == id && u.userType == Chef) {
          var j :| 0 <= j < |users| && users[j] == u;
        }
      }
      None
    case Some(k) => Some(users[k])
  }

  /** The first dish with this id (`Dish::find`). */
  function FindDish(dishes: seq<Dish>, id: nat): (r: Option<Dish>)
    ensures r.Some? ==> r.value in dishes && r.value.id == id
    ensures r.None? <==> forall i :: 0 <= i < |dishes| ==> dishes[i].id != id
  {
    match FirstIndex(dishes, (d: Dish) => d.id == id)
    case None => None
    case Some(k) => Some(dishes[k])
  }

  lemma FavouriteRemoveKeepsIds(t: seq<Favourite>, k: nat, next: nat)
    requires k < |t| && FavouriteIdsOk(t, next)
    ensures FavouriteIdsOk(RemoveAt(t, k), next)
  {
    var r := RemoveAt(t, k);
    forall i, j | 0 <= i < j < |r|
      ensures r[i].id != r[j].id
    {
      var i' := if i < k then i else i + 1;
      var j' := if j < k then j else j + 1;
      assert r[i] == t[i'] && r[j] == t[j'];
    }
  }

  /** `toggleDishLike`: 404 and no change when the dish does not exist. */
  method ToggleDishLike(db: Db, me: User, dishId: nat, now: int) returns (out: Outcome<bool>)
    requires db.Valid()
    modifies db`favourites, db`nextId
    ensures db.Valid()
    ensures FindDish(db.dishes, dishId).None? ==>
      out == Fail(NotFound) && db.favourites == old(db.favourites) && db.nextId == old(db.nextId)
    ensures FindDish(db.dishes, dishId).Some? ==>
      var t := Toggle(old(db.favourites), me.id, dishId, Dishes, old(db.nextId), now);
      out == Ok(t.isLiked) && db.favourites == t.favourites
  {
    if FindDish(db.dishes, dishId).None? {
      return Fail(NotFound);
    }
    out := ToggleIn(db, me.id, dishId, Dishes, now);
  }

  /** `toggleChefLike`: 404 and no change unless the id is a chef's. */
  method ToggleChefLike(db: Db, me: User, chefId: nat, now: int) returns (out: Outcome<bool>)
    requires db.Valid()
    modifies db`favourites, db`nextId
    ensures db.Valid()
    ensures ChefById(db.users, chefId).None? ==>
      out == Fail(NotFound) && db.favourites == old(db.favourites) && db.nextId == old(db.nextId)
    ensures ChefById(db.users, chefId).Some? ==>
      var t := Toggle(old(db.favourites), me.id, chefId, Users, old(db.nextId), now);
      out == Ok(t.isLiked) && db.favourites == t.favourites
  {
    if ChefById(db.users, chefId).None? {
      return Fail(NotFound);
    }
    out := ToggleIn(db, me.id, chefId, Users, now);
  }

  /** Applies `Toggle` to the favourites table. */
  method ToggleIn(db: Db, uid: nat, toId: nat, kind: LikeType, now: int) returns (out: Outcome<bool>)
    requires db.Valid()
    modifies db`favourites, db`nextId
    ensures db.Valid()
    ensures var t := Toggle(old(db.favourites), uid, toId, kind, old(db.nextId), now);
      out == Ok(t.isLiked) && db.favourites == t.favourites
  {
    var t := Toggle(db.favourites, uid, toId, kind, db.nextId, now);
    if t.isLiked {
      FavouriteAppendKeepsIds(db.favourites, Favourite(db.nextId, uid, toId, kind, "like", now), db.nextId);
      db.favourites := t.favourites;
      db.nextId := db.nextId + 1;
    } else {
      var k :| 0 <= k < |db.favourites| && LikeOf(db.favourites[k], uid, toId, kind) && t.favourites == RemoveAt(db.favourites, k);
      FavouriteRemoveKeepsIds(db.favourites, k, db.nextId);
      db.favourites := t.favourites;
    }
    out := Ok(t.isLiked);
  }

  // ---------------------------------------------------------------------
  // Chef page and chef reviews

  datatype DishCard = DishCard(dish: Dish, cuisine: Option<Cuisine>, stats: RatingStats, average: Mean, isLiked: bool)
  datatype ChefPage = ChefPage(chef: User, isLiked: bool, stats: RatingStats, average: Mean, dishes: seq<DishCard>)

  /** The chef's dishes in table order (`where user_id = chef`). */
  function ChefDishes(dishes: seq<Dish>, chefId: nat): (r: seq<Dish>)
    ensures forall d :: d in r <==> d in dishes && d.userId == chefId
    ensures forall d :: multiset(r)[d] == if d.userId == chefId then multiset(dishes)[d] else 0
  {
    Filter(dishes, (d: Dish) => d.userId == chefId)
  }

  function FindCuisine(cuisines: seq<Cuisine>, id: nat): (r: Option<Cuisine>)
    ensures r.Some? ==> r.value in cuisines && r.value.id == id
    ensures r.None? <==> forall i :: 0 <= i < |cuisines| ==> cuisines[i].id != id
  {
    match FirstIndex(cuisines, (c: Cuisine) => c.id == id)
    case None => None
    case Some(k) => Some(cuisines[k])
  }

  /** A dish as `getChefDishes` shows it: its cuisine, the histogram of its
      own reviews, their average and the viewer's like flag. */
  predicate CardFor(c: DishCard, d: Dish, reviews: seq<Review>, favs: seq<Favourite>, cuisines: seq<Cuisine>, viewer: Option<nat>) {
    && c.dish == d
    && c.cuisine == FindCuisine(cuisines, d.cuisineId)
    && c.stats == Histogram(RatingsOf(DishReviews(reviews, d.id)))
    && c.average == Average(c.stats.sum, c.stats.total)
    && c.isLiked == IsLiked(favs, viewer, d.id, Dishes)
  }

  /** One dish card: its reviews tallied, their average, the viewer's like flag. */
  method DishCardOf(d: Dish, reviews: seq<Review>, favs: seq<Favourite>, cuisines: seq<Cuisine>, viewer: Option<nat>)
    returns (card: DishCard)
    ensures CardFor(card, d, reviews, favs, cuisines, viewer)
  {
    var st := Tally(RatingsOf(DishReviews(reviews, d.id)));
    card := DishCard(d, FindCuisine(cuisines, d.cuisineId), st, Average(st.sum, st.total),
                     IsLiked(favs, viewer, d.id, Dishes));
  }

  /** The dish cards of `getChefDishes`, one per dish in table order. */
  method DishCards(own: seq<Dish>, reviews: seq<Review>, favs: seq<Favourite>, cuisines: seq<Cuisine>, viewer: Option<nat>)
    returns (cards: seq<DishCard>)
    ensures |cards| == |own|
    ensures forall j :: 0 <= j < |own| ==> CardFor(cards[j], own[j], reviews, favs, cuisines, viewer)
  {
    cards := [];
    var i := 0;
    while i < |own|
      invariant 0 <= i <= |own| && |cards| == i
      invariant forall j :: 0 <= j < i ==> CardFor(cards[j], own[j], reviews, favs, cuisines, viewer)
    {
      var card := DishCardOf(own[i], reviews, favs, cuisines, viewer);
      cards := cards + [card];
      i := i + 1;
    }
  }

  /** `getChefDishes`: 404 unless the id is a chef's; otherwise the chef's
      like flag and histogram over all the chef's reviews, and each dish
      with the histogram of its own reviews and its like flag. */
  method GetChefDishes(db: Db, viewer: Option<nat>, chefId: nat) returns (out: Outcome<ChefPage>)
    ensures ChefById(db.users, chefId).None? <==> out == Fail(NotFound)
    ensures out.Fail? ==> out.failure == NotFound
    ensures out.Ok? ==>
      var p := out.value;
      && p.chef == ChefById(db.users, chefId).value
      && (p.isLiked <==> IsLiked(db.favourites, viewer, chefId, Users))
      && p.stats == Histogram(RatingsOf(ChefReviews(db.reviews, chefId)))
      && p.average == Average(p.stats.sum, p.stats.total)
      && |p.dishes| == |ChefDishes(db.dishes, chefId)|
      && forall j :: 0 <= j < |p.dishes| ==>
           CardFor(p.dishes[j], ChefDishes(db.dishes, chefId)[j], db.reviews, db.favourites, db.cuisines, viewer)
  {
    var chef := ChefById(db.users, chefId);
    if chef.None? {
      return Fail(NotFound);
    }
    var chefLiked := IsLiked(db.favourites, viewer, chefId, Users);
    var cards := DishCards(ChefDishes(db.dishes, chefId), db.reviews, db.favourites, db.cuisines, viewer);
    var chefStats := Tally(RatingsOf(ChefReviews(db.reviews, chefId)));
    out := Ok(ChefPage(chef.value, chefLiked, chefStats, Average(chefStats.sum, chefStats.total), cards));
  }

  /** The chef's reviews, optionally only those with one rating, newest first. */
  function ChefReviewList(reviews: seq<Review>, chefId: nat, rating: Option<int>): (r: seq<Review>)
    ensures forall x :: x in r <==> x in reviews && x.restId == chefId && (rating.None? || x.rating == rating.value)
    ensures multiset(r) == multiset(Filter(reviews, (x: Review) => x.restId == chefId && (rating.None? || x.rating == rating.value)))
    ensures SortedBy(r, (x: Review) => x.timestamp, false)
  {
    var picked := Filter(reviews, (x: Review) => x.restId == chefId && (rating.None? || x.rating == rating.value));
    var r := SortBy(picked, (x: Review) => x.timestamp, false);
    assert forall x :: x in r <==> x in picked by {
      forall x ensures x in r <==> x in picked {
        assert x in r <==> multiset(r)[x] > 0;
        assert x in picked <==> multiset(picked)[x] > 0;
      }
    }
    r
  }

  datatype ReviewPage = ReviewPage(reviews: seq<Review>, stats: RatingStats, average: Mean)

  /** `getChefReviews`: the rating filter narrows the list only; the
      histogram covers every review of the chef. */
  method GetChefReviews(db: Db, chefId: nat, rating: Option<int>) returns (out: Outcome<ReviewPage>)
    ensures ChefById(db.users, chefId).None? <==> out == Fail(NotFound)
    ensures out.Fail? ==> out.failure == NotFound
    ensures out.Ok? ==>
      && out.value.reviews == ChefReviewList(db.reviews, chefId, rating)
      && out.value.stats == Histogram(RatingsOf(ChefReviews(db.reviews, chefId)))
      && out.value.average == Average(out.value.stats.sum, out.value.stats.total)
  {
    if ChefById(db.users, chefId).None? {
      return Fail(NotFound);
    }
    var st := Tally(RatingsOf(ChefReviews(db.reviews, chefId)));
    out := Ok(ReviewPage(ChefReviewList(db.reviews, chefId, rating), st, Average(st.sum, st.total)));
  }

  // ---------------------------------------------------------------------
  // Chef search

  /** The query string of `getChefs`. */
  datatype ChefsRequest = ChefsRequest(
    filter: Option<string>,
    sortBy: Option<string>,
    currentLat: Option<string>,
    currentLng: Option<string>,
    radius: Option<int>,
    cuisineId: Option<nat>)

  /** One clause of the chef search query, in the order the handler adds them;
      earlier `orderBy` clauses take precedence over later ones. */
  datatype Clause =
    | OnlyChefs                                        // user_type = chef
    | LikedBy(viewer: nat)                             // is_liked subquery for the viewer
    | NotLiked                                         // false as is_liked
    | WithinRadius(lat: string, lng: string, km: int)  // distance column, coordinates present, distance <= km
    | ByCompletedOrders                                // count of completed orders, descending
    | ByAverageRating                                  // join reviews, AVG(IFNULL(rating, 0)) descending
    | OnlyAvailable                                    // rest_status = available
    | ServesCuisine(cuisineId: nat)                    // has a dish of that cuisine
    | ByCheapestDish                                   // MIN(dish price) ascending
    | ByDearestDish                                    // MAX(dish price) descending
    | ByDistance                                       // distance ascending

  predicate Nearby(req: ChefsRequest) {
    req.currentLat.Some? && req.currentLng.Some?
  }

  /** The `filter` values the handler reacts to; any other value is ignored. */
  datatype ChefFilter = Popular | TopRated | OpenNow | AnyChef

  function FilterOf(f: Option<string>): (r: ChefFilter)
    ensures r == Popular <==> f == Some("popular")
    ensures r == TopRated <==> f == Some("top_rated")
    ensures r == OpenNow <==> f == Some("open_now")
  {
    if f == Some("popular") then Popular
    else if f == Some("top_rated") then TopRated
    else if f == Some("open_now") then OpenNow
    else AnyChef
  }

  /** The `sort_by` values the handler reacts to; any other value is ignored. */
  datatype ChefSort = PriceLow | PriceHigh | Rating | Distance | Unsorted

  function SortOf(s: Option<string>): (r: ChefSort)
    ensures r == PriceLow <==> s == Some("price_low")
    ensures r == PriceHigh <==> s == Some("price_high")
    ensures r == Rating <==> s == Some("rating")
    ensures r == Distance <==> s == Some("distance")
  {
    if s == Some("price_low") then PriceLow
    else if s == Some("price_high") then PriceHigh
    else if s == Some("rating") then Rating
    else if s == Some("distance") then Distance
    else Unsorted
  }

  /** The `sort_by` clause; `rating` adds nothing under the `top_rated`
      filter, which already joined the reviews. */
  function SortClauses(sort: ChefSort, filter: ChefFilter, nearby: bool): (q: seq<Clause>)
    ensures |q| <= 1
    ensures ByAverageRating in q <==> sort == Rating && filter != TopRated
    ensures ByDistance in q <==> sort == Distance && nearby
    ensures forall c :: c in q ==> c.ByCheapestDish? || c.ByDearestDish? || c.ByAverageRating? || c.ByDistance?
  {
    match sort
    case PriceLow => [ByCheapestDish]
    case PriceHigh => [ByDearestDish]
    case Rating => if filter == TopRated then [] else [ByAverageRating]
    case Distance => if nearby then [ByDistance] else []
    case Unsorted => []
  }

  /** The like column: a subquery for a signed-in viewer, else constant false. */
  function LikeClause(viewer: Option<nat>): (q: seq<Clause>)
    ensures |q| == 1
    ensures SignedIn(viewer) ==> q[0] == LikedBy(viewer.value)
    ensures !SignedIn(viewer) ==> q[0] == NotLiked
  {
    if SignedIn(viewer) then [LikedBy(viewer.value)] else [NotLiked]
  }

  /** The distance column and radius, only when both coordinates are given. */
  function RadiusClauses(req: ChefsRequest): (q: seq<Clause>)
    ensures Nearby(req) ==> q == [WithinRadius(req.currentLat.value, req.currentLng.value, req.radius.GetOr(10))]
    ensures !Nearby(req) ==> q == []
  {
    if Nearby(req) then [WithinRadius(req.currentLat.value, req.currentLng.value, req.radius.GetOr(10))] else []
  }

  /** The `filter` clause. */
  function FilterClauses(filter: ChefFilter): (q: seq<Clause>)
    ensures |q| <= 1
    ensures ByAverageRating in q <==> filter == TopRated
    ensures OnlyAvailable in q <==> filter == OpenNow
    ensures ByCompletedOrders in q <==> filter == Popular
    ensures forall c :: c in q ==> c.ByCompletedOrders? || c.ByAverageRating? || c.OnlyAvailable?
  {
    match filter
    case Popular => [ByCompletedOrders]
    case TopRated => [ByAverageRating]
    case OpenNow => [OnlyAvailable]
    case AnyChef => []
  }

  function CuisineClauses(cuisineId: Option<nat>): (q: seq<Clause>)
    ensures forall c :: c in q <==> cuisineId.Some? && c == ServesCuisine(cuisineId.value)
  {
    if cuisineId.Some? then [ServesCuisine(cuisineId.value)] else []
  }

  /** The clauses `getChefs` puts into its query, in order. */
  function ChefQuery(viewer: Option<nat>, req: ChefsRequest): (q: seq<Clause>)
    ensures |q| >= 2 && q[0] == OnlyChefs && q[1] == LikeClause(viewer)[0]
  {
    var filter := FilterOf(req.filter);
    [OnlyChefs] + LikeClause(viewer) + RadiusClauses(req) + FilterClauses(filter) + CuisineClauses(req.cuisineId)
      + SortClauses(SortOf(req.sortBy), filter, Nearby(req))
  }

  /** `ChefQuery` as its five parts. */
  lemma ChefQuerySplit(viewer: Option<nat>, req: ChefsRequest)
    ensures ChefQuery(viewer, req) ==
      ([OnlyChefs] + LikeClause(viewer) + RadiusClauses(req))
      + (FilterClauses(FilterOf(req.filter)) + CuisineClauses(req.cuisineId))
      + SortClauses(SortOf(req.sortBy), FilterOf(req.filter), Nearby(req))
  {
  }

  /** The like column follows the viewer: a subquery for a signed-in viewer, constant false otherwise. */
  lemma ChefQueryLikeColumn(viewer: Option<nat>, req: ChefsRequest)
    ensures var q := ChefQuery(viewer, req);
      && (forall v: nat :: LikedBy(v) in q <==> SignedIn(viewer) && v == viewer.value)
      && (NotLiked in q <==> !SignedIn(viewer))
  {
    ChefQuerySplit(viewer, req);
    var q := ChefQuery(viewer, req);
    var mid := FilterClauses(FilterOf(req.filter)) + CuisineClauses(req.cuisineId);
    var sort := SortClauses(SortOf(req.sortBy), FilterOf(req.filter), Nearby(req));
    forall v: nat
      ensures LikedBy(v) in q <==> SignedIn(viewer) && v == viewer.value
    {
      assert LikedBy(v) !in mid && LikedBy(v) !in sort;
    }
    assert NotLiked !in mid && NotLiked !in sort;
  }

  /** The reviews join appears once at most, and exactly when the `top_rated`
      filter or the `rating` sort asks for it. */
  lemma ChefQueryJoinsReviewsOnce(viewer: Option<nat>, req: ChefsRequest)
    ensures var q := ChefQuery(viewer, req);
      && multiset(q)[ByAverageRating] <= 1
      && (ByAverageRating in q <==> req.filter == Some("top_rated") || req.sortBy == Some("rating"))
  {
    ChefQuerySplit(viewer, req);
    var head := [OnlyChefs] + LikeClause(viewer) + RadiusClauses(req);
    var filter := FilterClauses(FilterOf(req.filter));
    var cuisine := CuisineClauses(req.cuisineId);
    var sort := SortClauses(SortOf(req.sortBy), FilterOf(req.filter), Nearby(req));
    assert ByAverageRating !in head && ByAverageRating !in cuisine;
    assert multiset(head)[ByAverageRating] == 0 && multiset(cuisine)[ByAverageRating] == 0;
    if ByAverageRating in sort {
      assert sort == [ByAverageRating];
      assert ByAverageRating !in filter;
    } else {
      assert multiset(sort)[ByAverageRating] == 0;
    }
    if ByAverageRating !in filter {
      assert multiset(filter)[ByAverageRating] == 0;
    }
  }

  /** `open_now` only restricts to available chefs; `popular` only adds the
      order-count ranking; the cuisine clause follows `cuisine_id`. */
  lemma ChefQueryFilters(viewer: Option<nat>, req: ChefsRequest)
    ensures var q := ChefQuery(viewer, req);
      && (OnlyAvailable in q <==> req.filter == Some("open_now"))
      && (ByCompletedOrders in q <==> req.filter == Some("popular"))
      && (forall id: nat :: ServesCuisine(id) in q <==> req.cuisineId == Some(id))
  {
    ChefQuerySplit(viewer, req);
    var q := ChefQuery(viewer, req);
    var head := [OnlyChefs] + LikeClause(viewer) + RadiusClauses(req);
    var filter := FilterClauses(FilterOf(req.filter));
    var sort := SortClauses(SortOf(req.sortBy), FilterOf(req.filter), Nearby(req));
    assert OnlyAvailable !in head && OnlyAvailable !in sort;
    assert ByCompletedOrders !in head && ByCompletedOrders !in sort;
    forall id: nat
      ensures ServesCuisine(id) in q <==> req.cuisineId == Some(id)
    {
      assert ServesCuisine(id) !in head && ServesCuisine(id) !in filter && ServesCuisine(id) !in sort;
    }
  }

  /** Distance: the radius clause (10 km by default) and the distance sort
      need both coordinates. */
  lemma ChefQueryDistance(viewer: Option<nat>, req: ChefsRequest)
    ensures var q := ChefQuery(viewer, req);
      && (ByDistance in q <==> req.sortBy == Some("distance") && Nearby(req))
      && (forall c :: c in q && c.WithinRadius? ==> Nearby(req) && c.km == req.radius.GetOr(10))
      && (Nearby(req) ==> WithinRadius(req.currentLat.value, req.currentLng.value, req.radius.GetOr(10)) in q)
  {
    ChefQuerySplit(viewer, req);
    var like := [OnlyChefs] + LikeClause(viewer);
    var radius := RadiusClauses(req);
    var mid := FilterClauses(FilterOf(req.filter)) + CuisineClauses(req.cuisineId);
    var sort := SortClauses(SortOf(req.sortBy), FilterOf(req.filter), Nearby(req));
    forall c: Clause | c.ByDistance? || c.WithinRadius?
      ensures c in ChefQuery(viewer, req) <==> c in radius || c in sort
    {
      InFourParts(c, like, radius, mid, sort);
      assert c !in like && c !in mid;
    }
  }

  /** Membership in a query made of four parts. */
  lemma InFourParts(c: Clause, a: seq<Clause>, b: seq<Clause>, m: seq<Clause>, s: seq<Clause>)
    ensures c in a + b + m + s <==> c in a || c in b || c in m || c in s
  {
  }
}
