/** The rows of the database tables the controllers read and write, and the
    database itself as one object whose table fields the handlers reassign.
    JSON columns (`cartItems`, `images`, `keywords`, `sizes`, availability)
    are kept as lists of JSON texts; encoding happens at the storage boundary. */
module Tables {
  import opened Http
  import opened Seqs

  type Json = string

  datatype Role = Chef | Customer

  datatype BankDetails = BankDetails(paymentMethod: string, details: Json)

  /** A row of `users`. Nullable columns are `Option`s. */
  datatype User = User(
    id: nat,
    firstName: string,
    lastName: string,
    email: string,
    userType: Role,
    password: Option<string>,       // a hash; absent until set
    socialToken: Option<string>,
    dob: Option<string>,
    phone: Option<string>,
    image: Option<string>,
    address: Option<string>,
    city: Option<string>,
    state: Option<string>,
    country: Option<string>,
    postalCode: Option<string>,
    gender: Option<string>,
    bio: Option<string>,
    notificationEnabled: Option<string>,
    language: Option<string>,
    // chef profile
    about: Option<string>,
    addressName: Option<string>,
    addressDetail: Option<string>,
    note: Option<string>,
    currentLat: Option<string>,
    currentLng: Option<string>,
    availabilityPickup: Option<Json>,
    availabilityDelivery: Option<Json>,
    availabilityDinein: Option<Json>,
    deliveryPrice: Option<string>,
    dineinPrice: Option<string>,
    dineinLimit: Option<string>,
    restStatus: Option<string>,
    bankDetails: Option<BankDetails>,
    timestamp: Option<int>)

  /** A user with only the columns a create call sets; all others null. */
  function NewUser(id: nat, firstName: string, lastName: string, email: string, userType: Role): (u: User)
    ensures u.id == id && u.email == email && u.userType == userType
    ensures u.firstName == firstName && u.lastName == lastName
    ensures u.password == None && u.dob == None && u.restStatus == None
  {
    User(id, firstName, lastName, email, userType, None, None, None, None, None, None,
         None, None, None, None, None, None, None, None, None, None, None, None, None,
         None, None, None, None, None, None, None, None, None, None)
  }

  /** A row of `orders`; money columns are whole units. */
  datatype Order = Order(
    id: nat,
    orderNo: nat,
    orderType: string,
    userId: nat,        // the customer
    toId: nat,          // the chef
    amount: int,
    deliveryFee: int,
    serviceFee: int,
    cartItems: seq<Json>,
    address: string,
    paymentMethod: string,
    lat: string,
    lng: string,
    chefLat: string,
    chefLng: string,
    status: string,
    txnId: string,
    timestamp: int,
    createdAt: int)

  /** A row of `reviews`; `restId` is the reviewed chef. */
  datatype Review = Review(
    id: nat,
    userId: nat,
    orderId: nat,
    restId: nat,
    dishId: Option<nat>,
    rating: int,
    detail: string,
    gallery: Json,
    timestamp: int)

  /** A row of `chat`: one message of an order's conversation. */
  datatype Chat = Chat(
    id: nat,
    userId: nat,        // sender
    toId: nat,          // recipient
    orderId: nat,
    msg: string,
    datetime: int,
    msgType: int,
    seen: bool,
    timestamp: int)

  datatype LikeType = Users | Dishes

  /** A row of `favourites`: `userId` likes the chef or dish `toId`. */
  datatype Favourite = Favourite(
    id: nat,
    userId: nat,
    toId: nat,
    likeType: LikeType,
    status: string,
    datetime: int)

  datatype Otp = Otp(id: nat, userId: nat, code: string, timestamp: int)

  datatype Device = Device(
    id: nat,
    userId: nat,
    riderId: int,
    platform: string,
    rid: string,        // push registration id
    model: string)

  /** A row of `dishes`, owned by the chef `userId`. */
  datatype Dish = Dish(
    id: nat,
    userId: nat,
    category: Option<string>,
    cuisineId: nat,
    name: string,
    about: string,
    keywords: seq<Json>,
    price: int,
    images: seq<Json>,
    deliveryPrice: Option<int>,
    dineinPrice: Option<int>,
    dineinLimit: Option<int>,
    sizes: seq<Json>,
    timestamp: int)

  datatype Cuisine = Cuisine(id: nat, name: string, image: string)

  /** A row of `notifications`: addressed to a customer (`userId`) or a chef (`restId`). */
  datatype Notification = Notification(
    id: nat,
    orderId: Option<nat>,
    title: string,
    body: string,
    userId: Option<nat>,
    restId: Option<nat>,
    kind: string,       // the `type` column: news or order
    status: string,
    seen: bool,
    timestamp: int)

  /** A row of `user_addresses`. */
  datatype Address = Address(
    id: nat,
    userId: nat,
    address: string,
    city: string,
    state: string,
    postal: string,
    country: string,
    addressType: string,
    lat: string,
    lng: string,
    appartment: string,
    note: string,
    timestamp: int,
    updateTimestamp: int)

  /** The first `users` row with this id (`User::find`). */
  function FindUser(users: seq<User>, id: nat): (r: Option<User>)
    ensures r.Some? ==> r.value in users && r.value.id == id
    ensures r.None? <==> forall i :: 0 <= i < |users| ==> users[i].id != id
  {
    match FirstIndex(users, (u: User) => u.id == id)
    case None => None
    case Some(k) => Some(users[k])
  }

  /** The first `orders` row with this id (`Order::find`). */
  function FindOrder(orders: seq<Order>, id: nat): (r: Option<Order>)
    ensures r.Some? ==> r.value in orders && r.value.id == id
    ensures r.None? <==> forall i :: 0 <= i < |orders| ==> orders[i].id != id
  {
    match FirstIndex(orders, (o: Order) => o.id == id)
    case None => None
    case Some(k) => Some(orders[k])
  }

  /** Every `users` row whose id is `v.id` replaced by `v`: what `$user->save()` writes. */
  function SetUser(users: seq<User>, v: User): (r: seq<User>)
    ensures |r| == |users|
    ensures forall i :: 0 <= i < |users| ==> r[i] == if users[i].id == v.id then v else users[i]
  {
    seq(|users|, i requires 0 <= i < |users| => if users[i].id == v.id then v else users[i])
  }

  /** Rewriting a user row keeps the ids of the table. */
  lemma SetUserKeepsIds(users: seq<User>, v: User, next: nat)
    requires UserIdsOk(users, next)
    ensures UserIdsOk(SetUser(users, v), next)
  {
    var r := SetUser(users, v);
    assert forall i :: 0 <= i < |r| ==> r[i].id == users[i].id;
  }

  /** Ids of one table: below the next auto-increment id and unique. The two
      halves are separate so that bumping the counter leaves uniqueness alone. */
  predicate UserIdsOk(t: seq<User>, next: nat) {
    UserIdsBelow(t, next) && UserIdsUnique(t)
  }

  predicate UserIdsBelow(t: seq<User>, next: nat) {
    forall i :: 0 <= i < |t| ==> t[i].id < next
  }

  predicate UserIdsUnique(t: seq<User>) {
    forall i, j :: 0 <= i < j < |t| ==> t[i].id != t[j].id
  }

  predicate OrderIdsOk(t: seq<Order>, next: nat) {
    OrderIdsBelow(t, next) && OrderIdsUnique(t)
  }

  predicate OrderIdsBelow(t: seq<Order>, next: nat) {
    forall i :: 0 <= i < |t| ==> t[i].id < next
  }

  predicate OrderIdsUnique(t: seq<Order>) {
    forall i, j :: 0 <= i < j < |t| ==> t[i].id != t[j].id
  }

  predicate ReviewIdsOk(t: seq<Review>, next: nat) {
    ReviewIdsBelow(t, next) && ReviewIdsUnique(t)
  }

  predicate ReviewIdsBelow(t: seq<Review>, next: nat) {
    forall i :: 0 <= i < |t| ==> t[i].id < next
  }

  predicate ReviewIdsUnique(t: seq<Review>) {
    forall i, j :: 0 <= i < j < |t| ==> t[i].id != t[j].id
  }

  predicate ChatIdsOk(t: seq<Chat>, next: nat) {
    ChatIdsBelow(t, next) && ChatIdsUnique(t)
  }

  predicate ChatIdsBelow(t: seq<Chat>, next: nat) {
    forall i :: 0 <= i < |t| ==> t[i].id < next
  }

  predicate ChatIdsUnique(t: seq<Chat>) {
    forall i, j :: 0 <= i < j < |t| ==> t[i].id != t[j].id
  }

  predicate FavouriteIdsOk(t: seq<Favourite>, next: nat) {
    FavouriteIdsBelow(t, next) && FavouriteIdsUnique(t)
  }

  predicate FavouriteIdsBelow(t: seq<Favourite>, next: nat) {
    forall i :: 0 <= i < |t| ==> t[i].id < next
  }

  predicate FavouriteIdsUnique(t: seq<Favourite>) {
    forall i, j :: 0 <= i < j < |t| ==> t[i].id != t[j].id
  }

  predicate OtpIdsOk(t: seq<Otp>, next: nat) {
    OtpIdsBelow(t, next) && OtpIdsUnique(t)
  }

  predicate OtpIdsBelow(t: seq<Otp>, next: nat) {
    forall i :: 0 <= i < |t| ==> t[i].id < next
  }

  predicate OtpIdsUnique(t: seq<Otp>) {
    forall i, j :: 0 <= i < j < |t| ==> t[i].id != t[j].id
  }

  predicate DeviceIdsOk(t: seq<Device>, next: nat) {
    DeviceIdsBelow(t, next) && DeviceIdsUnique(t)
  }

  predicate DeviceIdsBelow(t: seq<Device>, next: nat) {
    forall i :: 0 <= i < |t| ==> t[i].id < next
  }

  predicate DeviceIdsUnique(t: seq<Device>) {
    forall i, j :: 0 <= i < j < |t| ==> t[i].id != t[j].id
  }

  predicate DishIdsOk(t: seq<Dish>, next: nat) {
    DishIdsBelow(t, next) && DishIdsUnique(t)
  }

  predicate DishIdsBelow(t: seq<Dish>, next: nat) {
    forall i :: 0 <= i < |t| ==> t[i].id < next
  }

  predicate DishIdsUnique(t: seq<Dish>) {
    forall i, j :: 0 <= i < j < |t| ==> t[i].id != t[j].id
  }

  predicate NotificationIdsOk(t: seq<Notification>, next: nat) {
    NotificationIdsBelow(t, next) && NotificationIdsUnique(t)
  }

  predicate NotificationIdsBelow(t: seq<Notification>, next: nat) {
    forall i :: 0 <= i < |t| ==> t[i].id < next
  }

  predicate NotificationIdsUnique(t: seq<Notification>) {
    forall i, j :: 0 <= i < j < |t| ==> t[i].id != t[j].id
  }

  predicate AddressIdsOk(t: seq<Address>, next: nat) {
    AddressIdsBelow(t, next) && AddressIdsUnique(t)
  }

  predicate AddressIdsBelow(t: seq<Address>, next: nat) {
    forall i :: 0 <= i < |t| ==> t[i].id < next
  }

  predicate AddressIdsUnique(t: seq<Address>) {
    forall i, j :: 0 <= i < j < |t| ==> t[i].id != t[j].id
  }

  /** Appending a row that takes the counter's id keeps the table's ids valid. */
  lemma UserAppendKeepsIds(t: seq<User>, x: User, next: nat)
    requires UserIdsOk(t, next) && x.id == next
    ensures UserIdsOk(t + [x], next + 1)
  {
    var r := t + [x];
    assert forall i :: 0 <= i < |t| ==> r[i] == t[i];
  }

  lemma OrderAppendKeepsIds(t: seq<Order>, x: Order, next: nat)
    requires OrderIdsOk(t, next) && x.id == next
    ensures OrderIdsOk(t + [x], next + 1)
  {
    var r := t + [x];
    assert forall i :: 0 <= i < |t| ==> r[i] == t[i];
  }

  lemma ReviewAppendKeepsIds(t: seq<Review>, x: Review, next: nat)
    requires ReviewIdsOk(t, next) && x.id == next
    ensures ReviewIdsOk(t + [x], next + 1)
  {
    var r := t + [x];
    assert forall i :: 0 <= i < |t| ==> r[i] == t[i];
  }

  lemma ChatAppendKeepsIds(t: seq<Chat>, x: Chat, next: nat)
    requires ChatIdsOk(t, next) && x.id == next
    ensures ChatIdsOk(t + [x], next + 1)
  {
    var r := t + [x];
    assert forall i :: 0 <= i < |t| ==> r[i] == t[i];
  }

  lemma FavouriteAppendKeepsIds(t: seq<Favourite>, x: Favourite, next: nat)
    requires FavouriteIdsOk(t, next) && x.id == next
    ensures FavouriteIdsOk(t + [x], next + 1)
  {
    var r := t + [x];
    assert forall i :: 0 <= i < |t| ==> r[i] == t[i];
  }

  lemma OtpAppendKeepsIds(t: seq<Otp>, x: Otp, next: nat)
    requires OtpIdsOk(t, next) && x.id == next
    ensures OtpIdsOk(t + [x], next + 1)
  {
    var r := t + [x];
    assert forall i :: 0 <= i < |t| ==> r[i] == t[i];
  }

  lemma DeviceAppendKeepsIds(t: seq<Device>, x: Device, next: nat)
    requires DeviceIdsOk(t, next) && x.id == next
    ensures DeviceIdsOk(t + [x], next + 1)
  {
    var r := t + [x];
    assert forall i :: 0 <= i < |t| ==> r[i] == t[i];
  }

  lemma DishAppendKeepsIds(t: seq<Dish>, x: Dish, next: nat)
    requires DishIdsOk(t, next) && x.id == next
    ensures DishIdsOk(t + [x], next + 1)
  {
    var r := t + [x];
    assert forall i :: 0 <= i < |t| ==> r[i] == t[i];
  }

  lemma AddressAppendKeepsIds(t: seq<Address>, x: Address, next: nat)
    requires AddressIdsOk(t, next) && x.id == next
    ensures AddressIdsOk(t + [x], next + 1)
  {
    var r := t + [x];
    assert forall i :: 0 <= i < |t| ==> r[i] == t[i];
  }

  /** The whole database: one field per table, and the next auto-increment id. */
  class Db {
    var users: seq<User>
    var orders: seq<Order>
    var reviews: seq<Review>
    var chats: seq<Chat>
    var favourites: seq<Favourite>
    var otps: seq<Otp>
    var devices: seq<Device>
    var dishes: seq<Dish>
    var cuisines: seq<Cuisine>
    var notifications: seq<Notification>
    var addresses: seq<Address>
    var nextId: nat

    /** Every row id is below `nextId` and unique within its table. */
    ghost predicate Valid()
      reads this
    {
      && UserIdsOk(users, nextId)
      && OrderIdsOk(orders, nextId)
      && ReviewIdsOk(reviews, nextId)
      && ChatIdsOk(chats, nextId)
      && FavouriteIdsOk(favourites, nextId)
      && OtpIdsOk(otps, nextId)
      && DeviceIdsOk(devices, nextId)
      && DishIdsOk(dishes, nextId)
      && NotificationIdsOk(notifications, nextId)
      && AddressIdsOk(addresses, nextId)
    }

    constructor ()
      ensures Valid() && nextId == 1
      ensures users == [] && orders == [] && reviews == [] && chats == []
      ensures favourites == [] && otps == [] && devices == [] && dishes == []
      ensures cuisines == [] && notifications == [] && addresses == []
    {
      users, orders, reviews, chats := [], [], [], [];
      favourites, otps, devices, dishes := [], [], [], [];
      cuisines, notifications, addresses := [], [], [];
      nextId := 1;
    }
  }
}
