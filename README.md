# Mealtime API handlers in Dafny

This project models the JSON API controllers of the Mealtime backend, a Laravel
application that connects home chefs with customers. Customers place orders,
chat with the chef of an order and review completed orders. Chefs onboard,
publish dishes, set their availability and receive notifications. Anyone can
browse chefs and dishes, see rating histograms and like chefs or dishes.

The database is one object, `Tables.Db`, with one `seq` field per table
(users, orders, reviews, chats, favourites, OTP codes, devices, dishes,
cuisines, notifications, user addresses) and a shared auto-increment counter
`nextId`. `Db.Valid()` says every table's ids are unique and below `nextId`.
Every handler is a method over `Db`:

- its `modifies` clause names only the tables it may write;
- its result is an `Http.Outcome`: a value, or one of the failures 422, 400, 403, 404 and 500;
- its postcondition ties the result and the new tables to a pure function of the
  request and the old tables.

The properties the controllers promise are proved about those pure functions:

- who may see or change a row;
- which error a request gets, and in which order the checks run;
- what a row looks like when it is created;
- that a second call finds or rejects what the first one made;
- that the rest of the table stays as it was.

The authenticated caller is a `User` value (`me`) taken from the session.
Clock readings, the random order number, password hashes, the result of a
password check and the outcome of a push notification are parameters.
Request bodies are records of `Option` fields: `None` means the field is
absent. A Laravel `required` string, like one `$request->filled()` accepts, must be
present and must not be empty once PHP's `trim` has removed its leading and
trailing blanks (`Http.Filled`).

Modules, one per controller, over three shared modules:

- `Http` (outcomes and status codes);
- `Seqs` (filter, first match, removal, insertion sort);
- `Tables` (rows and the database).

`Ratings` holds the review aggregates shared by several controllers.

## Model

| member | source | states |
|---|---|---|
| Tables.NewUser | app/Http/Controllers/Api/AuthController.php:40-46 | a created user has the given id, first and last name, email and role, no password, no date of birth and no restaurant status |
| Tables.FindUser | app/Http/Controllers/Api/OrderController.php:50 | `User::find`: the user returned has that id; none is returned exactly when no row has it |
| Tables.FindOrder | app/Http/Controllers/Api/ChatController.php:39 | `Order::find`: the order returned has that id; none is returned exactly when no row has it |
| Tables.SetUser | app/Http/Controllers/Api/ChefController.php:52-74 | saving a user row replaces the rows with that id and keeps every other row and the table length |
| Tables.SetUserKeepsIds | app/Http/Controllers/Api/ChefController.php:52-74 | saving a user row keeps the users table's ids unique and below the counter |
| Http.FilledIsTrimmedNonEmpty | app/Http/Controllers/Api/AuthController.php:414 | a field counts as filled exactly when it is present and `trim` leaves something of it, so a field of only blanks is refused like an empty one |
| Ratings.ChefReviews | app/Http/Controllers/Api/HomeController.php:387-390 | a chef's reviews are exactly the reviews whose `rest_id` is the chef, each kept as often as in the table |
| Ratings.DishReviews | app/Http/Controllers/Api/ChefController.php:221-226 | a dish's reviews are exactly the reviews whose `dish_id` is the dish |
| Ratings.DishReviewsCounted | app/Http/Controllers/Api/ChefController.php:221-226 | each review of the dish is kept as often as in the table and no other review appears, so the dish's count and sum cover its reviews once each |
| Ratings.Summarize | app/Http/Controllers/Api/ChefController.php:229-236 | the review count of a group is its size and the sum behind `AVG(rating)` is the sum of its ratings; a group with no reviews gets 0 and 0; star ratings sum to between 1 and 5 times the count |
| Ratings.Average | app/Http/Controllers/Api/HomeController.php:361 | the average is sum/total as an exact fraction, and 0 when total is 0 |
| Ratings.SumBounds | app/Http/Controllers/Api/HomeController.php:393-405 | ratings in 1..5 sum to between their number and five times their number |
| Ratings.AverageOfStars | app/Http/Controllers/Api/HomeController.php:408 | the average of star ratings lies in 1..5, or is 0 when there are none |
| OrderController.PlaceOrder | app/Http/Controllers/Api/OrderController.php:25-81 | 422 unless the validator passes (existing `to_id`, order type dinein/delivery/takeaway, non-negative amounts, non-empty cart, filled texts); 404 unless `to_id` is a chef; otherwise a `pending` order of the caller to that chef with the drawn order number, the request's type, amounts, cart, address, payment method and coordinates, the chef's coordinates ('' when unset), and both stamps equal to now |
| OrderController.CreateOrder | app/Http/Controllers/Api/OrderController.php:23-98 | appends exactly the order `PlaceOrder` makes and nothing on failure; only the orders table and the counter change |
| OrderController.GetOrderDetails | app/Http/Controllers/Api/OrderController.php:162-235 | the order is returned exactly when it exists and the caller is its customer or its chef, else 404; `total_amount` is amount + delivery fee + service fee; `has_review` holds exactly when the customer reviewed it |
| OrderController.ReviewOf | app/Http/Controllers/Api/OrderController.php:184-187 | the review shown is one by the order's customer for that order, and none exactly when there is no such review |
| OrderController.Selection | app/Http/Controllers/Api/OrderController.php:111-115 | the caller's orders, restricted to the given status only when one is given, each kept as often as in the table |
| OrderController.MyOrders | app/Http/Controllers/Api/OrderController.php:111-118 | the same selection as a permutation, sorted by `created_at` ascending exactly when `sort` is `oldest` and descending otherwise |
| OrderController.RateChef | app/Http/Controllers/Api/OrderController.php:139-145 | an order's chef carries the count and the rating sum of the chef's reviews; a chef without reviews gets 0 and 0 |
| OrderController.GetUserOrders | app/Http/Controllers/Api/OrderController.php:106-150 | the corrected listing: the caller's selected, sorted orders, each with its chef's rating summary |
| OrderController.WithChefs | app/Http/Controllers/Api/OrderController.php:139-147 | the transform keeps every order in place and attaches to each the rating summary of its own chef |
| OrderController.GetUserOrdersAsWritten | app/Http/Controllers/Api/OrderController.php:131 | as written, the listing answers 500 whatever the tables hold |
| OrderController.UserOrdersNeverListed | app/Http/Controllers/Api/OrderController.php:131 | as written, the listing always ends in a server error and never returns the corrected listing |
| OrderController.ReviewOrder | app/Http/Controllers/Api/OrderController.php:326-377 | 422 unless the rating is 1..5 and the detail at most 255 characters; 404 unless the caller's own completed order has that id; 400 exactly when the caller already reviewed it; a valid first review of such an order succeeds, with the rating, `rest_id` equal to the order's chef, detail and gallery defaulting to '', and the timestamp now |
| OrderController.AddReview | app/Http/Controllers/Api/OrderController.php:326-384 | appends exactly the review `ReviewOrder` makes, and nothing on failure |
| OrderController.ReviewKeepsOnePerOrder | app/Http/Controllers/Api/OrderController.php:357-366 | whatever `addReview` answers, no two reviews share an (order, customer) pair |
| OrderController.SecondReviewRejected | app/Http/Controllers/Api/OrderController.php:357-366 | once a review is stored, any further valid review of that order by that customer gets 400 |
| OrderController.PlacedOrderVisibleNotReviewable | app/Http/Controllers/Api/OrderController.php:77 | a new order is visible to its customer and its chef, and reviewing it answers 404 while it is pending |
| ChatController.ChatOrder | app/Http/Controllers/Api/ChatController.php:21-54 | 422 when `order_id` is missing or names no order; 403 exactly when the order exists and the caller is neither its customer nor its chef; a participant of an existing order gets that order |
| ChatController.Recipient | app/Http/Controllers/Api/ChatController.php:58 | the recipient is the chef when the customer sends and the other participant otherwise |
| ChatController.NewMessage | app/Http/Controllers/Api/ChatController.php:21-70 | 422 unless the message is filled and at most 255 characters and the type is 0 or 1; then the order's access rule; otherwise an unseen message from the caller to the other participant, with the given type, or 0 by default |
| ChatController.SendMessage | app/Http/Controllers/Api/ChatController.php:19-102 | appends exactly `NewMessage`'s row; neither the answer nor the table depends on whether the push went through |
| ChatController.UnseenCountZero | app/Http/Controllers/Api/ChatController.php:225-228 | the unread count is 0 exactly when no message of the order to the reader is unseen |
| ChatController.MarkSeen | app/Http/Controllers/Api/ChatController.php:154-157 | only `seen` can change; a message ends up seen exactly when it was seen already or it belongs to the order and is addressed to the reader |
| ChatController.MarkSeenClears | app/Http/Controllers/Api/ChatController.php:154-157 | after marking, the reader has no unseen message in that order |
| ChatController.MarkSeenIdempotent | app/Http/Controllers/Api/ChatController.php:303-306 | marking twice is marking once |
| ChatController.MarkSeenKeepsOthers | app/Http/Controllers/Api/ChatController.php:154-157 | messages of other orders, or to the other participant, keep their rows |
| ChatController.MarkSeenKeepsIds | app/Http/Controllers/Api/ChatController.php:154-157 | marking keeps the chat ids unique |
| ChatController.FlagSeen | app/Http/Controllers/Api/ChatController.php:303-306 | the pass over the table leaves exactly `MarkSeen` and counts the flags it flipped |
| ChatController.Thread | app/Http/Controllers/Api/ChatController.php:148-151 | the page is a permutation of the order's messages, oldest first |
| ChatController.GetChat | app/Http/Controllers/Api/ChatController.php:110-182 | 422 for `per_page` outside 1..100, then the order's access rule; the page is read before marking, so it shows the old flags; the table becomes `MarkSeen` |
| ChatController.MarkAsSeen | app/Http/Controllers/Api/ChatController.php:267-313 | after the access rule, answers the number of unseen messages to the caller and marks them |
| ChatController.UnseenCount | app/Http/Controllers/Api/ChatController.php:225-228 | the unread count of an order's messages to the reader is at most the number of messages |
| ChatController.SecondMarkFlipsNothing | app/Http/Controllers/Api/ChatController.php:303-311 | an immediate second `markAsSeen` flips nothing and changes nothing |
| ChatController.CheckNewMessages | app/Http/Controllers/Api/ChatController.php:189-259 | read-only: the unread count, and the unseen message with the greatest timestamp, none exactly when the count is 0 |
| HomeController.Histogram | app/Http/Controllers/Api/HomeController.php:336-352 | total is the number of ratings, five buckets, bucket k counts the ratings equal to k; no ratings give zeros everywhere |
| HomeController.BucketsAddUp | app/Http/Controllers/Api/HomeController.php:393-405 | for ratings in 1..5 the buckets add up to the total and the star-weighted buckets to the sum |
| HomeController.HistogramConsistent | app/Http/Controllers/Api/HomeController.php:393-408 | the same for a computed histogram, and its average lies in 1..5 when there are ratings |
| HomeController.Tally | app/Http/Controllers/Api/HomeController.php:393-405 | the counting loop over a five-slot array yields exactly the reference histogram |
| HomeController.Likes | app/Http/Controllers/Api/HomeController.php:321-326 | the liked ids are exactly the targets of the user's `like` favourites of that kind |
| HomeController.TargetsOf | app/Http/Controllers/Api/HomeController.php:325 | `pluck('to_id')`: the ids listed are exactly the targets of the rows |
| HomeController.IsLiked | app/Http/Controllers/Api/HomeController.php:288-296 | `is_liked` holds exactly for a signed-in viewer with a `like` favourite for the target, never for a guest |
| HomeController.Toggle | app/Http/Controllers/Api/HomeController.php:547-567 | liked afterwards exactly when no favourite of the key existed; a like appends one `like` row; an unlike deletes one row of the key; rows of other keys are kept |
| HomeController.ToggleTwiceRestores | app/Http/Controllers/Api/HomeController.php:547-567 | liking and then toggling again restores the favourites table |
| HomeController.ToggleFlips | app/Http/Controllers/Api/HomeController.php:547-567 | with at most one row per key, a toggle flips whether the key is liked and keeps at most one row |
| HomeController.LikeAdds | app/Http/Controllers/Api/HomeController.php:559-565 | adding the first row for a key leaves exactly one |
| HomeController.UnlikeClears | app/Http/Controllers/Api/HomeController.php:553-556 | deleting the only row of a key leaves none |
| HomeController.ChefById | app/Http/Controllers/Api/HomeController.php:589 | the user found has that id and is a chef; none exactly when no chef has it |
| HomeController.FindDish | app/Http/Controllers/Api/HomeController.php:539 | the dish found has that id; none exactly when no dish has it |
| HomeController.FavouriteRemoveKeepsIds | app/Http/Controllers/Api/HomeController.php:555 | deleting a favourite keeps the ids unique |
| HomeController.ToggleIn | app/Http/Controllers/Api/HomeController.php:547-567 | the favourites table becomes exactly `Toggle`'s, and the answer is its like flag |
| HomeController.ToggleDishLike | app/Http/Controllers/Api/HomeController.php:533-574 | 404 and no change when the dish does not exist; otherwise the `dishes` toggle |
| HomeController.ToggleChefLike | app/Http/Controllers/Api/HomeController.php:583-624 | 404 and no change unless the id is a chef's; otherwise the `users` toggle |
| HomeController.ChefDishes | app/Http/Controllers/Api/HomeController.php:312-314 | exactly the chef's dishes, each kept as often as in the table |
| HomeController.FindCuisine | app/Http/Controllers/Api/HomeController.php:370-374 | the cuisine shown has the dish's cuisine id; none exactly when no cuisine has it |
| HomeController.GetChefDishes | app/Http/Controllers/Api/HomeController.php:271-422 | 404 unless the id is a chef's; the chef's like flag; the histogram and average over all the chef's reviews; each dish with its cuisine, the histogram of its own reviews, its average and its like flag |
| HomeController.DishCardOf | app/Http/Controllers/Api/HomeController.php:357-381 | one dish card: the dish, its cuisine, the histogram and average of its own reviews and the viewer's like flag |
| HomeController.DishCards | app/Http/Controllers/Api/HomeController.php:356-385 | the loop yields one such card per dish, in the dishes' order |
| HomeController.ChefReviewList | app/Http/Controllers/Api/HomeController.php:446-457 | a permutation of the chef's reviews, with the given rating only when one is given, newest first |
| HomeController.GetChefReviews | app/Http/Controllers/Api/HomeController.php:431-524 | 404 unless the id is a chef's; the rating filter narrows the list, while the histogram covers every review of the chef |
| HomeController.FilterOf | app/Http/Controllers/Api/HomeController.php:128-154 | `filter` is recognised exactly for popular, top_rated and open_now |
| HomeController.SortOf | app/Http/Controllers/Api/HomeController.php:168-208 | `sort_by` is recognised exactly for price_low, price_high, rating and distance |
| HomeController.SortClauses | app/Http/Controllers/Api/HomeController.php:168-208 | at most one sort clause; the rating join only when `filter` is not top_rated; the distance sort only with both coordinates |
| HomeController.LikeClause | app/Http/Controllers/Api/HomeController.php:95-106 | a like subquery for a signed-in viewer, constant false otherwise |
| HomeController.RadiusClauses | app/Http/Controllers/Api/HomeController.php:109-125 | the radius clause, 10 km by default, exactly when both coordinates are given |
| HomeController.FilterClauses | app/Http/Controllers/Api/HomeController.php:127-154 | popular orders by completed orders, top_rated joins the reviews, open_now keeps available chefs |
| HomeController.CuisineClauses | app/Http/Controllers/Api/HomeController.php:157-165 | the cuisine clause exactly when a cuisine id is given |
| HomeController.ChefQuery | app/Http/Controllers/Api/HomeController.php:80-209 | the query starts with the chef restriction and then the like column |
| HomeController.ChefQuerySplit | app/Http/Controllers/Api/HomeController.php:80-209 | the query is its parts in the handler's order |
| HomeController.ChefQueryLikeColumn | app/Http/Controllers/Api/HomeController.php:95-106 | the like subquery is for the signed-in viewer and no other user; the constant-false column appears exactly for a guest |
| HomeController.ChefQueryJoinsReviewsOnce | app/Http/Controllers/Api/HomeController.php:136-145 | the reviews join appears at most once, exactly when `filter` is top_rated or `sort_by` is rating |
| HomeController.ChefQueryFilters | app/Http/Controllers/Api/HomeController.php:128-165 | the availability restriction appears exactly for open_now, the completed-orders ordering exactly for popular, and a cuisine restriction exactly for the given cuisine id |
| HomeController.ChefQueryDistance | app/Http/Controllers/Api/HomeController.php:109-207 | the distance sort appears exactly when `sort_by` is distance and both coordinates are given; the radius clause appears with both coordinates, and every radius clause uses the given radius or 10 km |
| ChefController.Onboarded | app/Http/Controllers/Api/ChefController.php:52-74 | the caller becomes an available chef; all ten listed columns take the request values and no other column changes |
| ChefController.OnboardIdempotent | app/Http/Controllers/Api/ChefController.php:52-74 | onboarding twice with the same answers is onboarding once |
| ChefController.Onboard | app/Http/Controllers/Api/ChefController.php:22-81 | 422 unless about, address, coordinates and pickup availability are filled and the texts are within their limits; otherwise the caller's row becomes `Onboarded` |
| ChefController.WithStatus | app/Http/Controllers/Api/ChefController.php:95-118 | 403 for a non-chef, checked first; 422 unless the status is available, busy or unavailable; otherwise only `rest_status` changes, to the request value |
| ChefController.UpdateStatus | app/Http/Controllers/Api/ChefController.php:89-125 | writes `WithStatus`'s row, and nothing on failure |
| ChefController.NewDish | app/Http/Controllers/Api/ChefController.php:139-184 | the corrected insert: 403 for a non-chef, then 422 unless the validator passes; otherwise a dish of the caller with the request's name, about, category, cuisine, prices, limit, keywords and images, and `sizes` defaulting to an empty list |
| ChefController.AddDishDropsCategory | app/Http/Controllers/Api/ChefController.php:170-172 | as written, every accepted dish is stored without its required category |
| ChefController.NewDishAsWritten | app/Http/Controllers/Api/ChefController.php:170-172 | as written, `addDish` accepts and rejects exactly as intended, but the stored dish has no category and differs from the intended one in nothing else |
| ChefController.AddDish | app/Http/Controllers/Api/ChefController.php:133-191 | appends exactly `NewDish`'s row, and nothing on failure |
| ChefController.OwnDishes | app/Http/Controllers/Api/ChefController.php:214-217 | a permutation of the caller's dishes, newest first |
| ChefController.RateDish | app/Http/Controllers/Api/ChefController.php:229-236 | a dish's review count and rating sum are those of its reviews; 0 and 0 when it has none |
| ChefController.GetDishes | app/Http/Controllers/Api/ChefController.php:199-244 | 403 exactly for a non-chef, and a chef always gets the list: the caller's dishes, newest first, each with its rating summary |
| ChefController.RateAll | app/Http/Controllers/Api/ChefController.php:228-237 | the transform keeps every dish in place and attaches its own rating summary |
| ChefController.PatchDish | app/Http/Controllers/Api/ChefController.php:302-344 | each of the eleven fields replaces the stored value when given and keeps it when absent; id, owner and timestamp never change |
| ChefController.PatchDishIdempotent | app/Http/Controllers/Api/ChefController.php:302-344 | the same edit twice is the edit once |
| ChefController.EmptyPatchKeepsDish | app/Http/Controllers/Api/ChefController.php:302-344 | an edit with no fields changes nothing |
| ChefController.AssignDishFields | app/Http/Controllers/Api/ChefController.php:302-344 | the field-by-field assignments yield exactly `PatchDish` |
| ChefController.AssignDescription | app/Http/Controllers/Api/ChefController.php:302-317 | a given name, about, keywords or category replaces the stored one; every other field stays |
| ChefController.AssignListing | app/Http/Controllers/Api/ChefController.php:318-329 | a given cuisine, price or image list replaces the stored one; every other field stays |
| ChefController.AssignService | app/Http/Controllers/Api/ChefController.php:330-344 | a given delivery price, dine-in price, dine-in limit or size list replaces the stored one; every other field stays |
| ChefController.OwnDishIndex | app/Http/Controllers/Api/ChefController.php:267-269 | the row found has that id and belongs to the caller; none exactly when the caller has no such dish |
| ChefController.UpdateDishTarget | app/Http/Controllers/Api/ChefController.php:259-299 | 403 for a non-chef, then 404 unless the caller owns the dish, then 422 exactly when the given fields break the nullable rules or name no cuisine |
| ChefController.UpdateDish | app/Http/Controllers/Api/ChefController.php:253-353 | on success only the caller's dish changes, to `PatchDish` of it; nothing on failure |
| ChefController.DeleteDishTarget | app/Http/Controllers/Api/ChefController.php:367-384 | 403 for a non-chef, then 404 exactly when the caller owns no dish with that id |
| ChefController.DishRemoveKeepsIds | app/Http/Controllers/Api/ChefController.php:387 | deleting a dish keeps the ids unique |
| ChefController.DeletedDishGone | app/Http/Controllers/Api/ChefController.php:387 | after the delete no dish has that id, and every other row stays |
| ChefController.DeleteDish | app/Http/Controllers/Api/ChefController.php:361-393 | removes exactly the caller's dish with that id, or nothing on 403/404 |
| AuthController.RoleOf | app/Http/Controllers/Api/AuthController.php:28 | `user_type` is accepted exactly for chef and customer |
| AuthController.UserByEmail | app/Http/Controllers/Api/AuthController.php:94 | the user found has that email; none exactly when no user has it |
| AuthController.Registered | app/Http/Controllers/Api/AuthController.php:24-46 | 422 exactly unless names and email are filled and within limits, the email is unused and the role is chef or customer; otherwise a user with no password, stamped now |
| AuthController.Register | app/Http/Controllers/Api/AuthController.php:22-71 | appends the user and then one OTP row with code 123456 for it; nothing on failure |
| AuthController.RegisterTwiceRejected | app/Http/Controllers/Api/AuthController.php:27 | registering the same email again is refused with 422 |
| AuthController.RegisterKeepsEmailsUnique | app/Http/Controllers/Api/AuthController.php:27 | registration keeps emails unique |
| AuthController.ResetTarget | app/Http/Controllers/Api/AuthController.php:81-101 | 422 without an email, 404 for an unknown one, otherwise the user with that email |
| AuthController.SendResetCode | app/Http/Controllers/Api/AuthController.php:79-126 | appends exactly one OTP row with code 123456 for that user; nothing on failure |
| AuthController.VerifyOtp | app/Http/Controllers/Api/AuthController.php:134-167 | 422 unless the user exists and a code is given; success exactly when some OTP row of that user has the code, else 400; nothing is written |
| AuthController.RegisteredUserVerifies | app/Http/Controllers/Api/AuthController.php:49-56 | the code issued on registration verifies, whatever codes are issued later |
| AuthController.ResetCodeVerifies | app/Http/Controllers/Api/AuthController.php:104-111 | a reset code for a known email verifies |
| AuthController.WithPassword | app/Http/Controllers/Api/AuthController.php:190-199 | the password becomes the new hash; the date of birth becomes 1989-12-02 exactly when it was empty; nothing else changes |
| AuthController.SetPassword | app/Http/Controllers/Api/AuthController.php:175-210 | 422 unless the user exists and the password has at least six characters; otherwise the user's row becomes `WithPassword`; the OTP table is not read |
| AuthController.SetPasswordTwice | app/Http/Controllers/Api/AuthController.php:190-199 | setting the password twice equals setting it once to the later hash |
| AuthController.FindOrCreate | app/Http/Controllers/Api/AuthController.php:310-339 | 422 unless the fields are valid; an existing user with that email is returned and nothing is written; otherwise one user with the request's names, email, role, social token and an unusable password is appended |
| AuthController.SocialLoginOnce | app/Http/Controllers/Api/AuthController.php:327-339 | a second social login returns the same user and inserts nothing; one call inserts at most one user |
| AuthController.SocialLogin | app/Http/Controllers/Api/AuthController.php:308-350 | the answer and the users table are `FindOrCreate`'s |
| AuthController.Upsert | app/Http/Controllers/Api/AuthController.php:378-391 | afterwards a row for the key has the latest platform and model; an existing key keeps the table length; a new key appends one row |
| AuthController.UpsertLeavesOneRow | app/Http/Controllers/Api/AuthController.php:378-391 | with at most one row per key before, exactly one row has the key afterwards, and every other row is unchanged |
| AuthController.UpsertIdempotent | app/Http/Controllers/Api/AuthController.php:378-391 | registering the same device again changes nothing |
| AuthController.RegisterDevice | app/Http/Controllers/Api/AuthController.php:358-397 | 422 unless the platform is ios or android and the id and model are filled; otherwise the devices table becomes `Upsert`'s |
| AuthController.Over | app/Http/Controllers/Api/AuthController.php:433-435 | a given field replaces the column; an absent one keeps it |
| AuthController.ApplyBasic | app/Http/Controllers/Api/AuthController.php:425-483 | each of the fifteen basic fields, when given, replaces its column; id, role, password and the chef columns stay |
| AuthController.ApplyChef | app/Http/Controllers/Api/AuthController.php:486-545 | each of the thirteen chef fields, when given, replaces its column, and the bank details only when both parts are given; id, role, password and basic columns stay |
| AuthController.ApplyProfile | app/Http/Controllers/Api/AuthController.php:414-546 | 400 exactly when a new password is given and the old one does not match; otherwise the new hash, and every given basic field replaces its column; id, role, social token and creation stamp never change; for a chef every given chef field replaces its column and the bank details change exactly when both parts are given; for anyone else the chef columns stay |
| AuthController.EmptyProfileKeepsUser | app/Http/Controllers/Api/AuthController.php:425-483 | a request with no fields leaves the row as it is |
| AuthController.ProfileIdempotent | app/Http/Controllers/Api/AuthController.php:425-546 | sending the same profile again changes nothing more |
| AuthController.UpdateProfile | app/Http/Controllers/Api/AuthController.php:405-564 | the password check, then the assignments in the handler's order, give exactly `ApplyProfile`'s row; nothing is written on 400 |
| AuthController.AssignNames | app/Http/Controllers/Api/AuthController.php:425-440 | given first name, last name, phone and dob replace their columns; the rest of the row stays |
| AuthController.AssignContact | app/Http/Controllers/Api/AuthController.php:441-456 | given email, image, address and city replace their columns; the rest of the row stays |
| AuthController.AssignRegion | app/Http/Controllers/Api/AuthController.php:457-472 | given state, country, postal code and gender replace their columns; the rest of the row stays |
| AuthController.AssignPreferences | app/Http/Controllers/Api/AuthController.php:473-483 | given bio, notification setting and language replace their columns; the rest of the row stays |
| AuthController.AssignKitchen | app/Http/Controllers/Api/AuthController.php:487-502 | a chef's given about, address name, address detail and note replace their columns; the rest of the row stays |
| AuthController.AssignPosition | app/Http/Controllers/Api/AuthController.php:503-518 | a chef's given coordinates and pickup and delivery availability replace their columns; the rest of the row stays |
| AuthController.AssignDineIn | app/Http/Controllers/Api/AuthController.php:519-534 | a chef's given dine-in availability, delivery price, dine-in price and limit replace their columns; the rest of the row stays |
| AuthController.AssignPayout | app/Http/Controllers/Api/AuthController.php:535-546 | a chef's given status replaces its column, and the bank details change only when both parts are given; the rest of the row stays |
| NotificationController.Listing | app/Http/Controllers/Api/NotificationController.php:25-51 | a permutation of the caller's audience (`rest_id` for a chef, `user_id` otherwise), with the type filter only for news/order and the seen filter only for '0'/'1', newest first |
| NotificationController.UnknownFiltersIgnored | app/Http/Controllers/Api/NotificationController.php:34-41 | a type or seen value outside its list selects the same as no filter |
| NotificationController.UnseenCount | app/Http/Controllers/Api/NotificationController.php:67-74 | the caller's unseen count is at most the number of notifications |
| NotificationController.UnseenCountZero | app/Http/Controllers/Api/NotificationController.php:67-74 | the unseen count is 0 exactly when the caller's audience has no unseen notification |
| NotificationController.MarkAll | app/Http/Controllers/Api/NotificationController.php:54-64 | only `seen` changes; a notification ends up seen exactly when it was seen or is in the caller's audience, whatever the filters |
| NotificationController.MarkAllClears | app/Http/Controllers/Api/NotificationController.php:54-74 | after marking, the caller's unseen count is 0 |
| NotificationController.MarkAllKeepsOthers | app/Http/Controllers/Api/NotificationController.php:54-64 | marking keeps the unseen count of any reader whose audience is disjoint from the caller's |
| NotificationController.GetNotifications | app/Http/Controllers/Api/NotificationController.php:17-81 | the page is read before marking; the table is marked exactly when `mark_as_seen` is '1'; the unseen count is taken afterwards, so it is 0 when marking |
| UserAddressController.MyAddresses | app/Http/Controllers/Api/UserAddressController.php:22-24 | a permutation of the caller's addresses, newest first |
| UserAddressController.NewAddress | app/Http/Controllers/Api/UserAddressController.php:40-78 | 422 exactly unless the required fields are filled and every field is within its limit; otherwise an address owned by the caller with the request's address, city, type, lat and lng, optional texts defaulting to '', both stamps equal to now |
| UserAddressController.Store | app/Http/Controllers/Api/UserAddressController.php:38-85 | appends exactly `NewAddress`'s row; nothing on failure |
| UserAddressController.StoredAddressListed | app/Http/Controllers/Api/UserAddressController.php:22-24 | a stored address is listed for its owner and for nobody else |
| UserAddressController.FillAddress | app/Http/Controllers/Api/UserAddressController.php:131-136 | each of the ten fields replaces the stored value when given and keeps it when absent; `update_timestamp` becomes now; id, owner and `timestamp` never change |
| UserAddressController.FillTwice | app/Http/Controllers/Api/UserAddressController.php:131-136 | the same edit twice equals the edit once at the later time |
| UserAddressController.EmptyFillTouchesOnly | app/Http/Controllers/Api/UserAddressController.php:131-136 | an edit with no fields only refreshes `update_timestamp` |
| UserAddressController.OwnAddressIndex | app/Http/Controllers/Api/UserAddressController.php:119-121 | the row found has that id and belongs to the caller; none exactly when the caller has no such address |
| UserAddressController.UpdateTarget | app/Http/Controllers/Api/UserAddressController.php:96-128 | 422 unless every given field is within its limit, then 404 unless the caller owns the address |
| UserAddressController.Update | app/Http/Controllers/Api/UserAddressController.php:94-144 | only the caller's address changes, to `FillAddress` of it; nothing on failure |
| UserAddressController.AddressRemoveKeepsIds | app/Http/Controllers/Api/UserAddressController.php:167 | deleting an address keeps the ids unique |
| UserAddressController.Destroy | app/Http/Controllers/Api/UserAddressController.php:152-173 | 404 and no change unless the caller owns the address; otherwise exactly that row is removed and no address keeps that id |

## Left out

- Pagination (`paginate`, `per_page`): each listing returns the whole ordered selection. Only `getChat`'s `per_page` range check is kept, because it can answer 422.
- Eager loading: the related user, chef, cuisine and sender fields that the handlers copy into their JSON are left out.
- Rounding of averages to one decimal is floating point, so averages are exact fractions (`Ratings.Mean`).
- Haversine distances in `getChefs` and `getOrderDetails` are floating-point trigonometry. The radius filter and the distance sort appear only as clauses of the query plan.
- HomeController.ChefQuery: the search is modelled as the list of clauses the handler adds to its query. The clauses are not run against the tables.
- HomeController's landing-page `index` is not modelled. Its chef listing follows the same query pattern as `getChefs`.
- ChefController's routes for chef orders, order status, bank details and withdrawals name methods that the controller file does not define, so there is nothing to model for them.
- JSON casts of `keywords`, `images`, `sizes` and `bank_details` are not modelled: the model stores the decoded values.
- Stripe payment intents are a foreign SDK call and are left out.
- Push notifications, Firebase and the mail sender are left out. A push outcome is a parameter that changes nothing.
- JWT login, refresh, logout, `me` and the password `login` are session and token machinery. `Hash::make` and `Hash::check` results are parameters.
- File upload is storage I/O and is left out.
- The validator's format rules are not modelled: `email`, `numeric`, `json`, `integer` and the string type of values. Its presence, `in`, length, `min`, `exists` and `unique` rules are.
- Money columns (order amount, delivery fee, service fee; dish price, delivery price, dine-in price) are integers in whole units. The validator accepts any `numeric` value such as 12.50, and `total_amount` is PHP floating-point addition; fractional amounts and float rounding are not modelled.
- An explicit JSON `null` for a field is not distinguished from an absent field.
- PHP's loose comparison of numeric strings (`"01" == "1"`) in the `seen` and `mark_as_seen` checks is not modelled. Only the exact strings count.
- HomeController.Tally: a rating outside 1..5 is counted in total and sum but in no bucket. In PHP, incrementing the missing bucket key raises an "Undefined array key" warning, which Laravel turns into an exception and a 500 answer. The case cannot arise through the API, because `addReview` accepts only ratings 1..5 (app/Http/Controllers/Api/OrderController.php:329).
- HomeController.GetChefDishes: each dish's histogram comes from its own pass over that dish's reviews. The source makes one pass over all the dishes' reviews keyed by dish id. The results are the same.
- The `User` model is not part of this model. Every column that the handlers write is assumed to be fillable.
- OrderController.GetUserOrders: the contract does not restate that every listed order belongs to the caller. That follows from `MyOrders`, which it equals position by position.
- A database exception caught in `updateProfile` (500) is not modelled.
- Row ids come from one shared counter rather than one auto-increment per table.
- Concurrency between requests is not modelled.

## Findings

| source | as written | input that shows it | evidently intended | confidence | as-written member | corrected member |
|---|---|---|---|---|---|---|
| app/Http/Controllers/Api/OrderController.php:131 | `DB::table` is used, but the file imports no `DB` facade, and inside the `App\Http\Controllers\Api` namespace the name does not resolve | any `GET` of the caller's orders, even with no orders at all | the orders listing with each chef's rating count and average, and 0/0 for a chef without reviews | high, not executed | OrderController.GetUserOrdersAsWritten | OrderController.GetUserOrders |
| app/Http/Controllers/Api/ChefController.php:170-172 | `Dish::create` receives `category`, but the `Dish` model's fillable list (app/Models/Dish.php:12-15) names `cat_id` and not `category`, so the validated, required category is silently dropped | any valid `addDish` request by a chef, e.g. category "Desserts" | the stored dish carries the request's category, as `updateDish` does when it assigns the field directly | medium, not executed | ChefController.NewDishAsWritten | ChefController.NewDish |

## Notes on the code

- `createOrder`'s validator requires `to_id` to exist, so an unknown id answers 422. The 404 is left only for an existing user who is not a chef.
- The chat handlers validate `order_id` with `exists:orders`, so their own "order not found" 404 cannot be reached. A missing order answers 422.
