# umi-kopa marketplace, modelled in Dafny

umi-kopa is a local marketplace. Providers ("oferentes") publish discount offers and activities,
an administrator moderates them, and users join them. Requesters post delivery orders
("mandados"), which couriers ("mandaditos") claim, carry out and get rated for. The backend is an
Express application over MongoDB. The frontend is a React application that keeps its own
shopping cart, listings, favourites and a mock account list in the browser's local storage.

This project models the logic of both halves and proves what each handler, service and form
promises.

- **The database** (`Store.Database`) is a class holding three maps from document id to
  document: users, listings and orders. One counter hands out the ids, so ascending id order is
  insertion order.
  - backend/models/Offer.js registers its schema under the model name `Activity`, and
    backend/models/Activity.js reuses that model. Offers and activities are therefore one
    collection with one schema, and the model keeps them in one map.
  - Queries (`Query`) select in natural order, sort stably on one key and keep the first `k`.
- **Route handlers** that change documents are methods on the database. Their `ensures` give the
  whole new state and the `Result` answered: the HTTP status and message of every refusal.
  Read-only handlers are functions.
  - `AuthMiddleware` holds the `auth` middleware and the role gates.
  - `AuthRoutes` holds registration, login and token verification.
  - `ListingRoutes` holds the two listing routers; `AdminRoutes` the administrator's router.
  - `OrderRoutes` is the delivery-order state machine, including the courier's average rating,
    kept in integer tenths.
  - `CourierRoutes` is the courier registry.
- **The schemas and their save hooks** (`Models`) are predicates and functions.
  - The user's password is a `Credential`: bcrypt is opaque, and `Hashed(c)` is the hash of `c`.
  - Verifying a JSON Web Token is a function parameter.
- **The browser side:**
  - `Cart` is the cart, a sequence of lines with pure operations.
  - `DataService.LocalData` is the local-storage store of listings, participations and
    favourites, and `MockAuth.Storage` is the mock account service. Both are classes whose
    fields are the storage entries.
  - `ApiConfig` is the URL builder.
  - The five forms are `ChangePasswordForm`, `RegisterForm`, `CreateOfferForm`,
    `CreateActivityForm` and `CreateOrderForm`. `FormFields` holds their shared number inputs,
    price formula and local-storage fallback list.
  - The pages are `ListingPages` (src/pages/Offers.js and src/pages/Activities.js, which are
    the same code over different lists) and `FavoritesPage`.
- **`JsText`** models the JavaScript string built-ins the code calls, and **`Sequences`** the
  subsequence relation that states order is kept by the cart's removal and the pages' filters.

Several lemmas relate the halves to each other:

- Registering through the backend's route and then logging in works
  (`AuthRoutes.RegisterThenLogin`), and the register form checks what that route checks
  (`RegisterForm.FormAgreesWithRoute`). The form itself hands its payload to the mock account
  service instead (see "Left out").
- A page's join button agrees with the storage service (`ListingPages.ButtonAgreesWithService`).
- The forms' bodies are judged by the routes they are posted to:
  - every order the form sends is stored, but without its locations: the order schema declares
    each location a nested object, and the document constructor skips the texts the form sends
    there (`CreateOrderForm.ApiAcceptsOrder`, `OrderRoutes.TextLocationIgnored`);
  - every offer the offer form sends is refused, because the listing schema requires a date the
    form never has, so that form always falls back to local storage
    (`CreateOfferForm.ApiRefusesEveryOffer`);
  - the activity form's "workshop" category is not one the schema knows
    (`CreateActivityForm.ApiRefusesWorkshop`).
- The price a form shows differs from the price the pre-save hook stores when the discount is
  fractional, because the hook reads the discount with `parseInt`
  (`FormFields.FractionalDiscountDiffers`).

Where the prose description of the system and the code disagree, the model follows the code:

- The user schema's role enum has no courier role, while the order and courier routes require
  `rol === 'mandadito'`. The role is kept as an open string; the schema enum is checked only
  where Mongoose validates (on save at registration), and `"mandadito"` is the named constant
  `Models.RoleCourier`.
- Offers and activities share one collection, as explained above.
- `buildApiUrl('/x')` equals `buildApiUrl('x')` only when `x` does not itself start with a
  slash, since only one leading slash is removed (`ApiConfig.LeadingSlashOptional`,
  `ApiConfig.OnlyOneSlashRemoved`).

## Model

| member | source | states |
|---|---|---|
| ApiConfig.ApiBase | src/config/api.js:2 | an unset or empty `REACT_APP_API_URL` gives the default base, any other value is the base |
| ApiConfig.CleanEndpoint | src/config/api.js:9 | exactly one leading slash is removed; an endpoint without one is unchanged |
| ApiConfig.BuildApiUrl | src/config/api.js:8-11 | the address always starts with the base followed by one slash |
| ApiConfig.LeadingSlashOptional | src/config/api.js:9-10 | `/x` and `x` give the same address, the base, a slash and `x`, whenever `x` does not itself start with a slash; otherwise `/x` is inserted minus one slash |
| ApiConfig.OnlyOneSlashRemoved | src/config/api.js:9 | `//orders` keeps one slash and so names a different address from `/orders` |
| AuthMiddleware.ExtractToken | backend/middleware/auth.js:6-10 | no header gives no token, and a token that is produced is never empty |
| AuthMiddleware.ExtractBearer | backend/middleware/auth.js:6 | `Bearer ` followed by a token gives that token back; a bare `Bearer ` is no token |
| AuthMiddleware.ExtractTokenCases | backend/middleware/auth.js:6 | a header without `Bearer ` is the token itself; otherwise only its first occurrence is cut out, wherever it is |
| AuthMiddleware.Authenticate | backend/middleware/auth.js:4-36 | passes exactly when a token is present, verifies to a user id and that user exists, and then yields that id; every failure is a 401 except the 500 for an unexpected error |
| AuthMiddleware.AuthenticateFailures | backend/middleware/auth.js:8-34 | the failure taxonomy: no token gives 401 `Token requerido`, a malformed token or a deleted user gives 401 `Token inválido.`, an expired token gives 401 `Token expirado.`, anything else gives 500 |
| AuthMiddleware.RequireAdmin | backend/middleware/auth.js:39-45 | passes if and only if the role is `administrador`, else 403 |
| AuthMiddleware.RequireOferente | backend/middleware/auth.js:47-53 | passes if and only if the role is `oferente` or `administrador`, else 403 |
| AuthMiddleware.RequireOferenteOrAdmin | backend/middleware/auth.js:55-61 | passes if and only if the role is `oferente` or `administrador`, else 403 |
| AuthMiddleware.GatesAgree | backend/middleware/auth.js:39-61 | both provider gates admit the same users with different messages; whoever passes the administrator gate passes both |
| AuthMiddleware.Guard | backend/middleware/auth.js:4-61 | `auth` followed by a gate passes exactly when both do, and an authentication failure is answered unchanged |
| Models.NewUser | backend/models/User.js:27-55 | a new user is unverified, has no participations, created listings or favourites, holds the password in plain text until saved, and is stamped as created and updated now |
| Models.PasswordRoundTrip | backend/models/User.js:58-68 | a password compares equal after the hashing save and after a later save that does not modify it; hashing twice would make it fail |
| Models.PreSaveListing | backend/models/Offer.js:83-89 | the hook changes only `precioDescuento`; it recomputes it when the discount or the original price changed and leaves it as it was otherwise |
| Models.DiscountedPriceBounds | backend/models/Offer.js:85-86 | a discount that parses into 0..100 on a non-negative price gives a price between 0 and the original; an unparseable discount leaves the price unchanged |
| Models.ScaledPriceBounds | backend/models/Offer.js:86 | a percentage in 0..100 taken off a non-negative price lands between 0 and the price |
| Models.DiscountedPriceOfPercent | backend/models/Offer.js:85-86 | a stored discount such as `25%` is read as its leading digits, so the price is the original minus that percentage |
| Models.ValidateOrder | backend/models/Order.js:4-59 | no message exactly when the order satisfies the schema: required name and phone, description 1..500 characters, price at least 1000, state and category in their enums, rating within 1..5 |
| JsText.TrimStartShape | src/components/CreateOfferForm.js:58-59 | `trimStart` removes exactly a leading run of white space (ECMAScript's WhiteSpace and LineTerminator characters, the Unicode space separators included): what is left is a suffix that is empty or starts on a non-white character |
| JsText.TrimEndShape | src/components/CreateOfferForm.js:58-59 | `trimEnd` removes exactly a trailing run of white space: what is left is a prefix that is empty or ends on a non-white character |
| JsText.BlankIffTrimmedEmpty | src/components/CreateOfferForm.js:58-59 | `!s.trim()` holds exactly when every character of `s` is white space |
| JsText.TrimSlice | backend/models/Order.js:20 | trimming keeps one contiguous slice of the text and never lengthens it |
| JsText.TrimEndsNonWhite | backend/models/Order.js:20 | a trimmed text is empty or starts and ends on non-white characters |
| JsText.TrimIdempotent | backend/models/User.js:8 | trimming an already trimmed value changes nothing |
| JsText.ToLower | src/pages/Offers.js:53-54 | lowercasing keeps the length and maps each character through the ASCII case map |
| JsText.ToLowerIdempotent | src/pages/Offers.js:53-54 | lower-casing twice is lower-casing once |
| JsText.IncludesIffOccurs | src/pages/Offers.js:53-54 | `includes` holds exactly when the pattern occurs at some position |
| JsText.ReplaceFirstAt | backend/middleware/auth.js:6 | `replace` with a string pattern cuts out exactly the first occurrence |
| JsText.ReplaceFirstAbsent | backend/middleware/auth.js:6 | `replace` leaves a string without the pattern unchanged |
| JsText.NatTextValue | backend/models/Offer.js:85 | the digits of a natural number read back as that number |
| JsText.NatText | src/components/CreateOfferForm.js:170 | the decimal text of a time stamp is non-empty and made of digits only |
| JsText.ParseIntNatText | backend/models/Offer.js:85 | `parseInt` of a number's decimal text followed by any non-digit suffix is that number, and so is `parseInt(...) \|\| 0`, except that "0" followed by `x` or `X` starts a hexadecimal number |
| JsText.ParseIntHexDigits | backend/models/Offer.js:85 | without a radix, a text starting with "0x" or "0X" is read as the hexadecimal digits that follow, and as `NaN` when none follows |
| JsText.ParseIntDecimal | backend/models/Offer.js:85 | a text starting with decimal digits, and not with "0x" or "0X", is read as the value of those digits |
| Query.Scan | backend/routes/orders.js:41 | `find(filter)` yields exactly the stored documents that pass the filter, in ascending id (insertion) order |
| Query.Insert | backend/routes/orders.js:43 | inserting one document into a list adds exactly that document |
| Query.InsertSorted | backend/routes/orders.js:43 | inserting into a sorted list keeps it sorted |
| Query.InsertDistinct | backend/routes/orders.js:43 | inserting a document whose id is new keeps the ids distinct |
| Query.SortOn | backend/routes/orders.js:43 | `.sort(key)` returns a sorted permutation of its input |
| Query.SortOnDistinct | backend/routes/orders.js:43 | sorting never duplicates a document |
| Query.Take | backend/routes/orders.js:44 | `.limit(k)` keeps the first `min(k, length)` documents |
| Query.TakeSorted | backend/routes/orders.js:43-44 | a limited sorted list stays sorted and distinct, and every document it drops sorts no earlier than any it keeps |
| Query.FindSorted | backend/routes/orders.js:41-43 | `find(filter).sort(key)` holds exactly the matching documents, each once, sorted on the key |
| Store.Database.constructor | backend/models/User.js:13 | an empty database satisfies every schema, uniqueness and capacity invariant |
| Store.Database.FreshId | backend/routes/orders.js:24-25 | a new document id is held by no collection and changes nothing else |
| Store.Database.InsertUser | backend/routes/auth.js:65-66 | saving a user whose email is new adds exactly that user under a fresh id and keeps emails unique |
| OrderRoutes.PlaceOf | backend/models/Order.js:38-47 | a location path is set exactly when an object is sent, to that object; nothing or a text leaves it unset |
| OrderRoutes.TextLocationIgnored | backend/routes/orders.js:16-24 | sending the locations as texts builds the same order as sending no locations |
| OrderRoutes.OrderDocument | backend/routes/orders.js:16-25 | the stored order belongs to the caller, is pending, copies the caller's name and phone (`No registrado` when the phone is empty), trims the description, keeps the notes and the date sent (an empty date is no date), keeps the locations sent as objects, and satisfies the schema; every failure is a 500 |
| OrderRoutes.CreateOverridesBody | backend/routes/orders.js:16-22 | the body's `usuario`, `nombreUsuario`, `telefono` and `estado` make no difference to the order built |
| OrderRoutes.CreateKeepsSpreadCourier | backend/routes/orders.js:17 | the spread keeps any `mandadito` and `calificacion` the body names |
| OrderRoutes.CreateDescriptionRule | backend/routes/orders.js:24-25 | a blank description, a trimmed description over 500 characters or a price under 1000 is refused |
| OrderRoutes.Create | backend/routes/orders.js:9-36 | 404 and no change when the caller's record is missing; the schema's 500 and no change; otherwise the order is stored under a fresh id and nothing else changes |
| OrderRoutes.PublicOrders | backend/routes/orders.js:39-51 | at most 50 pending stored orders, newest first, without repeats; all pending orders when fewer than 50 are shown, and none left out is newer than one shown |
| OrderRoutes.MyOrders | backend/routes/orders.js:54-65 | exactly the caller's orders, newest first, each once |
| OrderRoutes.MyDeliveries | backend/routes/orders.js:68-79 | exactly the orders assigned to the caller, newest first, each once |
| OrderRoutes.Accept | backend/routes/orders.js:82-114 | a missing caller record throws (500), a non-courier gets 403, an unknown order 404, a non-pending order 400, each with nothing changed; it succeeds exactly for a courier and a pending order, which becomes assigned to the caller with nothing else changed |
| OrderRoutes.AcceptTwice | backend/routes/orders.js:95-100 | first come, first served: after one courier claims an order, a second claim is refused with 400 and the first courier keeps it |
| OrderRoutes.UpdateStatus | backend/routes/orders.js:117-142 | 404 for an unknown order, 403 unless the caller is the requester or the assigned courier; any state of the enum is then written whatever the current state (a missing one reads back as pending), and only the state changes |
| OrderRoutes.CourierRatings | backend/routes/orders.js:168-171 | exactly the stored orders of that courier that carry a rating |
| OrderRoutes.RoundedMean | backend/routes/orders.js:173-176 | the result is the integer nearest to the mean, halves rounded up, as `Math.round` does |
| OrderRoutes.RoundedMeanBounds | backend/routes/orders.js:173-176 | the rounded mean of ratings within 1..5 stays within 1..5, and the mean of one rating is that rating |
| OrderRoutes.SumRatingsBounds | backend/routes/orders.js:173 | the sum of `k` ratings within the bounds lies between `k` times each bound |
| OrderRoutes.CourierAverage | backend/routes/orders.js:168-176 | there is an average exactly when the courier has a rated order, and it lies within 1..5 |
| OrderRoutes.Rate | backend/routes/orders.js:145-188 | 404, 403 and 400 refusals, in that order, change nothing; otherwise the rating and comment are saved, and the courier's stored average is recomputed over all of the courier's rated orders, this one included, so a rated order always has an average |
| OrderRoutes.StoreCourierAverage | backend/routes/orders.js:167-177 | the average over the saved orders is written on the courier's record when there is one to write, and nothing else changes |
| AuthRoutes.ProfileOf | backend/routes/auth.js:80-87 | the response projection carries the id, name, email, role, company and verified flag, and no password |
| AuthRoutes.FindByEmail | backend/routes/auth.js:33 | finds a user whose stored email is the normalised query, and finds none exactly when no user has that address |
| AuthRoutes.FindByEmailUnique | backend/routes/auth.js:122 | with unique emails the lookup finds the one user holding the address |
| AuthRoutes.RegistrationOrder | backend/routes/auth.js:20-48 | missing fields are refused before anything is looked up, a short password next, a taken email before the provider fields; every refusal is a 400 |
| AuthRoutes.RegistrationContents | backend/routes/auth.js:50-66 | a registration stores the normalised, unused email, the role defaulted to `usuario` and within the schema's enum, the plain password to be hashed, and a provider's phone, company and address, all empty for other roles |
| AuthRoutes.LoginOutcomes | backend/routes/auth.js:115-159 | missing fields give their own 400; an unknown email and a wrong password give the identical 400; login succeeds exactly for the user holding the address whose stored hash matches, and answers with that user's profile |
| AuthRoutes.LoginAfterInsert | backend/routes/auth.js:122-137 | a user just stored under a new address logs in with the password the hash was made from |
| AuthRoutes.RegisterThenLogin | backend/routes/auth.js:65-66 | whoever registers can log in straight away with the same email and password and gets the session registration answered with |
| AuthRoutes.Register | backend/routes/auth.js:13-106 | a refusal changes nothing; a success stores, under a fresh id, the registration document with its password hashed, and nothing else changes |
| AuthRoutes.VerifyRoute | backend/routes/auth.js:171-207 | every failure is a 401 (`Token requerido` without a token); it accepts exactly the tokens `auth` accepts and answers with that user's profile |
| ListingRoutes.AddJoined | backend/routes/offers.js:138-142 | `$addToSet` adds the listing to the router's participation set and changes no other set |
| ListingRoutes.AddCreated | backend/routes/offers.js:65-67 | `$addToSet` adds the listing to the router's created set and changes no other set |
| ListingRoutes.PublicList | backend/routes/offers.js:8-18 | exactly the approved, active listings, each once, newest first for offers and by date for activities |
| ListingRoutes.PublicListsAgree | backend/routes/activities.js:10-12 | both routers list the same documents and only the order differs |
| ListingRoutes.Pending | backend/routes/offers.js:21-35 | succeeds if and only if the caller is an administrator; a provider passes the gate and still gets 403; the result is exactly the pending listings, newest first, each once |
| ListingRoutes.Mine | backend/routes/offers.js:38-47 | providers and administrators get exactly the listings they created, each once, in the router's order; anyone else gets 403 |
| ListingRoutes.ListingDocument | backend/routes/offers.js:52-62 | a created listing is pending, active, has no participants, belongs to the caller, carries the caller's company or else name, has the price the save hook derives, and satisfies the schema; any failure is the router's 400 |
| ListingRoutes.CreateOverridesBody | backend/routes/offers.js:52-59 | whatever the body says about state, activity, participants, creator or company makes no difference |
| ListingRoutes.Create | backend/routes/offers.js:50-76 | the provider gate's 403 and the 400 change nothing; otherwise the listing is stored under a fresh id and the id joins the creator's created set, and nothing else changes |
| ListingRoutes.Approve | backend/routes/offers.js:79-110 | 403 for non-administrators, 400 for a state other than approved or rejected, 404 for an unknown id, each with nothing changed; every other request succeeds: the state is written whatever it was, the rejection reason is kept only on rejection, and approval activates the listing |
| ListingRoutes.JoinRefusalIff | backend/routes/offers.js:115-131 | a join goes through exactly when the listing exists, is approved and active, has room, and the user exists and has not joined it through this router; every refusal is a 400 |
| ListingRoutes.JoinKeepsCapacity | backend/routes/offers.js:121-134 | one more participant in a listing with room keeps it within capacity |
| ListingRoutes.Participate | backend/routes/offers.js:113-148 | a refusal changes nothing; a success adds exactly one participant to that listing and the id to the caller's set for this router, and nothing else changes |
| ListingRoutes.JoinThroughBothRouters | backend/routes/activities.js:129 | the two routers keep separate participation sets over one collection, so a user can join the same listing once through each and it counts twice |
| AdminRoutes.AdminGate | backend/routes/admin.js:10-11 | every admin route passes exactly for a valid token of an existing administrator; an authenticated non-administrator gets 403 |
| AdminRoutes.JsRound | backend/routes/admin.js:50 | `Math.round` gives the integer within half a unit of its argument, halves rounded up |
| AdminRoutes.ApprovedListings | backend/routes/admin.js:35 | exactly the approved listings |
| AdminRoutes.RecentUsers | backend/routes/admin.js:28-30 | exactly the users created at the given time or later |
| AdminRoutes.PendingIds | backend/routes/admin.js:32-34 | exactly the listings in the pending state |
| AdminRoutes.DashboardStats | backend/routes/admin.js:14-60 | the user count, new users the number of users created in the last thirty days (at most all users), offer and activity counts both the whole listing collection, pending counts both the number of pending listings, and revenue the rounded sum of discounted price times participants over approved listings |
| AdminRoutes.SumOfIncomeNonNegative | backend/routes/admin.js:39-41 | a sum of non-negative incomes is not negative |
| AdminRoutes.RevenueNonNegative | backend/routes/admin.js:39-50 | revenue is not negative while approved listings have non-negative prices, and is 0 when nothing is approved |
| AdminRoutes.ViewOf | backend/routes/admin.js:68 | a listed user keeps its id, email, role, favourites and creation and update times, and has no password field |
| AdminRoutes.ViewHidesOnlyPassword | backend/routes/admin.js:68 | two users have the same view exactly when they differ at most in their passwords: the view shows every other field |
| AdminRoutes.ViewsOf | backend/routes/admin.js:63-77 | one view per user, in the same order, each the view of its user |
| AdminRoutes.UsersList | backend/routes/admin.js:63-77 | every user appears, once, as its password-free view, and nothing else; the list is newest first |
| AdminRoutes.ViewsOfUsers | backend/routes/admin.js:67-68 | the views of a list holding exactly the stored users are exactly the users' views |
| AdminRoutes.ViewsOfOrder | backend/routes/admin.js:69 | the views of a list sorted newest first without repeated ids are newest first and distinct |
| AdminRoutes.DistinctCoversKeys | backend/routes/admin.js:67 | a list holding every stored document once, and nothing else, is as long as the collection |
| AdminRoutes.AllListings | backend/routes/admin.js:80-112 | every listing, each once, newest first, for an administrator; the activities handler's second role check refuses everyone else |
| AdminRoutes.PendingListings | backend/routes/admin.js:160-183 | exactly the pending listings, each once, newest first |
| AdminRoutes.PendingListsAgree | backend/routes/admin.js:160-170 | the administrator's pending list holds the same documents the listing routers' `/pending` shows an administrator |
| AdminRoutes.Moderated | backend/routes/admin.js:196-201 | `approve` approves, `reject` rejects with the given reason, any other action changes nothing; `activa`, price and participants are never touched |
| AdminRoutes.Approve | backend/routes/admin.js:186-235 | 404 for an unknown id with nothing changed; otherwise exactly that listing is replaced by its moderated form |
| AdminRoutes.DeleteUser | backend/routes/admin.js:238-257 | deleting one's own account is a 400 and deletes nothing; an unknown id is a 404; otherwise exactly that user is removed, and their listings and orders stay |
| AdminRoutes.DeleteListing | backend/routes/admin.js:260-291 | 404 for an unknown id; otherwise exactly that listing is removed, whichever of the two routes is used |
| AdminRoutes.Patched | backend/routes/admin.js:297-305 | the email, the password and the creation time never change, any role or list of favourites sent is written unchecked, and the update time becomes now |
| AdminRoutes.PatchIdempotent | backend/routes/admin.js:303-307 | sending the same update twice stores what sending it once does |
| AdminRoutes.EmptyPatchKeepsUser | backend/routes/admin.js:300-305 | a patch that sends nothing but an email or a password leaves the user as it was but for the update time, which becomes now |
| AdminRoutes.PatchIgnoresCredentials | backend/routes/admin.js:300-301 | the email and password sent make no difference to what is stored |
| AdminRoutes.UpdateUser | backend/routes/admin.js:294-318 | 404 for an unknown id; otherwise only that user changes, to its patched form, and the answer is its view without the password |
| CourierRoutes.Validate | backend/routes/mandaditos.js:17-42 | 404 for an unknown user, 403 for a user who is not a courier; it succeeds exactly for a courier and answers with the id, name and role only |
| CourierRoutes.Disponibles | backend/routes/mandaditos.js:45-64 | exactly the users with role `mandadito` and `disponible` true are listed, each once, with their selected fields; a failed query is answered with the empty list |
| CourierRoutes.WithLocation | backend/routes/mandaditos.js:75-85 | the same users afterwards, with the caller's new position |
| CourierRoutes.WithAvailability | backend/routes/mandaditos.js:109-116 | the same users afterwards, with the caller's new availability |
| CourierRoutes.LocationKeepsAvailability | backend/routes/mandaditos.js:75-85 | moving changes who is listed as available for no one, and only the mover's card can differ |
| CourierRoutes.AvailabilityToggles | backend/routes/mandaditos.js:109-116 | after `/estado` the caller is listed exactly when they set availability on and are a courier, and every other user is listed exactly as before |
| CourierRoutes.Perfil | backend/routes/mandaditos.js:133-148 | 404 exactly when the caller's record is gone; otherwise the fixed projection of that record, without the password |
| CourierRoutes.UpdateLocation | backend/routes/mandaditos.js:67-99 | 404 with nothing changed for a missing caller; otherwise only the caller's position changes, stamped with the request time, and it is the answer |
| CourierRoutes.UpdateAvailability | backend/routes/mandaditos.js:102-130 | 404 with nothing changed for a missing caller; otherwise only the caller's availability and timestamp change, and the stored value is the answer |
| Cart.Bump | src/context/CartContext.js:22-28 | the same lines in the same order, with one more unit on each line under the key and every other line untouched |
| Cart.AddCounts | src/context/CartContext.js:16-32 | adding raises the item count by one and the added key's quantity by one, every other key keeps its quantity, and a new key gets a line of quantity 1 at the end |
| Cart.AddKeepsUnique | src/context/CartContext.js:16-32 | after adding, the key is in the cart and there is still at most one line per id and type |
| Cart.RemoveFromCart | src/context/CartContext.js:34-38 | removal never lengthens the cart and keeps the surviving lines in their order (a subsequence of the cart) |
| Cart.RemoveKeepsOthers | src/context/CartContext.js:34-38 | a line survives removal exactly when it was there and is not under the removed key; no line under that key is left (the order is kept, by `Cart.RemoveFromCart`) |
| Cart.RemoveTotal | src/context/CartContext.js:34-38 | removal takes exactly the key's quantity off the item count |
| Cart.RemoveAbsent | src/context/CartContext.js:34-38 | removing a key the cart does not hold leaves the cart as it was |
| Cart.RemoveKeepsUnique | src/context/CartContext.js:34-38 | removal keeps at most one line per key |
| Cart.AddThenRemove | src/context/CartContext.js:16-38 | removing a key just added to a cart without it gives the cart back |
| Cart.SetQuantity | src/context/CartContext.js:46-52 | the same lines in the same order, the key's lines with the new quantity and the others untouched |
| Cart.UpdateQuantityCounts | src/context/CartContext.js:40-53 | a quantity of zero or less removes the key; a positive one becomes the key's quantity when the key is there and leaves every other key's quantity alone |
| Cart.UpdateKeepsUnique | src/context/CartContext.js:40-53 | updating keeps at most one line per key |
| Cart.ClearCart | src/context/CartContext.js:55-57 | an emptied cart counts no items and costs nothing |
| Cart.TotalPriceBounds | src/context/CartContext.js:59-69 | with discounts between 0 and 100 and positive quantities, the total price lies between 0 and 100 per unit counted |
| DataService.DefaultOffersWellFormed | src/services/dataService.js:8-42 | the three default offers have ids 1, 2 and 3, no participants, and room |
| DataService.DefaultActivitiesWellFormed | src/services/dataService.js:54-91 | the three default activities have ids 1, 2 and 3, no participants, and room |
| DataService.FindIndex | src/services/dataService.js:101 | the index of the first item with the id, or none exactly when no item has it |
| DataService.AfterJoin | src/services/dataService.js:103-105 | the same items, with one more participant on the first item with the id and no other change |
| DataService.JoinKeepsLookup | src/services/dataService.js:99-105 | after a join every id is found at the same index as before |
| DataService.JoinKeepsCapacity | src/services/dataService.js:103-104 | a join never takes an item past its maximum of participants |
| DataService.WithoutFavorite | src/services/dataService.js:162 | a favourite survives exactly when it was there and is not the removed item of that type; nothing is added |
| DataService.WithoutKeepsNoDuplicates | src/services/dataService.js:160-165 | removal keeps a favourites list free of duplicates |
| DataService.LocalData.constructor | src/services/dataService.js:1-2 | empty storage: no offers, activities, participations or favourites |
| DataService.LocalData.GetOffers | src/services/dataService.js:4-47 | an empty offer list is replaced by the defaults, which are stored and returned; a non-empty one is returned as is; nothing else changes |
| DataService.LocalData.GetActivities | src/services/dataService.js:50-96 | the same seeding for activities |
| DataService.LocalData.ParticipateInOffer | src/services/dataService.js:99-115 | after the seeding, true exactly when the first offer with the id has room; then that offer gains a participant and the id is appended to the user's list; a refusal changes nothing more; capacity is never exceeded |
| DataService.LocalData.ParticipateInActivity | src/services/dataService.js:118-134 | the same for activities |
| DataService.LocalData.ParticipateTwice | src/services/dataService.js:99-115 | joining one offer twice with room for both succeeds twice, records the id twice for the user and adds two participants |
| DataService.LocalData.AddToFavorites | src/services/dataService.js:148-158 | true exactly when the item of that type was not a favourite; then it is appended with the given time, otherwise nothing changes; afterwards it is a favourite and the lists stay free of duplicates |
| DataService.LocalData.RemoveFromFavorites | src/services/dataService.js:160-165 | always true; the user's list becomes the filtered one, the item is no longer a favourite and duplicates do not appear |
| MockAuth.FindAccount | src/services/auth.js:15 | the index of the first account with exactly this email and password, or none exactly when no account has both |
| MockAuth.Storage.constructor | src/services/auth.js:1-7 | no accounts and no session |
| MockAuth.Storage.Login | src/services/auth.js:10-26 | resolves exactly when some account has this email and password, with the email and the name of the first such account, which become the session; otherwise rejects with "Credenciales incorrectas" and leaves the session; the accounts never change |
| MockAuth.Storage.Register | src/services/auth.js:29-51 | a registered email is refused with "Este email ya está registrado" and nothing changes; otherwise the account is appended and its owner signed in; emails stay unique |
| MockAuth.Storage.Logout | src/services/auth.js:54-56 | no session afterwards, and the accounts are kept |
| MockAuth.RegisterThenLogin | src/services/auth.js:29-51 | after registering under a free email, the login lookup with the same email and password finds the new account |
| ChangePasswordForm.SubmitCheck | src/components/ChangePasswordForm.js:21-53 | the change goes ahead exactly when all three fields are filled, the new password has at least 6 characters, matches its confirmation and differs from the current one; otherwise one of the four notifications |
| ChangePasswordForm.CheckOrder | src/components/ChangePasswordForm.js:27-45 | each notification is given only when the checks before it pass: missing fields first, then length, then mismatch, then "must be different" |
| ChangePasswordForm.ButtonAgreesWithHandler | src/components/ChangePasswordForm.js:185-194 | an enabled submit button leads to the change or to the "must be different" notification only, and every form the handler accepts has the button enabled when nothing is in flight |
| ChangePasswordForm.PasswordStrength | src/components/ChangePasswordForm.js:73-86 | no mark for an empty password, "Muy débil" exactly for 1 to 5 characters, otherwise one point per character class present with the matching text, never more than 4 |
| ChangePasswordForm.StrengthExtremes | src/components/ChangePasswordForm.js:73-86 | all four classes give "Muy fuerte", digits only give "Débil", and a long password of spaces gets the same blank mark as an empty field |
| RegisterForm.InitialForm | src/components/RegisterForm.js:7-16 | the form starts with the role "usuario" and both password fields empty |
| RegisterForm.Submit | src/components/RegisterForm.js:36-79 | the payload is sent exactly when the passwords match, have at least 6 characters and a provider has filled phone, company and address; a mismatch is reported first, then the length; the payload carries the form's fields, and the provider fields only for a provider |
| RegisterForm.BuildUserData | src/components/RegisterForm.js:66-79 | the common fields copied from the form and the phone, company and address present exactly for a provider; the same payload `Submit` sends |
| RegisterForm.BackendBody | backend/routes/auth.js:15-19 | the payload's fields as the register route reads them, an absent field being empty |
| RegisterForm.FormAgreesWithRoute | src/components/RegisterForm.js:36-82 | a submission the browser and the handler let through is refused by the register route only for a taken email or a schema refusal, and otherwise stores a non-administrator with the form's role |
| RegisterForm.Destination | src/components/RegisterForm.js:98-103 | "/admin" exactly for an administrator, "/dashboard" for everyone else |
| RegisterForm.FormNeverReachesAdmin | src/components/RegisterForm.js:98-103 | a registration made through the form always lands on the dashboard |
| CreateOfferForm.ErrorsMeaning | src/components/CreateOfferForm.js:55-78 | the error dictionary holds exactly the broken fields, each with its message, so it is empty exactly when the form is valid |
| CreateOfferForm.Check | src/components/CreateOfferForm.js:58-65 | one check: the field's message is recorded exactly when the field is broken |
| CreateOfferForm.ValidateForm | src/components/CreateOfferForm.js:55-78 | the dictionary built check by check, the date-order message replacing the missing-end one; the form is valid exactly when it stays empty |
| CreateOfferForm.ValidIff | src/components/CreateOfferForm.js:58-74 | valid exactly when title and description are not blank, a category is chosen, the price is present and not negative, the discount within 0..100, the capacity at least 1, and the end date after the start date |
| CreateOfferForm.OfferDataFor | src/components/CreateOfferForm.js:104-113 | the form's fields with the computed price, the session's name as company and email as creator, pending, no participants and active; for a valid form the price lies between 0 and the original price |
| CreateOfferForm.HandleSubmit | src/components/CreateOfferForm.js:86-176 | an invalid form shows its (non-empty) errors and stores nothing; without a session it goes to the login page; otherwise it ends on "/offers", and when the API refuses the offer it is appended to the local list |
| CreateOfferForm.BodyOf | src/components/CreateOfferForm.js:137-144 | the JSON body carries the title and category and no date, hour or place |
| CreateOfferForm.ApiRefusesEveryOffer | src/components/CreateOfferForm.js:131-163 | the offers route refuses every offer this form sends, because the schema demands a date the form never has, so the local fallback is always taken |
| CreateActivityForm.ErrorsMeaning | src/components/CreateActivityForm.js:51-65 | the error dictionary holds exactly the broken fields, each with its message, so it is empty exactly when the form is valid |
| CreateActivityForm.Check | src/components/CreateActivityForm.js:54-61 | one check: the field's message is recorded exactly when the field is broken |
| CreateActivityForm.ValidateForm | src/components/CreateActivityForm.js:51-65 | the dictionary built check by check; the form is valid exactly when it stays empty |
| CreateActivityForm.ActivityDataFor | src/components/CreateActivityForm.js:91-100 | the form's fields with the computed price, the session's name as company and email as creator, pending, no participants and active; for a valid form the price lies between 0 and the original price |
| CreateActivityForm.HandleSubmit | src/components/CreateActivityForm.js:73-170 | an invalid form shows its (non-empty) errors and stores nothing; without a session it goes to the login page; otherwise it ends on "/activities", and when the API refuses the activity it is appended to the local list |
| CreateActivityForm.BodyOf | src/components/CreateActivityForm.js:126-133 | the JSON body carries the form's date, the discount as typed and the computed price |
| CreateActivityForm.ApiAcceptsActivity | src/components/CreateActivityForm.js:120-152 | a valid activity with a known category, hour, duration and whole discount and capacity is stored by the activities route, which stores the same discounted price the form computed |
| CreateActivityForm.ApiRefusesWorkshop | src/components/CreateActivityForm.js:26-32 | the "workshop" category the form offers is refused by the activities route, so such an activity only reaches local storage |
| CreateOrderForm.InitialForm | src/components/CreateOrderForm.js:6-14 | the form starts with the category "otros", an empty price and an empty description |
| CreateOrderForm.Submit | src/components/CreateOrderForm.js:38-74 | the order is posted exactly for a signed-in user, a description that is not blank and a price of at least 1000, the refusals coming in that order; the body is the form with the stored user's phone and the price cut to a whole number that is still at least 1000 |
| CreateOrderForm.BodyOf | src/components/CreateOrderForm.js:69-73 | the body carries every form field (the description, the category, the notes, the date text and the two location texts), the whole price and the stored phone, and no courier, rating or comment |
| CreateOrderForm.ApiAcceptsOrder | src/components/CreateOrderForm.js:38-84 | every order the form posts is stored by the orders route, pending, with the description trimmed, the price and category the form sent, the notes and the date as typed, and no locations |
| FormFields.FloatOrZero | src/components/CreateOfferForm.js:81-82 | a filled input reads as its number and an empty one as 0 |
| FormFields.Truncate | src/components/CreateOrderForm.js:72 | the whole number toward zero: at most the value and within one of it for a non-negative value, at least it for a negative one |
| FormFields.FieldChecks | src/components/CreateOfferForm.js:61-63 | the price passes exactly when present and not negative, the discount exactly when present and within 0..100, the capacity exactly when present and at least 1 |
| FormFields.DiscountedPrice | src/components/CreateOfferForm.js:80-84 | an empty price gives 0 and an empty discount leaves the price whole |
| FormFields.DiscountedPriceBounds | src/components/CreateOfferForm.js:80-84 | for a price and discount the forms accept, the discounted price lies between 0 and the original price |
| FormFields.StoredPriceOfWhole | backend/models/Offer.js:83-89 | the pre-save hook reads a whole discount's decimal text back as that number |
| FormFields.AgreesWithStoredPrice | backend/models/Offer.js:83-89 | for a whole discount the price the form computes equals the one the listing's pre-save hook stores |
| FormFields.FractionalDiscountDiffers | backend/models/Offer.js:83-89 | for a 12.5 % discount on 100 the form computes 87.5 while the hook, reading the text with `parseInt`, stores 88 |
| FormFields.LocalList.constructor | src/components/CreateOfferForm.js:167 | an absent list is empty |
| FormFields.LocalList.Append | src/components/CreateOfferForm.js:165-176 | the stored list gains exactly the new record, stamped with the time as text and as number, at its end, and the write reports success |
| Sequences.SubsequenceReflexive | src/pages/Offers.js:48-63 | a list is a subsequence of itself (the page shows everything when no filter removes anything) |
| Sequences.SubsequenceTransitive | src/pages/Offers.js:48-63 | a subsequence of a subsequence is a subsequence, so chained filters keep the stored order |
| ListingPages.Filter | src/pages/Offers.js:49 | exactly the items the condition accepts, in their order, never more than were there |
| ListingPages.FilterTwice | src/pages/Offers.js:49-60 | filtering by one condition and then another equals filtering once by both |
| ListingPages.FilterSame | src/pages/Offers.js:49 | filters by conditions that accept the same items give the same list |
| ListingPages.FilterListings | src/pages/Offers.js:48-63 | the page's list is a subsequence of the stored items |
| ListingPages.FilterListingsMeaning | src/pages/Offers.js:48-63 | the page lists exactly the active items that match the search term, ignoring case, in title or description when a term is given, and have the chosen category when one is chosen; with neither, every active item |
| ListingPages.JoinButtonFor | src/pages/Offers.js:170-189 | the sign-in button exactly when nobody is signed in, the enabled join button exactly for a signed-in user not yet in the listing with room left, the "full" button exactly when there is no room |
| ListingPages.ButtonAgreesWithService | src/pages/Offers.js:78-100 | for the first stored item with its id, an enabled join button means the storage service's join succeeds and a "full" button means it fails |
| FavoritesPage.Resolve | src/pages/Favorites.js:32-38 | an offer or activity favourite resolves to the first item of that list with its id, tagged with the kind; nothing exactly when no item has the id or the kind is neither |
| FavoritesPage.FavoriteItems | src/pages/Favorites.js:28-42 | at most one item per favourite, every item tagged offer or activity and resolved from some favourite |
| FavoritesPage.FavoriteItemsAppend | src/pages/Favorites.js:28-42 | the items for two lists of favourites joined are the items for each, joined: the page follows the favourites' order |
| FavoritesPage.OneFavorite | src/pages/Favorites.js:31-39 | a single favourite gives its resolved item, or nothing |
| FavoritesPage.GetFavoriteItems | src/pages/Favorites.js:28-42 | the loop over the favourites pushes exactly the list `FavoriteItems` describes |

## Left out

- Express and Mongoose plumbing: HTTP parsing, the server set-up, the security and debug middleware, the favourites stub router and the admin-creation script have no logic to state.
- JSON Web Token signing and verification and bcrypt hashing are library calls: verification is a parameter `string -> Verdict`, a hash is the opaque `Hashed(...)`, and bcrypt's 72-byte input limit is not modelled.
- `/verify` calls `jwt.verify` with the configured secret alone, while the middleware falls back to a development secret; the model gives both the same verifier parameter, so a deployment without a configured secret is not modelled.
- Ids are natural numbers handed out by one counter: malformed ObjectId texts and malformed JSON bodies are not modelled. Mongoose throws a cast error for such an id; the listing routers' approve and participate handlers answer it with 400 (backend/routes/offers.js:107-108, 145-146), the other handlers with 500.
- Concurrency: each handler is one sequential step, so the race between the capacity check and the increment in the participate handlers, and between accept and save for orders, is not modelled.
- Mongoose's strict mode would drop the courier fields (availability, position, vehicle, rating, service count), which are not in the user schema; the model stores them as the courier and order routes intend.
- OrderRoutes.Rate: a rating request without `calificacion`, for a courier with no other rated order, averages over no ratings and so writes `NaN`. The model answers that with 500 (`OrderRoutes.NotANumber`), which is what the intended schema would do. Under the schema as written, strict mode strips the update and the handler answers 200 with the order saved (backend/routes/orders.js:167-177).
- AdminRoutes.Patched: the courier fields of the patch (`disponible`, `ubicacion`, `vehiculo`, `calificacion`, `totalServicios`, `ultimaActualizacion`) are written, as the courier routes intend; under the schema as written, strict mode strips them from the admin update (backend/routes/admin.js:303-307).
- Models.User: the `updatedAt` stamp is set at registration and refreshed by the admin update (`AdminRoutes.UpdateUser`). The participation, creation, rating and courier updates of a user refresh it too in the source, but leave it as it was in the model. The listings' and orders' `updatedAt` stamps are not modelled.
- OrderRoutes.UpdateStatus: a body without `estado` unsets the state, and the model then reads the order back with the schema's default, the pending state (`OrderRoutes.StatusWritten`). The answer sent right after the save lacks the field in the source but shows the default in the model.
- Mongoose's generated validation messages are not reproduced: a failed constraint without a message of the schema's own is reported by its path name (`Models.ValidateOrder`), and registration's schema failure is the one message `AuthRoutes.ValidationFailed`.
- Ratings and the courier's average are integer tenths of a point (a rating of 4 is 40); a rating with more than one decimal is not modelled.
- Prices are `real`; floating-point rounding is not modelled, apart from `Math.round`, which is written out for the revenue sum and the ratings.
- Number inputs are either empty or the decimal text of a number; texts with exponents and other inputs that `Number` and `parseFloat` read differently are not modelled, and a capacity is sent as the whole number the listing schema keeps.
- Dates are whole numbers (timestamps or day numbers); time zones and date formatting are not modelled. Courier positions are opaque numbers.
- Strings are sequences of characters: JavaScript's UTF-16 code units, and so the length of text outside the basic plane, are not distinguished, and `toLowerCase` is modelled on ASCII letters only.
- The listing's image, emoji and the display-only fields of pages and forms (labels, progress percentages, `toFixed` and locale formatting, notifications, loading flags, alerts) are not modelled.
- The mock account service's one-second delay and the change-password form's simulated wait are not modelled; promises settle at once.
- backend/routes/mandaditos.js is not mounted by the server; its handlers are modelled all the same.
- The second `/offers` and `/stats` handlers in backend/routes/admin.js never run, because earlier handlers answer those paths first; they are not modelled. backend/models/Activity.js's own schema never takes effect, for the same reason the listings share one collection.
- RegisterForm passes one object to the three-parameter `authService.register` of the mock service; the model follows the intent its comments state, namely that the payload reaches the backend's register route (`RegisterForm.FormAgreesWithRoute`), and does not model the mock service receiving the object as the name.
- CreateOfferForm.HandleSubmit: the fallback list is a store of the form's own (`FormFields.LocalList`), while the source appends to the very local-storage entry `ofertasApp_offers` that `DataService.LocalData.GetOffers` reads (src/components/CreateOfferForm.js:167-175, src/services/dataService.js:5). Two effects are therefore not captured: after a fallback write the data service no longer seeds its default offers, and the offers page is handed records without `title`, `maxParticipants` or `participants`. Capturing them would need one stored-record type covering both shapes.
- CreateActivityForm.HandleSubmit: likewise for `ofertasApp_activities` and `DataService.LocalData.GetActivities` (src/components/CreateActivityForm.js:156-164, src/services/dataService.js:43-51).
- OrderRoutes.OrderDocument: the deadline is kept as the text the browser's date-time input writes; JavaScript's date parsing is not modelled.
- The forms' API calls are the parameter `apiAccepted`; a local-storage write that throws (storage full) is not modelled, so the fallback always succeeds.
- DataService keys the per-user entries by the user id as text (the pages pass the email); the storage key spelling `ofertasApp_user_<id>_...` is not modelled.
- The courier presence channel (sockets, maps, geolocation) and the remaining pages and components (home, login, profile, admin panel, cart page, headers, toasts, search box, favourite button, orders list) are display or I/O and are not modelled.
- ListingPages.FilterListings: its own contract states only that the page lists a subsequence of the stored items; what the page shows is stated by `ListingPages.FilterListingsMeaning`.
- DataService: `getUserParticipations`, `getUserFavorites` and `isItemFavorite` are plain reads (`LocalData.UserParticipations`, `UserFavorites`, `IsItemFavorite`) and carry no contract of their own; the add and remove methods state their effect through them.
- Cart: `getTotalItems` and `getTotalPrice` are the functions `Cart.TotalItems` and `Cart.TotalPrice`, stated through `Cart.AddCounts`, `Cart.RemoveTotal` and `Cart.TotalPriceBounds`.
