# E-commerce API core, modelled in Dafny

This project models the back end of a small Django REST Framework shop. The shop stores five tables: users, products, reviews, orders and order items. The model covers:

- which caller may reach which endpoint;
- which rows each viewset's queryset contains;
- what each endpoint does to the stored tables;
- how accounts are created, updated and logged in.

Everything runs over one in-memory store, `Tables.Store`. The store is a class holding the five tables as maps from ids to records, plus a next-id counter per table. Its invariant `Valid()` states:

- every id is below its table's counter;
- no two users share an email;
- every foreign key names a stored row;
- every review and order item meets its column constraints.

Every method keeps `Valid()`. Every method states its new table contents through `State()`, a snapshot of the five tables. A refused request leaves the store `unchanged`.

Modules, in dependency order:

- `Wrappers`: `Option` and `Result`.
- `Records`: the five record types; `Value`/`Row`, a request payload or rendered row; `Caller`; and the HTTP `Status`. Prices are integer cents.
- `Email`: `BaseUserManager.normalize_email` (Django). Surrounding whitespace is stripped, the address is split at its last `@`, and the domain is lower-cased in ASCII. An address without `@` is returned unchanged.
- `Accounts`: the field logic of `create_user` and `create_superuser`, and the User field defaults. The password hasher is a parameter `hash: string -> Digest` that the model never looks inside.
- `ReviewSchema`, `ItemSchema`: the columns of migrations 0004 and 0006, and their `on_delete` rules as functions from a table to the table after a delete. A price of `DecimalField(max_digits=7, decimal_places=2)` fits exactly when its absolute value in cents is below 10^7.
- `Payloads`: reading one payload field the way the DRF field derived from its model column reads it. The field's type is checked; a text field is trimmed of surrounding whitespace, then its blank and length rules are checked on what remains, and that is what is stored.
- `ProductSerializers`: the field lists of the four product-app serializers, as projections. Also the writable field set and updating a product or review from a payload.
- `Orders`: what the order and order-item endpoints accept, and the processing step of an order.
- `Policy`: permission classes, the actions each viewset's mixins provide, and each `get_queryset`. A request is authenticated and permission-checked before it is dispatched, so the status order is:
  1. 401 for a guest, or 403 for a signed-in non-staff caller of an admin viewset;
  2. 405 for an action the viewset lacks;
  3. 404 for a row outside the queryset;
  4. 400 for an invalid payload.
- `Tables`: the store, with the ORM saves and deletes and `create_user`/`create_superuser`.
- `Views`: one method per endpoint action of `api/product/views.py`.
- `UserSerializers`: sign-up, profile update and login data of `api/user/serializers.py`.

Inputs the code takes from its environment are parameters:

- the caller, which stands in for what the token authenticates;
- the current time `now`, which stands in for `timezone.now()` and `auto_now_add`;
- the password hasher.

## Model

| member | source | states |
|---|---|---|
| `Email.LowerChar` | api/core/models.py:20 | ASCII lower-casing: maps each upper-case letter to the letter 32 code points above it, is the identity on every other character, and so never yields an upper-case letter |
| `Email.Lower` | api/core/models.py:20 | keeps the length and lower-cases each character in place |
| `Email.Strip` | api/core/models.py:20 | the result has no surrounding whitespace, holds only characters of the input, and an already stripped address is returned as is |
| `Email.StripRemovesOuterSpace` | api/core/models.py:20 | the stripped text is the slice of the input between its leading and its trailing whitespace runs, and everything outside that slice is whitespace |
| `Email.LastAt` | api/core/models.py:20 | finds the last `@`: none exactly when the address has no `@`, otherwise an `@` with no `@` after it |
| `Email.LastAtOfSplit` | api/core/models.py:20 | in `local@domain` with no `@` in the domain, the split point is right after the local part, whatever the local part holds |
| `Email.NormalizeSplit` | api/core/tests/test_models.py:52-65 | a stripped `local@domain` normalises to the local part verbatim and the domain lower-cased |
| `Email.NormalizeWithoutAt` | api/core/models.py:20 | an address without `@` is left exactly as given, whitespace included |
| `Email.LeadingSpacesOfAddress` | api/core/models.py:20 | the leading whitespace of `local@domain` is that of its local part, since `@` is not whitespace |
| `Email.TrailingSpacesOfAddress` | api/core/models.py:20 | the trailing whitespace of `local@domain` is that of its domain |
| `Email.StripAddress` | api/core/models.py:20 | stripping `local@domain` strips the front of the local part and the end of the domain, and nothing else |
| `Email.StripKeepsAt` | api/core/models.py:20 | an address with `@` still has one after stripping |
| `Email.NormalizeStripsFirst` | api/core/models.py:20 | an address with `@` normalises exactly as its stripped form does |
| `Email.NormalizeAddress` | api/core/models.py:20 | any `local@domain` normalises to its local part without leading whitespace, `@`, and its domain without trailing whitespace, lower-cased |
| `Email.NormalizeIgnoresDomainCase` | api/core/tests/test_models.py:52-65 | two addresses differing only in the case of the domain normalise to the same address, with or without surrounding whitespace |
| `Email.NormalizedIsUnchanged` | api/core/tests/test_models.py:56-65 | an address without surrounding whitespace whose domain is already lower-case is stored unchanged |
| `Email.LowerKeepsShape` | api/core/models.py:20 | lower-casing neither adds nor removes an `@`, and lower-casing twice is lower-casing once |
| `Email.LowerDomainKeepsStripped` | api/core/models.py:20 | lower-casing the domain of an address without surrounding whitespace adds none |
| `Email.NormalizeIdempotent` | api/core/models.py:20 | normalising a normalised address changes nothing |
| `Email.NormalizeSplitAddress` | api/core/models.py:20 | an address written out whole normalises as NormalizeSplit says of its parts |
| `Email.NormalizeSampleUpperDomain` | api/core/tests/test_models.py:55 | `Email1@EXAMPLE.com` is stored as `Email1@example.com` |
| `Email.NormalizeSampleUpperLocal` | api/core/tests/test_models.py:56 | `EMAIL2@example.com` is stored unchanged |
| `Email.NormalizeSampleMixedDomain` | api/core/tests/test_models.py:57 | `email3@Example.Com` is stored as `email3@example.com` |
| `Email.NormalizeSampleCapitalDomain` | api/core/tests/test_models.py:58 | `Email4@EXAMPLE.COM` is stored as `Email4@example.com` |
| `Email.NormalizeKeepsNonEmpty` | api/core/models.py:16-20 | a non-empty address never normalises to the empty string |
| `Accounts.Blank` | api/core/models.py:51-53 | a new user is active, not staff, not superuser, with no name |
| `Accounts.SetPassword` | api/core/models.py:23 | only the credential changes; no password gives an unusable credential, a password gives its hash |
| `Accounts.NewUser` | api/core/models.py:13-26 | fails exactly on an empty email; otherwise the email is normalised, the flags take their defaults, the original password checks, and with no password no password checks |
| `Accounts.Promote` | api/core/models.py:35-36 | sets is_staff and is_superuser and keeps email, name, credential and is_active |
| `Accounts.NewUserIgnoresDomainCase` | api/core/tests/test_models.py:52-65 | the user built does not depend on the case of the domain typed, with or without surrounding whitespace |
| `Accounts.SuperuserIsPromotedUser` | api/core/tests/test_models.py:40-50 | a superuser differs from the user create_user builds only in the two flags |
| `ReviewSchema.Insert` | api/core/migrations/0004_review.py:18-24 | saving a review succeeds exactly when it has an author (user_id is NOT NULL), keeping every field; otherwise a not-null violation on user_id |
| `ReviewSchema.AfterProductDelete` | api/core/migrations/0004_review.py:23 | SET_NULL: every review survives, none refers to the deleted product, only the product field changes, and reviews of other products are untouched |
| `ReviewSchema.AfterUserDelete` | api/core/migrations/0004_review.py:24 | CASCADE: exactly the reviews by other users remain, unchanged |
| `ReviewSchema.AfterProductDeleteKeepsWellFormed` | api/core/migrations/0004_review.py:19 | the 200-character name bound still holds after a product delete |
| `ItemSchema.DigitsBound` | api/core/migrations/0006_orderitem.py:19 | a number has at most k decimal digits exactly when it is below 10^k |
| `ItemSchema.PriceFitsBound` | api/core/migrations/0006_orderitem.py:19 | a price fits seven digits with two decimals exactly when -10^7 < cents < 10^7 |
| `ItemSchema.AfterOrderDelete` | api/core/migrations/0006_orderitem.py:21 | SET_NULL: every item survives, none refers to the deleted order, only the order field changes |
| `ItemSchema.AfterProductDelete` | api/core/migrations/0006_orderitem.py:22 | SET_NULL: every item survives, none refers to the deleted product, only the product field changes |
| `ItemSchema.DeletesKeepSnapshot` | api/core/migrations/0006_orderitem.py:18-22 | both deletes keep each item's stored name and price |
| `Payloads.Restrict` | api/product/serializers.py:32-39 | keeps exactly the payload keys in the given set, with their values |
| `Payloads.Cleaned` | api/product/serializers.py:32-39 | the text a character field keeps has no surrounding whitespace, is no longer than the text sent, and equals it when it had none |
| `Payloads.ReadText` | api/product/serializers.py:32-39 | accepted exactly when the field is absent or holds text that passes the blank and length rules once trimmed; the trimmed text is stored, an absent field keeps the current value |
| `Payloads.ReadNullableText` | api/core/migrations/0004_review.py:19-21 | accepted exactly when absent, null, or text within the limit once trimmed; null is stored as null and text trimmed |
| `Payloads.ReadNullableRef` | api/core/migrations/0006_orderitem.py:21-22 | accepted exactly when absent, null, or the id of an existing row; the stored reference is the one sent, and an absent field keeps the current one |
| `ProductSerializers.Writable` | api/product/serializers.py:39 | the writable fields are the listed fields minus the read-only id |
| `ProductSerializers.RenderProduct` | api/product/serializers.py:32-39 | the rendered row has exactly the serializer's fields, each with the product's value |
| `ProductSerializers.RenderReview` | api/product/serializers.py:17-24 | the rendered row has exactly the serializer's fields, each with the review's value |
| `ProductSerializers.ProductViewsShape` | api/product/serializers.py:32-39 | the list row is {id, title, price}, the detail row adds description, and the detail row does not depend on the owner |
| `ProductSerializers.ProductListIsPartOfDetail` | api/product/serializers.py:39 | the list row is the detail row restricted to the list fields |
| `ProductSerializers.ReviewViewsShape` | api/product/serializers.py:17-24 | the list row is {id, name, rating}, the detail row adds comment, and the detail row does not depend on author or product |
| `ProductSerializers.PatchProduct` | api/product/tests/test_product_apis.py:136-193 | refused exactly when a full update lacks a writable field or a field has the wrong type; otherwise title and description take the sent text trimmed, price the sent value, absent ones keep theirs, and the owner never changes |
| `ProductSerializers.PatchProductIgnoresOtherKeys` | api/product/tests/test_product_apis.py:181-193 | keys outside the writable fields, such as `user`, never change the outcome |
| `ProductSerializers.NewProduct` | api/product/tests/test_product_apis.py:120-134 | a created product holds exactly the sent title and description (trimmed), the sent price and the owner given, and creation needs all three |
| `ProductSerializers.PatchReview` | api/product/tests/test_review_api.py:139-223 | accepted exactly when name and comment are null or text and the trimmed name fits 200 characters, and the rating is null or an integer; each sent field is stored (text trimmed), absent ones keep their values; author, product and creation time never change; well-formedness is kept |
| `ProductSerializers.PatchReviewIgnoresReferences` | api/product/tests/test_review_api.py:186-223 | a payload naming only `user` or `product` leaves the review exactly as it was |
| `ProductSerializers.ReviewDraft` | api/core/migrations/0004_review.py:19-22 | accepted under the same condition as an update; the unsaved review has no author and no product, holds each sent field (text trimmed), and an omitted rating is 0 and an omitted name or comment null |
| `Orders.PatchOrder` | api/product/tests/test_order_apis.py:111-149 | accepted exactly when a full write has a price and price, done and processed_at each have their type; sent price, done and processed_at are stored, absent ones keep their values; owner and creation time never change |
| `Orders.NewOrder` | api/product/views.py:99-101 | accepted exactly when a price is sent and every sent field has its type; a new order is owned by the given caller, stamped now, holds the sent price, done and processed_at, and is pending with no processed_at unless the payload says otherwise |
| `Orders.CreateOrderTestPayload` | api/product/tests/test_order_apis.py:94-108 | the order-creation test's payload is accepted and stored as sent, owned by the caller rather than the user it names |
| `Orders.NewOrderIgnoresPayloadOwner` | api/product/tests/test_order_apis.py:111-128 | a `user` in the payload never reaches the created order |
| `Orders.Process` | api/product/views.py:152-154 | done becomes true and processed_at becomes now; owner, price and creation time are kept |
| `Orders.ProcessTwiceRestamps` | api/product/views.py:149-157 | processing twice equals processing once at the later time, so a second call only moves processed_at |
| `Orders.ReadName` | api/core/migrations/0006_orderitem.py:18 | accepted exactly when the name is absent or text that is non-blank and at most 255 characters once trimmed; the trimmed name is stored |
| `Orders.ReadPrice` | api/core/migrations/0006_orderitem.py:19 | accepted exactly when the price is absent or an integer that fits the decimal column; the sent price is stored |
| `Orders.PatchItem` | api/core/migrations/0006_orderitem.py:17-22 | accepted exactly when a full write has name and price and every sent field passes its check, references naming existing rows; the sent name (trimmed), price, order and product are stored, absent ones keep their values; creation time and well-formedness are kept |
| `Orders.NewItem` | api/product/tests/test_orderitem_apis.py:125-145 | accepted under the item write condition with name and price required; a created item is well-formed, stamped now, holds the sent name (trimmed) and price, and the sent order and product, null when not sent |
| `Orders.CreateItemTestPayload` | api/product/tests/test_orderitem_apis.py:125-145 | the item-creation test's payload, naming an existing order and product, is stored as sent |
| `Policy.Resolve` | api/product/views.py:104-108 | a caller is a guest exactly when anonymous or unknown, and admin exactly when the stored user is staff |
| `Policy.Gate` | api/product/views.py:78-138 | a request goes through exactly when the viewset's permission class grants the role and its mixins provide the action; a refusal is 401, 403 or 405 |
| `Policy.GuestsAreUnauthorized` | api/product/tests/test_order_apis.py:61-65 | a guest gets 401 from every endpoint but the public products |
| `Policy.RegularOrderEndpointsRejectMutation` | api/product/views.py:78-81 | on the regular order and item viewsets update, partial update and destroy give 405 to any signed-in caller |
| `Policy.AdminEndpointsNeedStaff` | api/product/views.py:104-108 | the admin viewsets let a request through exactly for staff, and give 403 to a signed-in non-staff caller |
| `Policy.AdminEndpointsExtendRegular` | api/product/views.py:130-132 | the admin viewsets offer the regular actions plus update, partial update and destroy |
| `Policy.ProductQueryset` | api/product/views.py:48-51 | the private product queryset is exactly the caller's products; the public one is every product |
| `Policy.OrderQueryset` | api/product/views.py:88-91 | the regular order queryset is exactly the caller's orders; the admin one is every order |
| `Policy.ItemQueryset` | api/product/views.py:124-127 | the regular item queryset is exactly the items whose order exists and belongs to the caller; the admin one is every item |
| `Policy.ItemScopeFollowsOrderScope` | api/product/tests/test_orderitem_apis.py:86-106 | an item is in the caller's item scope exactly when its order is in the caller's order scope |
| `Policy.ItemScopeExcludesOrphansAndForeign` | api/product/tests/test_orderitem_apis.py:86-106 | items with no order or another user's order never appear to a regular caller |
| `Tables.Store.constructor` | api/core/models.py:42-57 | an empty, consistent store using the given hasher |
| `Tables.Store.Emails` | api/core/models.py:45-49 | the set of stored addresses |
| `Tables.Store.CreateUser` | api/core/models.py:13-26 | an empty email is refused with nothing stored; a new user with a fresh id is stored exactly when the normalised address is free; the unique constraint refuses a taken one |
| `Tables.Store.CreateSuperuser` | api/core/models.py:28-39 | as create_user, with the stored user promoted to staff and superuser |
| `Tables.Store.SaveUser` | api/core/models.py:45-49 | a save keeps emails unique and changes only that user |
| `Tables.Store.AddProduct` | api/product/views.py:59-61 | inserts under a fresh id and changes nothing else |
| `Tables.Store.SaveProduct` | api/product/tests/test_product_apis.py:136-170 | replaces one product and changes nothing else |
| `Tables.Store.DeleteProduct` | api/core/migrations/0006_orderitem.py:22 | removes the product and applies the SET_NULL rules of reviews and items |
| `Tables.Store.AddReview` | api/core/migrations/0004_review.py:18-24 | inserts a review with an existing author and product under a fresh id |
| `Tables.Store.SaveReview` | api/product/tests/test_review_api.py:139-184 | replaces one review and changes nothing else |
| `Tables.Store.DeleteReview` | api/product/tests/test_review_api.py:225-236 | removes only that review |
| `Tables.Store.AddOrder` | api/product/views.py:99-101 | inserts under a fresh id and changes nothing else |
| `Tables.Store.SaveOrder` | api/product/views.py:154 | replaces one order and changes nothing else |
| `Tables.Store.DeleteOrder` | api/core/migrations/0006_orderitem.py:21 | removes the order and sets its items' order to null |
| `Tables.Store.AddItem` | api/core/migrations/0006_orderitem.py:17-22 | inserts a well-formed item with valid references under a fresh id |
| `Tables.Store.SaveItem` | api/core/migrations/0006_orderitem.py:17-22 | replaces one item and changes nothing else |
| `Tables.Store.DeleteItem` | api/product/tests/test_orderitem_apis.py:196-206 | removes only that item |
| `Tables.ReviewsAfterProductDelete` | api/core/migrations/0004_review.py:23 | after a product delete every review still has a stored author and refers to no missing product |
| `Tables.ItemsAfterProductDelete` | api/core/migrations/0006_orderitem.py:22 | after a product delete every item refers to no missing order or product and stays well-formed |
| `Tables.ItemsAfterOrderDelete` | api/core/migrations/0006_orderitem.py:21 | after an order delete every item refers to no missing order or product and stays well-formed |
| `Tables.UserDeleteKeepsReviewsConsistent` | api/core/migrations/0004_review.py:24 | after a user delete every remaining review has a remaining author |
| `Views.ProductList` | api/product/views.py:29-57 | the list holds exactly the products in the viewset's scope, each rendered with the list fields |
| `Views.ProductRetrieve` | api/product/views.py:29-57 | 200 with the detail row exactly for a product in scope, else 404 after the gate |
| `Views.ProductCreate` | api/product/views.py:59-61 | 201 stores the validated product under a fresh id with the caller as owner, whatever the payload names; 405 on the public viewset; 400 and no change on a bad payload |
| `Views.ProductUpdate` | api/product/tests/test_product_apis.py:136-193 | a product outside the caller's scope gives 404 with no change; otherwise only title, price and description change and the owner is kept |
| `Views.ProductDestroy` | api/product/tests/test_product_apis.py:195-206 | another user's product gives 404 and the store is unchanged; the caller's own is deleted with the on_delete rules applied |
| `Views.ReviewList` | api/product/views.py:64-75 | every stored review, rendered with the list fields, for any signed-in caller |
| `Views.ReviewRetrieve` | api/product/views.py:64-75 | 200 with the detail row exactly for a stored review |
| `Views.ReviewCreateAsWritten` | api/product/views.py:64-75 | as written, creating a review never answers 201: a valid payload reaches the database without an author and fails |
| `Views.ReviewCreateTestPayloadFails` | api/product/tests/test_review_api.py:121-137 | the review-creation test's payload gets a server error, not 201 |
| `Views.AuthoredReview` | api/product/views.py:59-61 | the corrected row: accepted exactly when the review payload is; holds the caller as author, no product, each sent name, rating and comment (text trimmed), and the defaults for the others |
| `Views.ReviewCreate` | api/product/views.py:64-75 | corrected create: 201 stores the validated review under a fresh id with the caller as author |
| `Views.ReviewUpdate` | api/product/tests/test_review_api.py:139-223 | any signed-in caller may update any review; author and product never change |
| `Views.ReviewDestroy` | api/product/tests/test_review_api.py:225-236 | any stored review is deleted for any signed-in caller, with nothing else changed |
| `Views.OrderList` | api/product/tests/test_order_apis.py:77-92 | corrected list: exactly the caller's orders, or every current order on the admin viewset |
| `Views.ClassQueryset.Evaluate` | api/product/views.py:85 | a class-level queryset yields the table on its first evaluation and its cached rows on every later one |
| `Views.CachedRows` | api/product/views.py:110-111 | an evaluation yields the table when nothing is cached, the cache otherwise |
| `Views.CachedRowsMissNewRows` | api/product/views.py:110-111 | after a first listing, a row added later is missing from every later listing |
| `Views.OrderListAsWritten` | api/product/views.py:104-111 | as written, the admin list serves the orders cached by its first evaluation; the regular list is current |
| `Views.OrderRetrieve` | api/product/views.py:88-91 | 200 exactly for an order in scope, else 404 after the gate |
| `Views.OrderCreate` | api/product/tests/test_order_apis.py:111-128 | 201 stores the new order under a fresh id owned by the caller, on both viewsets |
| `Views.OrderUpdate` | api/product/tests/test_order_apis.py:130-149 | 405 with the order unchanged on the regular viewset; staff may update any order, with owner and creation time kept |
| `Views.OrderDestroy` | api/product/views.py:104-111 | staff delete exactly the target order, its items keeping a null order; everyone else is refused with no change |
| `Views.ItemList` | api/product/tests/test_orderitem_apis.py:86-106 | corrected list: exactly the items of the caller's orders, or every current item on the admin viewset |
| `Views.ItemListAsWritten` | api/product/views.py:130-138 | as written, the admin list serves the items cached by its first evaluation; the regular list is current |
| `Views.ItemRetrieve` | api/product/views.py:124-127 | 200 exactly for an item in scope, else 404 after the gate |
| `Views.ItemCreate` | api/product/tests/test_orderitem_apis.py:125-145 | 201 stores the validated item under a fresh id; any existing order may be named, the caller's or not |
| `Views.ItemUpdate` | api/product/tests/test_orderitem_apis.py:147-163 | 405 with name and price unchanged on the regular viewset; staff may update any item |
| `Views.ItemDestroy` | api/product/tests/test_orderitem_apis.py:196-206 | staff delete exactly the target item and nothing else |
| `Views.RequestedOrder` | api/product/views.py:150 | the order id read from the request data, when it is a non-negative integer |
| `Views.ProcessOrderPost` | api/product/views.py:141-160 | any signed-in caller marks any existing order done at now, processed before or not, with nothing else changed; a missing or unknown id is a server error with no change |
| `UserSerializers.Account` | api/user/serializers.py:27-28 | a rendered user has email and name and never the write-only password |
| `UserSerializers.SignUpAsWritten` | api/user/serializers.py:30-32 | as written, a sign-up carrying a name never answers 201 |
| `UserSerializers.LoginTestUserCannotSignUp` | api/user/tests/test_user_apis.py:29-34 | the login test's user details, signed up, get a server error |
| `UserSerializers.SignUp` | api/user/serializers.py:30-32 | corrected sign-up: 400 on a missing, blank, over-long or verbatim-taken email or a password under 5 characters, all judged after trimming; 500 when the address is taken only after normalisation; otherwise 201 stores the create_user result of the trimmed email and password with the name, the trimmed password checks, and the body omits it |
| `UserSerializers.Update` | api/user/serializers.py:34-43 | without a password key a server error with no change; otherwise email and name are copied trimmed, the trimmed new password checks, the flags are kept, and only this user changes |
| `UserSerializers.CreateNamedUser` | api/user/serializers.py:30-32 | corrected create_user: refused with no change exactly when the email is empty or its normalised form is taken; otherwise the create_user result, named when a name is given, stored under a fresh id, with the password checking |
| `UserSerializers.SaveWithPassword` | api/user/serializers.py:37-41 | saves the updated user and, when the password is not empty, the user with that password hashed; only this user changes |
| `UserSerializers.Written` | api/user/serializers.py:36-37 | ModelSerializer.update copies the sent email and name (trimmed) and leaves credential and flags alone |
| `UserSerializers.NameOf` | api/user/serializers.py:27 | a sent name is stored trimmed, a null name as null |
| `UserSerializers.EmailStaysUnique` | api/user/serializers.py:34-37 | the address an accepted update leaves on the user belongs to no other user |
| `UserSerializers.LoginData` | api/user/serializers.py:12-19 | the token data gains exactly email, name and superuser set from the user; every other key keeps its value |

## Left out

- JSON Web Token issuance and verification: a caller is given as anonymous or a user id. A token naming no stored user is a guest. The `is_active` flag is not consulted: `Policy.Resolve` derives a role from `is_staff` alone, while simplejwt refuses an inactive user with 401 on login and on every authenticated request. No operation of the model clears `is_active`, so no reachable state holds an inactive user.
- The profile view authenticates with DRF tokens rather than JWT. `UserSerializers.Update` takes the signed-in user's id.
- Password hashing internals: the hasher is an arbitrary function, so `CheckPassword` only compares digests.
- URL routing and HTTP/JSON encoding: endpoints are methods, and payloads and responses are maps from field names to values.
- Wall-clock time: `timezone.now()` and `auto_now_add` are the parameter `now`.
- Transactions and concurrency, including two process calls racing on one order.
- The order and order-item serializers are not part of this model. Orders and items are returned as stored records. An order's writable fields are those its test payloads send: price, done and processed_at. An item's writable fields are the columns of migration 0006.
- The product migration is not part of this model. A full product update is taken to require title, price and description, the fields the tests send.
- Email.Normalize: case is changed for ASCII letters only, and only ASCII whitespace and the characters 28 to 31 are stripped. Lower-casing beyond ASCII and non-ASCII whitespace such as U+00A0, which Python's `str.strip()` also removes, are not modelled. `Payloads.Cleaned` inherits the same whitespace set.
- UserSerializers.Acceptable: the EmailField format check is not modelled, nor is the 128-character limit of Django's password column. The same holds for `UserSerializers.SignUp` and `UserSerializers.Update`: an email such as `abc` is accepted there, where DRF's EmailField answers 400.
- Payloads: DRF coerces some values across types (a number sent for a text field becomes its text; a numeric string sent for an integer, decimal or key field becomes the number). The model accepts a field only in its own type.
- ProductSerializers.PatchReview: the rating's bounds are not modelled. Django derives them from the database backend's integer range, and the settings are not part of this model. The same holds for `ProductSerializers.ReviewDraft` and `Views.AuthoredReview`.
- ProductSerializers.PatchProduct: the product columns are in a migration that is not part of this model, so title and description get no blank or length rule, only trimming. The same holds for `ProductSerializers.NewProduct`.
- Views.RequestedOrder: values that Django converts with `int()` for the lookup, numeric strings and booleans (`true` looks up order 1), are treated as no id.
- Admin site pages and image upload paths.
- Tables.UserDeleteKeepsReviewsConsistent: no endpoint deletes users. The CASCADE rule is stated for reviews only, since products and orders of a deleted user are in migrations that are not part of this model.
- The sequence order of list responses: no queryset is ordered, so lists are maps from id to row.

## Findings

| source | as written | input that shows it | evidently intended | confidence | as-written member | corrected member |
|---|---|---|---|---|---|---|
| api/product/views.py:64-75 | ReviewViewSet has no `perform_create`, and neither `user` nor `product` is a field of ReviewDetailSerializer, so a new review reaches the database with no author and the NOT NULL constraint on `user_id` fails | the payload of test_review_api.py:124-130, by a signed-in user | the caller is stored as the review's author, as perform_create does for products and orders | not executed | `Views.ReviewCreateAsWritten` | `Views.ReviewCreate` |
| api/user/serializers.py:30-32 | `create` calls `create_user(**validated_data)`, but `create_user(self, email, password=None)` takes no `name`, so a sign-up carrying a name raises TypeError | name `Name test`, email `email@gmail.com`, password `test-pw-user-123` (test_user_apis.py:29-34, which passes the same keywords to create_user) | create_user accepts the name and stores it along with the normalised email and hashed password | not executed | `UserSerializers.SignUpAsWritten` | `UserSerializers.SignUp` |
| api/product/views.py:104-111 | OrderPrivateViewset.get_queryset returns the class attribute `Order.objects.all()` uncopied; listing fills its result cache, which later admin lists serve. This needs no paginator (none is configured) and no `APIView.as_view` queryset guard (viewsets lack it) | a staff list, then any order created, then a second staff list: the new order is missing | the admin list shows the current orders, as `self.queryset.all()` (GenericAPIView's default get_queryset) would | not executed | `Views.OrderListAsWritten` | `Views.OrderList` |
| api/product/views.py:130-138 | OrderItemPrivateViewset.get_queryset returns the class attribute `OrderItem.objects.all()` in the same way, under the same two conditions: no paginator is configured, and viewsets lack `APIView.as_view`'s queryset guard | a staff list of order items, then an item created, then a second staff list: the new item is missing | the admin list shows the current items | not executed | `Views.ItemListAsWritten` | `Views.ItemList` |
