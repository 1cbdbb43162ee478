# LazyEats models in Dafny

This project models the persistence schemas of the LazyEats food-ordering
backend. Those are the Mongoose models under `src/models/`. There are four
account-like entities: user, admin, merchant and shop. The item schema reuses
their hooks. Four record schemas hold no hooks: order, payment, review and
support ticket. The project proves what these schemas promise.

The project has these parts:

- **Setters and validators** (`text.dfy`, `schema.dfy`):
  - `trim` and `lowercase`.
  - `required`, `minlength`, `min`/`max` and `enum`.
  - The password rule: trimmed, at least 8 characters, and it must match
    both `/\d/` and `/[a-zA-Z]/`.
  - The phone rule: the unanchored search `'[0-9]{10}'`, written as a scanner
    that is proved equal to "some run of ten digits".
  - The Mongoose ValidationError: one entry for each failing path, and for
    each path the first of its validators that fails.
- **Accounts** (`accounts.dfy`, `account_defaults.dfy`):
  - One record parameterised by its kind (`User`, `Admin`, `Merchant`,
    `Shop`). `Shape` says which optional paths each kind stores; strict mode
    drops undeclared paths.
  - Casting through the setters, and the defaults.
  - Validation of a new document, stated per kind in terms of the values the
    caller supplied.
  - Assignment to a loaded document, and the paths `isModified` then reports.
- **Account collection** (`account_store.dfy`), a class:
  - Fields: the stored documents, and the ghost plaintexts behind their
    hashes.
  - `create` and `save`, including the `pre('save')` hook that hashes the
    password only when it was modified.
  - The `pre(/^find/)` soft-delete filter on `isActive`, `find`, `findOne`,
    `findById`, `isEmailTaken` and `isPasswordMatch`.
- **Items** (`items.dfy`, `item_store.dfy`):
  - The item schema, and an item collection whose soft-delete filter tests
    `active`.
  - The item has copies of `isEmailTaken`, `isPasswordMatch` and the save
    hook, although it declares neither `email` nor `password`.
- **Records** (`orders.dfy`, `payments.dfy`, `reviews.dfy`, `support.dfy`):
  - Each validates a body into a typed record or a ValidationError.
  - Each has a round trip between records and bodies. Orders, payments and
    support tickets also have enum datatypes for their status and type paths.

`query.dfy` holds query filters, the soft-delete hook, and the `find`/`findOne`
loops. The hash function, its comparison and `validator.isEmail` are
uninterpreted function values of `Credentials.Library`. The bcrypt salt is a
method parameter, and so is the clock behind `Date.now`.

The code does only what these schemas declare:

- `isEmailTaken` only reports `!!found`. It never deletes an existing
  record that holds the email, verified or not.
- There is no one-time passcode.
- Order and payment status have no transition rule. Any value in the enum
  can be saved from any value (`Orders.StatusFreelyAssignable`,
  `Payments.PaymentStatusFreelyAssignable`).

## Model

| member | source | states |
|---|---|---|
| Text.TrimSpec | src/models/shop.model.js:8-12 | `trim` keeps one slice of the input; everything cut off on either side is white space, and the result neither starts nor ends with white space |
| Text.LowerSpec | src/models/shop.model.js:14-21 | `lowercase` keeps the length, folds each character in place and leaves no upper-case letter |
| Text.TrimLowerCommute | src/models/user.model.js:14-21 | applying `trim` then `lowercase` equals applying them in the other order |
| Text.NormalizeIsNormal | src/models/user.model.js:34-40 | a value after both setters starts and ends without white space and has no upper-case letter; the setters are idempotent |
| Text.NormalIsFixed | src/models/user.model.js:34-40 | a value with no surrounding white space and no upper case is left unchanged by both setters |
| Text.TrimIdempotent | src/models/shop.model.js:8-12 | trimming twice equals trimming once |
| Text.Search | src/models/shop.model.js:28-32 | the left-to-right scan for `k{n}` succeeds iff some run of n consecutive class-k characters occurs anywhere in the string |
| Text.ScanCorrect | src/models/shop.model.js:29 | the scan with a pending run of length `run` succeeds iff that run plus the leading run reaches n, or the string holds a run of n |
| Text.SearchOne | src/models/shop.model.js:98 | matching `/\d/` or `/[a-zA-Z]/` succeeds iff the string contains a character of that class |
| Schema.Collect | src/models/shop.model.js:6-113 | the ValidationError names exactly the paths whose check fails, each with its check's reason; it is empty iff every path passes |
| Schema.RequiredText | src/models/shop.model.js:8-12 | a required String fails, as `Required`, iff it is empty or absent |
| Schema.RequiredValue | src/models/order.model.js:11-20 | a required reference or Number fails, as `Required`, iff it is absent |
| Schema.PasswordCheck | src/models/shop.model.js:92-103 | a password is accepted iff it has at least 8 characters, a digit and an ASCII letter; empty reports `Required`, 1 to 7 characters report `MinLength` |
| Schema.PhoneCheck | src/models/shop.model.js:22-33 | a phone is accepted iff it contains ten consecutive digits anywhere; empty reports `Required` |
| Schema.PhoneRunSurvivesSetters | src/models/user.model.js:22-33 | trimming and lower-casing never change whether a phone holds ten consecutive digits |
| Schema.RatingCheckAsWritten | src/models/shop.model.js:53-59 | the declared bounds accept exactly the ratings in [1, 5] |
| Schema.DefaultRatingRejectedAsWritten | src/models/shop.model.js:53-57 | the declared bounds reject the declared default 0 with `Min` |
| Schema.RatingCheck | src/models/shop.model.js:53-59 | the corrected check accepts exactly the unrated default 0 and the ratings in [1, 5], so every accepted rating lies in [0, 5] |
| Query.SoftDeleteMatches | src/models/shop.model.js:118-121 | after the hook a document matches iff it matched the caller's filter and is live |
| Query.FindAll | src/models/shop.model.js:118-121 | `find` returns, in increasing id order, exactly the documents that match |
| Query.FindFirst | src/models/shop.model.js:123-126 | `findOne` returns the first matching document, and nothing iff no document matches |
| Query.FindLive | src/models/user.model.js:97-100 | `find` behind the soft-delete hook returns, in increasing id order, exactly the live documents that match |
| Query.FindOneLive | src/models/admin.model.js:65-68 | `findOne` behind the hook returns a live matching document, and nothing iff there is none |
| Query.FindLiveById | src/models/merchant.model.js:86-89 | `findById` behind the hook returns the document iff it exists and is live |
| Accounts.ParseRole | src/models/user.model.js:70-74 | a role is accepted iff it is the name of a role, and it denotes that role |
| Accounts.Declared | src/models/user.model.js:7-92 | the listed paths are exactly those the kind's schema declares |
| Accounts.ShapeDeclares | src/models/admin.model.js:9-56 | a document holds a value only at declared paths, and at every declared path except the optional `image` and `shop` |
| Accounts.Build | src/models/shop.model.js:6-113 | a document built with defaults has its kind and the shape of that kind |
| Accounts.Prepare | src/models/user.model.js:7-92 | `new Model(body)` gives a document of that kind and shape |
| Accounts.Check | src/models/merchant.model.js:9-59 | a path's validators, run in order, report nothing iff the path's rule holds |
| Accounts.Validate | src/models/shop.model.js:6-113 | a new document is saved iff every declared path passes; it is then the prepared document, and otherwise the error lists the failing paths |
| Accounts.Errors | src/models/user.model.js:7-92 | the error of validating some paths is empty iff they all pass, and names exactly those that fail |
| Accounts.Changed | src/models/shop.model.js:135 | the changed paths are exactly the listed paths whose values differ |
| Accounts.Modified | src/models/user.model.js:114 | `isModified` holds exactly for the declared paths whose value the assignment changed |
| Accounts.WithPasswordOnlyPassword | src/models/shop.model.js:133-139 | the hook's rewrite sets the password, keeps the kind and every other path, and keeps the shape |
| Accounts.CastKeepsAssigned | src/models/user.model.js:9-40 | the setters give a value to exactly the paths the body gives one |
| Accounts.AssignOnlyAssigned | src/models/merchant.model.js:9-76 | an assignment leaves every path it does not give, and every undeclared path, unchanged |
| Accounts.PasswordKeptUnlessAssigned | src/models/shop.model.js:133-139 | a body without a password leaves the password unchanged and not modified, so the hook does not re-hash it |
| Accounts.AssignNothing | src/models/admin.model.js:80-86 | assigning nothing changes nothing and marks no path modified |
| Accounts.AssignKeepsShape | src/models/user.model.js:7-92 | an assignment keeps the document's shape |
| Accounts.NameGivenPrepared | src/models/user.model.js:9-13 | the name passes iff the supplied name is non-empty after trimming |
| Accounts.EmailGivenPrepared | src/models/user.model.js:14-21 | the email passes iff the trimmed, lower-cased email is non-empty and `isEmail` accepts it |
| Accounts.PhoneGivenPrepared | src/models/merchant.model.js:22-33 | the phone passes iff the supplied phone holds ten consecutive digits |
| Accounts.RegisterGivenPrepared | src/models/user.model.js:34-40 | the registration number passes iff it is non-empty after the setters |
| Accounts.PasswordGivenPrepared | src/models/admin.model.js:26-37 | the password passes iff the trimmed supplied password meets the policy |
| Accounts.RoleGivenPrepared | src/models/merchant.model.js:55-59 | the role passes iff it is absent (the default is a role) or is a role name |
| Accounts.ShopGivenPrepared | src/models/merchant.model.js:38-42 | a merchant's shop reference passes iff it is given |
| Accounts.ShopFieldsPrepared | src/models/shop.model.js:48-69 | the cover image must be non-empty, the rating accepted by the corrected rule, and the average time at least 1 |
| Accounts.WellFormedUser | src/models/user.model.js:9-74 | a user passes iff name, email, phone, register, password and role pass |
| Accounts.WellFormedAdmin | src/models/admin.model.js:9-42 | an admin passes iff name, email, password and role pass |
| Accounts.WellFormedMerchant | src/models/merchant.model.js:9-59 | a merchant passes iff name, email, phone, shop, password and role pass |
| Accounts.WellFormedShop | src/models/shop.model.js:8-103 | a shop passes iff name, email, phone, cover image, rating, average time and password pass |
| Accounts.UserAccepts | src/models/user.model.js:9-74 | a new user is saved iff it has a name, a valid email, ten consecutive digits in its phone, a registration number, a password meeting the policy and, when given, a valid role |
| Accounts.AdminAccepts | src/models/admin.model.js:9-42 | a new admin is saved iff it has a name, a valid email, a password meeting the policy and, when given, a valid role; no phone is demanded |
| Accounts.MerchantAccepts | src/models/merchant.model.js:9-59 | a new merchant is saved iff it has a name, a valid email, a valid phone, a shop reference, a password meeting the policy and, when given, a valid role |
| Accounts.ShopAccepts | src/models/shop.model.js:8-103 | a new shop is saved iff it has a name, a valid email, a valid phone, a cover image, a rating the corrected rule accepts (the default 0 included), an average time of at least 1 and a password meeting the policy |
| Accounts.StoredIdentifiersNormal | src/models/user.model.js:9-40 | a saved email, phone and registration number are stored trimmed and lower-cased, and the name trimmed |
| AccountDefaults.PersonDefaults | src/models/user.model.js:70-87 | a new user, admin or merchant is active, has its kind's default role and both verification flags false; a merchant is unverified; none stores shop-only paths |
| AccountDefaults.ShopDefaults | src/models/shop.model.js:53-108 | a new shop is active, closed, takes no offline payment, has no ratings and no orders, a rating of 0 and an average time of 1, and has no role or verification flags |
| AccountDefaults.CastKeepsPresence | src/models/shop.model.js:8-33 | the setters keep which values were given and leave non-string values as given |
| AccountDefaults.ShopWithoutRatingRejectedAsWritten | src/models/shop.model.js:53-57 | under the declared bounds a shop created without a rating fails `min: 1`, while the corrected check accepts it |
| AccountDefaults.UndeclaredDropped | src/models/admin.model.js:9-56 | an admin never stores a phone; only a user stores a registration number; only a merchant stores a shop or `isVerified` |
| AccountStore.AccountCollection.PreSave | src/models/shop.model.js:133-139 | the hook replaces the password by its hash iff the password was modified, and changes nothing else |
| AccountStore.AccountCollection.HashedStored | src/models/user.model.js:112-118 | re-hashing an accepted document gives a document the store may hold |
| AccountStore.AccountCollection.AssignedStored | src/models/user.model.js:7-92 | validating only the modified paths of an assignment to a stored document suffices for the result to be storable |
| AccountStore.AccountCollection.Create | src/models/user.model.js:112-118 | `create` succeeds iff the prepared document passes; it appends it with its password hashed and keeps every stored hash made from a plaintext that met the policy, or leaves the store alone and returns the errors |
| AccountStore.AccountCollection.Update | src/models/shop.model.js:133-139 | saving a loaded document fails as not found iff the id is unknown or deactivated, and succeeds iff the document is live and every modified path passes; on success only that document changes, and its password is re-hashed iff it was modified |
| AccountStore.AccountCollection.Find | src/models/shop.model.js:118-121 | `find` returns exactly the live matching documents, in order; no deactivated document is returned |
| AccountStore.AccountCollection.FindOne | src/models/merchant.model.js:86-89 | `findOne` returns a live matching document, and nothing iff there is none |
| AccountStore.AccountCollection.FindById | src/models/user.model.js:97-100 | `findById` returns the document iff it exists and is live |
| AccountStore.AccountCollection.IsEmailTaken | src/models/shop.model.js:123-126 | the email is taken iff some live document other than the excluded id stores the email after trimming and lower-casing; nothing changes |
| AccountStore.AccountCollection.IsPasswordMatch | src/models/shop.model.js:128-131 | the answer is the comparison with the stored hash, nothing changes, and a sound comparison accepts the plaintext that was hashed |
| AccountStore.EmailQueryMatches | src/models/user.model.js:102-105 | a document matches `{ email, _id: { $ne: x } }` iff its email is the key and its id is not x; an absent x excludes nothing |
| Items.CheckItem | src/models/item.model.js:8-49 | an item path's validators report nothing iff its rule holds |
| Items.ItemErrors | src/models/item.model.js:6-59 | the item ValidationError is empty iff every path passes, and names exactly the failing paths |
| Items.ValidateItem | src/models/item.model.js:6-59 | an item is saved iff it is well formed; it is then the prepared item, and otherwise the error lists the failing paths |
| Items.ItemAccepts | src/models/item.model.js:8-49 | an item is saved iff it has a trimmed name, an image, a price, a shop, a rating the corrected rule accepts (the default 0 included) and, when given, a time in [1, 60] |
| Items.TimeTakenBounds | src/models/item.model.js:29-33 | a time below 1 reports `Min`, above 60 reports `Max`, and within [1, 60] passes |
| Items.ItemDefaults | src/models/item.model.js:17-54 | a new item is vegetarian, available and active, has no ratings, rating 0, no extra images, and no time unless given |
| Items.ItemSetters | src/models/item.model.js:8-16 | a saved item's name is the trimmed supplied name, and its image is the supplied image |
| Items.ItemWithoutRatingRejectedAsWritten | src/models/item.model.js:18-24 | under the declared bounds an item created without a rating fails `min: 1`, while the corrected check accepts it |
| Items.AssignItemKeeps | src/models/item.model.js:8-54 | assigning nothing leaves an item unchanged, and an assignment keeps each of the eleven paths it does not give |
| ItemStore.ItemCollection.PreSave | src/models/item.model.js:79-85 | the copied hook never changes an item |
| ItemStore.ItemCollection.Create | src/models/item.model.js:6-59 | `create` appends the prepared item iff it is well formed, and otherwise returns the errors; every stored item is well formed |
| ItemStore.ItemCollection.Update | src/models/item.model.js:64-67 | saving a loaded item fails as not found iff the id is unknown or inactive; otherwise it stores the merged item iff it is well formed |
| ItemStore.ItemCollection.Find | src/models/item.model.js:64-67 | `find` returns exactly the matching items whose `active` holds |
| ItemStore.ItemCollection.FindOne | src/models/item.model.js:64-67 | `findOne` returns an active matching item, and nothing iff there is none |
| ItemStore.ItemCollection.FindById | src/models/item.model.js:64-67 | `findById` returns the item iff it exists and is active |
| ItemStore.ItemCollection.IsEmailTaken | src/models/item.model.js:69-72 | with `strictQuery` the answer is whether another active item exists; without it, always false |
| ItemStore.ItemCollection.IsPasswordMatch | src/models/item.model.js:74-77 | the comparison always fails with "Illegal arguments", because no item has a password |
| ItemStore.ItemEmailQueryMatches | src/models/item.model.js:70 | an item matches the copied email filter iff `strictQuery` holds and its id is not excluded |
| Orders.ParseOrderStatus | src/models/order.model.js:21-26 | a status string is accepted iff it names an order state, and it denotes that state |
| Orders.OrderStatusRoundTrip | src/models/order.model.js:23 | every order state's name is accepted and denotes that state |
| Orders.StatusCheck | src/models/order.model.js:21-26 | the status passes iff it is absent or names a state; "" fails as `Required` |
| Orders.OrderErrors | src/models/order.model.js:5-35 | the order ValidationError is empty iff every path passes, and names exactly the failing paths |
| Orders.OrderAcceptedChecks | src/models/order.model.js:7-30 | every order path passes iff shop is non-empty, user, transaction and total price are given, and status is absent or valid |
| Orders.ValidateOrder | src/models/order.model.js:5-35 | an order is saved iff those requirements hold; it then carries the given values and the named status, WAITING by default |
| Orders.NewOrderWaiting | src/models/order.model.js:24 | a new order without a status is WAITING |
| Orders.OrderRoundTrip | src/models/order.model.js:5-35 | an order is well formed iff validating its own body gives it back |
| Orders.StatusFreelyAssignable | src/models/order.model.js:21-26 | a well-formed order may take any state from any state, and nothing else changes |
| Payments.ParsePaymentType | src/models/payment.model.js:31-34 | a type string is accepted iff it names a payment type, and it denotes that type |
| Payments.PaymentTypeRoundTrip | src/models/payment.model.js:31-34 | every payment type's name is accepted and denotes that type |
| Payments.ParsePaymentStatus | src/models/payment.model.js:35-46 | a status string is accepted iff it names a payment state, and it denotes that state |
| Payments.PaymentStatusRoundTrip | src/models/payment.model.js:35-46 | every payment state's name is accepted and denotes that state |
| Payments.TypeCheck | src/models/payment.model.js:31-34 | the type passes iff it is absent or names a type |
| Payments.StatusCheck | src/models/payment.model.js:35-46 | the status passes iff it is absent or names a state |
| Payments.PaymentErrors | src/models/payment.model.js:5-61 | the payment ValidationError is empty iff every path passes, and names exactly the failing paths |
| Payments.PaymentAcceptedChecks | src/models/payment.model.js:7-56 | every payment path passes iff the four references, a non-empty transaction id and the amount are given, and type and status are absent or valid |
| Payments.ValidatePayment | src/models/payment.model.js:5-61 | a payment is saved iff those requirements hold; it then carries the given values and the named type and status, PENDING by default |
| Payments.NewPaymentPending | src/models/payment.model.js:45 | a new payment without a status is PENDING |
| Payments.PaymentRoundTrip | src/models/payment.model.js:5-61 | a payment is well formed iff validating its own body gives it back |
| Payments.PaymentTimesOptional | src/models/payment.model.js:51-56 | whether a payment is saved never depends on its two dates |
| Payments.PaymentStatusFreelyAssignable | src/models/payment.model.js:35-46 | a well-formed payment may take any state from any state, and nothing else changes |
| Reviews.ReviewRatingCheck | src/models/review.model.js:10-15 | the rating passes iff it is given and in [1, 5]; absent reports `Required`, below 1 `Min`, above 5 `Max` |
| Reviews.ReviewErrors | src/models/review.model.js:4-41 | the review ValidationError is empty iff every path passes, and names exactly the failing paths |
| Reviews.ReviewAcceptedChecks | src/models/review.model.js:6-30 | every review path passes iff the text is non-empty, the rating is in [1, 5], and order, user and shop are given |
| Reviews.ValidateReview | src/models/review.model.js:4-41 | a review is saved iff those requirements hold; it then carries the given values, and an absent item list is empty |
| Reviews.ReviewRoundTrip | src/models/review.model.js:4-41 | a review is well formed (its text is non-empty, its rating in [1, 5]) iff validating its own body gives it back |
| Reviews.RatingOutOfRangeRejected | src/models/review.model.js:10-15 | a rating outside [1, 5] is rejected, and the error names the rating with the bound it breaks |
| Support.ParseQueryType | src/models/support.model.js:26-30 | a type string is accepted iff it names a query type, and it denotes that type |
| Support.QueryTypeRoundTrip | src/models/support.model.js:26-30 | every query type's name is accepted and denotes that type |
| Support.TypeCheck | src/models/support.model.js:26-30 | the type passes iff it is given and names a type; absent or "" reports `Required` |
| Support.TicketErrors | src/models/support.model.js:5-46 | the ticket ValidationError is empty iff every path passes, and names exactly the failing paths |
| Support.TicketAcceptedChecks | src/models/support.model.js:7-30 | every ticket path passes iff order, user and shop are given, the query is non-empty, and the type is valid |
| Support.ValidateTicket | src/models/support.model.js:5-46 | a ticket is saved iff those requirements hold; it then carries the given values, is unsolved by default and is asked at `now` by default |
| Support.NewTicketUnsolved | src/models/support.model.js:31-41 | a new ticket is unsolved, asked now, and has no solve time |
| Support.TicketRoundTrip | src/models/support.model.js:5-46 | a ticket is well formed iff validating its own body gives it back, at any time |
| Support.TicketTypeRequired | src/models/support.model.js:26-30 | a ticket without a type is rejected, and the error names `type` as missing |

## Left out

- Accounts.ShopAccepts: validates `ratingsAverage` with the corrected rule of the Findings below, which accepts the default 0. The schema as written rejects every new shop that gives no rating (`AccountDefaults.ShopWithoutRatingRejectedAsWritten`).
- Accounts.ShopFieldsPrepared: states the corrected rating rule, not the declared `min: 1`, for the same reason.
- Accounts.Check: its `ratingsAverage` branch runs the corrected rule, which accepts the default 0.
- Accounts.Validate: validates a shop's `ratingsAverage` with the corrected rule, so it accepts a shop body without a rating, which the schema as written rejects.
- AccountStore.AccountCollection.Create: inserts a shop created without a rating, under the corrected rule; the schema as written rejects it.
- Items.CheckItem: its `ratingsAverage` branch runs the corrected rule, which accepts the default 0. The schema as written rejects it (`Items.ItemWithoutRatingRejectedAsWritten`).
- Items.ValidateItem: accepts an item body without a rating, under the corrected rule; the schema as written rejects it.
- ItemStore.ItemCollection.Create: inserts an item created without a rating, under the corrected rule; the schema as written rejects it.
- Items.ItemAccepts: says an item without a rating is saved, under the corrected rule. The schema as written rejects it.
- Query.SoftDeleteMatches: conjoins the hook's condition with the caller's filter. Mongoose's query merge replaces a caller's own condition on `isActive`/`active` with the hook's. A caller's own condition on the soft-delete flag is not modelled.
- bcrypt: hashing, comparison and the cost factor are uninterpreted functions. The random salt is a parameter. The promise "compare accepts what was hashed" is an assumption (`Library.Sound`), not a proof.
- `validator.isEmail` is an uninterpreted predicate.
- The imported enums (`roles`, `orderTypes`, `paymentTypes`, `paymentStatusTypes`, `queryTypes`) are not part of this model. Their string values are taken to be the constant names: "user", "admin", "merchant", "WAITING" and so on.
- The `toJSON` and `paginate` plugins are not part of this model. Hiding `private` fields on output belongs to them.
- Storage-level `unique` indexes, concurrent writes, ObjectId casting and `ref` population are not modelled. Two concurrent registrations are out of scope.
- The `Math.round(val * 10) / 10` setters on `ratingsAverage` and `timeAverage` are not modelled, because they are floating-point. Ratings are exact reals.
- `timestamps` and `Date` handling are not modelled. Dates are integers; `Date.now` is the parameter `now`.
- The shop's `slug`, `images` and `operators` paths, and the item's `images` beyond storing them, are not modelled. They carry no validator.
- Text.Lower: folds only ASCII letters. JavaScript's `toLowerCase` also folds other scripts.
- String lengths count Dafny characters, not UTF-16 code units.
- An explicit `null` is treated like an absent value. Cast errors, such as a non-number where a Number is declared, are not modelled.
- The validator functions are called with `this` bound to the document. The model passes them only the value.
- AccountStore.AccountCollection.Update: validates only the modified paths. Mongoose also re-validates the loaded paths. Every stored non-password path already passes (`AccountStore.AccountCollection.AssignedStored`). The stored bcrypt hash is 60 characters with digits and letters, so it passes too. Under the uninterpreted hash this is not proved, so the contract is stated over the modified paths only.
- ItemStore.ItemCollection.IsEmailTaken: the Mongoose version is not fixed, so `strictQuery` is a constant of the collection. An `email` argument of `undefined` is not modelled.
- Ids are sequence positions, and the store never removes a document. Soft deletion is the `isActive`/`active` flag.

## Findings

| source | as written | input that shows it | evidently intended | confidence | as-written member | corrected member |
|---|---|---|---|---|---|---|
| src/models/shop.model.js:53-59 | `ratingsAverage` has `default: 0` and `min: 1`. Mongoose validates paths that received a default, so every new shop that gives no rating fails with "Rating must be above 1.0" | any shop body without `ratingsAverage` | 0 means "no ratings yet"; the bounds apply only to real ratings | medium, not executed | AccountDefaults.ShopWithoutRatingRejectedAsWritten | Schema.RatingCheck |
| src/models/item.model.js:18-24 | the same default and bound on the item's `ratingsAverage` | any item body without `ratingsAverage` | as above | medium, not executed | Items.ItemWithoutRatingRejectedAsWritten | Schema.RatingCheck |
