# Bookstore business rules in Dafny

A verified model of the business rules of a bookstore web application. The
application has an Express/Mongo server and a React client. The model covers:

- the server's user-embedded cart (`Server/routes/cart.js`): add with a
  cumulative stock check, update, remove, clear, move to the wishlist, the
  cart summary and the item count;
- the second cart stack over a separate `Cart` collection
  (`Server/routes/cartRoutes.js`);
- checkout, cancellation, status updates and the view and update access
  rules (`Server/routes/orders.js`), together with the order document's status log
  (`Server/models/Order.js`);
- the user schema's rules (`Server/models/User.js`) and the review
  document's helpful and flag sets (`Server/models/Review.js`);
- the catalog routes (`Server/routes/books.js`): listing filter, sort keys,
  pagination, owner-or-admin updates with the whitelisted copy, soft delete,
  and validation of a new book;
- the bearer-token middleware and role gate
  (`Server/middlewares/authMiddleware.js`);
- the client's two auth state machines (`Client/src/stores/authStore.js`,
  `Client/src/context/AuthContext.jsx`) and its route guard
  (`Client/src/components/PrivateRoute.jsx`);
- the client's two cart mirrors (`Client/src/stores/cartStore.js`,
  `Client/src/context/CartContext.jsx`);
- the checkout form's validation and card/expiry formatters
  (`Client/src/components/Checkout.jsx`) and the signup form's rules
  (`Client/src/components/Signup.jsx`).

The database is a set of in-memory maps: books by id, a user's cart line
sequence and wishlist, and orders by id. Money is an exact `real`. The 8% tax
and the shipping rule (free above 50, 5.99 otherwise) are one shared
function, `Pricing.Summarize`. The server's cart and its checkout are proved
equal to that formula, and so are the three copies of the formula in the
client's cart store.

Code that changes state in place is modelled as classes whose methods are
proved against pure specification functions:

- `ServerCart.Account` holds a user's cart and wishlist;
- `Types.Inventory` holds the books; `OrderModel.Order` holds an order's
  status log;
- `ReviewModel.Review` holds a review's helpful and flag lists;
- `CartRoutes.CartCollection` holds the carts of the second stack;
- `CartStore.Store` and `AuthStore.Store` are the client stores.

The reducers, the forms and the route guard are pure functions. The
checkout's validation loop, the stock loops, the card formatter's grouping
loop and the catalog's whitelist copy are methods with loop invariants.

Files, one module each: `types.dfy` (shared book, role, failure and
option types), `pricing.dfy`, `text.dfy` (trimming, digits, space removal),
`server_cart.dfy`, `cart_routes.dfy`, `orders.dfy`, `order_model.dfy`,
`user_model.dfy`, `review_model.dfy`, `catalog.dfy`, `auth_middleware.dfy`,
`auth_store.dfy`, `auth_context.dfy`, `private_route.dfy`, `cart_store.dfy`,
`cart_context.dfy`, `checkout_form.dfy` and `signup_form.dfy`.

Behaviour of the code that the model keeps as written:

- The store's `isSeller` holds for sellers and admins. The context's
  `isSeller` holds for sellers only (`AuthContext.FlagsAgainstStore`).
- The context derives its flags from `user.role`. The user document the
  middleware reads (`Server/models/user.js`) carries `roles`, so a user
  without `role` gets no flag (`AuthContext.MissingRoleNoFlags`).
- `quickAddToCart` does not roll back its optimistic line when the add is
  refused (`CartStore.Store.QuickAddToCart`).
- `moveToWishlist` reports success even when the removal after it fails
  (`CartStore.Store.MoveToWishlist`).
- The store's empty summary shows shipping 0, while the formula charges an
  empty cart 5.99 (`CartStore.EmptySummaryVsFormula`).
- There is no transition table between order statuses: any listed status may
  follow any other (`OrderModel.Order.UpdateStatus`, `Orders.StatusDecision`).
- The signup form's account-type radios pass their own `onChange`, which
  replaces the one `register` installs. The selected role is therefore an
  input of the validation functions, and the form's own `role` keeps its
  default `customer` (see Findings).

## Model

| member | source | states |
|---|---|---|
| Pricing.ShippingFor | Server/routes/cart.js:70 | shipping is 0 exactly when the subtotal exceeds 50, and 5.99 otherwise |
| Pricing.Summarize | Server/routes/cart.js:69-72 | tax is 8% of the subtotal, shipping follows the threshold rule, and the total is the sum of the three |
| Pricing.TotalBounds | Server/routes/orders.js:93-97 | a non-negative subtotal gives non-negative parts that add up, with a total between 108% of the subtotal and that plus 5.99 |
| Pricing.ThirtyExample | Server/routes/orders.js:93-97 | one line at 10 with quantity 3 gives subtotal 30, tax 2.40, shipping 5.99 and total 38.39 |
| Pricing.FreeShippingMonotone | Server/routes/cart.js:70 | once shipping is free, it stays free for every larger subtotal |
| AuthMiddleware.HeaderToken | Server/middlewares/authMiddleware.js:8-10 | a token is found only in a header starting with `Bearer`, and it is the second space-separated piece; a Bearer header with a single piece has none |
| AuthMiddleware.BearerTokenRoundTrip | Server/middlewares/authMiddleware.js:8-10 | `Bearer <t>` yields exactly `t` for every non-empty `t` without spaces |
| AuthMiddleware.NoBearerNoToken | Server/middlewares/authMiddleware.js:8-10 | a header not starting with `Bearer` yields no token |
| AuthMiddleware.Protect | Server/middlewares/authMiddleware.js:7-22 | a missing or empty token is 401 "token missing", and every refusal is a 401; the request passes iff the token verifies, carrying the user with the decoded id or none when there is no such user |
| AuthMiddleware.SomeAllowed | Server/middlewares/authMiddleware.js:28 | true iff some role of the user is in the allowed list |
| AuthMiddleware.AuthorizeRoles | Server/middlewares/authMiddleware.js:25-32 | no user gives 401; with a user it passes iff some role is allowed, otherwise 403; a pass keeps the user |
| AuthMiddleware.GuardedPassesOnlyAllowed | Server/middlewares/authMiddleware.js:7-32 | `protect` then `authorizeRoles` passes iff a bearer token verifies to an existing user holding an allowed role |
| AuthMiddleware.UnknownUserIs401 | Server/middlewares/authMiddleware.js:16-27 | a verified token with no matching user passes `protect` and is then refused with 401 by the role check |
| Text.TrimIdempotent | Server/routes/orders.js:11-16 | `trim()` applied twice equals `trim()` applied once |
| Text.TrimNonEmptyIffNonBlank | Server/routes/books.js:10-13 | `trim().notEmpty()` holds exactly for strings with a non-whitespace character |
| Text.Lower | Server/models/User.js:19 | `lowercase` keeps the length and maps each character to its lower-case form |
| Text.Digits | Client/src/components/Checkout.jsx:141 | keeps only digits and never lengthens the text |
| Text.DigitsCount | Client/src/components/Checkout.jsx:141 | the result holds each digit exactly as often as the input does, and no other character |
| Text.RemoveSpaces | Client/src/components/Checkout.jsx:84 | removes every whitespace character and never lengthens the text |
| Text.RemoveSpacesCount | Client/src/components/Checkout.jsx:84 | the result holds each non-whitespace character exactly as often as the input does, and no whitespace |
| Text.Split | Server/middlewares/authMiddleware.js:9 | `split` with a one-character separator returns at least one piece, and no piece contains the separator |
| Text.JoinSplit | Client/src/components/Checkout.jsx:37 | joining the pieces of a split with the separator gives back the string |
| Text.SplitJoin | Client/src/components/Checkout.jsx:37 | splitting separator-free pieces joined by the separator gives back the pieces |
| Text.IndexOf | Client/src/components/Signup.jsx:185 | finds the first occurrence of a character, or none iff it is absent |
| Text.LastIndexOf | Client/src/components/Signup.jsx:185 | finds the last occurrence of a character, or none iff it is absent |
| Text.SplitHasTwo | Client/src/components/Checkout.jsx:36-37 | a name containing `.` splits into at least two pieces, so `[parent, child]` both bind |
| Text.NatToString | Client/src/components/Checkout.jsx:41 | renders a natural as a non-empty string of digits, one digit exactly below 10 |
| Text.NatToStringRoundTrip | Client/src/components/Checkout.jsx:41 | reading a rendered natural back gives the natural |
| Text.NatToStringInjective | Client/src/components/Checkout.jsx:41 | different indices render as different keys |
| CheckoutForm.Spread | Client/src/components/Checkout.jsx:41 | spreading `undefined` gives nothing, an object gives its fields, and a string gives a key for each character index |
| CheckoutForm.HandleInputChange | Client/src/components/Checkout.jsx:34-59 | an undotted name sets that top-level field only; a dotted name replaces only the object under its parent; a shown error for the name is blanked and no error key is added or removed |
| CheckoutForm.NestedChange | Client/src/components/Checkout.jsx:36-44 | `parent.child` sets exactly that part of the parent object and keeps its other parts and every other field |
| CheckoutForm.ChangeKeepsReadable | Client/src/components/Checkout.jsx:34-59 | typing into the page's own inputs keeps the form readable by `validateForm` |
| CheckoutForm.ValidateForm | Client/src/components/Checkout.jsx:61-106 | the form is valid iff no error is recorded iff every rule is met; only checked names get errors, each exactly when its rule fails |
| CheckoutForm.ValidateFormByField | Client/src/components/Checkout.jsx:65-102 | per input: each address part is required, the card number is required and must be 16 characters without spaces, the name is required, the expiry is required and must have the `NN/NN` shape, and the CVV is required and must be 3 characters; no message is blank |
| CheckoutForm.FirstRun | Client/src/components/Checkout.jsx:142-143 | the first run of 4 to 16 digits in a digit string: nothing below four digits, otherwise its first (up to) sixteen |
| CheckoutForm.FormatCardNumber | Client/src/components/Checkout.jsx:140-153 | the loop's result equals `CardNumberText`, the digits grouped by four |
| CheckoutForm.GroupedRemoveSpaces | Client/src/components/Checkout.jsx:145-149 | removing spaces from the grouped digits gives the digits back |
| CheckoutForm.GroupedDigits | Client/src/components/Checkout.jsx:145-149 | keeping the digits of the grouped text gives the digits back |
| CheckoutForm.GroupedLength | Client/src/components/Checkout.jsx:145-149 | the grouped text is the digits plus one space per group boundary |
| CheckoutForm.CardNumberShape | Client/src/components/Checkout.jsx:140-153 | with fewer than four digits the digits come back unchanged; from four on, removing spaces gives the first sixteen digits and the text is at most 19 characters |
| CheckoutForm.CardNumberIdempotent | Client/src/components/Checkout.jsx:140-153 | formatting a formatted number changes nothing |
| CheckoutForm.CardNumberPassesIff | Client/src/components/Checkout.jsx:140-153 | the formatted number passes the 16-digit rule exactly when at least sixteen digits were typed |
| CheckoutForm.FormatExpiry | Client/src/components/Checkout.jsx:155-161 | the formatted expiry has at most five characters |
| CheckoutForm.ExpiryDigits | Client/src/components/Checkout.jsx:155-161 | the formatted expiry keeps exactly the first four digits typed |
| CheckoutForm.ExpiryShapeIff | Client/src/components/Checkout.jsx:155-161 | the formatted expiry has the `NN/NN` shape exactly when four digits were typed |
| CheckoutForm.ExpiryIdempotent | Client/src/components/Checkout.jsx:155-161 | formatting a formatted expiry changes nothing |
| CheckoutForm.FormattedCardFieldsValidate | Client/src/components/Checkout.jsx:82-96 | after the formatting inputs, the card-number rule passes iff sixteen digits were typed and the expiry rule iff four were |
| AuthStore.RolesNest | Client/src/stores/authStore.js:190-217 | every admin is a seller and every seller a customer; `hasAnyRole` of one role is `hasRole`; without a user every predicate is false |
| AuthStore.DisplayNameOf | Client/src/stores/authStore.js:220-223 | empty exactly without a user; otherwise first name, one space, last name |
| AuthStore.Store.constructor | Client/src/stores/authStore.js:9-13 | no user, no token, not loading and not authenticated |
| AuthStore.Store.Rehydrate | Client/src/stores/authStore.js:230-236 | exactly the persisted user, token and flag come back; loading is not persisted |
| AuthStore.Store.Initialize | Client/src/stores/authStore.js:16-44 | a stored token that passes the local check signs in with the verified user, or is forgotten and signs out; otherwise only loading ends |
| AuthStore.Store.Login | Client/src/stores/authStore.js:47-77 | accepted: user, token and stored token set, authenticated; rejected: the session is unchanged and the error is the server's message or "Login failed"; loading ends either way |
| AuthStore.Store.Register | Client/src/stores/authStore.js:80-110 | as `login`, with "Registration failed" |
| AuthStore.Store.Logout | Client/src/stores/authStore.js:113-131 | whatever the server answers: no user, no token, stored token removed, not authenticated |
| AuthStore.Store.UpdateUser | Client/src/stores/authStore.js:152-154 | replaces the user and nothing else |
| AuthStore.Store.ApplyUserUpdate | Client/src/stores/authStore.js:134-187 | accepted: the user is replaced and returned; refused: nothing changes and the error is the message or the fallback |
| AuthStore.ChangePassword | Client/src/stores/authStore.js:157-169 | succeeds iff the server accepts; the store is untouched; the error is never blank and is the server's message when it sent one |
| AuthStore.MessageOrFallback | Client/src/stores/authStore.js:144-182 | the fallback is used exactly when the server sent no message text (or sent the fallback itself) |
| AuthStore.LogoutThenLogin | Client/src/stores/authStore.js:47-131 | signing out then in leaves exactly the new user and token persisted, whatever came before |
| AuthContext.AtMostOneFlag | Client/src/context/AuthContext.jsx:25-27 | at most one of the three role flags holds |
| AuthContext.ReducePreservesFlags | Client/src/context/AuthContext.jsx:6-50 | the initial state and every action keep each flag equal to its exact-role test, and authenticated implies a user |
| AuthContext.ActionEffects | Client/src/context/AuthContext.jsx:15-50 | LOGIN_SUCCESS signs in and ends loading; LOGOUT clears user and flags; UPDATE_USER keeps the authenticated and loading flags; SET_LOADING changes only loading; unknown actions change nothing |
| AuthContext.MissingRoleNoFlags | Client/src/context/AuthContext.jsx:25-27 | a signed-in user without a `role` gets no role flag |
| AuthContext.FlagsAgainstStore | Client/src/context/AuthContext.jsx:25-27 | against the store's predicates: the admin flags agree; `isSeller` is false for an admin, where the store says seller; `isCustomer` is false for sellers and admins, where the store says customer |
| AuthContext.MessageOr | Client/src/context/AuthContext.jsx:86-133 | the server's non-empty message wins; a non-empty fallback otherwise |
| AuthContext.Initialize | Client/src/context/AuthContext.jsx:56-71 | loading always ends; with a stored non-empty token a fetched user signs in with flags matching its role and the token is kept, while a failed fetch removes the token and changes nothing else; without a token only loading ends |
| AuthContext.SignIn | Client/src/context/AuthContext.jsx:74-101 | succeeds iff the server accepts, then stores the token and signs in; a rejection leaves the session and reports the message or the fallback |
| AuthContext.LogoutCall | Client/src/context/AuthContext.jsx:104-113 | no token, no user, not authenticated, flags consistent |
| AuthContext.ChangePassword | Client/src/context/AuthContext.jsx:121-135 | succeeds iff the server accepts, carrying its message; a failure's error is never blank |
| AuthContext.SignInThenOut | Client/src/context/AuthContext.jsx:74-113 | login then logout is logout, and a rejected register leaves the session unchanged |
| PrivateRoute.Access | Client/src/components/PrivateRoute.jsx:5-56 | spinner iff loading; redirect to login iff settled and signed out; render iff settled, signed in, the single required role (when non-empty) matches and the role is in the required list (when non-empty) |
| PrivateRoute.PlainGuard | Client/src/components/PrivateRoute.jsx:5-56 | without role requirements the guard renders exactly for a settled signed-in view; an empty required role is no requirement |
| PrivateRoute.RoleRoutesMatchStore | Client/src/components/PrivateRoute.jsx:59-69 | for a signed-in view, the admin, seller and customer routes render exactly where the store's `isAdmin`, `isSeller` and `isCustomer` hold, and they nest |
| PrivateRoute.StoreGuard | Client/src/components/PrivateRoute.jsx:5-69 | on a valid store, a render implies a user and a token, and a seller or customer route render implies the store's predicate |
| SignupForm.EmailMatchesSound | Client/src/components/Signup.jsx:185-188 | every string the direct reading accepts matches the email pattern |
| SignupForm.EmailMatchesComplete | Client/src/components/Signup.jsx:185-188 | every string the email pattern matches is accepted by the direct reading |
| SignupForm.EmailMatchesIff | Client/src/components/Signup.jsx:185-188 | the direct reading accepts exactly the strings the pattern matches: local part, `@`, domain, a dot and two or more letters, case-insensitive |
| SignupForm.FirstLine | Client/src/components/Signup.jsx:217 | how far `.*` reaches: a prefix of the input with no line terminator |
| SignupForm.FirstFailing | Client/src/components/Signup.jsx:133-284 | none iff no rule rejects the value; otherwise the first rejecting rule, with every earlier rule passing |
| SignupForm.Rules | Client/src/components/Signup.jsx:133-284 | every input except a non-seller's business name starts with its "required" rule |
| SignupForm.Validate | Client/src/components/Signup.jsx:133-284 | an error exactly for each registered input whose rules fail, and the message is that of its first failing rule |
| SignupForm.NameRule | Client/src/components/Signup.jsx:133-163 | first and last name show an error iff they have fewer than two characters |
| SignupForm.EmailRule | Client/src/components/Signup.jsx:183-188 | the email shows an error iff it does not match the pattern |
| SignupForm.PasswordRule | Client/src/components/Signup.jsx:210-219 | the password shows an error iff it is shorter than 6 or lacks a lowercase letter, an uppercase letter or a digit on its first line |
| SignupForm.ConfirmRule | Client/src/components/Signup.jsx:247-250 | the confirmation shows an error iff it is empty or differs from the password |
| SignupForm.BusinessRule | Client/src/components/Signup.jsx:271-284 | the business name shows an error iff the seller account type is selected and the name is empty |
| SignupForm.EmptyShowsRequired | Client/src/components/Signup.jsx:133-284 | an empty registered input shows its "required" message, whatever its other rules |
| SignupForm.Payload | Client/src/components/Signup.jsx:41 | the payload is the form data minus `confirmPassword`, every other value unchanged |
| SignupForm.DefaultRoleSubmitted | Client/src/components/Signup.jsx:22-41 | the submitted role is `customer` unless another was entered |
| SignupForm.SubmittedAsWritten | Client/src/components/Signup.jsx:83-109 | the submitted values are the typed ones without `confirmPassword`, and their role is `customer` whichever account type is selected |
| SignupForm.Submitted | Client/src/components/Signup.jsx:37-43 | the submitted values are the typed ones without `confirmPassword`, with the selected account type as the role |
| SignupForm.SubmittedRoleIff | Client/src/components/Signup.jsx:83-109 | the submission as written equals the intended one exactly when the customer type is selected |
| UserModel.ParseRole | Server/models/User.js:27-31 | a missing role is `customer`; a given one is accepted iff it is one of the three names, and then read back unchanged |
| UserModel.RoleRoundTrip | Server/models/User.js:27-31 | every role's name parses back to that role |
| UserModel.LowerOfStable | Server/models/User.js:19 | lowercasing a string without capitals changes nothing |
| UserModel.LowerIsStable | Server/models/User.js:19 | lowercasing leaves no capital letters |
| UserModel.TrimKeepsStable | Server/models/User.js:19-20 | trimming a string without capitals leaves none |
| UserModel.NormalizeEmailIdempotent | Server/models/User.js:15-21 | storing a stored email again gives the same value, and a stored email has no capitals |
| UserModel.CartLineQuantity | Server/models/User.js:80-84 | a missing quantity is 1; a given one is accepted iff it is at least 1, and kept |
| UserModel.CreateUser | Server/models/User.js:4-96 | a registration passes the schema's validators iff the role is valid, the password has 6 characters, the trimmed names and the normalised email are non-empty, and sellers and admins give a business name; the stored user has the trimmed names, the normalised email, the submitted password and business name, the parsed role, and an empty cart and wishlist |
| UserModel.BusinessNameOnlyForSellersAndAdmins | Server/models/User.js:33-37 | with the other fields valid, a customer is stored without a business name, and a seller or admin is stored iff a non-empty one is given |
| UserModel.DisplayName | Server/models/User.js:117-119 | first name, one space, last name |
| UserModel.FirstSpace | Server/models/User.js:117-119 | the index of the first space, or none iff there is no space |
| UserModel.DisplayNameRoundTrip | Server/models/User.js:117-119 | cutting a display name at its first space gives back both names when the first name has no space |
| UserModel.DropPassword | Server/models/User.js:124-127 | removes exactly the `password` key and keeps every other key and value |
| UserModel.JsonHasNoPassword | Server/models/User.js:122-128 | a serialised user never has a `password` key and keeps `displayName` |
| ReviewModel.ValidateReview | Server/models/Review.js:19-36 | accepted iff the rating lies in 1..5 and the trimmed title and content are non-empty and at most 100 and 2000 characters; the stored texts are trimmed |
| ReviewModel.ValidateReviewStable | Server/models/Review.js:25-36 | saving stored values again accepts them and changes nothing |
| ReviewModel.AddUnique | Server/models/Review.js:113-128 | the user is present afterwards; the list is unchanged when the user was present, otherwise the user is appended |
| ReviewModel.Without | Server/models/Review.js:121 | exactly the other users remain, and the list never grows |
| ReviewModel.AddUniqueKeepsNoDuplicates | Server/models/Review.js:112-117 | adding keeps the list free of duplicates |
| ReviewModel.WithoutKeepsNoDuplicates | Server/models/Review.js:120-123 | removing keeps the list free of duplicates |
| ReviewModel.WithoutAbsent | Server/models/Review.js:120-123 | removing an absent user changes nothing |
| ReviewModel.WithoutLength | Server/models/Review.js:120-123 | on a duplicate-free list, removing shortens by one exactly when the user was present |
| ReviewModel.MarkThenRemove | Server/models/Review.js:112-123 | marking then unmarking equals unmarking, and undoes a fresh mark entirely |
| ReviewModel.WithoutAppend | Server/models/Review.js:120-123 | removing a user appended at the end equals removing it from the list before |
| ReviewModel.Review.constructor | Server/models/Review.js:19-88 | a new review stores the trimmed title and content, status `pending`, and no helpful or flagging users |
| ReviewModel.Review.MarkHelpful | Server/models/Review.js:112-117 | the helpful users gain the user once; the count is the list length and is unchanged on a repeat; nothing else changes |
| ReviewModel.Review.RemoveHelpful | Server/models/Review.js:120-123 | every occurrence of the user is removed and the count drops by one exactly when it was present; nothing else changes |
| ReviewModel.Review.FlagReview | Server/models/Review.js:126-132 | the user and the reason are appended together once per user, and the count is the users' length |
| ReviewModel.AgeOf | Server/models/Review.js:101-108 | days below 30, whole months of 30 days below 365 (1 to 12), whole years of 365 days beyond |
| ReviewModel.ReviewAgeReadsBack | Server/models/Review.js:101-108 | the label starts with the amount in decimal and a space, and those digits read back as the amount |
| ReviewModel.ReviewAgeDayExamples | Server/models/Review.js:101-102 | 1 gives "1 day ago" and 0 gives "0 days ago" |
| ReviewModel.ReviewAgeLongerExamples | Server/models/Review.js:103-108 | 45 gives "1 month ago", 364 "12 months ago" and 730 "2 years ago" |
| OrderModel.StatusName | Server/models/Order.js:112-116 | every status is stored as one of the seven listed names |
| OrderModel.ParseStatus | Server/models/Order.js:112-116 | accepts exactly the seven listed names, each as the status of that name |
| OrderModel.StatusNameRoundTrip | Server/models/Order.js:112-116 | names and statuses correspond one to one |
| OrderModel.StatusLabel | Server/models/Order.js:177-185 | every status has a non-empty label |
| OrderModel.DisplayStatus | Server/models/Order.js:176-187 | a listed status shows its label; anything else shows as stored, since no label is empty |
| OrderModel.LabelsDistinct | Server/models/Order.js:177-185 | distinct statuses show distinct labels |
| OrderModel.StampOf | Server/models/Order.js:143-146 | only confirmed, shipped, delivered and cancelled have a timestamp field |
| OrderModel.StampsExtensional | Server/models/Order.js:143-146 | timestamps agreeing on every stage are equal |
| OrderModel.Stamp | Server/models/Order.js:199-212 | a staged status sets its own timestamp to now and no other; pending, processing and refunded set none |
| OrderModel.ApplyStatus | Server/models/Order.js:190-213 | the status becomes the new one; exactly one entry (status, note, updatedBy) is appended after the kept history; the timestamps change as `Stamp` says |
| OrderModel.Entries | Server/models/Order.js:192-196 | one history entry per update, in order |
| OrderModel.HistoryAppendOnly | Server/models/Order.js:192-196 | after any run of updates the history is the old history followed by one entry per update |
| OrderModel.LastEntryIsStatus | Server/models/Order.js:191-196 | after at least one update, the last history entry records the current status |
| OrderModel.StampPresence | Server/models/Order.js:199-212 | a stage's timestamp is present after a run iff it was before or some update entered that stage |
| OrderModel.GeneratedNumber | Server/models/Order.js:167-171 | the generated order number starts with `ORD-` and has the clock and random parts after it |
| OrderModel.SaveAsWritten | Server/models/Order.js:4-8 | validation before the hook: a save succeeds iff the number is present and every minimum holds, and keeps the given number |
| OrderModel.NewOrderRefusedAsWritten | Server/models/Order.js:4-8 | a document without a number is refused, whatever its lines and summary |
| OrderModel.NewOrderRefusedExample | Server/models/Order.js:4-8 | a concrete order meeting every minimum is refused only for its missing number |
| OrderModel.SaveNumbered | Server/models/Order.js:166-173 | the hook before validation: a missing number is replaced by the generated one, and the save succeeds iff the resulting number is non-empty and every minimum holds |
| OrderModel.NewOrderNumbered | Server/models/Order.js:166-173 | a new document is saved under its generated number iff its minimums hold; a document with a number saves the same either way |
| OrderModel.Order.constructor | Server/models/Order.js:112-116 | a new order is pending with no history, no timestamps and no tracking |
| OrderModel.Order.UpdateStatus | Server/models/Order.js:190-213 | the status log becomes `ApplyStatus` of the old one, and every other field is kept |
| Orders.TrimmedAddressSound | Server/routes/orders.js:11-16 | the trimmed address is a fixed point of the sanitizers, and a valid request stores no empty address field |
| Orders.LineCheck | Server/routes/orders.js:57-70 | a line passes iff its book exists, is active and can supply the quantity; it is "no longer available" exactly when the book is missing or inactive (corrected; see Findings) |
| Orders.Discount | Server/routes/orders.js:80 | zero without an original price; non-negative when the original price is at least the price |
| Orders.Snapshot | Server/routes/orders.js:72-82 | the order line copies book, seller, quantity and current price, with subtotal price times quantity and the discount rule |
| Orders.PlanStep | Server/routes/orders.js:53-91 | one more line either fails with its own reason or extends the plan by its snapshot, its subtotal and its decrement |
| Orders.PlanPrefixFailure | Server/routes/orders.js:53-70 | once a prefix of the cart fails, the whole cart fails with the same reason |
| Orders.PlanFailsIffBlocked | Server/routes/orders.js:53-91 | checkout planning fails iff some line is blocked, and then with the reason of the first blocked line |
| Orders.PlanMatchesCart | Server/routes/orders.js:72-82 | a successful plan has one snapshot per cart line in order, and its subtotal is the cart summary's subtotal |
| Orders.PlannedUpdatesSound | Server/routes/orders.js:84-90 | decrements are planned only for physical books, with newStock = stock - quantity, which is never negative |
| Orders.CheckoutPlan | Server/routes/orders.js:21-117 | an invalid request is 400 "validation failed"; an empty cart is 400; a success is the line plan, whose lines and summary meet the schema minimums (corrected; see Findings) |
| Orders.SaveAcceptsSanePrices | Server/routes/orders.js:21-117 | with non-negative prices not above their original prices and positive quantities, a valid non-empty checkout fails iff some line is blocked |
| Orders.CheckoutSavesNumbered | Server/routes/orders.js:117 | once request, cart and lines pass, checkout succeeds iff the intended save stores the order under its generated number, and otherwise fails with that save's error |
| Orders.PlanDocumentValid | Server/models/Order.js:25-60 | under the same conditions, every planned line and the summary meet the schema's `min` constraints |
| Orders.DiscountBelowZeroRefused | Server/routes/orders.js:80-117 | a book priced above its original price makes the discount negative, and the save refuses the order |
| Orders.ApplyUpdatesEffect | Server/routes/orders.js:119-124 | the corrected decrements take each book's planned quantity off its stock and add it to its sales; no book appears or disappears |
| Orders.RestockEffect | Server/routes/orders.js:349-357 | restocking adds each physical book's ordered quantity back to stock and takes it off sales; digital books are untouched |
| Orders.PlanQuantities | Server/routes/orders.js:84-90 | the plan takes from each physical book exactly what its lines order, and nothing from digital books |
| Orders.CancelUndoesCheckout | Server/routes/orders.js:349-357 | cancelling right after checkout gives every book back its stock and sales |
| Orders.NewStockReached | Server/routes/orders.js:86-89 | in a cart with one line per book, each decremented book ends at the newStock its record planned |
| Orders.PlannedLineForUpdate | Server/routes/orders.js:84-90 | every planned decrement comes from a cart line with that book and quantity |
| Orders.SingleLineQuantity | Server/routes/orders.js:84-90 | when only one line orders a book, the ordered quantity of that book is that line's |
| Orders.NoLineQuantity | Server/routes/orders.js:84-90 | a book no line orders has ordered quantity zero |
| Orders.PlannedRecordAsWritten | Server/routes/orders.js:86-89 | the planned record holds `bookId` and `newStock` and no `quantity` key |
| Orders.RecordsAsWritten | Server/routes/orders.js:84-90 | one record per planned decrement, in order |
| Orders.AsWrittenStockUnchanged | Server/routes/orders.js:120-124 | as written, the decrement loop never changes a book |
| Orders.StockDecrementDiscrepancy | Server/routes/orders.js:86-122 | stock 5 and a line for 2 plan newStock 3; the corrected decrement reaches 3, the loop as written leaves 5 |
| Orders.AsWrittenRefusesEveryCart | Server/routes/orders.js:36-57 | as written, every non-empty cart is refused as no longer available; reading `isActive`, a cart whose lines all pass plans successfully |
| Orders.UpdateImpliesView | Server/routes/orders.js:229-284 | whoever may update an order may view it; a customer may view only as owner and never update |
| Orders.StatusDecision | Server/routes/orders.js:263-291 | accepted iff the status is one of the seven, the order exists and the caller is an admin or a seller of one of its lines; otherwise 400, 404 or 403 in that order; the current status is not an input |
| Orders.NewTracking | Server/routes/orders.js:297-302 | the tracking number and carrier change only when provided |
| Orders.CancelDecision | Server/routes/orders.js:334-347 | allowed iff the caller owns the order and it is pending or confirmed; otherwise 403 for a non-owner, then 400 |
| Orders.BuildPlan | Server/routes/orders.js:53-91 | the validation loop returns exactly `PlanLines` of the cart (corrected; see Findings) |
| Orders.ApplyStock | Server/routes/orders.js:119-124 | the decrement loop leaves the books equal to `ApplyUpdates` of the plan (corrected; see Findings) |
| Orders.RestoreStock | Server/routes/orders.js:349-357 | the restore loop leaves the books equal to `Restock` of the order's lines |
| Orders.DecidePlan | Server/routes/orders.js:23-117 | the route's checks in order give exactly `CheckoutPlan` (corrected; see Findings) |
| Orders.Checkout | Server/routes/orders.js:21-128 | a refusal changes neither stock nor cart; a success creates a new pending order with the planned lines, the shared summary and the trimmed address, applies the decrements and empties the cart (corrected; see Findings) |
| Orders.Cancel | Server/routes/orders.js:322-360 | 404, 403 and 400 refusals change nothing; otherwise the physical quantities go back to stock and the order is cancelled with "Cancelled by customer" |
| Orders.UpdateStatusRoute | Server/routes/orders.js:258-304 | a refusal changes nothing; otherwise the log advances by exactly one update, tracking fields change only when provided, and the items are kept |
| ServerCart.FindBook | Server/routes/cart.js:134-136 | the first line for the book, or none iff no line has it |
| ServerCart.FindItem | Server/routes/cart.js:201-208 | the line with the subdocument id, or none iff no line has it |
| ServerCart.AddLine | Server/routes/cart.js:103-159 | a quantity below 1 is a validation failure; a missing or inactive book is 404; success iff the book can supply both the requested and the merged quantity, and any other refusal of an active book is 400 "only N available" with its stock; an existing line is merged in place, otherwise one line with the quantity (default 1) is appended |
| ServerCart.AddKeepsInvariant | Server/routes/cart.js:134-159 | adding keeps quantities at least 1, one line per book and distinct line ids |
| ServerCart.UpdateLine | Server/routes/cart.js:193-227 | a missing or non-positive quantity is 400, an unknown line 404; an inactive or missing book is 404 and too little stock is 400 "only N available" with its stock; success iff the line's book is active and can supply the quantity, and then only that line's quantity changes |
| ServerCart.UpdateKeepsInvariant | Server/routes/cart.js:193-227 | updating keeps the cart invariant |
| ServerCart.RemoveAt | Server/routes/cart.js:261 | drops the line at one position and keeps the others in order |
| ServerCart.RemoveLine | Server/routes/cart.js:252-261 | 404 iff no line has the id; otherwise exactly the first line with that id goes and every other line stays, in order |
| ServerCart.RemoveKeepsInvariant | Server/routes/cart.js:252-261 | removing keeps the cart invariant, and the removed id is gone |
| ServerCart.MoveToWishlist | Server/routes/cart.js:303-320 | 404 iff no line has the id; otherwise the book joins the wishlist only if absent, and the line leaves the cart as in remove |
| ServerCart.GetCart | Server/routes/cart.js:35-86 | the pass over the cart yields the views of the kept lines, the shared pricing of their subtotal, their quantity total, and an unavailability flag that holds iff some kept physical line asks for more than the stock (corrected; see Findings) |
| ServerCart.CountBoundsListed | Server/routes/cart.js:358-377 | the `/count` badge is at least the summary's item count, and the two agree iff every line's book is listed |
| ServerCart.SubtotalNonNegative | Server/routes/cart.js:47-49 | with non-negative prices and positive quantities the subtotal is non-negative |
| ServerCart.SubtotalAsWrittenAgrees | Server/routes/cart.js:18-37 | the subtotal with the filter as written equals the corrected one when every existing book is active; the filter as written keeps exactly the existing books |
| ServerCart.InactiveBookStillCharged | Server/routes/cart.js:20-36 | a deactivated book at 10 with a line for 2 is still charged 20 by the filter as written, and dropped when `isActive` is read |
| ServerCart.Account.constructor | Server/models/User.js:75-93 | a new user has an empty cart and wishlist |
| ServerCart.Account.Add | Server/routes/cart.js:101-161 | the cart becomes `AddLine` of the old one on success and is unchanged on refusal; the wishlist is kept and the invariant holds |
| ServerCart.Account.Update | Server/routes/cart.js:188-230 | the cart becomes `UpdateLine` of the old one on success and is unchanged on refusal |
| ServerCart.Account.Remove | Server/routes/cart.js:247-262 | the cart becomes `RemoveLine` of the old one on success (only the named line removed, the rest in order) and is unchanged on refusal; the wishlist is kept |
| ServerCart.Account.Clear | Server/routes/cart.js:279-281 | the cart is empty and the wishlist kept |
| ServerCart.Account.MoveToWishlistRoute | Server/routes/cart.js:298-321 | cart and wishlist become `MoveToWishlist` of the old ones on success, and are unchanged on refusal |
| CartRoutes.Requested | Server/routes/cartRoutes.js:32-34 | `quantity \|\| 1`: an absent or zero quantity becomes 1, any other quantity is kept |
| Types.FirstWithBook | Server/routes/cartRoutes.js:30 | the first line for the book, or none iff no line has it (also `getCartItem`'s `find`, Client/src/stores/cartStore.js:251) |
| CartRoutes.RemoveBook | Server/routes/cartRoutes.js:49 | the filter keeps exactly the lines for other books and never grows the cart |
| CartRoutes.AddItemEffect | Server/routes/cartRoutes.js:30-35 | adding puts `q` more copies in the cart, leaves a line for the book, keeps one line per book, and adds a line only when the book was absent |
| CartRoutes.AddKeepsValid | Server/models/cart.js:10-15 | adding a positive quantity keeps the schema's minimum of 1 |
| CartRoutes.RemoveBookIdempotent | Server/routes/cartRoutes.js:49 | removing a book twice is the same as removing it once |
| CartRoutes.RemoveAbsentBook | Server/routes/cartRoutes.js:49 | removing a book the cart does not hold changes nothing |
| CartRoutes.RemoveBookAppend | Server/routes/cartRoutes.js:49 | the filter distributes over concatenation |
| CartRoutes.AddThenRemove | Server/routes/cartRoutes.js:30-49 | adding a book the cart lacks and then removing it gives the cart back |
| CartRoutes.RemoveKeepsValid | Server/models/cart.js:10-15 | removing keeps the schema's minimum |
| CartRoutes.RemoveKeepsOnePerBook | Server/routes/cartRoutes.js:49 | removing keeps one line per book |
| CartRoutes.RemoveKeepsInvariants | Server/routes/cartRoutes.js:49 | removing keeps both the minimum and one line per book |
| CartRoutes.CartCollection.constructor | Server/models/cart.js:18-27 | no owner has a cart yet |
| CartRoutes.CartCollection.Get | Server/routes/cartRoutes.js:8-14 | an existing cart is returned unchanged; a missing one is created empty and returned |
| CartRoutes.CartCollection.Add | Server/routes/cartRoutes.js:22-37 | an unknown book is 404 with nothing changed; otherwise the cart (created if missing) becomes the merge-or-push result when every quantity stays at least 1, and a failing save answers 500 but keeps the created cart |
| CartRoutes.CartCollection.Remove | Server/routes/cartRoutes.js:44-51 | 404 with nothing changed without a cart; otherwise every line for the book goes and the rest stay in order |
| CartRoutes.CartCollection.Checkout | Server/routes/cartRoutes.js:58-65 | 404 with nothing changed without a cart; otherwise that owner's items are emptied and every other cart is kept |
| CartContext.AddQuantity | Client/src/context/CartContext.jsx:27-31 | every line of the book gains the added quantity, every other line is kept, and the length is unchanged |
| CartContext.SetQuantity | Client/src/context/CartContext.jsx:46-50 | every line of the book takes the new quantity, every other line is kept, and the length is unchanged |
| CartContext.Drop | Client/src/context/CartContext.jsx:57 | the filter keeps exactly the lines of other books and never grows the cart; with `DropCount` and `DropPrepend`, each other line is kept as often as before and in its order |
| CartContext.DropCount | Client/src/context/CartContext.jsx:57 | the result holds no line of the book and each other line exactly as often as the cart did |
| CartContext.DropPrepend | Client/src/context/CartContext.jsx:57 | filtering a cart with one more line in front keeps that line first iff it is for another book, then the filtered rest: the kept lines stay in order |
| CartContext.EditsRecomputeTotal | Client/src/context/CartContext.jsx:24-68 | after ADD_ITEM, UPDATE_QUANTITY, REMOVE_ITEM or CLEAR_CART the total is the sum of price times quantity over the items, from any state; SET_LOADING and unknown actions keep a consistent total |
| CartContext.SetCartDefaults | Client/src/context/CartContext.jsx:17-23 | SET_CART takes the payload's items and total, reading a missing one as empty or 0, and ends loading; an empty payload gives the initial state |
| CartContext.FlagsAndClear | Client/src/context/CartContext.jsx:15-70 | SET_LOADING changes only the flag, CLEAR_CART empties items and total and keeps the flag, an unknown action returns the state |
| CartContext.TotalAppend | Client/src/context/CartContext.jsx:42 | the reduce over a concatenation is the sum of the two reduces |
| CartContext.DropAbsent | Client/src/context/CartContext.jsx:57 | removing a book no line has keeps the items |
| CartContext.DropAppend | Client/src/context/CartContext.jsx:57 | the filter applied to a cart with one more line drops that line iff it is the book's |
| CartContext.AddNewThenRemove | Client/src/context/CartContext.jsx:37-62 | adding a new book appends its line and raises the total by its cost; removing it again restores both items and total |
| CartContext.AddPresentKeepsLines | Client/src/context/CartContext.jsx:25-36 | adding a book already present keeps the line count and every line's book |
| CartContext.RemoveIdempotent | Client/src/context/CartContext.jsx:57 | after REMOVE_ITEM no line has the book, and removing twice equals removing once |
| CartStore.RecomputeIsServerFormula | Client/src/stores/cartStore.js:102-106 | the summary the store recomputes after an edit has the same subtotal, tax, shipping and total as the server's pricing of the same subtotal |
| CartStore.FromViews | Client/src/stores/cartStore.js:30-35 | a fetched cart holds one client line per line of the server's answer |
| CartStore.ViewsListed | Server/routes/cart.js:35-66 | every line of the server's answer is for a listed book |
| CartStore.FromViewsAppend | Client/src/stores/cartStore.js:30-35 | one more line in the server's answer gives one more client line at the end |
| CartStore.ViewsStep | Server/routes/cart.js:35-66 | the server's pass adds a view for the last cart line iff that line's book is listed |
| CartStore.FetchedStep | Client/src/stores/cartStore.js:30-35 | the client lines of a fetched cart grow by the last cart line iff its book is listed |
| CartStore.FetchedSubtotal | Client/src/stores/cartStore.js:103 | summing the fetched lines' subtotals gives the server's subtotal |
| CartStore.FetchedCount | Client/src/stores/cartStore.js:102 | summing the fetched lines' quantities gives the server's item count |
| CartStore.FetchedPriced | Client/src/stores/cartStore.js:97 | every fetched line's subtotal is its price times its quantity |
| CartStore.FetchedAgreesWithServer | Client/src/stores/cartStore.js:102-117 | recomputing the summary of a freshly fetched cart gives the server's money summary and item count |
| CartStore.WithQuantity | Client/src/stores/cartStore.js:95-99 | the lines with the id take the quantity and price times quantity as subtotal, keeping id, book and price; every other line is kept |
| CartStore.WithoutId | Client/src/stores/cartStore.js:144 | the filter keeps exactly the lines with another id and never grows the cart; with `WithoutIdCount` and `WithoutIdPrepend`, each other line is kept as often as before and in its order |
| CartStore.WithoutIdCount | Client/src/stores/cartStore.js:144 | the result holds no line with the id and each other line exactly as often as the cart did |
| CartStore.WithoutIdPrepend | Client/src/stores/cartStore.js:144 | filtering a cart with one more line in front keeps that line first iff its id differs, then the filtered rest: the kept lines stay in order |
| CartStore.AddToBook | Client/src/stores/cartStore.js:262-266 | each line of the book gains the quantity and is priced at the given price; every other line is kept |
| CartStore.AddToBookCount | Client/src/stores/cartStore.js:262-280 | the merge raises the item count by the quantity once for each line of the book |
| CartStore.LinesForPositive | Client/src/stores/cartStore.js:258 | a book found in the cart has at least one line |
| CartStore.LinesForZero | Client/src/stores/cartStore.js:258 | a book not found in the cart has no line |
| CartStore.QuickAddedCount | Client/src/stores/cartStore.js:257-280 | with at most one line for the book, the optimistic add raises the item count by exactly the quantity |
| CartStore.QuickAddedPriced | Client/src/stores/cartStore.js:262-276 | the optimistic add keeps every line priced when the book's lines carry the given price |
| CartStore.UpdateKeepsPriced | Client/src/stores/cartStore.js:95-99 | updating a quantity keeps every line priced |
| CartStore.Store.constructor | Client/src/stores/cartStore.js:10-22 | the store starts with the empty cart and both flags off |
| CartStore.Store.FetchCart | Client/src/stores/cartStore.js:25-59 | success iff the request succeeded; the server's cart replaces the local one, a 401 empties it, any other failure keeps it; loading ends |
| CartStore.Store.AddToCart | Client/src/stores/cartStore.js:63-83 | success iff the add succeeded, whatever the refetch gives; a refused add changes no cart; an accepted one leaves the cart as the refetch does |
| CartStore.Store.UpdateCartItem | Client/src/stores/cartStore.js:87-132 | on success the cart's lines are updated and the summary recomputed from them, keeping the availability flag; on failure the cart is kept |
| CartStore.Store.RemoveFromCart | Client/src/stores/cartStore.js:136-177 | on success the id's lines go and the summary is recomputed with the availability flag cleared; on failure the cart is kept |
| CartStore.Store.ClearCart | Client/src/stores/cartStore.js:181-211 | on success the cart is the empty cart; on failure it is kept |
| CartStore.Store.MoveToWishlist | Client/src/stores/cartStore.js:215-233 | success iff the move succeeded, even when the following removal fails; the cart changes only when both succeed |
| CartStore.Store.QuickAddToCart | Client/src/stores/cartStore.js:255-301 | the optimistic cart is written first and stays when the add is refused or the refetch fails without 401; otherwise the refetch decides |
| CartStore.Store.ResetCart | Client/src/stores/cartStore.js:305-321 | the cart is empty and both flags are off |
| CartStore.Store.CartCount | Client/src/stores/cartStore.js:237-240 | the badge count is the summary's item count |
| CartStore.Store.CartItem | Client/src/stores/cartStore.js:243-252 | a line is found iff the book is in the cart, and it is the first line for the book |
| CartStore.CountAfterEdit | Client/src/stores/cartStore.js:102-106 | after a local edit the badge count is the sum of the line quantities |
| CartStore.EmptySummaryVsFormula | Client/src/stores/cartStore.js:12-19 | the formula charges an empty cart 5.99 shipping, while the store's empty summary shows 0 |
| Catalog.Matching | Server/routes/books.js:37-95 | the listing holds exactly the books the filter selects, in catalog order |
| Catalog.EmptyQueryListsActive | Server/routes/books.js:37 | with no query parameter a book is listed iff it is active |
| Catalog.ListingOnlyActive | Server/routes/books.js:37 | no query ever lists an inactive book |
| Catalog.PriceBoundsInclusive | Server/routes/books.js:43-47 | `minPrice` adds exactly the inclusive lower bound and `maxPrice` exactly the inclusive upper bound |
| Catalog.InStockFilter | Server/routes/books.js:61-66 | `inStock=true` adds exactly "digital or stock above 0"; any other value is ignored |
| Catalog.FeaturedAndCategory | Server/routes/books.js:39-59 | `featured=true` adds exactly "featured"; category `all` or empty means no category filter |
| Catalog.SortOf | Server/routes/books.js:30-87 | descending iff the order is absent or `desc`, ascending otherwise; an absent or unknown sort name sorts by creation date |
| Catalog.SortNameRoundTrip | Server/routes/books.js:72-87 | each sort key is selected by its own request name |
| Catalog.Paginate | Server/routes/books.js:103-119 | the page count is the ceiling of total over limit (0 iff no match); there is a next page iff the page is below the count and a previous one iff it is above 1 |
| Catalog.HasNextIffMoreItems | Server/routes/books.js:117 | there is a next page iff this page and the ones before it hold fewer items than the total |
| Catalog.Window | Server/routes/books.js:92-99 | the skip-and-limit window never holds more than `limit` books |
| Catalog.PageOfPosition | Server/routes/books.js:92 | the match at position `i` lies within the skip block of page `i / limit + 1` |
| Catalog.EveryItemOnItsPage | Server/routes/books.js:92-103 | every match appears on the page its position gives, and that page is within the page count |
| Catalog.ListPage | Server/routes/books.js:20-131 | the request fails with a server error exactly when the page is below 1 or a category or author pattern does not compile, and otherwise succeeds; given the catalog in the order `.sort(sortObj)` yields, the page is exactly the skip-and-limit window of the sorted matches, it keeps that order, holds at most `limit` books, each an active catalog book the filter selects, and the pagination is computed from the number of matches in the unsorted catalog |
| Catalog.MatchingCountPermutation | Server/routes/books.js:100-101 | `countDocuments(filter)` counts the same matches whatever order the catalog is in, so the total agrees with the sorted query |
| Catalog.MatchingKeepsOrder | Server/routes/books.js:94-99 | filtering a catalog already in sort order leaves the matches in that order |
| Catalog.Lookup | Server/routes/books.js:138-146 | found iff the id exists and the book is active, and then it is that book; otherwise not found |
| Catalog.CopyAllowed | Server/routes/books.js:243-256 | the updates hold exactly the body's whitelisted keys, with the body's values |
| Catalog.UpdateKeepsProtectedFields | Server/routes/books.js:243-260 | no body can change the seller, sales counter, rating or creation date; a numeric price and an integer stock in the body are written |
| Catalog.EmptyUpdateIsIdentity | Server/routes/books.js:251-260 | an update with no whitelisted key leaves the book as it was |
| Catalog.UpdateBook | Server/routes/books.js:225-262 | unknown id is 404 and anyone but an admin or the book's seller gets 403, both with nothing changed; otherwise only that book changes, to the book patched with the whitelisted body |
| Catalog.DeleteBook | Server/routes/books.js:282-300 | the same 404 and 403 with nothing changed; otherwise only that book changes, with `isActive` cleared |
| Catalog.SoftDeleteHides | Server/routes/books.js:299-300 | a soft-deleted book keeps every other field and its id, but GET /:id answers not found and no listing holds it |
| Catalog.ValidateNewBook | Server/routes/books.js:9-17 | a refusal is always a validation failure |
| Catalog.ValidateNewBookIff | Server/routes/books.js:9-17 | a new book is accepted iff the four text fields have a non-whitespace character, price and stock are non-negative numbers and the image URL is valid |
| Catalog.AdvancedFilter | Server/routes/books.js:429-482 | a missing or empty `q` is refused with 400; given `q`, a category pattern that does not compile ends in the 500, and otherwise the filter searches the text, has no author, featured or stock condition and builds only valid patterns |

## Left out

- UserModel.CreateUser: the unique index on `email` (Server/models/User.js:18) is database state and is not modelled. A second registration with an already-registered normalised email passes these validators, and the save still refuses it.
- Money is an exact `real`. The `parseFloat(x.toFixed(2))` rounding of the summaries is not modelled, nor is IEEE floating point.
- The database is a set of in-memory maps. `populate`, `find`, `countDocuments` and `findByIdAndUpdate` are not modelled as I/O. Each route reads and writes the maps directly.
- Mongoose projections are modelled only where they change a decision (`isActive` in the checkout and cart summary findings below).
- Mongo aggregation pipelines are not modelled: order statistics, the seller's sales summary and the distinct category list.
- The `$text` search and the case-insensitive regular expressions for category and author are abstract. A `Catalog.Matchers` value says which books they accept and which patterns `new RegExp` compiles; the regular-expression syntax itself is not modelled.
- Clocks and randomness: the clock and random parts of the order number (parameters of `OrderModel.GeneratedNumber`), `addedAt` and `temp-<time>` ids, and the values of the status timestamps. Only which timestamp field is set is modelled. `reviewAge` takes the day count as input.
- JWT signing and verification, and bcrypt hashing, are foreign libraries. Verification is a parameter of `AuthMiddleware.Protect`. The pre-save password hash is not modelled.
- Concurrency: each request runs alone. The read-then-write stock update can oversell under concurrent checkouts, and that is outside a sequential model.
- Toasts, `console` output and the async request lifecycle. Each client action receives whether its server call succeeded, and what came back.
- `authenticateToken`, `requireSeller`, `requireCustomer` and `optionalAuth` from `Server/middleware/auth` are not part of this model; that file is absent. The routes' own role checks are modelled.
- Text: whitespace, letters and case are ASCII only. Unicode whitespace in `trim` and `\s`, and Unicode case folding, are not modelled.
- Object keys that name JavaScript prototype properties are treated as ordinary map keys.
- Quantities are integers. A string or `NaN` quantity in a request body is not modelled: string concatenation by `+=`, and comparisons with `NaN`.
- Catalog.ListPage: requires `limit >= 1`. A zero, negative or non-numeric `limit` is not modelled; Mongo reads it as no limit, and the page count becomes `Infinity` or `NaN`. The order `.sort(sortObj)` produces is a parameter (`sorted`, a reordering of the catalog ordered by the key and direction `SortOf` picks, ties in any order); titles compare by character code, not by any collation.
- Catalog.Paginate: requires `limit >= 1`, for the same reason.
- Catalog.UpdateBook: a body value of the wrong type leaves the field as it was. Mongoose's casts and `runValidators` refusals, which answer 500, are not modelled.
- GET `/api/books/:id`: the view counter, the review list and the related books are not modelled. Only the not-found decision is (`Catalog.Lookup`).
- The seller's book listing, "my books" and "my orders" are not modelled: database listings with the pagination arithmetic already modelled.
- POST `/api/books` is modelled as its validation only. Saving the new document is database I/O.
- POST `/api/cart/apply-coupon` is a placeholder that always answers "not implemented". It has no rule to model.
- Orders.ApplyStock: for the stock-decrement finding, the as-written loop is modelled as leaving stock unchanged. Whether the driver drops the `NaN` increment or raises a cast error after the order was saved is not modelled.
- The review document's moderation `status` is not modelled beyond its default. No modelled operation reads or writes it.
- CheckoutForm.HandleInputChange: spreading a string into the nested object is modelled only as which keys appear, not as their character values.
- CheckoutForm.ValidateForm: requires `Readable`. Forms whose card fields hold objects, or that lack the address object, make `validateForm` throw, and that path is not modelled.
- The `maxLength` attributes of the card, expiry and CVV inputs are not modelled. The form's own rules are.
- `handleSubmit` and `createOrder` on the checkout page are not modelled: a request whose server side is `Orders.Checkout`.
- The signup form's mapping of server errors onto fields through `setError` is not modelled.
- `AuthStore`: `api.js` does not export the `tokenManager` that the store imports. The stored token is modelled as the store's `savedToken` field, and the local validity check is a parameter of `AuthStore.Store.Initialize`.
- `AuthStore`: `clearErrors` is not modelled. Its body is empty and changes no state.
- AuthContext.Reduce: LOGIN_SUCCESS and UPDATE_USER with an undefined user throw in the reducer, and that path is not modelled.
- The Firebase `AuthProvider`, and `useAuth` throwing outside its provider, are not modelled: foreign library and React plumbing.
- The `CartContext` provider's async actions (`fetchCart`, `addToCart`, `updateQuantity`, `removeFromCart`, `clearCart`) are HTTP calls followed by the dispatches modelled in `CartContext.Reduce`. Without a token, `fetchCart` returns early and leaves `isLoading` true.
- The zustand `persist` storage of the cart store is not modelled. The auth store's persisted subset is (`AuthStore.Store.Saved`).

## Findings

| source | as written | input that shows it | evidently intended | confidence | as-written member | corrected member |
|---|---|---|---|---|---|---|
| Server/routes/orders.js:86-122 | the decrement loop adds `-update.quantity`, but the planned records hold only `bookId` and `newStock` | a physical book with stock 5 and a cart line for 2: the plan says newStock 3, and the loop as written leaves 5 | each decremented book ends at its planned `newStock` = stock − quantity | high; not executed | Orders.StockDecrementDiscrepancy | Orders.NewStockReached |
| Server/routes/orders.js:36-57 | the cart's `populate` selects `bookTitle price originalPrice stock isDigital seller`, so `book.isActive` is `undefined` and `!book.isActive` refuses every line | any non-empty cart whose books are all active and in stock: answered 400 "no longer available" | refuse only lines whose book is missing or deactivated | high; not executed | Orders.AsWrittenRefusesEveryCart | Orders.PlanFailsIffBlocked |
| Server/routes/cart.js:18-37 | the GET summary's `populate` leaves out `isActive`, so `item.book.isActive !== false` keeps every existing book, deactivated ones included | a deactivated book at price 10 with a cart line for 2: charged 20 in the subtotal | lines of deactivated books leave the summary | high; not executed | ServerCart.InactiveBookStillCharged | ServerCart.GetCart |
| Server/models/Order.js:4-8 | `orderNumber` is `required`, but only the `pre('save')` hook (lines 166-173) fills it in, and the schema validates before user `pre('save')` hooks run | POST /create with any valid cart: the new document has no `orderNumber`, `order.save()` (Server/routes/orders.js:117) throws a validation error and the route answers 500 | number the order in a `pre('validate')` hook, or drop `required`, so the generated number is in place when validation runs | plausible (depends on the schema library's hook order); not executed | OrderModel.NewOrderRefusedAsWritten | Orders.CheckoutSavesNumbered |
| Client/src/components/Signup.jsx:83-109 | both account-type radios spread `register('role')` and then override its `onChange` with `setSelectedRole`, so the form value `role` never leaves its default | select "Seller", fill in every input and the business name: the registration request carries role `customer` | submit the selected account type as the role | plausible (depends on the form library's handling of an overridden `onChange`); not executed | SignupForm.SubmittedAsWritten | SignupForm.Submitted |
