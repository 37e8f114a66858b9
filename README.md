# ahia storefront API — a verified Dafny model

This project models the decision-making core of the ahia storefront: an HTTP API
(Hono on top of a relational store) that sells products, takes orders through a
hosted payment page, and reconciles those orders from the payment processor's
webhooks. The model covers these parts:

- **Checkout** (`Orders`). The user's cart is joined with the live product rows
  and validated item by item. The loop records a "product vanished" or
  "insufficient stock" error for each bad line and sums price × quantity for the
  good ones. Only the first error is reported, with status 422. A clean cart
  becomes one pending order whose line prices are frozen, plus a stock
  reservation. The store is the class `Orders.Shop`:
  - products with their (nullable) stock;
  - cart lines per user;
  - orders.

  Its invariant says that every order's rendered two-decimal total reads back
  as the exact sum of its lines.
- **Payment reconciliation** (`Stripe`):
  - a completed session marks the order completed and paid, and empties the
    owner's cart;
  - an expired session or a failed asynchronous payment marks it cancelled and
    failed, and puts each line's quantity back into stock;
  - the webhook endpoint checks the signature header, takes the processor
    library's verdict on the event, and dispatches on the event type.
- **Categories** (`Categories`). Names are unique ignoring case, and slugs are
  unique. The slug is found by a loop that tries `base`, `base-1`, `base-2`, …;
  on a rename it ignores the category's own row. A rename to an empty name, or
  to the same name ignoring case, changes nothing. A category with linked
  products cannot be deleted.
- **Authorization**:
  - the `checkRole` gate (`CheckRole`);
  - the static grant tables (`Permissions`);
  - the guard chains of the admin and superadmin routes (`AdminGuards`,
    `SuperadminGuards`).
- **Helpers**:
  - response envelopes, `parseJsonField` and `generatePassword` (`ApiUtils`);
  - the product-form schemas (`Schemas`);
  - the rate limiter's client key (`RateLimit`);
  - the web client's `getInitials` (`Initials`).

  `Text` holds the shared string helpers (ASCII case mapping, `trim`, decimal
  rendering, split and join); `Wrappers` holds `Option`.

Modelling decisions:

- **Money.** Prices are strings that match the product schema's pattern
  `^\d+(\.\d{2})?$`. They are read into exact cents by an independent scanner
  (`Schemas.ParsePrice`). `toFixed(2)` becomes `Schemas.FormatCents`. The source
  sums with `parseFloat`; the model sums exact cents.
- **Stock movements.** The bodies of `reserveStock` and `restoreStock` are not
  part of this model. They are modelled as subtracting (adding) each quantity:
  - a null stock stays null;
  - a product that no longer exists is skipped, as an SQL update of a missing
    row would be.
- **Side-effecting callees.** The payment processor and the authentication
  library become parameters or verdicts. A guard chain ends in
  `ApiUtils.Verdict`, which has three outcomes:
  - `Proceed`: go on to the library call;
  - `Invalid`: the request validator rejected the input, and its hook's reply is
    not modelled;
  - `Refuse(status, code, details)`.
- **Failed checkout session.** The checkout transaction's callback ignores its
  transaction handle. When opening the payment session fails, the model
  therefore keeps the order and the reservation, and answers 500
  "Failed to create order".
- **Webhook signature header.** A missing header is refused by the header
  validator. Only an empty header reaches the handler's own 400 "Missing Stripe
  signature in request headers".

## Model

| member | source | states |
|---|---|---|
| Orders.AvailableStock | apps/api/src/routes/orders/orders.route.ts:106 | a null stock counts as 0, otherwise the stock itself |
| Orders.ItemError | apps/api/src/routes/orders/orders.route.ts:97-113 | a line without a product is an INVALID_CART_STATE error "Product with ID \"<id>\" no longer exists"; a line with a product fails exactly when its quantity exceeds the available stock, with INSUFFICIENT_STOCK "Not enough stock for \"<name>\". Requested: <quantity>, Available: <stock>" |
| Orders.ValidateCart | apps/api/src/routes/orders/orders.route.ts:92-117 | the loop's error list is one error per failing line in cart order, and its total is price × quantity summed over the passing lines |
| Orders.FirstFailing | apps/api/src/routes/orders/orders.route.ts:95-117 | returns the earliest failing line: it fails and every line before it passes; None means every line passes |
| Orders.FirstErrorIsEarliest | apps/api/src/routes/orders/orders.route.ts:119-125 | the error list is empty iff no line fails, and the reported first error is the earliest failing line's |
| Orders.ValidTotalIsCartTotal | apps/api/src/routes/orders/orders.route.ts:93-117 | when no error is recorded every line has its product and the loop's total is price × quantity over the whole cart |
| Orders.OrderItems | apps/api/src/routes/orders/orders.route.ts:134-138 | the order lines are the cart lines in order, with the same product id and quantity and the product's price as unit price |
| Orders.OrderTotalOfCart | apps/api/src/routes/orders/orders.route.ts:116-141 | the frozen order lines add up to the cart total |
| Orders.CheckoutTotal | apps/api/src/routes/orders/orders.route.ts:116-141 | for a cart that passes, every line has its product and the rendered total reads back as the sum of the frozen order lines |
| Orders.AppendOrderValid | apps/api/src/routes/orders/orders.route.ts:128-141 | a new order numbered after the others whose total renders its lines' sum keeps every order's total consistent with its lines |
| Orders.ReplaceOrderValid | apps/api/src/routes/orders/orders.route.ts:191-196 | replacing an order by one with the same id, total and lines (binding the session, changing statuses) keeps that consistency |
| Orders.ReservationList | apps/api/src/routes/orders/orders.route.ts:144-147 | the reservation is exactly (productId, quantity) for every cart line, in order |
| Orders.Restock | apps/api/src/routes/stripe/stripe.route.ts:79-82 | the restoration list is exactly (productId, quantity) for every order line |
| Orders.RestockIsReservation | apps/api/src/routes/stripe/stripe.route.ts:79-84 | what a cancellation gives back is what the checkout reserved |
| Orders.ApplyAllStock | apps/api/src/routes/orders/orders.route.ts:150 | applying stock movements keeps the set of products and changes each product only in its stock, by the signed sum of that product's quantities (null stays null) |
| Orders.ReserveThenRestore | apps/api/src/routes/stripe/stripe.route.ts:76-84 | restoring the movements a reservation took gives back every stock exactly |
| Orders.RestoreTwice | apps/api/src/routes/stripe/stripe.route.ts:67-84 | restoring the same movements twice adds each product's quantity twice |
| Orders.NoOversellWithDistinctLines | apps/api/src/routes/orders/orders.route.ts:105-150 | with one line per product, a cart that passes validation leaves every reserved product with a non-null, non-negative stock |
| Orders.DuplicateLinesOversell | apps/api/src/routes/orders/orders.route.ts:105-150 | for any product with stock s and two lines for it with quantities q1, q2 ≤ s < q1 + q2, both lines pass the per-line check and the reservation leaves stock s − q1 − q2, which is negative |
| Orders.Shop.Snapshot | apps/api/src/routes/orders/orders.route.ts:82 | the cart query: present iff the user has a cart, one item per cart line, joined with the product row when it still exists |
| Orders.Shop.ReserveStock | apps/api/src/routes/orders/orders.route.ts:143-150 | the loop leaves the catalogue equal to the reservation applied to the old one; carts and orders unchanged |
| Orders.Shop.RestoreStock | apps/api/src/routes/stripe/stripe.route.ts:84 | the loop leaves the catalogue equal to the restoration applied to the old one; carts and orders unchanged |
| Orders.Shop.CreateCheckout | apps/api/src/routes/orders/orders.route.ts:77-232 | empty or absent cart: 400 INVALID_DATA, nothing written; a failing line: 422 with the earliest error, nothing written; otherwise one new pending order with total FormatCents(cart total), the frozen lines and the reservation applied; the session id is bound and 200 returned, or 500 with order and reservation kept when no session opens; the store invariant is kept |
| Orders.Shop.PlaceOrder | apps/api/src/routes/orders/orders.route.ts:128-202 | for a cart that passes: exactly one order appended, with the next id, the rendered cart total, the frozen lines and the session id when one opened; the catalogue is the reservation applied to the old one; carts unchanged; the store invariant kept |
| Orders.Shop.GetOrder | apps/api/src/routes/orders/orders.route.ts:56-65 | 200 with the order iff it exists and belongs to the requester; otherwise 404 "Order not found", the same for someone else's order as for a missing one |
| Stripe.PaymentMethodLabel | apps/api/src/routes/stripe/stripe.route.ts:43 | the first listed payment method type when present and non-empty, otherwise "card" |
| Stripe.FindBySession | apps/api/src/routes/stripe/stripe.route.ts:31-36 | the first order bound to the session, or None when no order is |
| Stripe.Complete | apps/api/src/routes/stripe/stripe.route.ts:39-44 | status completed, payment paid, payment method set; every other field unchanged |
| Stripe.Cancel | apps/api/src/routes/stripe/stripe.route.ts:76 | status cancelled, payment failed; every other field unchanged |
| Stripe.ClearCart | apps/api/src/routes/stripe/stripe.route.ts:47-50 | only the order owner's cart is emptied, and only when the owner id is non-empty |
| Stripe.AfterSuccess | apps/api/src/routes/stripe/stripe.route.ts:26-58 | the session's order becomes completed and paid with the session's payment method, every other order and every other field is unchanged, the owner's cart (non-empty owner id) is emptied and no other cart changes, stock is untouched; an unknown session changes nothing |
| Stripe.AfterFailure | apps/api/src/routes/stripe/stripe.route.ts:63-126 | the session's order becomes cancelled with a failed payment, every other order is unchanged, each product's stock grows by the quantity the order's lines name for it (null stays null), carts are untouched; an unknown session changes nothing |
| Stripe.HandleCheckoutSuccess | apps/api/src/routes/stripe/stripe.route.ts:26-58 | the store after the handler is AfterSuccess of the store before; the invariant is kept |
| Stripe.HandleCheckoutFailed | apps/api/src/routes/stripe/stripe.route.ts:63-126 | the store after either failure handler is AfterFailure of the store before; the invariant is kept |
| Stripe.HandleWebhook | apps/api/src/routes/stripe/stripe.route.ts:139-190 | missing header: validator rejection; empty header: 400 "Missing Stripe signature…"; failed verification or a store fault in a handler: 400 "Invalid webhook signature or payload"; otherwise 200 `{received: true}` with the store changed by the event type's handler, and left unchanged for any other type |
| Stripe.CheckoutThenExpiry | apps/api/src/routes/stripe/stripe.route.ts:79-84 | a checkout followed by the expiry of its session leaves every product's stock as it was before the checkout |
| Stripe.RedeliveredExpiry | apps/api/src/routes/stripe/stripe.route.ts:63-92 | the same expiry event delivered twice restores each quantity twice |
| Categories.Candidate | apps/api/src/routes/categories/categories.route.ts:106 | step 0 tries the base, step k > 0 tries base + "-" + k |
| Categories.CandidateInjective | apps/api/src/routes/categories/categories.route.ts:106 | different steps try different slugs |
| Categories.TriedSize | apps/api/src/routes/categories/categories.route.ts:105-114 | the first n steps try n distinct slugs |
| Categories.FirstFree | apps/api/src/routes/categories/categories.route.ts:105-114 | the search stops, within as many steps as there are taken slugs, at a free slug after a run of taken ones |
| Categories.FirstFreeIsLeast | apps/api/src/routes/categories/categories.route.ts:105-114 | the chosen slug is free, every earlier candidate is taken, and a free base is kept as is |
| Categories.ChooseSlug | apps/api/src/routes/categories/categories.route.ts:102-114 | the `while (true)` loop terminates with slug = Candidate(base, FirstFree(…)), which no counted row has |
| Categories.IndexOfId | apps/api/src/routes/categories/categories.route.ts:158-162 | finds the row with the id, or None when no row has it |
| Categories.AppendValid | apps/api/src/routes/categories/categories.route.ts:89-119 | a new row with a fresh id, a name no row has ignoring case and a free slug keeps ids, slugs and names unique |
| Categories.ReplaceValid | apps/api/src/routes/categories/categories.route.ts:174-213 | renaming a row to a name and a slug no other row has keeps them unique |
| Categories.RemoveValid | apps/api/src/routes/categories/categories.route.ts:265 | deleting a row keeps them unique |
| Categories.CategoryTable.Create | apps/api/src/routes/categories/categories.route.ts:80-134 | an empty name: the body validator's rejection, nothing written; a trimmed name equal to an existing one ignoring case: 409 "Category name already exists", nothing written; otherwise one new row with the next id, the trimmed name and the loop's slug, the id counter advanced, 201; uniqueness kept |
| Categories.CategoryTable.Insert | apps/api/src/routes/categories/categories.route.ts:116-119 | appending a row with the next id, a new name and a free slug keeps the table's uniqueness and advances the id counter |
| Categories.CategoryTable.Update | apps/api/src/routes/categories/categories.route.ts:149-227 | an empty name: the body validator's rejection, nothing written; missing id: 404; a name that trims to nothing or is the same ignoring case: 200 with the row unchanged; another row's name: 409; otherwise the row renamed with a slug free among the other rows, 200; uniqueness kept |
| Categories.CategoryTable.Rename | apps/api/src/routes/categories/categories.route.ts:209-218 | replacing a row by one with the same id and a name and slug no other row has keeps the table's uniqueness; nothing else changes |
| Categories.CategoryTable.Delete | apps/api/src/routes/categories/categories.route.ts:247-285 | missing id: 404 "Category not found"; linked products: 409 "Category has associated products"; neither removes anything; otherwise exactly that row is removed |
| ApiUtils.SuccessResponse | apps/api/src/lib/utils.ts:9-18 | status "success", data and details returned unchanged |
| ApiUtils.ErrorResponse | apps/api/src/lib/utils.ts:27-40 | status "error" with the code and details; fields default to the empty record |
| ApiUtils.ParseJsonField | apps/api/src/lib/utils.ts:49-74 | absent or empty input gives an empty list; non-JSON gives "<field> must be valid JSON"; a schema failure gives "path.joined - message" of its first issue; otherwise the parsed data |
| ApiUtils.AlphabetIsAlphanumeric | apps/api/src/lib/utils.ts:82-83 | the alphabet has 62 characters, all ASCII letters or digits |
| ApiUtils.GeneratePassword | apps/api/src/lib/utils.ts:81-87 | length is the requested length (16 by default) and character i is alphabet[x_i mod 62], hence alphanumeric |
| Schemas.IsPriceIffParses | apps/api/src/lib/schemas.ts:6-9 | the price pattern and the cents scanner accept exactly the same strings |
| Schemas.PriceCents | apps/api/src/lib/schemas.ts:6-9 | every valid price has a value in cents |
| Schemas.FormatCentsRoundTrip | apps/api/src/routes/orders/orders.route.ts:131 | a rendered total matches the price pattern and reads back as the same number of cents |
| Schemas.PriceMinLengthRedundant | apps/api/src/lib/schemas.ts:6-9 | the `min(1)` on the create price adds nothing to the pattern |
| Schemas.CreateStockQuantityValid | apps/api/src/lib/schemas.ts:10 | a create stock quantity is accepted iff it is non-empty |
| Schemas.NormaliseImages | apps/api/src/lib/schemas.ts:30-38 | undefined or null gives [], one value v gives [v], a list stays as it is |
| Schemas.NormaliseNewImages | apps/api/src/lib/schemas.ts:71-78 | the update schema's transform agrees with the create schema's on every value |
| Schemas.NormaliseImagesIdempotent | apps/api/src/lib/schemas.ts:34-38 | normalising a normalised list changes nothing |
| Schemas.ValidateInStockEntry | apps/api/src/lib/schemas.ts:81-84 | an entry passes iff its name is non-empty, else "Name is required" |
| RateLimit.ClientKey | apps/api/src/lib/rate-limit.ts:11-15 | with x-forwarded-for, the untrimmed text before its first comma (the whole value without a comma); else x-real-ip; else "unknown" |
| RateLimit.TooManyRequests | apps/api/src/lib/rate-limit.ts:16-24 | 429 with code TOO_MANY_REQUESTS, details "Too many requests have been made. Please try again later." and no field errors |
| Text.Utf16Len | apps/api/src/routes/admin/admin.route.ts:272 | a string's JavaScript length in code units lies between its character count and twice that |
| Text.Utf16LenIsLength | apps/api/src/routes/admin/admin.route.ts:272 | the code-unit length equals the character count exactly when every character is in the Basic Multilingual Plane |
| Initials.GetInitials | apps/web/src/lib/utils.ts:18-25 | at most two characters, unchanged by upper-casing |
| Initials.FirstCharsAreWordStarts | apps/web/src/lib/utils.ts:20-22 | splitting on single spaces and taking first characters yields the characters that start a word; empty pieces give nothing |
| Initials.InitialsFromWordStarts | apps/web/src/lib/utils.ts:18-25 | the initials are the first two word starts, upper-cased |
| Initials.TwoWords | apps/web/src/lib/utils.ts:18-25 | "First Last" gives the upper-cased first letters of both words |
| CheckRole.Gate | apps/api/src/middleware/check-role.ts:7-29 | passes iff the user has a non-empty role in the required list; otherwise 403 "No user or role assigned" or 403 "User does not have the required role" |
| CheckRole.OneRoleIsSingletonList | apps/api/src/middleware/check-role.ts:18 | one role name behaves like the list holding it |
| CheckRole.StaffGate | apps/api/src/routes/admin/admin.route.ts:29-31 | the admin router's gate passes exactly admins and superadmins |
| CheckRole.SuperadminGate | apps/api/src/routes/superadmin/superadmin.route.ts:19 | the superadmin router's gate passes exactly superadmins |
| Permissions.OwnStatement | apps/api/src/lib/permissions.ts:4-9 | only product, category and order carry actions of their own |
| Permissions.Grants | apps/api/src/lib/permissions.ts:13-33 | every explicit grant is within the statement, and only product, category, order and user get explicit lists |
| Permissions.CustomerIsReadOnly | apps/api/src/lib/permissions.ts:13-17 | the user role may only view products and categories and only "view-user" orders, and has no user or session grant |
| Permissions.StaffShareCatalogueGrants | apps/api/src/lib/permissions.ts:19-33 | admin and superadmin have identical product, category and order grants covering every declared action |
| Permissions.AdminUserActions | apps/api/src/lib/permissions.ts:20 | the admin's user actions are exactly list, ban, set-password, update and impersonate |
| AdminGuards.ListUserSessions | apps/api/src/routes/admin/admin.route.ts:101-122 | empty id: validator rejection; unknown user: 404; proceeds iff the target exists and is not a superadmin unless the actor is one |
| AdminGuards.StaffOverTarget | apps/api/src/routes/admin/admin.route.ts:168-184 | proceeds iff a superadmin target has a superadmin actor and an admin actor does not act on a different admin; refusals are 403 |
| AdminGuards.RevokeUserSession | apps/api/src/routes/admin/admin.route.ts:146-184 | empty token: rejection; unknown session: 404 "Session not found", then unknown owner: 404 "User not found"; proceeds iff the session and its owner exist, a superadmin owner has a superadmin actor, and an admin actor does not act on another admin |
| AdminGuards.RevokeUserSessions | apps/api/src/routes/admin/admin.route.ts:208-240 | empty id: rejection; unknown user: 404; proceeds iff the user exists, a superadmin target has a superadmin actor, and an admin actor does not act on another admin |
| AdminGuards.ChangeUserPassword | apps/api/src/routes/admin/admin.route.ts:264-303 | empty id or password shorter than 8 code units: rejection; unknown user: 404; proceeds iff the password has at least 8 UTF-16 code units (`Text.Utf16Len`), the user exists, a superadmin target has a superadmin actor, and an admin actor does not act on another admin |
| AdminGuards.PasswordLengthInCodeUnits | apps/api/src/routes/admin/admin.route.ts:270-273 | four characters from outside the Basic Multilingual Plane pass the `min(8)` length rule exactly as eight ASCII letters do, and seven ASCII letters fail it |
| AdminGuards.BanRule | apps/api/src/routes/admin/admin.route.ts:328-358 | acting on oneself is refused before the lookup; proceeds iff the target exists, is not a superadmin, and is not an admin when the actor is an admin |
| AdminGuards.BanUser | apps/api/src/routes/admin/admin.route.ts:328-365 | the ban handler applies the shared rule with "ban" messages: proceeds iff the target is someone else, exists, is not a superadmin, and is not an admin when the actor is an admin |
| AdminGuards.UnbanUser | apps/api/src/routes/admin/admin.route.ts:379-424 | an empty id is the validator's rejection; otherwise the shared rule with "unban" messages: proceeds iff the id is non-empty, names someone else who exists, is not a superadmin, and is not an admin when the actor is an admin |
| AdminGuards.AdminRequest | apps/api/src/routes/admin/admin.route.ts:29-31 | nothing passes the admin router unless the actor is an admin or superadmin |
| AdminGuards.SuperadminsProtected | apps/api/src/routes/admin/admin.route.ts:111-413 | only a superadmin gets through to act on a superadmin, and ban or unban of a superadmin never goes through |
| AdminGuards.RevokeOneLikeRevokeAll | apps/api/src/routes/admin/admin.route.ts:156-240 | revoking one session is allowed iff revoking all of its owner's sessions is |
| AdminGuards.AdminOnAdmins | apps/api/src/routes/admin/admin.route.ts:231-240 | an admin may list any admin's sessions, revoke sessions and change the password only of themself, and never ban or unban an admin |
| SuperadminGuards.CreateUser | apps/api/src/routes/superadmin/superadmin.route.ts:22-37 | an e-mail already on file: 409 USER_EXISTS; proceeds iff it is not |
| SuperadminGuards.ChangeUserRole | apps/api/src/routes/superadmin/superadmin.route.ts:59-93 | empty id or a role other than user/admin: rejection; oneself: 403; unknown: 404; proceeds iff the target exists and is not a superadmin |
| SuperadminGuards.DeleteUser | apps/api/src/routes/superadmin/superadmin.route.ts:117-145 | empty id: rejection; oneself: 403; unknown: 404; proceeds iff the target exists and is not a superadmin |
| SuperadminGuards.SuperadminRequest | apps/api/src/routes/superadmin/superadmin.route.ts:19 | nothing passes the superadmin router unless the actor is a superadmin |
| SuperadminGuards.SuperadminSetPreserved | apps/api/src/routes/superadmin/superadmin.route.ts:59-145 | no accepted role change or deletion adds or removes a superadmin |

## Left out

- Floating point: totals are exact cents, while the source sums `parseFloat` results and rounds with `toFixed(2)`. The unit amounts sent to the payment processor (`Math.round(price * 100)`) are not modelled.
- Transactions, atomicity and concurrency: the store is sequential. Concurrent checkouts and simultaneous webhook deliveries are not modelled.
- The payment processor: opening a checkout session is a parameter (a session id, or None on failure), and event verification is a parameter (an event, or None). The checkout URL, the publishable key, the line-item payload and the session expiry time (`Date.now()`) are not modelled.
- Stripe.HandleWebhook: a store error inside a handler is modelled as happening before the handler writes anything. Partial writes before such an error are not modelled.
- The bodies of the order, cart and category queries (`reserveStock`, `restoreStock`, `updateOrderStatus`, `clearCartItemsByUserId`, `getOrderByStripeSessionId`, `getUserCartWithItems`, `getCategoryById`): they get the abstract effects described above. They are not part of this model.
- Orders.Shop.CreateCheckout: "Failed to retrieve created order" cannot happen in a sequential store, so it is not modelled. The other error replies (500 on a store failure) are not modelled either.
- Order and category ids are positions and counters, not UUIDs. The `z.uuid()` parameter check is not modelled.
- The order list routes, the category read routes and the admin order routes: they only read and return rows.
- `slugify` is a library function passed in as a parameter. `trim`, `toLowerCase`, `toUpperCase` and SQL `LOWER` are modelled for ASCII (and the no-break space in `trim`) only.
- The authentication library: every `auth.api` call, session and password handling, the library's own default `user` and `session` grants, and `userHasPermission`. The guards stop at the verdict.
- Request validation: the validation hook's replies are not modelled, nor the `BanUserSchema` and `CreateUserSchema` bodies. Because of this, ban accepts an empty user id while unban rejects it.
- `JSON.parse` and zod's `safeParse` are parameters of `parseJsonField`, and `crypto.getRandomValues` is a parameter of `generatePassword`.
- Rate limiting: window counters are the limiter library's job. Only the key and the over-limit reply are modelled.
- The `.optional()` wrapper around `newImages`: it lets an absent field through untransformed.
- Initials.GetInitials: the source takes `n[0]` and `slice(0, 2)` over UTF-16 code units, while the model takes whole Unicode characters. The two agree only on Basic Multilingual Plane text: for "\U{1F600}x" the source keeps a lone high surrogate, and the model keeps the whole emoji.
- The web client's `cn` and all UI components.
