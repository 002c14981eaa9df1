# Storefront core: in-memory store, REST handlers, PIX payment poll

This project models the core of a small storefront in Dafny. The storefront sells products, keeps a shopping cart per user, sells a premium subscription and takes PIX payments. The model has three parts:

- **The in-memory store** (`Storage.MemStorage`, server/storage.ts). It holds four JavaScript `Map`s (users, products, cart items, subscription plans) and one id counter, `currentId`, which users and cart items share. A `Map` keeps insertion order and each key is the record's own id. So each map becomes a sequence of records in insertion order, with no id repeated. `KeyedSeq.Find`, `Put` and `Delete` play the roles of `get`, `set` and `delete`. The methods change these fields in place. The object invariant `Valid()` says:
  - no id occurs twice in a map;
  - every user id and cart-row id lies in `[1, currentId)`;
  - no user shares an id with a cart row.

  So an id is never handed out twice.
- **The route handlers** (`Routes`, server/routes.ts). Each handler is a guard chain: no session gives 401, a bad body gives 400, a non-admin gives 403. Then it calls the store. Read-only handlers are functions of the store. `POST /api/cart`, `DELETE /api/cart/:id` and `POST /api/subscribe` change it, so they are methods whose contracts give the status and the exact store change. The cart-item schema check is a function parameter. The admin listing as written throws for the admin; see "## Findings".
- **The payment poll** (`Payment`, attached_assets/script.js):
  - `initPayment` makes three checks on the `/api/payment/pix` answer, in order (`CheckPixResponse`).
  - The state that `checkStatus` closes over is the `Poller` class: the `attempts` counter and the status text.
  - `checkPaymentStatus` becomes a loop over the server's replies: `server(k)` is the reply to the k-th validate request.

  The poll makes at most 31 requests: the first one plus 30 reschedules. It stops at the first approved, rejected or failed reply.

`Scenarios` drives the store and the handlers the way a client would. It shows concrete outcomes:
- one row per post, even for the same product;
- ids taken from the shared counter;
- deletion of another user's row;
- a subscription with a plan id that names no plan.

## Model

| member | source | states |
|---|---|---|
| `KeyedSeq.Find` | server/storage.ts:89-91 | `Map.get`: the record stored under the key, or nothing exactly when no record has that key; with distinct keys, the one record that has it |
| `KeyedSeq.Put` | server/storage.ts:128-132 | `Map.set`: a new key is appended at the end; an existing key keeps its position and gets the new record |
| `KeyedSeq.Delete` | server/storage.ts:142-144 | `Map.delete`: removes the record at that key's position and keeps the others in order; a missing key leaves the map unchanged |
| `KeyedSeq.DeleteLeavesMap` | server/storage.ts:142-144 | after a delete, keys are still distinct, nothing is stored under the deleted key, and no record is new |
| `KeyedSeq.PutAllFresh` | server/storage.ts:85-86 | setting records whose keys are new and all different appends them in order (the `forEach` seeding) |
| `Storage.ItemsOf` | server/storage.ts:122-126 | the filter keeps exactly the rows of that user |
| `Storage.ItemsOfConcat` | server/storage.ts:122-126 | the user filter distributes over concatenation, so it keeps insertion order |
| `Storage.FirstNamed` | server/storage.ts:93-97 | `find`: nothing exactly when no user has the name; otherwise the first user in insertion order with that name |
| `Storage.MemStorage.constructor` | server/storage.ts:34-46 | a fresh store holds the two sample products and the two plans, no users, no cart rows, and `currentId == 1`; the invariant holds |
| `Storage.MemStorage.InitializeSampleData` | server/storage.ts:48-87 | each sample product and each plan is set into its map, one after the other |
| `Storage.MemStorage.GetUser` | server/storage.ts:89-91 | the user with that id, or nothing exactly when no user has it |
| `Storage.MemStorage.GetUserByUsername` | server/storage.ts:93-97 | the first registered user with that username, or nothing when there is none |
| `Storage.MemStorage.CreateUser` | server/storage.ts:99-104 | the new user has id old `currentId` and is not premium; it is appended to the users; the counter rises by exactly one; the id is above every existing user id and cart-row id; the invariant is kept |
| `Storage.MemStorage.UpdateUserPremiumStatus` | server/storage.ts:106-112 | only the user with that id changes, and only its `isPremium`; a missing user leaves the users unchanged |
| `Storage.MemStorage.GetProducts` | server/storage.ts:114-116 | exactly the stored products: every listed product can be looked up by its id, and every product found by id is listed |
| `Storage.MemStorage.GetProductById` | server/storage.ts:118-120 | the product with that id, or nothing exactly when there is none |
| `Storage.MemStorage.GetCartItems` | server/storage.ts:122-126 | a row is listed exactly when it is stored with that userId |
| `Storage.MemStorage.AddToCart` | server/storage.ts:128-132 | always appends the new row `{old currentId, userId, productId, quantity}` and raises the counter by one, even when the user already has a row for that product; that user's cart grows by this row at its end; every other user's cart is unchanged |
| `Storage.MemStorage.UpdateCartItem` | server/storage.ts:134-140 | only that row's quantity changes; its id, userId and productId stay; a missing id leaves the rows unchanged |
| `Storage.MemStorage.RemoveFromCart` | server/storage.ts:142-144 | removes the row with that id whichever user owns it, keeps the other rows in order, leaves a missing id without effect; no user's cart lists the id afterwards |
| `Storage.MemStorage.GetSubscriptionPlans` | server/storage.ts:146-148 | a plan is listed exactly when it is stored; each id once |
| `Storage.MemStorage.GetAllUsers` | server/routes.ts:86 | the intended store operation behind the admin listing: every stored user is listed, and each listed user can be looked up by its id |
| `Routes.ListProducts` | server/routes.ts:11-14 | 200 with the store's products, for every request, with or without a session |
| `Routes.ListSubscriptionPlans` | server/routes.ts:64-67 | 200 with the store's plans, for every request, with or without a session |
| `Routes.WithProducts` | server/routes.ts:22-27 | one line per cart row, in order, each joined with `getProductById(productId)`; the product is absent when no product has that id |
| `Routes.GetCart` | server/routes.ts:17-30 | 401 without a session; otherwise 200 and exactly one line per row of the session user's cart, in order, with its product |
| `Routes.WithSessionUser` | server/routes.ts:36-39 | the body with `userId` set to the session user's id and every other field kept |
| `Routes.UserIdInBodyIgnored` | server/routes.ts:36-39 | a userId forged in the body does not change what the schema sees |
| `Routes.PostCart` | server/routes.ts:32-55 | 401 without a session and 400 on a schema failure, both with no row added; otherwise 201 and exactly one new row for the session user, never for a userId from the body |
| `Routes.DeleteCartItem` | server/routes.ts:57-61 | 401 without a session with no change; otherwise always 200, and the row with the parsed id is removed whoever owns it; a missing id or NaN changes nothing |
| `Routes.Subscribe` | server/routes.ts:69-77 | 401 without a session and 400 for a missing or falsy planId, both with no change; otherwise 200, and only the session user's `isPremium` becomes true, whether or not a plan has that id |
| `Routes.AdminUsersAsWritten` | server/routes.ts:80-88 | 401 without a session, 403 for every user other than id 1, and for user 1 the handler throws |
| `Routes.AdminUsers` | server/routes.ts:80-88 | the same guards; for user 1, 200 with every user, passwords included |
| `Routes.AdminListingUnreachable` | server/routes.ts:84-86 | for the admin, the handler as written throws, while the intended one answers 200 with the user list |
| `Payment.CheckPixResponse` | attached_assets/script.js:64-91 | polling starts exactly when the content type includes JSON, `ok` holds and `success` is truthy, checked in that order; the first check that fails decides the notification |
| `Payment.InitPayment` | attached_assets/script.js:64-91 | a notification means no validate request is made; otherwise the poll runs with 1 to 31 requests, stops at the first terminal reply, and redirects exactly on approval |
| `Payment.Poller.constructor` | attached_assets/script.js:94-95 | `attempts` starts at 0 on each poll |
| `Payment.Poller.CheckStatus` | attached_assets/script.js:97-122 | approved, rejected and a throw end the poll, leaving `attempts` as it was; any other reply raises `attempts` by one and reschedules only when the value before the increment is below 30; approval schedules the redirect |
| `Payment.CheckPaymentStatus` | attached_assets/script.js:93-125 | at most 31 validate requests; every reply before the last was non-terminal; a poll that stops before the 31st request stopped on approved, rejected or a throw; the final text and the redirect follow the last reply |
| `Payment.PendingFiveTimesThenApproved` | attached_assets/script.js:105-118 | five pending replies and then an approval give six requests, the approved text, and a redirect |
| `Payment.NeverSettled` | attached_assets/script.js:115-118 | a server that never settles is polled 31 times, and the page keeps showing the waiting text |
| `Scenarios.AliceAddsSoccerBall` | server/routes.ts:17-50 | after registering and posting two soccer balls, the cart holds one line with product 1, quantity 2 and the product "Soccer Ball" at "89.99" |
| `Scenarios.SameProductTwice` | server/storage.ts:128-132 | posting the same product twice gives two rows with ids 2 and 3, not a merged quantity |
| `Scenarios.BobDeletesAlicesRow` | server/routes.ts:57-61 | another logged-in user deletes a user's row by id with status 200, and that user's cart becomes empty |
| `Scenarios.SubscribeWithoutRealPlan` | server/routes.ts:69-77 | planId 0 gives 400; planId 99, which names no plan, gives 200 and sets the premium flag |
| `Scenarios.CartRowBeforeFirstUser` | server/storage.ts:39-104 | a cart row added before the first registration takes id 1, so the first user gets id 2 |

## Left out

- Sessions, `setupAuth`, `sessionStore`/`MemoryStore`, Express and `createServer`: the session user's id is an input of each handler. server/auth is not part of this model.
- Records are values. The source hands out the same objects it stores, so a caller that keeps the user returned by `createUser` sees later premium updates through it. This aliasing is not modelled.
- `async`/`await` and `Promise.all` in GET /api/cart run as one sequential join. The lookups only read, so their completion order does not matter.
- The 500 branch of POST /api/cart is left out: neither the schema's `safeParse` nor `addToCart` can throw in this model.
- The schema of POST /api/cart is an arbitrary function from the merged body to an optional `{userId, productId, quantity}`. drizzle-zod's validation rules are not part of this model.
- Response bodies of errors are left out: the zod error object, `{error: "Plan ID required"}`, and the text of `sendStatus`. Only the statuses are modelled.
- `parseInt` on the path segment is left out: the handler receives its result, with NaN as `None`.
- JavaScript numbers are unbounded integers here. The id counter cannot reach 2^53, so it never rounds.
- Payment: timer delays (2000 ms), `showNotification`, DOM writes other than the status text, `window.location` beyond the redirect flag, the clipboard, `copyPixCode`, `closePaymentModal` and `formatPrice` are left out. So are the script's own `addToCart` (which posts to a path the server lacks) and `subscribe` (a simulated delay).
- The poll is not cancelled when the user navigates away; it ends only by a terminal reply or by the attempt limit. Replies are a function of the request's index, so timing does not matter.
- `data.success` and `data.error` are a boolean and an optional string. Coercing other JSON values (`new Error(x)` on a non-string `x`) is left out.
- The React pages and components, `calculateTotal` and price formatting are left out. They render, use floating point, and depend on the locale.
- The server side of `/api/payment/pix` and `/api/payment/validate` is not in this repository. Their answers are inputs.
- Storage.MemStorage.GetCartItems: its ensures states membership only. Insertion order is stated by `Storage.ItemsOfConcat`, by the `AddToCart` ensures on each user's cart, and by `RemoveFromCart`.
- Storage.MemStorage.GetProducts: its ensures gives the listed products as a set, tied to `GetProductById`. That the list is the stored sequence in its order is stated by `Routes.ListProducts`.
- Storage.MemStorage.GetSubscriptionPlans: its ensures gives the listed plans as a set with distinct ids. That the list is the stored sequence in its order is stated by `Routes.ListSubscriptionPlans`.

## Findings

| source | as written | input that shows it | evidently intended | confidence | as-written member | corrected member |
|---|---|---|---|---|---|---|
| server/routes.ts:86 | the admin listing calls `storage.getAllUsers()`, which `MemStorage` does not define, so the handler throws before it answers | GET /api/admin/users with session user id 1 | 200 with every stored user | high; not executed | `Routes.AdminUsersAsWritten` (with `Routes.AdminListingUnreachable`) | `Routes.AdminUsers` (using `Storage.MemStorage.GetAllUsers`) |
