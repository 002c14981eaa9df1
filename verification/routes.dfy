/**
  The REST handlers registered in server/routes.ts. Each handler checks the
  session first (401), then its input (400) or the admin rule (403), and only
  then calls the store. The session user is an input: authentication itself
  happens elsewhere.
 */
module Routes {
  import opened Wrappers
  import opened Schema
  import opened Storage

  /** A JSON value as a request body carries it. */
  datatype Json =
    | JNull
    | JBool(b: bool)
    | JNum(n: real)
    | JStr(s: string)
    | JArray(elems: seq<Json>)
    | JObject(fields: map<string, Json>)

  /** JavaScript truthiness of a JSON value (JSON has no NaN). */
  predicate Truthy(v: Json)
  {
    match v
    case JNull => false
    case JBool(b) => b
    case JNum(n) => n != 0.0
    case JStr(s) => s != ""
    case JArray(_) => true
    case JObject(_) => true
  }

  /** The session user's id (`req.user.id`, absent without a session) and the parsed body. */
  datatype Request = Request(sessionUser: Option<int>, body: map<string, Json>)

  /**
    What a handler answers: a status with an optional JSON body, or a throw
    before any answer is sent.
   */
  datatype Reply<T> = Reply(status: int, body: Option<T>) | Crash

  /** A cart row spread together with its product, as GET /api/cart sends it. */
  datatype CartLine = CartLine(item: CartItem, product: Option<Product>)

  /** What the cart-item schema yields when it accepts a body. */
  datatype CartInput = CartInput(userId: int, productId: int, quantity: int)

  /** GET /api/products: no session needed; the store's products, in insertion order. */
  function ListProducts(s: MemStorage, req: Request): (r: Reply<seq<Product>>)
    reads s
    requires s.Valid()
    ensures r.Reply? && r.status == 200 && r.body == Some(s.products)
  {
    Reply(200, Some(s.GetProducts()))
  }

  /** GET /api/subscription-plans: no session needed; the store's plans, in insertion order. */
  function ListSubscriptionPlans(s: MemStorage, req: Request): (r: Reply<seq<SubscriptionPlan>>)
    reads s
    requires s.Valid()
    ensures r.Reply? && r.status == 200 && r.body == Some(s.subscriptionPlans)
  {
    Reply(200, Some(s.GetSubscriptionPlans()))
  }

  /** Each cart row with the product its productId names, if any, in the rows' order. */
  function WithProducts(s: MemStorage, items: seq<CartItem>): (r: seq<CartLine>)
    reads s
    ensures |r| == |items|
    ensures forall i :: 0 <= i < |items| ==> r[i] == CartLine(items[i], s.GetProductById(items[i].productId))
  {
    if items == [] then []
    else [CartLine(items[0], s.GetProductById(items[0].productId))] + WithProducts(s, items[1..])
  }

  /**
    GET /api/cart: 401 without a session; otherwise 200 and one line per cart
    row of the session user, in order, each joined with its product.
   */
  function GetCart(s: MemStorage, req: Request): (r: Reply<seq<CartLine>>)
    reads s
    ensures req.sessionUser.None? ==> r == Reply(401, None)
    ensures req.sessionUser.Some? ==>
      && r.Reply? && r.status == 200 && r.body.Some?
      && var items := s.GetCartItems(req.sessionUser.value);
         && |r.body.value| == |items|
         && forall i :: 0 <= i < |items| ==>
              r.body.value[i].item == items[i] && r.body.value[i].product == s.GetProductById(items[i].productId)
  {
    match req.sessionUser
    case None => Reply(401, None)
    case Some(userId) => Reply(200, Some(WithProducts(s, s.GetCartItems(userId))))
  }

  /** `{...req.body, userId: req.user.id}`: the session id replaces any userId the body carries. */
  function WithSessionUser(body: map<string, Json>, userId: int): (r: map<string, Json>)
    ensures r.Keys == body.Keys + {"userId"}
    ensures r["userId"] == JNum(userId as real)
    ensures forall k :: k in body && k != "userId" ==> r[k] == body[k]
  {
    body["userId" := JNum(userId as real)]
  }

  /** Whatever userId a client puts in the body, the schema sees the same input. */
  lemma UserIdInBodyIgnored(body: map<string, Json>, forged: Json, userId: int)
    ensures WithSessionUser(body["userId" := forged], userId) == WithSessionUser(body, userId)
  {
    var a, b := WithSessionUser(body["userId" := forged], userId), WithSessionUser(body, userId);
    assert a.Keys == b.Keys;
    assert forall k :: k in a ==> a[k] == b[k];
  }

  /**
    POST /api/cart: 401 without a session; 400 when the schema rejects the body
    with the session id merged in; otherwise one new row for the session user
    (never for a userId from the body) and 201.
   */
  method PostCart(s: MemStorage, req: Request, schema: map<string, Json> -> Option<CartInput>) returns (status: int)
    requires s.Valid()
    modifies s`cartItems, s`currentId
    ensures s.Valid()
    ensures req.sessionUser.None? ==>
      status == 401 && s.cartItems == old(s.cartItems) && s.currentId == old(s.currentId)
    ensures req.sessionUser.Some? && schema(WithSessionUser(req.body, req.sessionUser.value)).None? ==>
      status == 400 && s.cartItems == old(s.cartItems) && s.currentId == old(s.currentId)
    ensures req.sessionUser.Some? && schema(WithSessionUser(req.body, req.sessionUser.value)).Some? ==>
      && status == 201
      && s.currentId == old(s.currentId) + 1
      && var input := schema(WithSessionUser(req.body, req.sessionUser.value)).value;
         s.cartItems == old(s.cartItems) + [CartItem(old(s.currentId), req.sessionUser.value, input.productId, input.quantity)]
  {
    if req.sessionUser.None? {
      return 401;
    }
    var userId := req.sessionUser.value;
    var result := schema(WithSessionUser(req.body, userId));
    if result.None? {
      return 400;
    }
    s.AddToCart(userId, result.value.productId, result.value.quantity);
    status := 201;
  }

  /**
    DELETE /api/cart/:id: 401 without a session; otherwise 200 and row `id` is
    deleted whoever owns it. `id` is what parseInt made of the path segment;
    None stands for NaN, which names no row.
   */
  method DeleteCartItem(s: MemStorage, req: Request, id: Option<int>) returns (status: int)
    requires s.Valid()
    modifies s`cartItems
    ensures s.Valid()
    ensures req.sessionUser.None? ==> status == 401 && s.cartItems == old(s.cartItems)
    ensures req.sessionUser.Some? ==> status == 200
    ensures id.None? || (forall i :: 0 <= i < |old(s.cartItems)| ==> old(s.cartItems)[i].id != id.value) ==>
      s.cartItems == old(s.cartItems)
    ensures req.sessionUser.Some? && id.Some? ==>
      forall i :: 0 <= i < |old(s.cartItems)| && old(s.cartItems)[i].id == id.value ==>
        s.cartItems == old(s.cartItems)[..i] + old(s.cartItems)[i + 1..]
  {
    if req.sessionUser.None? {
      return 401;
    }
    if id.Some? {
      s.RemoveFromCart(id.value);
    }
    status := 200;
  }

  /** `const { planId } = req.body`. */
  function PlanIdOf(body: map<string, Json>): Option<Json>
  {
    if "planId" in body then Some(body["planId"]) else None
  }

  /**
    POST /api/subscribe: 401 without a session; 400 with nothing changed when
    planId is missing or falsy; otherwise the session user becomes premium,
    whether or not a plan has that id, and 200.
   */
  method Subscribe(s: MemStorage, req: Request) returns (status: int)
    requires s.Valid()
    modifies s`users
    ensures s.Valid()
    ensures req.sessionUser.None? ==> status == 401 && s.users == old(s.users)
    ensures req.sessionUser.Some? && !(PlanIdOf(req.body).Some? && Truthy(PlanIdOf(req.body).value)) ==>
      status == 400 && s.users == old(s.users)
    ensures req.sessionUser.Some? && PlanIdOf(req.body).Some? && Truthy(PlanIdOf(req.body).value) ==>
      && status == 200
      && |s.users| == |old(s.users)|
      && forall i :: 0 <= i < |s.users| ==>
           s.users[i] == if old(s.users)[i].id == req.sessionUser.value
                         then old(s.users)[i].(isPremium := true) else old(s.users)[i]
  {
    if req.sessionUser.None? {
      return 401;
    }
    var planId := PlanIdOf(req.body);
    if !(planId.Some? && Truthy(planId.value)) {
      return 400;
    }
    s.UpdateUserPremiumStatus(req.sessionUser.value, true);
    status := 200;
  }

  /**
    GET /api/admin/users as written: 401 without a session, 403 unless the
    session user has id 1, and for user 1 a call to `storage.getAllUsers`,
    which the store does not define, so the handler throws.
   */
  function AdminUsersAsWritten(s: MemStorage, req: Request): (r: Reply<seq<User>>)
    reads s
    ensures req.sessionUser.None? ==> r == Reply(401, None)
    ensures req.sessionUser.Some? && req.sessionUser.value != 1 ==> r == Reply(403, None)
    ensures req.sessionUser == Some(1) ==> r.Crash?
  {
    match req.sessionUser
    case None => Reply(401, None)
    case Some(userId) => if userId != 1 then Reply(403, None) else Crash
  }

  /**
    GET /api/admin/users as intended: the same guards, then 200 and every user,
    passwords included, in registration order.
   */
  function AdminUsers(s: MemStorage, req: Request): (r: Reply<seq<User>>)
    reads s
    requires s.Valid()
    ensures req.sessionUser.None? ==> r == Reply(401, None)
    ensures req.sessionUser.Some? && req.sessionUser.value != 1 ==> r == Reply(403, None)
    ensures req.sessionUser == Some(1) ==> r == Reply(200, Some(s.users))
  {
    match req.sessionUser
    case None => Reply(401, None)
    case Some(userId) => if userId != 1 then Reply(403, None) else Reply(200, Some(s.GetAllUsers()))
  }

  /** The admin, the one user allowed past the guards, never gets the listing from the handler as written. */
  lemma AdminListingUnreachable(s: MemStorage, body: map<string, Json>)
    requires s.Valid()
    ensures AdminUsersAsWritten(s, Request(Some(1), body)).Crash?
    ensures AdminUsers(s, Request(Some(1), body)) == Reply(200, Some(s.users))
  {
  }
}
