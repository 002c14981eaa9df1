/**
  The in-memory store (server/storage.ts): four id-keyed maps and one id
  counter shared by users and cart items.
 */
module Storage {
  import opened Wrappers
  import opened Schema
  import opened KeyedSeq

  /** The two products a new store starts with. */
  function SampleProducts(): seq<Product>
  {
    [ Product(1, "Soccer Ball", "Professional match ball", "89.99",
              "https://placehold.co/300x300/webp?text=Soccer+Ball"),
      Product(2, "Running Shoes", "Lightweight performance shoes", "199.99",
              "https://placehold.co/300x300/webp?text=Running+Shoes") ]
  }

  /** The two subscription plans a new store starts with. */
  function SamplePlans(): seq<SubscriptionPlan>
  {
    [ SubscriptionPlan(1, "Basic", "Monthly sports box", "79.99", "monthly"),
      SubscriptionPlan(2, "Premium", "Premium monthly sports box", "149.99", "monthly") ]
  }

  /** The sample products have different ids, and so do the sample plans. */
  lemma SampleKeysDistinct()
    ensures DistinctKeys(SampleProducts(), ProductId)
    ensures DistinctKeys(SamplePlans(), PlanId)
  {
    var products, plans := SampleProducts(), SamplePlans();
    assert ProductId(products[0]) == 1 && ProductId(products[1]) == 2;
    assert PlanId(plans[0]) == 1 && PlanId(plans[1]) == 2;
  }

  /** The rows of `rows` that belong to `userId`, in their order. */
  function ItemsOf(rows: seq<CartItem>, userId: int): (r: seq<CartItem>)
    ensures forall c :: c in r <==> c in rows && c.userId == userId
    ensures |r| <= |rows|
  {
    if rows == [] then []
    else (if rows[0].userId == userId then [rows[0]] else []) + ItemsOf(rows[1..], userId)
  }

  /** Filtering commutes with concatenation: the filter keeps insertion order. */
  lemma {:induction false} ItemsOfConcat(a: seq<CartItem>, b: seq<CartItem>, userId: int)
    ensures ItemsOf(a + b, userId) == ItemsOf(a, userId) + ItemsOf(b, userId)
  {
    if a != [] {
      assert (a + b)[1..] == a[1..] + b;
      ItemsOfConcat(a[1..], b, userId);
    } else {
      assert a + b == b;
    }
  }

  /** The first user in `rows` with that name, or nothing. */
  function FirstNamed(rows: seq<User>, username: string): (r: Option<User>)
    ensures r.None? <==> forall i :: 0 <= i < |rows| ==> rows[i].username != username
    ensures r.Some? ==> exists i :: 0 <= i < |rows| && rows[i] == r.value && r.value.username == username &&
                                     forall j :: 0 <= j < i ==> rows[j].username != username
  {
    if rows == [] then None
    else if rows[0].username == username then Some(rows[0])
    else
      var r := FirstNamed(rows[1..], username);
      assert forall i :: 1 <= i < |rows| ==> rows[i] == rows[1..][i - 1];
      assert r.Some? ==> exists i :: 0 <= i < |rows| && rows[i] == r.value && r.value.username == username &&
                                     forall j :: 0 <= j < i ==> rows[j].username != username by {
        if r.Some? {
          var k :| 0 <= k < |rows[1..]| && rows[1..][k] == r.value && r.value.username == username &&
                   forall j :: 0 <= j < k ==> rows[1..][j].username != username;
          assert rows[k + 1] == r.value;
          assert forall j :: 1 <= j < k + 1 ==> rows[j].username != username;
        }
      }
      r
  }

  class MemStorage {
    var users: seq<User>
    var products: seq<Product>
    var cartItems: seq<CartItem>
    var subscriptionPlans: seq<SubscriptionPlan>
    var currentId: int

    /**
      Every map holds each key once; users and cart items draw their ids from
      the one counter, so all ids handed out lie in [1, currentId) and no user
      shares an id with a cart row.
     */
    ghost predicate Valid()
      reads this
    {
      && currentId >= 1
      && DistinctKeys(users, UserId)
      && DistinctKeys(cartItems, ItemId)
      && DistinctKeys(products, ProductId)
      && DistinctKeys(subscriptionPlans, PlanId)
      && (forall u :: u in users ==> 1 <= u.id < currentId)
      && (forall c :: c in cartItems ==> 1 <= c.id < currentId)
      && (forall u, c :: u in users && c in cartItems ==> u.id != c.id)
    }

    /** A fresh store: the sample products and plans, no users, no cart rows, counter at 1. */
    constructor ()
      ensures Valid()
      ensures users == [] && cartItems == [] && currentId == 1
      ensures products == SampleProducts() && subscriptionPlans == SamplePlans()
    {
      users, products, cartItems, subscriptionPlans := [], [], [], [];
      currentId := 1;
      new;
      InitializeSampleData();
      SampleKeysDistinct();
      PutAllFresh([], ProductId, SampleProducts());
      PutAllFresh([], PlanId, SamplePlans());
    }

    /** Sets each sample product and plan into its map, one after the other. */
    method InitializeSampleData()
      modifies this`products, this`subscriptionPlans
      ensures products == PutAll(old(products), ProductId, SampleProducts())
      ensures subscriptionPlans == PutAll(old(subscriptionPlans), PlanId, SamplePlans())
    {
      var sampleProducts := SampleProducts();
      var samplePlans := SamplePlans();
      for i := 0 to |sampleProducts|
        invariant products == PutAll(old(products), ProductId, sampleProducts[..i])
        invariant subscriptionPlans == old(subscriptionPlans)
      {
        assert sampleProducts[..i + 1][..i] == sampleProducts[..i];
        products := Put(products, ProductId, sampleProducts[i]);
      }
      assert sampleProducts[..|sampleProducts|] == sampleProducts;
      for i := 0 to |samplePlans|
        invariant subscriptionPlans == PutAll(old(subscriptionPlans), PlanId, samplePlans[..i])
        invariant products == PutAll(old(products), ProductId, sampleProducts)
      {
        assert samplePlans[..i + 1][..i] == samplePlans[..i];
        subscriptionPlans := Put(subscriptionPlans, PlanId, samplePlans[i]);
      }
      assert samplePlans[..|samplePlans|] == samplePlans;
    }

    /** The user stored under `id`, or nothing. */
    function GetUser(id: int): (r: Option<User>)
      reads this
      ensures r.None? <==> forall i :: 0 <= i < |users| ==> users[i].id != id
      ensures r.Some? ==> r.value in users && r.value.id == id
    {
      Find(users, UserId, id)
    }

    /** The first registered user with that username, or nothing. */
    function GetUserByUsername(username: string): (r: Option<User>)
      reads this
      ensures r.None? <==> forall i :: 0 <= i < |users| ==> users[i].username != username
      ensures r.Some? ==> exists i :: 0 <= i < |users| && users[i] == r.value && r.value.username == username &&
                                      forall j :: 0 <= j < i ==> users[j].username != username
    {
      FirstNamed(users, username)
    }

    /**
      Registers a user under the next id, not premium. The id was never handed
      out before, to a user or to a cart row.
     */
    method CreateUser(insertUser: InsertUser) returns (user: User)
      requires Valid()
      modifies this`users, this`currentId
      ensures Valid()
      ensures user == User(old(currentId), insertUser.username, insertUser.password, false)
      ensures users == old(users) + [user]
      ensures currentId == old(currentId) + 1
      ensures forall i :: 0 <= i < |old(users)| ==> old(users)[i].id < user.id
      ensures forall i :: 0 <= i < |cartItems| ==> cartItems[i].id < user.id
    {
      var id := currentId;
      currentId := currentId + 1;
      user := User(id, insertUser.username, insertUser.password, false);
      users := Put(users, UserId, user);
    }

    /** Sets the premium flag of user `userId`; a missing user changes nothing. */
    method UpdateUserPremiumStatus(userId: int, isPremium: bool)
      requires Valid()
      modifies this`users
      ensures Valid()
      ensures |users| == |old(users)|
      ensures forall i :: 0 <= i < |users| ==>
        users[i] == if old(users)[i].id == userId then old(users)[i].(isPremium := isPremium) else old(users)[i]
      ensures (forall i :: 0 <= i < |old(users)| ==> old(users)[i].id != userId) ==> users == old(users)
    {
      var user := GetUser(userId);
      if user.Some? {
        users := Put(users, UserId, user.value.(isPremium := isPremium));
      }
    }

    /** Every product, in insertion order; each one can be looked up by its id. */
    function GetProducts(): (r: seq<Product>)
      reads this
      requires Valid()
      ensures forall i :: 0 <= i < |r| ==> GetProductById(r[i].id) == Some(r[i])
      ensures forall id :: GetProductById(id).Some? ==> GetProductById(id).value in r
    {
      products
    }

    /** The product stored under `id`, or nothing. */
    function GetProductById(id: int): (r: Option<Product>)
      reads this
      ensures r.None? <==> forall i :: 0 <= i < |products| ==> products[i].id != id
      ensures r.Some? ==> r.value in products && r.value.id == id
    {
      Find(products, ProductId, id)
    }

    /** Exactly the cart rows of `userId`, in insertion order. */
    function GetCartItems(userId: int): (r: seq<CartItem>)
      reads this
      ensures forall c :: c in r <==> c in cartItems && c.userId == userId
    {
      ItemsOf(cartItems, userId)
    }

    /**
      Always adds a new row under the next id, even when the user already has a
      row for that product; the user's cart grows by that row at its end and
      every other cart stays as it was.
     */
    method AddToCart(userId: int, productId: int, quantity: int)
      requires Valid()
      modifies this`cartItems, this`currentId
      ensures Valid()
      ensures cartItems == old(cartItems) + [CartItem(old(currentId), userId, productId, quantity)]
      ensures currentId == old(currentId) + 1
      ensures GetCartItems(userId) == old(GetCartItems(userId)) + [CartItem(old(currentId), userId, productId, quantity)]
      ensures forall other :: other != userId ==> GetCartItems(other) == old(GetCartItems(other))
    {
      var id := currentId;
      currentId := currentId + 1;
      var cartItem := CartItem(id, userId, productId, quantity);
      ghost var before := cartItems;
      cartItems := Put(cartItems, ItemId, cartItem);
      forall u {
        ItemsOfConcat(before, [cartItem], u);
      }
    }

    /** Sets the quantity of row `id` and nothing else; a missing row changes nothing. */
    method UpdateCartItem(id: int, quantity: int)
      requires Valid()
      modifies this`cartItems
      ensures Valid()
      ensures |cartItems| == |old(cartItems)|
      ensures forall i :: 0 <= i < |cartItems| ==>
        cartItems[i] == if old(cartItems)[i].id == id then old(cartItems)[i].(quantity := quantity) else old(cartItems)[i]
      ensures (forall i :: 0 <= i < |old(cartItems)| ==> old(cartItems)[i].id != id) ==> cartItems == old(cartItems)
    {
      var item := Find(cartItems, ItemId, id);
      if item.Some? {
        cartItems := Put(cartItems, ItemId, item.value.(quantity := quantity));
      }
    }

    /**
      Deletes row `id`, whichever user owns it; the other rows keep their order,
      and a missing row changes nothing.
     */
    method RemoveFromCart(id: int)
      requires Valid()
      modifies this`cartItems
      ensures Valid()
      ensures (forall i :: 0 <= i < |old(cartItems)| ==> old(cartItems)[i].id != id) ==> cartItems == old(cartItems)
      ensures forall i :: 0 <= i < |old(cartItems)| && old(cartItems)[i].id == id ==>
        cartItems == old(cartItems)[..i] + old(cartItems)[i + 1..]
      ensures forall u, c :: c in GetCartItems(u) ==> c.id != id
    {
      DeleteLeavesMap(cartItems, ItemId, id);
      cartItems := Delete(cartItems, ItemId, id);
    }

    /** Every subscription plan, in insertion order, each id once. */
    function GetSubscriptionPlans(): (r: seq<SubscriptionPlan>)
      reads this
      requires Valid()
      ensures forall p :: p in r <==> p in subscriptionPlans
      ensures forall i, j :: 0 <= i < j < |r| ==> r[i].id != r[j].id
    {
      subscriptionPlans
    }

    /**
      Every user, in registration order; each one can be looked up by its id.
      The admin listing route calls this operation, which the store lacks.
     */
    function GetAllUsers(): (r: seq<User>)
      reads this
      requires Valid()
      ensures forall i :: 0 <= i < |r| ==> GetUser(r[i].id) == Some(r[i])
      ensures forall id :: GetUser(id).Some? ==> GetUser(id).value in r
    {
      users
    }
  }
}
