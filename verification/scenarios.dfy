/**
  Request sequences against a fresh store, written as a client would drive the
  server, with what the handlers' contracts let a caller conclude. The schema
  of POST /api/cart is a parameter; each scenario states which body it accepts.
 */
module Scenarios {
  import opened Wrappers
  import opened Schema
  import opened Storage
  import opened Routes

  function CartBody(productId: int, quantity: int): map<string, Json>
  {
    map["productId" := JNum(productId as real), "quantity" := JNum(quantity as real)]
  }

  /**
    Register "alice", add two soccer balls, read the cart: one line, the row
    takes id 2 because registration took id 1, joined with the sample product.
   */
  method AliceAddsSoccerBall(schema: map<string, Json> -> Option<CartInput>) returns (status: int, lines: seq<CartLine>)
    requires schema(WithSessionUser(CartBody(1, 2), 1)) == Some(CartInput(1, 1, 2))
    ensures status == 201
    ensures lines == [CartLine(CartItem(2, 1, 1, 2), Some(SampleProducts()[0]))]
    ensures lines[0].product.value.name == "Soccer Ball" && lines[0].product.value.price == "89.99"
  {
    var s := new MemStorage();
    var alice := s.CreateUser(InsertUser("alice", "secret"));
    status := PostCart(s, Request(Some(alice.id), CartBody(1, 2)), schema);
    var reply := GetCart(s, Request(Some(alice.id), map[]));
    lines := reply.body.value;
    assert s.GetProductById(1) == Some(SampleProducts()[0]);
  }

  /** Posting the same product twice gives two rows with their own ids, not one row of quantity 2. */
  method SameProductTwice(schema: map<string, Json> -> Option<CartInput>) returns (rows: seq<CartItem>)
    requires schema(WithSessionUser(CartBody(1, 1), 1)) == Some(CartInput(1, 1, 1))
    ensures rows == [CartItem(2, 1, 1, 1), CartItem(3, 1, 1, 1)]
  {
    var s := new MemStorage();
    var alice := s.CreateUser(InsertUser("alice", "secret"));
    var first := PostCart(s, Request(Some(alice.id), CartBody(1, 1)), schema);
    var second := PostCart(s, Request(Some(alice.id), CartBody(1, 1)), schema);
    rows := s.GetCartItems(alice.id);
  }

  /** Any logged-in user can delete another user's row by its id: bob empties alice's cart. */
  method BobDeletesAlicesRow() returns (status: int, aliceRows: seq<CartItem>)
    ensures status == 200 && aliceRows == []
  {
    var s := new MemStorage();
    var alice := s.CreateUser(InsertUser("alice", "secret"));
    var bob := s.CreateUser(InsertUser("bob", "hunter2"));
    s.AddToCart(alice.id, 1, 1);
    assert s.cartItems[0].id == 3;
    status := DeleteCartItem(s, Request(Some(bob.id), map[]), Some(3));
    aliceRows := s.GetCartItems(alice.id);
  }

  /** planId 0 is refused and changes nothing; planId 99 names no plan yet makes the user premium. */
  method SubscribeWithoutRealPlan() returns (refused: int, accepted: int, premium: bool)
    ensures refused == 400 && accepted == 200 && premium
  {
    var s := new MemStorage();
    var alice := s.CreateUser(InsertUser("alice", "secret"));
    refused := Subscribe(s, Request(Some(alice.id), map["planId" := JNum(0.0)]));
    accepted := Subscribe(s, Request(Some(alice.id), map["planId" := JNum(99.0)]));
    premium := s.users[0].isPremium;
  }

  /** The counter is shared: a cart row added before the first registration takes id 1 from it. */
  method CartRowBeforeFirstUser() returns (user: User)
    ensures user.id == 2 && !user.isPremium
  {
    var s := new MemStorage();
    s.AddToCart(7, 1, 1);
    user := s.CreateUser(InsertUser("alice", "secret"));
  }
}
