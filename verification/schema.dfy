/**
  The records the store keeps, with the field lists of the database schema
  (shared/schema.ts). Prices stay decimal strings, as the schema serialises them.
 */
module Schema {

  datatype User = User(id: int, username: string, password: string, isPremium: bool)

  /** What registration hands to the store: a user without its id and premium flag. */
  datatype InsertUser = InsertUser(username: string, password: string)

  datatype Product = Product(id: int, name: string, description: string, price: string, imageUrl: string)

  datatype CartItem = CartItem(id: int, userId: int, productId: int, quantity: int)

  datatype SubscriptionPlan = SubscriptionPlan(id: int, name: string, description: string, price: string, interval: string)

  /** The key each record is stored under: its own id. */
  function UserId(u: User): int { u.id }
  function ProductId(p: Product): int { p.id }
  function ItemId(c: CartItem): int { c.id }
  function PlanId(p: SubscriptionPlan): int { p.id }
}
