/** The browser's local storage, one sequence per key. The current screens
    use the `agroconnect_pro_*` keys (class Store); the older screens read and
    write the unprefixed `agroconnect_*` keys (class LegacyStore), which are a
    separate set of collections. A key that was never written reads as the
    empty list. */
module Storage {
  import opened Wrappers
  import opened Domain

  class Store {
    var users: seq<Account>
    var products: seq<Product>
    var orders: seq<Order>
    /** Whether the one-time initialisation marker is present. */
    var initialized: bool
    /** The signed-in user kept across reloads. */
    var savedUser: Option<User>

    constructor ()
      ensures users == [] && products == [] && orders == []
      ensures !initialized && savedUser == None
    {
      users, products, orders := [], [], [];
      initialized, savedUser := false, None;
    }
  }

  /** What the single-product payment screen stores: a record with a status
      outside the order status union ("completed") and no quantity. */
  datatype PaymentRecord = PaymentRecord(
    id: string,
    productId: string,
    consumerId: string,
    farmerId: string,
    amount: int,
    status: string,
    createdAt: int)

  class LegacyStore {
    var users: seq<Account>
    var products: seq<Product>
    var orders: seq<PaymentRecord>

    constructor ()
      ensures users == [] && products == [] && orders == []
    {
      users, products, orders := [], [], [];
    }
  }
}
