/** The records the whole application passes around (src/App.tsx): accounts,
    product listings, cart lines and orders. Identifiers are strings,
    timestamps are abstract integers (later means larger), prices and
    quantities are integers, coordinates are reals. */
module Domain {
  import opened Wrappers

  datatype Role = Farmer | Consumer | Admin

  /** The string the source stores for a role. */
  function RoleName(r: Role): string
  {
    match r
    case Farmer => "farmer"
    case Consumer => "consumer"
    case Admin => "admin"
  }

  /** The four states of a product listing. */
  datatype ProductStatus = Pending | Verified | Rejected | Sold

  /** The string the source stores for a product status. */
  function StatusKey(s: ProductStatus): string
  {
    match s
    case Pending => "pending"
    case Verified => "verified"
    case Rejected => "rejected"
    case Sold => "sold"
  }

  /** The four states an order may be in. */
  datatype OrderStatus = OrderPending | Confirmed | Delivered | Cancelled

  function OrderStatusKey(s: OrderStatus): string
  {
    match s
    case OrderPending => "pending"
    case Confirmed => "confirmed"
    case Delivered => "delivered"
    case Cancelled => "cancelled"
  }

  datatype Location = Location(latitude: real, longitude: real, address: string, town: string)

  /** A signed-in user as the screens see it: never carries the password. */
  datatype User = User(
    id: string,
    fullName: string,
    mobile: string,
    role: Role,
    location: Location,
    createdAt: int)

  /** A stored account: the user record plus the password saved beside it. */
  datatype Account = Account(profile: User, password: string)

  datatype Product = Product(
    id: string,
    farmerId: string,
    farmerName: string,
    farmerPhone: string,
    name: string,
    category: string,
    quantity: int,
    unit: string,
    price: int,
    description: string,
    images: seq<string>,
    location: Location,
    status: ProductStatus,
    uploadedAt: int,
    featured: Option<bool>)

  /** `!!p.featured`: an absent flag reads as false. */
  predicate IsFeatured(p: Product)
  {
    p.featured == Some(true)
  }

  datatype CartItem = CartItem(product: Product, quantity: int)

  datatype Order = Order(
    id: string,
    productId: string,
    productName: string,
    productImage: string,
    consumerId: string,
    consumerName: string,
    consumerPhone: string,
    farmerId: string,
    farmerName: string,
    farmerPhone: string,
    quantity: int,
    amount: int,
    status: OrderStatus,
    createdAt: int,
    deliveryAddress: string)

  function OrderAmount(o: Order): int
  {
    o.amount
  }

  /** Great-circle distance in km between (lat1, lon1) and (lat2, lon2): the
      haversine formula, supplied by the caller and never given a body here. */
  type Haversine = (real, real, real, real) -> real

  /** The platform fee, `Math.round(amount * 0.02)`, on integer amounts. */
  function PlatformFee(amount: int): (fee: int)
    ensures 50 * fee - 25 <= amount < 50 * fee + 25
  {
    (amount + 25) / 50
  }

  /** `Math.round(x)`: the nearest integer, halves rounded up. */
  function RoundHalfUp(x: real): (r: int)
    ensures r as real <= x + 0.5 < r as real + 1.0
  {
    (x + 0.5).Floor
  }

  /** The integer fee is exactly the rounded two percent of the amount. */
  lemma PlatformFeeIsRoundedTwoPercent(amount: int)
    ensures PlatformFee(amount) == RoundHalfUp(amount as real * 0.02)
  {
    var fee := PlatformFee(amount);
    var x := amount as real * 0.02;
    assert fee as real <= x + 0.5 < fee as real + 1.0;
  }
}
