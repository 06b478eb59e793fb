/** The single-product payment screen (src/components/PaymentScreen.tsx):
    a clamped quantity input, the 2% platform fee on top of the item total,
    and a payment handler that appends one payment record and takes the
    purchased quantity off the stored listing, marking it sold when nothing
    is left. It works on the legacy storage keys. */
module PaymentScreen {
  import opened Wrappers
  import opened Domain
  import opened Seqs
  import opened Storage

  /** `finalAmount`: the item total plus the platform fee. */
  function FinalAmount(price: int, quantity: int): (r: int)
    ensures r - price * quantity == RoundHalfUp((price * quantity) as real * 0.02)
  {
    PlatformFeeIsRoundedTwoPercent(price * quantity);
    price * quantity + PlatformFee(price * quantity)
  }

  function Min(a: int, b: int): int { if a <= b then a else b }
  function Max(a: int, b: int): int { if a >= b then a else b }

  /** The quantity input: the typed number, or 1 when the text is not a
      number (`parsed` is None) or is zero, raised to at least 1 and then
      capped at the stock. */
  function ClampQuantity(parsed: Option<int>, stock: int): (q: int)
    ensures stock >= 1 ==> 1 <= q <= stock
    ensures stock < 1 ==> q == stock
    ensures parsed.Some? && 1 <= parsed.value <= stock ==> q == parsed.value
    ensures parsed.Some? && parsed.value > stock ==> q == stock
    ensures (parsed.None? || parsed.value < 1) ==> q == Min(1, stock)
  {
    var typed := if parsed.None? || parsed.value == 0 then 1 else parsed.value;
    Min(Max(1, typed), stock)
  }

  /** The stored listing after `quantity` units were bought from it. */
  function Purchased(p: Product, quantity: int): (r: Product)
    ensures r.quantity == p.quantity - quantity
    ensures r.status == Sold <==> (r.quantity <= 0 || p.status == Sold)
    ensures r.quantity > 0 ==> r.status == p.status
    ensures r.(quantity := p.quantity, status := p.status) == p
  {
    var left := p.quantity - quantity;
    p.(quantity := left, status := if left <= 0 then Sold else p.status)
  }

  /** The stored catalogue after the purchase: every listing with the id is
      decremented, the others are untouched. */
  function ApplyPurchase(ps: seq<Product>, id: string, quantity: int): (r: seq<Product>)
    ensures |r| == |ps|
    ensures forall i :: 0 <= i < |ps| ==>
      r[i] == if ps[i].id == id then Purchased(ps[i], quantity) else ps[i]
    decreases |ps|
  {
    if ps == [] then []
    else [if ps[0].id == id then Purchased(ps[0], quantity) else ps[0]] + ApplyPurchase(ps[1..], id, quantity)
  }

  function ProductQuantity(p: Product): int { p.quantity }

  function HasId(id: string): Product -> bool
  {
    (p: Product) => p.id == id
  }

  /** How many listings carry the id. */
  function CountId(ps: seq<Product>, id: string): (n: nat)
    ensures n <= |ps|
    decreases |ps|
  {
    if ps == [] then 0 else (if ps[0].id == id then 1 else 0) + CountId(ps[1..], id)
  }

  /** The count is the number of listings a filter on the id keeps, and it is
      zero exactly when no listing has the id. */
  lemma {:induction false} CountIdCountsListings(ps: seq<Product>, id: string)
    ensures CountId(ps, id) == |Filter(ps, HasId(id))|
    ensures CountId(ps, id) == 0 <==> forall p :: p in ps ==> p.id != id
    decreases |ps|
  {
    if ps != [] {
      CountIdCountsListings(ps[1..], id);
      if ps[0].id != id {
        forall p | p in ps && p != ps[0] ensures p in ps[1..] {
          var i :| 0 <= i < |ps| && ps[i] == p;
          assert i != 0;
          assert ps[1..][i - 1] == p;
        }
      }
    }
  }

  /** Stock is conserved: the total quantity on offer drops by the purchased
      quantity once per listing that carries the id, and by nothing else. */
  lemma {:induction false} PurchaseConservesStock(ps: seq<Product>, id: string, quantity: int)
    ensures Sum(ApplyPurchase(ps, id, quantity), ProductQuantity) + quantity * CountId(ps, id)
      == Sum(ps, ProductQuantity)
    decreases |ps|
  {
    if ps != [] {
      var r := ApplyPurchase(ps, id, quantity);
      var rest := ApplyPurchase(ps[1..], id, quantity);
      PurchaseConservesStock(ps[1..], id, quantity);
      assert r[1..] == rest;
      assert Sum(r, ProductQuantity) == r[0].quantity + Sum(rest, ProductQuantity);
      var hits := CountId(ps[1..], id);
      if ps[0].id == id {
        assert r[0].quantity == ps[0].quantity - quantity;
        assert quantity * (1 + hits) == quantity + quantity * hits;
      } else {
        assert r[0] == ps[0];
      }
    }
  }

  class PaymentScreen {
    const product: Product
    const user: User
    const store: LegacyStore
    var quantity: int

    /** With at least one unit in stock the chosen quantity stays between 1
        and the stock. */
    ghost predicate Valid()
      reads this
    {
      product.quantity >= 1 ==> 1 <= quantity <= product.quantity
    }

    constructor (product: Product, user: User, store: LegacyStore)
      ensures Valid()
      ensures this.product == product && this.user == user && this.store == store
      ensures quantity == 1
    {
      this.product, this.user, this.store := product, user, store;
      quantity := 1;
    }

    method ChangeQuantity(parsed: Option<int>)
      modifies this`quantity
      ensures Valid()
      ensures quantity == ClampQuantity(parsed, product.quantity)
    {
      quantity := ClampQuantity(parsed, product.quantity);
    }

    /** `handlePayment`: appends exactly one payment record carrying the final
        amount and the product, consumer and farmer ids, and applies the
        purchase to the stored catalogue. With the clamped quantity, buying
        from a listing that has stock never leaves its stock negative. */
    method HandlePayment(orderId: string, now: int) returns (record: PaymentRecord)
      requires Valid()
      modifies store`orders, store`products
      ensures product.quantity >= 1 ==> Purchased(product, quantity).quantity >= 0
      ensures record == PaymentRecord(orderId, product.id, user.id, product.farmerId,
                                      FinalAmount(product.price, quantity), "completed", now)
      ensures store.orders == old(store.orders) + [record]
      ensures store.products == ApplyPurchase(old(store.products), product.id, quantity)
    {
      record := PaymentRecord(orderId, product.id, user.id, product.farmerId,
                              FinalAmount(product.price, quantity), "completed", now);
      store.orders := store.orders + [record];
      store.products := ApplyPurchase(store.products, product.id, quantity);
    }
  }
}
