/** The cart screen and its checkout (src/components/consumer/Cart.tsx): the
    bill (subtotal, two percent fee, total) and the conversion of every cart
    line into a pending order appended to the stored orders. */
module Cart {
  import opened Wrappers
  import opened Domain
  import opened Seqs
  import opened Storage
  import ConsumerMain

  function LineValue(l: CartItem): int
  {
    l.product.price * l.quantity
  }

  /** Σ price × quantity over the lines: zero for an empty cart and never
      negative when no price or quantity is. */
  function Subtotal(cart: seq<CartItem>): (s: int)
    ensures cart == [] ==> s == 0
    ensures (forall l :: l in cart ==> l.product.price >= 0 && l.quantity >= 0) ==> s >= 0
  {
    if forall l :: l in cart ==> l.product.price >= 0 && l.quantity >= 0 then
      assert forall l :: l in cart ==> LineValue(l) >= 0 by {
        forall l | l in cart ensures LineValue(l) >= 0 {
          assert l.product.price * l.quantity >= 0;
        }
      }
      SumNonNegative(cart, LineValue);
      Sum(cart, LineValue)
    else
      Sum(cart, LineValue)
  }

  function Fee(cart: seq<CartItem>): int
  {
    PlatformFee(Subtotal(cart))
  }

  /** The amount shown as the total: subtotal plus the rounded fee. */
  function Total(cart: seq<CartItem>): (t: int)
    ensures t - Subtotal(cart) == RoundHalfUp(Subtotal(cart) as real * 0.02)
  {
    PlatformFeeIsRoundedTwoPercent(Subtotal(cart));
    Subtotal(cart) + Fee(cart)
  }

  /** Line amounts in stock-valued carts are never negative, nor is the bill. */
  lemma TotalNonNegative(cart: seq<CartItem>)
    requires forall l :: l in cart ==> l.product.price >= 0 && l.quantity >= 0
    ensures 0 <= Subtotal(cart) <= Total(cart)
  {
  }

  /** The first image of the listing, or the empty string when it has none. */
  function FirstImage(p: Product): string
  {
    if |p.images| > 0 then p.images[0] else ""
  }

  /** The order one cart line becomes: the consumer's identity and address,
      the farmer's identity from the listing, the line's quantity and value,
      status pending. */
  function OrderFor(l: CartItem, user: User, id: string, now: int): (o: Order)
    ensures o.id == id && o.status == OrderPending && o.createdAt == now
    ensures o.productId == l.product.id && o.productName == l.product.name
    ensures o.productImage == FirstImage(l.product)
    ensures o.consumerId == user.id && o.consumerName == user.fullName
    ensures o.consumerPhone == user.mobile && o.deliveryAddress == user.location.address
    ensures o.farmerId == l.product.farmerId && o.farmerName == l.product.farmerName
    ensures o.farmerPhone == l.product.farmerPhone
    ensures o.quantity == l.quantity && o.amount == l.product.price * l.quantity
  {
    Order(id, l.product.id, l.product.name, FirstImage(l.product), user.id, user.fullName,
          user.mobile, l.product.farmerId, l.product.farmerName, l.product.farmerPhone,
          l.quantity, l.product.price * l.quantity, OrderPending, now, user.location.address)
  }

  /** One order per cart line, in cart order; the i-th order carries the i-th
      fresh id. */
  function CheckoutOrders(cart: seq<CartItem>, user: User, ids: seq<string>, now: int): (os: seq<Order>)
    requires |ids| == |cart|
    ensures |os| == |cart|
    ensures forall i :: 0 <= i < |cart| ==> os[i] == OrderFor(cart[i], user, ids[i], now)
    decreases |cart|
  {
    if cart == [] then []
    else [OrderFor(cart[0], user, ids[0], now)] + CheckoutOrders(cart[1..], user, ids[1..], now)
  }

  /** The orders placed at checkout together charge exactly the subtotal; the
      fee is shown on the bill but recorded on no order. */
  lemma {:induction false} CheckoutChargesSubtotal(cart: seq<CartItem>, user: User, ids: seq<string>, now: int)
    requires |ids| == |cart|
    ensures Sum(CheckoutOrders(cart, user, ids, now), OrderAmount) == Subtotal(cart)
    decreases |cart|
  {
    if cart != [] {
      var os := CheckoutOrders(cart, user, ids, now);
      assert os[1..] == CheckoutOrders(cart[1..], user, ids[1..], now);
      CheckoutChargesSubtotal(cart[1..], user, ids[1..], now);
    }
  }

  datatype CheckoutError = EmptyCart

  /** `handleCheckout`: an empty cart is refused and nothing is written;
      otherwise the new orders are appended after the stored ones, the
      listings' stock is left as it was and the cart is cleared. */
  method HandleCheckout(store: Store, shell: ConsumerMain.ConsumerMain, user: User, ids: seq<string>, now: int)
    returns (r: Result<seq<Order>, CheckoutError>)
    requires |ids| == |shell.cart|
    modifies store`orders, shell
    ensures old(shell.cart) == [] ==>
      r == Err(EmptyCart) && store.orders == old(store.orders) && shell.cart == old(shell.cart)
    ensures old(shell.cart) != [] ==>
      r == Ok(CheckoutOrders(old(shell.cart), user, ids, now)) &&
      store.orders == old(store.orders) + r.value && shell.cart == []
    ensures store.products == old(store.products)
  {
    if shell.cart == [] {
      return Err(EmptyCart);
    }
    var orders := CheckoutOrders(shell.cart, user, ids, now);
    store.orders := store.orders + orders;
    shell.ClearCart();
    r := Ok(orders);
  }
}
