/** A farmer's sales (src/components/farmer/SalesHistory.tsx): the stored
    orders placed for the farmer's listings, their number and the sum of
    their amounts. */
module SalesHistory {
  import opened Domain
  import opened Seqs
  import Cart

  function FarmerOrderPred(farmerId: string): Order -> bool
  {
    (o: Order) => o.farmerId == farmerId
  }

  /** The orders for the farmer, in stored order. */
  function FarmerOrders(os: seq<Order>, farmerId: string): (r: seq<Order>)
    ensures forall o :: o in r <==> o in os && o.farmerId == farmerId
    ensures IsSubseq(r, os)
  {
    Filter(os, FarmerOrderPred(farmerId))
  }

  datatype SalesStats = SalesStats(total: nat, earnings: int)

  /** The figures at the head of the screen. */
  function Stats(os: seq<Order>, farmerId: string): (s: SalesStats)
    ensures s.total <= |os|
    ensures FarmerOrders(os, farmerId) == [] ==> s == SalesStats(0, 0)
  {
    var mine := FarmerOrders(os, farmerId);
    SubseqMembers(mine, os);
    SalesStats(|mine|, Sum(mine, OrderAmount))
  }

  function FarmerLinePred(farmerId: string): CartItem -> bool
  {
    (l: CartItem) => l.product.farmerId == farmerId
  }

  /** The orders a checkout creates for one farmer charge exactly the value
      of that farmer's cart lines. */
  lemma {:induction false} CheckoutOrdersForFarmer(cart: seq<CartItem>, user: User, ids: seq<string>, now: int, farmerId: string)
    requires |ids| == |cart|
    ensures Sum(FarmerOrders(Cart.CheckoutOrders(cart, user, ids, now), farmerId), OrderAmount) ==
            Sum(Filter(cart, FarmerLinePred(farmerId)), Cart.LineValue)
    decreases |cart|
  {
    if cart != [] {
      var os := Cart.CheckoutOrders(cart, user, ids, now);
      assert os[1..] == Cart.CheckoutOrders(cart[1..], user, ids[1..], now);
      CheckoutOrdersForFarmer(cart[1..], user, ids[1..], now, farmerId);
    }
  }

  /** After a checkout the farmer's sales earnings grow by exactly the value
      of the cart lines for the farmer's listings, and the order count by the
      number of those lines. */
  lemma CheckoutRaisesEarnings(stored: seq<Order>, cart: seq<CartItem>, user: User, ids: seq<string>, now: int, farmerId: string)
    requires |ids| == |cart|
    ensures var mine := Filter(cart, FarmerLinePred(farmerId));
            var before := Stats(stored, farmerId);
            var after := Stats(stored + Cart.CheckoutOrders(cart, user, ids, now), farmerId);
            after.earnings == before.earnings + Sum(mine, Cart.LineValue) &&
            after.total == before.total + |mine|
  {
    var placed := Cart.CheckoutOrders(cart, user, ids, now);
    FilterAppend(stored, placed, FarmerOrderPred(farmerId));
    SumAppend(FarmerOrders(stored, farmerId), FarmerOrders(placed, farmerId), OrderAmount);
    CheckoutOrdersForFarmer(cart, user, ids, now, farmerId);
    CheckoutOrderCount(cart, user, ids, now, farmerId);
  }

  lemma {:induction false} CheckoutOrderCount(cart: seq<CartItem>, user: User, ids: seq<string>, now: int, farmerId: string)
    requires |ids| == |cart|
    ensures |FarmerOrders(Cart.CheckoutOrders(cart, user, ids, now), farmerId)| == |Filter(cart, FarmerLinePred(farmerId))|
    decreases |cart|
  {
    if cart != [] {
      var os := Cart.CheckoutOrders(cart, user, ids, now);
      assert os[1..] == Cart.CheckoutOrders(cart[1..], user, ids[1..], now);
      CheckoutOrderCount(cart[1..], user, ids[1..], now, farmerId);
    }
  }
}
