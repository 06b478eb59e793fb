/** The quantity selector of the mobile product page
    (src/components/mobile/ProductDetails.tsx): starts at 1, steps down to no
    less than 1, steps up to no more than the available stock. */
module ProductDetails {
  import opened MockData

  /** The minus button: `Math.max(1, quantity - 1)`. */
  function StepDown(quantity: int): (q: int)
    ensures q >= 1
    ensures quantity > 1 ==> q == quantity - 1
    ensures quantity <= 1 ==> q == 1
  {
    if quantity - 1 > 1 then quantity - 1 else 1
  }

  /** The plus button: `Math.min(stock, quantity + 1)`. */
  function StepUp(quantity: int, stock: int): (q: int)
    ensures q <= stock
    ensures quantity < stock ==> q == quantity + 1
    ensures quantity >= stock ==> q == stock
  {
    if stock < quantity + 1 then stock else quantity + 1
  }

  /** Both buttons keep a quantity that lies within [1, stock] inside it. */
  lemma StepsKeepRange(quantity: int, stock: int)
    requires 1 <= quantity <= stock
    ensures 1 <= StepDown(quantity) <= stock
    ensures 1 <= StepUp(quantity, stock) <= stock
  {
  }

  /** The quantity after k presses of the plus button. */
  function PlusPresses(quantity: int, stock: int, k: nat): int
    decreases k
  {
    if k == 0 then quantity else PlusPresses(StepUp(quantity, stock), stock, k - 1)
  }

  /** From a quantity within stock, k presses of plus give the quantity plus
      k, capped at the stock. */
  lemma {:induction false} PlusPressesCapAtStock(quantity: int, stock: int, k: nat)
    requires quantity <= stock
    ensures PlusPresses(quantity, stock, k) == if quantity + k < stock then quantity + k else stock
    decreases k
  {
    if k > 0 {
      PlusPressesCapAtStock(StepUp(quantity, stock), stock, k - 1);
    }
  }

  class QuantitySelector {
    const product: MobileProduct
    var quantity: int

    /** The selected quantity stays within the stock whenever there is any. */
    ghost predicate Valid()
      reads this
    {
      product.quantity >= 1 ==> 1 <= quantity <= product.quantity
    }

    constructor (product: MobileProduct)
      ensures this.product == product && quantity == 1 && Valid()
    {
      this.product := product;
      quantity := 1;
    }

    method Minus()
      requires Valid()
      modifies this
      ensures quantity == StepDown(old(quantity)) && Valid()
    {
      quantity := StepDown(quantity);
    }

    method Plus()
      requires Valid()
      modifies this
      ensures quantity == StepUp(old(quantity), product.quantity) && Valid()
    {
      quantity := StepUp(quantity, product.quantity);
    }

    /** The displayed total: price × selected quantity, never above the
        price of the whole stock when the price is not negative. */
    function Total(): (t: int)
      reads this
      requires Valid()
      ensures product.quantity >= 1 && product.price >= 0 ==> 0 <= t <= product.price * product.quantity
    {
      product.price * quantity
    }
  }
}
