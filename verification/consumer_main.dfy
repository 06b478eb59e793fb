/** The consumer's cart (src/components/consumer/ConsumerMain.tsx): one line
    per product, merged by product id on add, set or removed on update, and
    a badge count that sums the line quantities. */
module ConsumerMain {
  import opened Domain
  import opened Seqs

  predicate InCart(cart: seq<CartItem>, id: string)
  {
    exists i :: 0 <= i < |cart| && cart[i].product.id == id
  }

  /** No two lines are for the same product. */
  ghost predicate DistinctIds(cart: seq<CartItem>)
  {
    forall i, j :: 0 <= i < j < |cart| ==> cart[i].product.id != cart[j].product.id
  }

  /** The line for `id` gets `extra` more units; every other line is kept. */
  function AddToLine(cart: seq<CartItem>, id: string, extra: int): (r: seq<CartItem>)
    ensures |r| == |cart|
    ensures forall i :: 0 <= i < |cart| ==>
      r[i] == if cart[i].product.id == id then cart[i].(quantity := cart[i].quantity + extra) else cart[i]
    decreases |cart|
  {
    if cart == [] then []
    else
      [if cart[0].product.id == id then cart[0].(quantity := cart[0].quantity + extra) else cart[0]]
      + AddToLine(cart[1..], id, extra)
  }

  /** The line for `id` gets the new quantity; every other line is kept. */
  function SetLine(cart: seq<CartItem>, id: string, quantity: int): (r: seq<CartItem>)
    ensures |r| == |cart|
    ensures forall i :: 0 <= i < |cart| ==>
      r[i] == if cart[i].product.id == id then cart[i].(quantity := quantity) else cart[i]
    decreases |cart|
  {
    if cart == [] then []
    else
      [if cart[0].product.id == id then cart[0].(quantity := quantity) else cart[0]]
      + SetLine(cart[1..], id, quantity)
  }

  function LineIsNot(id: string): CartItem -> bool
  {
    (l: CartItem) => l.product.id != id
  }

  /** `addToCart`: a product already in the cart gets the added quantity on
      its line, length and other lines unchanged; a new product is appended
      as one line at the end. */
  function AddLine(cart: seq<CartItem>, item: CartItem): (r: seq<CartItem>)
    ensures InCart(cart, item.product.id) ==> r == AddToLine(cart, item.product.id, item.quantity)
    ensures !InCart(cart, item.product.id) ==> r == cart + [item]
    ensures InCart(r, item.product.id)
  {
    if InCart(cart, item.product.id) then AddToLine(cart, item.product.id, item.quantity)
    else
      assert (cart + [item])[|cart|] == item;
      cart + [item]
  }

  /** `updateCartQuantity`: a positive quantity is set on the matching line;
      zero or less removes the matching line, the others keeping their order;
      an id not in the cart changes nothing. */
  function UpdateLine(cart: seq<CartItem>, id: string, quantity: int): (r: seq<CartItem>)
    ensures quantity > 0 ==> r == SetLine(cart, id, quantity)
    ensures quantity <= 0 ==> !InCart(r, id) && IsSubseq(r, cart)
    ensures quantity <= 0 ==> forall l :: l in cart && l.product.id != id ==> l in r
    ensures !InCart(cart, id) ==> r == cart
  {
    if quantity > 0 then
      assert !InCart(cart, id) ==> SetLine(cart, id, quantity) == cart;
      SetLine(cart, id, quantity)
    else
      var kept := Filter(cart, LineIsNot(id));
      if !InCart(cart, id) then
        FilterKeepsAll(cart, LineIsNot(id));
        kept
      else kept
  }

  function LineQuantity(l: CartItem): int { l.quantity }

  /** `cartCount`: Σ line quantities; zero for an empty cart and never
      negative when no line is. */
  function CartCount(cart: seq<CartItem>): (c: int)
    ensures cart == [] ==> c == 0
    ensures (forall l :: l in cart ==> l.quantity >= 0) ==> c >= 0
  {
    if forall l :: l in cart ==> l.quantity >= 0 then
      SumNonNegative(cart, LineQuantity);
      Sum(cart, LineQuantity)
    else
      Sum(cart, LineQuantity)
  }

  /** With distinct ids, raising the one line for `id` raises the sum by
      `extra`; with no line for `id` nothing changes. */
  lemma {:induction false} AddToLineCount(cart: seq<CartItem>, id: string, extra: int)
    requires DistinctIds(cart)
    ensures CartCount(AddToLine(cart, id, extra)) == CartCount(cart) + (if InCart(cart, id) then extra else 0)
    decreases |cart|
  {
    if cart != [] {
      var r := AddToLine(cart, id, extra);
      assert r == [r[0]] + AddToLine(cart[1..], id, extra);
      assert DistinctIds(cart[1..]) by {
        forall i, j | 0 <= i < j < |cart[1..]|
          ensures cart[1..][i].product.id != cart[1..][j].product.id
        {
          assert cart[1..][i] == cart[i + 1] && cart[1..][j] == cart[j + 1];
        }
      }
      AddToLineCount(cart[1..], id, extra);
      if cart[0].product.id == id {
        assert !InCart(cart[1..], id) by {
          forall k | 0 <= k < |cart[1..]| ensures cart[1..][k].product.id != id {
            assert cart[1..][k] == cart[k + 1];
          }
        }
      } else {
        assert InCart(cart, id) <==> InCart(cart[1..], id) by {
          if InCart(cart, id) {
            var k :| 0 <= k < |cart| && cart[k].product.id == id;
            assert k > 0 && cart[1..][k - 1] == cart[k];
          }
          if InCart(cart[1..], id) {
            var k :| 0 <= k < |cart[1..]| && cart[1..][k].product.id == id;
            assert cart[k + 1] == cart[1..][k];
          }
        }
      }
    }
  }

  /** Adding an item to a cart without duplicate lines raises the badge count
      by exactly the added quantity, whether it merged into a line or opened
      a new one. */
  lemma AddToCartCount(cart: seq<CartItem>, item: CartItem)
    requires DistinctIds(cart)
    ensures CartCount(AddLine(cart, item)) == CartCount(cart) + item.quantity
  {
    if InCart(cart, item.product.id) {
      AddToLineCount(cart, item.product.id, item.quantity);
    } else {
      SumAppend(cart, [item], LineQuantity);
      assert Sum([item], LineQuantity) == item.quantity + Sum([item][1..], LineQuantity);
    }
  }

  /** Adding never creates a second line for a product. */
  lemma AddToCartKeepsDistinct(cart: seq<CartItem>, item: CartItem)
    requires DistinctIds(cart)
    ensures DistinctIds(AddLine(cart, item))
  {
    var r := AddLine(cart, item);
    if !InCart(cart, item.product.id) {
      forall i, j | 0 <= i < j < |r| ensures r[i].product.id != r[j].product.id {
        if j == |cart| {
          assert r[i] == cart[i];
        }
      }
    }
  }

  /** A sub-sequence of a cart without duplicate lines has none either. */
  lemma {:induction false} SubseqKeepsDistinct(a: seq<CartItem>, b: seq<CartItem>)
    requires IsSubseq(a, b) && DistinctIds(b)
    ensures DistinctIds(a)
    decreases |b|
  {
    if a != [] && b != [] {
      assert DistinctIds(b[1..]) by {
        forall i, j | 0 <= i < j < |b[1..]|
          ensures b[1..][i].product.id != b[1..][j].product.id
        {
          assert b[1..][i] == b[i + 1] && b[1..][j] == b[j + 1];
        }
      }
      if a[0] == b[0] && IsSubseq(a[1..], b[1..]) {
        SubseqKeepsDistinct(a[1..], b[1..]);
        forall i, j | 0 <= i < j < |a| ensures a[i].product.id != a[j].product.id {
          if i == 0 {
            assert a[j] == a[1..][j - 1];
            SubseqMembers(a[1..], b[1..]);
            assert a[j] in a[1..];
            var k :| 0 <= k < |b[1..]| && b[1..][k] == a[j];
            assert b[k + 1] == a[j];
          } else {
            assert a[i] == a[1..][i - 1] && a[j] == a[1..][j - 1];
          }
        }
      } else {
        SubseqKeepsDistinct(a, b[1..]);
      }
    }
  }

  /** Updating never creates a second line for a product. */
  lemma UpdateKeepsDistinct(cart: seq<CartItem>, id: string, quantity: int)
    requires DistinctIds(cart)
    ensures DistinctIds(UpdateLine(cart, id, quantity))
  {
    if quantity <= 0 {
      SubseqKeepsDistinct(UpdateLine(cart, id, quantity), cart);
    }
  }

  /** The cart state owned by the consumer shell. */
  class ConsumerMain {
    var cart: seq<CartItem>

    ghost predicate Valid()
      reads this
    {
      DistinctIds(cart)
    }

    constructor ()
      ensures cart == [] && Valid()
    {
      cart := [];
    }

    method AddToCart(item: CartItem)
      requires Valid()
      modifies this
      ensures cart == AddLine(old(cart), item) && Valid()
      ensures Count() == old(Count()) + item.quantity
    {
      AddToCartKeepsDistinct(cart, item);
      AddToCartCount(cart, item);
      cart := AddLine(cart, item);
    }

    method UpdateCartQuantity(id: string, quantity: int)
      requires Valid()
      modifies this
      ensures cart == UpdateLine(old(cart), id, quantity) && Valid()
    {
      UpdateKeepsDistinct(cart, id, quantity);
      cart := UpdateLine(cart, id, quantity);
    }

    method ClearCart()
      modifies this
      ensures cart == [] && Valid() && Count() == 0
    {
      cart := [];
    }

    function Count(): int
      reads this
    {
      CartCount(cart)
    }
  }
}
