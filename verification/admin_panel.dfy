/** The current admin panel (src/components/admin/AdminPanel.tsx): it loads
    the stored collections once, and each moderation handler computes a new
    product list from its own `products` state, writes it to storage and
    makes it the new state. */
module AdminPanel {
  import opened Wrappers
  import opened Domain
  import opened Catalog
  import opened Storage

  /** `{ ...p, featured: !p.featured }`. */
  function Toggled(p: Product): (q: Product)
    ensures IsFeatured(q) != IsFeatured(p)
    ensures q.(featured := p.featured) == p
  {
    p.(featured := Some(!IsFeatured(p)))
  }

  /** The feature toggle: every listing with the id has its flag flipped,
      the rest are kept as they are. */
  function ToggleFeatured(ps: seq<Product>, id: string): (r: seq<Product>)
    ensures |r| == |ps|
    ensures forall i :: 0 <= i < |ps| ==>
      r[i] == if ps[i].id == id then Toggled(ps[i]) else ps[i]
    decreases |ps|
  {
    if ps == [] then []
    else [if ps[0].id == id then Toggled(ps[0]) else ps[0]] + ToggleFeatured(ps[1..], id)
  }

  /** Toggling twice restores every flag as the screen reads it (an absent
      flag reads as false and comes back as an explicit false) and touches
      nothing else. */
  lemma ToggleTwiceRestores(ps: seq<Product>, id: string)
    ensures |ToggleFeatured(ToggleFeatured(ps, id), id)| == |ps|
    ensures forall i :: 0 <= i < |ps| ==>
      var q := ToggleFeatured(ToggleFeatured(ps, id), id)[i];
      IsFeatured(q) == IsFeatured(ps[i]) && q.(featured := ps[i].featured) == ps[i]
  {
  }

  class AdminPanel {
    const store: Store
    var products: seq<Product>
    var users: seq<Account>
    var orders: seq<Order>
    var searchQuery: string

    /** Mounting runs `loadData`. */
    constructor (store: Store)
      ensures this.store == store
      ensures products == store.products && users == store.users && orders == store.orders
      ensures searchQuery == ""
    {
      this.store := store;
      products, users, orders := store.products, store.users, store.orders;
      searchQuery := "";
    }

    /** `handleVerifyProduct`: every listing with the id becomes verified,
        whatever its status was; the others are kept. */
    method VerifyProduct(id: string)
      modifies this`products, store`products
      ensures products == SetStatus(old(products), id, Verified)
      ensures store.products == products
    {
      var updated := SetStatus(products, id, Verified);
      store.products := updated;
      products := updated;
    }

    /** `handleRejectProduct`: only when the admin confirms, every listing with
        the id becomes rejected; declining changes nothing. */
    method RejectProduct(id: string, confirmed: bool)
      modifies this`products, store`products
      ensures confirmed ==> products == SetStatus(old(products), id, Rejected) && store.products == products
      ensures !confirmed ==> products == old(products) && store.products == old(store.products)
    {
      if confirmed {
        var updated := SetStatus(products, id, Rejected);
        store.products := updated;
        products := updated;
      }
    }

    /** `handleFeatureProduct`. */
    method FeatureProduct(id: string)
      modifies this`products, store`products
      ensures products == ToggleFeatured(old(products), id)
      ensures store.products == products
    {
      var updated := ToggleFeatured(products, id);
      store.products := updated;
      products := updated;
    }

    method SetSearchQuery(query: string)
      modifies this`searchQuery
      ensures searchQuery == query
    {
      searchQuery := query;
    }
  }

  /** The verify and reject buttons are rendered on the searched pending
      queue, the feature button on the verified list; so the moderation
      actions the screen offers act on pending listings and the feature toggle
      on verified ones. */
  lemma OfferedActionsFollowStatus(ps: seq<Product>, query: string, p: Product)
    ensures p in PendingSearch(ps, query) ==> p.status == Pending
    ensures p in WithStatus(ps, Verified) ==> p.status == Verified
  {
  }
}
