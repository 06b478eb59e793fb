/** The farmer's listing screen (src/components/farmer/MyProducts.tsx): the
    farmer's own listings, a status filter, and a confirmed delete that
    rewrites the stored catalogue and reloads. */
module MyProducts {
  import opened Domain
  import opened Seqs
  import opened Catalog
  import opened Storage

  datatype StatusFilter = All | Only(status: ProductStatus)

  /** The status tabs: "all" shows every listing, any other tab the listings
      in that status. */
  function Filtered(ps: seq<Product>, f: StatusFilter): (r: seq<Product>)
    ensures forall p :: p in r <==> p in ps && (f.All? || p.status == f.status)
    ensures IsSubseq(r, ps)
    ensures f.All? ==> r == ps
  {
    SubseqRefl(ps);
    if f.All? then ps else WithStatus(ps, f.status)
  }

  /** The delete button is drawn on pending listings only. */
  predicate DeleteOffered(p: Product)
  {
    p.status == Pending
  }

  /** The handlers do not look at the status, but when listing ids are
      unique, deleting through an offered button removes that listing and
      never a verified, rejected or sold one. */
  lemma OfferedDeleteSparesModerated(ps: seq<Product>, i: int)
    requires 0 <= i < |ps| && DeleteOffered(ps[i])
    requires forall j, k :: 0 <= j < k < |ps| ==> ps[j].id != ps[k].id
    ensures ps[i] !in WithoutId(ps, ps[i].id)
    ensures forall q :: q in ps && q.status != Pending ==> q in WithoutId(ps, ps[i].id)
  {
    forall q | q in ps && q.status != Pending ensures q in WithoutId(ps, ps[i].id) {
      var k :| 0 <= k < |ps| && ps[k] == q;
      assert k != i;
    }
  }

  class MyProducts {
    const user: User
    const store: Store
    var products: seq<Product>
    var filter: StatusFilter

    constructor (user: User, store: Store)
      ensures this.user == user && this.store == store
      ensures products == OwnedBy(store.products, user.id) && filter == All
    {
      this.user, this.store := user, store;
      products := OwnedBy(store.products, user.id);
      filter := All;
    }

    /** `loadProducts`. */
    method LoadProducts()
      modifies this`products
      ensures products == OwnedBy(store.products, user.id)
    {
      products := OwnedBy(store.products, user.id);
    }

    method SetFilter(f: StatusFilter)
      modifies this`filter
      ensures filter == f
    {
      filter := f;
    }

    /** `handleDelete`: only when confirmed, every stored listing with the id
        is removed and the farmer's list is reloaded. */
    method HandleDelete(id: string, confirmed: bool)
      modifies this`products, store`products
      ensures confirmed ==> store.products == WithoutId(old(store.products), id)
      ensures confirmed ==> products == OwnedBy(store.products, user.id)
      ensures confirmed ==> forall p :: p in products ==> p.id != id
      ensures !confirmed ==> products == old(products) && store.products == old(store.products)
    {
      if confirmed {
        store.products := WithoutId(store.products, id);
        LoadProducts();
      }
    }

    /** The listings under the chosen tab, in stored order. */
    function Shown(): (r: seq<Product>)
      reads this
      ensures forall p :: p in r <==> p in products && (filter.All? || p.status == filter.status)
      ensures IsSubseq(r, products)
    {
      Filtered(products, filter)
    }
  }
}
