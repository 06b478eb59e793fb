/** The older admin panel (src/components/AdminPanel.tsx), over the legacy
    storage keys. Each handler re-reads the stored list, rewrites it and makes
    the result the screen's state; rejecting deletes the listing instead of
    marking it rejected. */
module LegacyAdminPanel {
  import opened Domain
  import opened Catalog
  import opened Storage
  import opened Seqs
  import opened Text

  class LegacyAdminPanel {
    const store: LegacyStore
    var products: seq<Product>
    var users: seq<Account>
    var searchQuery: string

    constructor (store: LegacyStore)
      ensures this.store == store
      ensures products == store.products && users == store.users && searchQuery == ""
    {
      this.store := store;
      products, users := store.products, store.users;
      searchQuery := "";
    }

    /** `handleVerifyProduct`: maps the stored list, not the screen state. */
    method VerifyProduct(id: string)
      modifies this`products, store`products
      ensures store.products == SetStatus(old(store.products), id, Verified)
      ensures products == store.products
    {
      var updated := SetStatus(store.products, id, Verified);
      store.products := updated;
      products := updated;
    }

    /** `handleRejectProduct`: removes every stored listing with the id, with
        no confirmation. */
    method RejectProduct(id: string)
      modifies this`products, store`products
      ensures store.products == WithoutId(old(store.products), id)
      ensures products == store.products
    {
      var updated := WithoutId(store.products, id);
      store.products := updated;
      products := updated;
    }

    /** Typing in the search box above the pending queue. */
    method SetSearchQuery(query: string)
      modifies this`searchQuery
      ensures searchQuery == query
    {
      searchQuery := query;
    }

    /** `filteredPendingProducts`: the pending listings on screen whose name or
        farmer name contains the search text, ignoring case, in list order;
        an empty search shows the whole pending queue. */
    function FilteredPending(): (r: seq<Product>)
      reads this
      ensures forall p :: p in r <==>
        p in products && p.status == Pending &&
        (IncludesIgnoringCase(p.name, searchQuery) || IncludesIgnoringCase(p.farmerName, searchQuery))
      ensures IsSubseq(r, products)
      ensures searchQuery == "" ==> r == WithStatus(products, Pending)
    {
      if searchQuery == "" then EmptySearchShowsAllPending(products); PendingSearch(products, searchQuery)
      else PendingSearch(products, searchQuery)
    }
  }
}
