/** The consumer marketplace (src/components/consumer/Marketplace.tsx): the
    verified listings from storage narrowed by a case-insensitive search over
    name and description, a category and an inclusive price range. */
module Marketplace {
  import opened Domain
  import opened Seqs
  import opened Text
  import opened Catalog
  import opened Storage
  import ConsumerMain

  const AllCategories := "all"
  const InitialMinPrice := 0
  const InitialMaxPrice := 1000

  predicate SearchHit(p: Product, query: string)
  {
    IncludesIgnoringCase(p.name, query) || IncludesIgnoringCase(p.description, query)
  }

  function SearchPred(query: string): Product -> bool
  {
    (p: Product) => SearchHit(p, query)
  }

  predicate CategoryHit(p: Product, category: string)
  {
    category == AllCategories || p.category == category
  }

  function CategoryPred(category: string): Product -> bool
  {
    (p: Product) => p.category == category
  }

  function PricePred(lo: int, hi: int): Product -> bool
  {
    (p: Product) => lo <= p.price <= hi
  }

  /** The filter chain: search when the box is non-empty, category unless
      "all", then the inclusive price range; order is kept. */
  function ApplyFilters(ps: seq<Product>, query: string, category: string, lo: int, hi: int): (r: seq<Product>)
    ensures forall p :: p in r <==>
      p in ps && SearchHit(p, query) && CategoryHit(p, category) && lo <= p.price <= hi
    ensures IsSubseq(r, ps)
  {
    var searched := if query != "" then Filter(ps, SearchPred(query)) else ps;
    var sorted := if category != AllCategories then Filter(searched, CategoryPred(category)) else searched;
    var r := Filter(sorted, PricePred(lo, hi));
    // The empty query matches every listing, so skipping the search step
    // when the box is empty changes nothing.
    assert forall p: Product :: SearchHit(p, "") by {
      forall p: Product ensures SearchHit(p, "") {
        EmptyIsContained(ToLower(p.name));
      }
    }
    FilterMembers(ps, SearchPred(query));
    FilterMembers(searched, CategoryPred(category));
    FilterMembers(sorted, PricePred(lo, hi));
    SubseqRefl(ps);
    SubseqRefl(searched);
    SubseqTrans(sorted, searched, ps);
    SubseqTrans(r, sorted, ps);
    r
  }

  /** What a consumer sees: only verified listings, all from storage. */
  function Listing(stored: seq<Product>, query: string, category: string, lo: int, hi: int): (r: seq<Product>)
    ensures forall p :: p in r <==>
      p in stored && p.status == Verified &&
      SearchHit(p, query) && CategoryHit(p, category) && lo <= p.price <= hi
  {
    ApplyFilters(WithStatus(stored, Verified), query, category, lo, hi)
  }

  /** Approving a pending listing makes it visible to every consumer whose
      filters it matches. */
  lemma VerifiedListingBecomesVisible(stored: seq<Product>, i: int, query: string, category: string, lo: int, hi: int)
    requires 0 <= i < |stored|
    requires SearchHit(stored[i], query) && CategoryHit(stored[i], category) && lo <= stored[i].price <= hi
    ensures stored[i].(status := Verified) in Listing(SetStatus(stored, stored[i].id, Verified), query, category, lo, hi)
  {
    var after := SetStatus(stored, stored[i].id, Verified);
    assert after[i] == stored[i].(status := Verified);
  }

  /** The screen's state: the verified listings loaded on mount, the filter
      inputs and the list they produce. */
  class MarketplaceScreen {
    var products: seq<Product>
    var filtered: seq<Product>
    var searchQuery: string
    var categoryFilter: string
    var minPrice: int
    var maxPrice: int

    ghost predicate Valid()
      reads this
    {
      (forall p :: p in products ==> p.status == Verified) &&
      filtered == ApplyFilters(products, searchQuery, categoryFilter, minPrice, maxPrice)
    }

    /** Mount: load the verified listings, then let the filter effect run
        with the initial inputs. */
    constructor (store: Store)
      ensures products == WithStatus(store.products, Verified)
      ensures searchQuery == "" && categoryFilter == AllCategories
      ensures minPrice == InitialMinPrice && maxPrice == InitialMaxPrice
      ensures filtered == Listing(store.products, "", AllCategories, InitialMinPrice, InitialMaxPrice)
      ensures Valid()
    {
      var verified := WithStatus(store.products, Verified);
      products := verified;
      searchQuery, categoryFilter := "", AllCategories;
      minPrice, maxPrice := InitialMinPrice, InitialMaxPrice;
      filtered := ApplyFilters(verified, "", AllCategories, InitialMinPrice, InitialMaxPrice);
    }

    method SetSearchQuery(query: string)
      requires Valid()
      modifies this`searchQuery, this`filtered
      ensures searchQuery == query && Valid()
      ensures products == old(products) && categoryFilter == old(categoryFilter)
      ensures minPrice == old(minPrice) && maxPrice == old(maxPrice)
    {
      searchQuery := query;
      filtered := ApplyFilters(products, searchQuery, categoryFilter, minPrice, maxPrice);
    }

    method SetCategoryFilter(category: string)
      requires Valid()
      modifies this`categoryFilter, this`filtered
      ensures categoryFilter == category && Valid()
      ensures products == old(products) && searchQuery == old(searchQuery)
      ensures minPrice == old(minPrice) && maxPrice == old(maxPrice)
    {
      categoryFilter := category;
      filtered := ApplyFilters(products, searchQuery, categoryFilter, minPrice, maxPrice);
    }

    method SetPriceRange(lo: int, hi: int)
      requires Valid()
      modifies this`minPrice, this`maxPrice, this`filtered
      ensures minPrice == lo && maxPrice == hi && Valid()
      ensures products == old(products) && searchQuery == old(searchQuery)
      ensures categoryFilter == old(categoryFilter)
    {
      minPrice, maxPrice := lo, hi;
      filtered := ApplyFilters(products, searchQuery, categoryFilter, minPrice, maxPrice);
    }

    /** `handleAddToCart`: one unit of the listing goes to the cart. */
    method HandleAddToCart(shell: ConsumerMain.ConsumerMain, p: Product)
      requires shell.Valid()
      modifies shell
      ensures shell.cart == ConsumerMain.AddLine(old(shell.cart), CartItem(p, 1)) && shell.Valid()
      ensures shell.Count() == old(shell.Count()) + 1
    {
      shell.AddToCart(CartItem(p, 1));
    }
  }
}
