/** The older consumer marketplace (src/components/ConsumerMarketplace.tsx):
    four built-in listings followed by the verified listings of the legacy
    store, narrowed by a search over name, description and farmer name, a
    category, an inclusive price range and a maximum distance from the
    viewer. */
module ConsumerMarketplace {
  import opened Wrappers
  import opened Domain
  import opened Seqs
  import opened Text
  import opened Catalog
  import opened Storage

  const AllCategories := "all"
  const DefaultMinPrice := 0
  const DefaultMaxPrice := 500
  const DefaultMaxDistance := 50

  /** A built-in listing. The source's listings carry one image URL each and
      no unit or farmer phone; those fields are left empty here, and the
      upload times are replaced by their order (1 to 4). */
  function BuiltIn(id: string, farmerId: string, farmerName: string, name: string, category: string,
                   quantity: int, price: int, description: string,
                   latitude: real, longitude: real, address: string, town: string, uploadedAt: int): Product
  {
    Product(id, farmerId, farmerName, "", name, category, quantity, "", price, description, [],
            Location(latitude, longitude, address, town), Verified, uploadedAt, None)
  }

  /** The four listings every consumer of this screen sees in addition to the
      stored ones. */
  const MockProducts: seq<Product> := [
    BuiltIn("1", "farmer1", "Rajesh Kumar", "Organic Tomatoes", "organic", 50, 45,
            "Fresh organic tomatoes grown without pesticides. Perfect for salads and cooking.",
            28.6139, 77.2090, "Sector 12, Rohini", "New Delhi", 1),
    BuiltIn("2", "farmer2", "Priya Sharma", "Fresh Potatoes", "regular", 100, 30,
            "High quality fresh potatoes directly from farm. Ideal for daily cooking needs.",
            28.5355, 77.3910, "Ghaziabad", "Ghaziabad", 2),
    BuiltIn("3", "farmer3", "Suresh Patel", "Organic Wheat", "organic", 200, 40,
            "Premium quality organic wheat. Stone ground and pesticide-free.",
            28.4595, 77.0266, "Gurugram", "Gurugram", 3),
    BuiltIn("4", "farmer4", "Amit Singh", "Fresh Mangoes", "organic", 30, 120,
            "Sweet and juicy alphonso mangoes. Hand-picked at peak ripeness.",
            28.7041, 77.1025, "Model Town", "Delhi", 4)
  ]

  /** The list loaded on mount: the built-in listings first, then the stored
      verified ones in stored order. */
  function BaseList(stored: seq<Product>): (r: seq<Product>)
    ensures forall p :: p in r ==> p.status == Verified
    ensures forall p :: p in r <==> p in MockProducts || (p in stored && p.status == Verified)
  {
    MockProducts + WithStatus(stored, Verified)
  }

  /** The built-in listings come first, in their fixed order, and after them
      come the stored verified listings in stored order, each as often as it
      is stored. */
  lemma BaseListOrder(stored: seq<Product>)
    ensures |BaseList(stored)| >= |MockProducts| && BaseList(stored)[..|MockProducts|] == MockProducts
    ensures BaseList(stored)[|MockProducts|..] == WithStatus(stored, Verified)
    ensures forall p :: p in stored && p.status == Verified ==>
      multiset(BaseList(stored))[p] == multiset(MockProducts)[p] + multiset(stored)[p]
  {
    var r := BaseList(stored);
    assert r[..|MockProducts|] == MockProducts;
    assert r[|MockProducts|..] == WithStatus(stored, Verified);
    assert r == MockProducts + WithStatus(stored, Verified);
  }

  predicate SearchHit(p: Product, query: string)
  {
    IncludesIgnoringCase(p.name, query) || IncludesIgnoringCase(p.description, query) ||
    IncludesIgnoringCase(p.farmerName, query)
  }

  function SearchPred(query: string): Product -> bool
  {
    (p: Product) => SearchHit(p, query)
  }

  function CategoryPred(category: string): Product -> bool
  {
    (p: Product) => p.category == category
  }

  function PricePred(lo: int, hi: int): Product -> bool
  {
    (p: Product) => lo <= p.price <= hi
  }

  /** Distance in km from the viewer to the listing's farm. */
  function DistanceTo(hav: Haversine, viewer: Location, p: Product): real
  {
    hav(viewer.latitude, viewer.longitude, p.location.latitude, p.location.longitude)
  }

  function NearPred(hav: Haversine, viewer: Location, maxDistance: int): Product -> bool
  {
    (p: Product) => DistanceTo(hav, viewer, p) <= maxDistance as real
  }

  lemma EmptyQueryMatchesAll()
    ensures forall p :: SearchHit(p, "")
  {
    forall p: Product ensures SearchHit(p, "") {
      EmptyIsContained(ToLower(p.name));
    }
  }

  /** The search step, skipped for an empty box. */
  function Searched(ps: seq<Product>, query: string): (r: seq<Product>)
    ensures forall p :: p in r <==> p in ps && SearchHit(p, query)
    ensures IsSubseq(r, ps)
  {
    EmptyQueryMatchesAll();
    FilterMembers(ps, SearchPred(query));
    SubseqRefl(ps);
    if query != "" then Filter(ps, SearchPred(query)) else ps
  }

  /** The category step, skipped for "all". */
  function InCategory(ps: seq<Product>, category: string): (r: seq<Product>)
    ensures forall p :: p in r <==> p in ps && (category == AllCategories || p.category == category)
    ensures IsSubseq(r, ps)
  {
    FilterMembers(ps, CategoryPred(category));
    SubseqRefl(ps);
    if category != AllCategories then Filter(ps, CategoryPred(category)) else ps
  }

  /** The filter effect: search, category, inclusive price range, then
      distance at most the maximum. */
  function ApplyFilters(ps: seq<Product>, query: string, category: string, lo: int, hi: int,
                        hav: Haversine, viewer: Location, maxDistance: int): (r: seq<Product>)
    ensures forall p {:trigger p in r} :: p in r <==>
      p in ps && SearchHit(p, query) && (category == AllCategories || p.category == category) &&
      lo <= p.price <= hi && DistanceTo(hav, viewer, p) <= maxDistance as real
    ensures IsSubseq(r, ps)
  {
    var searched := Searched(ps, query);
    var sorted := InCategory(searched, category);
    var priced := Filter(sorted, PricePred(lo, hi));
    var r := Filter(priced, NearPred(hav, viewer, maxDistance));
    FilterMembers(sorted, PricePred(lo, hi));
    FilterMembers(priced, NearPred(hav, viewer, maxDistance));
    SubseqTrans(sorted, searched, ps);
    SubseqTrans(priced, sorted, ps);
    SubseqTrans(r, priced, ps);
    r
  }

  /** The filter inputs of the screen. */
  datatype Filters = Filters(query: string, category: string, minPrice: int, maxPrice: int, maxDistance: int)

  const DefaultFilters := Filters("", AllCategories, DefaultMinPrice, DefaultMaxPrice, DefaultMaxDistance)

  class ConsumerMarketplace {
    const viewer: Location
    const hav: Haversine
    var products: seq<Product>
    var filters: Filters
    var filteredProducts: seq<Product>

    ghost predicate Valid()
      reads this
    {
      (forall p :: p in products ==> p.status == Verified) &&
      filteredProducts == ApplyFilters(products, filters.query, filters.category, filters.minPrice,
                                       filters.maxPrice, hav, viewer, filters.maxDistance)
    }

    /** Mount: built-in plus stored verified listings and the default
        filters; then the filter effect runs. */
    constructor (store: LegacyStore, viewer: Location, hav: Haversine)
      ensures this.viewer == viewer && this.hav == hav
      ensures products == BaseList(store.products) && filters == DefaultFilters
      ensures Valid()
    {
      this.viewer, this.hav := viewer, hav;
      products := BaseList(store.products);
      filters := DefaultFilters;
      filteredProducts := [];
      new;
      RunFilters();
    }

    /** The filter effect: recompute the shown list from the current inputs. */
    method RunFilters()
      requires forall p :: p in products ==> p.status == Verified
      modifies this`filteredProducts
      ensures Valid()
    {
      filteredProducts := ApplyFilters(products, filters.query, filters.category, filters.minPrice,
                                       filters.maxPrice, hav, viewer, filters.maxDistance);
    }

    /** Any change of the filter inputs re-runs the filter effect. */
    method SetFilters(f: Filters)
      requires Valid()
      modifies this`filters, this`filteredProducts
      ensures filters == f && Valid()
    {
      filters := f;
      RunFilters();
    }

    /** `resetFilters`: every input back to its initial value. */
    method ResetFilters()
      requires Valid()
      modifies this`filters, this`filteredProducts
      ensures filters == DefaultFilters && Valid()
      ensures filteredProducts == ApplyFilters(products, "", AllCategories, DefaultMinPrice,
                                               DefaultMaxPrice, hav, viewer, DefaultMaxDistance)
    {
      SetFilters(DefaultFilters);
    }
  }

  /** Everything the screen shows is a verified listing: the built-in ones are
      all verified and only verified stored ones are loaded. */
  lemma ShownAreVerified(stored: seq<Product>, f: Filters, hav: Haversine, viewer: Location)
    ensures var shown := ApplyFilters(BaseList(stored), f.query, f.category, f.minPrice, f.maxPrice,
                                      hav, viewer, f.maxDistance);
            forall p :: p in shown ==> p.status == Verified
  {
  }

  /** Widening the distance never hides a listing that was shown. */
  lemma LargerRadiusShowsMore(ps: seq<Product>, f: Filters, d: int, hav: Haversine, viewer: Location)
    requires f.maxDistance <= d
    ensures forall p :: p in ApplyFilters(ps, f.query, f.category, f.minPrice, f.maxPrice, hav, viewer, f.maxDistance) ==>
      p in ApplyFilters(ps, f.query, f.category, f.minPrice, f.maxPrice, hav, viewer, d)
  {
  }
}
