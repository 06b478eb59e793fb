/** The mobile marketplace list (src/components/mobile/MarketplaceScreenNew.tsx):
    the verified built-in listings with their distance from the signed-in
    user, narrowed by category, an inclusive price range and a maximum
    distance that a missing or zero distance always passes. */
module MarketplaceScreenNew {
  import opened Wrappers
  import opened Seqs
  import Domain
  import opened MockData
  import opened AuthContext

  datatype CategoryChoice = AllCategories | Only(category: MobileCategory)

  datatype Filters = Filters(category: CategoryChoice, minPrice: int, maxPrice: int, maxDistance: int)

  const InitialFilters := Filters(AllCategories, 0, 150, 100)

  function IsVerified(p: MobileProduct): bool
  {
    p.status == Verified
  }

  /** `products`: nothing without a signed-in user; otherwise the verified
      listings, each with its distance from the user. */
  function Products(user: Option<SessionUser>, hav: Domain.Haversine): (r: seq<MobileProduct>)
    ensures user.None? ==> r == []
    ensures forall i :: 0 <= i < |r| ==> r[i].status == Verified && r[i].distance.Some?
    ensures user.Some? ==>
      IsSubseq(r, GetProductsWithDistance(hav, user.value.location.latitude, user.value.location.longitude))
    ensures user.Some? ==> forall p :: p in r <==>
      p in GetProductsWithDistance(hav, user.value.location.latitude, user.value.location.longitude) &&
      p.status == Verified
  {
    match user
    case None => []
    case Some(u) =>
      var all := GetProductsWithDistance(hav, u.location.latitude, u.location.longitude);
      FilterMembers(all, IsVerified);
      Filter(all, IsVerified)
  }

  /** The early-return predicate: a listing is dropped for another category,
      for a price outside the bounds, or for a known non-zero distance beyond
      the maximum. */
  predicate Keep(f: Filters, p: MobileProduct)
  {
    if f.category != AllCategories && p.category != f.category.category then false
    else if p.price < f.minPrice || p.price > f.maxPrice then false
    else if p.distance.Some? && p.distance.value != 0 && p.distance.value > f.maxDistance then false
    else true
  }

  function KeepPred(f: Filters): MobileProduct -> bool
  {
    (p: MobileProduct) => Keep(f, p)
  }

  /** `filteredProducts`: the kept listings in order. */
  function FilteredProducts(products: seq<MobileProduct>, f: Filters): (r: seq<MobileProduct>)
    ensures forall p :: p in r <==>
      p in products &&
      (f.category == AllCategories || p.category == f.category.category) &&
      f.minPrice <= p.price <= f.maxPrice &&
      (p.distance == None || p.distance == Some(0) || p.distance.value <= f.maxDistance)
    ensures IsSubseq(r, products)
  {
    FilterMembers(products, KeepPred(f));
    assert forall p :: KeepPred(f)(p) <==> KeepHolds(f, p) by {
      forall p ensures KeepPred(f)(p) <==> KeepHolds(f, p) { KeepMeans(f, p); }
    }
    Filter(products, KeepPred(f))
  }

  /** The conditions `Keep` checks, written as one conjunction. */
  predicate KeepHolds(f: Filters, p: MobileProduct)
  {
    (f.category == AllCategories || p.category == f.category.category) &&
    f.minPrice <= p.price <= f.maxPrice &&
    (p.distance == None || p.distance == Some(0) || p.distance.value <= f.maxDistance)
  }

  lemma KeepMeans(f: Filters, p: MobileProduct)
    ensures Keep(f, p) <==> KeepHolds(f, p)
  {
  }

  /** What the screen lists for a user and a filter setting: the catalogue
      entries, with distances from the signed-in user, that are verified and
      pass the filters. */
  function Shown(user: Option<SessionUser>, hav: Domain.Haversine, f: Filters): (r: seq<MobileProduct>)
    ensures user.None? ==> r == []
    ensures forall p :: p in r ==> p.status == Verified && p.distance.Some?
    ensures forall p :: p in r <==>
      user.Some? &&
      p in GetProductsWithDistance(hav, user.value.location.latitude, user.value.location.longitude) &&
      p.status == Verified && Keep(f, p)
  {
    var all := Products(user, hav);
    var r := FilteredProducts(all, f);
    if user.Some? then
      ShownParts(all, GetProductsWithDistance(hav, user.value.location.latitude, user.value.location.longitude), r, f);
      r
    else
      r
  }

  /** The two steps of the list combined: a verified view of the catalogue,
      then the filters. */
  lemma ShownParts(all: seq<MobileProduct>, catalogue: seq<MobileProduct>, r: seq<MobileProduct>, f: Filters)
    requires forall i :: 0 <= i < |all| ==> all[i].status == Verified && all[i].distance.Some?
    requires forall p :: p in all <==> p in catalogue && p.status == Verified
    requires forall p :: p in r <==>
      p in all &&
      (f.category == AllCategories || p.category == f.category.category) &&
      f.minPrice <= p.price <= f.maxPrice &&
      (p.distance == None || p.distance == Some(0) || p.distance.value <= f.maxDistance)
    ensures forall p :: p in r ==> p.status == Verified && p.distance.Some?
    ensures forall p :: p in r <==> p in catalogue && p.status == Verified && Keep(f, p)
  {
    forall p | p in r ensures p.status == Verified && p.distance.Some? {
      var i :| 0 <= i < |all| && all[i] == p;
    }
    forall p ensures Keep(f, p) <==> KeepHolds(f, p) { KeepMeans(f, p); }
  }
}
