/** The older farmer dashboard (src/components/FarmerDashboard.tsx), over the
    legacy storage keys: it loads the farmer's listings, uploads a listing
    without any field check, deletes listings, and shows the value of the
    sold listings as earnings. */
module FarmerDashboard {
  import opened Wrappers
  import opened Domain
  import opened Seqs
  import opened Catalog
  import opened Storage
  import opened PaymentScreen

  /** Shown as the picture of a listing uploaded without one. */
  const FallbackImage: string := "https://images.unsplash.com/photo-1560493676-04071c5f467b?w=400"

  /** The legacy form: one optional picture, category 'organic' or 'regular'. */
  datatype LegacyForm = LegacyForm(
    name: string,
    category: string,
    quantity: string,
    price: string,
    description: string,
    image: string)

  const EmptyLegacyForm: LegacyForm := LegacyForm("", "organic", "", "", "", "")

  /** The listing `handleUploadProduct` builds: pending, owned by the user, at
      the user's location, with the fallback picture when none was chosen.
      The legacy record has no phone and no unit; they are empty here. */
  function LegacyNewProduct(user: User, form: LegacyForm, id: string, now: int,
                            parse: string -> int): (p: Product)
    ensures p.status == Pending && p.farmerId == user.id && p.location == user.location
    ensures |p.images| == 1 && p.images[0] != ""
    ensures form.image != "" ==> p.images == [form.image]
    ensures form.image == "" ==> p.images == [FallbackImage]
    ensures p.id == id && p.uploadedAt == now && p.farmerName == user.fullName
    ensures p.name == form.name && p.category == form.category && p.description == form.description
    ensures p.quantity == parse(form.quantity) && p.price == parse(form.price)
  {
    var image := if form.image != "" then form.image else FallbackImage;
    Product(id, user.id, user.fullName, "", form.name, form.category, parse(form.quantity), "",
            parse(form.price), form.description, [image], user.location, Pending, now, None)
  }

  function StockValue(p: Product): int { p.price * p.quantity }

  /** A listing's share of the earnings as written: its stock value when it
      is sold, nothing otherwise. */
  function SoldValue(p: Product): int
  {
    if p.status == Sold then StockValue(p) else 0
  }

  lemma {:induction false} SoldSum(ps: seq<Product>)
    ensures Sum(WithStatus(ps, Sold), StockValue) == Sum(ps, SoldValue)
    decreases |ps|
  {
    if ps != [] {
      SoldSum(ps[1..]);
      var rest := WithStatus(ps[1..], Sold);
      if ps[0].status == Sold {
        assert ([ps[0]] + rest)[1..] == rest;
      }
    }
  }

  /** `calculateEarnings`: price × quantity summed over the sold listings,
      where quantity is the stock left on the listing; every listing that is
      not sold contributes nothing. */
  function CalculateEarnings(ps: seq<Product>): (e: int)
    ensures e == Sum(ps, SoldValue)
  {
    SoldSum(ps);
    Sum(WithStatus(ps, Sold), StockValue)
  }

  /** Every sold listing has no stock left (and a non-negative price). */
  ghost predicate SoldMeansEmpty(ps: seq<Product>)
  {
    forall p :: p in ps && p.status == Sold ==> p.quantity <= 0 && p.price >= 0
  }

  /** Payments keep the legacy catalogue in that shape: a listing becomes
      sold only when its stock reaches zero or below, and buying more from a
      sold listing only lowers its stock further. */
  lemma PurchaseKeepsSoldEmpty(ps: seq<Product>, id: string, quantity: int)
    requires SoldMeansEmpty(ps) && quantity >= 0
    requires forall p :: p in ps && p.id == id ==> p.price >= 0
    ensures SoldMeansEmpty(ApplyPurchase(ps, id, quantity))
  {
    var r := ApplyPurchase(ps, id, quantity);
    forall p | p in r && p.status == Sold ensures p.quantity <= 0 && p.price >= 0 {
      var i :| 0 <= i < |r| && r[i] == p;
      assert ps[i] in ps;
    }
  }

  /** As written, earnings are never positive on such a catalogue. */
  lemma {:induction false} EarningsNeverPositive(ps: seq<Product>)
    requires SoldMeansEmpty(ps)
    ensures CalculateEarnings(ps) <= 0
    decreases |ps|
  {
    if ps != [] {
      EarningsNeverPositive(ps[1..]);
      var sold := WithStatus(ps, Sold);
      if ps[0].status == Sold {
        assert sold == [ps[0]] + WithStatus(ps[1..], Sold);
        assert sold[1..] == WithStatus(ps[1..], Sold);
        assert ps[0].price * ps[0].quantity <= 0 by {
          assert ps[0] in ps;
        }
      } else {
        assert sold == WithStatus(ps[1..], Sold);
      }
    }
  }

  /** The concrete case: a farmer lists 50 kg at 45, a consumer buys all 50
      and pays 2295, and the dashboard shows earnings of 0. */
  lemma EarningsMissSoldOutListing(listing: Product)
    requires listing.status == Verified && listing.price == 45 && listing.quantity == 50
    ensures FinalAmount(listing.price, 50) == 2295
    ensures CalculateEarnings([Purchased(listing, 50)]) == 0
  {
    var sold := Purchased(listing, 50);
    assert sold.quantity == 0 && sold.status == Sold;
    assert WithStatus([sold], Sold) == [sold];
    assert Sum([sold], StockValue) == StockValue(sold) + Sum([sold][1..], StockValue);
    assert [sold][1..] == [];
  }

  function RecordFor(farmerId: string): PaymentRecord -> bool
  {
    (r: PaymentRecord) => r.farmerId == farmerId
  }

  function RecordAmount(r: PaymentRecord): int { r.amount }

  /** Corrected earnings: the total paid in the payment records for the
      farmer's listings. */
  function PaidEarnings(records: seq<PaymentRecord>, farmerId: string): int
  {
    Sum(Filter(records, RecordFor(farmerId)), RecordAmount)
  }

  /** Each payment for one of the farmer's listings raises the corrected
      earnings by exactly the amount paid; other payments leave them alone. */
  lemma {:induction false} PaidEarningsCountPayment(records: seq<PaymentRecord>, rec: PaymentRecord, farmerId: string)
    ensures PaidEarnings(records + [rec], farmerId) ==
      PaidEarnings(records, farmerId) + (if rec.farmerId == farmerId then rec.amount else 0)
  {
    FilterAppend(records, [rec], RecordFor(farmerId));
    SumAppend(Filter(records, RecordFor(farmerId)), Filter([rec], RecordFor(farmerId)), RecordAmount);
    if rec.farmerId == farmerId {
      assert Filter([rec], RecordFor(farmerId)) == [rec];
    } else {
      assert Filter([rec], RecordFor(farmerId)) == [];
    }
  }

  class FarmerDashboard {
    const user: User
    const store: LegacyStore
    var products: seq<Product>
    var form: LegacyForm

    /** Mounting loads the farmer's own listings. */
    constructor (user: User, store: LegacyStore)
      ensures this.user == user && this.store == store
      ensures products == OwnedBy(store.products, user.id)
      ensures form == EmptyLegacyForm
    {
      this.user, this.store := user, store;
      products := OwnedBy(store.products, user.id);
      form := EmptyLegacyForm;
    }

    method SetForm(f: LegacyForm)
      modifies this`form
      ensures form == f
    {
      form := f;
    }

    /** `handleUploadProduct`: appended to the store, but put first in the
        screen's list; the form is reset. */
    method HandleUploadProduct(id: string, now: int, parse: string -> int) returns (p: Product)
      modifies this`products, this`form, store`products
      ensures p == LegacyNewProduct(user, old(form), id, now, parse)
      ensures store.products == old(store.products) + [p]
      ensures products == [p] + old(products)
      ensures form == EmptyLegacyForm
    {
      p := LegacyNewProduct(user, form, id, now, parse);
      store.products := store.products + [p];
      products := [p] + products;
      form := EmptyLegacyForm;
    }

    /** `handleDeleteProduct`: the id disappears from the store and from the
        screen's list. */
    method HandleDeleteProduct(id: string)
      modifies this`products, store`products
      ensures store.products == WithoutId(old(store.products), id)
      ensures products == WithoutId(old(products), id)
    {
      store.products := WithoutId(store.products, id);
      products := WithoutId(products, id);
    }

    /** The earnings card, on the corrected definition: the payments recorded
        for the farmer's listings. As written the card shows
        `CalculateEarnings(products)`, which no sale can raise. */
    function Earnings(): (e: int)
      reads this, store
      ensures (forall r :: r in store.orders ==> r.amount >= 0) ==> e >= 0
    {
      var mine := Filter(store.orders, RecordFor(user.id));
      if forall r :: r in store.orders ==> r.amount >= 0 then
        SumNonNegative(mine, RecordAmount);
        PaidEarnings(store.orders, user.id)
      else
        PaidEarnings(store.orders, user.id)
    }
  }
}
