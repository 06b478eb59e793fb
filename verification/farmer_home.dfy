/** The farmer's home screen (src/components/farmer/FarmerHome.tsx): counts
    over the farmer's own listings and orders, and the first three listings. */
module FarmerHome {
  import opened Domain
  import opened Seqs
  import opened Catalog
  import SalesHistory

  const RecentCount := 3

  datatype FarmerStats = FarmerStats(totalProducts: nat, verified: nat, pending: nat, totalSales: nat, earnings: int)

  /** `loadStats`: the figures over the farmer's listings and orders. The
      verified and pending listings never outnumber the farmer's listings,
      and the sales figures agree with the sales history screen. */
  function LoadStats(products: seq<Product>, orders: seq<Order>, farmerId: string): (s: FarmerStats)
    ensures s.totalProducts <= |products|
    ensures s.verified + s.pending <= s.totalProducts
    ensures s.totalSales == SalesHistory.Stats(orders, farmerId).total
    ensures s.earnings == SalesHistory.Stats(orders, farmerId).earnings
  {
    var mine := OwnedBy(products, farmerId);
    SubseqMembers(mine, products);
    StatusCountsBounded(mine);
    var sales := SalesHistory.Stats(orders, farmerId);
    FarmerStats(|mine|, |WithStatus(mine, Verified)|, |WithStatus(mine, Pending)|, sales.total, sales.earnings)
  }

  /** The first three of the farmer's listings in
      stored order, or all of them when there are fewer. */
  function RecentProducts(products: seq<Product>, farmerId: string): (r: seq<Product>)
    ensures |r| == if |OwnedBy(products, farmerId)| < RecentCount then |OwnedBy(products, farmerId)| else RecentCount
    ensures r <= OwnedBy(products, farmerId)
    ensures forall p :: p in r ==> p in products && p.farmerId == farmerId
  {
    var mine := OwnedBy(products, farmerId);
    var r := Take(mine, RecentCount);
    assert forall i :: 0 <= i < |r| ==> r[i] == mine[i];
    r
  }

  /** A listing the farmer just uploaded is counted as pending and adds one
      to the total. */
  lemma UploadCountsAsPending(products: seq<Product>, orders: seq<Order>, p: Product)
    requires p.status == Pending
    ensures var before := LoadStats(products, orders, p.farmerId);
            var after := LoadStats(products + [p], orders, p.farmerId);
            after.totalProducts == before.totalProducts + 1 &&
            after.pending == before.pending + 1 && after.verified == before.verified
  {
    var mine := OwnedBy(products, p.farmerId);
    OwnedAppend(products, p);
    PendingAppend(mine, p);
  }

  /** An appended listing joins the end of its owner's list. */
  lemma OwnedAppend(products: seq<Product>, p: Product)
    ensures OwnedBy(products + [p], p.farmerId) == OwnedBy(products, p.farmerId) + [p]
  {
    FilterAppend(products, [p], OwnedByPred(p.farmerId));
    assert Filter([p], OwnedByPred(p.farmerId)) == [p];
  }

  /** Appending a pending listing adds one to the pending view and leaves the
      verified view alone. */
  lemma PendingAppend(mine: seq<Product>, p: Product)
    requires p.status == Pending
    ensures |WithStatus(mine + [p], Pending)| == |WithStatus(mine, Pending)| + 1
    ensures WithStatus(mine + [p], Verified) == WithStatus(mine, Verified)
  {
    FilterAppend(mine, [p], StatusIs(Pending));
    FilterAppend(mine, [p], StatusIs(Verified));
    assert Filter([p], StatusIs(Pending)) == [p];
    assert Filter([p], StatusIs(Verified)) == [];
  }
}
