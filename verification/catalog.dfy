/** List operations that several screens share: the status and owner
    filters, removal by id, the map-by-id status update and the pending-queue
    search that both admin panels perform, and the role filter over accounts. */
module Catalog {
  import opened Domain
  import opened Seqs
  import opened Text

  function StatusIs(st: ProductStatus): Product -> bool
  {
    (p: Product) => p.status == st
  }

  /** The listings in one status, in stored order. */
  function WithStatus(ps: seq<Product>, st: ProductStatus): (r: seq<Product>)
    ensures forall p :: p in r <==> p in ps && p.status == st
    ensures IsSubseq(r, ps)
  {
    Filter(ps, StatusIs(st))
  }

  function OwnedByPred(farmerId: string): Product -> bool
  {
    (p: Product) => p.farmerId == farmerId
  }

  /** One farmer's listings, in stored order. */
  function OwnedBy(ps: seq<Product>, farmerId: string): (r: seq<Product>)
    ensures forall p :: p in r <==> p in ps && p.farmerId == farmerId
    ensures IsSubseq(r, ps)
  {
    Filter(ps, OwnedByPred(farmerId))
  }

  function IdIsNot(id: string): Product -> bool
  {
    (p: Product) => p.id != id
  }

  /** Every listing with that id removed,
      the others kept in order. */
  function WithoutId(ps: seq<Product>, id: string): (r: seq<Product>)
    ensures forall p :: p in r <==> p in ps && p.id != id
    ensures IsSubseq(r, ps)
  {
    Filter(ps, IdIsNot(id))
  }

  /** Every listing with the id moved to status `st`; the rest kept as they
      are. */
  function SetStatus(ps: seq<Product>, id: string, st: ProductStatus): (r: seq<Product>)
    ensures |r| == |ps|
    ensures forall i :: 0 <= i < |ps| ==>
      r[i] == if ps[i].id == id then ps[i].(status := st) else ps[i]
    decreases |ps|
  {
    if ps == [] then []
    else
      var head := if ps[0].id == id then ps[0].(status := st) else ps[0];
      [head] + SetStatus(ps[1..], id, st)
  }

  /** Verifying a listing takes exactly the listings with that id out of the
      pending queue and leaves the rest of the queue in order. */
  lemma {:induction false} VerifyLeavesPendingQueue(ps: seq<Product>, id: string)
    ensures WithStatus(SetStatus(ps, id, Verified), Pending) == WithoutId(WithStatus(ps, Pending), id)
    decreases |ps|
  {
    if ps != [] {
      VerifyLeavesPendingQueue(ps[1..], id);
      var r := SetStatus(ps, id, Verified);
      assert r[1..] == SetStatus(ps[1..], id, Verified);
      var pend := WithStatus(ps, Pending);
      if ps[0].status == Pending {
        assert pend == [ps[0]] + WithStatus(ps[1..], Pending);
        assert pend[1..] == WithStatus(ps[1..], Pending);
      } else {
        assert pend == WithStatus(ps[1..], Pending);
      }
    }
  }

  /** The counts the farmer home screen shows: verified plus pending never
      exceeds the number of listings. */
  lemma {:induction false} StatusCountsBounded(ps: seq<Product>)
    ensures |WithStatus(ps, Verified)| + |WithStatus(ps, Pending)| <= |ps|
    decreases |ps|
  {
    if ps != [] {
      StatusCountsBounded(ps[1..]);
      assert WithStatus(ps, Verified) == Filter(ps, StatusIs(Verified));
      assert WithStatus(ps, Pending) == Filter(ps, StatusIs(Pending));
    }
  }

  /** The pending and verified views never share a listing. */
  lemma StatusViewsDisjoint(ps: seq<Product>, a: ProductStatus, b: ProductStatus)
    requires a != b
    ensures forall p :: p in WithStatus(ps, a) ==> p !in WithStatus(ps, b)
  {
  }

  /** Deleting listings that do not have status `st` leaves the `st` view
      exactly as it was: the farmer screens offer delete on pending listings
      only, so such a delete never alters the verified, rejected or sold views. */
  lemma {:induction false} RemoveKeepsStatusView(ps: seq<Product>, id: string, st: ProductStatus)
    requires forall p :: p in ps && p.id == id ==> p.status != st
    ensures WithStatus(WithoutId(ps, id), st) == WithStatus(ps, st)
    decreases |ps|
  {
    if ps != [] {
      RemoveKeepsStatusView(ps[1..], id, st);
      var kept := WithoutId(ps, id);
      if ps[0].id != id {
        assert kept == [ps[0]] + WithoutId(ps[1..], id);
        assert kept[1..] == WithoutId(ps[1..], id);
      } else {
        assert kept == WithoutId(ps[1..], id);
      }
    }
  }

  function PendingSearchPred(query: string): Product -> bool
  {
    (p: Product) => IncludesIgnoringCase(p.name, query) || IncludesIgnoringCase(p.farmerName, query)
  }

  /** The admin search over the pending queue: pending listings whose name or
      farmer name contains the query, ignoring case, in stored order. */
  function PendingSearch(ps: seq<Product>, query: string): (r: seq<Product>)
    ensures forall p :: p in r <==>
      p in ps && p.status == Pending &&
      (IncludesIgnoringCase(p.name, query) || IncludesIgnoringCase(p.farmerName, query))
    ensures IsSubseq(r, ps)
  {
    var pending := WithStatus(ps, Pending);
    var r := Filter(pending, PendingSearchPred(query));
    SubseqTrans(r, pending, ps);
    r
  }

  /** With an empty search box the admin sees the whole pending queue. */
  lemma EmptySearchShowsAllPending(ps: seq<Product>)
    ensures PendingSearch(ps, "") == WithStatus(ps, Pending)
  {
    var pending := WithStatus(ps, Pending);
    forall i | 0 <= i < |pending| ensures PendingSearchPred("")(pending[i]) {
      EmptyIsContained(ToLower(pending[i].name));
    }
    FilterKeepsAll(pending, PendingSearchPred(""));
  }

  function RoleIs(role: Role): Account -> bool
  {
    (a: Account) => a.profile.role == role
  }

  /** The accounts with one role, in stored order. */
  function WithRole(us: seq<Account>, role: Role): (r: seq<Account>)
    ensures forall a :: a in r <==> a in us && a.profile.role == role
    ensures IsSubseq(r, us)
  {
    Filter(us, RoleIs(role))
  }
}
