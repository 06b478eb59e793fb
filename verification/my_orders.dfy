/** A consumer's order list (src/components/consumer/MyOrders.tsx): the
    stored orders placed by the consumer, newest first. */
module MyOrders {
  import opened Domain
  import opened Seqs

  function ConsumerOrderPred(consumerId: string): Order -> bool
  {
    (o: Order) => o.consumerId == consumerId
  }

  function ConsumerOrders(os: seq<Order>, consumerId: string): (r: seq<Order>)
    ensures forall o :: o in r <==> o in os && o.consumerId == consumerId
    ensures IsSubseq(r, os)
  {
    Filter(os, ConsumerOrderPred(consumerId))
  }

  /** createdAt never increases along the list. */
  predicate NewestFirst(os: seq<Order>)
  {
    forall i, j :: 0 <= i < j < |os| ==> os[i].createdAt >= os[j].createdAt
  }

  /** An order not older than the head of a newest-first list can go in
      front of it. */
  lemma ConsNewestFirst(o: Order, sorted: seq<Order>)
    requires NewestFirst(sorted)
    requires sorted == [] || sorted[0].createdAt <= o.createdAt
    ensures NewestFirst([o] + sorted)
  {
    var r := [o] + sorted;
    forall i, j | 0 <= i < j < |r| ensures r[i].createdAt >= r[j].createdAt {
      if i == 0 {
        assert r[j] == sorted[j - 1];
      } else {
        assert r[i] == sorted[i - 1] && r[j] == sorted[j - 1];
      }
    }
  }

  /** Puts `o` before the first order that is not newer than it. */
  function Insert(o: Order, sorted: seq<Order>): (r: seq<Order>)
    requires NewestFirst(sorted)
    ensures NewestFirst(r)
    ensures multiset(r) == multiset(sorted) + multiset{o}
    ensures r[0] == o || (sorted != [] && r[0] == sorted[0])
    decreases |sorted|
  {
    if sorted == [] || sorted[0].createdAt <= o.createdAt then
      ConsNewestFirst(o, sorted);
      [o] + sorted
    else
      assert sorted == [sorted[0]] + sorted[1..];
      var rest := Insert(o, sorted[1..]);
      ConsNewestFirst(sorted[0], rest);
      [sorted[0]] + rest
  }

  /** The sort by creation time, latest first. */
  function SortNewestFirst(os: seq<Order>): (r: seq<Order>)
    ensures NewestFirst(r)
    ensures multiset(r) == multiset(os)
    ensures |r| == |os|
    decreases |os|
  {
    if os == [] then []
    else
      assert os == [os[0]] + os[1..];
      Insert(os[0], SortNewestFirst(os[1..]))
  }

  /** What the screen lists: exactly the consumer's orders, each as often as
      it is stored, newest first; the count shown is their number. */
  function Shown(os: seq<Order>, consumerId: string): (r: seq<Order>)
    ensures NewestFirst(r)
    ensures multiset(r) == multiset(ConsumerOrders(os, consumerId))
    ensures forall o :: o in r <==> o in os && o.consumerId == consumerId
  {
    var mine := ConsumerOrders(os, consumerId);
    var r := SortNewestFirst(mine);
    assert forall o :: o in r <==> o in multiset(r);
    assert forall o :: o in mine <==> o in multiset(mine);
    r
  }
}
