/** What creating and editing an order amount to, before anything has been committed. */
module PurchaseDrafts {
  import opened Common
  import opened Stock
  import opened Purchasing
  import opened PurchaseSafety
  import opened PurchaseTheorems

  /**
   Raising an order commits nothing: it takes no number, promises no goods, moves no stock and
   touches no approval or other order; and it can be withdrawn without a trace in any of them.
   */
  lemma CreatingCommitsNothing(es: seq<Event>, d: OrderDraft)
    ensures var s := Run(Start, es);
      var (s', reply) := DoCreate(s, d);
      reply == Done ==>
        var id := |s.orders|;
        |s'.orders| == id + 1 && s'.orders[..id] == s.orders
        && s' == s.(orders := s'.orders)
        && (forall year :: CountYear(s'.orders, year) == CountYear(s.orders, year))
        && (forall line :: Received(s'.receipts, id, line) == 0)
        && DoCancel(s', id).1 == Done
        && (forall year :: CountYear(DoCancel(s', id).0.orders, year) == CountYear(s.orders, year))
  {
    var s := Run(Start, es);
    ReachableInv(es);
    NewOrderKeeps(s, d);
    if DoCreate(s, d).1 == Done {
      var s', id := DoCreate(s, d).0, |s.orders|;
      var gone := s'.orders[id].(status := Cancelled);
      assert StatusOk(s'.orders[id], s'.receipts, id);
      forall line: nat ensures Received(s'.receipts, id, line) == 0 { ReceivedNone(s'.receipts, id, line); }
      assert s'.orders[id := gone] == s.orders + [gone];
      forall year: nat
        ensures CountYear(s'.orders, year) == CountYear(s.orders, year)
        ensures CountYear(s'.orders[id := gone], year) == CountYear(s.orders, year)
      {
        CountExtended(s.orders, s'.orders, year);
        CountExtended(s.orders, s.orders + [gone], year);
      }
    }
  }

  /**
   An edited order is a fresh proposal: a draft or rejected order accepts exactly the requests
   that would raise a new one, and becomes the very order that request would have raised. Only an
   omitted exchange rate tells them apart: it stands for the order's own, and not for one.
   */
  lemma EditIsFresh(es: seq<Event>, id: OrderId, d: OrderDraft)
    requires id < |Run(Start, es).orders| && d.rate != 0.0
    ensures var s := Run(Start, es);
      var (edited, reply) := DoUpdate(s, id, d);
      var (raised, raisedReply) := DoCreate(s, d);
      (reply == Done <==> (s.orders[id].status == Draft || s.orders[id].status == Refused) && raisedReply == Done)
      && (reply == Done ==>
        edited.orders[id] == raised.orders[|s.orders|] && NoReceipts(edited.receipts, id)
        && (forall k :: 0 <= k < |s.orders| && k != id ==> edited.orders[k] == s.orders[k]))
  {
    var s := Run(Start, es);
    ReachableInv(es);
    assert OrderOk(s.orders[id]) && StatusOk(s.orders[id], s.receipts, id);
  }

  /** With the rate omitted, the edit is the one that names the order's own rate. */
  lemma EditKeepsRate(es: seq<Event>, id: OrderId, d: OrderDraft)
    requires id < |Run(Start, es).orders| && d.rate == 0.0
    ensures var s := Run(Start, es);
      DoUpdate(s, id, d) == DoUpdate(s, id, d.(rate := s.orders[id].rate))
  {
    ReachableInv(es);
    assert OrderOk(Run(Start, es).orders[id]);
  }
}
