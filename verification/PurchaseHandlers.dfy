/**
 The purchasing handlers as they run: rows updated in place, in front of a running approval
 engine and stock ledger. Each method is one step of the machine in Purchasing.
 */
module PurchaseHandlers {
  import opened Common
  import opened Stock
  import opened LandedCost
  import opened Purchasing
  import opened PurchaseSafety
  import Approvals
  import ApprovalHandlers

  // --- Derived figures -----------------------------------------------------------------------

  method Subtotal(lines: seq<OrderLine>) returns (total: real)
    ensures total == SumR(Purchasing.LineTotals(lines))
  {
    total := 0.0;
    ghost var totals := Purchasing.LineTotals(lines);
    for i := 0 to |lines|
      invariant total == SumR(totals[..i])
    {
      SumRSnoc(totals[..i], totals[i]);
      assert totals[..i + 1] == totals[..i] + [totals[i]];
      total := total + lines[i].quantity as real * lines[i].unitPrice;
    }
    assert totals[..|lines|] == totals;
  }

  method TotalComponentsZMW(cs: seq<Component>) returns (total: real)
    ensures total == TotalComponents(cs)
  {
    total := 0.0;
    ghost var amounts := AmountsZMW(cs);
    for i := 0 to |cs|
      invariant total == SumR(amounts[..i])
    {
      SumRSnoc(amounts[..i], amounts[i]);
      assert amounts[..i + 1] == amounts[..i] + [amounts[i]];
      total := total + AmountZMW(cs[i]);
    }
    assert amounts[..|cs|] == amounts;
  }

  /** The charge shares of a receipt, in kwacha, as apportionAndPost and recostReceipt compute them. */
  method SharesOf(orderLines: seq<OrderLine>, r: GoodsReceipt) returns (shares: array<real>, ok: bool)
    ensures ok == ChargeShares(orderLines, r).Ok?
    ensures ok ==> Kwacha(shares[..], ChargeShares(orderLines, r).value)
  {
    var total := TotalComponentsZMW(r.components);
    var weights: seq<LineBasisWeight> := [];
    for i := 0 to |r.lines|
      invariant weights == BasisLines(orderLines, r.rate, r.lines)[..i]
    {
      weights := weights + [BasisLine(orderLines, r.rate, r.lines[i])];
    }
    assert weights == BasisLines(orderLines, r.rate, r.lines);
    var err;
    shares, err := ApportionReceipt(r.basis, total, weights);
    ok := err == None;
  }

  /** all and any, as refreshPurchaseOrderStatus counts them. */
  method Progress(lines: seq<OrderLine>, receipts: seq<GoodsReceipt>, id: OrderId) returns (all: bool, any: bool)
    ensures all <==> AllIn(lines, receipts, id)
    ensures any <==> AnyIn(lines, receipts, id)
  {
    all, any := true, false;
    ghost var short, seen := 0, 0;
    for i := 0 to |lines|
      invariant all ==> forall k :: 0 <= k < i ==> lines[k].quantity <= Received(receipts, id, k)
      invariant !all ==> 0 <= short < i && Received(receipts, id, short) < lines[short].quantity
      invariant any ==> 0 <= seen < i && 0 < Received(receipts, id, seen)
      invariant !any ==> forall k :: 0 <= k < i ==> Received(receipts, id, k) <= 0
    {
      var got := Received(receipts, id, i);
      if got > 0 { any, seen := true, i; }
      if got < lines[i].quantity { all, short := false, i; }
    }
  }

  /** A posting that fails on the first k lines fails. */
  lemma {:induction false} PostStops(products: set<ProductId>, ledger: seq<Movement>, orderLines: seq<OrderLine>,
                                     rate: real, lines: seq<ReceiptLine>, shares: seq<int>, k: nat)
    requires |lines| == |shares| && k <= |lines|
    requires Post(products, ledger, orderLines, rate, lines[..k], shares[..k]).None?
    ensures Post(products, ledger, orderLines, rate, lines, shares).None?
    decreases |lines| - k
  {
    if k < |lines| {
      assert lines[..k + 1][..k] == lines[..k] && shares[..k + 1][..k] == shares[..k];
      PostStops(products, ledger, orderLines, rate, lines, shares, k + 1);
    } else {
      assert lines[..k] == lines && shares[..k] == shares;
    }
  }

  class Desk {
    const engine: ApprovalHandlers.Handler
    const store: Store
    var orders: seq<PurchaseOrder>
    var receipts: seq<GoodsReceipt>

    ghost function Model(): State
      reads this, engine, store
    {
      State(engine.Model(), orders, receipts, store.movements, store.products)
    }

    constructor (engine: ApprovalHandlers.Handler, store: Store)
      ensures this.engine == engine && this.store == store && orders == [] && receipts == []
    {
      this.engine, this.store := engine, store;
      orders, receipts := [], [];
    }

    method CreateOrder(d: OrderDraft) returns (reply: Reply)
      modifies `orders
      ensures (Model(), reply) == DoCreate(old(Model()), d)
      ensures reply == Done <==> DraftOk(d, 1.0)
      ensures reply == Done ==> |orders| == |old(orders)| + 1 && old(orders) <= orders
      ensures reply == Done ==> orders[|old(orders)|].status == Draft && orders[|old(orders)|].number == None
      ensures reply != Done ==> orders == old(orders)
    {
      if !DraftOk(d, 1.0) { return Invalid; }
      orders := orders + [PurchaseOrder(Draft, OrRate(d.rate, 1.0), LinesOf(d), None, None)];
      return Done;
    }

    /** Only drafts and rejected orders are edited; the lines are replaced wholesale. */
    method UpdateOrder(id: OrderId, d: OrderDraft) returns (reply: Reply)
      modifies `orders
      ensures (Model(), reply) == DoUpdate(old(Model()), id, d)
      ensures reply == Done <==> (id < |old(orders)| && DraftOk(d, old(orders)[id].rate)
                                  && (old(orders)[id].status == Draft || old(orders)[id].status == Refused))
      ensures |orders| == |old(orders)| && forall k :: 0 <= k < |orders| && k != id ==> orders[k] == old(orders)[k]
      ensures reply != Done ==> orders == old(orders)
    {
      if id >= |orders| { return NotFound; }
      var o := orders[id];
      if o.status != Draft && o.status != Refused { return Conflict; }
      if !DraftOk(d, o.rate) { return Invalid; }
      orders := orders[id := o.(status := Draft, rate := OrRate(d.rate, o.rate), lines := LinesOf(d))];
      return Done;
    }

    /** The committing act: through the gate at the kwacha value, and only then a number. */
    method IssuePurchaseOrder(id: OrderId, caller: Option<Approvals.UserId>, year: nat) returns (reply: Reply)
      requires engine.Valid()
      modifies `orders, engine
      ensures engine.Valid() && Fresh(old(Model()).engine, old(engine.turn))
      ensures (Model(), reply) == DoIssue(old(Model()), id, old(engine.turn), caller, year)
    {
      if id >= |orders| { return NotFound; }
      if !Issuable(orders[id].status) { return Conflict; }
      if orders[id].lines == [] { return Invalid; }
      var gate := engine.turn;
      var answer := AskGate(id, caller);
      reply := Settle(id, gate, caller, year, answer);
    }

    /** Puts the order's kwacha value to the approval engine. */
    method AskGate(id: OrderId, caller: Option<Approvals.UserId>) returns (answer: Approvals.Outcome)
      requires engine.Valid() && id < |orders|
      modifies engine
      ensures engine.Valid() && Model() == AfterGate(old(Model()), id, old(engine.turn), caller)
      ensures Answer(engine.Model(), old(engine.turn)) == answer
    {
      var o := orders[id];
      var subtotal := Subtotal(o.lines);
      assert Approvals.CallGate(IssueAction, id, caller, subtotal * o.rate) == GateCall(o, id, caller);
      answer := engine.Gate(IssueAction, id, caller, subtotal * o.rate);
    }

    /** Acts on the engine's answer. */
    method Settle(id: OrderId, gate: Approvals.FlightId, caller: Option<Approvals.UserId>, year: nat,
                  answer: Approvals.Outcome) returns (reply: Reply)
      requires id < |orders|
      modifies `orders
      ensures (Model(), reply) == Settled(old(Model()), id, gate, caller, year, answer)
    {
      match answer
      case Proceed =>
        AdmitOrder(id, gate, caller, year);
        return Done;
      case BlockedBy(request) =>
        if request >= |engine.requests| { return Failed; }
        HoldOrder(id, engine.requests[request].status);
        return Held(request);
      case _ => return Failed;
    }

    /** Marks the order issued and gives it the next number of the year, unless it has one. */
    method AdmitOrder(id: OrderId, gate: Approvals.FlightId, caller: Option<Approvals.UserId>, year: nat)
      requires id < |orders|
      modifies `orders
      ensures Model() == Admit(old(Model()), id, gate, caller, year)
    {
      var o := orders[id];
      var number := o.number;
      if number.None? { number := Some(NextNumber(orders, year)); }
      orders := orders[id := o.(status := Issued, issued := Some(Issue(gate, caller)), number := number)];
    }

    /** Reflects a refusal by the gate on the order. */
    method HoldOrder(id: OrderId, blocked: Approvals.Status)
      requires id < |orders|
      modifies `orders
      ensures var o := old(orders)[id];
        Model() == SetOrder(old(Model()), id, o.(status := StatusHeld(o.status, blocked)))
    {
      var o := orders[id];
      if o.status == Draft && blocked == Approvals.Pending {
        orders := orders[id := o.(status := PendingApproval)];
      }
      if blocked == Approvals.Rejected {
        orders := orders[id := o.(status := Refused)];
      }
      assert orders == old(orders)[id := o.(status := StatusHeld(o.status, blocked))];
    }

    method CancelOrder(id: OrderId) returns (reply: Reply)
      modifies `orders
      ensures (Model(), reply) == DoCancel(old(Model()), id)
    {
      if id >= |orders| { return NotFound; }
      var o := orders[id];
      for i := 0 to |o.lines|
        invariant orders == old(orders)
        invariant forall k :: 0 <= k < i ==> Received(receipts, id, k) <= 0
      {
        if Received(receipts, id, i) > 0 { return Conflict; }
      }
      orders := orders[id := o.(status := Cancelled)];
      return Done;
    }

    /** Spreads the charges, writes a movement per product line and links the two; None rolls back. */
    method ApportionAndPost(orderLines: seq<OrderLine>, r: GoodsReceipt) returns (posted: Option<seq<ReceiptLine>>)
      requires forall i :: 0 <= i < |r.lines| ==> 0 < r.lines[i].quantity
      modifies store`movements
      ensures match Posting(store.products, old(store.movements), orderLines, r)
              case None => posted == None && store.movements == old(store.movements)
              case Some(p) => posted == Some(p.lines) && store.movements == p.ledger
    {
      var before := store.movements;
      var shares, ok := SharesOf(orderLines, r);
      if !ok { return None; }
      ghost var ns := ChargeShares(orderLines, r).value;
      var lines: seq<ReceiptLine> := [];
      for i := 0 to |r.lines|
        invariant Kwacha(shares[..], ns)
        invariant Post(store.products, before, orderLines, r.rate, r.lines[..i], ns[..i])
          == Some(Posted(lines, store.movements))
      {
        assert r.lines[..i + 1][..i] == r.lines[..i] && ns[..i + 1][..i] == ns[..i];
        var product := LineAt(orderLines, r.lines[i].line).product;
        var l := Cost(orderLines, r.rate, r.lines[i], shares[i], ns[i]);
        if product.Some? {
          var row := |store.movements|;
          var err := store.RecordMovement(ArrivalMovement(product.value, l));
          if err != None {
            PostStops(store.products, before, orderLines, r.rate, r.lines, ns, i + 1);
            store.movements := before;
            return None;
          }
          l := l.(movement := Some(row));
        }
        lines := lines + [l];
      }
      assert r.lines[..|r.lines|] == r.lines && ns[..|ns|] == ns;
      return Some(lines);
    }

    /** One arrival: checked line by line, costed, posted and reflected in the status, or not at all. */
    method ReceiveGoods(id: OrderId, d: ReceiptDraft) returns (reply: Reply)
      modifies `orders, `receipts, store`movements
      ensures (Model(), reply) == DoReceive(old(Model()), id, d)
    {
      if id >= |orders| { return NotFound; }
      var o := orders[id];
      if o.status != Issued && o.status != PartlyReceived { return Conflict; }
      if d.arrivals == [] || OrRate(d.rate, o.rate) <= 0.0 || !KnownBasis(OrBasis(d.basis)) { return Invalid; }
      for i := 0 to |d.charges|
        invariant forall k :: 0 <= k < i ==> ChargeOk(d.charges[k])
        invariant Model() == old(Model())
      {
        if !ChargeOk(d.charges[i]) { return Invalid; }
      }
      for i := 0 to |d.arrivals|
        invariant forall k :: 0 <= k < i ==> ArrivalOk(o, receipts, id, d.arrivals[k])
        invariant Model() == old(Model())
      {
        if !ArrivalOk(o, receipts, id, d.arrivals[i]) { return Invalid; }
      }
      assert ReceiptDraftOk(o, receipts, id, d);
      reply := PostReceipt(id, Uncosted(o, id, d));
    }

    /** The transaction of a receipt whose request has been found in order. */
    method PostReceipt(id: OrderId, r: GoodsReceipt) returns (reply: Reply)
      requires id < |orders| && forall i :: 0 <= i < |r.lines| ==> 0 < r.lines[i].quantity
      modifies `orders, `receipts, store`movements
      ensures match Posting(store.products, old(store.movements), old(orders)[id].lines, r)
              case None => reply == Failed && Model() == old(Model())
              case Some(p) => reply == Done && Model() == WithReceipt(old(Model()), id, r.(lines := p.lines), p.ledger)
    {
      var o := orders[id];
      var posted := ApportionAndPost(o.lines, r);
      if posted.None? { return Failed; }
      receipts := receipts + [r.(lines := posted.value)];
      var all, any := Progress(o.lines, receipts, id);
      if all && o.lines != [] {
        orders := orders[id := o.(status := FullyReceived)];
      } else if any {
        orders := orders[id := o.(status := PartlyReceived)];
      }
      assert orders == old(orders)[id := o.(status := StatusAfter(o, receipts, id))];
      return Done;
    }

    /** Books a late charge and costs the receipt again; a charge that cannot be spread is rolled back. */
    method AddLandedCostComponent(id: ReceiptId, c: Component) returns (reply: Reply)
      requires ReceiptsInv(Model())
      modifies `receipts, store`movements
      ensures (Model(), reply) == DoCharge(old(Model()), id, c)
    {
      if id >= |receipts| { return NotFound; }
      if !ChargeOk(c) { return Invalid; }
      var before := receipts;
      RowsToRecost(Model(), id);
      receipts := receipts[id := receipts[id].(components := receipts[id].components + [Stored(c)])];
      var ok := RecostReceipt(id);
      if !ok {
        receipts := before;
        return Failed;
      }
      assert receipts == before[id := receipts[id]];
      return Done;
    }

    /** Re-runs the apportionment and rewrites the unit costs where they stand. */
    method RecostReceipt(id: ReceiptId) returns (ok: bool)
      requires id < |receipts| && receipts[id].order < |orders|
      requires forall i :: 0 <= i < |receipts[id].lines| ==> 0 < receipts[id].lines[i].quantity
      requires forall i :: 0 <= i < |receipts[id].lines| && receipts[id].lines[i].movement.Some? ==>
        receipts[id].lines[i].movement.value < |store.movements|
      modifies `receipts, store`movements
      ensures var r := old(receipts)[id];
              var shares := ChargeShares(orders[r.order].lines, r);
              ok == shares.Ok?
              && (!ok ==> Model() == old(Model()))
              && (ok ==>
                var lines := CostedLines(orders[r.order].lines, r.rate, r.lines, shares.value);
                receipts == old(receipts)[id := r.(lines := lines)]
                && store.movements == Recosted(old(store.movements), lines))
    {
      var r, orderLines := receipts[id], orders[receipts[id].order].lines;
      var shares;
      shares, ok := SharesOf(orderLines, r);
      if !ok { return; }
      ghost var ns := ChargeShares(orderLines, r).value;
      ghost var costed := CostedLines(orderLines, r.rate, r.lines, ns);
      var lines: seq<ReceiptLine> := [];
      for i := 0 to |r.lines|
        invariant Kwacha(shares[..], ns)
        invariant lines == costed[..i] && store.movements == Recosted(old(store.movements), lines)
        invariant receipts == old(receipts)
      {
        var l := Cost(orderLines, r.rate, r.lines[i], shares[i], ns[i]);
        assert costed[..i + 1] == lines + [l] && costed[..i + 1][..i] == lines;
        if l.movement.Some? {
          var row := l.movement.value;
          store.movements := store.movements[row := store.movements[row].(unitCost := l.unitCost)];
        }
        lines := lines + [l];
      }
      assert costed[..|costed|] == costed;
      receipts := receipts[id := r.(lines := lines)];
    }
  }

  lemma RowsToRecost(s: State, id: ReceiptId)
    requires ReceiptsInv(s) && id < |s.receipts|
    ensures var r := s.receipts[id];
      r.order < |s.orders|
      && forall i :: 0 <= i < |r.lines| ==>
        0 < r.lines[i].quantity && (r.lines[i].movement.Some? ==> r.lines[i].movement.value < |s.ledger|)
  {
    var r := s.receipts[id];
    assert ReceiptOk(s.orders, s.ledger, r);
    assert forall i :: 0 <= i < |r.lines| ==>
      LineShape(s.orders[r.order].lines, r.lines[i]) && Linked(s.orders[r.order].lines, s.ledger, r.lines[i]);
  }

  /** Goods value plus share, over the units. */
  method Cost(orderLines: seq<OrderLine>, rate: real, l: ReceiptLine, share: real,
              ghost ngwee: int) returns (out: ReceiptLine)
    requires 0 < l.quantity && share == FromNgwee(ngwee)
    ensures out == CostedLine(orderLines, rate, l, ngwee)
  {
    var goods := GoodsValue(LineAt(orderLines, l.line), l.quantity, rate);
    out := l.(apportioned := share, unitCost := (goods + share) / l.quantity as real);
  }

  /** The state once a receipt of order id is on record. */
  ghost function WithReceipt(s: State, id: OrderId, r: GoodsReceipt, ledger: seq<Movement>): State
    requires id < |s.orders|
  {
    var o, receipts := s.orders[id], s.receipts + [r];
    s.(orders := s.orders[id := o.(status := StatusAfter(o, receipts, id))], receipts := receipts, ledger := ledger)
  }

  /** What posting a receipt leaves; None if its charges cannot be spread or a movement is refused. */
  ghost function Posting(products: set<ProductId>, ledger: seq<Movement>, orderLines: seq<OrderLine>, r: GoodsReceipt)
    : Option<Posted>
  {
    match ChargeShares(orderLines, r)
    case Err(_) => None
    case Ok(shares) => Post(products, ledger, orderLines, r.rate, r.lines, shares)
  }
}
