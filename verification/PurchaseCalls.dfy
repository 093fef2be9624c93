/**
 What the purchasing handlers do, in the fields of the tables: what an order is stored as and asks
 the gate for, what a delivery records, how every receipt is costed, and what each call does to the
 rest.
 */
module PurchaseCalls {
  import opened Common
  import opened Stock
  import opened LandedCost
  import opened Purchasing
  import opened PurchaseSafety
  import opened PurchaseTheorems
  import Apportionment
  import Approvals
  import ApprovalHandlers
  import PurchaseCosting

  // --- How a receipt is costed -------------------------------------------------------------------

  /** The charges added up one by one, amount times rate. */
  ghost predicate ChargesCome(cs: seq<Component>, total: real) {
    exists totals: seq<real> ::
      |totals| == |cs| + 1 && totals[0] == 0.0 && total == totals[|cs|]
      && forall i :: 0 <= i < |cs| ==> totals[i + 1] == totals[i] + cs[i].amount * cs[i].rate
  }

  lemma ChargesExactly(cs: seq<Component>, total: real)
    ensures ChargesCome(cs, total) <==> total == TotalComponents(cs)
  {
    var terms := AmountsZMW(cs);
    assert forall i :: 0 <= i < |cs| ==> terms[i] == cs[i].amount * cs[i].rate;
    var own := RunningTotals(terms);
    RunningIsSum(terms, own);
    if ChargesCome(cs, total) {
      var totals: seq<real> :| |totals| == |cs| + 1 && totals[0] == 0.0 && total == totals[|cs|]
        && forall i :: 0 <= i < |cs| ==> totals[i + 1] == totals[i] + cs[i].amount * cs[i].rate;
      assert Running(terms, totals);
      RunningIsSum(terms, totals);
    }
  }

  /** n is x with its fraction cut off. */
  predicate Cut(x: real, n: int) {
    if 0.0 <= x then n as real <= x < (n + 1) as real else (n - 1) as real < x <= n as real
  }

  lemma CutExactly(x: real)
    ensures Cut(x, Trunc(x))
    ensures forall n :: Cut(x, n) ==> n == Trunc(x)
  {}

  /** What a receipt line weighs: its goods in ngwee, its units, or its grams. */
  ghost predicate LineWeighs(basis: string, ol: OrderLine, rate: real, l: ReceiptLine, w: int) {
    (basis == "value" ==> Cut(l.quantity as real * ol.unitPrice * rate * 100.0 + 0.5, w))
    && (basis == "quantity" ==> w == l.quantity)
    && (basis == "weight" ==> Cut(l.weight * 1000.0 + 0.5, w))
  }

  /** Goods at the order's price and the receipt's rate plus the line's share of the charges. */
  ghost predicate LineCosts(ol: OrderLine, rate: real, l: ReceiptLine, share: int) {
    l.apportioned == share as real / 100.0
    && l.quantity as real * l.unitCost == l.quantity as real * ol.unitPrice * rate + share as real / 100.0
  }

  /** Charges split on the receipt's basis, to the ngwee, and landed on the lines' unit costs. */
  ghost predicate CostedBy(orderLines: seq<OrderLine>, r: GoodsReceipt, total: real, w: seq<int>, shares: seq<int>) {
    ChargesCome(r.components, total) && |w| == |r.lines| == |shares|
    && (forall i :: 0 <= i < |r.lines| ==>
      r.lines[i].line < |orderLines| && LineWeighs(r.basis, orderLines[r.lines[i].line], r.rate, r.lines[i], w[i]))
    && Apportionment.Apportion(ToNgwee(total), w) == Ok(shares)
    && forall i :: 0 <= i < |r.lines| ==> LineCosts(orderLines[r.lines[i].line], r.rate, r.lines[i], shares[i])
  }

  ghost function WeightsOf(orderLines: seq<OrderLine>, r: GoodsReceipt): seq<int> {
    WeightsOn(r.basis, BasisLines(orderLines, r.rate, r.lines))
  }

  lemma LineWeighsAsStored(orderLines: seq<OrderLine>, r: GoodsReceipt, i: nat)
    requires i < |r.lines| && r.lines[i].line < |orderLines|
    ensures LineWeighs(r.basis, orderLines[r.lines[i].line], r.rate, r.lines[i], WeightsOf(orderLines, r)[i])
  {
    var ol, l := orderLines[r.lines[i].line], r.lines[i];
    var b := BasisLines(orderLines, r.rate, r.lines)[i];
    assert b == BasisLine(orderLines, r.rate, l);
    CutExactly(l.quantity as real * ol.unitPrice * r.rate * 100.0 + 0.5);
    CutExactly(l.weight * 1000.0 + 0.5);
  }

  lemma LineCostsAsStored(ol: OrderLine, rate: real, l: ReceiptLine, share: int)
    requires 0 < l.quantity
    requires l.apportioned == FromNgwee(share)
      && l.unitCost == UnitCost(GoodsValue(ol, l.quantity, rate), share, l.quantity)
    ensures LineCosts(ol, rate, l, share)
  {
    PurchaseCosting.CarriedLine(GoodsValue(ol, l.quantity, rate), share, l.quantity);
  }

  lemma CurrentIsCosted(orderLines: seq<OrderLine>, r: GoodsReceipt)
    requires CostsCurrent(orderLines, r) && KnownBasis(r.basis)
    requires forall i :: 0 <= i < |r.lines| ==> LineShape(orderLines, r.lines[i])
    ensures CostedBy(orderLines, r, TotalComponents(r.components), WeightsOf(orderLines, r),
                     ChargeShares(orderLines, r).value)
  {
    var shares := ChargeShares(orderLines, r).value;
    ChargesExactly(r.components, TotalComponents(r.components));
    forall i | 0 <= i < |r.lines|
      ensures LineWeighs(r.basis, orderLines[r.lines[i].line], r.rate, r.lines[i], WeightsOf(orderLines, r)[i])
      ensures LineCosts(orderLines[r.lines[i].line], r.rate, r.lines[i], shares[i])
    {
      assert LineShape(orderLines, r.lines[i]);
      LineWeighsAsStored(orderLines, r, i);
      LineCostsAsStored(orderLines[r.lines[i].line], r.rate, r.lines[i], shares[i]);
    }
  }

  /** The ledger row of a receipt line: an arrival of its product, its units at its unit cost. */
  ghost predicate LineLanded(ledger: seq<Movement>, ol: OrderLine, l: ReceiptLine) {
    match ol.product
    case None => l.movement == None
    case Some(p) =>
      l.movement.Some? && l.movement.value < |ledger|
      && ledger[l.movement.value] == Movement(p, "receipt", l.quantity, l.unitCost, None, "")
  }

  /**
   In every reachable state every receipt is costed by all the charges booked against it so far,
   split on its own basis, at its order's prices and its own rate; and the ledger says the same.
   */
  lemma CostedThroughout(es: seq<Event>, id: ReceiptId)
    requires id < |Run(Start, es).receipts|
    ensures var s := Run(Start, es);
      var r := s.receipts[id];
      r.order < |s.orders| && r.basis in {"value", "quantity", "weight"}
      && (exists total, w, shares :: CostedBy(s.orders[r.order].lines, r, total, w, shares))
      && forall i :: 0 <= i < |r.lines| ==>
        r.lines[i].line < |s.orders[r.order].lines|
        && LineLanded(s.ledger, s.orders[r.order].lines[r.lines[i].line], r.lines[i])
  {
    var s := Run(Start, es);
    ReachableInv(es);
    var r := s.receipts[id];
    assert ReceiptOk(s.orders, s.ledger, r);
    var ol := s.orders[r.order].lines;
    CurrentIsCosted(ol, r);
    forall i | 0 <= i < |r.lines| ensures r.lines[i].line < |ol| && LineLanded(s.ledger, ol[r.lines[i].line], r.lines[i]) {
      assert LineShape(ol, r.lines[i]) && Linked(ol, s.ledger, r.lines[i]);
    }
  }

  // --- Drafts ------------------------------------------------------------------------------------

  /** Something is left once white space is trimmed. */
  ghost predicate HasText(s: string) {
    exists i :: 0 <= i < |s| && s[i] != ' ' && s[i] != '\t' && s[i] != '\n' && s[i] != '\r'
  }

  /** A supplier, a currency or none, and lines that each describe a positive quantity at no negative price. */
  ghost predicate GoodDraft(d: OrderDraft, rate: real) {
    HasText(d.supplier) && (d.currency == "" || HasText(d.currency)) && 0.0 < rate && d.lines != []
    && forall i :: 0 <= i < |d.lines| ==>
      HasText(d.lines[i].description) && 0 < d.lines[i].quantity && 0.0 <= d.lines[i].unitPrice
  }

  /** The order holds the draft's lines, in their order, at the rate. */
  ghost predicate StoredAs(o: PurchaseOrder, d: OrderDraft, rate: real) {
    o.status == Draft && o.rate == rate && |o.lines| == |d.lines|
    && forall i :: 0 <= i < |d.lines| ==>
      o.lines[i].product == d.lines[i].product && o.lines[i].quantity == d.lines[i].quantity
      && o.lines[i].unitPrice == d.lines[i].unitPrice
  }

  lemma TextExactly(s: string)
    ensures HasText(s) <==> !Blank(s)
  {
    if !Blank(s) {
      var i :| 0 <= i < |s| && !Space(s[i]);
    }
  }

  lemma GoodExactly(d: OrderDraft, default: real)
    ensures GoodDraft(d, if d.rate == 0.0 then default else d.rate) <==> DraftOk(d, default)
  {
    TextExactly(d.supplier);
    TextExactly(d.currency);
    forall i | 0 <= i < |d.lines|
      ensures LineDraftOk(d.lines[i]) <==>
        HasText(d.lines[i].description) && 0 < d.lines[i].quantity && 0.0 <= d.lines[i].unitPrice
    {
      TextExactly(d.lines[i].description);
    }
  }

  /** Raising an order stores the draft as it came, at a rate of one if none is given; or does nothing. */
  lemma CreateInFull(s: State, d: OrderDraft)
    ensures var rate := if d.rate == 0.0 then 1.0 else d.rate;
      var (s', reply) := DoCreate(s, d);
      (reply == Done <==> GoodDraft(d, rate)) && (reply != Done ==> s' == s && reply == Invalid)
      && (reply == Done ==>
        |s'.orders| == |s.orders| + 1 && s'.orders[..|s.orders|] == s.orders && s' == s.(orders := s'.orders)
        && StoredAs(s'.orders[|s.orders|], d, rate)
        && s'.orders[|s.orders|].issued == None && s'.orders[|s.orders|].number == None)
  {
    GoodExactly(d, 1.0);
  }

  /** Editing a draft or a rejected order replaces its lines and rate and makes it a draft; or does nothing. */
  lemma UpdateInFull(s: State, id: OrderId, d: OrderDraft)
    requires id < |s.orders|
    ensures var o := s.orders[id];
      var rate := if d.rate == 0.0 then o.rate else d.rate;
      var (s', reply) := DoUpdate(s, id, d);
      (reply == Done <==> (o.status == Draft || o.status == Refused) && GoodDraft(d, rate))
      && (reply != Done ==> s' == s)
      && (reply == Done ==>
        s' == s.(orders := s.orders[id := s'.orders[id]]) && StoredAs(s'.orders[id], d, rate)
        && s'.orders[id].issued == o.issued && s'.orders[id].number == o.number)
  {
    GoodExactly(d, s.orders[id].rate);
  }

  // --- Issuing -----------------------------------------------------------------------------------

  /** The approval engine after the order's issue has been put to it at a kwacha value. */
  ghost function Asked(engine: Approvals.Sys, id: OrderId, gate: Approvals.FlightId,
                       caller: Option<Approvals.UserId>, value: real): Approvals.Sys
  {
    ApprovalHandlers.Serve(engine, gate, Approvals.CallGate("purchase_order.issue", id, caller, value))
  }

  /** The order once the gate has let it through: issued, to the caller of that gate, with a number. */
  ghost predicate IssuedAs(o: PurchaseOrder, o': PurchaseOrder, gate: Approvals.FlightId,
                           caller: Option<Approvals.UserId>, next: Number)
  {
    o'.status == Issued && o'.rate == o.rate && o'.lines == o.lines
    && o'.issued.Some? && o'.issued.value.gate == gate && o'.issued.value.caller == caller
    && o'.number == (if o.number.Some? then o.number else Some(next))
  }

  /** What a request in the way does to the order waiting for it. */
  ghost predicate HeldAs(o: PurchaseOrder, o': PurchaseOrder, request: Approvals.Status) {
    o' == o.(status := o'.status)
    && (request == Approvals.Rejected ==> o'.status == Refused)
    && (request == Approvals.Pending ==> o'.status == if o.status == Draft then PendingApproval else o.status)
    && (request != Approvals.Rejected && request != Approvals.Pending ==> o'.status == o.status)
  }

  /** An order that cannot be issued is refused before anybody is asked. */
  lemma IssueRefused(s: State, id: OrderId, gate: Approvals.FlightId, caller: Option<Approvals.UserId>, year: nat)
    requires id >= |s.orders| || s.orders[id].status !in {Draft, PendingApproval, ApprovedUnissued}
      || s.orders[id].lines == []
    ensures DoIssue(s, id, gate, caller, year).0 == s && DoIssue(s, id, gate, caller, year).1 != Done
  {}

  /** Issuing puts the order's kwacha value to the gate, and does as the gate says. */
  lemma IssueInFull(s: State, id: OrderId, gate: Approvals.FlightId, caller: Option<Approvals.UserId>, year: nat,
                    value: real)
    requires id < |s.orders| && s.orders[id].status in {Draft, PendingApproval, ApprovedUnissued}
    requires s.orders[id].lines != [] && ComesTo(s.orders[id], value) && Fresh(s.engine, gate)
    ensures var (s', reply) := DoIssue(s, id, gate, caller, year);
      var engine := Asked(s.engine, id, gate, caller, value);
      |s'.orders| == |s.orders| && s' == s.(engine := engine, orders := s.orders[id := s'.orders[id]])
      && (gate in engine.results ==>
        match engine.results[gate]
        case Proceed =>
          reply == Done
          && IssuedAs(s.orders[id], s'.orders[id], gate, caller, Number(year, CountYear(s.orders, year) + 1))
        case BlockedBy(r) =>
          r < |engine.requests| ==>
            reply == Held(r) && HeldAs(s.orders[id], s'.orders[id], engine.requests[r].status)
        case _ => reply == Failed && s'.orders[id] == s.orders[id])
  {
    ValueExactly(s.orders[id], value);
  }

  // --- What has come in ---------------------------------------------------------------------------

  /** Received counts every line of every receipt of the order, and nothing else. */
  lemma ReceivedCounts(receipts: seq<GoodsReceipt>, r: GoodsReceipt, l: ReceiptLine, id: OrderId, line: nat)
    ensures Received([], id, line) == 0
    ensures Received(receipts + [r.(lines := [])], id, line) == Received(receipts, id, line)
    ensures Received(receipts + [r.(lines := r.lines + [l])], id, line) ==
      Received(receipts + [r], id, line) + (if r.order == id && l.line == line then l.quantity else 0)
  {
    ReceivedSnoc(receipts, r.(lines := []), id, line);
    ReceivedSnoc(receipts, r, id, line);
    ReceivedSnoc(receipts, r.(lines := r.lines + [l]), id, line);
    assert (r.lines + [l])[..|r.lines|] == r.lines;
  }

  ghost predicate NothingCame(o: PurchaseOrder, receipts: seq<GoodsReceipt>, id: OrderId) {
    forall i: nat :: i < |o.lines| ==> Received(receipts, id, i) <= 0
  }

  lemma NothingExactly(o: PurchaseOrder, receipts: seq<GoodsReceipt>, id: OrderId)
    ensures NothingCame(o, receipts, id) <==> NothingIn(o.lines, receipts, id)
  {
    if NothingCame(o, receipts, id) {
      forall i | 0 <= i < |o.lines| ensures Received(receipts, id, i) <= 0 {}
    }
    if NothingIn(o.lines, receipts, id) {
      forall i: nat | i < |o.lines| ensures Received(receipts, id, i) <= 0 {}
    }
  }

  /** An order is cancelled exactly when nothing has come in on any of its lines. */
  lemma CancelInFull(s: State, id: OrderId)
    requires id < |s.orders|
    ensures var (s', reply) := DoCancel(s, id);
      (reply == Done <==> NothingCame(s.orders[id], s.receipts, id))
      && s' == if reply == Done then s.(orders := s.orders[id := s.orders[id].(status := Cancelled)]) else s
  {
    NothingExactly(s.orders[id], s.receipts, id);
  }

  // --- Deliveries -----------------------------------------------------------------------------------

  ghost predicate KnownCharge(c: Component) {
    c.kind in {"freight", "insurance", "duty", "clearing", "handling", "other"} && 0.0 <= c.amount
  }

  /** A charge as it is kept: without a rate, at one. */
  ghost predicate KeptAs(kept: Component, c: Component) {
    kept.kind == c.kind && kept.amount == c.amount && kept.rate == if c.rate == 0.0 then 1.0 else c.rate
  }

  ghost predicate AllKeptAs(kept: seq<Component>, cs: seq<Component>) {
    |kept| == |cs| && forall i :: 0 <= i < |cs| ==> KeptAs(kept[i], cs[i])
  }

  /** The delivery note against the order: its lines, positive, no more than was outstanding before it. */
  ghost predicate GoodNote(o: PurchaseOrder, receipts: seq<GoodsReceipt>, id: OrderId, d: ReceiptDraft,
                           rate: real, basis: string)
  {
    (o.status == Issued || o.status == PartlyReceived)
    && d.arrivals != [] && 0.0 < rate && basis in {"value", "quantity", "weight"}
    && (forall i :: 0 <= i < |d.charges| ==> KnownCharge(d.charges[i]))
    && forall i :: 0 <= i < |d.arrivals| ==>
      d.arrivals[i].line < |o.lines| && 0 < d.arrivals[i].quantity
      && d.arrivals[i].quantity <= o.lines[d.arrivals[i].line].quantity - Received(receipts, id, d.arrivals[i].line)
  }

  lemma NoteExactly(o: PurchaseOrder, receipts: seq<GoodsReceipt>, id: OrderId, d: ReceiptDraft)
    ensures GoodNote(o, receipts, id, d, if d.rate == 0.0 then o.rate else d.rate,
                     if d.basis == "" then "value" else d.basis)
      <==> (o.status == Issued || o.status == PartlyReceived) && ReceiptDraftOk(o, receipts, id, d)
  {
    forall i | 0 <= i < |d.arrivals|
      ensures ArrivalOk(o, receipts, id, d.arrivals[i]) <==>
        d.arrivals[i].line < |o.lines| && 0 < d.arrivals[i].quantity
        && d.arrivals[i].quantity <= o.lines[d.arrivals[i].line].quantity - Received(receipts, id, d.arrivals[i].line)
    {}
    forall i | 0 <= i < |d.charges| ensures ChargeOk(d.charges[i]) <==> KnownCharge(d.charges[i]) {}
  }

  /** Charges that come to less than nothing cannot be split, nor any on a weight below zero grams. */
  ghost predicate Splittable(total: int, basis: string, weights: seq<real>) {
    0 <= total
    && (total == 0 || basis != "weight"
        || forall i :: 0 <= i < |weights| ==> -1.0 < weights[i] * 1000.0 + 0.5)
  }

  /** The weights keyed in for the lines. */
  ghost predicate Keyed(lines: seq<ReceiptLine>, weights: seq<real>) {
    |weights| == |lines| && forall i :: 0 <= i < |lines| ==> weights[i] == lines[i].weight
  }

  lemma TimesNonNegative(a: real, b: real)
    requires 0.0 <= a && 0.0 <= b
    ensures 0.0 <= a * b
  {}

  lemma GoodsNotNegative(ol: OrderLine, quantity: int, rate: real)
    requires 0 < quantity && 0.0 <= ol.unitPrice && 0.0 < rate
    ensures 0.0 <= GoodsValue(ol, quantity, rate)
  {
    TimesNonNegative(quantity as real, ol.unitPrice);
    TimesNonNegative(quantity as real * ol.unitPrice, rate);
  }

  lemma LineSplittable(orderLines: seq<OrderLine>, rate: real, basis: string, l: ReceiptLine)
    requires LinesOk(orderLines) && 0.0 < rate && KnownBasis(basis) && LineShape(orderLines, l)
    ensures 0 <= WeightOn(basis, BasisLine(orderLines, rate, l)) <==>
      basis != "weight" || -1.0 < l.weight * 1000.0 + 0.5
  {
    GoodsNotNegative(orderLines[l.line], l.quantity, rate);
    CutExactly(l.weight * 1000.0 + 0.5);
    CutExactly(GoodsValue(orderLines[l.line], l.quantity, rate) * 100.0 + 0.5);
  }

  lemma SplittableExactly(orderLines: seq<OrderLine>, rate: real, basis: string, lines: seq<ReceiptLine>,
                          weights: seq<real>, total: int)
    requires Keyed(lines, weights) && LinesOk(orderLines) && 0.0 < rate && KnownBasis(basis)
    requires forall i :: 0 <= i < |lines| ==> LineShape(orderLines, lines[i])
    ensures Splittable(total, basis, weights) <==>
      PurchaseCosting.Spreads(total, basis, BasisLines(orderLines, rate, lines))
  {
    var b := BasisLines(orderLines, rate, lines);
    forall i | 0 <= i < |lines|
      ensures 0 <= WeightOn(basis, b[i]) <==>
        basis != "weight" || -1.0 < lines[i].weight * 1000.0 + 0.5
    {
      LineSplittable(orderLines, rate, basis, lines[i]);
    }
    assert forall i :: 0 <= i < |b| ==> b[i] in b;
  }

  /** A late charge is booked exactly when it is in order and all the receipt's charges can be split. */
  lemma ChargeAccepted(es: seq<Event>, id: ReceiptId, c: Component, kept: Component, total: real, weights: seq<real>)
    requires id < |Run(Start, es).receipts| && KeptAs(kept, c) && Keyed(Run(Start, es).receipts[id].lines, weights)
    requires ChargesCome(Run(Start, es).receipts[id].components + [kept], total)
    ensures var s := Run(Start, es);
      DoCharge(s, id, c).1 == Done <==>
        KnownCharge(c) && Splittable(ToNgwee(total), s.receipts[id].basis, weights)
  {
    ReachableInv(es);
    AcceptedInState(Run(Start, es), id, c, kept, total, weights);
  }

  lemma AcceptedInState(s: State, id: ReceiptId, c: Component, kept: Component, total: real, weights: seq<real>)
    requires Inv(s) && id < |s.receipts| && KeptAs(kept, c) && Keyed(s.receipts[id].lines, weights)
    requires ChargesCome(s.receipts[id].components + [kept], total)
    ensures DoCharge(s, id, c).1 == Done <==>
      KnownCharge(c) && Splittable(ToNgwee(total), s.receipts[id].basis, weights)
  {
    KeptIsStored(kept, c);
    ChargesExactly(s.receipts[id].components + [Stored(c)], total);
    PurchaseCosting.ChargeAcceptedExactly(s, id, c);
    SplitsInState(s, id, weights, ToNgwee(total));
    KnownExactly(c);
  }

  lemma KeptIsStored(kept: Component, c: Component)
    ensures KeptAs(kept, c) <==> kept == Stored(c)
  {}

  lemma KnownExactly(c: Component)
    ensures KnownCharge(c) <==> ChargeOk(c)
  {}

  lemma SplitsInState(s: State, id: ReceiptId, weights: seq<real>, total: int)
    requires Inv(s) && id < |s.receipts| && Keyed(s.receipts[id].lines, weights)
    ensures var r := s.receipts[id];
      r.order < |s.orders|
      && (Splittable(total, r.basis, weights) <==>
            PurchaseCosting.Spreads(total, r.basis, BasisLines(s.orders[r.order].lines, r.rate, r.lines)))
  {
    var r := s.receipts[id];
    assert ReceiptOk(s.orders, s.ledger, r) && OrderOk(s.orders[r.order]);
    SplittableExactly(s.orders[r.order].lines, r.rate, r.basis, r.lines, weights, total);
  }

  /** It adds the charge, recosts the lines and the rows they link to, and touches nothing else. */
  lemma ChargeInFull(es: seq<Event>, id: ReceiptId, c: Component)
    requires id < |Run(Start, es).receipts|
    ensures var s := Run(Start, es);
      var (s', reply) := DoCharge(s, id, c);
      (reply != Done ==> s' == s)
      && (reply == Done ==>
        |s'.receipts| == |s.receipts|
        && s' == s.(receipts := s.receipts[id := s'.receipts[id]], ledger := s'.ledger)
        && BookedOn(s.receipts[id], s'.receipts[id], c)
        && s.receipts[id].order < |s.orders|
        && (exists total, w, shares ::
          CostedBy(s.orders[s.receipts[id].order].lines, s'.receipts[id], total, w, shares))
        && |s'.ledger| == |s.ledger|
        && forall m :: 0 <= m < |s.ledger| ==> s'.ledger[m] == s.ledger[m].(unitCost := s'.ledger[m].unitCost))
  {
    var s := Run(Start, es);
    ReachableInv(es);
    if DoCharge(s, id, c).1 == Done {
      var s' := DoCharge(s, id, c).0;
      ChargeKeeps(s, id, c);
      assert ReceiptOk(s.orders, s.ledger, s.receipts[id]);
      assert ReceiptOk(s'.orders, s'.ledger, s'.receipts[id]);
      CurrentIsCosted(s'.orders[s'.receipts[id].order].lines, s'.receipts[id]);
    }
  }

  /** The receipt with one more charge: its goods, its basis and its rate are as they were. */
  ghost predicate BookedOn(r: GoodsReceipt, r': GoodsReceipt, c: Component) {
    r'.order == r.order && r'.rate == r.rate && r'.basis == r.basis
    && |r'.components| == |r.components| + 1 && r'.components[..|r.components|] == r.components
    && KeptAs(r'.components[|r.components|], c)
    && |r'.lines| == |r.lines|
    && forall i :: 0 <= i < |r.lines| ==>
      r'.lines[i].line == r.lines[i].line && r'.lines[i].quantity == r.lines[i].quantity
      && r'.lines[i].weight == r.lines[i].weight && r'.lines[i].movement == r.lines[i].movement
  }

  function RateFor(d: ReceiptDraft, o: PurchaseOrder): real { if d.rate == 0.0 then o.rate else d.rate }

  function BasisFor(d: ReceiptDraft): string { if d.basis == "" then "value" else d.basis }

  /** The receipt of a delivery note, but for its costs. */
  ghost predicate NotedAs(r: GoodsReceipt, id: OrderId, d: ReceiptDraft, rate: real, basis: string) {
    r.order == id && r.rate == rate && r.basis == basis && AllKeptAs(r.components, d.charges)
    && |r.lines| == |d.arrivals|
    && forall i :: 0 <= i < |d.arrivals| ==>
      r.lines[i].line == d.arrivals[i].line && r.lines[i].quantity == d.arrivals[i].quantity
      && r.lines[i].weight == d.arrivals[i].weight
  }

  /** Every product the note brings in is still in the catalogue. */
  ghost predicate Stocked(s: State, o: PurchaseOrder, d: ReceiptDraft) {
    forall i :: 0 <= i < |d.arrivals| && d.arrivals[i].line < |o.lines| && o.lines[d.arrivals[i].line].product.Some? ==>
      o.lines[d.arrivals[i].line].product.value in s.products
  }

  lemma KeptExactly(kept: seq<Component>, cs: seq<Component>)
    ensures AllKeptAs(kept, cs) <==> kept == StoredAll(cs)
  {
    if AllKeptAs(kept, cs) {
      forall i | 0 <= i < |cs| ensures kept[i] == StoredAll(cs)[i] { assert KeptAs(kept[i], cs[i]); }
    }
  }

  /** A delivery is recorded exactly when its note is good, its charges can be split, and its products exist. */
  lemma DeliveryAccepted(es: seq<Event>, id: OrderId, d: ReceiptDraft, kept: seq<Component>, total: real,
                         weights: seq<real>)
    requires id < |Run(Start, es).orders| && AllKeptAs(kept, d.charges) && ChargesCome(kept, total)
    requires |weights| == |d.arrivals| && forall i :: 0 <= i < |weights| ==> weights[i] == d.arrivals[i].weight
    ensures var s := Run(Start, es);
      var o := s.orders[id];
      DoReceive(s, id, d).1 == Done <==>
        GoodNote(o, s.receipts, id, d, RateFor(d, o), BasisFor(d))
        && Splittable(ToNgwee(total), BasisFor(d), weights) && Stocked(s, o, d)
  {
    var s := Run(Start, es);
    ReachableInv(es);
    var o, r := s.orders[id], Uncosted(s.orders[id], id, d);
    NoteExactly(o, s.receipts, id, d);
    KeptExactly(kept, d.charges);
    ChargesExactly(kept, total);
    PurchaseTheorems.AcceptedExactly(s, id, d);
    if ReceiptDraftOk(o, s.receipts, id, d) && (o.status == Issued || o.status == PartlyReceived) {
      NoteSplits(s, id, d, weights, ToNgwee(total));
    }
  }

  lemma NoteSplits(s: State, id: OrderId, d: ReceiptDraft, weights: seq<real>, total: int)
    requires Inv(s) && id < |s.orders| && ReceiptDraftOk(s.orders[id], s.receipts, id, d)
    requires |weights| == |d.arrivals| && forall i :: 0 <= i < |weights| ==> weights[i] == d.arrivals[i].weight
    ensures var r := Uncosted(s.orders[id], id, d);
      Splittable(total, BasisFor(d), weights) <==>
        PurchaseCosting.Spreads(total, r.basis, BasisLines(s.orders[id].lines, r.rate, r.lines))
  {
    var o, r := s.orders[id], Uncosted(s.orders[id], id, d);
    assert OrderOk(o);
    forall i | 0 <= i < |r.lines| ensures LineShape(o.lines, r.lines[i]) {
      assert ArrivalOk(o, s.receipts, id, d.arrivals[i]);
    }
    SplittableExactly(o.lines, r.rate, r.basis, r.lines, weights, total);
  }

  /** Everything that was ordered on every line is in. */
  ghost predicate AllCame(o: PurchaseOrder, receipts: seq<GoodsReceipt>, id: OrderId) {
    forall i: nat :: i < |o.lines| ==> o.lines[i].quantity <= Received(receipts, id, i)
  }

  /**
   It adds one receipt with the note's lines and charges, costed and landed in the ledger behind the
   rows already there, and moves the order to received or partly received. Nothing else changes,
   and a delivery that is not recorded changes nothing.
   */
  lemma DeliveryInFull(es: seq<Event>, id: OrderId, d: ReceiptDraft)
    requires id < |Run(Start, es).orders|
    ensures var s := Run(Start, es);
      var o, n := s.orders[id], |s.receipts|;
      var (s', reply) := DoReceive(s, id, d);
      (reply != Done ==> s' == s)
      && (reply == Done ==>
        |s'.receipts| == n + 1 && s'.receipts[..n] == s.receipts && s.ledger <= s'.ledger
        && s' == s.(receipts := s'.receipts, ledger := s'.ledger, orders := s.orders[id := s'.orders[id]])
        && NotedAs(s'.receipts[n], id, d, RateFor(d, o), BasisFor(d))
        && (exists total, w, shares :: CostedBy(o.lines, s'.receipts[n], total, w, shares))
        && s'.orders[id] == o.(status := s'.orders[id].status)
        && s'.orders[id].status == (if AllCame(o, s'.receipts, id) then FullyReceived else PartlyReceived))
  {
    var s := Run(Start, es);
    ReachableInv(es);
    if DoReceive(s, id, d).1 == Done { DeliveryLands(s, id, d); }
  }

  lemma DeliveryLands(s: State, id: OrderId, d: ReceiptDraft)
    requires Inv(s) && id < |s.orders| && DoReceive(s, id, d).1 == Done
    ensures var o, n := s.orders[id], |s.receipts|;
      var s' := DoReceive(s, id, d).0;
      |s'.receipts| == n + 1 && s'.receipts[..n] == s.receipts && s.ledger <= s'.ledger
      && s' == s.(receipts := s'.receipts, ledger := s'.ledger, orders := s.orders[id := s'.orders[id]])
      && NotedAs(s'.receipts[n], id, d, RateFor(d, o), BasisFor(d))
      && (exists total, w, shares :: CostedBy(o.lines, s'.receipts[n], total, w, shares))
      && s'.orders[id] == o.(status := s'.orders[id].status)
      && s'.orders[id].status == (if AllCame(o, s'.receipts, id) then FullyReceived else PartlyReceived)
  {
    var s', n := DoReceive(s, id, d).0, |s.receipts|;
    ReceiveKeeps(s, id, d);
    NoteLands(s, id, d);
    assert ReceiptOk(s'.orders, s'.ledger, s'.receipts[n]);
    CurrentIsCosted(s'.orders[id].lines, s'.receipts[n]);
    StatusLands(s', id, n);
  }

  lemma NoteLands(s: State, id: OrderId, d: ReceiptDraft)
    requires Inv(s) && id < |s.orders| && DoReceive(s, id, d).1 == Done
    ensures var o, n := s.orders[id], |s.receipts|;
      var s' := DoReceive(s, id, d).0;
      |s'.receipts| == n + 1 && s'.receipts[..n] == s.receipts && s.ledger <= s'.ledger
      && s' == s.(receipts := s'.receipts, ledger := s'.ledger, orders := s.orders[id := s'.orders[id]])
      && NotedAs(s'.receipts[n], id, d, RateFor(d, o), BasisFor(d))
      && s'.orders[id] == o.(status := s'.orders[id].status)
      && (s'.orders[id].status == FullyReceived || s'.orders[id].status == PartlyReceived
          || s'.orders[id].status == o.status)
  {
    ReceivePosts(s, id, d);
    var o, r, p := s.orders[id], Uncosted(s.orders[id], id, d), PostedBy(s, id, d).value;
    forall i | 0 <= i < |r.lines| ensures 0 < r.lines[i].quantity && r.lines[i].movement == None {
      assert ArrivalOk(o, s.receipts, id, d.arrivals[i]);
    }
    var shares := ChargeShares(o.lines, r).value;
    PostExactly(s.products, s.ledger, o.lines, r.rate, r.lines, shares);
    forall i | 0 <= i < |r.lines|
      ensures p.lines[i].line == r.lines[i].line && p.lines[i].quantity == r.lines[i].quantity
      ensures p.lines[i].weight == r.lines[i].weight
    {
      assert PostedLine(o.lines, r.rate, r.lines[i], shares[i], p.lines[i]);
    }
    KeptExactly(r.components, d.charges);
  }

  /** A receipt on record and a status that agrees with it leave only the two. */
  lemma StatusLands(s: State, id: OrderId, n: ReceiptId)
    requires Inv(s) && id < |s.orders| && n < |s.receipts| && s.receipts[n].order == id
    ensures s.orders[id].status == (if AllCame(s.orders[id], s.receipts, id) then FullyReceived else PartlyReceived)
  {
    var o := s.orders[id];
    assert StatusOk(o, s.receipts, id) && !NoReceipts(s.receipts, id);
    if AllCame(o, s.receipts, id) {
      forall i | 0 <= i < |o.lines| ensures o.lines[i].quantity <= Received(s.receipts, id, i) {}
    }
    if AllIn(o.lines, s.receipts, id) {
      forall i: nat | i < |o.lines| ensures o.lines[i].quantity <= Received(s.receipts, id, i) {}
    }
  }

  /** How many of the lines bring in a catalogue product. */
  ghost function StockLines(orderLines: seq<OrderLine>, lines: seq<ReceiptLine>): nat {
    if lines == [] then 0
    else
      var l := lines[|lines| - 1];
      StockLines(orderLines, lines[..|lines| - 1])
      + (if l.line < |orderLines| && orderLines[l.line].product.Some? then 1 else 0)
  }

  lemma {:induction false} OneRowEach(products: set<ProductId>, ledger: seq<Movement>, orderLines: seq<OrderLine>,
                                      rate: real, lines: seq<ReceiptLine>, shares: seq<int>)
    requires |lines| == |shares| && Post(products, ledger, orderLines, rate, lines, shares).Some?
    ensures var p := Post(products, ledger, orderLines, rate, lines, shares).value;
      |p.ledger| == |ledger| + StockLines(orderLines, lines)
  {
    if lines != [] {
      var n := |lines| - 1;
      OneRowEach(products, ledger, orderLines, rate, lines[..n], shares[..n]);
    }
  }

  lemma PostedRows(s: State, id: OrderId, d: ReceiptDraft)
    requires id < |s.orders| && PostedBy(s, id, d).Some?
    ensures |PostedBy(s, id, d).value.ledger| == |s.ledger| + StockLines(s.orders[id].lines, LinesIn(d))
  {
    var o, r := s.orders[id], Uncosted(s.orders[id], id, d);
    match ChargeShares(o.lines, r)
    case Err(_) =>
    case Ok(shares) => OneRowEach(s.products, s.ledger, o.lines, r.rate, r.lines, shares);
  }

  /** A recorded delivery adds one ledger row for each line that brings in a catalogue product. */
  lemma DeliveryRows(s: State, id: OrderId, d: ReceiptDraft, noted: seq<ReceiptLine>)
    requires id < |s.orders| && DoReceive(s, id, d).1 == Done
    requires |noted| == |d.arrivals| && forall i :: 0 <= i < |noted| ==> noted[i].line == d.arrivals[i].line
    ensures |DoReceive(s, id, d).0.ledger| == |s.ledger| + StockLines(s.orders[id].lines, noted)
  {
    ReceivePosts(s, id, d);
    PostedRows(s, id, d);
    SameStockLines(s.orders[id].lines, noted, LinesIn(d));
  }

  lemma {:induction false} SameStockLines(orderLines: seq<OrderLine>, a: seq<ReceiptLine>, b: seq<ReceiptLine>)
    requires |a| == |b| && forall i :: 0 <= i < |a| ==> a[i].line == b[i].line
    ensures StockLines(orderLines, a) == StockLines(orderLines, b)
  {
    if a != [] { SameStockLines(orderLines, a[..|a| - 1], b[..|b| - 1]); }
  }
}
