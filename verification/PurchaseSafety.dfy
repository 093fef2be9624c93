/** What every run of the purchasing machine keeps, shown event by event. */
module PurchaseSafety {
  import opened Common
  import opened Stock
  import opened LandedCost
  import opened Purchasing
  import Approvals
  import ApprovalHandlers

  // --- The invariant -------------------------------------------------------------------

  ghost predicate LinesOk(lines: seq<OrderLine>) {
    lines != [] && forall i :: 0 <= i < |lines| ==> 0 < lines[i].quantity && 0.0 <= lines[i].unitPrice
  }

  predicate Editable(st: OrderStatus) { st == Draft || st == PendingApproval || st == Refused }

  predicate OutForDelivery(st: OrderStatus) { st == Issued || st == PartlyReceived || st == FullyReceived }

  ghost predicate OrderOk(o: PurchaseOrder) {
    LinesOk(o.lines) && 0.0 < o.rate
    && o.status != ApprovedUnissued && o.status != Closed
    && (o.issued.Some? <==> o.number.Some?)
    && (Editable(o.status) ==> o.issued.None?)
    && (OutForDelivery(o.status) ==> o.issued.Some?)
  }

  ghost predicate NoReceipts(receipts: seq<GoodsReceipt>, id: OrderId) {
    forall r :: 0 <= r < |receipts| ==> receipts[r].order != id
  }

  /** The status says exactly what the receipts add up to. */
  ghost predicate StatusOk(o: PurchaseOrder, receipts: seq<GoodsReceipt>, id: OrderId) {
    match o.status
    case FullyReceived => AllIn(o.lines, receipts, id) && AnyIn(o.lines, receipts, id)
    case PartlyReceived => !AllIn(o.lines, receipts, id) && AnyIn(o.lines, receipts, id)
    case _ => NoReceipts(receipts, id)
  }

  ghost predicate LineShape(lines: seq<OrderLine>, l: ReceiptLine) { l.line < |lines| && 0 < l.quantity }

  ghost predicate ReceiptShape(orders: seq<PurchaseOrder>, r: GoodsReceipt) {
    r.order < |orders| && 0.0 < r.rate && KnownBasis(r.basis) && r.lines != []
    && forall i :: 0 <= i < |r.lines| ==> LineShape(orders[r.order].lines, r.lines[i])
  }

  /** The costs on the receipt are the ones its charges, as they now stand, give. */
  ghost predicate CostsCurrent(orderLines: seq<OrderLine>, r: GoodsReceipt) {
    var shares := ChargeShares(orderLines, r);
    shares.Ok?
    && forall i :: 0 <= i < |r.lines| ==> r.lines[i] == CostedLine(orderLines, r.rate, r.lines[i], shares.value[i])
  }

  /** The ledger row a line links to says what the line says. */
  ghost predicate Linked(orderLines: seq<OrderLine>, ledger: seq<Movement>, l: ReceiptLine) {
    match LineAt(orderLines, l.line).product
    case None => l.movement == None
    case Some(p) =>
      l.movement.Some? && l.movement.value < |ledger| && ledger[l.movement.value] == ArrivalMovement(p, l)
  }

  ghost predicate LinesLinked(orderLines: seq<OrderLine>, ledger: seq<Movement>, lines: seq<ReceiptLine>) {
    forall i :: 0 <= i < |lines| ==> Linked(orderLines, ledger, lines[i])
  }

  /** No two lines share a ledger row. */
  ghost predicate Apart(a: seq<ReceiptLine>, b: seq<ReceiptLine>, same: bool) {
    forall i, j :: 0 <= i < |a| && 0 <= j < |b| && a[i].movement.Some? && a[i].movement == b[j].movement ==>
      same && i == j
  }

  ghost predicate ReceiptOk(orders: seq<PurchaseOrder>, ledger: seq<Movement>, r: GoodsReceipt) {
    ReceiptShape(orders, r) && CostsCurrent(orders[r.order].lines, r)
    && LinesLinked(orders[r.order].lines, ledger, r.lines)
  }

  ghost predicate OrdersInv(s: State) {
    forall id :: 0 <= id < |s.orders| ==> OrderOk(s.orders[id]) && StatusOk(s.orders[id], s.receipts, id)
  }

  ghost predicate ReceiptsInv(s: State) {
    (forall r :: 0 <= r < |s.receipts| ==> ReceiptOk(s.orders, s.ledger, s.receipts[r]))
    && (forall a, b :: 0 <= a < |s.receipts| && 0 <= b < |s.receipts| ==>
      Apart(s.receipts[a].lines, s.receipts[b].lines, a == b))
  }

  ghost predicate Inv(s: State) {
    OrdersInv(s) && ReceiptsInv(s) && Sound(s.ledger)
  }

  // --- What the receipts of an order add up to --------------------------------------------

  lemma {:induction false} LineQuantityNonNegative(lines: seq<ReceiptLine>, line: nat)
    requires forall i :: 0 <= i < |lines| ==> 0 < lines[i].quantity
    ensures 0 <= LineQuantity(lines, line)
    ensures forall i :: 0 <= i < |lines| && lines[i].line == line ==> 0 < LineQuantity(lines, line)
  {
    if lines != [] {
      var n := |lines| - 1;
      LineQuantityNonNegative(lines[..n], line);
      forall i | 0 <= i < |lines| && lines[i].line == line ensures 0 < LineQuantity(lines, line) {
        if i < n { assert lines[..n][i].line == line; }
      }
    }
  }

  /** Same order lines, same quantities. */
  ghost predicate SameGoods(a: seq<ReceiptLine>, b: seq<ReceiptLine>) {
    |a| == |b|
    && forall i :: 0 <= i < |a| ==> a[i].line == b[i].line && a[i].quantity == b[i].quantity && a[i].weight == b[i].weight
  }

  lemma {:induction false} LineQuantitySame(a: seq<ReceiptLine>, b: seq<ReceiptLine>, line: nat)
    requires SameGoods(a, b)
    ensures LineQuantity(a, line) == LineQuantity(b, line)
  {
    if a != [] { LineQuantitySame(a[..|a| - 1], b[..|b| - 1], line); }
  }

  lemma ReceivedSnoc(receipts: seq<GoodsReceipt>, r: GoodsReceipt, id: OrderId, line: nat)
    ensures Received(receipts + [r], id, line) ==
      Received(receipts, id, line) + (if r.order == id then LineQuantity(r.lines, line) else 0)
  {
    assert (receipts + [r])[..|receipts|] == receipts;
  }

  lemma {:induction false} ReceivedNone(receipts: seq<GoodsReceipt>, id: OrderId, line: nat)
    requires NoReceipts(receipts, id)
    ensures Received(receipts, id, line) == 0
  {
    if receipts != [] {
      var n := |receipts| - 1;
      forall r | 0 <= r < n ensures receipts[..n][r].order != id { assert receipts[r].order != id; }
      ReceivedNone(receipts[..n], id, line);
    }
  }

  lemma {:induction false} ReceivedNonNegative(receipts: seq<GoodsReceipt>, id: OrderId, line: nat)
    requires forall r, i :: 0 <= r < |receipts| && 0 <= i < |receipts[r].lines| ==> 0 < receipts[r].lines[i].quantity
    ensures 0 <= Received(receipts, id, line)
    ensures forall r, i :: (0 <= r < |receipts| && receipts[r].order == id && 0 <= i < |receipts[r].lines|
                            && receipts[r].lines[i].line == line) ==> 0 < Received(receipts, id, line)
  {
    if receipts != [] {
      var n := |receipts| - 1;
      var front := receipts[..n];
      ReceivedNonNegative(front, id, line);
      LineQuantityNonNegative(receipts[n].lines, line);
      forall r, i | 0 <= r < |receipts| && receipts[r].order == id && 0 <= i < |receipts[r].lines|
        && receipts[r].lines[i].line == line
        ensures 0 < Received(receipts, id, line)
      {
        if r < n { assert front[r] == receipts[r] && front[r].lines[i].line == line; }
      }
    }
  }

  /** The same deliveries of the same goods. */
  ghost predicate SameDeliveries(a: seq<GoodsReceipt>, b: seq<GoodsReceipt>) {
    |a| == |b| && forall r :: 0 <= r < |a| ==> a[r].order == b[r].order && SameGoods(a[r].lines, b[r].lines)
  }

  lemma {:induction false} ReceivedSame(a: seq<GoodsReceipt>, b: seq<GoodsReceipt>, id: OrderId, line: nat)
    requires SameDeliveries(a, b)
    ensures Received(a, id, line) == Received(b, id, line)
  {
    if a != [] {
      ReceivedSame(a[..|a| - 1], b[..|b| - 1], id, line);
      LineQuantitySame(a[|a| - 1].lines, b[|b| - 1].lines, line);
    }
  }

  lemma SameDeliveriesKeep(orders: seq<PurchaseOrder>, a: seq<GoodsReceipt>, b: seq<GoodsReceipt>, id: OrderId)
    requires id < |orders| && SameDeliveries(a, b) && StatusOk(orders[id], a, id)
    ensures StatusOk(orders[id], b, id)
  {
    forall line: nat ensures Received(a, id, line) == Received(b, id, line) { ReceivedSame(a, b, id, line); }
  }

  /** In a valid state an order has receipts just when some quantity is in. */
  lemma InExactly(s: State, id: OrderId)
    requires ReceiptsInv(s) && id < |s.orders|
    ensures AnyIn(s.orders[id].lines, s.receipts, id) <==> !NoReceipts(s.receipts, id)
    ensures NothingIn(s.orders[id].lines, s.receipts, id) <==> NoReceipts(s.receipts, id)
  {
    assert forall r :: 0 <= r < |s.receipts| ==> ReceiptOk(s.orders, s.ledger, s.receipts[r]);
    forall line: nat
      ensures NoReceipts(s.receipts, id) ==> Received(s.receipts, id, line) == 0
    {
      if NoReceipts(s.receipts, id) { ReceivedNone(s.receipts, id, line); }
    }
    if !NoReceipts(s.receipts, id) {
      var r :| 0 <= r < |s.receipts| && s.receipts[r].order == id;
      var l := s.receipts[r].lines[0];
      assert LineShape(s.orders[id].lines, l);
      ReceivedNonNegative(s.receipts, id, l.line);
    }
  }

  // --- Costing ---------------------------------------------------------------------------

  /** Shares depend on the goods, the basis, the rate and the total of the charges only. */
  lemma SharesSame(orderLines: seq<OrderLine>, a: GoodsReceipt, b: GoodsReceipt)
    requires a.rate == b.rate && a.basis == b.basis && SameGoods(a.lines, b.lines)
    requires TotalComponents(a.components) == TotalComponents(b.components)
    ensures ChargeShares(orderLines, a) == ChargeShares(orderLines, b)
  {
    assert BasisLines(orderLines, a.rate, a.lines) == BasisLines(orderLines, b.rate, b.lines);
  }

  /** The line a posting leaves: costed, and linked when it names a product. */
  ghost predicate PostedLine(orderLines: seq<OrderLine>, rate: real, given: ReceiptLine, share: int, out: ReceiptLine) {
    out == CostedLine(orderLines, rate, given, share).(movement := out.movement)
  }

  /** A costed line added to what has been posted. */
  ghost function WithLine(orderLines: seq<OrderLine>, q: Posted, l: ReceiptLine): Posted {
    match LineAt(orderLines, l.line).product
    case None => Posted(q.lines + [l], q.ledger)
    case Some(product) =>
      Posted(q.lines + [l.(movement := Some(|q.ledger|))], q.ledger + [ArrivalMovement(product, l)])
  }

  ghost predicate InCatalogue(products: set<ProductId>, orderLines: seq<OrderLine>, l: ReceiptLine) {
    LineAt(orderLines, l.line).product.Some? ==> LineAt(orderLines, l.line).product.value in products
  }

  /** The last line posts exactly when its product is known. */
  lemma PostLast(products: set<ProductId>, ledger: seq<Movement>, orderLines: seq<OrderLine>, rate: real,
                 lines: seq<ReceiptLine>, shares: seq<int>, q: Posted)
    requires |lines| == |shares| > 0 && 0 < lines[|lines| - 1].quantity && Sound(q.ledger)
    requires var n := |lines| - 1; Post(products, ledger, orderLines, rate, lines[..n], shares[..n]) == Some(q)
    ensures var l := CostedLine(orderLines, rate, lines[|lines| - 1], shares[|lines| - 1]);
      Post(products, ledger, orderLines, rate, lines, shares) ==
        if InCatalogue(products, orderLines, lines[|lines| - 1]) then Some(WithLine(orderLines, q, l)) else None
  {
    var product := LineAt(orderLines, lines[|lines| - 1].line).product;
    if product.Some? { SoundNow(q.ledger, product.value); }
  }

  /** What a posting leaves: every line costed, linked to a row of its own after those there before. */
  ghost predicate PostedAll(ledger: seq<Movement>, orderLines: seq<OrderLine>, rate: real, lines: seq<ReceiptLine>,
                            shares: seq<int>, p: Posted)
  {
    |p.lines| == |lines| == |shares| && ledger <= p.ledger && Sound(p.ledger)
    && (forall i :: 0 <= i < |lines| ==> PostedLine(orderLines, rate, lines[i], shares[i], p.lines[i]))
    && LinesLinked(orderLines, p.ledger, p.lines)
    && Apart(p.lines, p.lines, true)
    && (forall i :: 0 <= i < |p.lines| && p.lines[i].movement.Some? ==> |ledger| <= p.lines[i].movement.value < |p.ledger|)
  }

  lemma PostOne(ledger: seq<Movement>, orderLines: seq<OrderLine>, rate: real, lines: seq<ReceiptLine>,
                shares: seq<int>, q: Posted, given: ReceiptLine, share: int)
    requires PostedAll(ledger, orderLines, rate, lines, shares, q) && 0 < given.quantity && given.movement == None
    ensures PostedAll(ledger, orderLines, rate, lines + [given], shares + [share],
                      WithLine(orderLines, q, CostedLine(orderLines, rate, given, share)))
  {
    var l := CostedLine(orderLines, rate, given, share);
    var p := WithLine(orderLines, q, l);
    var product := LineAt(orderLines, l.line).product;
    if product.Some? {
      SoundNow(q.ledger, product.value);
      RecordKeepsSound(q.ledger, ArrivalMovement(product.value, l));
    }
    forall i | 0 <= i < |p.lines| ensures Linked(orderLines, p.ledger, p.lines[i]) {
      if i < |q.lines| { assert Linked(orderLines, q.ledger, q.lines[i]); }
    }
  }

  /** What posting leaves behind when it succeeds, and exactly when it does. */
  lemma {:induction false} PostExactly(products: set<ProductId>, ledger: seq<Movement>, orderLines: seq<OrderLine>,
                                       rate: real, lines: seq<ReceiptLine>, shares: seq<int>)
    requires |lines| == |shares| && Sound(ledger)
    requires forall i :: 0 <= i < |lines| ==> 0 < lines[i].quantity && lines[i].movement == None
    ensures var out := Post(products, ledger, orderLines, rate, lines, shares);
      (out.Some? <==> forall i :: 0 <= i < |lines| ==> InCatalogue(products, orderLines, lines[i]))
      && (out.Some? ==> PostedAll(ledger, orderLines, rate, lines, shares, out.value))
  {
    if lines != [] {
      var n := |lines| - 1;
      PostExactly(products, ledger, orderLines, rate, lines[..n], shares[..n]);
      var front := Post(products, ledger, orderLines, rate, lines[..n], shares[..n]);
      assert forall i :: 0 <= i < n ==> lines[..n][i] == lines[i];
      if front.Some? {
        PostOneMore(products, ledger, orderLines, rate, lines, shares, front.value);
      } else {
        var i :| 0 <= i < n && !InCatalogue(products, orderLines, lines[..n][i]);
        assert !InCatalogue(products, orderLines, lines[i]);
      }
    }
  }

  lemma PostOneMore(products: set<ProductId>, ledger: seq<Movement>, orderLines: seq<OrderLine>,
                    rate: real, lines: seq<ReceiptLine>, shares: seq<int>, q: Posted)
    requires |lines| == |shares| > 0 && 0 < lines[|lines| - 1].quantity && lines[|lines| - 1].movement == None
    requires var n := |lines| - 1;
      Post(products, ledger, orderLines, rate, lines[..n], shares[..n]) == Some(q)
      && PostedAll(ledger, orderLines, rate, lines[..n], shares[..n], q)
    ensures var out := Post(products, ledger, orderLines, rate, lines, shares);
      (out.Some? <==> InCatalogue(products, orderLines, lines[|lines| - 1]))
      && (out.Some? ==> PostedAll(ledger, orderLines, rate, lines, shares, out.value))
  {
    var n := |lines| - 1;
    PostLast(products, ledger, orderLines, rate, lines, shares, q);
    PostOne(ledger, orderLines, rate, lines[..n], shares[..n], q, lines[n], shares[n]);
    assert lines[..n] + [lines[n]] == lines && shares[..n] + [shares[n]] == shares;
  }

  // --- Recosting ---------------------------------------------------------------------------

  /** Rows may differ in unit cost and in nothing else. */
  ghost predicate SameButCost(a: seq<Movement>, b: seq<Movement>) {
    |a| == |b| && forall k :: 0 <= k < |a| ==> b[k] == a[k].(unitCost := b[k].unitCost)
  }

  lemma {:induction false} SameOnHand(a: seq<Movement>, b: seq<Movement>, p: ProductId)
    requires SameButCost(a, b)
    ensures OnHand(a, p) == OnHand(b, p)
  {
    if a != [] { SameOnHand(a[..|a| - 1], b[..|b| - 1], p); }
  }

  lemma SameSound(a: seq<Movement>, b: seq<Movement>)
    requires SameButCost(a, b) && Sound(a)
    ensures Sound(b)
  {
    forall k, p | 0 <= k <= |b| ensures 0 <= OnHand(b[..k], p) { SameOnHand(a[..k], b[..k], p); }
  }

  /** Every linked row gets its line's cost; every other row stays as it was. */
  lemma {:induction false} RecostedExactly(ledger: seq<Movement>, lines: seq<ReceiptLine>)
    requires Apart(lines, lines, true)
    requires forall i :: 0 <= i < |lines| && lines[i].movement.Some? ==> lines[i].movement.value < |ledger|
    ensures SameButCost(ledger, Recosted(ledger, lines))
    ensures forall i :: 0 <= i < |lines| && lines[i].movement.Some? ==>
      Recosted(ledger, lines)[lines[i].movement.value] == ledger[lines[i].movement.value].(unitCost := lines[i].unitCost)
    ensures forall k :: 0 <= k < |ledger| && (forall i :: 0 <= i < |lines| ==> lines[i].movement != Some(k)) ==>
      Recosted(ledger, lines)[k] == ledger[k]
  {
    if lines != [] {
      var n := |lines| - 1;
      var front := lines[..n];
      assert forall i :: 0 <= i < n ==> front[i] == lines[i];
      RecostedExactly(ledger, front);
      forall i | 0 <= i < |lines| && lines[i].movement.Some?
        ensures Recosted(ledger, lines)[lines[i].movement.value]
             == ledger[lines[i].movement.value].(unitCost := lines[i].unitCost)
      {
        if i < n { assert front[i].movement == lines[i].movement; }
      }
    }
  }

  // --- Every event keeps the invariant --------------------------------------------------------

  lemma SetOrderKeeps(s: State, id: OrderId, o: PurchaseOrder)
    requires Inv(s) && id < |s.orders| && OrderOk(o) && StatusOk(o, s.receipts, id)
    requires NoReceipts(s.receipts, id) || o.lines == s.orders[id].lines
    ensures Inv(SetOrder(s, id, o))
  {
    var s' := SetOrder(s, id, o);
    forall r | 0 <= r < |s'.receipts| ensures ReceiptOk(s'.orders, s'.ledger, s'.receipts[r]) {
      assert ReceiptOk(s.orders, s.ledger, s.receipts[r]);
      assert s'.orders[s.receipts[r].order].lines == s.orders[s.receipts[r].order].lines;
    }
  }

  lemma NewOrderKeeps(s: State, d: OrderDraft)
    requires Inv(s)
    ensures Inv(DoCreate(s, d).0)
  {
    if DraftOk(d, 1.0) {
      var s' := DoCreate(s, d).0;
      forall r | 0 <= r < |s'.receipts| ensures ReceiptOk(s'.orders, s'.ledger, s'.receipts[r]) {
        assert ReceiptOk(s.orders, s.ledger, s.receipts[r]);
      }
      assert NoReceipts(s.receipts, |s.orders|) by {
        assert forall r :: 0 <= r < |s.receipts| ==> ReceiptOk(s.orders, s.ledger, s.receipts[r]);
      }
      assert LinesOk(LinesOf(d)) by {
        assert forall i :: 0 <= i < |d.lines| ==> LineDraftOk(d.lines[i]);
      }
    }
  }

  lemma UpdateKeeps(s: State, id: OrderId, d: OrderDraft)
    requires Inv(s)
    ensures Inv(DoUpdate(s, id, d).0)
  {
    if id < |s.orders| && DraftOk(d, s.orders[id].rate) && (s.orders[id].status == Draft || s.orders[id].status == Refused) {
      var o := s.orders[id];
      assert OrderOk(o) && StatusOk(o, s.receipts, id);
      assert LinesOk(LinesOf(d)) by {
        assert forall i :: 0 <= i < |d.lines| ==> LineDraftOk(d.lines[i]);
      }
      SetOrderKeeps(s, id, o.(status := Draft, rate := OrRate(d.rate, o.rate), lines := LinesOf(d)));
    }
  }

  lemma SettledKeeps(s: State, id: OrderId, gate: Approvals.FlightId, caller: Option<Approvals.UserId>, year: nat,
                     answer: Approvals.Outcome)
    requires Inv(s) && id < |s.orders| && Issuable(s.orders[id].status)
    ensures Inv(Settled(s, id, gate, caller, year, answer).0)
  {
    var o := s.orders[id];
    assert OrderOk(o) && StatusOk(o, s.receipts, id);
    match answer
    case Proceed => SetOrderKeeps(s, id, Admit(s, id, gate, caller, year).orders[id]);
    case BlockedBy(request) =>
      if request < |s.engine.requests| {
        SetOrderKeeps(s, id, o.(status := StatusHeld(o.status, s.engine.requests[request].status)));
      }
    case _ =>
  }

  lemma IssueKeeps(s: State, id: OrderId, gate: Approvals.FlightId, caller: Option<Approvals.UserId>, year: nat)
    requires Inv(s)
    ensures Inv(DoIssue(s, id, gate, caller, year).0)
  {
    if id < |s.orders| && Issuable(s.orders[id].status) && s.orders[id].lines != [] {
      var s' := AfterGate(s, id, gate, caller);
      SettledKeeps(s', id, gate, caller, year, Answer(s'.engine, gate));
    }
  }

  lemma CancelKeeps(s: State, id: OrderId)
    requires Inv(s)
    ensures Inv(DoCancel(s, id).0)
  {
    if id < |s.orders| && NothingIn(s.orders[id].lines, s.receipts, id) {
      InExactly(s, id);
      assert OrderOk(s.orders[id]);
      SetOrderKeeps(s, id, s.orders[id].(status := Cancelled));
    }
  }

  /** A receipt stays in order while its order keeps its lines and the ledger only grows. */
  lemma ReceiptKept(orders: seq<PurchaseOrder>, orders': seq<PurchaseOrder>, ledger: seq<Movement>,
                    ledger': seq<Movement>, r: GoodsReceipt)
    requires ReceiptOk(orders, ledger, r) && ledger <= ledger'
    requires r.order < |orders'| && orders'[r.order].lines == orders[r.order].lines
    ensures ReceiptOk(orders', ledger', r)
    ensures forall i :: 0 <= i < |r.lines| && r.lines[i].movement.Some? ==> r.lines[i].movement.value < |ledger|
  {
    assert forall i :: 0 <= i < |r.lines| ==> Linked(orders[r.order].lines, ledger, r.lines[i]);
  }

  /** The receipt a delivery adds is costed and linked. */
  lemma ArrivalOkay(o: PurchaseOrder, receipts: seq<GoodsReceipt>, id: OrderId, d: ReceiptDraft, p: Posted,
                    shares: seq<int>)
    requires ReceiptDraftOk(o, receipts, id, d) && ChargeShares(o.lines, Uncosted(o, id, d)) == Common.Ok(shares)
    requires |p.lines| == |d.arrivals| && LinesLinked(o.lines, p.ledger, p.lines)
    requires forall i :: 0 <= i < |p.lines| ==>
      PostedLine(o.lines, Uncosted(o, id, d).rate, LinesIn(d)[i], shares[i], p.lines[i])
    ensures forall orders: seq<PurchaseOrder> :: id < |orders| && orders[id].lines == o.lines ==>
      ReceiptOk(orders, p.ledger, Uncosted(o, id, d).(lines := p.lines))
  {
    var r := Uncosted(o, id, d);
    var r' := r.(lines := p.lines);
    forall i | 0 <= i < |p.lines| ensures LineShape(o.lines, p.lines[i]) {
      assert ArrivalOk(o, receipts, id, d.arrivals[i]);
      assert PostedLine(o.lines, r.rate, LinesIn(d)[i], shares[i], p.lines[i]);
    }
    SharesSame(o.lines, r', r);
  }

  /** The state after a delivery, given what posting it left. */
  ghost function Arrived(s: State, id: OrderId, r: GoodsReceipt, p: Posted): State
    requires id < |s.orders|
  {
    var receipts := s.receipts + [r.(lines := p.lines)];
    s.(orders := s.orders[id := s.orders[id].(status := StatusAfter(s.orders[id], receipts, id))],
       receipts := receipts, ledger := p.ledger)
  }

  /** What a delivery posts; None if it is refused. */
  ghost function PostedBy(s: State, id: OrderId, d: ReceiptDraft): Option<Posted>
    requires id < |s.orders|
  {
    var o, r := s.orders[id], Uncosted(s.orders[id], id, d);
    if (o.status != Issued && o.status != PartlyReceived) || !ReceiptDraftOk(o, s.receipts, id, d) then None
    else
      match ChargeShares(o.lines, r)
      case Err(_) => None
      case Ok(shares) => Post(s.products, s.ledger, o.lines, r.rate, r.lines, shares)
  }

  lemma ReceivePosts(s: State, id: OrderId, d: ReceiptDraft)
    requires id < |s.orders|
    ensures DoReceive(s, id, d).1 == Done <==> PostedBy(s, id, d).Some?
    ensures PostedBy(s, id, d).Some? ==>
      DoReceive(s, id, d).0 == Arrived(s, id, Uncosted(s.orders[id], id, d), PostedBy(s, id, d).value)
  {}

  lemma PostingKeepsReceipts(s: State, id: OrderId, d: ReceiptDraft)
    requires Inv(s) && id < |s.orders| && PostedBy(s, id, d).Some?
    ensures var s' := Arrived(s, id, Uncosted(s.orders[id], id, d), PostedBy(s, id, d).value);
      ReceiptsInv(s') && Sound(s'.ledger)
  {
    var o, r, p := s.orders[id], Uncosted(s.orders[id], id, d), PostedBy(s, id, d).value;
    var shares := ChargeShares(o.lines, r).value;
    forall i | 0 <= i < |r.lines| ensures 0 < r.lines[i].quantity && r.lines[i].movement == None {
      assert ArrivalOk(o, s.receipts, id, d.arrivals[i]);
    }
    PostExactly(s.products, s.ledger, o.lines, r.rate, r.lines, shares);
    ArrivalOkay(o, s.receipts, id, d, p, shares);
    AppendedKeeps(s, Arrived(s, id, r, p), r.(lines := p.lines));
  }

  lemma ArrivalKeepsReceipts(s: State, id: OrderId, d: ReceiptDraft)
    requires Inv(s) && DoReceive(s, id, d).1 == Done
    ensures ReceiptsInv(DoReceive(s, id, d).0) && Sound(DoReceive(s, id, d).0.ledger)
  {
    ReceivePosts(s, id, d);
    PostingKeepsReceipts(s, id, d);
  }

  lemma AppendedKeeps(s: State, s': State, r: GoodsReceipt)
    requires ReceiptsInv(s) && s'.receipts == s.receipts + [r] && s.ledger <= s'.ledger
    requires |s'.orders| == |s.orders| && forall k :: 0 <= k < |s.orders| ==> s'.orders[k].lines == s.orders[k].lines
    requires ReceiptOk(s'.orders, s'.ledger, r) && Apart(r.lines, r.lines, true)
    requires forall i :: 0 <= i < |r.lines| && r.lines[i].movement.Some? ==> |s.ledger| <= r.lines[i].movement.value
    ensures ReceiptsInv(s')
  {
    forall k | 0 <= k < |s.receipts|
      ensures ReceiptOk(s'.orders, s'.ledger, s'.receipts[k])
      ensures Apart(s.receipts[k].lines, r.lines, false) && Apart(r.lines, s.receipts[k].lines, false)
    {
      ReceiptKept(s.orders, s'.orders, s.ledger, s'.ledger, s.receipts[k]);
    }
  }

  lemma OtherOrderKept(s: State, r: GoodsReceipt, k: OrderId)
    requires k < |s.orders| && StatusOk(s.orders[k], s.receipts, k) && r.order != k
    ensures StatusOk(s.orders[k], s.receipts + [r], k)
  {
    forall line: nat ensures Received(s.receipts + [r], k, line) == Received(s.receipts, k, line) {
      ReceivedSnoc(s.receipts, r, k, line);
    }
  }

  lemma PostingKeepsOrders(s: State, id: OrderId, r: GoodsReceipt, p: Posted)
    requires OrdersInv(s) && id < |s.orders| && r.order == id && OutForDelivery(s.orders[id].status)
    requires ReceiptsInv(Arrived(s, id, r, p))
    ensures OrdersInv(Arrived(s, id, r, p))
  {
    var s' := Arrived(s, id, r, p);
    forall k | 0 <= k < |s'.orders| ensures OrderOk(s'.orders[k]) && StatusOk(s'.orders[k], s'.receipts, k) {
      assert OrderOk(s.orders[k]) && StatusOk(s.orders[k], s.receipts, k);
      if k == id {
        assert s'.receipts[|s.receipts|].order == id;
        InExactly(s', id);
      } else {
        OtherOrderKept(s, r.(lines := p.lines), k);
      }
    }
  }

  lemma ArrivalKeepsOrders(s: State, id: OrderId, d: ReceiptDraft)
    requires Inv(s) && DoReceive(s, id, d).1 == Done && ReceiptsInv(DoReceive(s, id, d).0)
    ensures OrdersInv(DoReceive(s, id, d).0)
  {
    ReceivePosts(s, id, d);
    PostingKeepsOrders(s, id, Uncosted(s.orders[id], id, d), PostedBy(s, id, d).value);
  }

  lemma ReceiveKeeps(s: State, id: OrderId, d: ReceiptDraft)
    requires Inv(s)
    ensures Inv(DoReceive(s, id, d).0)
  {
    if DoReceive(s, id, d).1 == Done {
      ArrivalKeepsReceipts(s, id, d);
      ArrivalKeepsOrders(s, id, d);
    }
  }

  lemma ChargeSameDeliveries(s: State, id: ReceiptId, c: Component)
    ensures SameDeliveries(s.receipts, DoCharge(s, id, c).0.receipts) && DoCharge(s, id, c).0.orders == s.orders
  {}

  lemma ChargeKeepsOrders(s: State, id: ReceiptId, c: Component)
    requires OrdersInv(s)
    ensures OrdersInv(DoCharge(s, id, c).0)
  {
    ChargeSameDeliveries(s, id, c);
    forall k | 0 <= k < |s.orders| ensures OrderOk(s.orders[k]) && StatusOk(s.orders[k], DoCharge(s, id, c).0.receipts, k) {
      SameDeliveriesKeep(s.orders, s.receipts, DoCharge(s, id, c).0.receipts, k);
    }
  }

  lemma ChargeKeeps(s: State, id: ReceiptId, c: Component)
    requires Inv(s)
    ensures Inv(DoCharge(s, id, c).0)
    ensures SameButCost(s.ledger, DoCharge(s, id, c).0.ledger)
  {
    if DoCharge(s, id, c).1 == Done {
      ChargeKeepsReceipts(s, id, c);
      ChargeKeepsOrders(s, id, c);
      SameSound(s.ledger, DoCharge(s, id, c).0.ledger);
    }
  }

  /** Lines costed afresh are current. */
  lemma RechargedCosts(orderLines: seq<OrderLine>, r: GoodsReceipt, shares: seq<int>)
    requires ChargeShares(orderLines, r) == Common.Ok(shares)
    ensures CostsCurrent(orderLines, r.(lines := CostedLines(orderLines, r.rate, r.lines, shares)))
  {
    var lines := CostedLines(orderLines, r.rate, r.lines, shares);
    SharesSame(orderLines, r.(lines := lines), r);
    forall i | 0 <= i < |lines| ensures lines[i] == CostedLine(orderLines, r.rate, lines[i], shares[i]) {
      assert lines[i] == CostedLine(orderLines, r.rate, r.lines[i], shares[i]);
    }
  }

  /** Same goods, same links. */
  ghost predicate SameLinks(a: seq<ReceiptLine>, b: seq<ReceiptLine>) {
    SameGoods(a, b) && forall i :: 0 <= i < |a| ==> a[i].movement == b[i].movement
  }

  /** The ledger rows follow the lines they are linked to, and no other row moves. */
  lemma Relinked(orderLines: seq<OrderLine>, ledger: seq<Movement>, was: seq<ReceiptLine>, lines: seq<ReceiptLine>)
    requires LinesLinked(orderLines, ledger, was) && Apart(was, was, true) && SameLinks(was, lines)
    ensures LinesLinked(orderLines, Recosted(ledger, lines), lines)
    ensures SameButCost(ledger, Recosted(ledger, lines))
    ensures forall j :: 0 <= j < |ledger| && (forall i :: 0 <= i < |lines| ==> lines[i].movement != Some(j)) ==>
      Recosted(ledger, lines)[j] == ledger[j]
  {
    forall i | 0 <= i < |lines|
      ensures lines[i].movement.Some? ==> lines[i].movement.value < |ledger|
    {
      assert Linked(orderLines, ledger, was[i]);
    }
    assert Apart(lines, lines, true);
    RecostedExactly(ledger, lines);
    forall i | 0 <= i < |lines| ensures Linked(orderLines, Recosted(ledger, lines), lines[i]) {
      assert Linked(orderLines, ledger, was[i]);
    }
  }

  /** A late charge, spelt out. */
  lemma ChargeExactly(s: State, id: ReceiptId, c: Component)
    requires Inv(s) && DoCharge(s, id, c).1 == Done
    ensures var r := s.receipts[id];
      var ol := s.orders[r.order].lines;
      var r1 := r.(components := r.components + [Stored(c)]);
      ChargeShares(ol, r1).Ok?
      && var lines := CostedLines(ol, r.rate, r.lines, ChargeShares(ol, r1).value);
      DoCharge(s, id, c).0 == s.(receipts := s.receipts[id := r1.(lines := lines)], ledger := Recosted(s.ledger, lines))
  {
    assert ReceiptOk(s.orders, s.ledger, s.receipts[id]);
  }

  lemma ChargeKeepsReceipts(s: State, id: ReceiptId, c: Component)
    requires Inv(s) && DoCharge(s, id, c).1 == Done
    ensures ReceiptsInv(DoCharge(s, id, c).0)
    ensures SameButCost(s.ledger, DoCharge(s, id, c).0.ledger)
  {
    ChargeExactly(s, id, c);
    var r := s.receipts[id];
    assert ReceiptOk(s.orders, s.ledger, r) && Apart(r.lines, r.lines, true);
    var ol := s.orders[r.order].lines;
    var r1 := r.(components := r.components + [Stored(c)]);
    RechargedCosts(ol, r1, ChargeShares(ol, r1).value);
    var lines := CostedLines(ol, r.rate, r.lines, ChargeShares(ol, r1).value);
    Relinked(ol, s.ledger, r.lines, lines);
    ReplacedKeeps(s, id, r1.(lines := lines));
  }

  lemma ReplacedOk(orders: seq<PurchaseOrder>, ledger: seq<Movement>, was: GoodsReceipt, r: GoodsReceipt)
    requires ReceiptShape(orders, was) && r.order == was.order && r.rate == was.rate && r.basis == was.basis
    requires SameLinks(was.lines, r.lines) && CostsCurrent(orders[r.order].lines, r)
    requires LinesLinked(orders[r.order].lines, ledger, r.lines)
    ensures ReceiptOk(orders, ledger, r)
  {
    forall i | 0 <= i < |r.lines| ensures LineShape(orders[r.order].lines, r.lines[i]) {
      assert LineShape(orders[r.order].lines, was.lines[i]);
    }
  }

  /** Replacing a receipt by a recosted one keeps the others as they were. */
  lemma ReplacedKeeps(s: State, id: ReceiptId, r: GoodsReceipt)
    requires ReceiptsInv(s) && id < |s.receipts| && r.order == s.receipts[id].order && r.rate == s.receipts[id].rate
    requires r.basis == s.receipts[id].basis && SameLinks(s.receipts[id].lines, r.lines)
    requires CostsCurrent(s.orders[r.order].lines, r)
    requires LinesLinked(s.orders[r.order].lines, Recosted(s.ledger, r.lines), r.lines)
    requires forall j :: 0 <= j < |s.ledger| && (forall i :: 0 <= i < |r.lines| ==> r.lines[i].movement != Some(j)) ==>
      Recosted(s.ledger, r.lines)[j] == s.ledger[j]
    ensures ReceiptsInv(s.(receipts := s.receipts[id := r], ledger := Recosted(s.ledger, r.lines)))
  {
    var s' := s.(receipts := s.receipts[id := r], ledger := Recosted(s.ledger, r.lines));
    forall a, b | 0 <= a < |s'.receipts| && 0 <= b < |s'.receipts|
      ensures Apart(s'.receipts[a].lines, s'.receipts[b].lines, a == b)
    {
      assert Apart(s.receipts[a].lines, s.receipts[b].lines, a == b);
    }
    forall k | 0 <= k < |s.receipts| ensures ReceiptOk(s'.orders, s'.ledger, s'.receipts[k]) {
      assert ReceiptOk(s.orders, s.ledger, s.receipts[k]);
      if k == id {
        ReplacedOk(s.orders, s'.ledger, s.receipts[id], r);
      } else {
        assert Apart(s'.receipts[id].lines, s'.receipts[k].lines, false);
        OtherRowsKept(s.orders, s.ledger, s'.ledger, s.receipts[k], r.lines);
      }
    }
  }

  /** Receipt k does not feel the recosting of another's lines. */
  lemma OtherRowsKept(orders: seq<PurchaseOrder>, ledger: seq<Movement>, ledger': seq<Movement>,
                      r: GoodsReceipt, lines: seq<ReceiptLine>)
    requires ReceiptOk(orders, ledger, r) && Apart(lines, r.lines, false) && |ledger'| == |ledger|
    requires forall j :: 0 <= j < |ledger| && (forall i :: 0 <= i < |lines| ==> lines[i].movement != Some(j)) ==>
      ledger'[j] == ledger[j]
    ensures ReceiptOk(orders, ledger', r)
  {
    forall i | 0 <= i < |r.lines| ensures Linked(orders[r.order].lines, ledger', r.lines[i]) {
      assert Linked(orders[r.order].lines, ledger, r.lines[i]);
    }
  }

  lemma MoveKeeps(s: State, m: Movement)
    requires Inv(s)
    ensures Inv(Apply(s, MoveStock(m)))
  {
    RecordKeepsSound(s.ledger, m);
    var s' := Apply(s, MoveStock(m));
    forall r | 0 <= r < |s'.receipts| ensures ReceiptOk(s'.orders, s'.ledger, s'.receipts[r]) {
      ReceiptKept(s.orders, s'.orders, s.ledger, s'.ledger, s.receipts[r]);
    }
  }

  lemma ApplyKeepsInv(s: State, e: Event)
    requires Inv(s)
    ensures Inv(Apply(s, e))
  {
    match e
    case Create(d) => NewOrderKeeps(s, d);
    case Update(id, d) => UpdateKeeps(s, id, d);
    case IssueOrder(id, gate, caller, year) => IssueKeeps(s, id, gate, caller, year);
    case Cancel(id) => CancelKeeps(s, id);
    case ReceiveGoods(id, d) => ReceiveKeeps(s, id, d);
    case AddCharge(id, c) => ChargeKeeps(s, id, c);
    case Engine(e) =>
    case MoveStock(m) => MoveKeeps(s, m);
    case EditProducts(products) =>
  }

  lemma {:induction false} RunKeepsInv(s: State, es: seq<Event>)
    requires Inv(s)
    ensures Inv(Run(s, es))
  {
    if es != [] {
      RunKeepsInv(s, es[..|es| - 1]);
      ApplyKeepsInv(Run(s, es[..|es| - 1]), es[|es| - 1]);
    }
  }

  lemma ReachableInv(es: seq<Event>)
    ensures Inv(Run(Start, es))
  {
    RunKeepsInv(Start, es);
  }
}
