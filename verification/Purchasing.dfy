/**
 The buy side (internal/handlers/purchasing.go, internal/models/purchase_models.go,
 internal/models/landed_cost_models.go): orders, goods receipts, landed cost and late charges.
 Each handler is one step, and PurchaseOverlap takes them apart; the approval engine moves on
 between them statement by statement.
 */
module Purchasing {
  import opened Common
  import opened Stock
  import opened LandedCost
  import Apportionment
  import Approvals
  import ApprovalHandlers

  type OrderId = nat
  type ReceiptId = nat

  /** A line without a product is costed but never reaches the stock ledger. */
  datatype OrderLine = OrderLine(product: Option<ProductId>, quantity: int, unitPrice: real)

  datatype OrderStatus =
    | Draft | PendingApproval | ApprovedUnissued | Refused | Issued
    | PartlyReceived | FullyReceived | Closed | Cancelled

  /** The supplier-facing reference PO-<year>-<serial>. */
  datatype Number = Number(year: nat, serial: nat)

  /** When issued_at was set: the gate call that admitted the order, and who made it. */
  datatype Issue = Issue(gate: Approvals.FlightId, caller: Option<Approvals.UserId>)

  datatype PurchaseOrder = PurchaseOrder(status: OrderStatus, rate: real, lines: seq<OrderLine>,
                                         issued: Option<Issue>, number: Option<Number>)

  datatype Component = Component(kind: string, amount: real, rate: real)

  datatype ReceiptLine = ReceiptLine(line: nat, quantity: int, weight: real, apportioned: real,
                                     unitCost: real, movement: Option<nat>)

  datatype GoodsReceipt = GoodsReceipt(order: OrderId, rate: real, basis: string,
                                       lines: seq<ReceiptLine>, components: seq<Component>)

  datatype State = State(engine: Approvals.Sys, orders: seq<PurchaseOrder>, receipts: seq<GoodsReceipt>,
                         ledger: seq<Movement>, products: set<ProductId>)

  // --- Money -----------------------------------------------------------------------

  function LineTotals(lines: seq<OrderLine>): seq<real> {
    seq(|lines|, i requires 0 <= i < |lines| => lines[i].quantity as real * lines[i].unitPrice)
  }

  function SubtotalZMW(o: PurchaseOrder): real { SumR(LineTotals(o.lines)) * o.rate }

  function AmountZMW(c: Component): real { c.amount * c.rate }

  function AmountsZMW(cs: seq<Component>): seq<real> {
    seq(|cs|, i requires 0 <= i < |cs| => AmountZMW(cs[i]))
  }

  function TotalComponents(cs: seq<Component>): real { SumR(AmountsZMW(cs)) }

  /** The zero line is what looking up an unknown line id yields. */
  function LineAt(lines: seq<OrderLine>, i: nat): OrderLine {
    if i < |lines| then lines[i] else OrderLine(None, 0, 0.0)
  }

  /** Goods at the receipt's rate. */
  function GoodsValue(ol: OrderLine, quantity: int, rate: real): real {
    quantity as real * ol.unitPrice * rate
  }

  /** Conversion of a float to an integer, towards zero. */
  function Trunc(x: real): int {
    if x >= 0.0 then x.Floor else -((-x).Floor)
  }

  function BasisLine(orderLines: seq<OrderLine>, rate: real, l: ReceiptLine): LineBasisWeight {
    LineBasisWeight(Trunc(GoodsValue(LineAt(orderLines, l.line), l.quantity, rate) * 100.0 + 0.5),
                    l.quantity, Trunc(l.weight * 1000.0 + 0.5))
  }

  function BasisLines(orderLines: seq<OrderLine>, rate: real, lines: seq<ReceiptLine>): (b: seq<LineBasisWeight>)
    ensures |b| == |lines|
  {
    seq(|lines|, i requires 0 <= i < |lines| => BasisLine(orderLines, rate, lines[i]))
  }

  /** Each line's share of the receipt's charges, in ngwee. */
  function ChargeShares(orderLines: seq<OrderLine>, r: GoodsReceipt)
    : (shares: Result<seq<int>, Apportionment.ApportionError>)
    ensures shares.Ok? ==> |shares.value| == |r.lines|
  {
    var lines := BasisLines(orderLines, r.rate, r.lines);
    var shares := ReceiptShares(r.basis, TotalComponents(r.components), lines);
    assert shares.Ok? ==> |shares.value| == |lines| by {
      if shares.Ok? { ReceiptSharesExact(r.basis, TotalComponents(r.components), lines); }
    }
    shares
  }

  /** The landed cost of one unit; no receipt line has quantity zero. */
  function UnitCost(goods: real, share: int, quantity: int): real {
    if quantity == 0 then 0.0 else (goods + FromNgwee(share)) / quantity as real
  }

  function CostedLine(orderLines: seq<OrderLine>, rate: real, l: ReceiptLine, share: int): ReceiptLine {
    l.(apportioned := FromNgwee(share),
       unitCost := UnitCost(GoodsValue(LineAt(orderLines, l.line), l.quantity, rate), share, l.quantity))
  }

  // --- Quantities --------------------------------------------------------------------

  function LineQuantity(lines: seq<ReceiptLine>, line: nat): int {
    if lines == [] then 0
    else
      var l := lines[|lines| - 1];
      LineQuantity(lines[..|lines| - 1], line) + (if l.line == line then l.quantity else 0)
  }

  /** receivedByLine: what the receipts of an order add up to on one of its lines. */
  function Received(receipts: seq<GoodsReceipt>, id: OrderId, line: nat): int {
    if receipts == [] then 0
    else
      var r := receipts[|receipts| - 1];
      Received(receipts[..|receipts| - 1], id, line) + (if r.order == id then LineQuantity(r.lines, line) else 0)
  }

  predicate AllIn(lines: seq<OrderLine>, receipts: seq<GoodsReceipt>, id: OrderId) {
    forall i :: 0 <= i < |lines| ==> lines[i].quantity <= Received(receipts, id, i)
  }

  predicate AnyIn(lines: seq<OrderLine>, receipts: seq<GoodsReceipt>, id: OrderId) {
    exists i :: 0 <= i < |lines| && 0 < Received(receipts, id, i)
  }

  /** refreshPurchaseOrderStatus. */
  function StatusAfter(o: PurchaseOrder, receipts: seq<GoodsReceipt>, id: OrderId): OrderStatus {
    if AllIn(o.lines, receipts, id) && o.lines != [] then FullyReceived
    else if AnyIn(o.lines, receipts, id) then PartlyReceived
    else o.status
  }

  // --- Orders ------------------------------------------------------------------------

  datatype Reply = Done | NotFound | Conflict | Invalid | Failed | Held(request: Approvals.Id)

  datatype LineDraft = LineDraft(product: Option<ProductId>, description: string, quantity: int, unitPrice: real)

  datatype OrderDraft = OrderDraft(supplier: string, currency: string, rate: real, lines: seq<LineDraft>)

  predicate Space(c: char) { c == ' ' || c == '\t' || c == '\n' || c == '\r' }

  /** Nothing is left once white space is trimmed. */
  predicate Blank(s: string) { forall i :: 0 <= i < |s| ==> Space(s[i]) }

  predicate LineDraftOk(l: LineDraft) {
    !Blank(l.description) && 0 < l.quantity && 0.0 <= l.unitPrice
  }

  /** A rate of zero stands for the default; so does an empty currency, which is never blank. */
  predicate DraftOk(d: OrderDraft, defaultRate: real) {
    !Blank(d.supplier) && d.lines != [] && (d.currency == "" || !Blank(d.currency))
    && 0.0 < OrRate(d.rate, defaultRate)
    && forall i :: 0 <= i < |d.lines| ==> LineDraftOk(d.lines[i])
  }

  function OrRate(rate: real, default: real): real { if rate == 0.0 then default else rate }

  function LinesOf(d: OrderDraft): seq<OrderLine> {
    seq(|d.lines|, i requires 0 <= i < |d.lines| =>
      OrderLine(d.lines[i].product, d.lines[i].quantity, d.lines[i].unitPrice))
  }

  function DoCreate(s: State, d: OrderDraft): (State, Reply) {
    if !DraftOk(d, 1.0) then (s, Invalid)
    else (s.(orders := s.orders + [PurchaseOrder(Draft, OrRate(d.rate, 1.0), LinesOf(d), None, None)]), Done)
  }

  function SetOrder(s: State, id: OrderId, o: PurchaseOrder): State
    requires id < |s.orders|
  {
    s.(orders := s.orders[id := o])
  }

  function DoUpdate(s: State, id: OrderId, d: OrderDraft): (State, Reply) {
    if id >= |s.orders| then (s, NotFound)
    else
      var o := s.orders[id];
      if o.status != Draft && o.status != Refused then (s, Conflict)
      else if !DraftOk(d, o.rate) then (s, Invalid)
      else (SetOrder(s, id, o.(status := Draft, rate := OrRate(d.rate, o.rate), lines := LinesOf(d))), Done)
  }

  const IssueAction := "purchase_order.issue"

  /** SELECT count(*) of the orders numbered in a year. */
  function CountYear(orders: seq<PurchaseOrder>, year: nat): nat {
    if orders == [] then 0
    else
      var o := orders[|orders| - 1];
      CountYear(orders[..|orders| - 1], year)
      + (if o.number.Some? && o.number.value.year == year then 1 else 0)
  }

  function NextNumber(orders: seq<PurchaseOrder>, year: nat): Number {
    Number(year, CountYear(orders, year) + 1)
  }

  predicate Issuable(st: OrderStatus) { st == Draft || st == PendingApproval || st == ApprovedUnissued }

  /** What a refusal by the gate leaves on the order. */
  function StatusHeld(st: OrderStatus, request: Approvals.Status): OrderStatus {
    if request == Approvals.Rejected then Refused
    else if st == Draft && request == Approvals.Pending then PendingApproval
    else st
  }

  function Admit(s: State, id: OrderId, gate: Approvals.FlightId, caller: Option<Approvals.UserId>, year: nat): State
    requires id < |s.orders|
  {
    var o := s.orders[id];
    var number := if o.number.Some? then o.number else Some(NextNumber(s.orders, year));
    SetOrder(s, id, o.(status := Issued, issued := Some(Issue(gate, caller)), number := number))
  }

  function GateCall(o: PurchaseOrder, id: OrderId, caller: Option<Approvals.UserId>): Approvals.Call {
    Approvals.CallGate(IssueAction, id, caller, SubtotalZMW(o))
  }

  /** The answer the gate call left, once it has run. */
  ghost function Answer(engine: Approvals.Sys, gate: Approvals.FlightId): Approvals.Outcome {
    if gate in engine.results then engine.results[gate] else Approvals.Refused
  }

  /** What the gate's answer does to the order. */
  function Settled(s: State, id: OrderId, gate: Approvals.FlightId, caller: Option<Approvals.UserId>, year: nat,
                   answer: Approvals.Outcome): (State, Reply)
    requires id < |s.orders|
  {
    var o := s.orders[id];
    match answer
    case Proceed => (Admit(s, id, gate, caller, year), Done)
    case BlockedBy(request) =>
      if request < |s.engine.requests|
      then (SetOrder(s, id, o.(status := StatusHeld(o.status, s.engine.requests[request].status))), Held(request))
      else (s, Failed)
    case _ => (s, Failed)
  }

  /** The engine once the gate of order id has run. */
  ghost function AfterGate(s: State, id: OrderId, gate: Approvals.FlightId, caller: Option<Approvals.UserId>): State
    requires id < |s.orders|
  {
    s.(engine := ApprovalHandlers.Serve(s.engine, gate, GateCall(s.orders[id], id, caller)))
  }

  ghost function DoIssue(s: State, id: OrderId, gate: Approvals.FlightId, caller: Option<Approvals.UserId>,
                         year: nat): (State, Reply)
  {
    if id >= |s.orders| then (s, NotFound)
    else if !Issuable(s.orders[id].status) then (s, Conflict)
    else if s.orders[id].lines == [] then (s, Invalid)
    else
      var s' := AfterGate(s, id, gate, caller);
      Settled(s', id, gate, caller, year, Answer(s'.engine, gate))
  }

  predicate NothingIn(lines: seq<OrderLine>, receipts: seq<GoodsReceipt>, id: OrderId) {
    forall i :: 0 <= i < |lines| ==> Received(receipts, id, i) <= 0
  }

  function DoCancel(s: State, id: OrderId): (State, Reply) {
    if id >= |s.orders| then (s, NotFound)
    else if !NothingIn(s.orders[id].lines, s.receipts, id) then (s, Conflict)
    else (SetOrder(s, id, s.orders[id].(status := Cancelled)), Done)
  }

  // --- Receipts ------------------------------------------------------------------------

  datatype Arrival = Arrival(line: nat, quantity: int, weight: real)

  datatype ReceiptDraft = ReceiptDraft(rate: real, basis: string, arrivals: seq<Arrival>, charges: seq<Component>)

  const Kinds: set<string> := {"freight", "insurance", "duty", "clearing", "handling", "other"}

  predicate ChargeOk(c: Component) { c.kind in Kinds && 0.0 <= c.amount }

  /** A charge as stored: a rate of zero stands for one. */
  function Stored(c: Component): Component { c.(rate := OrRate(c.rate, 1.0)) }

  function StoredAll(cs: seq<Component>): seq<Component> {
    seq(|cs|, i requires 0 <= i < |cs| => Stored(cs[i]))
  }

  /** On the order, positive, and no more than is outstanding before this receipt. */
  predicate ArrivalOk(o: PurchaseOrder, receipts: seq<GoodsReceipt>, id: OrderId, a: Arrival) {
    a.line < |o.lines| && 0 < a.quantity <= o.lines[a.line].quantity - Received(receipts, id, a.line)
  }

  function OrBasis(basis: string): string { if basis == "" then BasisValue else basis }

  predicate ReceiptDraftOk(o: PurchaseOrder, receipts: seq<GoodsReceipt>, id: OrderId, d: ReceiptDraft) {
    d.arrivals != [] && 0.0 < OrRate(d.rate, o.rate) && KnownBasis(OrBasis(d.basis))
    && (forall i :: 0 <= i < |d.charges| ==> ChargeOk(d.charges[i]))
    && (forall i :: 0 <= i < |d.arrivals| ==> ArrivalOk(o, receipts, id, d.arrivals[i]))
  }

  function LinesIn(d: ReceiptDraft): (lines: seq<ReceiptLine>)
    ensures |lines| == |d.arrivals|
  {
    seq(|d.arrivals|, i requires 0 <= i < |d.arrivals| =>
      ReceiptLine(d.arrivals[i].line, d.arrivals[i].quantity, d.arrivals[i].weight, 0.0, 0.0, None))
  }

  function Uncosted(o: PurchaseOrder, id: OrderId, d: ReceiptDraft): GoodsReceipt {
    GoodsReceipt(id, OrRate(d.rate, o.rate), OrBasis(d.basis), LinesIn(d), StoredAll(d.charges))
  }

  function ArrivalMovement(p: ProductId, l: ReceiptLine): Movement {
    Movement(p, Receipt, l.quantity, l.unitCost, None, "")
  }

  /** services.RecordMovement; None is a refusal. */
  function Record(products: set<ProductId>, ledger: seq<Movement>, m: Movement): Option<seq<Movement>> {
    if m.product !in products || OnHand(ledger, m.product) + m.quantity < 0 then None
    else Some(ledger + [m])
  }

  datatype Posted = Posted(lines: seq<ReceiptLine>, ledger: seq<Movement>)

  /** The loop of apportionAndPost: cost a line, write its movement, link the two. */
  function Post(products: set<ProductId>, ledger: seq<Movement>, orderLines: seq<OrderLine>, rate: real,
                lines: seq<ReceiptLine>, shares: seq<int>): Option<Posted>
    requires |lines| == |shares|
  {
    if lines == [] then Some(Posted([], ledger))
    else
      var n := |lines| - 1;
      match Post(products, ledger, orderLines, rate, lines[..n], shares[..n])
      case None => None
      case Some(p) =>
        var l := CostedLine(orderLines, rate, lines[n], shares[n]);
        match LineAt(orderLines, l.line).product
        case None => Some(Posted(p.lines + [l], p.ledger))
        case Some(product) =>
          match Record(products, p.ledger, ArrivalMovement(product, l))
          case None => None
          case Some(ledger') => Some(Posted(p.lines + [l.(movement := Some(|p.ledger|))], ledger'))
  }

  function DoReceive(s: State, id: OrderId, d: ReceiptDraft): (State, Reply) {
    if id >= |s.orders| then (s, NotFound)
    else
      var o := s.orders[id];
      if o.status != Issued && o.status != PartlyReceived then (s, Conflict)
      else if !ReceiptDraftOk(o, s.receipts, id, d) then (s, Invalid)
      else
        var r := Uncosted(o, id, d);
        match ChargeShares(o.lines, r)
        case Err(_) => (s, Failed)
        case Ok(shares) =>
          match Post(s.products, s.ledger, o.lines, r.rate, r.lines, shares)
          case None => (s, Failed)
          case Some(p) =>
            var receipts := s.receipts + [r.(lines := p.lines)];
            (s.(orders := s.orders[id := o.(status := StatusAfter(o, receipts, id))],
                receipts := receipts, ledger := p.ledger), Done)
  }

  // --- Late charges ---------------------------------------------------------------------

  function CostedLines(orderLines: seq<OrderLine>, rate: real, lines: seq<ReceiptLine>, shares: seq<int>)
    : (out: seq<ReceiptLine>)
    requires |lines| == |shares|
    ensures |out| == |lines|
  {
    seq(|lines|, i requires 0 <= i < |lines| => CostedLine(orderLines, rate, lines[i], shares[i]))
  }

  /** The unit cost of every linked movement is overwritten where it stands. */
  function Recosted(ledger: seq<Movement>, lines: seq<ReceiptLine>): (out: seq<Movement>)
    ensures |out| == |ledger|
  {
    if lines == [] then ledger
    else
      var l := lines[|lines| - 1];
      var before := Recosted(ledger, lines[..|lines| - 1]);
      if l.movement.Some? && l.movement.value < |ledger|
      then before[l.movement.value := before[l.movement.value].(unitCost := l.unitCost)]
      else before
  }

  function DoCharge(s: State, id: ReceiptId, c: Component): (State, Reply) {
    if id >= |s.receipts| then (s, NotFound)
    else if !ChargeOk(c) then (s, Invalid)
    else
      var r := s.receipts[id];
      var orderLines := if r.order < |s.orders| then s.orders[r.order].lines else [];
      var r' := r.(components := r.components + [Stored(c)]);
      match ChargeShares(orderLines, r')
      case Err(_) => (s, Failed)
      case Ok(shares) =>
        var lines := CostedLines(orderLines, r.rate, r.lines, shares);
        (s.(receipts := s.receipts[id := r'.(lines := lines)], ledger := Recosted(s.ledger, lines)), Done)
  }

  // --- Runs --------------------------------------------------------------------------------

  /** Engine is any event of the approval engine; MoveStock any other movement the ledger accepts. */
  datatype Event =
    | Create(draft: OrderDraft)
    | Update(id: OrderId, draft: OrderDraft)
    | IssueOrder(id: OrderId, gate: Approvals.FlightId, caller: Option<Approvals.UserId>, year: nat)
    | Cancel(id: OrderId)
    | ReceiveGoods(id: OrderId, arrival: ReceiptDraft)
    | AddCharge(receipt: ReceiptId, charge: Component)
    | Engine(e: Approvals.Event)
    | MoveStock(m: Movement)
    | EditProducts(products: set<ProductId>)

  predicate Fresh(engine: Approvals.Sys, f: Approvals.FlightId) {
    f !in engine.flights && f !in engine.results
  }

  ghost function Apply(s: State, e: Event): State {
    match e
    case Create(d) => DoCreate(s, d).0
    case Update(id, d) => DoUpdate(s, id, d).0
    case IssueOrder(id, gate, caller, year) =>
      if Fresh(s.engine, gate) then DoIssue(s, id, gate, caller, year).0 else s
    case Cancel(id) => DoCancel(s, id).0
    case ReceiveGoods(id, d) => DoReceive(s, id, d).0
    case AddCharge(id, c) => DoCharge(s, id, c).0
    case Engine(e) => s.(engine := Approvals.Apply(s.engine, e))
    case MoveStock(m) =>
      var ledger := Record(s.products, s.ledger, m);
      if ledger.Some? then s.(ledger := ledger.value) else s
    case EditProducts(products) => s.(products := products)
  }

  ghost function Run(s: State, es: seq<Event>): State {
    if es == [] then s else Apply(Run(s, es[..|es| - 1]), es[|es| - 1])
  }

  const Start := State(Approvals.Empty, [], [], [], {})
}
