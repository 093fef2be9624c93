/**
 Purchasing handlers that overlap. Editing, cancelling and receiving each load the order, check it
 and then write, with nothing to keep another handler out in between; issuing asks the gate, counts
 the numbers in use and then writes. If what was loaded still stands at the write, the handler is
 one step of the machine. These lemmas prove that over whole runs, and say for each handler exactly
 when a write on an order that has moved on does harm.
 */
module PurchaseOverlap {
  import opened Common
  import opened Stock
  import opened Purchasing
  import opened PurchaseSafety
  import opened PurchaseTheorems
  import Approvals
  import ApprovalSafety
  import PurchaseCosting

  datatype Act = Editing(draft: OrderDraft) | Cancelling | Receiving(arrival: ReceiptDraft)

  /** What a handler holds once its checks have passed: the order and the receipts as it loaded them. */
  datatype Ticket = Ticket(id: OrderId, act: Act, order: PurchaseOrder, receipts: seq<GoodsReceipt>)

  predicate Passes(t: Ticket) {
    match t.act
    case Editing(d) => (t.order.status == Draft || t.order.status == Refused) && DraftOk(d, t.order.rate)
    case Cancelling => NothingIn(t.order.lines, t.receipts, t.id)
    case Receiving(d) =>
      (t.order.status == Issued || t.order.status == PartlyReceived)
      && ReceiptDraftOk(t.order, t.receipts, t.id, d)
  }

  /** The receipt is costed on the lines as loaded; the status is derived from the order as it now is. */
  function Deliver(s: State, t: Ticket, d: ReceiptDraft): State
    requires t.id < |s.orders|
  {
    var r := Uncosted(t.order, t.id, d);
    match ChargeShares(t.order.lines, r)
    case Err(_) => s
    case Ok(shares) =>
      match Post(s.products, s.ledger, t.order.lines, r.rate, r.lines, shares)
      case None => s
      case Some(p) =>
        var receipts := s.receipts + [r.(lines := p.lines)];
        SetOrder(s, t.id, s.orders[t.id].(status := StatusAfter(s.orders[t.id], receipts, t.id)))
          .(receipts := receipts, ledger := p.ledger)
  }

  /** The writing statements: none of them looks at the order's status again. */
  function Write(s: State, t: Ticket): State {
    if t.id >= |s.orders| then s
    else
      var now := s.orders[t.id];
      match t.act
      case Editing(d) =>
        SetOrder(s, t.id, now.(status := Draft, rate := OrRate(d.rate, t.order.rate), lines := LinesOf(d)))
      case Cancelling => SetOrder(s, t.id, now.(status := Cancelled))
      case Receiving(d) => Deliver(s, t, d)
  }

  // --- Undisturbed handlers are steps ------------------------------------------------------------

  /** The order is as it was loaded, and so are its receipts as far as quantities go. */
  ghost predicate Current(s: State, t: Ticket) {
    t.id < |s.orders| && s.orders[t.id] == t.order
    && forall line: nat :: Received(s.receipts, t.id, line) == Received(t.receipts, t.id, line)
  }

  function AsEvent(t: Ticket): Event {
    match t.act
    case Editing(d) => Update(t.id, d)
    case Cancelling => Cancel(t.id)
    case Receiving(d) => ReceiveGoods(t.id, d)
  }

  lemma SameOutstanding(o: PurchaseOrder, a: seq<GoodsReceipt>, b: seq<GoodsReceipt>, id: OrderId, d: ReceiptDraft)
    requires forall line: nat :: Received(a, id, line) == Received(b, id, line)
    ensures ReceiptDraftOk(o, a, id, d) <==> ReceiptDraftOk(o, b, id, d)
    ensures NothingIn(o.lines, a, id) <==> NothingIn(o.lines, b, id)
  {
    assert forall i :: 0 <= i < |d.arrivals| ==>
      (ArrivalOk(o, a, id, d.arrivals[i]) <==> ArrivalOk(o, b, id, d.arrivals[i]));
    forall i | 0 <= i < |o.lines| ensures Received(a, id, i) == Received(b, id, i) {}
  }

  /** A handler that finds what it loaded unchanged does what it would have done in one step. */
  lemma WriteIsStep(s: State, t: Ticket)
    requires Passes(t) && Current(s, t)
    ensures Write(s, t) == Apply(s, AsEvent(t))
  {
    match t.act
    case Editing(d) =>
    case Cancelling => SameOutstanding(t.order, s.receipts, t.receipts, t.id, ReceiptDraft(0.0, "", [], []));
    case Receiving(d) =>
      SameOutstanding(t.order, s.receipts, t.receipts, t.id, d);
      ReceivePosts(s, t.id, d);
  }

  type Handler = nat

  datatype Office = Office(state: State, tickets: map<Handler, Ticket>)

  /** Everything else, issuing included, goes on between a look and its write. */
  datatype Step =
    | Look(handler: Handler, id: OrderId, act: Act)
    | Put(handler: Handler)
    | Whole(event: Event)

  ghost function Take(o: Office, e: Step): Office {
    match e
    case Look(h, id, act) =>
      if id < |o.state.orders| && Passes(Ticket(id, act, o.state.orders[id], o.state.receipts))
      then o.(tickets := o.tickets[h := Ticket(id, act, o.state.orders[id], o.state.receipts)]) else o
    case Put(h) =>
      if h in o.tickets then Office(Write(o.state, o.tickets[h]), o.tickets - {h}) else o
    case Whole(event) => o.(state := Apply(o.state, event))
  }

  ghost function Walk(o: Office, es: seq<Step>): Office {
    if es == [] then o else Take(Walk(o, es[..|es| - 1]), es[|es| - 1])
  }

  /** What the step comes to in the machine that knows only whole handlers. */
  ghost function AsWhole(o: Office, e: Step): seq<Event> {
    match e
    case Look(_, _, _) => []
    case Put(h) => if h in o.tickets then [AsEvent(o.tickets[h])] else []
    case Whole(event) => [event]
  }

  ghost function Serial(o: Office, es: seq<Step>): seq<Event> {
    if es == [] then []
    else Serial(o, es[..|es| - 1]) + AsWhole(Walk(o, es[..|es| - 1]), es[|es| - 1])
  }

  /** No write of the run comes upon an order that has moved on since it was loaded. */
  ghost predicate Undisturbed(o: Office, es: seq<Step>) {
    forall i :: 0 <= i < |es| && es[i].Put? && es[i].handler in Walk(o, es[..i]).tickets ==>
      Current(Walk(o, es[..i]).state, Walk(o, es[..i]).tickets[es[i].handler])
  }

  ghost predicate AllPass(o: Office) {
    forall h :: h in o.tickets ==> Passes(o.tickets[h])
  }

  const Opening := Office(Start, map[])

  lemma SnocRun(es: seq<Event>, e: Event)
    ensures Run(Start, es + [e]) == Apply(Run(Start, es), e)
  {
    assert (es + [e])[..|es|] == es;
  }

  /**
   Overlapping handlers that do not disturb each other are serial: the run ends in the state of a
   run of whole handlers, each placed at its write. Every theorem about runs applies to it.
   */
  lemma {:induction false} UndisturbedIsSerial(es: seq<Step>)
    requires Undisturbed(Opening, es)
    ensures Walk(Opening, es).state == Run(Start, Serial(Opening, es)) && AllPass(Walk(Opening, es))
  {
    if es != [] {
      var n := |es| - 1;
      var front, e := es[..n], es[n];
      forall i | 0 <= i < n ensures front[..i] == es[..i] {}
      assert Undisturbed(Opening, front);
      UndisturbedIsSerial(front);
      var o, done := Walk(Opening, front), Serial(Opening, front);
      assert Serial(Opening, es) == done + AsWhole(o, e);
      if e.Put? && e.handler in o.tickets {
        WriteIsStep(o.state, o.tickets[e.handler]);
        SnocRun(done, AsEvent(o.tickets[e.handler]));
      } else if e.Whole? {
        SnocRun(done, e.event);
      } else {
        assert AsWhole(o, e) == [] && done + [] == done;
      }
    }
  }

  // --- Disturbed ones ------------------------------------------------------------------------------

  /** The order is in order, and its status says what its receipts add up to. */
  ghost predicate Sane(s: State, id: OrderId)
    requires id < |s.orders|
  {
    OrderOk(s.orders[id]) && StatusOk(s.orders[id], s.receipts, id)
  }

  /** An edit does no harm exactly when the order has been neither issued nor received against since. */
  lemma EditExactly(s: State, t: Ticket)
    requires Inv(s) && t.id < |s.orders| && t.act.Editing? && Passes(t)
    ensures Sane(Write(s, t), t.id) <==> s.orders[t.id].issued.None? && NoReceipts(s.receipts, t.id)
  {
    var d, now := t.act.draft, s.orders[t.id];
    assert OrderOk(now);
    assert LinesOk(LinesOf(d)) by {
      assert forall i :: 0 <= i < |d.lines| ==> LineDraftOk(d.lines[i]);
    }
  }

  /** The order the supplier holds a copy of: an edit that comes too late rewrites it. */
  lemma LateEditRewrites(s: State, t: Ticket)
    requires Inv(s) && t.id < |s.orders| && t.act.Editing? && s.orders[t.id].issued.Some?
    requires LinesOf(t.act.draft) != s.orders[t.id].lines
    ensures !Frozen(s.orders[t.id], Write(s, t).orders[t.id])
  {}

  /** A cancellation does no harm exactly when nothing has been received since. */
  lemma CancelExactly(s: State, t: Ticket)
    requires Inv(s) && t.id < |s.orders| && t.act.Cancelling?
    ensures Sane(Write(s, t), t.id) <==> NoReceipts(s.receipts, t.id)
  {
    assert OrderOk(s.orders[t.id]);
  }

  lemma DeliveredAdds(s: State, t: Ticket, line: nat)
    requires Sound(s.ledger) && t.id < |s.orders| && t.act.Receiving? && Passes(t) && Write(s, t) != s
    ensures Received(Write(s, t).receipts, t.id, line) ==
      Received(s.receipts, t.id, line) + Arriving(t.act.arrival.arrivals, line)
  {
    var d := t.act.arrival;
    var r := Uncosted(t.order, t.id, d);
    var shares := ChargeShares(t.order.lines, r).value;
    var p := Post(s.products, s.ledger, t.order.lines, r.rate, r.lines, shares).value;
    forall i | 0 <= i < |r.lines| ensures 0 < r.lines[i].quantity && r.lines[i].movement == None {
      assert ArrivalOk(t.order, t.receipts, t.id, d.arrivals[i]);
    }
    PurchaseCosting.PostedGoods(s.products, s.ledger, t.order.lines, r.rate, r.lines, shares);
    ReceivedSnoc(s.receipts, r.(lines := p.lines), t.id, line);
    ArrivingIsQuantity(d.arrivals, p.lines, line);
  }

  /**
   A recorded delivery keeps received within ordered exactly when its quantities, added up per
   line, fit what is outstanding as it is written, whatever was outstanding when it was checked.
   */
  lemma DeliveryExactly(s: State, t: Ticket)
    requires Sound(s.ledger) && t.id < |s.orders| && t.act.Receiving? && Passes(t) && Write(s, t) != s
    ensures var s' := Write(s, t);
      Within(s'.orders[t.id], s'.receipts, t.id) <==>
        forall i :: 0 <= i < |s.orders[t.id].lines| ==>
          Arriving(t.act.arrival.arrivals, i) <= s.orders[t.id].lines[i].quantity - Received(s.receipts, t.id, i)
  {
    forall line: nat ensures Received(Write(s, t).receipts, t.id, line)
                          == Received(s.receipts, t.id, line) + Arriving(t.act.arrival.arrivals, line)
    {
      DeliveredAdds(s, t, line);
    }
    assert Write(s, t).orders[t.id].lines == s.orders[t.id].lines;
  }

  /** Two deliveries checked against the same order, each of all that is outstanding on a line. */
  lemma TwoDeliveriesOverReceive(s: State, first: Ticket, second: Ticket, line: nat)
    requires Sound(s.ledger) && first.id == second.id < |s.orders|
    requires first.act.Receiving? && Passes(first) && Current(s, first) && Write(s, first) != s
    requires second.act.Receiving? && Passes(second) && Current(s, second)
    requires Write(Write(s, first), second) != Write(s, first)
    requires line < |s.orders[first.id].lines|
    requires Arriving(first.act.arrival.arrivals, line) == Arriving(second.act.arrival.arrivals, line)
      == s.orders[first.id].lines[line].quantity - Received(s.receipts, first.id, line) > 0
    ensures var s' := Write(Write(s, first), second);
      first.id < |s'.orders| && !Within(s'.orders[first.id], s'.receipts, first.id)
  {
    var s1 := Write(s, first);
    DeliveredAdds(s, first, line);
    assert s1.orders[first.id].lines == s.orders[first.id].lines;
    PostKeepsSound(s, first);
    DeliveryExactly(s1, second);
  }

  lemma PostKeepsSound(s: State, t: Ticket)
    requires Sound(s.ledger) && t.id < |s.orders| && t.act.Receiving? && Passes(t) && Write(s, t) != s
    ensures Sound(Write(s, t).ledger)
  {
    var d := t.act.arrival;
    var r := Uncosted(t.order, t.id, d);
    var shares := ChargeShares(t.order.lines, r).value;
    forall i | 0 <= i < |r.lines| ensures 0 < r.lines[i].quantity && r.lines[i].movement == None {
      assert ArrivalOk(t.order, t.receipts, t.id, d.arrivals[i]);
    }
    PostExactly(s.products, s.ledger, t.order.lines, r.rate, r.lines, shares);
  }

  // --- Issuing --------------------------------------------------------------------------------------

  /** The issuing statement: like the others, it does not look at the order again. */
  function AsIssued(now: PurchaseOrder, gate: Approvals.FlightId, caller: Option<Approvals.UserId>,
                    number: Number): PurchaseOrder
  {
    now.(status := Issued, issued := Some(Issue(gate, caller)), number := Some(number))
  }

  /**
   The pass the gate logged was for the order's value as loaded. It authorises the order as issued
   exactly when its value is still the same; an edit in between is not noticed.
   */
  lemma AuthorityExactly(engine: Approvals.Sys, loaded: PurchaseOrder, now: PurchaseOrder, id: OrderId, k: nat,
                         gate: Approvals.FlightId, caller: Option<Approvals.UserId>, number: Number,
                         asked: real, value: real)
    requires ApprovalSafety.PassesOk(engine) && ComesTo(loaded, asked) && ComesTo(now, value)
    requires Admits(engine.passes, k, gate, id, caller, asked)
    ensures Authorised(engine, AsIssued(now, gate, caller, number), id) <==> value == asked
  {
    ValueExactly(loaded, asked);
    ValueExactly(now, value);
    var o := AsIssued(now, gate, caller, number);
    SameValue(o, now);
    AdmittedOnlyAt(engine, id, k, gate, caller, SubtotalZMW(loaded), SubtotalZMW(o));
    AuthorisedAt(engine, o, id, SubtotalZMW(o));
  }

  lemma SameValue(a: PurchaseOrder, b: PurchaseOrder)
    requires a.lines == b.lines && a.rate == b.rate
    ensures SubtotalZMW(a) == SubtotalZMW(b)
  {}

  lemma AuthorisedAt(engine: Approvals.Sys, o: PurchaseOrder, id: OrderId, value: real)
    requires o.issued.Some? && value == SubtotalZMW(o)
    ensures Authorised(engine, o, id) <==>
      exists j :: Admits(engine.passes, j, o.issued.value.gate, id, o.issued.value.caller, value)
  {}

  lemma AdmittedOnlyAt(engine: Approvals.Sys, id: OrderId, k: nat, gate: Approvals.FlightId,
                       caller: Option<Approvals.UserId>, asked: real, value: real)
    requires ApprovalSafety.PassesOk(engine) && Admits(engine.passes, k, gate, id, caller, asked)
    ensures (exists j :: Admits(engine.passes, j, gate, id, caller, value)) <==> value == asked
  {
    if j: nat :| Admits(engine.passes, j, gate, id, caller, value) {
      OnePass(engine, j, k, gate);
      OneAmount(engine.passes[k], gate, id, caller, value, asked);
    }
  }

  /** A gate call logs one pass at most. */
  lemma OnePass(engine: Approvals.Sys, j: nat, k: nat, gate: Approvals.FlightId)
    requires ApprovalSafety.PassesOk(engine) && j < |engine.passes| && k < |engine.passes|
    requires engine.passes[j].flight == gate && engine.passes[k].flight == gate
    ensures j == k
  {
    var passes := engine.passes;
    forall a, b | 0 <= a < b < |passes| ensures passes[a].flight != passes[b].flight {
      assert ApprovalSafety.Apart(passes[a], passes[b]);
    }
  }

  lemma OneAmount(p: Approvals.Pass, gate: Approvals.FlightId, id: OrderId, caller: Option<Approvals.UserId>,
                  a: real, b: real)
    requires PassFor(p, gate, id, caller, a) && PassFor(p, gate, id, caller, b)
    ensures a == b
  {}

  function YearOf(number: Option<Number>, year: nat): nat {
    if number.Some? && number.value.year == year then 1 else 0
  }

  lemma {:induction false} CountReplaced(orders: seq<PurchaseOrder>, id: OrderId, o: PurchaseOrder, year: nat)
    requires id < |orders|
    ensures CountYear(orders[id := o], year) ==
      CountYear(orders, year) - YearOf(orders[id].number, year) + YearOf(o.number, year)
  {
    var n := |orders| - 1;
    if id == n {
      assert orders[id := o][..n] == orders[..n];
    } else {
      CountReplaced(orders[..n], id, o, year);
      assert orders[id := o][..n] == orders[..n][id := o];
    }
  }

  /** Writing n on an order without a number: unbroken exactly if it is the next of its year. */
  lemma NumberExactly(orders: seq<PurchaseOrder>, id: OrderId, o: PurchaseOrder, n: Number)
    requires NumbersOk(orders) && id < |orders| && orders[id].number.None? && o.number == Some(n) && 1 <= n.serial
    ensures NumbersOk(orders[id := o]) <==> n == NextNumber(orders, n.year)
  {
    var after := orders[id := o];
    forall year: nat ensures CountYear(after, year) == CountYear(orders, year) + (if n.year == year then 1 else 0) {
      CountReplaced(orders, id, o, year);
    }
    forall i, year, serial | i != id ensures Bears(after, i, year, serial) <==> Bears(orders, i, year, serial) {}
    assert Bears(after, id, n.year, n.serial);
    if n.serial <= CountYear(orders, n.year) {
      SerialsUnbroken(orders, n.year, n.serial);
      var i :| Bears(orders, i, n.year, n.serial);
      assert Bears(after, i, n.year, n.serial) && i != id;
    }
  }

  /** Reissuing an order that has got a number since replaces that number. */
  lemma RenumberExactly(orders: seq<PurchaseOrder>, id: OrderId, o: PurchaseOrder, n: Number)
    requires NumbersOk(orders) && id < |orders| && orders[id].number.Some? && o.number == Some(n) && 1 <= n.serial
    requires orders[id].number.value.year == n.year
    ensures NumbersOk(orders[id := o]) <==> orders[id].number == Some(n)
  {
    var after, old_ := orders[id := o], orders[id].number.value;
    forall year: nat ensures CountYear(after, year) == CountYear(orders, year) { CountReplaced(orders, id, o, year); }
    forall i, year, serial | i != id ensures Bears(after, i, year, serial) <==> Bears(orders, i, year, serial) {}
    assert Bears(after, id, n.year, n.serial) && Bears(orders, id, old_.year, old_.serial);
    if old_ == n {
      assert forall i, year, serial :: Bears(after, i, year, serial) <==> Bears(orders, i, year, serial);
    } else if n.serial <= CountYear(orders, n.year) {
      SerialsUnbroken(orders, n.year, n.serial);
      var i :| Bears(orders, i, n.year, n.serial);
      assert Bears(after, i, n.year, n.serial) && i != id;
    }
  }

  /**
   From counting to writing: the numbers of a year stay unbroken exactly when no other number of
   that year has been written in between. The column has an index, but not a unique one.
   */
  lemma CountingExactly(counted: seq<PurchaseOrder>, orders: seq<PurchaseOrder>, id: OrderId, year: nat,
                        gate: Approvals.FlightId, caller: Option<Approvals.UserId>)
    requires NumbersOk(orders) && id < |orders| && orders[id].number.None?
    ensures var n := NextNumber(counted, year);
      NumbersOk(orders[id := AsIssued(orders[id], gate, caller, n)]) <==>
        CountYear(orders, year) == CountYear(counted, year)
  {
    var n := NextNumber(counted, year);
    NumberExactly(orders, id, AsIssued(orders[id], gate, caller, n), n);
  }

  /** Two orders issued at once, both counted before either is written, are sent out under one number. */
  lemma OneNumberTwice(orders: seq<PurchaseOrder>, i: OrderId, j: OrderId, a: PurchaseOrder, b: PurchaseOrder, year: nat)
    requires i < |orders| && j < |orders| && i != j
    requires a.number == b.number == Some(NextNumber(orders, year))
    ensures var after, serial := orders[i := a][j := b], NextNumber(orders, year).serial;
      Bears(after, i, year, serial) && Bears(after, j, year, serial) && !NumbersOk(after)
  {
    var after, serial := orders[i := a][j := b], NextNumber(orders, year).serial;
    assert Bears(after, i, year, serial) && Bears(after, j, year, serial);
  }
}
