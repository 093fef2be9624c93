/** What the status, the numbers, the approvals and the quantities of orders say, over every run. */
module PurchaseTheorems {
  import opened Common
  import opened Stock
  import opened LandedCost
  import opened Purchasing
  import opened PurchaseSafety
  import PurchaseCosting
  import Apportionment
  import Approvals
  import ApprovalSafety
  import ApprovalTheorems
  import ApprovalHandlers

  // --- Status ------------------------------------------------------------------------------

  /**
   The status of an order says exactly what has come in: received when every line is full,
   partly received when something but not everything is, nothing at all otherwise. The approved
   and closed statuses are never reached.
   */
  lemma StatusIsExact(es: seq<Event>, id: OrderId)
    requires id < |Run(Start, es).orders|
    ensures var s := Run(Start, es);
      var o := s.orders[id];
      (o.status == FullyReceived <==> AllIn(o.lines, s.receipts, id))
      && (o.status == PartlyReceived <==> AnyIn(o.lines, s.receipts, id) && !AllIn(o.lines, s.receipts, id))
      && (o.status != FullyReceived && o.status != PartlyReceived ==>
        NoReceipts(s.receipts, id) && forall line :: Received(s.receipts, id, line) == 0)
      && (OutForDelivery(o.status) ==> o.issued.Some?) && (Editable(o.status) ==> o.issued.None?)
      && (OutForDelivery(o.status) || Editable(o.status) || o.status == Cancelled)
  {
    var s := Run(Start, es);
    ReachableInv(es);
    var o := s.orders[id];
    assert OrderOk(o) && StatusOk(o, s.receipts, id);
    InExactly(s, id);
    if AllIn(o.lines, s.receipts, id) { assert 0 < o.lines[0].quantity <= Received(s.receipts, id, 0); }
    forall line: nat ensures NoReceipts(s.receipts, id) ==> Received(s.receipts, id, line) == 0 {
      if NoReceipts(s.receipts, id) { ReceivedNone(s.receipts, id, line); }
    }
  }

  // --- Issued orders are frozen -----------------------------------------------------------

  /** Nothing about an issued order but its status can change. */
  ghost predicate Frozen(o: PurchaseOrder, o': PurchaseOrder) {
    o.issued.Some? ==> o' == o.(status := o'.status) && !Editable(o'.status)
  }

  lemma IssueFrozen(s: State, k: OrderId, gate: Approvals.FlightId, caller: Option<Approvals.UserId>,
                    year: nat, id: OrderId)
    requires id < |s.orders| && OrderOk(s.orders[id])
    ensures var s' := DoIssue(s, k, gate, caller, year).0; id < |s'.orders| && Frozen(s.orders[id], s'.orders[id])
  {
    if k < |s.orders| { IssueShape(s, k, gate, caller, year); }
  }

  lemma EditFrozen(s: State, k: OrderId, d: OrderDraft, id: OrderId)
    requires id < |s.orders| && OrderOk(s.orders[id])
    ensures var s' := DoUpdate(s, k, d).0; id < |s'.orders| && Frozen(s.orders[id], s'.orders[id])
  {}

  lemma CancelFrozen(s: State, k: OrderId, id: OrderId)
    requires id < |s.orders| && OrderOk(s.orders[id])
    ensures var s' := DoCancel(s, k).0; id < |s'.orders| && Frozen(s.orders[id], s'.orders[id])
  {}

  lemma DeliveryFrozen(s: State, k: OrderId, d: ReceiptDraft, id: OrderId)
    requires id < |s.orders| && OrderOk(s.orders[id])
    ensures var s' := DoReceive(s, k, d).0; id < |s'.orders| && Frozen(s.orders[id], s'.orders[id])
  {}

  lemma StepFrozen(s: State, e: Event, id: OrderId)
    requires Inv(s) && id < |s.orders|
    ensures id < |Apply(s, e).orders| && Frozen(s.orders[id], Apply(s, e).orders[id])
  {
    assert OrderOk(s.orders[id]);
    match e
    case Update(k, d) => EditFrozen(s, k, d, id);
    case IssueOrder(k, gate, caller, year) => IssueFrozen(s, k, gate, caller, year, id);
    case Cancel(k) => CancelFrozen(s, k, id);
    case ReceiveGoods(k, d) => DeliveryFrozen(s, k, d, id);
    case AddCharge(r, c) => ChargeSameDeliveries(s, r, c);
    case _ =>
  }

  lemma {:induction false} RunFrozen(s: State, es: seq<Event>, id: OrderId)
    requires Inv(s) && id < |s.orders|
    ensures id < |Run(s, es).orders| && Frozen(s.orders[id], Run(s, es).orders[id])
  {
    if es != [] {
      RunFrozen(s, es[..|es| - 1], id);
      RunKeepsInv(s, es[..|es| - 1]);
      StepFrozen(Run(s, es[..|es| - 1]), es[|es| - 1], id);
    } else {
      assert OrderOk(s.orders[id]);
    }
  }

  // --- Issued orders are authorised ---------------------------------------------------------

  /** A gate call still on its way, for this action on this entity at this amount. */
  ghost predicate GateOn(fl: Approvals.Flight, entity: nat, caller: Option<Approvals.UserId>, amount: real) {
    match fl
    case GateMatch(a, e, c, m) => a == IssueAction && e == entity && c == caller && m == amount
    case GateFind(key, m, _) => KeyOf(key, entity, caller) && m == amount
    case GateSpend(key, m, _, _) => KeyOf(key, entity, caller) && m == amount
    case GateRaise(key, m, _) => KeyOf(key, entity, caller) && m == amount
    case _ => false
  }

  ghost predicate KeyOf(key: Approvals.Triple, entity: nat, caller: Option<Approvals.UserId>) {
    key.action == "purchase_order.issue" && key.entity == entity && caller == Some(key.requester)
  }

  /** The pass such a call leaves when it is let through. */
  ghost predicate PassFor(p: Approvals.Pass, f: Approvals.FlightId, entity: nat,
                          caller: Option<Approvals.UserId>, amount: real) {
    p.flight == f
    && match p
       case Free(_, action, m, _) => action == IssueAction && m == amount
       case Spent(_, _, key, m) => KeyOf(key, entity, caller) && m == amount
  }

  ghost function StepsLeft(fl: Approvals.Flight): nat {
    if fl.GateMatch? then 4 else if fl.GateFind? then 3 else if fl.GateSpend? then 2 else 1
  }

  lemma GateStep(t: Approvals.Sys, f: Approvals.FlightId, entity: nat, caller: Option<Approvals.UserId>, amount: real)
    requires f in t.flights && GateOn(t.flights[f], entity, caller, amount)
    ensures var u := Approvals.Advance(t, f);
      if f in u.flights then
        GateOn(u.flights[f], entity, caller, amount) && StepsLeft(u.flights[f]) < StepsLeft(t.flights[f])
        && u.passes == t.passes
      else
        f in u.results && (u.results[f] == Approvals.Proceed ==>
          exists p :: u.passes == t.passes + [p] && PassFor(p, f, entity, caller, amount))
  {
    var u := Approvals.Advance(t, f);
    if f !in u.flights && u.results[f] == Approvals.Proceed {
      var p := u.passes[|t.passes|];
      assert u.passes == t.passes + [p] && PassFor(p, f, entity, caller, amount);
    }
  }

  /** Let run to its end, the call is answered, and an answer of proceed leaves its pass. */
  lemma {:induction false} GateEnds(t: Approvals.Sys, f: Approvals.FlightId, entity: nat,
                                    caller: Option<Approvals.UserId>, amount: real, n: nat)
    requires f in t.flights && GateOn(t.flights[f], entity, caller, amount) && StepsLeft(t.flights[f]) <= n
    ensures var u := ApprovalHandlers.Drive(t, f, n);
      f in u.results && (u.results[f] == Approvals.Proceed ==>
        exists p :: u.passes == t.passes + [p] && PassFor(p, f, entity, caller, amount))
    decreases n
  {
    GateStep(t, f, entity, caller, amount);
    var u := Approvals.Advance(t, f);
    if f in u.flights {
      GateEnds(u, f, entity, caller, amount, n - 1);
    } else {
      assert ApprovalHandlers.Drive(u, f, n - 1) == u;
    }
  }

  lemma IssueAdmitted(s: State, id: OrderId, gate: Approvals.FlightId, caller: Option<Approvals.UserId>)
    requires id < |s.orders| && Fresh(s.engine, gate)
    requires var engine := ApprovalHandlers.Serve(s.engine, gate, GateCall(s.orders[id], id, caller));
      Answer(engine, gate) == Approvals.Proceed
    ensures var engine := ApprovalHandlers.Serve(s.engine, gate, GateCall(s.orders[id], id, caller));
      exists k :: Admits(engine.passes, k, gate, id, caller, SubtotalZMW(s.orders[id]))
  {
    var call := GateCall(s.orders[id], id, caller);
    var t := Approvals.Apply(s.engine, Approvals.Start(gate, call));
    GateEnds(t, gate, id, caller, SubtotalZMW(s.orders[id]), ApprovalHandlers.Longest);
    var engine := ApprovalHandlers.Serve(s.engine, gate, call);
    var p :| engine.passes == t.passes + [p] && PassFor(p, gate, id, caller, SubtotalZMW(s.orders[id]));
    assert Admits(engine.passes, |t.passes|, gate, id, caller, SubtotalZMW(s.orders[id]));
  }

  ghost predicate Admits(passes: seq<Approvals.Pass>, k: nat, f: Approvals.FlightId, entity: nat,
                         caller: Option<Approvals.UserId>, amount: real) {
    k < |passes| && PassFor(passes[k], f, entity, caller, amount)
  }

  ghost predicate Authorised(engine: Approvals.Sys, o: PurchaseOrder, id: OrderId) {
    o.issued.Some? ==>
      exists k :: Admits(engine.passes, k, o.issued.value.gate, id, o.issued.value.caller, SubtotalZMW(o))
  }

  ghost predicate EngineInv(s: State) {
    ApprovalHandlers.Reachable(s.engine)
    && forall id :: 0 <= id < |s.orders| ==> Authorised(s.engine, s.orders[id], id)
  }

  lemma AdvancePasses(t: Approvals.Sys, f: Approvals.FlightId)
    requires f in t.flights
    ensures t.passes <= Approvals.Advance(t, f).passes
  {}

  lemma EnginePasses(t: Approvals.Sys, e: Approvals.Event)
    ensures t.passes <= Approvals.Apply(t, e).passes
  {
    if e.Next? && e.f in t.flights { AdvancePasses(t, e.f); }
  }

  lemma {:induction false} RunPasses(t: Approvals.Sys, es: seq<Approvals.Event>)
    ensures t.passes <= Approvals.Run(t, es).passes
  {
    if es != [] {
      RunPasses(t, es[..|es| - 1]);
      EnginePasses(Approvals.Run(t, es[..|es| - 1]), es[|es| - 1]);
    }
  }

  lemma AuthorisedStays(engine: Approvals.Sys, engine': Approvals.Sys, o: PurchaseOrder, o': PurchaseOrder, id: OrderId)
    requires engine.passes <= engine'.passes && Authorised(engine, o, id)
    requires o'.issued == o.issued && (o.issued.Some? ==> o'.lines == o.lines && o'.rate == o.rate)
    ensures Authorised(engine', o', id)
  {
    if o.issued.Some? {
      var k :| Admits(engine.passes, k, o.issued.value.gate, id, o.issued.value.caller, SubtotalZMW(o));
      assert Admits(engine'.passes, k, o.issued.value.gate, id, o.issued.value.caller, SubtotalZMW(o'));
    }
  }

  lemma ServeKeeps(s: State, id: OrderId, gate: Approvals.FlightId, caller: Option<Approvals.UserId>)
    requires EngineInv(s) && id < |s.orders|
    ensures var call := GateCall(s.orders[id], id, caller);
      EngineInv(s.(engine := ApprovalHandlers.Serve(s.engine, gate, call)))
  {
    var call := GateCall(s.orders[id], id, caller);
    ApprovalHandlers.ServeIsRun(s.engine, gate, call);
    var engine := ApprovalHandlers.Serve(s.engine, gate, call);
    RunPasses(s.engine, ApprovalHandlers.Script(gate, call, ApprovalHandlers.Longest));
    forall k | 0 <= k < |s.orders| ensures Authorised(engine, s.orders[k], k) {
      AuthorisedStays(s.engine, engine, s.orders[k], s.orders[k], k);
    }
  }

  /** An issue attempt that reaches the gate either admits the order or touches its status alone. */
  lemma IssueShape(s: State, id: OrderId, gate: Approvals.FlightId, caller: Option<Approvals.UserId>, year: nat)
    requires id < |s.orders|
    ensures var s1, s' := AfterGate(s, id, gate, caller), DoIssue(s, id, gate, caller, year).0;
      s' == s
      || (Issuable(s.orders[id].status) && s' == Admit(s1, id, gate, caller, year)
          && Answer(s1.engine, gate) == Approvals.Proceed)
      || (Issuable(s.orders[id].status) && s'.orders[id].status != Issued
          && s' == SetOrder(s1, id, s.orders[id].(status := s'.orders[id].status)))
  {
    var s1 := AfterGate(s, id, gate, caller);
    assert s1.orders[id := s.orders[id]] == s1.orders;
  }

  lemma AdmitAuthorised(s: State, id: OrderId, gate: Approvals.FlightId, caller: Option<Approvals.UserId>, year: nat)
    requires id < |s.orders| && EngineInv(AfterGate(s, id, gate, caller)) && Fresh(s.engine, gate)
    requires Answer(AfterGate(s, id, gate, caller).engine, gate) == Approvals.Proceed
    ensures EngineInv(Admit(AfterGate(s, id, gate, caller), id, gate, caller, year))
  {
    IssueAdmitted(s, id, gate, caller);
    var s1 := AfterGate(s, id, gate, caller);
    var s' := Admit(s1, id, gate, caller, year);
    assert SubtotalZMW(s'.orders[id]) == SubtotalZMW(s.orders[id]);
    forall k | 0 <= k < |s'.orders| ensures Authorised(s'.engine, s'.orders[k], k) {
      assert Authorised(s1.engine, s1.orders[k], k);
    }
  }

  lemma StatusKeepsEngine(s: State, id: OrderId, status: OrderStatus)
    requires EngineInv(s) && id < |s.orders|
    ensures EngineInv(SetOrder(s, id, s.orders[id].(status := status)))
  {
    forall k | 0 <= k < |s.orders|
      ensures Authorised(s.engine, SetOrder(s, id, s.orders[id].(status := status)).orders[k], k)
    {
      AuthorisedStays(s.engine, s.engine, s.orders[k], SetOrder(s, id, s.orders[id].(status := status)).orders[k], k);
    }
  }

  lemma IssueKeepsEngine(s: State, id: OrderId, gate: Approvals.FlightId, caller: Option<Approvals.UserId>, year: nat)
    requires EngineInv(s) && Fresh(s.engine, gate)
    ensures EngineInv(DoIssue(s, id, gate, caller, year).0)
  {
    if id < |s.orders| {
      IssueShape(s, id, gate, caller, year);
      ServeKeeps(s, id, gate, caller);
      var s1, s' := AfterGate(s, id, gate, caller), DoIssue(s, id, gate, caller, year).0;
      if s' != s {
        if Answer(s1.engine, gate) == Approvals.Proceed && s' == Admit(s1, id, gate, caller, year) {
          AdmitAuthorised(s, id, gate, caller, year);
        } else {
          StatusKeepsEngine(s1, id, s'.orders[id].status);
        }
      }
    }
  }

  /** Steps that leave the engine alone and issue nothing. */
  lemma OthersKeepEngine(s: State, e: Event)
    requires Inv(s) && EngineInv(s) && !e.IssueOrder? && !e.Engine?
    ensures EngineInv(Apply(s, e))
  {
    var s' := Apply(s, e);
    forall k | 0 <= k < |s'.orders| ensures Authorised(s'.engine, s'.orders[k], k) {
      if k < |s.orders| {
        StepFrozen(s, e, k);
        NotIssuedHere(s, e, k);
        AuthorisedStays(s.engine, s'.engine, s.orders[k], s'.orders[k], k);
      }
    }
  }

  lemma NotIssuedHere(s: State, e: Event, k: OrderId)
    requires k < |s.orders| && !e.IssueOrder? && !e.Engine?
    ensures var s' := Apply(s, e);
      s'.engine == s.engine && k < |s'.orders| && s'.orders[k].issued == s.orders[k].issued
    ensures forall j :: |s.orders| <= j < |Apply(s, e).orders| ==> Apply(s, e).orders[j].issued == None
  {}

  lemma ApplyKeepsEngine(s: State, e: Event)
    requires Inv(s) && EngineInv(s)
    ensures EngineInv(Apply(s, e))
  {
    if e.IssueOrder? {
      if Fresh(s.engine, e.gate) { IssueKeepsEngine(s, e.id, e.gate, e.caller, e.year); }
    } else if e.Engine? {
      ApprovalHandlers.ReachableApply(s.engine, e.e);
      EnginePasses(s.engine, e.e);
      forall k | 0 <= k < |s.orders| ensures Authorised(Approvals.Apply(s.engine, e.e), s.orders[k], k) {
        AuthorisedStays(s.engine, Approvals.Apply(s.engine, e.e), s.orders[k], s.orders[k], k);
      }
    } else {
      if s.orders == [] { NothingIssuedYet(s, e); } else { NotIssuedHere(s, e, 0); }
      OthersKeepEngine(s, e);
    }
  }

  lemma NothingIssuedYet(s: State, e: Event)
    requires s.orders == [] && !e.IssueOrder? && !e.Engine?
    ensures Apply(s, e).engine == s.engine
    ensures forall j :: 0 <= j < |Apply(s, e).orders| ==> Apply(s, e).orders[j].issued == None
  {}

  lemma {:induction false} RunKeepsEngine(es: seq<Event>)
    ensures Inv(Run(Start, es)) && EngineInv(Run(Start, es))
  {
    if es == [] {
      assert Approvals.Run(Approvals.Empty, []) == Approvals.Empty;
    } else {
      RunKeepsEngine(es[..|es| - 1]);
      ApplyKeepsEngine(Run(Start, es[..|es| - 1]), es[|es| - 1]);
      ReachableInv(es);
    }
  }

  /** The lines added up one by one, quantity times unit price. */
  ghost predicate AddedUp(lines: seq<OrderLine>, totals: seq<real>) {
    |totals| == |lines| + 1 && totals[0] == 0.0
    && forall i :: 0 <= i < |lines| ==> totals[i + 1] == totals[i] + lines[i].quantity as real * lines[i].unitPrice
  }

  /** What the order comes to in kwacha: its lines added up, at its rate. */
  ghost predicate ComesTo(o: PurchaseOrder, value: real) {
    exists totals :: AddedUp(o.lines, totals) && value == totals[|o.lines|] * o.rate
  }

  lemma AddedUpExactly(lines: seq<OrderLine>, totals: seq<real>)
    ensures AddedUp(lines, totals) <==> Running(Purchasing.LineTotals(lines), totals)
  {
    var terms := Purchasing.LineTotals(lines);
    assert forall i :: 0 <= i < |lines| ==> terms[i] == lines[i].quantity as real * lines[i].unitPrice;
  }

  lemma AddedUpIs(lines: seq<OrderLine>, totals: seq<real>)
    requires AddedUp(lines, totals)
    ensures totals[|lines|] == SumR(Purchasing.LineTotals(lines))
  {
    AddedUpExactly(lines, totals);
    RunningIsSum(Purchasing.LineTotals(lines), totals);
  }

  lemma SubtotalIsValue(o: PurchaseOrder)
    ensures ComesTo(o, SubtotalZMW(o))
  {
    var totals := RunningTotals(Purchasing.LineTotals(o.lines));
    AddedUpExactly(o.lines, totals);
    AddedUpIs(o.lines, totals);
  }

  /** The value the gate is asked for is that, and an order comes to no other. */
  lemma ValueExactly(o: PurchaseOrder, value: real)
    ensures ComesTo(o, value) <==> value == SubtotalZMW(o)
  {
    SubtotalIsValue(o);
    if ComesTo(o, value) {
      var others :| AddedUp(o.lines, others) && value == others[|o.lines|] * o.rate;
      AddedUpIs(o.lines, others);
    }
  }

  /** The request an issued order spent. */
  ghost predicate PaidBy(engine: Approvals.Sys, o: PurchaseOrder, id: OrderId, request: Approvals.Id, value: real) {
    o.issued.Some? && request < |engine.requests|
    && var r := engine.requests[request];
    r.status == Approvals.Consumed && KeyOf(r.key, id, o.issued.value.caller) && value <= r.amount
    && 1 <= r.required <= |ApprovalTheorems.Approvers(engine.decisions, request)|
    && r.key.requester !in ApprovalTheorems.Approvers(engine.decisions, request)
  }

  /** No rule's floor was reached by the value among those in force when its gate call was answered. */
  ghost predicate Ungated(engine: Approvals.Sys, o: PurchaseOrder, k: nat, value: real) {
    o.issued.Some? && k < |engine.passes| && engine.passes[k].Free?
    && engine.passes[k].flight == o.issued.value.gate
    && engine.passes[k].action == "purchase_order.issue" && engine.passes[k].amount == value
    && forall j :: 0 <= j < |engine.passes[k].rules| ==>
         !ApprovalTheorems.Reached(engine.passes[k].rules, "purchase_order.issue", value, j)
  }

  /**
   Every order ever issued was either worth less than any rule in force demanded approval for,
   or spent a request of its own: raised by the person issuing it, for at least what the order
   is worth now, and signed off by as many others as the request called for.
   */
  lemma IssuedIsAuthorised(es: seq<Event>, id: OrderId)
    requires id < |Run(Start, es).orders| && Run(Start, es).orders[id].issued.Some?
    ensures var s := Run(Start, es);
      exists value :: ComesTo(s.orders[id], value)
        && ((exists k :: Ungated(s.engine, s.orders[id], k, value))
            || (exists r :: PaidBy(s.engine, s.orders[id], id, r, value)))
  {
    var s := Run(Start, es);
    RunKeepsEngine(es);
    var o := s.orders[id];
    assert Authorised(s.engine, o, id);
    var k: nat :| Admits(s.engine.passes, k, o.issued.value.gate, id, o.issued.value.caller, SubtotalZMW(o));
    var fs :| s.engine == Approvals.Run(Approvals.Empty, fs);
    ApprovalTheorems.ReachableInv(fs);
    assert ApprovalSafety.PassOk(s.engine, s.engine.passes[k]);
    ValueExactly(o, SubtotalZMW(o));
    if s.engine.passes[k].Free? {
      ApprovalTheorems.HighestFloorGoverns(s.engine.passes[k].rules, IssueAction, SubtotalZMW(o));
      assert Ungated(s.engine, o, k, SubtotalZMW(o));
    } else {
      var r := s.engine.passes[k].id;
      ApprovalTheorems.ApprovedIsSignedOff(fs, r);
      assert PaidBy(s.engine, o, id, r, SubtotalZMW(o));
    }
  }

  // --- Numbers ---------------------------------------------------------------------------------

  ghost predicate Bears(orders: seq<PurchaseOrder>, i: OrderId, year: nat, serial: nat) {
    i < |orders| && orders[i].number == Some(Number(year, serial))
  }

  ghost predicate NumbersOk(orders: seq<PurchaseOrder>) {
    (forall i, year: nat, serial: nat :: Bears(orders, i, year, serial) ==> 1 <= serial <= CountYear(orders, year))
    && (forall i, j, year, serial :: Bears(orders, i, year, serial) && Bears(orders, j, year, serial) ==> i == j)
  }

  lemma {:induction false} CountSame(a: seq<PurchaseOrder>, b: seq<PurchaseOrder>, year: nat)
    requires |a| == |b| && forall i :: 0 <= i < |a| ==> a[i].number == b[i].number
    ensures CountYear(a, year) == CountYear(b, year)
  {
    if a != [] { CountSame(a[..|a| - 1], b[..|b| - 1], year); }
  }

  lemma {:induction false} CountNumbered(orders: seq<PurchaseOrder>, id: OrderId, o: PurchaseOrder, year: nat)
    requires id < |orders| && orders[id].number.None? && o.number.Some?
    ensures CountYear(orders[id := o], year) ==
      CountYear(orders, year) + (if o.number.value.year == year then 1 else 0)
  {
    var n := |orders| - 1;
    if id == n {
      assert orders[id := o][..n] == orders[..n];
    } else {
      CountNumbered(orders[..n], id, o, year);
      assert orders[id := o][..n] == orders[..n][id := o];
    }
  }

  lemma SameNumbersOk(a: seq<PurchaseOrder>, b: seq<PurchaseOrder>)
    requires NumbersOk(a) && |a| <= |b|
    requires forall i :: 0 <= i < |b| ==> b[i].number == if i < |a| then a[i].number else None
    ensures NumbersOk(b)
  {
    forall year: nat ensures CountYear(a, year) == CountYear(b, year) { CountExtended(a, b, year); }
    forall i, year, serial | Bears(b, i, year, serial) ensures Bears(a, i, year, serial) {}
  }

  lemma {:induction false} CountExtended(a: seq<PurchaseOrder>, b: seq<PurchaseOrder>, year: nat)
    requires |a| <= |b|
    requires forall i :: 0 <= i < |b| ==> b[i].number == if i < |a| then a[i].number else None
    ensures CountYear(a, year) == CountYear(b, year)
    decreases |b|
  {
    if |a| == |b| {
      CountSame(a, b, year);
    } else {
      CountExtended(a, b[..|b| - 1], year);
    }
  }

  lemma AdmitKeepsNumbers(s: State, id: OrderId, gate: Approvals.FlightId, caller: Option<Approvals.UserId>, year: nat)
    requires NumbersOk(s.orders) && id < |s.orders|
    ensures NumbersOk(Admit(s, id, gate, caller, year).orders)
  {
    var before, after := s.orders, Admit(s, id, gate, caller, year).orders;
    if before[id].number.Some? {
      SameNumbersOk(before, after);
    } else {
      forall y: nat ensures CountYear(after, y) == CountYear(before, y) + (if y == year then 1 else 0) {
        CountNumbered(before, id, after[id], y);
      }
      forall i, y, serial | Bears(after, i, y, serial) && i != id ensures Bears(before, i, y, serial) {}
    }
  }

  lemma ApplyKeepsNumbers(s: State, e: Event)
    requires Inv(s) && NumbersOk(s.orders)
    ensures NumbersOk(Apply(s, e).orders)
  {
    if e.IssueOrder? && e.id < |s.orders| && Apply(s, e).orders[e.id].issued != s.orders[e.id].issued {
      IssueShape(s, e.id, e.gate, e.caller, e.year);
      AdmitKeepsNumbers(AfterGate(s, e.id, e.gate, e.caller), e.id, e.gate, e.caller, e.year);
    } else {
      NumbersUnchanged(s, e);
      SameNumbersOk(s.orders, Apply(s, e).orders);
    }
  }

  lemma NumbersUnchanged(s: State, e: Event)
    requires Inv(s)
    requires !(e.IssueOrder? && e.id < |s.orders| && Apply(s, e).orders[e.id].issued != s.orders[e.id].issued)
    ensures |s.orders| <= |Apply(s, e).orders|
    ensures forall i :: 0 <= i < |Apply(s, e).orders| ==>
      Apply(s, e).orders[i].number == if i < |s.orders| then s.orders[i].number else None
  {
    if e.IssueOrder? {
      if e.id < |s.orders| {
        assert OrderOk(s.orders[e.id]);
        IssueShape(s, e.id, e.gate, e.caller, e.year);
      }
    } else {
      OtherNumbers(s, e);
    }
  }

  lemma OtherNumbers(s: State, e: Event)
    requires !e.IssueOrder?
    ensures |s.orders| <= |Apply(s, e).orders|
    ensures forall i :: 0 <= i < |Apply(s, e).orders| ==>
      Apply(s, e).orders[i].number == if i < |s.orders| then s.orders[i].number else None
  {}

  lemma {:induction false} RunKeepsNumbers(es: seq<Event>)
    ensures NumbersOk(Run(Start, es).orders)
  {
    if es != [] {
      RunKeepsNumbers(es[..|es| - 1]);
      ReachableInv(es[..|es| - 1]);
      ApplyKeepsNumbers(Run(Start, es[..|es| - 1]), es[|es| - 1]);
    }
  }

  /** The serials issued in a year. */
  ghost function Serials(orders: seq<PurchaseOrder>, year: nat): set<int> {
    if orders == [] then {}
    else
      var o := orders[|orders| - 1];
      Serials(orders[..|orders| - 1], year)
      + (if o.number.Some? && o.number.value.year == year then {o.number.value.serial as int} else {})
  }

  lemma {:induction false} SerialsExactly(orders: seq<PurchaseOrder>, year: nat, serial: nat)
    ensures serial in Serials(orders, year) <==> exists i :: Bears(orders, i, year, serial)
  {
    if orders != [] {
      var n := |orders| - 1;
      SerialsExactly(orders[..n], year, serial);
      if i: nat :| Bears(orders[..n], i, year, serial) { assert Bears(orders, i, year, serial); }
      if i: nat :| Bears(orders, i, year, serial) { assert i == n || Bears(orders[..n], i, year, serial); }
      if serial in Serials(orders, year) && serial !in Serials(orders[..n], year) { assert Bears(orders, n, year, serial); }
    }
  }

  lemma {:induction false} SerialsCount(orders: seq<PurchaseOrder>, year: nat)
    requires forall i, j, y, serial :: Bears(orders, i, y, serial) && Bears(orders, j, y, serial) ==> i == j
    ensures |Serials(orders, year)| == CountYear(orders, year)
    ensures forall x :: x in Serials(orders, year) ==> 0 <= x
  {
    if orders != [] {
      var n := |orders| - 1;
      forall i, j, y, serial | Bears(orders[..n], i, y, serial) && Bears(orders[..n], j, y, serial) ensures i == j {
        assert Bears(orders, i, y, serial) && Bears(orders, j, y, serial);
      }
      SerialsCount(orders[..n], year);
      var o := orders[n];
      if o.number.Some? && o.number.value.year == year {
        SerialsExactly(orders[..n], year, o.number.value.serial);
        if i: nat :| Bears(orders[..n], i, year, o.number.value.serial) {
          assert Bears(orders, i, year, o.number.value.serial) && Bears(orders, n, year, o.number.value.serial);
        }
      }
    }
  }

  /** Some order carries the number. */
  ghost predicate InUse(orders: seq<PurchaseOrder>, year: nat, serial: nat) {
    exists i :: Bears(orders, i, year, serial)
  }

  lemma SerialsUnbroken(orders: seq<PurchaseOrder>, year: nat, serial: nat)
    requires NumbersOk(orders)
    ensures InUse(orders, year, serial) <==> 1 <= serial <= CountYear(orders, year)
  {
    var n := CountYear(orders, year);
    SerialsCount(orders, year);
    var all := Indices(n + 1) - {0};
    forall x | x in Serials(orders, year) ensures x in all {
      SerialsExactly(orders, year, x);
      var i :| Bears(orders, i, year, x);
    }
    SubsetSize(Serials(orders, year), all);
    SerialsExactly(orders, year, serial);
  }

  /** The numbers issued in a year are exactly 1 to n, each on one order: no gap and no repeat. */
  lemma NumbersUnbroken(es: seq<Event>, year: nat)
    ensures var orders := Run(Start, es).orders;
      (forall serial: nat :: InUse(orders, year, serial) <==> 1 <= serial <= CountYear(orders, year))
      && (forall i, j, serial :: Bears(orders, i, year, serial) && Bears(orders, j, year, serial) ==> i == j)
      && (forall i :: 0 <= i < |orders| ==> (orders[i].number.Some? <==> orders[i].issued.Some?))
  {
    var orders := Run(Start, es).orders;
    RunKeepsNumbers(es);
    ReachableInv(es);
    assert forall i :: 0 <= i < |orders| ==> OrderOk(orders[i]);
    forall serial: nat ensures InUse(orders, year, serial) <==> 1 <= serial <= CountYear(orders, year) {
      SerialsUnbroken(orders, year, serial);
    }
  }

  // --- Received against ordered ------------------------------------------------------------------

  /** No more has come in than was ordered. */
  ghost predicate Within(o: PurchaseOrder, receipts: seq<GoodsReceipt>, id: OrderId) {
    forall i :: 0 <= i < |o.lines| ==> Received(receipts, id, i) <= o.lines[i].quantity
  }

  /** What the arrivals on one delivery note add up to on an order line. */
  function Arriving(arrivals: seq<Arrival>, line: nat): int {
    if arrivals == [] then 0
    else
      var a := arrivals[|arrivals| - 1];
      Arriving(arrivals[..|arrivals| - 1], line) + (if a.line == line then a.quantity else 0)
  }

  lemma {:induction false} ArrivingIsQuantity(arrivals: seq<Arrival>, lines: seq<ReceiptLine>, line: nat)
    requires |lines| == |arrivals|
    requires forall i :: 0 <= i < |lines| ==> lines[i].line == arrivals[i].line && lines[i].quantity == arrivals[i].quantity
    ensures LineQuantity(lines, line) == Arriving(arrivals, line)
  {
    if lines != [] { ArrivingIsQuantity(arrivals[..|arrivals| - 1], lines[..|lines| - 1], line); }
  }

  lemma ArrivalsAdd(s: State, id: OrderId, d: ReceiptDraft, line: nat)
    requires Inv(s) && DoReceive(s, id, d).1 == Done
    ensures Received(DoReceive(s, id, d).0.receipts, id, line) == Received(s.receipts, id, line) + Arriving(d.arrivals, line)
  {
    ReceivePosts(s, id, d);
    var o, r := s.orders[id], Uncosted(s.orders[id], id, d);
    var p := PostedBy(s, id, d).value;
    PurchaseCosting.MoreCharges(o, s.receipts, id, d, []);
    PurchaseCosting.PostedGoods(s.products, s.ledger, o.lines, r.rate, r.lines, ChargeShares(o.lines, r).value);
    ReceivedSnoc(s.receipts, r.(lines := p.lines), id, line);
    ArrivingIsQuantity(d.arrivals, p.lines, line);
  }

  /**
   Each arrival is checked alone against what was outstanding before the delivery. So a recorded
   delivery keeps received within ordered exactly when its arrivals, added up per line, fit.
   */
  lemma WithinExactly(es: seq<Event>, id: OrderId, d: ReceiptDraft)
    requires DoReceive(Run(Start, es), id, d).1 == Done
    ensures var s := Run(Start, es);
      id < |s.orders|
      && (Within(s.orders[id], DoReceive(s, id, d).0.receipts, id) <==>
        forall i :: 0 <= i < |s.orders[id].lines| ==>
          Arriving(d.arrivals, i) <= s.orders[id].lines[i].quantity - Received(s.receipts, id, i))
  {
    var s := Run(Start, es);
    ReachableInv(es);
    forall line: nat ensures Received(DoReceive(s, id, d).0.receipts, id, line)
                          == Received(s.receipts, id, line) + Arriving(d.arrivals, line)
    {
      ArrivalsAdd(s, id, d, line);
    }
  }

  /** The delivery note names each order line at most once. */
  ghost predicate NamesOnce(arrivals: seq<Arrival>) {
    forall i, j :: 0 <= i < j < |arrivals| ==> arrivals[i].line != arrivals[j].line
  }

  lemma {:induction false} ArrivingOnce(arrivals: seq<Arrival>, line: nat)
    requires NamesOnce(arrivals)
    ensures Arriving(arrivals, line) == 0
      || exists i :: 0 <= i < |arrivals| && arrivals[i].line == line && Arriving(arrivals, line) == arrivals[i].quantity
  {
    if arrivals != [] {
      var n := |arrivals| - 1;
      ArrivingOnce(arrivals[..n], line);
      if arrivals[n].line == line {
        assert forall i :: 0 <= i < n ==> arrivals[..n][i].line != line;
        assert arrivals[n].line == line && Arriving(arrivals, line) == arrivals[n].quantity;
      } else if i :| 0 <= i < n && arrivals[..n][i].line == line && Arriving(arrivals[..n], line) == arrivals[..n][i].quantity {
        assert arrivals[i].line == line && Arriving(arrivals, line) == arrivals[i].quantity;
      }
    }
  }

  /** Deliveries that name each line once fit, so they keep received within ordered. */
  lemma OnceFits(s: State, id: OrderId, d: ReceiptDraft, line: nat)
    requires Inv(s) && DoReceive(s, id, d).1 == Done && NamesOnce(d.arrivals) && line < |s.orders[id].lines|
    requires Received(s.receipts, id, line) <= s.orders[id].lines[line].quantity
    ensures Received(DoReceive(s, id, d).0.receipts, id, line) <= s.orders[id].lines[line].quantity
  {
    ArrivalsAdd(s, id, d, line);
    ArrivingOnce(d.arrivals, line);
    if i :| 0 <= i < |d.arrivals| && d.arrivals[i].line == line && Arriving(d.arrivals, line) == d.arrivals[i].quantity {
      assert ArrivalOk(s.orders[id], s.receipts, id, d.arrivals[i]);
    }
  }

  ghost predicate AllWithin(s: State) {
    forall id :: 0 <= id < |s.orders| ==> Within(s.orders[id], s.receipts, id)
  }

  lemma ReceiveKeepsWithin(s: State, id: OrderId, d: ReceiptDraft)
    requires Inv(s) && AllWithin(s) && DoReceive(s, id, d).1 == Done && NamesOnce(d.arrivals)
    ensures AllWithin(DoReceive(s, id, d).0)
  {
    var s' := DoReceive(s, id, d).0;
    forall k, line | 0 <= k < |s'.orders| && 0 <= line < |s'.orders[k].lines|
      ensures Received(s'.receipts, k, line) <= s'.orders[k].lines[line].quantity
    {
      assert Within(s.orders[k], s.receipts, k);
      if k == id {
        OnceFits(s, id, d, line);
      } else {
        ReceivedSnoc(s.receipts, s'.receipts[|s.receipts|], k, line);
      }
    }
  }

  lemma NewLinesWithin(s: State, id: OrderId, o: PurchaseOrder)
    requires Inv(s) && NoReceipts(s.receipts, id) && LinesOk(o.lines)
    ensures Within(o, s.receipts, id)
  {
    forall line: nat ensures Received(s.receipts, id, line) == 0 { ReceivedNone(s.receipts, id, line); }
  }

  lemma ChargeKeepsWithin(s: State, id: ReceiptId, c: Component)
    requires AllWithin(s)
    ensures AllWithin(DoCharge(s, id, c).0)
  {
    var s' := DoCharge(s, id, c).0;
    ChargeSameDeliveries(s, id, c);
    forall k | 0 <= k < |s'.orders| ensures Within(s'.orders[k], s'.receipts, k) {
      assert Within(s.orders[k], s.receipts, k);
      forall line: nat ensures Received(s.receipts, k, line) == Received(s'.receipts, k, line) {
        ReceivedSame(s.receipts, s'.receipts, k, line);
      }
    }
  }

  lemma ApplyKeepsWithin(s: State, e: Event)
    requires Inv(s) && AllWithin(s) && (e.ReceiveGoods? ==> NamesOnce(e.arrival.arrivals))
    ensures AllWithin(Apply(s, e))
  {
    ApplyKeepsInv(s, e);
    var s' := Apply(s, e);
    if e.ReceiveGoods? {
      if DoReceive(s, e.id, e.arrival).1 == Done { ReceiveKeepsWithin(s, e.id, e.arrival); }
    } else if e.AddCharge? {
      ChargeKeepsWithin(s, e.receipt, e.charge);
    } else {
      SameReceipts(s, e);
      forall k | 0 <= k < |s'.orders| ensures Within(s'.orders[k], s'.receipts, k) {
        assert OrderOk(s'.orders[k]);
        if NoReceipts(s.receipts, k) {
          NewLinesWithin(s', k, s'.orders[k]);
        } else {
          LinesStay(s, e, k);
          assert Within(s.orders[k], s.receipts, k);
        }
      }
    }
  }

  lemma SameReceipts(s: State, e: Event)
    requires !e.ReceiveGoods? && !e.AddCharge?
    ensures Apply(s, e).receipts == s.receipts
  {}

  /** Only an order nothing has come in on can change its lines. */
  lemma LinesStay(s: State, e: Event, k: OrderId)
    requires Inv(s) && !e.ReceiveGoods? && !e.AddCharge? && !NoReceipts(s.receipts, k)
    ensures k < |s.orders| && k < |Apply(s, e).orders| && Apply(s, e).orders[k].lines == s.orders[k].lines
  {
    assert forall r :: 0 <= r < |s.receipts| ==> ReceiptOk(s.orders, s.ledger, s.receipts[r]);
    assert OrderOk(s.orders[k]) && StatusOk(s.orders[k], s.receipts, k);
    StepFrozen(s, e, k);
  }

  /** In a run whose delivery notes name each line once, no line ever receives more than was ordered. */
  lemma {:induction false} ReceivedWithinOrdered(es: seq<Event>)
    requires forall i :: 0 <= i < |es| && es[i].ReceiveGoods? ==> NamesOnce(es[i].arrival.arrivals)
    ensures AllWithin(Run(Start, es))
  {
    if es != [] {
      var n := |es| - 1;
      forall i | 0 <= i < n && es[..n][i].ReceiveGoods? ensures NamesOnce(es[..n][i].arrival.arrivals) {
        assert es[..n][i] == es[i];
      }
      ReceivedWithinOrdered(es[..n]);
      ReachableInv(es[..n]);
      assert es[n].ReceiveGoods? ==> NamesOnce(es[n].arrival.arrivals);
      ApplyKeepsWithin(Run(Start, es[..n]), es[n]);
    }
  }

  /** Exactly which deliveries are recorded. */
  lemma DeliveryAcceptedExactly(es: seq<Event>, id: OrderId, d: ReceiptDraft)
    requires id < |Run(Start, es).orders|
    ensures var s := Run(Start, es);
      var o, r := s.orders[id], Uncosted(s.orders[id], id, d);
      var total := ToNgwee(TotalComponents(r.components));
      DoReceive(s, id, d).1 == Done <==>
        (o.status == Issued || o.status == PartlyReceived) && ReceiptDraftOk(o, s.receipts, id, d) && 0 <= total
        && (total == 0 || forall l :: l in BasisLines(o.lines, r.rate, r.lines) ==> 0 <= WeightOn(r.basis, l))
        && (forall i :: 0 <= i < |d.arrivals| && o.lines[d.arrivals[i].line].product.Some? ==>
          o.lines[d.arrivals[i].line].product.value in s.products)
  {
    ReachableInv(es);
    AcceptedExactly(Run(Start, es), id, d);
  }

  lemma AcceptedExactly(s: State, id: OrderId, d: ReceiptDraft)
    requires Inv(s) && id < |s.orders|
    ensures var o, r := s.orders[id], Uncosted(s.orders[id], id, d);
      var total := ToNgwee(TotalComponents(r.components));
      DoReceive(s, id, d).1 == Done <==>
        (o.status == Issued || o.status == PartlyReceived) && ReceiptDraftOk(o, s.receipts, id, d) && 0 <= total
        && (total == 0 || forall l :: l in BasisLines(o.lines, r.rate, r.lines) ==> 0 <= WeightOn(r.basis, l))
        && (forall i :: 0 <= i < |d.arrivals| && o.lines[d.arrivals[i].line].product.Some? ==>
          o.lines[d.arrivals[i].line].product.value in s.products)
  {
    var o, r := s.orders[id], Uncosted(s.orders[id], id, d);
    ReceivePosts(s, id, d);
    if ReceiptDraftOk(o, s.receipts, id, d) {
      PurchaseCosting.MoreCharges(o, s.receipts, id, d, []);
      ReceiptCostable(r.basis, TotalComponents(r.components), BasisLines(o.lines, r.rate, r.lines));
      assert forall i :: 0 <= i < |d.arrivals| ==> ArrivalOk(o, s.receipts, id, d.arrivals[i]);
      assert forall i :: 0 <= i < |d.arrivals| ==> LineAt(o.lines, r.lines[i].line) == o.lines[d.arrivals[i].line];
      if ChargeShares(o.lines, r).Ok? {
        PostExactly(s.products, s.ledger, o.lines, r.rate, r.lines, ChargeShares(o.lines, r).value);
      }
    }
  }

  const OneUnit := OrderDraft("Supplier", "ZMW", 1.0, [LineDraft(None, "Transformer", 1, 1.0)])

  const SameLineTwice := ReceiptDraft(0.0, "", [Arrival(0, 1, 0.0), Arrival(0, 1, 0.0)], [])

  /** An order for one unit, issued while there are no rules. */
  lemma OneUnitIssued()
    ensures var s := Run(Start, [Create(OneUnit), IssueOrder(0, 0, None, 2024)]);
      |s.orders| == 1 && s.orders[0].status == Issued && s.orders[0].rate == 1.0
      && s.orders[0].lines == [OrderLine(None, 1, 1.0)] && s.receipts == []
  {
    var es := [Create(OneUnit), IssueOrder(0, 0, None, 2024)];
    assert es[..1] == [Create(OneUnit)] && es[..1][..0] == [];
    assert !Space("Supplier"[0]) && !Space("ZMW"[0]) && !Space("Transformer"[0]);
    var s := Apply(Start, Create(OneUnit));
    assert Run(Start, es[..1]) == s;
    assert LinesOf(OneUnit) == [OrderLine(None, 1, 1.0)];
    var amount := SubtotalZMW(s.orders[0]);
    assert Approvals.MatchRule(s.engine.rules, IssueAction, amount) == None;
    ApprovalHandlers.GateServed(s.engine, 0, IssueAction, 0, None, amount);
    assert Run(Start, es) == Apply(s, es[1]);
  }

  /**
   A delivery note that names a line twice gets past the check: one unit ordered, two received.
   Received within ordered holds of the runs described above and not of all.
   */
  lemma SameLineTwiceOverReceives()
    ensures var s := Run(Start, [Create(OneUnit), IssueOrder(0, 0, None, 2024), ReceiveGoods(0, SameLineTwice)]);
      |s.orders| == 1 && s.orders[0].lines == [OrderLine(None, 1, 1.0)] && Received(s.receipts, 0, 0) == 2
  {
    var es := [Create(OneUnit), IssueOrder(0, 0, None, 2024)];
    var all := [Create(OneUnit), IssueOrder(0, 0, None, 2024), ReceiveGoods(0, SameLineTwice)];
    assert all[..2] == es && Run(Start, all) == Apply(Run(Start, es), all[2]);
    OneUnitIssued();
    ReachableInv(es);
    TwiceReceived(Run(Start, es));
  }

  lemma TwiceReceived(s: State)
    requires Inv(s) && |s.orders| == 1 && s.orders[0].status == Issued && s.orders[0].rate == 1.0
    requires s.orders[0].lines == [OrderLine(None, 1, 1.0)] && s.receipts == []
    ensures var s' := DoReceive(s, 0, SameLineTwice).0;
      |s'.orders| == 1 && s'.orders[0].lines == s.orders[0].lines && Received(s'.receipts, 0, 0) == 2
  {
    var r := Uncosted(s.orders[0], 0, SameLineTwice);
    assert AmountsZMW(r.components) == [];
    assert ReceiptDraftOk(s.orders[0], s.receipts, 0, SameLineTwice);
    AcceptedExactly(s, 0, SameLineTwice);
    ArrivalsAdd(s, 0, SameLineTwice, 0);
    var arrivals := SameLineTwice.arrivals;
    assert arrivals[..1] == [Arrival(0, 1, 0.0)] && arrivals[..1][..0] == [];
    assert Arriving(arrivals[..1], 0) == 1;
  }
}
