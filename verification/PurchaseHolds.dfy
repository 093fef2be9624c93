/** An order the gate has held up can always point at the request that holds it. */
module PurchaseHolds {
  import opened Common
  import opened Purchasing
  import opened PurchaseSafety
  import opened PurchaseTheorems
  import Approvals
  import ApprovalSafety
  import ApprovalTheorems
  import ApprovalHandlers

  /** Request r asks for leave to issue order id. */
  ghost predicate AsksFor(requests: seq<Approvals.Request>, r: Approvals.Id, id: OrderId) {
    r < |requests| && requests[r].key.action == IssueAction && requests[r].key.entity == id
  }

  /** ... and has been rejected. */
  ghost predicate DeniedFor(requests: seq<Approvals.Request>, r: Approvals.Id, id: OrderId) {
    AsksFor(requests, r, id) && requests[r].status == Approvals.Rejected
  }

  ghost predicate Explained(engine: Approvals.Sys, status: OrderStatus, id: OrderId) {
    (status == Refused ==> exists r :: DeniedFor(engine.requests, r, id))
    && (status == PendingApproval ==> exists r :: AsksFor(engine.requests, r, id))
  }

  ghost predicate AllExplained(s: State) {
    ApprovalHandlers.Reachable(s.engine)
    && forall id :: 0 <= id < |s.orders| ==> Explained(s.engine, s.orders[id].status, id)
  }

  /** Requests keep their subject, and a rejection is final. */
  lemma ExplainedStays(a: Approvals.Sys, b: Approvals.Sys, status: OrderStatus, id: OrderId)
    requires ApprovalSafety.Grows(a.requests, a.decisions, b.requests, b.decisions) && Explained(a, status, id)
    ensures Explained(b, status, id)
  {
    if status == Refused {
      var r :| DeniedFor(a.requests, r, id);
      assert DeniedFor(b.requests, r, id);
    }
    if status == PendingApproval {
      var r :| AsksFor(a.requests, r, id);
      assert AsksFor(b.requests, r, id);
    }
  }

  // --- What a blocking gate call answers with ---------------------------------------------

  lemma BlockStep(t: Approvals.Sys, f: Approvals.FlightId, entity: nat, caller: Option<Approvals.UserId>, amount: real)
    requires f in t.flights && GateOn(t.flights[f], entity, caller, amount)
    ensures var u := Approvals.Advance(t, f);
      f !in u.flights ==>
        (f in u.results && (u.results[f].BlockedBy? ==> AsksFor(u.requests, u.results[f].request, entity)))
  {}

  /** A request that blocks an issue is one for the issue of that order. */
  lemma {:induction false} BlockEnds(t: Approvals.Sys, f: Approvals.FlightId, entity: nat,
                                     caller: Option<Approvals.UserId>, amount: real, n: nat)
    requires f in t.flights && GateOn(t.flights[f], entity, caller, amount) && StepsLeft(t.flights[f]) <= n
    ensures var u := ApprovalHandlers.Drive(t, f, n);
      f in u.results && (u.results[f].BlockedBy? ==> AsksFor(u.requests, u.results[f].request, entity))
    decreases n
  {
    GateStep(t, f, entity, caller, amount);
    BlockStep(t, f, entity, caller, amount);
    var u := Approvals.Advance(t, f);
    if f in u.flights {
      BlockEnds(u, f, entity, caller, amount, n - 1);
    } else {
      assert ApprovalHandlers.Drive(u, f, n - 1) == u;
    }
  }

  lemma HeldByOwnRequest(s: State, id: OrderId, gate: Approvals.FlightId, caller: Option<Approvals.UserId>)
    requires id < |s.orders| && Fresh(s.engine, gate)
    ensures var engine := AfterGate(s, id, gate, caller).engine;
      Answer(engine, gate).BlockedBy? ==> AsksFor(engine.requests, Answer(engine, gate).request, id)
  {
    var t := Approvals.Apply(s.engine, Approvals.Start(gate, GateCall(s.orders[id], id, caller)));
    BlockEnds(t, gate, id, caller, SubtotalZMW(s.orders[id]), ApprovalHandlers.Longest);
  }

  // --- Every run -------------------------------------------------------------------------------

  lemma EngineGrows(engine: Approvals.Sys, es: seq<Approvals.Event>)
    requires ApprovalHandlers.Reachable(engine)
    ensures var after := Approvals.Run(engine, es);
      ApprovalSafety.Grows(engine.requests, engine.decisions, after.requests, after.decisions)
  {
    var fs :| engine == Approvals.Run(Approvals.Empty, fs);
    ApprovalTheorems.ReachableInv(fs);
    ApprovalTheorems.DemandsNeverChange(engine, es);
  }

  lemma GateKeepsExplained(s: State, id: OrderId, gate: Approvals.FlightId, caller: Option<Approvals.UserId>)
    requires AllExplained(s) && id < |s.orders|
    ensures AllExplained(AfterGate(s, id, gate, caller))
  {
    var call := GateCall(s.orders[id], id, caller);
    ApprovalHandlers.ServeIsRun(s.engine, gate, call);
    EngineGrows(s.engine, ApprovalHandlers.Script(gate, call, ApprovalHandlers.Longest));
    var engine := AfterGate(s, id, gate, caller).engine;
    forall k | 0 <= k < |s.orders| ensures Explained(engine, s.orders[k].status, k) {
      ExplainedStays(s.engine, engine, s.orders[k].status, k);
    }
  }

  lemma SettledKeepsExplained(s: State, id: OrderId, gate: Approvals.FlightId, caller: Option<Approvals.UserId>,
                              year: nat, answer: Approvals.Outcome)
    requires AllExplained(s) && id < |s.orders|
    requires answer.BlockedBy? ==> AsksFor(s.engine.requests, answer.request, id)
    ensures AllExplained(Settled(s, id, gate, caller, year, answer).0)
  {
    var s' := Settled(s, id, gate, caller, year, answer).0;
    assert answer.BlockedBy? && s.engine.requests[answer.request].status == Approvals.Rejected ==>
      DeniedFor(s.engine.requests, answer.request, id);
    forall k | 0 <= k < |s'.orders| ensures Explained(s'.engine, s'.orders[k].status, k) {
      assert Explained(s.engine, s.orders[k].status, k);
    }
  }

  lemma IssueKeepsExplained(s: State, id: OrderId, gate: Approvals.FlightId, caller: Option<Approvals.UserId>,
                            year: nat)
    requires AllExplained(s) && Fresh(s.engine, gate)
    ensures AllExplained(DoIssue(s, id, gate, caller, year).0)
  {
    if id < |s.orders| && Issuable(s.orders[id].status) && s.orders[id].lines != [] {
      var s' := AfterGate(s, id, gate, caller);
      GateKeepsExplained(s, id, gate, caller);
      HeldByOwnRequest(s, id, gate, caller);
      SettledKeepsExplained(s', id, gate, caller, year, Answer(s'.engine, gate));
    }
  }

  lemma EngineKeepsExplained(s: State, e: Approvals.Event)
    requires AllExplained(s)
    ensures AllExplained(Apply(s, Engine(e)))
  {
    ApprovalHandlers.ReachableApply(s.engine, e);
    EngineGrows(s.engine, [e]);
    ApprovalHandlers.RunSnoc(s.engine, [], e);
    assert [] + [e] == [e] && Approvals.Run(s.engine, []) == s.engine;
    forall k | 0 <= k < |s.orders| ensures Explained(Approvals.Apply(s.engine, e), s.orders[k].status, k) {
      ExplainedStays(s.engine, Approvals.Apply(s.engine, e), s.orders[k].status, k);
    }
  }

  /** No other step touches the engine, or moves an order into a held status. */
  lemma OtherStep(s: State, e: Event, k: OrderId)
    requires !e.IssueOrder? && !e.Engine? && k < |Apply(s, e).orders|
    ensures Apply(s, e).engine == s.engine
    ensures var status := Apply(s, e).orders[k].status;
      (k < |s.orders| && status == s.orders[k].status) || (status != Refused && status != PendingApproval)
  {}

  lemma OthersKeepExplained(s: State, e: Event)
    requires AllExplained(s) && !e.IssueOrder? && !e.Engine?
    ensures AllExplained(Apply(s, e))
  {
    NothingElse(s, e);
    forall k | 0 <= k < |Apply(s, e).orders| ensures Explained(s.engine, Apply(s, e).orders[k].status, k) {
      OtherStep(s, e, k);
    }
  }

  lemma NothingElse(s: State, e: Event)
    requires !e.IssueOrder? && !e.Engine?
    ensures Apply(s, e).engine == s.engine
  {}

  lemma {:induction false} RunExplained(es: seq<Event>)
    ensures AllExplained(Run(Start, es))
  {
    if es == [] {
      assert Approvals.Run(Approvals.Empty, []) == Approvals.Empty;
    } else {
      var s, e := Run(Start, es[..|es| - 1]), es[|es| - 1];
      RunExplained(es[..|es| - 1]);
      if e.IssueOrder? {
        if Fresh(s.engine, e.gate) { IssueKeepsExplained(s, e.id, e.gate, e.caller, e.year); }
      } else if e.Engine? {
        EngineKeepsExplained(s, e.e);
      } else {
        OthersKeepExplained(s, e);
      }
    }
  }

  /**
   A rejected order has a rejected request for its issue on record, with the reason somebody gave;
   an order pending approval has a request for its issue.
   */
  lemma HeldOrdersExplained(es: seq<Event>, id: OrderId)
    requires id < |Run(Start, es).orders|
    ensures var s := Run(Start, es);
      (s.orders[id].status == PendingApproval ==> exists r :: AsksFor(s.engine.requests, r, id))
      && (s.orders[id].status == Refused ==>
        exists r: nat :: DeniedFor(s.engine.requests, r, id) && ApprovalSafety.HasReject(s.engine.decisions, r))
  {
    var s := Run(Start, es);
    RunExplained(es);
    assert Explained(s.engine, s.orders[id].status, id);
    if s.orders[id].status == Refused {
      var r: nat :| DeniedFor(s.engine.requests, r, id);
      var fs :| s.engine == Approvals.Run(Approvals.Empty, fs);
      ApprovalTheorems.ReachableInv(fs);
      assert ApprovalSafety.Backed(s.engine.requests[r], s.engine.decisions, r);
    }
  }
}
