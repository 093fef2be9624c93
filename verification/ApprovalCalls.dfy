/**
 What whole approval calls do, row by row and in the fields of the tables: which rule governs, what
 a new request demands, when an approval is spent, and what a vote settles. Over runs: every request
 on record was raised with what a rule that governed it demanded at the time.
 */
module ApprovalCalls {
  import opened Common
  import opened Approvals
  import opened ApprovalSafety
  import opened ApprovalTheorems
  import opened ApprovalHandlers

  // --- Where a request's demands come from -----------------------------------------------------

  /** What was read of a rule that governed the action at that moment. */
  ghost predicate ReadOf(rules: seq<Rule>, action: string, amount: real, m: Matched) {
    m.id < |rules| && Governs(rules, action, amount, |rules|, m.id)
    && m.required == rules[m.id].required && m.approverRole == rules[m.id].approverRole
  }

  /** Such a reading was there to be made at some point of the run. */
  ghost predicate Seen(es: seq<Event>, action: string, amount: real, m: Matched) {
    exists k :: 0 <= k <= |es| && ReadOf(Run(Empty, es[..k]).rules, action, amount, m)
  }

  lemma SeenLater(es: seq<Event>, e: Event, action: string, amount: real, m: Matched)
    requires Seen(es, action, amount, m)
    ensures Seen(es + [e], action, amount, m)
  {
    var k :| 0 <= k <= |es| && ReadOf(Run(Empty, es[..k]).rules, action, amount, m);
    assert (es + [e])[..k] == es[..k];
  }

  lemma MatchSeen(es: seq<Event>, action: string, amount: real)
    ensures var rules := Run(Empty, es).rules; var b := MatchRule(rules, action, amount);
      b.Some? ==> Seen(es, action, amount, Read(rules, b.value))
  {
    HighestFloorGoverns(Run(Empty, es).rules, action, amount);
    assert es[..|es|] == es;
  }

  /** A handler that carries a reading of a rule made it in this run. */
  ghost predicate Informed(es: seq<Event>, fl: Flight) {
    match fl
    case GateFind(key, amount, rule) => Seen(es, key.action, amount, rule)
    case GateSpend(key, amount, rule, _) => Seen(es, key.action, amount, rule)
    case GateRaise(key, amount, rule) => Seen(es, key.action, amount, rule)
    case ResubmitRaise(_, key, amount, rule) => Seen(es, key.action, amount, rule)
    case _ => true
  }

  /** The request demands what the reading said, one vote at the least. */
  ghost predicate RaisedUnder(r: Request, m: Matched) {
    r.rule == m.id && r.approverRole == m.approverRole && r.required == if m.required < 1 then 1 else m.required
  }

  ghost predicate Founded(es: seq<Event>, r: Request) {
    exists m :: RaisedUnder(r, m) && Seen(es, r.key.action, r.amount, m)
  }

  ghost predicate AllFounded(es: seq<Event>, s: Sys) {
    (forall f :: f in s.flights ==> Informed(es, s.flights[f]))
    && (forall id :: 0 <= id < |s.requests| ==> Founded(es, s.requests[id]))
  }

  lemma InformedLater(es: seq<Event>, e: Event, fl: Flight)
    requires Informed(es, fl)
    ensures Informed(es + [e], fl)
  {
    match fl
    case GateFind(key, amount, rule) => SeenLater(es, e, key.action, amount, rule);
    case GateSpend(key, amount, rule, _) => SeenLater(es, e, key.action, amount, rule);
    case GateRaise(key, amount, rule) => SeenLater(es, e, key.action, amount, rule);
    case ResubmitRaise(_, key, amount, rule) => SeenLater(es, e, key.action, amount, rule);
    case _ =>
  }

  lemma FoundedLater(es: seq<Event>, e: Event, r: Request, r': Request)
    requires Founded(es, r) && r'.key == r.key && r'.amount == r.amount && r'.required == r.required
    requires r'.approverRole == r.approverRole && r'.rule == r.rule
    ensures Founded(es + [e], r')
  {
    var m :| RaisedUnder(r, m) && Seen(es, r.key.action, r.amount, m);
    SeenLater(es, e, r.key.action, r.amount, m);
    assert RaisedUnder(r', m);
  }

  lemma GateMatchInformed(es: seq<Event>, s: Sys, fl: Flight)
    requires s == Run(Empty, es) && fl.GateMatch?
    ensures var b := MatchRule(s.rules, fl.action, fl.amount);
      b.Some? ==> Seen(es, fl.action, fl.amount, Read(s.rules, b.value))
  {
    MatchSeen(es, fl.action, fl.amount);
  }

  lemma ResubmitMatchInformed(es: seq<Event>, s: Sys, fl: Flight)
    requires s == Run(Empty, es) && fl.ResubmitMatch?
    ensures var b := MatchRule(s.rules, fl.key.action, fl.amount);
      b.Some? ==> Seen(es, fl.key.action, fl.amount, Read(s.rules, b.value))
  {
    MatchSeen(es, fl.key.action, fl.amount);
  }

  /** Statements after which the handler carries no reading of a rule. */
  lemma CarriesNone(s: Sys, f: FlightId)
    requires f in s.flights && f in Advance(s, f).flights
    requires var fl := s.flights[f]; !fl.GateMatch? && !fl.GateFind? && !fl.GateSpend? && !fl.ResubmitMatch?
    ensures var fl' := Advance(s, f).flights[f];
      !fl'.GateFind? && !fl'.GateSpend? && !fl'.GateRaise? && !fl'.ResubmitRaise?
  {}

  /** A handler learns of a rule only by matching, and then keeps to what it read. */
  lemma MoverInformed(es: seq<Event>, s: Sys, f: FlightId)
    requires s == Run(Empty, es) && f in s.flights && f in Advance(s, f).flights && Informed(es, s.flights[f])
    ensures Informed(es, Advance(s, f).flights[f])
  {
    var fl := s.flights[f];
    if fl.GateMatch? {
      GateMatchInformed(es, s, fl);
      assert Advance(s, f) == DoGateMatch(s, f, fl);
    } else if fl.GateFind? {
      assert Advance(s, f) == DoGateFind(s, f, fl);
    } else if fl.GateSpend? {
      assert Advance(s, f) == DoGateSpend(s, f, fl);
    } else if fl.ResubmitMatch? {
      ResubmitMatchInformed(es, s, fl);
      assert Advance(s, f) == DoResubmitMatch(s, f, fl);
    } else {
      CarriesNone(s, f);
    }
  }

  lemma NewRow(s: Sys, f: FlightId)
    requires f in s.flights && |s.requests| < |Advance(s, f).requests|
    ensures var fl := s.flights[f];
      (fl.GateRaise? || fl.ResubmitRaise?)
      && Advance(s, f).requests == s.requests + [NewRequest(fl.key, fl.amount, fl.rule)]
  {}

  lemma RowFounded(es: seq<Event>, s: Sys, f: FlightId)
    requires s == Run(Empty, es) && f in s.flights && Informed(es, s.flights[f])
    requires |s.requests| < |Advance(s, f).requests|
    ensures |Advance(s, f).requests| == |s.requests| + 1 && Founded(es, Advance(s, f).requests[|s.requests|])
  {
    var fl := s.flights[f];
    NewRow(s, f);
    assert RaisedUnder(NewRequest(fl.key, fl.amount, fl.rule), fl.rule);
  }

  lemma OtherFlights(s: Sys, e: Event, g: FlightId)
    requires g in Apply(s, e).flights && !(e.Next? && e.f == g)
    ensures (g in s.flights && Apply(s, e).flights[g] == s.flights[g])
      || (e.Start? && Apply(s, e).flights[g] == Entry(e.call))
  {
    if e.Next? && e.f in s.flights {
      AdvanceMover(s, e.f);
      assert g in Apply(s, e).flights - {e.f} && g in s.flights - {e.f};
    }
  }

  lemma FlightsInformed(es: seq<Event>, e: Event, g: FlightId)
    requires AllFounded(es, Run(Empty, es)) && g in Apply(Run(Empty, es), e).flights
    ensures Informed(es, Apply(Run(Empty, es), e).flights[g])
  {
    var s := Run(Empty, es);
    if e.Next? && e.f == g {
      if g in s.flights { MoverInformed(es, s, g); }
    } else {
      OtherFlights(s, e, g);
    }
  }

  lemma OnlyStatementsRaise(s: Sys, e: Event)
    requires !(e.Next? && e.f in s.flights)
    ensures Apply(s, e).requests == s.requests
  {}

  lemma NewRequestFounded(es: seq<Event>, s: Sys, e: Event)
    requires s == Run(Empty, es) && AllFounded(es, s) && |s.requests| < |Apply(s, e).requests|
    ensures |Apply(s, e).requests| == |s.requests| + 1 && Founded(es, Apply(s, e).requests[|s.requests|])
  {
    if e.Next? && e.f in s.flights { RowFounded(es, s, e.f); } else { OnlyStatementsRaise(s, e); }
  }

  lemma RequestsFounded(es: seq<Event>, s: Sys, s': Sys, e: Event, id: Id)
    requires id < |s'.requests| && (id < |s.requests| ==> Founded(es, s.requests[id]))
    requires Grows(s.requests, s.decisions, s'.requests, s'.decisions)
    requires |s.requests| < |s'.requests| ==>
      |s'.requests| == |s.requests| + 1 && Founded(es, s'.requests[|s.requests|])
    ensures Founded(es + [e], s'.requests[id])
  {
    if id < |s.requests| {
      FoundedLater(es, e, s.requests[id], s'.requests[id]);
    } else {
      FoundedLater(es, e, s'.requests[id], s'.requests[id]);
    }
  }

  lemma {:induction false} RunFounded(es: seq<Event>)
    ensures AllFounded(es, Run(Empty, es))
  {
    if es != [] {
      var front, e := es[..|es| - 1], es[|es| - 1];
      assert es == front + [e];
      RunFounded(front);
      var s, s' := Run(Empty, front), Run(Empty, es);
      ReachableInv(front);
      ApplyKeepsInv(s, e);
      if |s.requests| < |s'.requests| { NewRequestFounded(front, s, e); }
      forall g | g in s'.flights ensures Informed(es, s'.flights[g]) {
        FlightsInformed(front, e, g);
        InformedLater(front, e, s'.flights[g]);
      }
      forall id | 0 <= id < |s'.requests| ensures Founded(es, s'.requests[id]) {
        RequestsFounded(front, s, s', e, id);
      }
    }
  }

  /**
   Every request on record was raised under a rule that at some point of the run governed its
   action at its amount, with the highest floor of all that were reached; it demands that rule's
   number of votes, one at the least, from that rule's role.
   */
  lemma DemandsFromRule(es: seq<Event>, id: Id)
    requires id < |Run(Empty, es).requests|
    ensures var r := Run(Empty, es).requests[id];
      exists k :: 0 <= k <= |es| && DemandedBy(Run(Empty, es[..k]).rules, r)
  {
    RunFounded(es);
    var r := Run(Empty, es).requests[id];
    var m :| RaisedUnder(r, m) && Seen(es, r.key.action, r.amount, m);
    var k :| 0 <= k <= |es| && ReadOf(Run(Empty, es[..k]).rules, r.key.action, r.amount, m);
    assert DemandedBy(Run(Empty, es[..k]).rules, r);
  }

  ghost predicate DemandedBy(rules: seq<Rule>, r: Request) {
    r.rule < |rules| && Governs(rules, r.key.action, r.amount, |rules|, r.rule)
    && r.required == (if rules[r.rule].required < 1 then 1 else rules[r.rule].required)
    && r.approverRole == rules[r.rule].approverRole
  }

  /** So an approved or spent request has the votes its rule called for, all cast in its rule's role. */
  lemma ApprovedAsRuled(es: seq<Event>, id: Id)
    requires id < |Run(Empty, es).requests|
    requires Run(Empty, es).requests[id].status == Approved || Run(Empty, es).requests[id].status == Consumed
    ensures var s := Run(Empty, es);
      exists k :: 0 <= k <= |es| && DemandedBy(Run(Empty, es[..k]).rules, s.requests[id])
        && Run(Empty, es[..k]).rules[s.requests[id].rule].required <= |Approvers(s.decisions, id)|
        && forall v :: v in s.decisions && v.request == id ==>
             v.role == Run(Empty, es[..k]).rules[s.requests[id].rule].approverRole
  {
    var s := Run(Empty, es);
    DemandsFromRule(es, id);
    ApprovedIsSignedOff(es, id);
    var k :| 0 <= k <= |es| && DemandedBy(Run(Empty, es[..k]).rules, s.requests[id]);
    forall v | v in s.decisions && v.request == id ensures v.role == s.requests[id].approverRole {
      var j :| 0 <= j < |s.decisions| && s.decisions[j] == v;
    }
  }

  // --- Gate calls ---------------------------------------------------------------------------------

  /** The newest request of the triple that has not been spent. */
  ghost predicate Standing(rs: seq<Request>, key: Triple, id: Id) {
    id < |rs| && rs[id].key == key && rs[id].status != Consumed
    && forall j :: id < j < |rs| && rs[j].key == key ==> rs[j].status == Consumed
  }

  ghost predicate NoneStanding(rs: seq<Request>, key: Triple) {
    forall j :: 0 <= j < |rs| && rs[j].key == key ==> rs[j].status == Consumed
  }

  /** The row a call adds: everything in it, from the rule that governs and from the call. */
  ghost predicate Adds(s: Sys, t: Sys, key: Triple, amount: real, supersedes: Option<Id>) {
    |t.requests| == |s.requests| + 1 && t.requests[..|s.requests|] == s.requests
    && var r := t.requests[|s.requests|];
    DemandedBy(s.rules, r) && r.key == key && r.amount == amount && r.status == Pending
    && r.pendingKey == Some(key) && r.supersedes == supersedes
  }

  /** All a call leaves alone unless it says otherwise. */
  ghost predicate Quiet(s: Sys, t: Sys) {
    t.rules == s.rules && t.users == s.users && t.decisions == s.decisions && t.flights == map[]
  }

  ghost predicate Idle(s: Sys, f: FlightId) { s.flights == map[] && f !in s.results }

  /** No rule is reached: the action goes ahead, and the log says under which rules. */
  lemma GateUngoverned(s: Sys, f: FlightId, action: string, entity: nat, caller: Option<UserId>, amount: real)
    requires Idle(s, f) && forall j :: 0 <= j < |s.rules| ==> !Reached(s.rules, action, amount, j)
    ensures var t := Serve(s, f, CallGate(action, entity, caller, amount));
      Quiet(s, t) && t.requests == s.requests && t.results == s.results[f := Proceed]
      && t.passes == s.passes + [Free(f, action, amount, s.rules)]
  {
    GateServed(s, f, action, entity, caller, amount);
    HighestFloorGoverns(s.rules, action, amount);
  }

  lemma GateAnonymous(s: Sys, f: FlightId, action: string, entity: nat, amount: real, j: nat)
    requires Idle(s, f) && j < |s.rules| && Reached(s.rules, action, amount, j)
    ensures var t := Serve(s, f, CallGate(action, entity, None, amount));
      Quiet(s, t) && t.requests == s.requests && t.passes == s.passes && t.results == s.results[f := Refused]
  {
    GateServed(s, f, action, entity, None, amount);
    HighestFloorGoverns(s.rules, action, amount);
  }

  lemma StandingFound(s: Sys, key: Triple, id: Id)
    requires Standing(s.requests, key, id)
    ensures LatestLive(s.requests, key) == Some(id)
  {}

  lemma NoneFound(s: Sys, key: Triple)
    requires NoneStanding(s.requests, key)
    ensures LatestLive(s.requests, key) == None
  {}

  /** With nothing pending for the triple, the index has no entry for it. */
  lemma NoEntry(s: Sys, key: Triple)
    requires Inv(s) && forall j :: 0 <= j < |s.requests| && s.requests[j].key == key ==> s.requests[j].status != Pending
    ensures !SlotTaken(s.requests, key)
  {
    forall i | 0 <= i < |s.requests| ensures s.requests[i].pendingKey != Some(key) { assert RowOk(s.requests, i); }
  }

  /** A pending or rejected request of the triple stands in the way, and is named. */
  lemma GateBlocked(s: Sys, f: FlightId, action: string, entity: nat, caller: UserId, amount: real, j: nat, id: Id)
    requires Idle(s, f) && j < |s.rules| && Reached(s.rules, action, amount, j)
    requires Standing(s.requests, Triple(action, entity, caller), id) && s.requests[id].status != Approved
    ensures var t := Serve(s, f, CallGate(action, entity, Some(caller), amount));
      Quiet(s, t) && t.requests == s.requests && t.passes == s.passes && t.results == s.results[f := BlockedBy(id)]
  {
    GateServed(s, f, action, entity, Some(caller), amount);
    HighestFloorGoverns(s.rules, action, amount);
    StandingFound(s, Triple(action, entity, caller), id);
  }

  /** An approval for at least the amount is spent on it, and on nothing else. */
  lemma GateSpends(s: Sys, f: FlightId, action: string, entity: nat, caller: UserId, amount: real, j: nat, id: Id)
    requires Idle(s, f) && j < |s.rules| && Reached(s.rules, action, amount, j)
    requires Standing(s.requests, Triple(action, entity, caller), id) && s.requests[id].status == Approved
    requires amount <= s.requests[id].amount
    ensures var t := Serve(s, f, CallGate(action, entity, Some(caller), amount));
      Quiet(s, t) && t.requests == s.requests[id := s.requests[id].(status := Consumed, pendingKey := None)]
      && t.results == s.results[f := Proceed]
      && t.passes == s.passes + [Spent(f, id, Triple(action, entity, caller), amount)]
  {
    GateServed(s, f, action, entity, Some(caller), amount);
    HighestFloorGoverns(s.rules, action, amount);
    StandingFound(s, Triple(action, entity, caller), id);
  }

  lemma RaisedAdds(s: Sys, f: FlightId, key: Triple, amount: real)
    requires MatchRule(s.rules, key.action, amount).Some? && !SlotTaken(s.requests, key)
    ensures var t := Raised(s, f, key, amount, Read(s.rules, MatchRule(s.rules, key.action, amount).value));
      Quiet(s, t) && Adds(s, t, key, amount, None) && t.passes == s.passes
      && t.results == s.results[f := BlockedBy(|s.requests|)]
  {
    HighestFloorGoverns(s.rules, key.action, amount);
  }

  /** With nothing standing, or an approval for less, a request is raised and the caller waits for it. */
  lemma GateRaises(s: Sys, f: FlightId, action: string, entity: nat, caller: UserId, amount: real, j: nat)
    requires Inv(s) && Idle(s, f) && j < |s.rules| && Reached(s.rules, action, amount, j)
    requires var key := Triple(action, entity, caller);
      NoneStanding(s.requests, key)
      || exists id: Id ::
           Standing(s.requests, key, id) && s.requests[id].status == Approved && s.requests[id].amount < amount
    ensures var t := Serve(s, f, CallGate(action, entity, Some(caller), amount));
      Quiet(s, t) && Adds(s, t, Triple(action, entity, caller), amount, None) && t.passes == s.passes
      && t.results == s.results[f := BlockedBy(|s.requests|)]
  {
    var key := Triple(action, entity, caller);
    GateServed(s, f, action, entity, Some(caller), amount);
    HighestFloorGoverns(s.rules, action, amount);
    if NoneStanding(s.requests, key) {
      NoneFound(s, key);
      NoEntry(s, key);
    } else {
      var id: Id :| Standing(s.requests, key, id) && s.requests[id].status == Approved && s.requests[id].amount < amount;
      StandingFound(s, key, id);
      OnlyNewestPends(s, key, id);
      NoEntry(s, key);
    }
    RaisedAdds(s, f, key, amount);
  }

  lemma OnlyNewestPends(s: Sys, key: Triple, id: Id)
    requires Inv(s) && Standing(s.requests, key, id) && s.requests[id].status == Approved
    ensures forall j :: 0 <= j < |s.requests| && s.requests[j].key == key ==> s.requests[j].status != Pending
  {
    assert PendingNewest(s.requests);
  }

  // --- Votes ----------------------------------------------------------------------------------------

  /** A person with the role asked for, not the requester and not voting twice, on a pending request. */
  ghost predicate MayDecide(s: Sys, id: Id, voter: UserId, vote: Vote, reason: string) {
    voter in s.users && id < |s.requests| && s.requests[id].status == Pending
    && voter != s.requests[id].key.requester && s.users[voter] == s.requests[id].approverRole
    && (vote == Reject ==> reason != "")
    && forall d :: d in s.decisions ==> !(d.request == id && d.approver == voter)
  }

  lemma VotedExactly(ds: seq<Decision>, id: Id, who: UserId)
    ensures HasVoted(ds, id, who) <==> exists d :: d in ds && d.request == id && d.approver == who
  {
    if d :| d in ds && d.request == id && d.approver == who {
      var k :| 0 <= k < |ds| && ds[k] == d;
    }
  }

  lemma VoteRefused(s: Sys, f: FlightId, id: Id, voter: UserId, vote: Vote, reason: string)
    requires Idle(s, f) && !MayDecide(s, id, voter, vote, reason)
    ensures var t := Serve(s, f, CallVote(id, voter, vote, reason));
      Quiet(s, t) && t.requests == s.requests && t.passes == s.passes && t.results == s.results[f := Refused]
  {
    VoteServed(s, f, id, voter, vote, reason);
    VotedExactly(s.decisions, id, voter);
  }

  /** One rejecting vote settles it; approving ones do once there are as many people as it calls for. */
  lemma VoteTaken(s: Sys, f: FlightId, id: Id, voter: UserId, vote: Vote, reason: string)
    requires Inv(s) && Idle(s, f) && MayDecide(s, id, voter, vote, reason)
    ensures var t := Serve(s, f, CallVote(id, voter, vote, reason));
      t.decisions == s.decisions + [Decision(id, voter, s.users[voter], vote, reason)]
      && (var status := if vote == Reject then Rejected
                        else if s.requests[id].required <= |Approvers(t.decisions, id)| then Approved else Pending;
          t.requests == s.requests[id := s.requests[id].(status := status,
                                     pendingKey := if status == Pending then s.requests[id].pendingKey else None)])
      && t.rules == s.rules && t.users == s.users && t.passes == s.passes && t.flights == map[]
      && t.results == s.results[f := Done]
  {
    VoteServed(s, f, id, voter, vote, reason);
    VotedExactly(s.decisions, id, voter);
    var ds := s.decisions + [Decision(id, voter, s.users[voter], vote, reason)];
    assert OneVoteEach(ds) by {
      forall a, b | 0 <= a < b < |ds| ensures ds[a].request != ds[b].request || ds[a].approver != ds[b].approver {
        if b == |s.decisions| { assert ds[a] in s.decisions; }
      }
    }
    CountIsPeople(ds, id);
    assert RowOk(s.requests, id);
  }

  // --- Resubmissions ----------------------------------------------------------------------------------

  /** The requester's own rejected request, and a rule that governs it now. */
  ghost predicate MayResubmit(s: Sys, prev: Id, who: UserId) {
    who in s.users && prev < |s.requests| && s.requests[prev].key.requester == who
    && s.requests[prev].status == Rejected
    && (exists j :: 0 <= j < |s.rules| && Reached(s.rules, s.requests[prev].key.action, s.requests[prev].amount, j))
    && forall i :: 0 <= i < |s.requests| && s.requests[i].key == s.requests[prev].key ==> s.requests[i].status != Pending
  }

  lemma EntryExactly(s: Sys, key: Triple)
    requires Inv(s)
    ensures SlotTaken(s.requests, key) <==>
      exists i :: 0 <= i < |s.requests| && s.requests[i].key == key && s.requests[i].status == Pending
  {
    if i :| 0 <= i < |s.requests| && s.requests[i].key == key && s.requests[i].status == Pending {
      assert RowOk(s.requests, i);
    } else {
      NoEntry(s, key);
    }
  }

  lemma ResubmitRefused(s: Sys, f: FlightId, prev: Id, who: UserId)
    requires Inv(s) && Idle(s, f) && !MayResubmit(s, prev, who)
    ensures var t := Serve(s, f, CallResubmit(prev, who));
      Quiet(s, t) && t.requests == s.requests && t.passes == s.passes && t.results == s.results[f := Refused]
  {
    ResubmitServed(s, f, prev, who);
    if prev < |s.requests| {
      EntryExactly(s, s.requests[prev].key);
      HighestFloorGoverns(s.rules, s.requests[prev].key.action, s.requests[prev].amount);
    }
  }

  /** It raises the same again under the rule that governs now, linked to the one it replaces. */
  lemma ResubmitTaken(s: Sys, f: FlightId, prev: Id, who: UserId)
    requires Inv(s) && Idle(s, f) && MayResubmit(s, prev, who)
    ensures var t := Serve(s, f, CallResubmit(prev, who));
      Quiet(s, t) && Adds(s, t, s.requests[prev].key, s.requests[prev].amount, Some(prev)) && t.passes == s.passes
      && t.results == s.results[f := Done]
  {
    ResubmitServed(s, f, prev, who);
    EntryExactly(s, s.requests[prev].key);
    HighestFloorGoverns(s.rules, s.requests[prev].key.action, s.requests[prev].amount);
  }
}
