/**
 The handlers of internal/handlers/approvals.go as they run when nothing interleaves with them:
 the tables are fields updated in place, and serving a call is proved to be one run of the
 statement-level machine.
 */
module ApprovalHandlers {
  import opened Common
  import opened Approvals
  import opened ApprovalSafety
  import opened ApprovalTheorems

  /** Runs handler f until it is finished, at most n statements. */
  ghost function Drive(s: Sys, f: FlightId, n: nat): Sys
    decreases n
  {
    if n == 0 || f !in s.flights then s else Drive(Advance(s, f), f, n - 1)
  }

  /** No handler executes more than five statements. */
  const Longest := 5

  ghost function Serve(s: Sys, f: FlightId, call: Call): Sys {
    Drive(Apply(s, Start(f, call)), f, Longest)
  }

  function Script(f: FlightId, call: Call, n: nat): seq<Event> {
    [Start(f, call)] + seq(n, _ => Next(f))
  }

  lemma {:induction false} DriveIsRun(s: Sys, f: FlightId, call: Call, n: nat)
    ensures Drive(Apply(s, Start(f, call)), f, n) == Run(s, Script(f, call, n))
  {
    if n == 0 {
      assert Script(f, call, 0) == [] + [Start(f, call)];
      RunSnoc(s, [], Start(f, call));
    } else {
      DriveIsRun(s, f, call, n - 1);
      DriveLast(Apply(s, Start(f, call)), f, n - 1);
      ScriptSnoc(s, f, call, n - 1);
    }
  }

  lemma ScriptSnoc(s: Sys, f: FlightId, call: Call, n: nat)
    ensures Run(s, Script(f, call, n + 1)) == Apply(Run(s, Script(f, call, n)), Next(f))
  {
    RunSnoc(s, Script(f, call, n), Next(f));
    assert Script(f, call, n + 1) == Script(f, call, n) + [Next(f)];
  }

  lemma RunSnoc(s: Sys, es: seq<Event>, e: Event)
    ensures Run(s, es + [e]) == Apply(Run(s, es), e)
  {
    assert (es + [e])[..|es|] == es;
  }

  lemma {:induction false} DriveLast(s: Sys, f: FlightId, n: nat)
    ensures Drive(s, f, n + 1) == Apply(Drive(s, f, n), Next(f))
    decreases n
  {
    if n > 0 && f in s.flights { DriveLast(Advance(s, f), f, n - 1); }
  }

  /** Everything the theorems say of runs from the empty system holds of a reachable one. */
  ghost predicate Reachable(s: Sys) {
    exists es :: s == Run(Empty, es)
  }

  lemma ReachableApply(s: Sys, e: Event)
    requires Reachable(s)
    ensures Reachable(Apply(s, e))
  {
    var es :| s == Run(Empty, es);
    RunSnoc(Empty, es, e);
  }

  /** Serving one call alone is a run of the machine: the call and then only its own statements. */
  lemma ServeIsRun(s: Sys, f: FlightId, call: Call)
    requires Reachable(s)
    ensures Serve(s, f, call) == Run(s, Script(f, call, Longest))
    ensures Reachable(Serve(s, f, call))
  {
    DriveIsRun(s, f, call, Longest);
    var es :| s == Run(Empty, es);
    RunAppend(Empty, es, Script(f, call, Longest));
  }

  // --- What one call amounts to ----------------------------------------------------

  ghost function At(s: Sys, f: FlightId, fl: Flight): Sys { s.(flights := map[f := fl]) }

  ghost function Answered(s: Sys, f: FlightId, o: Outcome): Sys {
    s.(flights := map[], results := s.results[f := o])
  }

  lemma Hop(s: Sys, f: FlightId, fl: Flight, next: Sys, n: nat)
    requires n > 0 && Advance(At(s, f, fl), f) == next
    ensures Drive(At(s, f, fl), f, n) == Drive(next, f, n - 1)
  {}

  lemma FinishAlone(s: Sys, f: FlightId, fl: Flight, o: Outcome)
    ensures Finish(At(s, f, fl), f, o) == Answered(s, f, o)
  {
    assert map[f := fl] - {f} == map[];
  }

  ghost function Raised(s: Sys, f: FlightId, key: Triple, amount: real, rule: Matched): Sys {
    if SlotTaken(s.requests, key) then Answered(s, f, Refused)
    else Answered(s, f, BlockedBy(|s.requests|)).(requests := s.requests + [NewRequest(key, amount, rule)])
  }

  ghost function Found(s: Sys, f: FlightId, key: Triple, amount: real, rule: Matched): Sys {
    match LatestLive(s.requests, key)
    case None => Raised(s, f, key, amount, rule)
    case Some(id) =>
      if s.requests[id].status != Approved then Answered(s, f, BlockedBy(id))
      else if s.requests[id].amount >= amount
      then Answered(SetStatus(s, id, Consumed), f, Proceed)
           .(passes := s.passes + [Spent(f, id, key, amount)])
      else Raised(s, f, key, amount, rule)
  }

  ghost function Gated(s: Sys, f: FlightId, action: string, entity: nat, caller: Option<UserId>, amount: real): Sys {
    match MatchRule(s.rules, action, amount)
    case None => Answered(s, f, Proceed).(passes := s.passes + [Free(f, action, amount, s.rules)])
    case Some(b) =>
      if caller.None? then Answered(s, f, Refused)
      else
        Found(s, f, Triple(action, entity, caller.value), amount, Read(s.rules, b))
  }

  lemma GateServed(s: Sys, f: FlightId, action: string, entity: nat, caller: Option<UserId>, amount: real)
    requires s.flights == map[] && f !in s.results
    ensures Serve(s, f, CallGate(action, entity, caller, amount)) == Gated(s, f, action, entity, caller, amount)
  {
    var fl := GateMatch(action, entity, caller, amount);
    assert Apply(s, Start(f, CallGate(action, entity, caller, amount))) == At(s, f, fl);
    var next := DoGateMatch(At(s, f, fl), f, fl);
    Hop(s, f, fl, next, 5);
    var b := MatchRule(s.rules, action, amount);
    if b.Some? && caller.Some? {
      var key, rule := Triple(action, entity, caller.value), Read(s.rules, b.value);
      assert next == At(s, f, GateFind(key, amount, rule));
      FindServed(s, f, key, amount, rule);
    } else {
      FinishAll(s, f, fl);
      Finished(next, f, 4);
    }
  }

  lemma FinishAll(s: Sys, f: FlightId, fl: Flight)
    ensures forall o :: Finish(At(s, f, fl), f, o) == Answered(s, f, o)
  {
    forall o ensures Finish(At(s, f, fl), f, o) == Answered(s, f, o) { FinishAlone(s, f, fl, o); }
  }

  lemma RaiseServed(s: Sys, f: FlightId, key: Triple, amount: real, rule: Matched, n: nat)
    requires n > 0
    ensures Drive(At(s, f, GateRaise(key, amount, rule)), f, n) == Raised(s, f, key, amount, rule)
  {
    var fl := GateRaise(key, amount, rule);
    var next := DoGateRaise(At(s, f, fl), f, fl);
    FinishAll(s, f, fl);
    Hop(s, f, fl, next, n);
    Finished(next, f, n - 1);
  }

  lemma SpendServed(s: Sys, f: FlightId, key: Triple, amount: real, rule: Matched, id: Id)
    requires id < |s.requests| && s.requests[id].status == Approved
    ensures Drive(At(s, f, GateSpend(key, amount, rule, id)), f, 3) ==
      if s.requests[id].amount >= amount
      then Answered(SetStatus(s, id, Consumed), f, Proceed).(passes := s.passes + [Spent(f, id, key, amount)])
      else Raised(s, f, key, amount, rule)
  {
    var fl := GateSpend(key, amount, rule, id);
    var next := DoGateSpend(At(s, f, fl), f, fl);
    Hop(s, f, fl, next, 3);
    if s.requests[id].amount >= amount {
      FinishAlone(SetStatus(s, id, Consumed), f, fl, Proceed);
      assert SetStatus(At(s, f, fl), id, Consumed) == At(SetStatus(s, id, Consumed), f, fl);
      Finished(next, f, 2);
    } else {
      assert next == At(s, f, GateRaise(key, amount, rule));
      RaiseServed(s, f, key, amount, rule, 2);
    }
  }

  lemma Finished(s: Sys, f: FlightId, n: nat)
    requires f !in s.flights
    ensures Drive(s, f, n) == s
  {}

  lemma FindServed(s: Sys, f: FlightId, key: Triple, amount: real, rule: Matched)
    ensures Drive(At(s, f, GateFind(key, amount, rule)), f, 4) == Found(s, f, key, amount, rule)
  {
    var fl := GateFind(key, amount, rule);
    var next := DoGateFind(At(s, f, fl), f, fl);
    Hop(s, f, fl, next, 4);
    match LatestLive(s.requests, key)
    case None =>
      assert next == At(s, f, GateRaise(key, amount, rule));
      RaiseServed(s, f, key, amount, rule, 3);
    case Some(id) =>
      if s.requests[id].status == Approved {
        assert next == At(s, f, GateSpend(key, amount, rule, id));
        SpendServed(s, f, key, amount, rule, id);
      } else {
        FinishAlone(s, f, fl, BlockedBy(id));
        Finished(next, f, 3);
      }
  }

  ghost function Decided(s: Sys, f: FlightId, request: Id, voter: UserId, vote: Vote, reason: string): Sys {
    if voter !in s.users || request >= |s.requests| || !Eligible(s.requests[request], voter, s.users[voter])
       || (vote == Reject && reason == "") || HasVoted(s.decisions, request, voter)
    then Answered(s, f, Refused)
    else
      var s' := s.(decisions := s.decisions + [Decision(request, voter, s.users[voter], vote, reason)]);
      if vote == Reject then Answered(SetStatus(s', request, Rejected), f, Done)
      else if CountApprovals(s'.decisions, request) >= s.requests[request].required
      then Answered(SetStatus(s', request, Approved), f, Done)
      else Answered(s', f, Done)
  }

  lemma VoteServed(s: Sys, f: FlightId, request: Id, voter: UserId, vote: Vote, reason: string)
    requires s.flights == map[] && f !in s.results
    ensures Serve(s, f, CallVote(request, voter, vote, reason)) == Decided(s, f, request, voter, vote, reason)
  {
    var fl := VoteCaller(request, voter, vote, reason);
    assert Apply(s, Start(f, CallVote(request, voter, vote, reason))) == At(s, f, fl);
    var next := DoVoteCaller(At(s, f, fl), f, fl);
    Hop(s, f, fl, next, 5);
    if voter in s.users {
      assert next == At(s, f, VoteLoad(request, voter, s.users[voter], vote, reason));
      LoadServed(s, f, request, voter, s.users[voter], vote, reason);
    } else {
      FinishAlone(s, f, fl, Refused);
      Finished(next, f, 4);
    }
  }

  lemma LoadServed(s: Sys, f: FlightId, request: Id, voter: UserId, role: string, vote: Vote, reason: string)
    ensures Drive(At(s, f, VoteLoad(request, voter, role, vote, reason)), f, 4) ==
      if request >= |s.requests| || !Eligible(s.requests[request], voter, role) || (vote == Reject && reason == "")
      then Answered(s, f, Refused)
      else Cast(s, f, VoteCast(request, voter, role, s.requests[request].required, vote, reason))
  {
    var fl := VoteLoad(request, voter, role, vote, reason);
    var next := DoVoteLoad(At(s, f, fl), f, fl);
    Hop(s, f, fl, next, 4);
    if request >= |s.requests| || !Eligible(s.requests[request], voter, role) || (vote == Reject && reason == "") {
      FinishAlone(s, f, fl, Refused);
      Finished(next, f, 3);
    } else {
      var ct := VoteCast(request, voter, role, s.requests[request].required, vote, reason);
      assert next == At(s, f, ct);
      CastServed(s, f, ct);
    }
  }

  ghost function Cast(s: Sys, f: FlightId, fl: Flight): Sys
    requires fl.VoteCast? && fl.request < |s.requests|
  {
    if HasVoted(s.decisions, fl.request, fl.who) then Answered(s, f, Refused)
    else
      var s' := s.(decisions := s.decisions + [Decision(fl.request, fl.who, fl.role, fl.vote, fl.reason)]);
      if fl.vote == Reject then Answered(SetStatus(s', fl.request, Rejected), f, Done)
      else if CountApprovals(s'.decisions, fl.request) >= fl.required
      then Answered(SetStatus(s', fl.request, Approved), f, Done)
      else Answered(s', f, Done)
  }

  lemma CastServed(s: Sys, f: FlightId, fl: Flight)
    requires fl.VoteCast? && fl.request < |s.requests| && s.requests[fl.request].status == Pending
    ensures Drive(At(s, f, fl), f, 3) == Cast(s, f, fl)
  {
    var next := DoVoteCast(At(s, f, fl), f, fl);
    Hop(s, f, fl, next, 3);
    if HasVoted(s.decisions, fl.request, fl.who) {
      FinishAlone(s, f, fl, Refused);
      Finished(next, f, 2);
    } else {
      var s' := s.(decisions := s.decisions + [Decision(fl.request, fl.who, fl.role, fl.vote, fl.reason)]);
      if fl.vote == Reject {
        assert next == At(s', f, Finalise(fl.request, Rejected));
        FinaliseServed(s', f, fl.request, Rejected, 2);
      } else {
        assert next == At(s', f, VoteCount(fl.request, fl.required));
        CountServed(s', f, fl.request, fl.required);
      }
    }
  }

  lemma CountServed(s: Sys, f: FlightId, request: Id, required: int)
    requires request < |s.requests| && s.requests[request].status == Pending
    ensures Drive(At(s, f, VoteCount(request, required)), f, 2) ==
      if CountApprovals(s.decisions, request) >= required
      then Answered(SetStatus(s, request, Approved), f, Done) else Answered(s, f, Done)
  {
    var fl := VoteCount(request, required);
    var next := DoVoteCount(At(s, f, fl), f, fl);
    Hop(s, f, fl, next, 2);
    if CountApprovals(s.decisions, request) >= required {
      assert next == At(s, f, Finalise(request, Approved));
      FinaliseServed(s, f, request, Approved, 1);
    } else {
      FinishAlone(s, f, fl, Done);
      Finished(next, f, 1);
    }
  }

  lemma FinaliseServed(s: Sys, f: FlightId, id: Id, status: Status, n: nat)
    requires n > 0 && id < |s.requests| && s.requests[id].status == Pending
    ensures Drive(At(s, f, Finalise(id, status)), f, n) == Answered(SetStatus(s, id, status), f, Done)
  {
    var fl := Finalise(id, status);
    var next := DoFinalise(At(s, f, fl), f, fl);
    FinishAlone(SetStatus(s, id, status), f, fl, Done);
    assert SetStatus(At(s, f, fl), id, status) == At(SetStatus(s, id, status), f, fl);
    Hop(s, f, fl, next, n);
    Finished(next, f, n - 1);
  }

  ghost function Reraised(s: Sys, f: FlightId, prev: Id, key: Triple, amount: real, rule: Matched): Sys {
    if SlotTaken(s.requests, key) then Answered(s, f, Refused)
    else Answered(s, f, Done).(requests := s.requests
           + [NewRequest(key, amount, rule).(supersedes := Some(prev))])
  }

  ghost function Resubmitted(s: Sys, f: FlightId, prev: Id, requester: UserId): Sys {
    if requester !in s.users || prev >= |s.requests| || s.requests[prev].key.requester != requester
       || s.requests[prev].status != Rejected
    then Answered(s, f, Refused)
    else
      var key, amount := s.requests[prev].key, s.requests[prev].amount;
      match MatchRule(s.rules, key.action, amount)
      case None => Answered(s, f, Refused)
      case Some(b) =>
        Reraised(s, f, prev, key, amount, Read(s.rules, b))
  }

  lemma ResubmitServed(s: Sys, f: FlightId, prev: Id, requester: UserId)
    requires s.flights == map[] && f !in s.results
    ensures Serve(s, f, CallResubmit(prev, requester)) == Resubmitted(s, f, prev, requester)
  {
    var fl := ResubmitLoad(prev, requester);
    assert Apply(s, Start(f, CallResubmit(prev, requester))) == At(s, f, fl);
    var next := DoResubmitLoad(At(s, f, fl), f, fl);
    Hop(s, f, fl, next, 5);
    if requester in s.users && prev < |s.requests| && s.requests[prev].key.requester == requester
       && s.requests[prev].status == Rejected
    {
      var key, amount := s.requests[prev].key, s.requests[prev].amount;
      assert next == At(s, f, ResubmitMatch(prev, key, amount));
      ResubmitMatchServed(s, f, prev, key, amount);
    } else {
      FinishAlone(s, f, fl, Refused);
      Finished(next, f, 4);
    }
  }

  lemma ResubmitMatchServed(s: Sys, f: FlightId, prev: Id, key: Triple, amount: real)
    ensures Drive(At(s, f, ResubmitMatch(prev, key, amount)), f, 4) ==
      match MatchRule(s.rules, key.action, amount)
      case None => Answered(s, f, Refused)
      case Some(b) => Reraised(s, f, prev, key, amount, Read(s.rules, b))
  {
    var fl := ResubmitMatch(prev, key, amount);
    var next := DoResubmitMatch(At(s, f, fl), f, fl);
    Hop(s, f, fl, next, 4);
    match MatchRule(s.rules, key.action, amount)
    case None =>
      FinishAlone(s, f, fl, Refused);
      Finished(next, f, 3);
    case Some(b) =>
      assert next == At(s, f, ResubmitRaise(prev, key, amount, Read(s.rules, b)));
      ReraiseServed(s, f, prev, key, amount, Read(s.rules, b));
  }

  lemma ReraiseServed(s: Sys, f: FlightId, prev: Id, key: Triple, amount: real, rule: Matched)
    ensures Drive(At(s, f, ResubmitRaise(prev, key, amount, rule)), f, 3) == Reraised(s, f, prev, key, amount, rule)
  {
    var fl := ResubmitRaise(prev, key, amount, rule);
    var next := DoResubmitRaise(At(s, f, fl), f, fl);
    Hop(s, f, fl, next, 3);
    if SlotTaken(s.requests, key) {
      FinishAlone(s, f, fl, Refused);
      Finished(next, f, 2);
    } else {
      var s' := s.(requests := s.requests + [NewRequest(key, amount, rule)]);
      assert next == At(s', f, ResubmitLink(prev, |s.requests|));
      LinkServed(s, f, prev, NewRequest(key, amount, rule));
    }
  }

  lemma LinkServed(s: Sys, f: FlightId, prev: Id, row: Request)
    ensures Drive(At(s.(requests := s.requests + [row]), f, ResubmitLink(prev, |s.requests|)), f, 2) ==
      Answered(s, f, Done).(requests := s.requests + [row.(supersedes := Some(prev))])
  {
    var s', fl := s.(requests := s.requests + [row]), ResubmitLink(prev, |s.requests|);
    var next := DoResubmitLink(At(s', f, fl), f, fl);
    Hop(s', f, fl, next, 2);
    FinishAlone(s', f, fl, Done);
    assert s'.requests[|s.requests| := row.(supersedes := Some(prev))]
        == s.requests + [row.(supersedes := Some(prev))];
    Finished(next, f, 1);
  }

  class Handler {
    var rules: seq<Rule>
    var users: map<UserId, string>
    var requests: seq<Request>
    var decisions: seq<Decision>
    /** The number of calls served, which numbers the next one. */
    var turn: FlightId
    /** The log of admitted actions and of answers given. */
    ghost var passes: seq<Pass>
    ghost var results: map<FlightId, Outcome>

    ghost function Model(): Sys
      reads this
    {
      Sys(rules, users, requests, decisions, map[], results, passes, {})
    }

    ghost predicate Valid()
      reads this
    {
      Reachable(Model()) && (forall f :: f in results ==> f < turn)
    }

    constructor ()
      ensures Valid() && Model() == Empty
    {
      rules, users, requests, decisions, passes, results, turn := [], map[], [], [], [], map[], 0;
      new;
      assert Run(Empty, []) == Empty;
    }

    /** consume: spends an approval, if it still is one and covers the amount. */
    method Consume(id: Id, amount: real) returns (spent: bool)
      requires id < |requests|
      modifies this`requests
      ensures spent == (old(requests)[id].status == Approved && old(requests)[id].amount >= amount)
      ensures requests == if spent then old(requests)[id := old(requests)[id].(status := Consumed, pendingKey := None)]
                          else old(requests)
    {
      spent := requests[id].status == Approved && requests[id].amount >= amount;
      if spent { requests := requests[id := WithStatus(requests[id], Consumed)]; }
    }

    /** raise: inserts a pending request unless the unique slot of its triple is taken. */
    method Raise(rule: Matched, key: Triple, amount: real) returns (id: Option<Id>)
      modifies this`requests
      ensures id == if SlotTaken(old(requests), key) then None else Some(|old(requests)|)
      ensures requests == if id.None? then old(requests)
                          else old(requests) + [NewRequest(key, amount, rule)]
      ensures id.Some? ==> requests[id.value] == Request(key, amount, if rule.required < 1 then 1 else rule.required,
                                                         rule.approverRole, rule.id, Pending, Some(key), None)
    {
      if SlotTaken(requests, key) { return None; }
      id := Some(|requests|);
      requests := requests + [NewRequest(key, amount, rule)];
    }

    /** recordDecision: one vote, unless this approver has one on this request. */
    method RecordDecision(d: Decision) returns (ok: bool)
      modifies this`decisions
      ensures ok == !HasVoted(old(decisions), d.request, d.approver)
      ensures decisions == if ok then old(decisions) + [d] else old(decisions)
    {
      ok := !HasVoted(decisions, d.request, d.approver);
      if ok { decisions := decisions + [d]; }
    }

    /** finalise: a no-op on a request somebody else has already decided. */
    method FinaliseRequest(id: Id, status: Status)
      requires id < |requests| && status != Pending
      modifies this`requests
      ensures requests == if old(requests)[id].status == Pending
                          then old(requests)[id := old(requests)[id].(status := status, pendingKey := None)]
                          else old(requests)
    {
      if requests[id].status == Pending {
        requests := requests[id := WithStatus(requests[id], status)];
      }
    }

    /** The answer to call f. */
    method Answer(ghost f: FlightId, o: Outcome) returns (r: Outcome)
      modifies this`results
      ensures r == o && results == old(results)[f := o]
    {
      results := results[f := o];
      r := o;
    }

    /** gate: Proceed means go ahead; anything else means abort without writing. */
    method Gate(action: string, entity: nat, caller: Option<UserId>, amount: real) returns (o: Outcome)
      requires Valid()
      modifies this
      ensures Valid() && turn == old(turn) + 1
      ensures Model() == Serve(old(Model()), old(turn), CallGate(action, entity, caller, amount))
      ensures results == old(results)[old(turn) := o]
      ensures o == Proceed <==> |passes| == |old(passes)| + 1
      ensures o != Proceed ==> passes == old(passes)
    {
      ghost var f, call := turn, CallGate(action, entity, caller, amount);
      ServeIsRun(Model(), f, call);
      GateServed(Model(), f, action, entity, caller, amount);
      turn := turn + 1;
      var b := MatchRule(rules, action, amount);
      if b.None? {
        passes := passes + [Free(f, action, amount, rules)];
        o := Answer(f, Proceed); return;
      }
      if caller.None? { o := Answer(f, Refused); return; }
      o := GateCovered(f, Triple(action, entity, caller.value), amount, Read(rules, b.value));
    }

    /** The rest of gate, once a rule is known to cover the action. */
    method GateCovered(ghost f: FlightId, key: Triple, amount: real, rule: Matched) returns (o: Outcome)
      modifies this`requests, this`passes, this`results
      ensures Model() == Found(old(Model()), f, key, amount, rule)
      ensures results == old(results)[f := o]
      ensures if o == Proceed then |passes| == |old(passes)| + 1 else passes == old(passes)
    {
      var existing := LatestLive(requests, key);
      if existing.Some? {
        var id := existing.value;
        if requests[id].status != Approved { o := Answer(f, BlockedBy(id)); return; }
        var spent := Consume(id, amount);
        if spent {
          passes := passes + [Spent(f, id, key, amount)];
          o := Answer(f, Proceed); return;
        }
      }
      var raised := Raise(rule, key, amount);
      if raised.None? { o := Answer(f, Refused); return; }
      o := Answer(f, BlockedBy(raised.value));
    }

    /** AdminApproveRequest and AdminRejectRequest. */
    method Decide(request: Id, voter: UserId, vote: Vote, reason: string) returns (o: Outcome)
      requires Valid()
      modifies this
      ensures Valid() && turn == old(turn) + 1
      ensures Model() == Serve(old(Model()), old(turn), CallVote(request, voter, vote, reason))
      ensures results == old(results)[old(turn) := o]
      ensures o == Done || (o == Refused && requests == old(requests) && decisions == old(decisions))
    {
      ghost var f, call := turn, CallVote(request, voter, vote, reason);
      ServeIsRun(Model(), f, call);
      VoteServed(Model(), f, request, voter, vote, reason);
      turn := turn + 1;
      o := CastVote(f, request, voter, vote, reason);
    }

    /** One vote, with what it settles. */
    method CastVote(ghost f: FlightId, request: Id, voter: UserId, vote: Vote, reason: string) returns (o: Outcome)
      modifies this`requests, this`decisions, this`results
      ensures Model() == Decided(old(Model()), f, request, voter, vote, reason)
      ensures results == old(results)[f := o]
      ensures o == Done || (o == Refused && requests == old(requests) && decisions == old(decisions))
    {
      if voter !in users { o := Answer(f, Refused); return; }
      var role := users[voter];
      if request >= |requests| || !Eligible(requests[request], voter, role) { o := Answer(f, Refused); return; }
      if vote == Reject && reason == "" { o := Answer(f, Refused); return; }
      var required := requests[request].required;
      var ok := RecordDecision(Decision(request, voter, role, vote, reason));
      if !ok { o := Answer(f, Refused); return; }
      if vote == Reject {
        FinaliseRequest(request, Rejected);
      } else if CountApprovals(decisions, request) >= required {
        FinaliseRequest(request, Approved);
      }
      o := Answer(f, Done);
    }

    /** AdminResubmitRequest. */
    method Resubmit(prev: Id, requester: UserId) returns (o: Outcome)
      requires Valid()
      modifies this
      ensures Valid() && turn == old(turn) + 1
      ensures Model() == Serve(old(Model()), old(turn), CallResubmit(prev, requester))
      ensures results == old(results)[old(turn) := o]
      ensures o == Done || (o == Refused && requests == old(requests))
    {
      ghost var f, call := turn, CallResubmit(prev, requester);
      ServeIsRun(Model(), f, call);
      ResubmitServed(Model(), f, prev, requester);
      turn := turn + 1;
      if requester !in users || prev >= |requests| || requests[prev].key.requester != requester
         || requests[prev].status != Rejected
      {
        o := Answer(f, Refused); return;
      }
      var key, amount := requests[prev].key, requests[prev].amount;
      var b := MatchRule(rules, key.action, amount);
      if b.None? { o := Answer(f, Refused); return; }
      var next := Raise(Read(rules, b.value), key, amount);
      if next.None? { o := Answer(f, Refused); return; }
      requests := requests[next.value := requests[next.value].(supersedes := Some(prev))];
      o := Answer(f, Done); return;
    }

    /** AdminCreateApprovalRule: a required count of zero means one. */
    method CreateRule(key: nat, action: string, minAmount: real, required: int, approverRole: string,
                      deciders: set<string>) returns (ok: bool)
      requires Valid()
      modifies this`rules
      ensures Valid()
      ensures var r := Rule(key, action, minAmount, if required == 0 then 1 else required, approverRole, true);
              ok == Acceptable(r, deciders) && rules == if ok then old(rules) + [r] else old(rules)
      ensures ok <==> action in Actions && 0.0 <= minAmount && 0 <= required && approverRole in deciders
    {
      var r := Rule(key, action, minAmount, if required == 0 then 1 else required, approverRole, true);
      ok := Acceptable(r, deciders);
      if ok {
        ReachableApply(Model(), EditRules(rules + [r]));
        rules := rules + [r];
      }
    }

    /** AdminUpdateApprovalRule: requests and votes already on record are not looked at. */
    method UpdateRule(id: nat, minAmount: Option<real>, required: Option<int>, approverRole: Option<string>,
                      isActive: Option<bool>, deciders: set<string>) returns (ok: bool)
      requires Valid()
      modifies this`rules
      ensures Valid()
      ensures ok ==> id < |rules| && Acceptable(rules[id], deciders)
      ensures ok <==> (id < |old(rules)|
        && Acceptable(Edited(old(rules)[id], minAmount, required, approverRole, isActive), deciders))
      ensures rules == if ok
        then old(rules)[id := Edited(old(rules)[id], minAmount, required, approverRole, isActive)]
        else old(rules)
      ensures ok ==> rules[id].key == old(rules)[id].key && rules[id].action == old(rules)[id].action
      ensures ok && minAmount.Some? ==> rules[id].minAmount == minAmount.value >= 0.0
      ensures ok && required.Some? ==> rules[id].required == required.value >= 1
      ensures ok && approverRole.Some? ==> rules[id].approverRole == approverRole.value
      ensures ok && isActive.Some? ==> rules[id].active == isActive.value
      ensures ok && minAmount.None? ==> rules[id].minAmount == old(rules)[id].minAmount
      ensures ok && required.None? ==> rules[id].required == old(rules)[id].required
      ensures ok && approverRole.None? ==> rules[id].approverRole == old(rules)[id].approverRole
      ensures ok && isActive.None? ==> rules[id].active == old(rules)[id].active
    {
      if id >= |rules| { return false; }
      var next := rules[id];
      if minAmount.Some? { next := next.(minAmount := minAmount.value); }
      if required.Some? { next := next.(required := required.value); }
      if approverRole.Some? { next := next.(approverRole := approverRole.value); }
      if !Acceptable(next, deciders) { return false; }
      if isActive.Some? { next := next.(active := isActive.value); }
      ReachableApply(Model(), EditRules(rules[id := next]));
      rules := rules[id := next];
      ok := true;
    }
  }

  /** A rule somebody could satisfy: a known action, no negative floor, an approver role able to decide. */
  predicate Acceptable(r: Rule, deciders: set<string>) {
    r.action in Actions && 0.0 <= r.minAmount && 1 <= r.required && r.approverRole in deciders
  }

  const Actions: set<string> := {
    "deal.close_won", "deal.delete", "contract.sign", "contract.delete", "payment.record",
    "expense.record", "expense.settle", "purchase_order.issue"
  }

  function Or<T>(given: Option<T>, current: T): T {
    match given
    case None => current
    case Some(v) => v
  }

  function Edited(r: Rule, minAmount: Option<real>, required: Option<int>, approverRole: Option<string>,
                  isActive: Option<bool>): Rule {
    Rule(r.key, r.action, Or(minAmount, r.minAmount), Or(required, r.required),
         Or(approverRole, r.approverRole), Or(isActive, r.active))
  }
}
