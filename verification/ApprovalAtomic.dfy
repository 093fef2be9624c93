/**
 What holds of the approval engine when every call runs to its end before the next begins, and
 a run that shows it does not hold when votes interleave.
 */
module ApprovalAtomic {
  import opened Common
  import opened Approvals
  import opened ApprovalSafety
  import ApprovalTheorems
  import opened ApprovalHandlers
  import opened ApprovalOpposition

  datatype Act = Serving(call: Call) | Ruling(rules: seq<Rule>) | Staffing(users: map<UserId, string>)

  ghost function Perform(s: Sys, turn: FlightId, a: Act): Sys {
    match a
    case Serving(call) => Serve(s, turn, call)
    case Ruling(rules) => Apply(s, EditRules(rules))
    case Staffing(users) => Apply(s, EditUsers(users))
  }

  /** Call number n is served as flight n, alone. */
  ghost function InTurn(acts: seq<Act>): Sys {
    if acts == [] then Empty else Perform(InTurn(acts[..|acts| - 1]), |acts| - 1, acts[|acts| - 1])
  }

  /** A request somebody voted against is rejected, and only that. */
  ghost predicate Unopposed(s: Sys) {
    forall id :: 0 <= id < |s.requests| && HasReject(s.decisions, id) ==> s.requests[id].status == Rejected
  }

  ghost predicate Quiescent(s: Sys, turn: FlightId) {
    Reachable(s) && s.flights == map[] && (forall f :: f in s.results ==> f < turn) && Unopposed(s)
  }

  lemma VotesOnRows(s: Sys)
    requires Reachable(s)
    ensures forall k :: 0 <= k < |s.decisions| ==> s.decisions[k].request < |s.requests|
  {
    var es :| s == Run(Empty, es);
    ApprovalTheorems.ReachableInv(es);
    forall k | 0 <= k < |s.decisions| ensures s.decisions[k].request < |s.requests| {
      assert VoteOk(s.requests, s.decisions[k]);
    }
  }

  lemma FoundUnopposed(s: Sys, f: FlightId, key: Triple, amount: real, rule: Matched)
    requires Unopposed(s) && forall k :: 0 <= k < |s.decisions| ==> s.decisions[k].request < |s.requests|
    ensures Unopposed(Found(s, f, key, amount, rule))
  {}

  lemma GateUnopposed(s: Sys, f: FlightId, action: string, entity: nat, caller: Option<UserId>, amount: real)
    requires Unopposed(s) && forall k :: 0 <= k < |s.decisions| ==> s.decisions[k].request < |s.requests|
    ensures var s' := Gated(s, f, action, entity, caller, amount);
      Unopposed(s') && s'.flights == map[] && s'.results.Keys == s.results.Keys + {f}
  {
    var b := MatchRule(s.rules, action, amount);
    if b.Some? && caller.Some? {
      FoundUnopposed(s, f, Triple(action, entity, caller.value), amount, Read(s.rules, b.value));
    }
  }

  lemma VoteUnopposed(s: Sys, f: FlightId, request: Id, voter: UserId, vote: Vote, reason: string)
    requires Unopposed(s)
    ensures var s' := Decided(s, f, request, voter, vote, reason);
      Unopposed(s') && s'.flights == map[] && s'.results.Keys == s.results.Keys + {f}
  {
    if voter in s.users {
      var d := Decision(request, voter, s.users[voter], vote, reason);
      forall id: Id ensures HasReject(s.decisions + [d], id) <==>
        HasReject(s.decisions, id) || (request == id && vote == Reject)
      {
        RejectSnoc(s.decisions, d, id);
      }
    }
  }

  lemma ResubmitUnopposed(s: Sys, f: FlightId, prev: Id, requester: UserId)
    requires Unopposed(s) && forall k :: 0 <= k < |s.decisions| ==> s.decisions[k].request < |s.requests|
    ensures var s' := Resubmitted(s, f, prev, requester);
      Unopposed(s') && s'.flights == map[] && s'.results.Keys == s.results.Keys + {f}
  {}

  lemma PerformQuiescent(s: Sys, turn: FlightId, a: Act)
    requires Quiescent(s, turn)
    ensures Quiescent(Perform(s, turn, a), turn + 1)
  {
    VotesOnRows(s);
    match a
    case Serving(call) =>
      ServeIsRun(s, turn, call);
      match call {
        case CallGate(action, entity, caller, amount) =>
          GateServed(s, turn, action, entity, caller, amount);
          GateUnopposed(s, turn, action, entity, caller, amount);
        case CallVote(request, voter, vote, reason) =>
          VoteServed(s, turn, request, voter, vote, reason);
          VoteUnopposed(s, turn, request, voter, vote, reason);
        case CallResubmit(prev, requester) =>
          ResubmitServed(s, turn, prev, requester);
          ResubmitUnopposed(s, turn, prev, requester);
      }
    case Ruling(rules) => ReachableApply(s, EditRules(rules));
    case Staffing(users) => ReachableApply(s, EditUsers(users));
  }

  lemma {:induction false} InTurnQuiescent(acts: seq<Act>)
    ensures Quiescent(InTurn(acts), |acts|)
  {
    if acts == [] {
      assert Run(Empty, []) == Empty;
    } else {
      InTurnQuiescent(acts[..|acts| - 1]);
      PerformQuiescent(InTurn(acts[..|acts| - 1]), |acts| - 1, acts[|acts| - 1]);
    }
  }

  /** Served one call at a time, nothing that was voted against is ever approved or consumed. */
  lemma ApprovedUnopposed(acts: seq<Act>, id: Id)
    requires id < |InTurn(acts).requests|
    requires InTurn(acts).requests[id].status == Approved || InTurn(acts).requests[id].status == Consumed
    ensures !HasReject(InTurn(acts).decisions, id)
  {
    InTurnQuiescent(acts);
  }

  // --- And not when votes interleave ------------------------------------------------------

  const Desk := "admin"

  const Open := Request(Triple("expense.settle", 0, 1), 5.0, 1, Desk, 0, Pending,
                        Some(Triple("expense.settle", 0, 1)), None)

  /** One pending request, calling for one approval, and two people who may decide it. */
  ghost predicate AwaitsOne(s: Sys) {
    s.users == map[2 := Desk, 3 := Desk] && s.requests == [Open] && s.decisions == []
    && s.flights == map[] && 10 !in s.results && 11 !in s.results
  }

  /** Approver 2 is about to finalise when approver 3 records a rejection. */
  const Crossing: seq<Event> :=
    [Start(10, CallVote(0, 2, Approve, "")), Start(11, CallVote(0, 3, Reject, "no")),
     Next(10), Next(10), Next(11), Next(11), Next(10), Next(10), Next(11), Next(10)]

  const For := Decision(0, 2, Desk, Approve, "")
  const Against := Decision(0, 3, Desk, Reject, "no")

  /** Both have loaded the request and found it pending. */
  lemma BothLoaded(s: Sys)
    requires AwaitsOne(s)
    ensures Run(s, Crossing[..6]) ==
      s.(flights := map[10 := VoteCast(0, 2, Desk, 1, Approve, ""), 11 := VoteCast(0, 3, Desk, 1, Reject, "no")])
  {
    SixSteps(s, Crossing);
    var s2 := s.(flights := map[10 := VoteCaller(0, 2, Approve, ""), 11 := VoteCaller(0, 3, Reject, "no")]);
    assert Apply(Apply(s, Crossing[0]), Crossing[1]) == s2;
    Loads(s2, 10, 2, Approve, "");
    var s4 := s.(flights := map[10 := VoteCast(0, 2, Desk, 1, Approve, ""), 11 := VoteCaller(0, 3, Reject, "no")]);
    assert Apply(Apply(s2, Next(10)), Next(10)) == s4;
    Loads(s4, 11, 3, Reject, "no");
  }

  /** The first two statements of a vote on the pending request. */
  lemma Loads(s: Sys, f: FlightId, who: UserId, vote: Vote, reason: string)
    requires who in s.users && s.users[who] == Desk && who != 1 && s.requests == [Open]
    requires f in s.flights && s.flights[f] == VoteCaller(0, who, vote, reason) && (vote == Reject ==> reason != "")
    ensures Apply(Apply(s, Next(f)), Next(f)) == s.(flights := s.flights[f := VoteCast(0, who, Desk, 1, vote, reason)])
  {
    assert Apply(s, Next(f)) == DoVoteCaller(s, f, s.flights[f]);
    var s1 := Goto(s, f, VoteLoad(0, who, Desk, vote, reason));
    assert Apply(s1, Next(f)) == DoVoteLoad(s1, f, s1.flights[f]);
    var cast := VoteCast(0, who, Desk, 1, vote, reason);
    assert s1.flights[f := cast] == s.flights[f := cast];
  }

  lemma SixSteps(s: Sys, es: seq<Event>)
    requires |es| >= 6
    ensures Run(s, es[..6]) == Apply(Apply(Apply(Apply(Apply(Apply(s, es[0]), es[1]), es[2]), es[3]), es[4]), es[5])
  {
    assert Run(s, []) == s;
    forall k | 0 <= k < 6 ensures Run(s, es[..k + 1]) == Apply(Run(s, es[..k]), es[k]) {
      assert es[..k + 1] == es[..k] + [es[k]];
      RunSnoc(s, es[..k], es[k]);
    }
    assert es[..0] == [];
  }

  /** Approver 2 casts. */
  lemma Cast(s: Sys)
    requires s.requests == [Open] && s.decisions == []
    requires s.flights == map[10 := VoteCast(0, 2, Desk, 1, Approve, ""), 11 := VoteCast(0, 3, Desk, 1, Reject, "no")]
    ensures Apply(s, Next(10)) == s.(decisions := [For],
      flights := map[10 := VoteCount(0, 1), 11 := VoteCast(0, 3, Desk, 1, Reject, "no")])
  {}

  /** Approver 2 casts and counts. */
  lemma CastAndCounted(s: Sys)
    requires s.requests == [Open] && s.decisions == []
    requires s.flights == map[10 := VoteCast(0, 2, Desk, 1, Approve, ""), 11 := VoteCast(0, 3, Desk, 1, Reject, "no")]
    ensures var s2 := Apply(Apply(s, Next(10)), Next(10));
      s2.requests == [Open] && s2.decisions == [For]
      && s2.flights == map[10 := Finalise(0, Approved), 11 := VoteCast(0, 3, Desk, 1, Reject, "no")]
  {
    Cast(s);
    Counted(Apply(s, Next(10)));
  }

  lemma Counted(s: Sys)
    requires s.requests == [Open] && s.decisions == [For]
    requires s.flights == map[10 := VoteCount(0, 1), 11 := VoteCast(0, 3, Desk, 1, Reject, "no")]
    ensures Apply(s, Next(10)) ==
      s.(flights := map[10 := Finalise(0, Approved), 11 := VoteCast(0, 3, Desk, 1, Reject, "no")])
  {
    CountApproved();
  }

  /** Then approver 3 casts and approver 2 finalises. */
  lemma Crossed(s: Sys)
    requires s.requests == [Open] && s.decisions == [For]
    requires s.flights == map[10 := Finalise(0, Approved), 11 := VoteCast(0, 3, Desk, 1, Reject, "no")]
    ensures var end := Apply(Apply(s, Next(11)), Next(10));
      end.requests == [WithStatus(Open, Approved)] && end.decisions == [For] + [Against]
  {
    CountApproved();
    var s3 := Apply(s, Next(11));
    assert s3.decisions == [For] + [Against] && s3.flights[10] == Finalise(0, Approved);
  }

  lemma CountApproved()
    ensures CountApprovals([For], 0) == 1 && !HasVoted([For], 0, 3)
  {
    assert [For][..0] == [];
  }

  /**
   Interleaved, a rejecting vote can be on record for an approved request: it is cast while
   another handler is already finalising the approval.
   */
  lemma CrossingVotes(s: Sys)
    requires AwaitsOne(s)
    ensures var end := Run(s, Crossing);
      end.requests == [WithStatus(Open, Approved)] && HasReject(end.decisions, 0)
  {
    BothLoaded(s);
    var s6 := Run(s, Crossing[..6]);
    CastAndCounted(s6);
    Crossed(Apply(Apply(s6, Next(10)), Next(10)));
    LastFour(s, Crossing[..6]);
    assert Crossing == Crossing[..6] + [Next(10)] + [Next(10)] + [Next(11)] + [Next(10)];
    RejectSnoc([For], Against, 0);
  }

  lemma LastFour(s: Sys, es: seq<Event>)
    ensures Run(s, es + [Next(10)] + [Next(10)] + [Next(11)] + [Next(10)]) ==
      Apply(Apply(Apply(Apply(Run(s, es), Next(10)), Next(10)), Next(11)), Next(10))
  {
    RunSnoc(s, es, Next(10));
    RunSnoc(s, es + [Next(10)], Next(10));
    RunSnoc(s, es + [Next(10)] + [Next(10)], Next(11));
    RunSnoc(s, es + [Next(10)] + [Next(10)] + [Next(11)], Next(10));
  }

  const DeskRule := Rule(0, "expense.settle", 0.0, 1, Desk, true)
  const Asking := CallGate("expense.settle", 0, Some(1), 5.0)

  /** A rule and two accounts set up. */
  function Staffed(): Sys {
    Empty.(rules := [DeskRule], users := map[2 := Desk, 3 := Desk])
  }

  lemma StaffedReached()
    ensures InTurn([Ruling([DeskRule]), Staffing(map[2 := Desk, 3 := Desk])]) == Staffed()
  {
    var acts := [Ruling([DeskRule]), Staffing(map[2 := Desk, 3 := Desk])];
    assert acts[..1] == [Ruling([DeskRule])] && acts[..1][..0] == [];
    assert InTurn([]) == Empty;
    assert InTurn(acts[..1]) == Perform(Empty, 0, acts[0]);
  }

  lemma DeskRuleGoverns()
    ensures MatchRule([DeskRule], "expense.settle", 5.0) == Some(0)
  {
    var rules := [DeskRule];
    assert BestOf(rules, "expense.settle", 5.0, 0) == None;
    assert Covers(rules[0], "expense.settle", 5.0);
    assert BestOf(rules, "expense.settle", 5.0, 1) == Some(0);
  }

  lemma AskingRaises()
    ensures AwaitsOne(Serve(Staffed(), 2, Asking))
  {
    DeskRuleGoverns();
    GateServed(Staffed(), 2, "expense.settle", 0, Some(1), 5.0);
  }

  lemma ServedNext(acts: seq<Act>, call: Call)
    ensures InTurn(acts + [Serving(call)]) == Serve(InTurn(acts), |acts|, call)
  {
    assert (acts + [Serving(call)])[..|acts|] == acts;
  }

  /** And such a state is reached: a rule, two accounts, one gate call. */
  lemma AwaitingReached()
    ensures exists acts :: AwaitsOne(InTurn(acts))
  {
    var acts := [Ruling([DeskRule]), Staffing(map[2 := Desk, 3 := Desk])];
    StaffedReached();
    AskingRaises();
    ServedNext(acts, Asking);
    assert AwaitsOne(InTurn(acts + [Serving(Asking)]));
  }
}
