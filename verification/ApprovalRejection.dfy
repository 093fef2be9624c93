/**
 Exactly what gets round a rejection. A gate call that has looked the triple up before the rejection
 still spends or raises what it then decided to; nothing else does, short of a resubmission. And a
 resubmission under way raises its request unless the one it names was not rejected.
 */
module ApprovalRejection {
  import opened Common
  import opened Approvals
  import opened ApprovalSafety
  import opened ApprovalTheorems
  import ApprovalAtomic

  /** A gate call of the triple between its look-up and what follows it. */
  ghost predicate GetsRound(s: Sys, g: FlightId, key: Triple) {
    g in s.flights && Past(s.flights[g], key)
  }

  /** The request is the newest of its triple, and rejected. */
  ghost predicate Stands(s: Sys, id: Id) {
    Newest(s.requests, id) && s.requests[id].status == Rejected
  }

  lemma SlotFree(s: Sys, id: Id)
    requires Inv(s) && Stands(s, id)
    ensures !SlotTaken(s.requests, s.requests[id].key)
  {
    var rs, key := s.requests, s.requests[id].key;
    forall i | 0 <= i < |rs| ensures rs[i].pendingKey != Some(key) {
      assert RowOk(rs, i);
      if i < id && rs[i].key == key { assert rs[i].status != Pending; }
    }
  }

  lemma RunOne(s: Sys, e: Event)
    ensures Run(s, [e]) == Apply(s, e)
  {
    assert [e][..0] == [] && Run(s, []) == s;
  }

  lemma RunTwo(s: Sys, a: Event, b: Event)
    ensures Run(s, [a, b]) == Apply(Apply(s, a), b)
  {
    assert [a, b][..1] == [a];
    RunOne(s, a);
  }

  // --- Gate calls past their look-up -------------------------------------------------------------

  lemma RaiseMoves(s: Sys, g: FlightId, id: Id)
    requires Inv(s) && Stands(s, id) && g in s.flights
    requires s.flights[g].GateRaise? && s.flights[g].key == s.requests[id].key
    ensures var s', n := Advance(s, g), |s.requests|;
      s'.requests == s.requests + [NewRequest(s.flights[g].key, s.flights[g].amount, s.flights[g].rule)]
      && g !in s'.flights && s'.passes == s.passes
  {
    SlotFree(s, id);
  }

  /** Two statements are enough: spending, or failing to and raising instead. */
  lemma GateMoves(s: Sys, g: FlightId, id: Id)
    requires Inv(s) && Stands(s, id) && GetsRound(s, g, s.requests[id].key)
    ensures !Unmoved(s, Apply(Apply(s, Next(g)), Next(g)), s.requests[id].key)
    ensures NoResubmission(s, [Next(g), Next(g)], s.requests[id].key)
  {
    var key, s1 := s.requests[id].key, Apply(s, Next(g));
    var s2 := Apply(s1, Next(g));
    assert [Next(g), Next(g)][..0] == [] && [Next(g), Next(g)][..1] == [Next(g)] && Run(s, []) == s;
    RunOne(s, Next(g));
    if s.flights[g].GateRaise? {
      RaiseMoves(s, g, id);
      assert s2.requests[|s.requests|].key == key;
    } else if g in s1.flights {
      AdvanceKeepsInv(s, g);
      assert s1.requests == s.requests && s1.flights[g].GateRaise?;
      RaiseMoves(s1, g, id);
      assert s2.requests[|s.requests|].key == key;
    } else {
      assert s2.passes[|s.passes|].Spent? && s2.passes[|s.passes|].key == key;
    }
  }

  /** Some continuation without a resubmission raises a request or spends an approval of the triple. */
  ghost predicate CanBeMoved(s: Sys, key: Triple) {
    exists es :: NoResubmission(s, es, key) && !Unmoved(s, Run(s, es), key)
  }

  /** A standing rejection can be got round exactly when a gate call is past its look-up. */
  lemma StandingExactly(s: Sys, id: Id)
    requires Inv(s) && Stands(s, id)
    ensures CanBeMoved(s, s.requests[id].key) <==> exists g :: GetsRound(s, g, s.requests[id].key)
  {
    var key := s.requests[id].key;
    if g :| GetsRound(s, g, key) {
      GateMoves(s, g, id);
      RunTwo(s, Next(g), Next(g));
      assert CanBeMoved(s, key);
    } else {
      assert Barred(s, id) by {
        forall f | f in s.flights ensures !Past(s.flights[f], key) { assert !GetsRound(s, f, key); }
      }
      forall es | NoResubmission(s, es, key) ensures Unmoved(s, Run(s, es), key) { RejectionHolds(s, es, id); }
    }
  }

  /** The same as the rejecting statement runs: who is past his look-up then decides it for good. */
  lemma RejectionExactly(s: Sys, f: FlightId, id: Id)
    requires Inv(s) && f in s.flights && s.flights[f] == Finalise(id, Rejected)
    requires id < |s.requests| && s.requests[id].status == Pending
    ensures Stands(Advance(s, f), id)
    ensures CanBeMoved(Advance(s, f), s.requests[id].key) <==> exists g :: GetsRound(s, g, s.requests[id].key)
  {
    var s', key := Advance(s, f), s.requests[id].key;
    assert Newest(s.requests, id);
    AdvanceKeepsInv(s, f);
    AdvanceMover(s, f);
    StandingExactly(s', id);
    forall g ensures GetsRound(s', g, key) <==> GetsRound(s, g, key) {
      assert g != f ==> (g in s'.flights <==> g in s'.flights - {f}) && (g in s.flights <==> g in s.flights - {f});
    }
  }

  // --- Resubmissions under way -----------------------------------------------------------------------

  /** A resubmission of a request of the triple that has not raised anything yet. */
  ghost predicate UnderWay(s: Sys, g: FlightId, key: Triple) {
    g in s.flights
    && match s.flights[g]
       case ResubmitLoad(prev, _) => prev < |s.requests| && s.requests[prev].key == key
       case ResubmitMatch(_, k, _) => k == key
       case ResubmitRaise(_, k, _, _) => k == key
       case _ => false
  }

  /** It names a rejected request of its own, or has seen to that already. */
  ghost predicate CanResubmit(s: Sys, g: FlightId, key: Triple) {
    UnderWay(s, g, key)
    && (s.flights[g].ResubmitLoad? ==>
          s.flights[g].who == key.requester && s.requests[s.flights[g].prev].status == Rejected)
  }

  /** Handler g has raised a request for the triple and is about to link it. */
  ghost predicate RaisedBy(s: Sys, g: FlightId, key: Triple) {
    g in s.flights && s.flights[g].ResubmitLink? && s.flights[g].next < |s.requests|
    && s.requests[s.flights[g].next].key == key
  }

  ghost predicate CanRaise(s: Sys, g: FlightId, key: Triple) {
    exists es :: RaisedBy(Run(s, es), g, key)
  }

  lemma RaiseFrom(s: Sys, g: FlightId, id: Id)
    requires Inv(s) && Stands(s, id) && UnderWay(s, g, s.requests[id].key) && s.flights[g].ResubmitRaise?
    ensures RaisedBy(Advance(s, g), g, s.requests[id].key)
  {
    SlotFree(s, id);
    assert Advance(s, g) == DoResubmitRaise(s, g, s.flights[g]);
  }

  /** A rule that covers the amount is all it still takes. */
  function CoveringRule(key: Triple, amount: real): Rule { Rule(0, key.action, amount, 1, "", true) }

  lemma CoveringRuleFound(key: Triple, amount: real)
    ensures MatchRule([CoveringRule(key, amount)], key.action, amount) == Some(0)
  {
    var rules := [CoveringRule(key, amount)];
    assert BestOf(rules, key.action, amount, 0) == None;
    assert BestOf(rules, key.action, amount, 1) == Some(0);
  }

  lemma MatchFrom(s: Sys, g: FlightId, id: Id)
    requires Inv(s) && Stands(s, id) && UnderWay(s, g, s.requests[id].key) && s.flights[g].ResubmitMatch?
    ensures var rules := [CoveringRule(s.flights[g].key, s.flights[g].amount)];
      var t := Apply(Apply(s, EditRules(rules)), Next(g));
      Inv(t) && Stands(t, id) && t.requests == s.requests
      && UnderWay(t, g, s.requests[id].key) && t.flights[g].ResubmitRaise?
  {
    var fl := s.flights[g];
    var rules := [CoveringRule(fl.key, fl.amount)];
    CoveringRuleFound(fl.key, fl.amount);
    var s1 := Apply(s, EditRules(rules));
    ApplyKeepsInv(s, EditRules(rules));
    ApplyKeepsInv(s1, Next(g));
    assert Apply(s1, Next(g)) == DoResubmitMatch(s1, g, fl);
  }

  lemma LoadFrom(s: Sys, g: FlightId, id: Id)
    requires Inv(s) && Stands(s, id) && CanResubmit(s, g, s.requests[id].key) && s.flights[g].ResubmitLoad?
    ensures var t := Apply(Apply(s, EditUsers(map[s.flights[g].who := ""])), Next(g));
      Inv(t) && Stands(t, id) && t.requests == s.requests
      && UnderWay(t, g, s.requests[id].key) && t.flights[g].ResubmitMatch?
  {
    var fl := s.flights[g];
    var s1 := Apply(s, EditUsers(map[fl.who := ""]));
    ApplyKeepsInv(s, EditUsers(map[fl.who := ""]));
    ApplyKeepsInv(s1, Next(g));
    assert Apply(s1, Next(g)) == DoResubmitLoad(s1, g, fl);
  }

  lemma RaisesFirst(s: Sys, t: Sys, es: seq<Event>, g: FlightId, key: Triple)
    requires t == Run(s, es) && CanRaise(t, g, key)
    ensures CanRaise(s, g, key)
  {
    var fs :| RaisedBy(Run(t, fs), g, key);
    RunAppend(s, es, fs);
    assert RaisedBy(Run(s, es + fs), g, key);
  }

  lemma RaisesMatched(s: Sys, g: FlightId, id: Id)
    requires Inv(s) && Stands(s, id) && UnderWay(s, g, s.requests[id].key) && s.flights[g].ResubmitMatch?
    ensures CanRaise(s, g, s.requests[id].key)
  {
    var key, e := s.requests[id].key, EditRules([CoveringRule(s.flights[g].key, s.flights[g].amount)]);
    MatchFrom(s, g, id);
    RunTwo(s, e, Next(g));
    var t := Run(s, [e, Next(g)]);
    RaiseFrom(t, g, id);
    RunOne(t, Next(g));
    assert RaisedBy(Run(t, [Next(g)]), g, key);
    RaisesFirst(s, t, [e, Next(g)], g, key);
  }

  lemma Raises(s: Sys, g: FlightId, id: Id)
    requires Inv(s) && Stands(s, id) && CanResubmit(s, g, s.requests[id].key)
    ensures CanRaise(s, g, s.requests[id].key)
  {
    var key, fl := s.requests[id].key, s.flights[g];
    if fl.ResubmitRaise? {
      RaiseFrom(s, g, id);
      RunOne(s, Next(g));
      assert RaisedBy(Run(s, [Next(g)]), g, key);
    } else if fl.ResubmitMatch? {
      RaisesMatched(s, g, id);
    } else {
      var e := EditUsers(map[fl.who := ""]);
      LoadFrom(s, g, id);
      RunTwo(s, e, Next(g));
      var t := Run(s, [e, Next(g)]);
      RaisesMatched(t, g, id);
      RaisesFirst(s, t, [e, Next(g)], g, key);
    }
  }

  /** Refused, or sure to be: it named a request that was approved, or somebody else's. */
  ghost predicate Hopeless(s: Sys, g: FlightId, key: Triple) {
    (g !in s.flights && g in s.results)
    || (UnderWay(s, g, key) && s.flights[g].ResubmitLoad?
        && (s.flights[g].who != key.requester
            || s.requests[s.flights[g].prev].status == Approved || s.requests[s.flights[g].prev].status == Consumed))
  }

  lemma HopelessStep(s: Sys, e: Event, g: FlightId, key: Triple)
    requires Inv(s) && Hopeless(s, g, key)
    ensures Hopeless(Apply(s, e), g, key)
  {
    if e.Next? && e.f in s.flights {
      AdvanceTables(s, e.f);
      AdvanceMover(s, e.f);
      if e.f != g {
        assert g in s.flights <==> g in s.flights - {e.f};
        assert g in Apply(s, e).flights <==> g in Apply(s, e).flights - {e.f};
      }
    }
  }

  lemma {:induction false} HopelessForever(s: Sys, es: seq<Event>, g: FlightId, key: Triple)
    requires Inv(s) && Hopeless(s, g, key)
    ensures Hopeless(Run(s, es), g, key)
  {
    if es != [] {
      var front := es[..|es| - 1];
      HopelessForever(s, front, g, key);
      RunKeepsInv(s, front);
      HopelessStep(Run(s, front), es[|es| - 1], g, key);
    }
  }

  /**
   Beside a standing rejection, and with rules and users edited as it may be, a resubmission under
   way can still raise its request exactly when it has loaded a rejected request already, or is
   about to load one that is its caller's own.
   */
  lemma ResubmissionExactly(s: Sys, g: FlightId, id: Id)
    requires Inv(s) && Stands(s, id) && UnderWay(s, g, s.requests[id].key)
    ensures CanRaise(s, g, s.requests[id].key) <==> CanResubmit(s, g, s.requests[id].key)
  {
    var key := s.requests[id].key;
    if CanResubmit(s, g, key) {
      Raises(s, g, id);
    } else {
      var prev := s.flights[g].prev;
      assert prev < id ==> s.requests[prev].status != Pending;
      forall es ensures !RaisedBy(Run(s, es), g, key) { HopelessForever(s, es, g, key); }
    }
  }

  // --- A rejection got round -------------------------------------------------------------------------

  lemma Walk(s0: Sys, es: seq<Event>, k: nat, s: Sys) returns (s': Sys)
    requires k < |es| && s == Run(s0, es[..k])
    ensures s' == Apply(s, es[k]) && s' == Run(s0, es[..k + 1])
  {
    s' := Apply(s, es[k]);
    assert es[..k + 1][..k] == es[..k];
  }

  const Key := Triple("expense.settle", 0, 1)
  const TheRule := Matched(0, 1, ApprovalAtomic.Desk)
  const Paying := CallGate("expense.settle", 0, Some(1), 5.0)

  /** One rule, one approver. */
  function World(requests: seq<Request>, decisions: seq<Decision>, flights: map<FlightId, Flight>,
                 results: map<FlightId, Outcome>): Sys {
    Sys([ApprovalAtomic.DeskRule], map[2 := ApprovalAtomic.Desk], requests, decisions, flights, results, [], {})
  }

  /** The first gate call, past its look-up. */
  const Waiting := map[0 := GateRaise(Key, 5.0, TheRule)]
  const Blocked := map[1 := BlockedBy(0)]

  /** It found nothing. */
  lemma Looked(s: Sys, s1: Sys, s2: Sys, s3: Sys)
    requires s == World([], [], map[], map[])
    requires s1 == Apply(s, Start(0, Paying)) && s2 == Apply(s1, Next(0)) && s3 == Apply(s2, Next(0))
    ensures s3 == World([], [], Waiting, map[])
  {
    ApprovalAtomic.DeskRuleGoverns();
    assert s1 == World([], [], map[0 := GateMatch("expense.settle", 0, Some(1), 5.0)], map[]);
    assert s2 == World([], [], map[0 := GateFind(Key, 5.0, TheRule)], map[]);
  }

  /** A second one, of the same requester, raises the request. */
  lemma Raised(s: Sys, s1: Sys, s2: Sys, s3: Sys, s4: Sys)
    requires s == World([], [], Waiting, map[])
    requires s1 == Apply(s, Start(1, Paying)) && s2 == Apply(s1, Next(1)) && s3 == Apply(s2, Next(1))
    requires s4 == Apply(s3, Next(1))
    ensures s4 == World([ApprovalAtomic.Open], [], Waiting, Blocked)
  {
    ApprovalAtomic.DeskRuleGoverns();
    assert s1 == World([], [], Waiting[1 := GateMatch("expense.settle", 0, Some(1), 5.0)], map[]);
    assert s2 == World([], [], Waiting[1 := GateFind(Key, 5.0, TheRule)], map[]);
    assert s3 == World([], [], Waiting[1 := GateRaise(Key, 5.0, TheRule)], map[]);
    assert NewRequest(Key, 5.0, TheRule) == ApprovalAtomic.Open;
    assert Waiting[1 := GateRaise(Key, 5.0, TheRule)] - {1} == Waiting;
  }

  /** The approver loads it to reject it. */
  lemma Opened(s: Sys, s1: Sys, s2: Sys, s3: Sys)
    requires s == World([ApprovalAtomic.Open], [], Waiting, Blocked)
    requires s1 == Apply(s, Start(2, CallVote(0, 2, Reject, "no"))) && s2 == Apply(s1, Next(2))
    requires s3 == Apply(s2, Next(2))
    ensures s3 == World([ApprovalAtomic.Open], [], Waiting[2 := VoteCast(0, 2, ApprovalAtomic.Desk, 1, Reject, "no")],
                        Blocked)
  {
    var open := [ApprovalAtomic.Open];
    assert s1 == World(open, [], Waiting[2 := VoteCaller(0, 2, Reject, "no")], Blocked);
    assert s2 == World(open, [], Waiting[2 := VoteLoad(0, 2, ApprovalAtomic.Desk, Reject, "no")], Blocked);
    assert s3.flights == Waiting[2 := VoteCast(0, 2, ApprovalAtomic.Desk, 1, Reject, "no")];
  }

  /** The rejection takes effect; and the first gate call goes on to raise. */
  lemma Ignored(s: Sys, s1: Sys, s2: Sys, s3: Sys)
    requires s == World([ApprovalAtomic.Open], [], Waiting[2 := VoteCast(0, 2, ApprovalAtomic.Desk, 1, Reject, "no")],
                        Blocked)
    requires s1 == Apply(s, Next(2)) && s2 == Apply(s1, Next(2)) && s3 == Apply(s2, Next(0))
    ensures s3.requests == [WithStatus(ApprovalAtomic.Open, Rejected), ApprovalAtomic.Open]
  {
    assert s1.requests == s.requests && s1.flights == Waiting[2 := Finalise(0, Rejected)];
    assert s2.requests == [WithStatus(ApprovalAtomic.Open, Rejected)] && s2.flights[0] == GateRaise(Key, 5.0, TheRule);
    assert NewRequest(Key, 5.0, TheRule) == ApprovalAtomic.Open;
  }

  const SetUp: seq<Event> := [EditRules([ApprovalAtomic.DeskRule]), EditUsers(map[2 := ApprovalAtomic.Desk])]
  const Raising: seq<Event> := [Start(0, Paying), Next(0), Next(0), Start(1, Paying), Next(1), Next(1), Next(1)]
  const Rejecting: seq<Event> := [Start(2, CallVote(0, 2, Reject, "no")), Next(2), Next(2), Next(2), Next(2), Next(0)]

  lemma SetUpRun()
    ensures Run(Empty, SetUp) == World([], [], map[], map[])
  {
    RunTwo(Empty, SetUp[0], SetUp[1]);
    assert SetUp == [SetUp[0], SetUp[1]];
  }

  lemma RaisingRun(s: Sys)
    requires s == World([], [], map[], map[])
    ensures Run(s, Raising) == World([ApprovalAtomic.Open], [], Waiting, Blocked)
  {
    assert Raising[..0] == [] && Raising[..7] == Raising;
    var s1 := Walk(s, Raising, 0, s);
    var s2 := Walk(s, Raising, 1, s1);
    var s3 := Walk(s, Raising, 2, s2);
    Looked(s, s1, s2, s3);
    var s4 := Walk(s, Raising, 3, s3);
    var s5 := Walk(s, Raising, 4, s4);
    var s6 := Walk(s, Raising, 5, s5);
    var s7 := Walk(s, Raising, 6, s6);
    Raised(s3, s4, s5, s6, s7);
  }

  lemma RejectingRun(s: Sys)
    requires s == World([ApprovalAtomic.Open], [], Waiting, Blocked)
    ensures Run(s, Rejecting).requests == [WithStatus(ApprovalAtomic.Open, Rejected), ApprovalAtomic.Open]
  {
    assert Rejecting[..0] == [] && Rejecting[..6] == Rejecting;
    var s1 := Walk(s, Rejecting, 0, s);
    var s2 := Walk(s, Rejecting, 1, s1);
    var s3 := Walk(s, Rejecting, 2, s2);
    Opened(s, s1, s2, s3);
    var s4 := Walk(s, Rejecting, 3, s3);
    var s5 := Walk(s, Rejecting, 4, s4);
    var s6 := Walk(s, Rejecting, 5, s5);
    Ignored(s3, s4, s5, s6);
  }

  /**
   A rejection got round. Two gate calls of one requester: the first looks, finds nothing and
   pauses; the second raises the request, which is rejected; then the first raises another one,
   which is pending and supersedes nothing.
   */
  lemma RejectionRound()
    ensures Run(Empty, SetUp + Raising + Rejecting).requests ==
      [WithStatus(ApprovalAtomic.Open, Rejected), ApprovalAtomic.Open]
  {
    SetUpRun();
    RaisingRun(Run(Empty, SetUp));
    RunAppend(Empty, SetUp, Raising);
    RejectingRun(Run(Empty, SetUp + Raising));
    RunAppend(Empty, SetUp + Raising, Rejecting);
  }
}
