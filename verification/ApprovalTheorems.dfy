/** What the approval engine promises, over every run from the empty system. */
module ApprovalTheorems {
  import opened Common
  import opened Approvals
  import opened ApprovalSafety

  lemma EmptyInv()
    ensures Inv(Empty)
  {}

  lemma ReachableInv(es: seq<Event>)
    ensures Inv(Run(Empty, es))
  {
    EmptyInv();
    RunKeepsInv(Empty, es);
  }

  // --- Maker and checker -----------------------------------------------------------

  /** The distinct people whose approving vote is on record for a request. */
  ghost function Approvers(ds: seq<Decision>, id: Id): set<UserId> {
    if ds == [] then {}
    else
      var d := ds[|ds| - 1];
      Approvers(ds[..|ds| - 1], id) + (if d.request == id && d.vote == Approve then {d.approver} else {})
  }

  ghost predicate Approving(ds: seq<Decision>, k: nat, id: Id, who: UserId) {
    k < |ds| && ds[k].request == id && ds[k].approver == who && ds[k].vote == Approve
  }

  lemma {:induction false} ApproversVoted(ds: seq<Decision>, id: Id, who: UserId)
    ensures who in Approvers(ds, id) <==> (exists k :: Approving(ds, k, id, who))
  {
    if ds != [] {
      var n := |ds| - 1;
      ApproversVoted(ds[..n], id, who);
      forall k: nat | k < n ensures Approving(ds[..n], k, id, who) <==> Approving(ds, k, id, who) {}
      if who in Approvers(ds[..n], id) {
        var k :| Approving(ds[..n], k, id, who);
        assert Approving(ds, k, id, who);
      }
      if exists k :: Approving(ds, k, id, who) {
        var k :| Approving(ds, k, id, who);
        assert k == n || Approving(ds[..n], k, id, who);
      }
      if Approving(ds, n, id, who) { assert ds[n].approver == who; }
    }
  }

  /** The unique index makes the number of approving rows the number of approving people. */
  lemma {:induction false} CountIsPeople(ds: seq<Decision>, id: Id)
    requires OneVoteEach(ds)
    ensures |Approvers(ds, id)| == CountApprovals(ds, id)
  {
    if ds != [] {
      var n := |ds| - 1;
      CountIsPeople(ds[..n], id);
      ApproversVoted(ds[..n], id, ds[n].approver);
    }
  }

  /**
   Every request that unlocked an action, or can, was signed off by as many distinct people as it
   was raised with, at least one, none of them the requester and all of them voting in the role
   it was raised with.
   */
  lemma ApprovedIsSignedOff(es: seq<Event>, id: Id)
    requires var s := Run(Empty, es);
             id < |s.requests| && (s.requests[id].status == Approved || s.requests[id].status == Consumed)
    ensures var s := Run(Empty, es);
            var r := s.requests[id];
            && 1 <= r.required <= |Approvers(s.decisions, id)|
            && r.key.requester !in Approvers(s.decisions, id)
            && forall k :: 0 <= k < |s.decisions| && s.decisions[k].request == id ==>
                 s.decisions[k].role == r.approverRole
  {
    var s := Run(Empty, es);
    ReachableInv(es);
    assert RowOk(s.requests, id) && Backed(s.requests[id], s.decisions, id);
    CountIsPeople(s.decisions, id);
    ApproversVoted(s.decisions, id, s.requests[id].key.requester);
    forall k | 0 <= k < |s.decisions| && s.decisions[k].request == id
      ensures s.decisions[k].role == s.requests[id].approverRole
           && s.decisions[k].approver != s.requests[id].key.requester
    {
      assert VoteOk(s.requests, s.decisions[k]);
    }
  }

  /** A rejected request carries a rejecting vote with its reason. */
  lemma RejectedIsExplained(es: seq<Event>, id: Id)
    requires id < |Run(Empty, es).requests| && Run(Empty, es).requests[id].status == Rejected
    ensures exists d :: d in Run(Empty, es).decisions && d.request == id && d.vote == Reject && d.reason != ""
  {
    var s := Run(Empty, es);
    ReachableInv(es);
    assert Backed(s.requests[id], s.decisions, id);
    var k :| 0 <= k < |s.decisions| && s.decisions[k].request == id && s.decisions[k].vote == Reject;
    assert VoteOk(s.requests, s.decisions[k]) && s.decisions[k] in s.decisions;
  }

  lemma RunAppend(s: Sys, es: seq<Event>, fs: seq<Event>)
    ensures Run(s, es + fs) == Run(Run(s, es), fs)
  {
    if fs == [] {
      assert es + fs == es;
    } else {
      RunAppend(s, es, fs[..|fs| - 1]);
      assert (es + fs)[..|es + fs| - 1] == es + fs[..|fs| - 1];
    }
  }

  /** What a request demands is fixed when it is raised, whatever happens to the rules afterwards. */
  lemma {:induction false} DemandsNeverChange(s: Sys, es: seq<Event>)
    requires Inv(s)
    ensures Grows(s.requests, s.decisions, Run(s, es).requests, Run(s, es).decisions)
  {
    if es != [] {
      DemandsNeverChange(s, es[..|es| - 1]);
      RunKeepsInv(s, es[..|es| - 1]);
      ApplyKeepsInv(Run(s, es[..|es| - 1]), es[|es| - 1]);
    }
  }

  // --- Nothing is left undecided -----------------------------------------------------

  /**
   Concurrent approvers cannot leave a fully voted request stuck: once the handlers deciding it
   have finished, a request that is still pending is one its votes have not settled, unless a
   handler was cut off between recording a vote on this very request and settling it.
   */
  lemma NothingStuck(es: seq<Event>, id: Id)
    requires id < |Run(Empty, es).requests| && id !in Run(Empty, es).dropped
    requires Run(Empty, es).requests[id].status == Pending
    requires forall f :: !Counter(Run(Empty, es), f, id)
    ensures var s := Run(Empty, es);
            !HasReject(s.decisions, id) && CountApprovals(s.decisions, id) < s.requests[id].required
  {
    var s := Run(Empty, es);
    ReachableInv(es);
    assert Attended(s, id);
    if HasReject(s.decisions, id) {
      var f :| Finaliser(s, f, id);
      assert Counter(s, f, id);
    }
  }

  /**
   What such a cut-off leaves behind: the request stays pending with votes that settle it on
   record and, if no other handler is deciding it, nothing at work on it.
   */
  lemma CutOffLeavesSettled(s: Sys, f: FlightId, id: Id, status: Status)
    requires Inv(s) && f in s.flights && s.flights[f] == Finalise(id, status) && s.requests[id].status == Pending
    ensures var s' := Apply(s, Crash(f));
            && s'.requests == s.requests && s'.decisions == s.decisions && id in s'.dropped
            && (if status == Approved then CountApprovals(s.decisions, id) >= s.requests[id].required
                else HasReject(s.decisions, id))
            && ((forall g :: g != f ==> !Counter(s, g, id)) ==> forall g :: !Counter(s', g, id))
  {
    var s' := Apply(s, Crash(f));
    assert FlightOk(s.requests, s.decisions, s.flights[f]);
    forall g | g != f ensures Counter(s', g, id) <==> Counter(s, g, id) {
      assert g in s'.flights <==> g in s.flights;
    }
  }

  // --- Passes ---------------------------------------------------------------------------

  ghost function ConsumedIds(rs: seq<Request>): set<int> {
    set i | i in Indices(|rs|) && rs[i].status == Consumed
  }

  ghost function SpentIds(ps: seq<Pass>): set<int> {
    if ps == [] then {}
    else SpentIds(ps[..|ps| - 1]) + (if ps[|ps| - 1].Spent? then {ps[|ps| - 1].id as int} else {})
  }

  function SpentCount(ps: seq<Pass>): nat {
    if ps == [] then 0 else SpentCount(ps[..|ps| - 1]) + (if ps[|ps| - 1].Spent? then 1 else 0)
  }

  lemma {:induction false} SpentIdsOf(ps: seq<Pass>, i: int)
    ensures i in SpentIds(ps) <==> exists k :: 0 <= k < |ps| && ps[k].Spent? && ps[k].id == i
  {
    if ps != [] {
      SpentIdsOf(ps[..|ps| - 1], i);
      assert forall k :: 0 <= k < |ps| - 1 ==> ps[..|ps| - 1][k] == ps[k];
    }
  }

  lemma {:induction false} SpentOnce(ps: seq<Pass>)
    requires forall a, b :: 0 <= a < b < |ps| ==> Apart(ps[a], ps[b])
    ensures |SpentIds(ps)| == SpentCount(ps)
  {
    if ps != [] {
      var n := |ps| - 1;
      SpentOnce(ps[..n]);
      if ps[n].Spent? {
        SpentIdsOf(ps[..n], ps[n].id);
        assert forall k :: 0 <= k < n ==> Apart(ps[k], ps[n]);
      }
    }
  }

  /**
   Admitted actions and spent approvals correspond one to one: every handler told to proceed left
   exactly one pass, a pass without an approval was one no rule then covered, every other pass
   spent an approval of the same action, entity and requester that was raised for at least the
   amount admitted, no approval was spent twice, and the numbers agree.
   */
  lemma PassesMatchConsumed(es: seq<Event>)
    ensures var s := Run(Empty, es);
            && (forall f :: f in s.results && s.results[f] == Proceed ==> exists k :: MadeBy(s.passes, k, f))
            && (forall k :: 0 <= k < |s.passes| ==> PassOk(s, s.passes[k]))
            && (forall a, b :: 0 <= a < b < |s.passes| ==> Apart(s.passes[a], s.passes[b]))
            && SpentIds(s.passes) == ConsumedIds(s.requests)
            && SpentCount(s.passes) == |ConsumedIds(s.requests)|
  {
    var s := Run(Empty, es);
    ReachableInv(es);
    forall i: int ensures i in SpentIds(s.passes) <==> i in ConsumedIds(s.requests) {
      SpentIdsOf(s.passes, i);
      if i in SpentIds(s.passes) {
        var k :| 0 <= k < |s.passes| && s.passes[k].Spent? && s.passes[k].id == i;
        assert PassOk(s, s.passes[k]);
      }
      if i in ConsumedIds(s.requests) {
        var k :| SpentOn(s.passes, k, i);
      }
    }
    SpentOnce(s.passes);
  }

  /** The unique slot is held exactly while a request is open, so no triple has two open requests. */
  lemma OneOpenRequest(es: seq<Event>, i: Id, j: Id)
    requires i < |Run(Empty, es).requests| && j < |Run(Empty, es).requests|
    ensures var rs := Run(Empty, es).requests;
            && (rs[i].pendingKey == Some(rs[i].key) <==> rs[i].status == Pending)
            && (rs[i].pendingKey == None <==> rs[i].status != Pending)
            && (rs[i].status == Pending && rs[j].status == Pending && rs[i].key == rs[j].key ==> i == j)
  {
    ReachableInv(es);
    assert RowOk(Run(Empty, es).requests, i);
  }

  // --- Resubmission ----------------------------------------------------------------------

  /** The requests a resubmission descends from, nearest first. */
  ghost function Ancestors(rs: seq<Request>, id: Id): (a: seq<Id>)
    requires id < |rs| && forall i :: 0 <= i < |rs| ==> RowOk(rs, i)
    decreases id
  {
    assert RowOk(rs, id);
    if rs[id].supersedes.None? then []
    else [rs[id].supersedes.value] + Ancestors(rs, rs[id].supersedes.value)
  }

  /** Strictly backwards, through rejected requests for the same thing at the same amount. */
  ghost predicate Descent(rs: seq<Request>, id: Id, a: seq<Id>)
    requires id < |rs|
  {
    forall k :: 0 <= k < |a| ==>
      && a[k] < (if k == 0 then id else a[k - 1]) && a[k] < |rs|
      && rs[a[k]].status == Rejected && rs[a[k]].key == rs[id].key && rs[a[k]].amount == rs[id].amount
  }

  lemma {:induction false} AncestorsAgree(rs: seq<Request>, id: Id)
    requires id < |rs| && forall i :: 0 <= i < |rs| ==> RowOk(rs, i)
    ensures Descent(rs, id, Ancestors(rs, id))
    decreases id
  {
    assert RowOk(rs, id);
    if rs[id].supersedes.Some? {
      var p := rs[id].supersedes.value;
      AncestorsAgree(rs, p);
      var a, up := Ancestors(rs, id), Ancestors(rs, p);
      assert a == [p] + up;
      forall k | 0 <= k < |a|
        ensures a[k] < (if k == 0 then id else a[k - 1]) && a[k] < |rs|
        ensures rs[a[k]].status == Rejected && rs[a[k]].key == rs[id].key && rs[a[k]].amount == rs[id].amount
      {
        if k > 0 {
          var j := k - 1;
          assert a[k] == up[j] && up[j] < (if j == 0 then p else up[j - 1]) && up[j] < |rs|;
          assert a[j] == if j == 0 then p else up[j - 1];
        } else {
          assert a[0] == p;
        }
      }
    }
  }

  /**
   A chain of resubmissions runs strictly backwards through rejected requests, all for the same
   action, entity, requester and amount. No atomicity is assumed.
   */
  lemma ResubmissionChain(es: seq<Event>, id: Id)
    requires id < |Run(Empty, es).requests|
    ensures var rs := Run(Empty, es).requests;
            (forall i :: 0 <= i < |rs| ==> RowOk(rs, i)) && Descent(rs, id, Ancestors(rs, id))
  {
    ReachableInv(es);
    AncestorsAgree(Run(Empty, es).requests, id);
  }

  // --- A rejection holds until it is resubmitted -------------------------------------------

  /** The newest request of a triple. */
  ghost predicate Newest(rs: seq<Request>, id: Id) {
    id < |rs| && forall j :: id < j < |rs| ==> rs[j].key != rs[id].key
  }

  /** A gate call for the triple that has looked and not yet spent or raised what it then decided to. */
  predicate Past(fl: Flight, key: Triple) {
    match fl
    case GateSpend(k, _, _, _) => k == key
    case GateRaise(k, _, _) => k == key
    case _ => false
  }

  ghost predicate Barred(s: Sys, id: Id) {
    && Newest(s.requests, id) && s.requests[id].status == Rejected
    && forall f :: f in s.flights ==> !Past(s.flights[f], s.requests[id].key)
  }

  /** The statement by which a resubmission raises a request for the triple. */
  ghost predicate Resubmits(s: Sys, e: Event, key: Triple) {
    e.Next? && e.f in s.flights && s.flights[e.f].ResubmitRaise? && s.flights[e.f].key == key
  }

  /** No request of the triple is raised and no approval of it is spent. */
  ghost predicate Unmoved(s: Sys, s': Sys, key: Triple) {
    && |s.requests| <= |s'.requests| && s.passes <= s'.passes
    && (forall j :: |s.requests| <= j < |s'.requests| ==> s'.requests[j].key != key)
    && (forall k :: |s.passes| <= k < |s'.passes| ==> s'.passes[k].Free? || s'.passes[k].key != key)
  }

  lemma {:induction false} LatestIsNewest(rs: seq<Request>, id: Id)
    requires Newest(rs, id) && Live(rs[id].status)
    ensures LatestLive(rs, rs[id].key) == Some(id)
  {
    if id < |rs| - 1 {
      assert rs[|rs| - 1].key != rs[id].key;
      LatestIsNewest(rs[..|rs| - 1], id);
    }
  }

  /** Looking the triple up finds the rejection, and the caller is turned away. */
  lemma BarredGateBlocked(s: Sys, f: FlightId, id: Id)
    requires Barred(s, id) && f in s.flights
    requires s.flights[f].GateFind? && s.flights[f].key == s.requests[id].key
    ensures Advance(s, f) == Finish(s, f, BlockedBy(id))
  {
    LatestIsNewest(s.requests, id);
  }

  /** The handlers that did not move are no further than they were. */
  lemma OthersNotPast(s: Sys, s': Sys, f: FlightId, id: Id)
    requires Barred(s, id) && Unmoved(s, s', s.requests[id].key) && s'.flights - {f} == s.flights - {f}
    requires forall i :: 0 <= i < |s.requests| ==> s'.requests[i].key == s.requests[i].key
    ensures forall g :: g in s'.flights && g != f ==> !Past(s'.flights[g], s.requests[id].key)
  {
    forall g | g in s'.flights && g != f ensures !Past(s'.flights[g], s.requests[id].key) {
      assert g in s'.flights - {f} && g in s.flights - {f};
    }
  }

  /** What one statement of handler f does around a rejection. */
  ghost predicate Skirts(s: Sys, s': Sys, f: FlightId, id: Id)
    requires id < |s.requests|
  {
    Unmoved(s, s', s.requests[id].key)
    && Newest(s'.requests, id) && s'.requests[id].status == Rejected
    && (forall i :: 0 <= i < |s.requests| ==> s'.requests[i].key == s.requests[i].key)
    && (f in s'.flights ==> !Past(s'.flights[f], s.requests[id].key))
  }

  lemma GateSkirts(s: Sys, f: FlightId, id: Id)
    requires Barred(s, id) && f in s.flights && FlightOk(s.requests, s.decisions, s.flights[f])
    requires var fl := s.flights[f]; fl.GateMatch? || fl.GateFind? || fl.GateSpend? || fl.GateRaise?
    ensures Skirts(s, Advance(s, f), f, id)
  {
    var fl := s.flights[f];
    assert !Past(fl, s.requests[id].key);
    if fl.GateFind? && fl.key == s.requests[id].key { BarredGateBlocked(s, f, id); }
  }

  lemma VoteSkirts(s: Sys, f: FlightId, id: Id)
    requires Barred(s, id) && f in s.flights && FlightOk(s.requests, s.decisions, s.flights[f])
    requires var fl := s.flights[f];
             fl.VoteCaller? || fl.VoteLoad? || fl.VoteCast? || fl.VoteCount? || fl.Finalise?
    ensures Skirts(s, Advance(s, f), f, id)
  {}

  lemma ResubmitSkirts(s: Sys, f: FlightId, id: Id)
    requires Barred(s, id) && f in s.flights && FlightOk(s.requests, s.decisions, s.flights[f])
    requires var fl := s.flights[f];
             fl.ResubmitLoad? || fl.ResubmitMatch? || fl.ResubmitRaise? || fl.ResubmitLink?
    requires !Resubmits(s, Next(f), s.requests[id].key)
    ensures Skirts(s, Advance(s, f), f, id)
  {}

  lemma BarredStep(s: Sys, f: FlightId, id: Id)
    requires Inv(s) && Barred(s, id) && f in s.flights && !Resubmits(s, Next(f), s.requests[id].key)
    ensures Barred(Advance(s, f), id) && Unmoved(s, Advance(s, f), s.requests[id].key)
  {
    var fl := s.flights[f];
    assert FlightOk(s.requests, s.decisions, fl);
    if fl.GateMatch? || fl.GateFind? || fl.GateSpend? || fl.GateRaise? { GateSkirts(s, f, id); }
    else if fl.ResubmitLoad? || fl.ResubmitMatch? || fl.ResubmitRaise? || fl.ResubmitLink? { ResubmitSkirts(s, f, id); }
    else { VoteSkirts(s, f, id); }
    AdvanceMover(s, f);
    OthersNotPast(s, Advance(s, f), f, id);
  }

  lemma BarredStays(s: Sys, e: Event, id: Id)
    requires Inv(s) && Barred(s, id) && !Resubmits(s, e, s.requests[id].key)
    ensures Barred(Apply(s, e), id) && Unmoved(s, Apply(s, e), s.requests[id].key)
    ensures Apply(s, e).requests[id].key == s.requests[id].key
  {
    if e.Next? && e.f in s.flights {
      AdvanceTables(s, e.f);
      BarredStep(s, e.f, id);
    }
  }

  /** No resubmission raises a request for the triple anywhere in the run. */
  ghost predicate NoResubmission(s: Sys, es: seq<Event>, key: Triple) {
    forall i :: 0 <= i < |es| ==> !Resubmits(Run(s, es[..i]), es[i], key)
  }

  /**
   From a rejection until a resubmission raises a request for the same action, entity and
   requester, no gate call raises one or spends an approval, however the handlers interleave.
   */
  lemma {:induction false} RejectionHolds(s: Sys, es: seq<Event>, id: Id)
    requires Inv(s) && Barred(s, id) && NoResubmission(s, es, s.requests[id].key)
    ensures Barred(Run(s, es), id) && Unmoved(s, Run(s, es), s.requests[id].key)
    ensures Run(s, es).requests[id].key == s.requests[id].key
  {
    if es != [] {
      var n := |es| - 1;
      forall i | 0 <= i < n ensures !Resubmits(Run(s, es[..n][..i]), es[..n][i], s.requests[id].key) {
        assert es[..n][..i] == es[..i];
      }
      RejectionHolds(s, es[..n], id);
      RunKeepsInv(s, es[..n]);
      BarredStays(Run(s, es[..n]), es[n], id);
    }
  }

  /**
   A rejection taking effect starts that period: the request being rejected is the newest of its
   triple, so nothing but a gate call already past its look-up can get round it, as
   ApprovalRejection.RejectionExactly shows that such a call can.
   */
  lemma RejectionBars(s: Sys, f: FlightId, id: Id)
    requires Inv(s) && f in s.flights && s.flights[f] == Finalise(id, Rejected)
    requires id < |s.requests| && s.requests[id].status == Pending
    requires forall g :: g in s.flights ==> !Past(s.flights[g], s.requests[id].key)
    ensures Barred(Advance(s, f), id)
  {
    var s' := Advance(s, f);
    assert Newest(s.requests, id);
    AdvanceMover(s, f);
    forall g | g in s'.flights ensures !Past(s'.flights[g], s'.requests[id].key) {
      assert g in s'.flights - {f} && g in s.flights - {f};
    }
  }

  // --- Which rule applies ----------------------------------------------------------------

  /** An active rule of the action whose floor the amount reaches. */
  ghost predicate Reached(rules: seq<Rule>, action: string, amount: real, j: nat)
    requires j < |rules|
  {
    rules[j].action == action && rules[j].active && rules[j].minAmount <= amount
  }

  /** Of the first k rules reached, none has a higher floor than b, or the same floor and a lower key. */
  ghost predicate Governs(rules: seq<Rule>, action: string, amount: real, k: nat, b: nat)
    requires b < |rules| && k <= |rules|
  {
    Reached(rules, action, amount, b)
    && (forall j :: 0 <= j < k && Reached(rules, action, amount, j) ==>
      rules[j].minAmount <= rules[b].minAmount
      && (rules[j].minAmount == rules[b].minAmount ==> rules[b].key <= rules[j].key))
  }

  lemma {:induction false} BestOfGoverns(rules: seq<Rule>, action: string, amount: real, k: nat)
    requires k <= |rules|
    ensures match BestOf(rules, action, amount, k)
            case None => (forall j :: 0 <= j < k ==> !Reached(rules, action, amount, j))
            case Some(b) => Governs(rules, action, amount, k, b)
  {
    if k > 0 { BestOfGoverns(rules, action, amount, k - 1); }
  }

  /**
   An action is ungated exactly when no active rule's floor is reached; else the highest floor
   governs and, as primary keys are unique, the lowest key among equal floors.
   */
  lemma HighestFloorGoverns(rules: seq<Rule>, action: string, amount: real)
    ensures match MatchRule(rules, action, amount)
            case None => (forall j :: 0 <= j < |rules| ==> !Reached(rules, action, amount, j))
            case Some(b) => Governs(rules, action, amount, |rules|, b)
    ensures UniqueKeys(rules) ==>
      forall b, c :: (0 <= b < |rules| && 0 <= c < |rules| && Governs(rules, action, amount, |rules|, b)
                      && Governs(rules, action, amount, |rules|, c)) ==> b == c
  {
    BestOfGoverns(rules, action, amount, |rules|);
  }

  ghost predicate UniqueKeys(rules: seq<Rule>) {
    forall i, j :: 0 <= i < j < |rules| ==> rules[i].key != rules[j].key
  }
}
