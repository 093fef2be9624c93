/**
 What every interleaving of the approval engine keeps. The invariant is established by the empty
 system and preserved by every event; the theorems at the end read it off arbitrary runs.
 */
module ApprovalSafety {
  import opened Common
  import opened Approvals

  // --- The tables ----------------------------------------------------------------

  ghost predicate LinkOk(rs: seq<Request>, p: Id, n: Id) {
    p < n < |rs| && rs[p].status == Rejected && rs[p].key == rs[n].key && rs[p].amount == rs[n].amount
  }

  ghost predicate RowOk(rs: seq<Request>, i: Id)
    requires i < |rs|
  {
    && rs[i].required >= 1
    && rs[i].pendingKey == (if rs[i].status == Pending then Some(rs[i].key) else None)
    && (rs[i].supersedes.Some? ==> LinkOk(rs, rs[i].supersedes.value, i))
  }

  /** A pending request is the newest of its triple, so a triple has at most one. */
  ghost predicate PendingNewest(rs: seq<Request>) {
    forall i, j :: 0 <= i < j < |rs| && rs[i].key == rs[j].key ==> rs[i].status != Pending
  }

  ghost predicate VoteOk(rs: seq<Request>, d: Decision) {
    && d.request < |rs|
    && d.approver != rs[d.request].key.requester
    && d.role == rs[d.request].approverRole
    && (d.vote == Reject ==> d.reason != "")
  }

  ghost predicate OneVoteEach(ds: seq<Decision>) {
    forall a, b :: 0 <= a < b < |ds| ==> ds[a].request != ds[b].request || ds[a].approver != ds[b].approver
  }

  ghost predicate HasReject(ds: seq<Decision>, id: Id) {
    exists k :: 0 <= k < |ds| && ds[k].request == id && ds[k].vote == Reject
  }

  /** The votes behind a decided status. */
  ghost predicate Backed(r: Request, ds: seq<Decision>, id: Id) {
    && (r.status == Approved || r.status == Consumed ==> CountApprovals(ds, id) >= r.required)
    && (r.status == Rejected ==> HasReject(ds, id))
  }

  ghost predicate TablesOk(rs: seq<Request>, ds: seq<Decision>) {
    && (forall i :: 0 <= i < |rs| ==> RowOk(rs, i) && Backed(rs[i], ds, i))
    && PendingNewest(rs)
    && (forall k :: 0 <= k < |ds| ==> VoteOk(rs, ds[k]))
    && OneVoteEach(ds)
  }

  // --- Handlers in flight ----------------------------------------------------------

  ghost predicate Superseding(rs: seq<Request>, prev: Id, key: Triple, amount: real) {
    prev < |rs| && rs[prev].status == Rejected && rs[prev].key == key && rs[prev].amount == amount
  }

  /** What a handler in flight may rely on, however long ago it read it. */
  ghost predicate FlightOk(rs: seq<Request>, ds: seq<Decision>, fl: Flight) {
    match fl
    case GateSpend(key, _, _, found) => found < |rs| && rs[found].key == key
    case VoteCast(request, who, role, required, vote, reason) =>
      && request < |rs| && rs[request].required == required
      && rs[request].key.requester != who && rs[request].approverRole == role
      && (vote == Reject ==> reason != "")
    case VoteCount(request, required) => request < |rs| && rs[request].required == required
    case Finalise(request, status) =>
      && request < |rs| && (status == Approved || status == Rejected)
      && Backed(rs[request].(status := status), ds, request)
    case ResubmitMatch(prev, key, amount) => Superseding(rs, prev, key, amount)
    case ResubmitRaise(prev, key, amount, _) => Superseding(rs, prev, key, amount)
    case ResubmitLink(prev, next) => LinkOk(rs, prev, next)
    case _ => true
  }

  ghost predicate FlightsOk(s: Sys) {
    && (forall f :: f in s.flights ==> FlightOk(s.requests, s.decisions, s.flights[f]))
    && (forall f :: f in s.flights ==> f !in s.results)
  }

  ghost predicate Finaliser(s: Sys, f: FlightId, id: Id) {
    f in s.flights && s.flights[f].Finalise? && s.flights[f].request == id
  }

  ghost predicate Counter(s: Sys, f: FlightId, id: Id) {
    f in s.flights && (s.flights[f].VoteCount? || s.flights[f].Finalise?) && s.flights[f].request == id
  }

  /** A pending request whose outcome is already settled by its votes has a handler at work on it. */
  ghost predicate Attended(s: Sys, id: Id)
    requires id < |s.requests|
  {
    s.requests[id].status == Pending && id !in s.dropped ==>
      && (HasReject(s.decisions, id) ==> exists f :: Finaliser(s, f, id))
      && (CountApprovals(s.decisions, id) >= s.requests[id].required ==> exists f :: Counter(s, f, id))
  }

  // --- The log of passes -------------------------------------------------------------

  ghost predicate PassOk(s: Sys, p: Pass) {
    && p.flight in s.results && s.results[p.flight] == Proceed
    && match p
       case Free(_, action, amount, rules) => MatchRule(rules, action, amount) == None
       case Spent(_, id, key, amount) =>
         id < |s.requests| && s.requests[id].status == Consumed && s.requests[id].key == key
         && amount <= s.requests[id].amount
  }

  ghost predicate Apart(p: Pass, q: Pass) {
    p.flight != q.flight && (p.Spent? && q.Spent? ==> p.id != q.id)
  }

  ghost predicate SpentOn(passes: seq<Pass>, k: nat, id: Id) {
    k < |passes| && passes[k].Spent? && passes[k].id == id
  }

  ghost predicate MadeBy(passes: seq<Pass>, k: nat, f: FlightId) {
    k < |passes| && passes[k].flight == f
  }

  ghost predicate PassesOk(s: Sys) {
    && (forall k :: 0 <= k < |s.passes| ==> PassOk(s, s.passes[k]))
    && (forall a, b :: 0 <= a < b < |s.passes| ==> Apart(s.passes[a], s.passes[b]))
    && (forall id :: 0 <= id < |s.requests| && s.requests[id].status == Consumed ==>
          exists k :: SpentOn(s.passes, k, id))
    && (forall f :: f in s.results && s.results[f] == Proceed ==> exists k :: MadeBy(s.passes, k, f))
  }

  ghost predicate Inv(s: Sys) {
    && TablesOk(s.requests, s.decisions)
    && FlightsOk(s)
    && (forall id :: 0 <= id < |s.requests| ==> Attended(s, id))
    && PassesOk(s)
  }

  // --- Growth: what no event ever takes back ---------------------------------------

  ghost predicate Moves(a: Status, b: Status) {
    a == b || (a == Pending && b != Pending) || (a == Approved && b == Consumed)
  }

  /** Later rows and votes only add; a request's demands are those it was raised with. */
  ghost predicate Grows(rs: seq<Request>, ds: seq<Decision>, rs': seq<Request>, ds': seq<Decision>) {
    && |rs| <= |rs'| && ds <= ds'
    && forall i :: 0 <= i < |rs| ==>
         && rs'[i].key == rs[i].key && rs'[i].amount == rs[i].amount
         && rs'[i].required == rs[i].required && rs'[i].approverRole == rs[i].approverRole
         && rs'[i].rule == rs[i].rule && Moves(rs[i].status, rs'[i].status)
  }

  lemma {:induction false} CountGrows(ds: seq<Decision>, ds': seq<Decision>, id: Id)
    requires ds <= ds'
    ensures CountApprovals(ds, id) <= CountApprovals(ds', id)
    decreases |ds'|
  {
    if ds != ds' {
      assert ds <= ds'[..|ds'| - 1];
      CountGrows(ds, ds'[..|ds'| - 1], id);
    } else {
      assert ds == ds';
    }
  }

  lemma RejectGrows(ds: seq<Decision>, ds': seq<Decision>, id: Id)
    requires ds <= ds' && HasReject(ds, id)
    ensures HasReject(ds', id)
  {
    var k :| 0 <= k < |ds| && ds[k].request == id && ds[k].vote == Reject;
    assert ds'[k] == ds[k];
  }

  lemma BackedGrows(r: Request, ds: seq<Decision>, ds': seq<Decision>, id: Id)
    requires ds <= ds' && Backed(r, ds, id)
    ensures Backed(r, ds', id)
  {
    CountGrows(ds, ds', id);
    if HasReject(ds, id) { RejectGrows(ds, ds', id); }
  }

  lemma FlightStable(rs: seq<Request>, ds: seq<Decision>, rs': seq<Request>, ds': seq<Decision>, fl: Flight)
    requires Grows(rs, ds, rs', ds') && FlightOk(rs, ds, fl)
    ensures FlightOk(rs', ds', fl)
  {
    if fl.Finalise? { BackedGrows(rs[fl.request].(status := fl.status), ds, ds', fl.request); }
  }

  // --- Every table write keeps the tables in order -----------------------------------

  lemma UnvotedCount(rs: seq<Request>, ds: seq<Decision>, id: Id)
    requires forall k :: 0 <= k < |ds| ==> ds[k].request != id
    ensures CountApprovals(ds, id) == 0 && !HasReject(ds, id)
  {
    if ds != [] { UnvotedCount(rs, ds[..|ds| - 1], id); }
  }

  lemma RaiseKeepsTables(rs: seq<Request>, ds: seq<Decision>, key: Triple, amount: real, rule: Matched)
    requires TablesOk(rs, ds) && !SlotTaken(rs, key)
    ensures TablesOk(rs + [NewRequest(key, amount, rule)], ds)
    ensures Grows(rs, ds, rs + [NewRequest(key, amount, rule)], ds)
    ensures CountApprovals(ds, |rs|) == 0 && !HasReject(ds, |rs|)
  {
    var rs' := rs + [NewRequest(key, amount, rule)];
    forall i | 0 <= i < |rs'| ensures RowOk(rs', i) && Backed(rs'[i], ds, i) {
      if i < |rs| { assert RowOk(rs, i); }
    }
    forall i, j | 0 <= i < j < |rs'| && rs'[i].key == rs'[j].key ensures rs'[i].status != Pending {
      if j == |rs| { assert RowOk(rs, i); assert rs[i].pendingKey != Some(key); }
    }
    forall k | 0 <= k < |ds| ensures VoteOk(rs', ds[k]) { assert VoteOk(rs, ds[k]); }
    UnvotedCount(rs, ds, |rs|);
  }

  lemma DecideKeepsTables(rs: seq<Request>, ds: seq<Decision>, id: Id, st: Status)
    requires TablesOk(rs, ds) && id < |rs|
    requires Moves(rs[id].status, st) && st != Pending && Backed(rs[id].(status := st), ds, id)
    ensures var rs' := rs[id := WithStatus(rs[id], st)];
            TablesOk(rs', ds) && Grows(rs, ds, rs', ds)
  {
    var rs' := rs[id := WithStatus(rs[id], st)];
    forall i | 0 <= i < |rs'| ensures RowOk(rs', i) && Backed(rs'[i], ds, i) {
      assert RowOk(rs, i) && Backed(rs[i], ds, i);
    }
    forall k | 0 <= k < |ds| ensures VoteOk(rs', ds[k]) { assert VoteOk(rs, ds[k]); }
  }

  lemma VoteKeepsTables(rs: seq<Request>, ds: seq<Decision>, d: Decision)
    requires TablesOk(rs, ds) && VoteOk(rs, d) && !HasVoted(ds, d.request, d.approver)
    ensures TablesOk(rs, ds + [d]) && Grows(rs, ds, rs, ds + [d])
  {
    forall i | 0 <= i < |rs| ensures RowOk(rs, i) && Backed(rs[i], ds + [d], i) {
      BackedGrows(rs[i], ds, ds + [d], i);
    }
  }

  lemma LinkKeepsTables(rs: seq<Request>, ds: seq<Decision>, prev: Id, next: Id)
    requires TablesOk(rs, ds) && LinkOk(rs, prev, next)
    ensures var rs' := rs[next := rs[next].(supersedes := Some(prev))];
            TablesOk(rs', ds) && Grows(rs, ds, rs', ds)
  {
    var rs' := rs[next := rs[next].(supersedes := Some(prev))];
    forall i | 0 <= i < |rs'| ensures RowOk(rs', i) && Backed(rs'[i], ds, i) {
      assert RowOk(rs, i) && Backed(rs[i], ds, i);
    }
    forall k | 0 <= k < |ds| ensures VoteOk(rs', ds[k]) { assert VoteOk(rs, ds[k]); }
  }

  // --- Every event keeps tables and flights ------------------------------------------

  ghost predicate Ready(s: Sys, f: FlightId) {
    && TablesOk(s.requests, s.decisions) && FlightsOk(s) && f in s.flights
    && FlightOk(s.requests, s.decisions, s.flights[f])
  }

  /** Statements that read, or write nothing but a vote. */
  predicate RowsUntouched(fl: Flight) {
    !fl.GateSpend? && !fl.GateRaise? && !fl.Finalise? && !fl.ResubmitRaise? && !fl.ResubmitLink?
  }

  lemma UntouchedRows(s: Sys, f: FlightId)
    requires f in s.flights && RowsUntouched(s.flights[f])
    ensures Advance(s, f).requests == s.requests && Advance(s, f).dropped == s.dropped
    ensures !s.flights[f].VoteCast? ==> Advance(s, f).decisions == s.decisions
  {}

  ghost predicate TablesStep(s: Sys, s': Sys) {
    TablesOk(s'.requests, s'.decisions) && Grows(s.requests, s.decisions, s'.requests, s'.decisions)
  }

  lemma SameTables(s: Sys, s': Sys)
    requires TablesOk(s.requests, s.decisions)
    requires s'.requests == s.requests && s'.decisions == s.decisions
    ensures TablesStep(s, s')
  {}

  lemma SpendTables(s: Sys, f: FlightId, fl: Flight)
    requires Ready(s, f) && fl == s.flights[f] && fl.GateSpend?
    ensures TablesStep(s, DoGateSpend(s, f, fl))
  {
    if s.requests[fl.found].status == Approved && s.requests[fl.found].amount >= fl.amount {
      assert Backed(s.requests[fl.found], s.decisions, fl.found);
      DecideKeepsTables(s.requests, s.decisions, fl.found, Consumed);
    } else {
      SameTables(s, DoGateSpend(s, f, fl));
    }
  }

  lemma CastTables(s: Sys, f: FlightId, fl: Flight)
    requires Ready(s, f) && fl == s.flights[f] && fl.VoteCast?
    ensures TablesStep(s, DoVoteCast(s, f, fl))
  {
    if HasVoted(s.decisions, fl.request, fl.who) {
      SameTables(s, DoVoteCast(s, f, fl));
    } else {
      VoteKeepsTables(s.requests, s.decisions,
                      Decision(fl.request, fl.who, fl.role, fl.vote, fl.reason));
    }
  }

  lemma FinaliseTables(s: Sys, f: FlightId, fl: Flight)
    requires Ready(s, f) && fl == s.flights[f] && fl.Finalise?
    ensures TablesStep(s, DoFinalise(s, f, fl))
  {
    if s.requests[fl.request].status == Pending {
      DecideKeepsTables(s.requests, s.decisions, fl.request, fl.status);
    } else {
      SameTables(s, DoFinalise(s, f, fl));
    }
  }

  lemma RaiseTables(s: Sys, f: FlightId, fl: Flight)
    requires Ready(s, f) && fl == s.flights[f] && (fl.GateRaise? || fl.ResubmitRaise?)
    ensures TablesStep(s, if fl.GateRaise? then DoGateRaise(s, f, fl) else DoResubmitRaise(s, f, fl))
  {
    if SlotTaken(s.requests, fl.key) {
      SameTables(s, if fl.GateRaise? then DoGateRaise(s, f, fl) else DoResubmitRaise(s, f, fl));
    } else {
      RaiseKeepsTables(s.requests, s.decisions, fl.key, fl.amount, fl.rule);
    }
  }

  lemma AdvanceTables(s: Sys, f: FlightId)
    requires Ready(s, f)
    ensures TablesStep(s, Advance(s, f))
  {
    var fl := s.flights[f];
    match fl
    case GateSpend(_, _, _, _) => SpendTables(s, f, fl);
    case GateRaise(_, _, _) => RaiseTables(s, f, fl);
    case VoteCast(_, _, _, _, _, _) => CastTables(s, f, fl);
    case Finalise(_, _) => FinaliseTables(s, f, fl);
    case ResubmitRaise(_, _, _, _) => RaiseTables(s, f, fl);
    case ResubmitLink(prev, next) => LinkKeepsTables(s.requests, s.decisions, prev, next);
    case _ =>
      UntouchedRows(s, f);
      SameTables(s, Advance(s, f));
  }

  /** Only the mover's entry changes; it is in flight or has a result, and not both. */
  ghost predicate MoverStep(s: Sys, s': Sys, f: FlightId) {
    && s'.flights - {f} == s.flights - {f}
    && (f in s'.flights ==> s'.results == s.results)
    && (f !in s'.flights ==> f in s'.results && s'.results == s.results[f := s'.results[f]])
  }

  ghost predicate Went(s: Sys, s': Sys, f: FlightId) {
    || (f in s'.flights && s'.flights == s.flights[f := s'.flights[f]] && s'.results == s.results)
    || (f in s'.results && s'.flights == s.flights - {f} && s'.results == s.results[f := s'.results[f]])
  }

  lemma GateWent(s: Sys, f: FlightId, fl: Flight)
    ensures fl.GateMatch? ==> Went(s, DoGateMatch(s, f, fl), f)
    ensures fl.GateFind? ==> Went(s, DoGateFind(s, f, fl), f)
    ensures fl.GateSpend? ==> Went(s, DoGateSpend(s, f, fl), f)
    ensures fl.GateRaise? ==> Went(s, DoGateRaise(s, f, fl), f)
  {}

  lemma VoteWent(s: Sys, f: FlightId, fl: Flight)
    ensures fl.VoteCaller? ==> Went(s, DoVoteCaller(s, f, fl), f)
    ensures fl.VoteLoad? ==> Went(s, DoVoteLoad(s, f, fl), f)
    ensures fl.VoteCast? ==> Went(s, DoVoteCast(s, f, fl), f)
    ensures fl.VoteCount? ==> Went(s, DoVoteCount(s, f, fl), f)
    ensures fl.Finalise? ==> Went(s, DoFinalise(s, f, fl), f)
  {}

  lemma ResubmitWent(s: Sys, f: FlightId, fl: Flight)
    ensures fl.ResubmitLoad? ==> Went(s, DoResubmitLoad(s, f, fl), f)
    ensures fl.ResubmitMatch? ==> Went(s, DoResubmitMatch(s, f, fl), f)
    ensures fl.ResubmitRaise? ==> Went(s, DoResubmitRaise(s, f, fl), f)
    ensures fl.ResubmitLink? ==> Went(s, DoResubmitLink(s, f, fl), f)
  {}

  lemma WentMover(s: Sys, s': Sys, f: FlightId)
    requires Went(s, s', f) && f in s.flights
    ensures MoverStep(s, s', f)
  {}

  lemma AdvanceMover(s: Sys, f: FlightId)
    requires f in s.flights
    ensures MoverStep(s, Advance(s, f), f)
  {
    var fl := s.flights[f];
    GateWent(s, f, fl);
    VoteWent(s, f, fl);
    ResubmitWent(s, f, fl);
    assert Went(s, Advance(s, f), f);
    WentMover(s, Advance(s, f), f);
  }

  /** The handler that moved arrives somewhere it may be. */
  lemma AdvanceArrives(s: Sys, f: FlightId)
    requires Ready(s, f) && f in Advance(s, f).flights
    ensures FlightOk(Advance(s, f).requests, Advance(s, f).decisions, Advance(s, f).flights[f])
  {
    var fl := s.flights[f];
    if fl.VoteCast? { CastArrives(s, f, fl); }
    else if fl.ResubmitRaise? { RaiseArrives(s, f, fl); }
    else if fl.GateMatch? || fl.GateFind? || fl.GateSpend? || fl.GateRaise? { GateArrives(s, f, fl); }
    else if fl.VoteCaller? || fl.VoteLoad? || fl.VoteCount? || fl.Finalise? { VoteArrives(s, f, fl); }
    else { ResubmitArrives(s, f, fl); }
  }

  lemma GateArrives(s: Sys, f: FlightId, fl: Flight)
    requires Ready(s, f) && fl == s.flights[f] && f in Advance(s, f).flights
    requires fl.GateMatch? || fl.GateFind? || fl.GateSpend? || fl.GateRaise?
    ensures FlightOk(Advance(s, f).requests, Advance(s, f).decisions, Advance(s, f).flights[f])
  {}

  lemma VoteArrives(s: Sys, f: FlightId, fl: Flight)
    requires Ready(s, f) && fl == s.flights[f] && f in Advance(s, f).flights
    requires fl.VoteCaller? || fl.VoteLoad? || fl.VoteCount? || fl.Finalise?
    ensures FlightOk(Advance(s, f).requests, Advance(s, f).decisions, Advance(s, f).flights[f])
  {}

  lemma ResubmitArrives(s: Sys, f: FlightId, fl: Flight)
    requires Ready(s, f) && fl == s.flights[f] && f in Advance(s, f).flights
    requires fl.ResubmitLoad? || fl.ResubmitMatch? || fl.ResubmitLink?
    ensures FlightOk(Advance(s, f).requests, Advance(s, f).decisions, Advance(s, f).flights[f])
  {}

  lemma RaiseArrives(s: Sys, f: FlightId, fl: Flight)
    requires Ready(s, f) && fl == s.flights[f] && fl.ResubmitRaise? && f in DoResubmitRaise(s, f, fl).flights
    ensures var s' := DoResubmitRaise(s, f, fl); FlightOk(s'.requests, s'.decisions, s'.flights[f])
  {}

  lemma CastArrives(s: Sys, f: FlightId, fl: Flight)
    requires Ready(s, f) && fl == s.flights[f] && fl.VoteCast? && f in DoVoteCast(s, f, fl).flights
    ensures var s' := DoVoteCast(s, f, fl); FlightOk(s'.requests, s'.decisions, s'.flights[f])
  {
    if fl.vote == Reject {
      var ds' := s.decisions + [Decision(fl.request, fl.who, fl.role, fl.vote, fl.reason)];
      assert ds'[|s.decisions|].request == fl.request && ds'[|s.decisions|].vote == Reject;
      assert HasReject(ds', fl.request);
    }
  }

  lemma AdvanceFlights(s: Sys, f: FlightId)
    requires Ready(s, f)
    ensures FlightsOk(Advance(s, f))
  {
    var s' := Advance(s, f);
    AdvanceTables(s, f);
    AdvanceMover(s, f);
    if f in s'.flights { AdvanceArrives(s, f); }
    OthersStable(s, s', f);
  }

  lemma OthersStable(s: Sys, s': Sys, f: FlightId)
    requires FlightsOk(s) && f in s.flights && MoverStep(s, s', f) && TablesStep(s, s')
    requires f in s'.flights ==> FlightOk(s'.requests, s'.decisions, s'.flights[f])
    ensures FlightsOk(s')
  {
    forall g | g in s'.flights
      ensures FlightOk(s'.requests, s'.decisions, s'.flights[g]) && g !in s'.results
    {
      if g != f {
        assert g in s'.flights - {f} && g in s.flights - {f};
        FlightStable(s.requests, s.decisions, s'.requests, s'.decisions, s.flights[g]);
      }
    }
  }

  // --- Statements that admit nothing and record no vote --------------------------------

  ghost predicate AdmitsNothing(s: Sys, s': Sys, f: FlightId) {
    s'.passes == s.passes && (f in s'.results ==> s'.results[f] != Proceed || f in s.results)
  }

  ghost predicate VotesKept(s: Sys, s': Sys) { s'.decisions == s.decisions && s'.dropped == s.dropped }

  lemma GateQuiet(s: Sys, f: FlightId, fl: Flight)
    ensures fl.GateMatch? ==> VotesKept(s, DoGateMatch(s, f, fl))
    ensures fl.GateFind? ==> AdmitsNothing(s, DoGateFind(s, f, fl), f) && VotesKept(s, DoGateFind(s, f, fl))
    ensures fl.GateSpend? ==> VotesKept(s, DoGateSpend(s, f, fl))
    ensures fl.GateRaise? ==> AdmitsNothing(s, DoGateRaise(s, f, fl), f) && VotesKept(s, DoGateRaise(s, f, fl))
  {}

  lemma VoteQuiet(s: Sys, f: FlightId, fl: Flight)
    ensures fl.VoteCaller? ==> AdmitsNothing(s, DoVoteCaller(s, f, fl), f) && VotesKept(s, DoVoteCaller(s, f, fl))
    ensures fl.VoteLoad? ==> AdmitsNothing(s, DoVoteLoad(s, f, fl), f) && VotesKept(s, DoVoteLoad(s, f, fl))
    ensures fl.VoteCast? ==> AdmitsNothing(s, DoVoteCast(s, f, fl), f)
    ensures fl.VoteCount? ==> AdmitsNothing(s, DoVoteCount(s, f, fl), f) && VotesKept(s, DoVoteCount(s, f, fl))
    ensures fl.Finalise? ==> AdmitsNothing(s, DoFinalise(s, f, fl), f) && VotesKept(s, DoFinalise(s, f, fl))
  {}

  lemma ResubmitQuiet(s: Sys, f: FlightId, fl: Flight)
    ensures fl.ResubmitLoad? ==> AdmitsNothing(s, DoResubmitLoad(s, f, fl), f) && VotesKept(s, DoResubmitLoad(s, f, fl))
    ensures fl.ResubmitMatch? ==>
      AdmitsNothing(s, DoResubmitMatch(s, f, fl), f) && VotesKept(s, DoResubmitMatch(s, f, fl))
    ensures fl.ResubmitRaise? ==>
      AdmitsNothing(s, DoResubmitRaise(s, f, fl), f) && VotesKept(s, DoResubmitRaise(s, f, fl))
    ensures fl.ResubmitLink? ==> AdmitsNothing(s, DoResubmitLink(s, f, fl), f) && VotesKept(s, DoResubmitLink(s, f, fl))
  {}

  lemma AdvanceQuiet(s: Sys, f: FlightId)
    requires f in s.flights
    ensures !s.flights[f].GateMatch? && !s.flights[f].GateSpend? ==> AdmitsNothing(s, Advance(s, f), f)
    ensures !s.flights[f].VoteCast? ==> VotesKept(s, Advance(s, f))
  {
    GateQuiet(s, f, s.flights[f]);
    VoteQuiet(s, f, s.flights[f]);
    ResubmitQuiet(s, f, s.flights[f]);
  }

  // --- No settled request is left unattended -----------------------------------------

  /** Handlers other than the mover still attend to what they attended to. */
  lemma OthersAttend(s: Sys, s': Sys, f: FlightId, id: Id)
    requires s'.flights - {f} == s.flights - {f}
    requires id < |s.requests| && Attended(s, id) && s.dropped == s'.dropped
    requires id < |s'.requests|
    requires s'.requests[id].status == Pending ==> s.requests[id].status == Pending
    requires s'.requests[id].required == s.requests[id].required
    requires HasReject(s'.decisions, id) ==> HasReject(s.decisions, id)
    requires CountApprovals(s'.decisions, id) == CountApprovals(s.decisions, id)
    requires Finaliser(s, f, id) ==> Finaliser(s', f, id) || s'.requests[id].status != Pending
    requires Counter(s, f, id) ==> Counter(s', f, id) || s'.requests[id].status != Pending
                                   || CountApprovals(s.decisions, id) < s.requests[id].required
    ensures Attended(s', id)
  {
    if s'.requests[id].status == Pending && id !in s'.dropped {
      if HasReject(s'.decisions, id) {
        var g :| Finaliser(s, g, id);
        if g != f { assert g in s.flights - {f}; }
        assert Finaliser(s', g, id);
      }
      if CountApprovals(s'.decisions, id) >= s'.requests[id].required {
        var g :| Counter(s, g, id);
        if g != f { assert g in s.flights - {f}; }
        assert Counter(s', g, id);
      }
    }
  }

  /** A vote just recorded has its handler going on to count it, or to reject. */
  lemma CastAttends(s: Sys, s': Sys, f: FlightId, d: Decision, id: Id)
    requires s'.requests == s.requests && s'.dropped == s.dropped && s'.decisions == s.decisions + [d]
    requires s'.flights - {f} == s.flights - {f} && f in s.flights && s.flights[f].VoteCast?
    requires f in s'.flights && (if d.vote == Reject then Finaliser(s', f, d.request) else s'.flights[f].VoteCount?)
    requires f in s'.flights && Counter(s', f, d.request)
    requires id < |s.requests| && Attended(s, id)
    ensures Attended(s', id)
  {
    assert s'.decisions[..|s.decisions|] == s.decisions;
    if d.request == id && d.vote == Reject {
      assert Finaliser(s', f, id) && Counter(s', f, id);
    } else {
      assert HasReject(s'.decisions, id) ==> HasReject(s.decisions, id);
      if d.request != id {
        OthersAttend(s, s', f, id);
      } else if s'.requests[id].status == Pending && id !in s'.dropped && HasReject(s'.decisions, id) {
        var g :| Finaliser(s, g, id);
        assert g in s.flights - {f};
        assert Finaliser(s', g, id);
      }
    }
  }

  lemma VoteAttended(s: Sys, f: FlightId, id: Id)
    requires Ready(s, f) && s.flights[f].VoteCast?
    requires id < |s.requests| && Attended(s, id)
    ensures id < |Advance(s, f).requests| && Attended(Advance(s, f), id)
  {
    var s', fl := DoVoteCast(s, f, s.flights[f]), s.flights[f];
    AdvanceMover(s, f);
    if HasVoted(s.decisions, fl.request, fl.who) {
      OthersAttend(s, s', f, id);
    } else {
      CastAttends(s, s', f, Decision(fl.request, fl.who, fl.role, fl.vote, fl.reason), id);
    }
  }

  lemma FinaliseAttended(s: Sys, f: FlightId, id: Id)
    requires Ready(s, f) && s.flights[f].Finalise? && id < |s.requests| && Attended(s, id)
    ensures id < |Advance(s, f).requests| && Attended(Advance(s, f), id)
  {
    AdvanceMover(s, f);
    OthersAttend(s, DoFinalise(s, f, s.flights[f]), f, id);
  }

  lemma CountAttended(s: Sys, f: FlightId, id: Id)
    requires Ready(s, f) && s.flights[f].VoteCount? && id < |s.requests| && Attended(s, id)
    ensures id < |Advance(s, f).requests| && Attended(Advance(s, f), id)
  {
    AdvanceMover(s, f);
    OthersAttend(s, DoVoteCount(s, f, s.flights[f]), f, id);
  }

  /** The remaining statements are no part of a decision. */
  lemma ElsewhereAttended(s: Sys, f: FlightId, id: Id)
    requires Ready(s, f) && id < |s.requests| && Attended(s, id)
    requires !s.flights[f].VoteCast? && !s.flights[f].VoteCount? && !s.flights[f].Finalise?
    ensures id < |Advance(s, f).requests| && Attended(Advance(s, f), id)
  {
    var s' := Advance(s, f);
    AdvanceMover(s, f);
    AdvanceTables(s, f);
    AdvanceQuiet(s, f);
    OthersAttend(s, s', f, id);
  }

  lemma RaiseAttended(s: Sys, f: FlightId, id: Id)
    requires Ready(s, f) && |s.requests| <= id < |Advance(s, f).requests|
    ensures Attended(Advance(s, f), id)
  {
    var fl := s.flights[f];
    if RowsUntouched(fl) { UntouchedRows(s, f); }
    if fl.GateRaise? || fl.ResubmitRaise? {
      if !SlotTaken(s.requests, fl.key) {
        RaiseKeepsTables(s.requests, s.decisions, fl.key, fl.amount, fl.rule);
      }
    }
  }

  lemma AdvanceAttended(s: Sys, f: FlightId, id: Id)
    requires Ready(s, f) && forall i :: 0 <= i < |s.requests| ==> Attended(s, i)
    requires id < |Advance(s, f).requests|
    ensures Attended(Advance(s, f), id)
  {
    var fl := s.flights[f];
    if id >= |s.requests| { RaiseAttended(s, f, id); }
    else if fl.VoteCast? { VoteAttended(s, f, id); }
    else if fl.VoteCount? { CountAttended(s, f, id); }
    else if fl.Finalise? { FinaliseAttended(s, f, id); }
    else { ElsewhereAttended(s, f, id); }
  }

  // --- Passes and consumed requests correspond ---------------------------------------

  /** A step that consumes nothing and passes nobody. */
  lemma QuietPasses(s: Sys, s': Sys)
    requires PassesOk(s) && s'.passes == s.passes && Grows(s.requests, s.decisions, s'.requests, s'.decisions)
    requires forall f :: f in s.results ==> f in s'.results && s'.results[f] == s.results[f]
    requires forall f :: f in s'.results && f !in s.results ==> s'.results[f] != Proceed
    requires forall i :: 0 <= i < |s'.requests| && s'.requests[i].status == Consumed ==>
      i < |s.requests| && s.requests[i].status == Consumed
    ensures PassesOk(s')
  {
    forall k | 0 <= k < |s'.passes| ensures PassOk(s', s'.passes[k]) { assert PassOk(s, s.passes[k]); }
  }

  /** A step that admits one action: freely, or by consuming an approved request. */
  lemma PassKept(s: Sys, s': Sys, f: FlightId, p: Pass)
    requires PassesOk(s) && Grows(s.requests, s.decisions, s'.requests, s'.decisions)
    requires f !in s.results && p.flight == f && s'.results == s.results[f := Proceed]
    requires s'.passes == s.passes + [p] && PassOk(s', p)
    requires p.Spent? ==> p.id < |s.requests| && s.requests[p.id].status != Consumed
    requires forall i :: 0 <= i < |s'.requests| && s'.requests[i].status == Consumed ==>
      (i < |s.requests| && s.requests[i].status == Consumed) || (p.Spent? && p.id == i)
    ensures PassesOk(s')
  {
    var n := |s.passes|;
    forall k | 0 <= k < n ensures PassOk(s', s'.passes[k]) && Apart(s'.passes[k], p) {
      assert PassOk(s, s.passes[k]);
    }
    forall a, b | 0 <= a < b < |s'.passes| ensures Apart(s'.passes[a], s'.passes[b]) {
      if b < n { assert Apart(s.passes[a], s.passes[b]); }
    }
    forall i | 0 <= i < |s'.requests| && s'.requests[i].status == Consumed
      ensures exists k :: SpentOn(s'.passes, k, i)
    {
      if i < |s.requests| && s.requests[i].status == Consumed {
        var k :| SpentOn(s.passes, k, i);
        assert SpentOn(s'.passes, k, i);
      } else {
        assert SpentOn(s'.passes, n, i);
      }
    }
    forall g | g in s'.results && s'.results[g] == Proceed ensures exists k :: MadeBy(s'.passes, k, g) {
      if g == f {
        assert MadeBy(s'.passes, n, g);
      } else {
        var k :| MadeBy(s.passes, k, g);
        assert MadeBy(s'.passes, k, g);
      }
    }
  }

  lemma MatchPasses(s: Sys, f: FlightId)
    requires Ready(s, f) && PassesOk(s) && s.flights[f].GateMatch?
    ensures PassesOk(Advance(s, f))
  {
    var fl := s.flights[f];
    var s' := DoGateMatch(s, f, fl);
    if MatchRule(s.rules, fl.action, fl.amount) == None {
      PassKept(s, s', f, Free(f, fl.action, fl.amount, s.rules));
    } else {
      QuietPasses(s, s');
    }
  }

  lemma SpendPasses(s: Sys, f: FlightId)
    requires Ready(s, f) && PassesOk(s) && s.flights[f].GateSpend?
    ensures PassesOk(Advance(s, f))
  {
    var fl := s.flights[f];
    var s' := DoGateSpend(s, f, fl);
    SpendTables(s, f, fl);
    if s.requests[fl.found].status == Approved && s.requests[fl.found].amount >= fl.amount {
      PassKept(s, s', f, Spent(f, fl.found, fl.key, fl.amount));
    } else {
      QuietPasses(s, s');
    }
  }

  lemma ElsewherePasses(s: Sys, f: FlightId)
    requires Ready(s, f) && PassesOk(s) && !s.flights[f].GateMatch? && !s.flights[f].GateSpend?
    ensures PassesOk(Advance(s, f))
  {
    var s' := Advance(s, f);
    AdvanceTables(s, f);
    AdvanceMover(s, f);
    AdvanceQuiet(s, f);
    forall i | 0 <= i < |s'.requests| && s'.requests[i].status == Consumed
      ensures i < |s.requests| && s.requests[i].status == Consumed
    {
      NothingConsumed(s, f, i);
    }
    QuietPasses(s, s');
  }

  lemma NothingConsumed(s: Sys, f: FlightId, i: Id)
    requires Ready(s, f) && !s.flights[f].GateSpend?
    requires i < |Advance(s, f).requests| && Advance(s, f).requests[i].status == Consumed
    ensures i < |s.requests| && s.requests[i].status == Consumed
  {
    if RowsUntouched(s.flights[f]) { UntouchedRows(s, f); }
  }

  lemma AdvancePasses(s: Sys, f: FlightId)
    requires Ready(s, f) && PassesOk(s)
    ensures PassesOk(Advance(s, f))
  {
    var fl := s.flights[f];
    if fl.GateMatch? { MatchPasses(s, f); }
    else if fl.GateSpend? { SpendPasses(s, f); }
    else { ElsewherePasses(s, f); }
  }

  // --- The invariant -------------------------------------------------------------------

  lemma AdvanceKeepsInv(s: Sys, f: FlightId)
    requires Inv(s) && f in s.flights
    ensures Inv(Advance(s, f))
    ensures Grows(s.requests, s.decisions, Advance(s, f).requests, Advance(s, f).decisions)
  {
    AdvanceTables(s, f);
    AdvanceFlights(s, f);
    AdvancePasses(s, f);
    forall id | 0 <= id < |Advance(s, f).requests| ensures Attended(Advance(s, f), id) {
      AdvanceAttended(s, f, id);
    }
  }

  lemma CrashKeepsInv(s: Sys, f: FlightId)
    requires Inv(s) && f in s.flights
    ensures Inv(Apply(s, Crash(f)))
  {
    var s' := Apply(s, Crash(f));
    forall id | 0 <= id < |s'.requests| ensures Attended(s', id) {
      assert Attended(s, id);
      if s'.requests[id].status == Pending && id !in s'.dropped {
        if HasReject(s'.decisions, id) {
          var g :| Finaliser(s, g, id);
          assert Finaliser(s', g, id);
        }
        if CountApprovals(s'.decisions, id) >= s'.requests[id].required {
          var g :| Counter(s, g, id);
          assert Counter(s', g, id);
        }
      }
    }
    QuietPasses(s, s');
  }

  /** Adding handlers takes no handler off a request. */
  lemma StillAttended(s: Sys, s': Sys, id: Id)
    requires s'.requests == s.requests && s'.decisions == s.decisions && s'.dropped == s.dropped
    requires forall f :: f in s.flights ==> f in s'.flights && s'.flights[f] == s.flights[f]
    requires id < |s.requests| && Attended(s, id)
    ensures Attended(s', id)
  {
    if s.requests[id].status == Pending && id !in s.dropped {
      if HasReject(s.decisions, id) {
        var g :| Finaliser(s, g, id);
        assert Finaliser(s', g, id);
      }
      if CountApprovals(s.decisions, id) >= s.requests[id].required {
        var g :| Counter(s, g, id);
        assert Counter(s', g, id);
      }
    }
  }

  /** Events that only add a handler at its entry, or replace the rules or the users. */
  lemma OutsideKeepsInv(s: Sys, e: Event)
    requires Inv(s) && !e.Next? && !e.Crash?
    ensures Inv(Apply(s, e))
  {
    var s' := Apply(s, e);
    forall id | 0 <= id < |s'.requests| ensures Attended(s', id) { StillAttended(s, s', id); }
    QuietPasses(s, s');
  }

  lemma ApplyKeepsInv(s: Sys, e: Event)
    requires Inv(s)
    ensures Inv(Apply(s, e))
    ensures Grows(s.requests, s.decisions, Apply(s, e).requests, Apply(s, e).decisions)
  {
    if e.Next? {
      if e.f in s.flights { AdvanceKeepsInv(s, e.f); }
    } else if e.Crash? {
      if e.f in s.flights { CrashKeepsInv(s, e.f); }
    } else {
      OutsideKeepsInv(s, e);
    }
  }

  lemma {:induction false} RunKeepsInv(s: Sys, es: seq<Event>)
    requires Inv(s)
    ensures Inv(Run(s, es))
  {
    if es != [] {
      RunKeepsInv(s, es[..|es| - 1]);
      ApplyKeepsInv(Run(s, es[..|es| - 1]), es[|es| - 1]);
    }
  }
}
