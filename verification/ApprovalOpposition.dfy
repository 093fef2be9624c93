/**
 When an approval stays unopposed. Approving is a single statement; a rejecting vote can still be
 recorded afterwards by a handler that loaded the request while it was pending, and by no other.
 */
module ApprovalOpposition {
  import opened Common
  import opened Approvals
  import opened ApprovalSafety
  import ApprovalTheorems

  /** Handler g is about to record a rejecting vote on the request, by somebody who has not voted on it. */
  ghost predicate MayOppose(s: Sys, g: FlightId, id: Id) {
    g in s.flights && s.flights[g].VoteCast? && s.flights[g].request == id && s.flights[g].vote == Reject
    && !HasVoted(s.decisions, id, s.flights[g].who)
  }

  /** Decided, not voted against, and nobody about to. */
  ghost predicate Unopposable(s: Sys, id: Id) {
    id < |s.requests| && s.requests[id].status != Pending && !HasReject(s.decisions, id)
    && forall g :: !MayOppose(s, g, id)
  }

  lemma RejectSnoc(ds: seq<Decision>, d: Decision, id: Id)
    ensures HasReject(ds + [d], id) <==> HasReject(ds, id) || (d.request == id && d.vote == Reject)
  {
    if HasReject(ds, id) { RejectGrows(ds, ds + [d], id); }
    if d.request == id && d.vote == Reject { assert (ds + [d])[|ds|] == d; }
  }

  lemma VotedGrows(ds: seq<Decision>, ds': seq<Decision>, id: Id, who: UserId)
    requires ds <= ds' && HasVoted(ds, id, who)
    ensures HasVoted(ds', id, who)
  {
    var k :| 0 <= k < |ds| && ds[k].request == id && ds[k].approver == who;
    assert ds'[k] == ds[k];
  }

  lemma CastUnopposed(s: Sys, f: FlightId, id: Id)
    requires Unopposable(s, id) && f in s.flights && s.flights[f].VoteCast? && !MayOppose(s, f, id)
    ensures !HasReject(Advance(s, f).decisions, id) && !MayOppose(Advance(s, f), f, id)
  {
    var fl := s.flights[f];
    RejectSnoc(s.decisions, Decision(fl.request, fl.who, fl.role, fl.vote, fl.reason), id);
  }

  /** Loading for a vote requires the request to be pending, so nobody new comes to oppose it. */
  lemma LoadUnopposed(s: Sys, f: FlightId, id: Id)
    requires Unopposable(s, id) && f in s.flights && s.flights[f].VoteLoad?
    ensures !MayOppose(Advance(s, f), f, id)
  {}

  lemma NoneElseCasts(s: Sys, f: FlightId, id: Id)
    requires f in s.flights && !s.flights[f].VoteCast? && !s.flights[f].VoteLoad?
    ensures !MayOppose(Advance(s, f), f, id)
  {}

  lemma AdvanceUnopposed(s: Sys, f: FlightId, id: Id)
    requires Inv(s) && Unopposable(s, id) && f in s.flights
    ensures Unopposable(Advance(s, f), id)
  {
    var s' := Advance(s, f);
    assert FlightOk(s.requests, s.decisions, s.flights[f]);
    AdvanceTables(s, f);
    AdvanceMover(s, f);
    AdvanceQuiet(s, f);
    assert !MayOppose(s, f, id);
    if s.flights[f].VoteCast? { CastUnopposed(s, f, id); }
    else if s.flights[f].VoteLoad? { LoadUnopposed(s, f, id); }
    else { NoneElseCasts(s, f, id); }
    forall g ensures !MayOppose(s', g, id) {
      if g != f && g in s'.flights {
        assert g in s'.flights - {f} && g in s.flights - {f};
        OtherUnopposing(s, s', g, id);
      }
    }
  }

  lemma OtherUnopposing(s: Sys, s': Sys, g: FlightId, id: Id)
    requires g in s.flights && g in s'.flights && s'.flights[g] == s.flights[g] && s.decisions <= s'.decisions
    requires !MayOppose(s, g, id)
    ensures !MayOppose(s', g, id)
  {
    if s.flights[g].VoteCast? && HasVoted(s.decisions, id, s.flights[g].who) {
      VotedGrows(s.decisions, s'.decisions, id, s.flights[g].who);
    }
  }

  lemma OutsideUnopposed(s: Sys, e: Event, id: Id)
    requires Unopposable(s, id) && !e.Next?
    ensures Unopposable(Apply(s, e), id)
  {
    var s' := Apply(s, e);
    forall g ensures !MayOppose(s', g, id) { assert !MayOppose(s, g, id); }
  }

  lemma {:induction false} UnopposedForever(s: Sys, es: seq<Event>, id: Id)
    requires Inv(s) && Unopposable(s, id)
    ensures Unopposable(Run(s, es), id)
  {
    if es != [] {
      var front, e := es[..|es| - 1], es[|es| - 1];
      UnopposedForever(s, front, id);
      RunKeepsInv(s, front);
      if e.Next? {
        if e.f in Run(s, front).flights { AdvanceUnopposed(Run(s, front), e.f, id); }
      } else {
        OutsideUnopposed(Run(s, front), e, id);
      }
    }
  }

  /** Such a handler does record its vote, if it runs next. */
  lemma Opposes(s: Sys, g: FlightId, id: Id)
    requires MayOppose(s, g, id)
    ensures HasReject(Run(s, [Next(g)]).decisions, id)
  {
    var fl := s.flights[g];
    assert [Next(g)][..0] == [] && Run(s, []) == s;
    RejectSnoc(s.decisions, Decision(fl.request, fl.who, fl.role, fl.vote, fl.reason), id);
  }

  ghost predicate NeverOpposed(s: Sys, id: Id) {
    forall es :: !HasReject(Run(s, es).decisions, id)
  }

  /** For a decided request: it is never voted against exactly when it has not been and nobody is about to. */
  lemma DecidedExactly(s: Sys, id: Id)
    requires Inv(s) && id < |s.requests| && s.requests[id].status != Pending
    ensures NeverOpposed(s, id) <==> !HasReject(s.decisions, id) && forall g :: !MayOppose(s, g, id)
  {
    if Unopposable(s, id) {
      forall es ensures !HasReject(Run(s, es).decisions, id) { UnopposedForever(s, es, id); }
    } else if HasReject(s.decisions, id) {
      assert Run(s, []) == s;
    } else {
      var g :| MayOppose(s, g, id);
      Opposes(s, g, id);
    }
  }

  /**
   An approved request never carries a rejection, in any continuation, exactly when, as the
   approving statement runs, there is no rejecting vote on it and no handler about to cast one.
   */
  lemma ApprovalExactly(s: Sys, f: FlightId, id: Id)
    requires Inv(s) && f in s.flights && s.flights[f] == Finalise(id, Approved)
    requires id < |s.requests| && s.requests[id].status == Pending
    ensures Advance(s, f).requests[id].status == Approved
    ensures NeverOpposed(Advance(s, f), id) <==> !HasReject(s.decisions, id) && forall g :: !MayOppose(s, g, id)
  {
    var s' := Advance(s, f);
    AdvanceKeepsInv(s, f);
    DecidedExactly(s', id);
    AdvanceMover(s, f);
    assert s'.decisions == s.decisions;
    forall g ensures MayOppose(s', g, id) <==> MayOppose(s, g, id) {
      assert g != f ==> (g in s'.flights <==> g in s'.flights - {f}) && (g in s.flights <==> g in s.flights - {f});
    }
  }
}
