/** What the session protocol promises, over every interleaving. */
module SessionTheorems {
  import opened Common
  import opened Sessions
  import opened SessionSafety

  // --- One live token, one successor -------------------------------------------------

  /** Tokens of the family a client could still exchange. */
  ghost function LiveIn(s: Sys, family: Id): set<int> {
    set i | i in Indices(|s.tokens|) && s.tokens[i].family == family && LiveToken(s.tokens[i])
  }

  ghost predicate ClaimsOn(s: Sys, f: FlightId, family: Id) {
    f in s.flights && Claiming(s.flights[f]) && s.flights[f].family == family
  }

  /** Rotations of the family that have spent a token and not yet written its successor. */
  ghost function Claims(s: Sys, family: Id): set<FlightId> {
    set f | f in s.flights && ClaimsOn(s, f, family)
  }

  lemma AtMostOne<T>(a: set<T>)
    requires forall x, y :: x in a && y in a ==> x == y
    ensures |a| <= 1
  {
    if a != {} {
      var x :| x in a;
      assert a == {x};
    }
  }

  lemma ClaimIsNewest(s: Sys, f: FlightId, family: Id, i: Id)
    requires Inv(s) && ClaimsOn(s, f, family) && i < |s.tokens| && s.tokens[i].family == family
    requires NewestOf(s.tokens, i) || LiveToken(s.tokens[i])
    ensures i == s.flights[f].id && !LiveToken(s.tokens[i])
  {
    assert FlightOk(s, s.flights[f]);
    var id := s.flights[f].id;
    assert s.tokens[i].family == s.tokens[id].family;
  }

  lemma OneClaimEach(s: Sys, family: Id)
    requires Inv(s)
    ensures |Claims(s, family)| <= 1
  {
    assert forall f, g :: f in s.flights && g in s.flights && f != g ==> OneClaim(s.flights[f], s.flights[g]);
    forall f, g | f in Claims(s, family) && g in Claims(s, family) ensures f == g {
      assert FlightOk(s, s.flights[g]);
      ClaimIsNewest(s, f, family, s.flights[g].id);
    }
    AtMostOne(Claims(s, family));
  }

  lemma OneLiveEach(s: Sys, family: Id)
    requires TokensOk(s.tokens)
    ensures |LiveIn(s, family)| <= 1
  {
    forall i, j | i in LiveIn(s, family) && j in LiveIn(s, family) ensures i == j {}
    AtMostOne(LiveIn(s, family));
  }

  lemma NotBoth(s: Sys, family: Id)
    requires Inv(s)
    ensures LiveIn(s, family) == {} || Claims(s, family) == {}
  {
    if i, f :| i in LiveIn(s, family) && f in Claims(s, family) {
      ClaimIsNewest(s, f, family, i);
    }
  }

  /**
   Under any interleaving of rotations and revocations a family has at most one credential that
   can produce a successor: a live token, or a rotation between its claim and its append.
   */
  lemma OneLiveToken(ttl: nat, es: seq<Event>, family: Id)
    ensures var s := Run(Empty(ttl), es); |LiveIn(s, family)| + |Claims(s, family)| <= 1
  {
    var s := Run(Empty(ttl), es);
    ReachableInv(ttl, es);
    OneClaimEach(s, family);
    OneLiveEach(s, family);
    NotBoth(s, family);
  }

  /**
   A family is a chain: every token but the first directly follows the spent one it replaced, so
   no token has two successors, and no token is exchanged twice.
   */
  lemma FamilyIsChain(ttl: nat, es: seq<Event>)
    ensures var s := Run(Empty(ttl), es);
            && (forall i, p :: 0 <= i < |s.tokens| && s.tokens[i].parent == Some(p) ==> Follows(s.tokens, p, i))
            && (forall i, j :: 0 <= i < j < |s.tokens| ==> NotSiblings(s.tokens[i], s.tokens[j]))
            && DistinctIds(s.rotated)
  {
    var s := Run(Empty(ttl), es);
    ReachableInv(ttl, es);
    forall i, p | 0 <= i < |s.tokens| && s.tokens[i].parent == Some(p) ensures Follows(s.tokens, p, i) {
      assert LinkOk(s.tokens, i);
    }
    forall i, j | 0 <= i < j < |s.tokens| ensures NotSiblings(s.tokens[i], s.tokens[j]) {
      assert LinkOk(s.tokens, i) && LinkOk(s.tokens, j);
    }
  }

  predicate NotSiblings(a: Token, b: Token) { a.parent.Some? ==> a.parent != b.parent }

  // --- Replay ------------------------------------------------------------------------------

  /** All revoked, nothing on its way: the family is over. */
  ghost predicate Dead(s: Sys, family: Id) {
    && family < |s.tokens|
    && (forall i :: 0 <= i < |s.tokens| && s.tokens[i].family == family ==> s.tokens[i].revoked)
    && (forall f :: !ClaimsOn(s, f, family))
  }

  /** The rest of the world, as far as sessions go. */
  ghost predicate OthersUntouched(s: Sys, s': Sys, family: Id) {
    && |s'.tokens| == |s.tokens| && s'.accounts == s.accounts && s'.issued == s.issued && s'.resets == s.resets
    && forall i :: 0 <= i < |s.tokens| && s.tokens[i].family != family ==> s'.tokens[i] == s.tokens[i]
  }

  /**
   Presenting a spent, unexpired, unrevoked token ends its family, provided no rotation of the
   family is between its claim and its append, and leaves every other family alone.
   */
  lemma ReplayKillsFamily(s: Sys, f: FlightId, i: Id)
    requires Inv(s) && f in s.flights && s.flights[f] == RotateLoad(i)
    requires i < |s.tokens| && s.tokens[i].used && !s.tokens[i].revoked && s.clock <= s.tokens[i].expires
    requires forall g :: !ClaimsOn(s, g, s.tokens[i].family)
    ensures f in Advance(s, f).flights
    ensures var s' := Advance(Advance(s, f), f);
            && f in s'.results && s'.results[f] == Rejected
            && Dead(s', s.tokens[i].family) && OthersUntouched(s, s', s.tokens[i].family)
  {
    var family := s.tokens[i].family;
    assert LinkOk(s.tokens, i);
    var s1 := Advance(s, f);
    assert s1 == Goto(s, f, KillFamily(family));
    var s' := Advance(s1, f);
    assert s' == Finish(s1, f, Rejected).(tokens := RevokeFamily(s1.tokens, family));
    forall g ensures !ClaimsOn(s', g, family) {
      if ClaimsOn(s', g, family) { assert ClaimsOn(s, g, family); }
    }
  }

  /** No exchange of a dead family's tokens is logged from s to s', and it gains no token. */
  ghost predicate NoneRotated(s: Sys, s': Sys, family: Id) {
    && s.rotated <= s'.rotated && |s.tokens| <= |s'.tokens|
    && (forall k :: |s.rotated| <= k < |s'.rotated| && s'.rotated[k] < |s'.tokens| ==>
          s'.tokens[s'.rotated[k]].family != family)
    && (forall j :: |s.tokens| <= j < |s'.tokens| ==> s'.tokens[j].family != family)
  }

  /** What one step can do to a dead family, stated of the table rows. */
  lemma DeadRows(s: Sys, f: FlightId, family: Id)
    requires Inv(s) && Dead(s, family) && f in s.flights && TokensGrow(s.tokens, Advance(s, f).tokens)
    ensures NoneRotated(s, Advance(s, f), family)
    ensures forall i :: 0 <= i < |Advance(s, f).tokens| && Advance(s, f).tokens[i].family == family ==>
      Advance(s, f).tokens[i].revoked
    ensures !ClaimsOn(Advance(s, f), f, family)
  {
    var fl := s.flights[f];
    assert FlightOk(s, fl) && !ClaimsOn(s, f, family);
    if fl.RotateLoad? || fl.RotateClaim? || fl.RotateUser? || fl.KillFamily? { DeadRotate(s, f, family); }
    else if fl.RotateAppend? { DeadAppend(s, f, family); }
    else { DeadElse(s, f, family); }
  }

  lemma DeadRotate(s: Sys, f: FlightId, family: Id)
    requires Inv(s) && Dead(s, family) && f in s.flights && !ClaimsOn(s, f, family) && FlightOk(s, s.flights[f])
    requires var fl := s.flights[f]; fl.RotateLoad? || fl.RotateClaim? || fl.RotateUser? || fl.KillFamily?
    ensures var s' := Advance(s, f);
            NoneRotated(s, s', family) && !ClaimsOn(s', f, family) && |s'.tokens| == |s.tokens|
            && (forall i :: 0 <= i < |s.tokens| && s.tokens[i].family == family ==> s'.tokens[i].revoked)
            && (forall i :: 0 <= i < |s.tokens| ==> s'.tokens[i].family == s.tokens[i].family)
  {}

  lemma DeadAppend(s: Sys, f: FlightId, family: Id)
    requires Inv(s) && Dead(s, family) && f in s.flights && !ClaimsOn(s, f, family) && FlightOk(s, s.flights[f])
    requires s.flights[f].RotateAppend?
    ensures var s' := Advance(s, f);
            NoneRotated(s, s', family) && !ClaimsOn(s', f, family)
            && (forall i :: 0 <= i < |s'.tokens| && s'.tokens[i].family == family ==> s'.tokens[i].revoked)
  {
    assert Advance(s, f) == DoRotateAppend(s, f, s.flights[f]);
  }

  lemma DeadElse(s: Sys, f: FlightId, family: Id)
    requires Inv(s) && Dead(s, family) && f in s.flights
    requires var fl := s.flights[f]; !fl.RotateLoad? && !fl.RotateClaim? && !Claiming(fl) && !fl.KillFamily?
    ensures var s' := Advance(s, f);
            NoneRotated(s, s', family) && !ClaimsOn(s', f, family)
            && (forall i :: 0 <= i < |s'.tokens| && s'.tokens[i].family == family ==> s'.tokens[i].revoked)
  {}

  lemma DeadAdvance(s: Sys, f: FlightId, family: Id)
    requires Inv(s) && Dead(s, family) && f in s.flights
    ensures Dead(Advance(s, f), family) && NoneRotated(s, Advance(s, f), family)
  {
    AdvanceStep(s, f);
    DeadRows(s, f, family);
    forall g ensures !ClaimsOn(Advance(s, f), g, family) {
      if g != f { OthersSame(s, f, g); assert !ClaimsOn(s, g, family); }
    }
  }

  ghost predicate Went(s: Sys, s': Sys, f: FlightId) {
    || (f in s'.flights && s'.flights == s.flights[f := s'.flights[f]])
    || s'.flights == s.flights - {f}
  }

  lemma RotateWent(s: Sys, f: FlightId, fl: Flight)
    ensures fl.RotateLoad? ==> Went(s, DoRotateLoad(s, f, fl), f)
    ensures fl.RotateClaim? ==> Went(s, DoRotateClaim(s, f, fl), f)
    ensures fl.RotateUser? ==> Went(s, DoRotateUser(s, f, fl), f)
    ensures fl.RotateAppend? ==> Went(s, DoRotateAppend(s, f, fl), f)
    ensures fl.KillFamily? ==> Went(s, DoKillFamily(s, f, fl), f)
  {}

  lemma ElseWent(s: Sys, f: FlightId, fl: Flight)
    ensures fl.LoginCheck? ==> Went(s, DoLoginCheck(s, f, fl), f)
    ensures fl.LoginAppend? ==> Went(s, DoLoginAppend(s, f, fl), f)
    ensures fl.OutLoad? ==> Went(s, DoOutLoad(s, f, fl), f)
    ensures fl.OutTokens? ==> Went(s, DoOutTokens(s, f, fl), f)
    ensures fl.OutVersion? ==> Went(s, DoOutVersion(s, f, fl), f)
    ensures fl.ResetLoad? ==> Went(s, DoResetLoad(s, f, fl), f)
    ensures fl.ResetCommit? ==> Went(s, DoResetCommit(s, f, fl), f)
    ensures fl.ForgotLoad? ==> Went(s, DoForgotLoad(s, f, fl), f)
    ensures fl.ForgotSupersede? ==> Went(s, DoForgotSupersede(s, f, fl), f)
    ensures fl.ForgotInsert? ==> Went(s, DoForgotInsert(s, f, fl), f)
  {}

  lemma OthersSame(s: Sys, f: FlightId, g: FlightId)
    requires f in s.flights && g != f
    ensures g in Advance(s, f).flights <==> g in s.flights
    ensures g in s.flights ==> Advance(s, f).flights[g] == s.flights[g]
  {
    RotateWent(s, f, s.flights[f]);
    ElseWent(s, f, s.flights[f]);
    assert Went(s, Advance(s, f), f);
  }

  lemma DeadApply(s: Sys, e: Event, family: Id)
    requires Inv(s) && Dead(s, family)
    ensures Dead(Apply(s, e), family) && NoneRotated(s, Apply(s, e), family)
  {
    if e.Next? {
      if e.f in s.flights { DeadAdvance(s, e.f, family); }
    } else {
      var s' := Apply(s, e);
      ApplyStep(s, e);
      forall g ensures !ClaimsOn(s', g, family) {
        if ClaimsOn(s', g, family) { assert ClaimsOn(s, g, family); }
      }
    }
  }

  /** A dead family never rotates again and never gains a token, whatever happens next. */
  lemma {:induction false} DeadForever(s: Sys, es: seq<Event>, family: Id)
    requires Inv(s) && Dead(s, family)
    ensures Dead(Run(s, es), family) && NoneRotated(s, Run(s, es), family)
  {
    if es != [] {
      var n := |es| - 1;
      DeadForever(s, es[..n], family);
      RunStep(s, es[..n]);
      DeadApply(Run(s, es[..n]), es[n], family);
      ApplyStep(Run(s, es[..n]), es[n]);
    }
  }

  /**
   The proviso is needed, and SessionRevocation.KillExactly says exactly when: here the family is
   revoked between a rotation's claim and its append, and the run ends with a live token in it.
   */
  lemma RevocationCanMiss(ttl: nat)
    ensures var s := Run(Empty(ttl), MissedRevocation);
            |s.tokens| == 2 && s.tokens[0].revoked && s.tokens[1].family == 0 && LiveToken(s.tokens[1])
  {
    var e, s0 := MissedRevocation, Empty(ttl);
    var s1 := Walk(s0, e, 0, s0);
    var s2 := Walk(s0, e, 1, s1);
    var s3 := Walk(s0, e, 2, s2);
    var s4 := Walk(s0, e, 3, s3);
    SignedIn(ttl, s1, s2, s3, s4);
    var s5 := Walk(s0, e, 4, s4);
    var s6 := Walk(s0, e, 5, s5);
    var s7 := Walk(s0, e, 6, s6);
    Claimed(ttl, s4, s5, s6, s7);
    var s8 := Walk(s0, e, 7, s7);
    var s9 := Walk(s0, e, 8, s8);
    var s10 := Walk(s0, e, 9, s9);
    Missed(ttl, s7, s8, s9, s10);
    assert e[..10] == e;
  }

  const MissedRevocation: seq<Event> := [
    Register(0, 7), Start(0, CallLogin(0, 7)), Next(0), Next(0),
    Start(1, CallRefresh(0)), Next(1), Next(1), Logout(0), Next(1), Next(1)]

  /** The system with one account, as the example run sees it. */
  function World(ttl: nat, tokens: seq<Token>, issued: seq<Access>, flights: map<FlightId, Flight>,
                 results: map<FlightId, Outcome>, rotated: seq<Id>): Sys {
    Sys(0, ttl, tokens, map[0 := Account(true, 1, 7)], {0}, issued, [], flights, results, rotated, [])
  }

  lemma SignedIn(ttl: nat, s1: Sys, s2: Sys, s3: Sys, s4: Sys)
    requires s1 == Apply(Empty(ttl), Register(0, 7)) && s2 == Apply(s1, Start(0, CallLogin(0, 7)))
    requires s3 == Apply(s2, Next(0)) && s4 == Apply(s3, Next(0))
    ensures s4 == World(ttl, [Token(0, 0, ttl, false, false, None)], [Access(0, 1)], map[], map[0 := Done], [])
  {
    assert s1 == World(ttl, [], [], map[], map[], []);
    assert s2 == World(ttl, [], [], map[0 := LoginCheck(0, 7)], map[], []);
    assert s3 == World(ttl, [], [Access(0, 1)], map[0 := LoginAppend(0)], map[], []);
  }

  lemma Claimed(ttl: nat, s4: Sys, s5: Sys, s6: Sys, s7: Sys)
    requires s4 == World(ttl, [Token(0, 0, ttl, false, false, None)], [Access(0, 1)], map[], map[0 := Done], [])
    requires s5 == Apply(s4, Start(1, CallRefresh(0))) && s6 == Apply(s5, Next(1)) && s7 == Apply(s6, Next(1))
    ensures s7 == World(ttl, [Token(0, 0, ttl, true, false, None)], [Access(0, 1)],
                        map[1 := RotateUser(0, 0, 0)], map[0 := Done], [])
  {
    assert s5 == World(ttl, s4.tokens, s4.issued, map[1 := RotateLoad(0)], s4.results, []);
    assert s6 == World(ttl, s4.tokens, s4.issued, map[1 := RotateClaim(0, 0, 0)], s4.results, []);
  }

  lemma Missed(ttl: nat, s7: Sys, s8: Sys, s9: Sys, s10: Sys)
    requires s7 == World(ttl, [Token(0, 0, ttl, true, false, None)], [Access(0, 1)],
                         map[1 := RotateUser(0, 0, 0)], map[0 := Done], [])
    requires s8 == Apply(s7, Logout(0)) && s9 == Apply(s8, Next(1)) && s10 == Apply(s9, Next(1))
    ensures s10.tokens == [Token(0, 0, ttl, true, true, None), Token(0, 0, ttl, false, false, Some(0))]
  {
    assert s8.tokens == [Token(0, 0, ttl, true, true, None)];
    assert s8 == World(ttl, s8.tokens, s7.issued, s7.flights, s7.results, []);
    assert s9 == World(ttl, s8.tokens, s7.issued, map[1 := RotateAppend(0, 0, 0, 1)], s7.results, []);
  }

  lemma Walk(s0: Sys, es: seq<Event>, k: nat, s: Sys) returns (s': Sys)
    requires k < |es| && s == Run(s0, es[..k])
    ensures s' == Apply(s, es[k]) && s' == Run(s0, es[..k + 1])
  {
    s' := Apply(s, es[k]);
    assert es[..k + 1][..k] == es[..k];
  }

  // --- Eviction -----------------------------------------------------------------------------

  /** An access token behind its account's version is refused now and in every later state. */
  lemma StaleForever(s: Sys, es: seq<Event>, a: Access)
    requires Inv(s) && a.user in s.born && (a.user in s.accounts ==> a.version < s.accounts[a.user].version)
    ensures !Accepts(Run(s, es), a)
  {
    RunStep(s, es);
  }

  /** A revoked refresh token stays revoked, and presenting it is refused without effect. */
  lemma RevokedForever(s: Sys, es: seq<Event>, i: Id, f: FlightId)
    requires Inv(s) && i < |s.tokens| && s.tokens[i].revoked
    ensures var s' := Run(s, es);
            && i < |s'.tokens| && s'.tokens[i].revoked
            && DoRotateLoad(s', f, RotateLoad(i)) == Finish(s', f, Rejected)
            && DoRotateClaim(s', f, RotateClaim(i, s'.tokens[i].user, s'.tokens[i].family)) == Finish(s', f, Raced)
  {
    RunStep(s, es);
  }

  /**
   Every refresh token in the table of s, and every access token handed out by then, is refused
   in s'. What is still to be inserted is another matter: see SessionRevocation.
   */
  ghost predicate EvictedFrom(s: Sys, s': Sys, user: UserId) {
    && |s.tokens| <= |s'.tokens|
    && (forall i :: 0 <= i < |s.tokens| && s.tokens[i].user == user ==> s'.tokens[i].revoked)
    && (forall a :: a in s.issued && a.user == user ==> !Accepts(s', a))
  }

  /**
   A redeemed reset link refuses, for good, all refresh tokens and all access tokens that exist
   when it commits. A token inserted afterwards, by a rotation or sign-in already past its own
   check, is not among them: SessionRevocation.ResetExactly says when there is one.
   */
  lemma ResetEvicts(s: Sys, f: FlightId, es: seq<Event>)
    requires Inv(s) && f in s.flights && s.flights[f].ResetCommit?
    requires s.flights[f].reset < |s.resets| && !s.resets[s.flights[f].reset].used
    ensures EvictedFrom(s, Run(Advance(s, f), es), s.flights[f].user)
    ensures var r := s.flights[f].reset;
            r < |Run(Advance(s, f), es).resets| && Run(Advance(s, f), es).resets[r].used
  {
    var s', u := Advance(s, f), s.flights[f].user;
    AdvanceStep(s, f);
    RunStep(s', es);
    forall a | a in s.issued && a.user == u ensures !Accepts(Run(s', es), a) {
      var k :| 0 <= k < |s.issued| && s.issued[k] == a;
      assert NotAhead(s, s.issued[k]);
      StaleForever(s', es, a);
    }
  }

  /**
   Signing out everywhere does the same in two statements: the refresh tokens existing at the
   first, and the access tokens existing at the second, are refused ever after. What its first
   statement can miss is in SessionRevocation.SignOutExactly.
   */
  lemma LogoutEverywhereEvicts(s: Sys, f: FlightId, between: seq<Event>, after: seq<Event>)
    requires Inv(s) && f in s.flights && s.flights[f].OutTokens?
    requires var mid := Run(Advance(s, f), between);
             f in mid.flights && mid.flights[f] == OutVersion(s.flights[f].user)
    ensures var end := Run(Advance(Run(Advance(s, f), between), f), after);
            EvictedFrom(s, end, s.flights[f].user)
    ensures var mid := Run(Advance(s, f), between);
            forall a :: a in mid.issued && a.user == s.flights[f].user ==>
              !Accepts(Run(Advance(mid, f), after), a)
  {
    var s1 := Advance(s, f);
    var mid := Run(s1, between);
    AdvanceStep(s, f);
    RunStep(s1, between);
    TokensOut(s, f);
    VersionOut(mid, f, after);
  }

  /** The first statement revokes every refresh token the user has. */
  lemma TokensOut(s: Sys, f: FlightId)
    requires f in s.flights && s.flights[f].OutTokens?
    ensures |Advance(s, f).tokens| == |s.tokens| && Advance(s, f).issued == s.issued
    ensures forall i :: 0 <= i < |s.tokens| && s.tokens[i].user == s.flights[f].user ==> Advance(s, f).tokens[i].revoked
  {}

  /** The second strands every access token issued up to then. */
  lemma VersionOut(mid: Sys, f: FlightId, after: seq<Event>)
    requires Inv(mid) && f in mid.flights && mid.flights[f].OutVersion?
    ensures Grows(mid, Run(Advance(mid, f), after))
    ensures forall a :: a in mid.issued && a.user == mid.flights[f].user ==> !Accepts(Run(Advance(mid, f), after), a)
  {
    AdvanceStep(mid, f);
    RunStep(Advance(mid, f), after);
    forall a | a in mid.issued && a.user == mid.flights[f].user ensures !Accepts(Run(Advance(mid, f), after), a) {
      var k :| 0 <= k < |mid.issued| && mid.issued[k] == a;
      assert NotAhead(mid, mid.issued[k]);
      StaleForever(Advance(mid, f), after, a);
    }
  }

  /**
   A reset link is redeemed at most once, and never works again. How many links of a user work at
   once is another matter when requests for them interleave: see SessionResets.
   */
  lemma ResetOnce(ttl: nat, es: seq<Event>)
    ensures var s := Run(Empty(ttl), es);
            && DistinctIds(s.redeemed)
            && (forall k :: 0 <= k < |s.redeemed| ==> s.redeemed[k] < |s.resets| && s.resets[s.redeemed[k]].used)
  {
    ReachableInv(ttl, es);
  }

  // --- Whose access token is accepted -------------------------------------------------------------

  /** Not a switched-off account's, from the moment it is switched off; back on, only at its version. */
  lemma SwitchedOffRefused(s: Sys, u: UserId, version: nat)
    ensures !Accepts(Apply(s, SetActive(u, false)), Access(u, version))
    ensures Accepts(Apply(s, SetActive(u, true)), Access(u, version)) <==>
      u in s.accounts && version == s.accounts[u].version
  {}

  /** Not a deleted account's. */
  lemma DeletedRefused(s: Sys, u: UserId, version: nat)
    ensures !Accepts(Apply(s, Delete(u)), Access(u, version))
  {}

  /** A sign-in with the right password hands out one that is; with a wrong one, or switched off, none. */
  lemma SignInExactly(s: Sys, f: FlightId, u: UserId, password: nat)
    requires f in s.flights && s.flights[f] == LoginCheck(u, password)
    ensures var s' := Advance(s, f);
      if u in s.accounts && s.accounts[u].active && s.accounts[u].password == password
      then |s'.issued| == |s.issued| + 1 && s'.issued[..|s.issued|] == s.issued
        && s'.issued[|s.issued|].user == u && Accepts(s', s'.issued[|s.issued|])
      else s'.issued == s.issued && s'.tokens == s.tokens && f !in s'.flights
  {}

  /** A reset and a sign-out everywhere cut off every access token handed out so far, and nobody else's. */
  lemma MovingOnRefuses(s: Sys, f: FlightId, a: Access)
    requires Inv(s) && f in s.flights && s.flights[f].OutVersion? && a in s.issued
    ensures Accepts(Advance(s, f), a) <==> Accepts(s, a) && a.user != s.flights[f].user
  {
    var k :| 0 <= k < |s.issued| && s.issued[k] == a;
    assert NotAhead(s, s.issued[k]);
  }

  /**
   What the two do to the accounts: the one person's version goes up by one, a reset also sets the
   password, and nothing else about any account changes. A link that is used up changes nothing.
   */
  lemma MovedOnByOne(s: Sys, f: FlightId, u: UserId)
    requires f in s.flights && u in s.accounts
    requires s.flights[f].OutVersion? || s.flights[f].ResetCommit?
    ensures var fl, s' := s.flights[f], Advance(s, f);
      && s'.accounts.Keys == s.accounts.Keys && s'.accounts[u].active == s.accounts[u].active
      && (if u == fl.user && (fl.ResetCommit? ==> fl.reset < |s.resets| && !s.resets[fl.reset].used)
          then s'.accounts[u].version == s.accounts[u].version + 1
            && s'.accounts[u].password == (if fl.ResetCommit? then fl.newPassword else s.accounts[u].password)
          else s'.accounts[u] == s.accounts[u])
  {
    var fl := s.flights[f];
    if fl.user in s.accounts {
      assert s.accounts.Keys + {fl.user} == s.accounts.Keys;
    }
  }
}
