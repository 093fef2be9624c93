/**
 Exactly what a revocation ends. A revocation reaches the tokens in the table when it runs; what
 can still put a live token beside them is a handler that has passed its own check and not yet
 inserted. These lemmas say which handlers those are, both ways, for one family and for one user.
 */
module SessionRevocation {
  import opened Common
  import opened Sessions
  import opened SessionSafety
  import opened SessionTheorems

  // --- Tokens and handlers belong to accounts that existed -------------------------------------

  ghost predicate Founded(s: Sys, fl: Flight) {
    (fl.LoginAppend? || fl.ResetCommit? || fl.OutTokens? ==> fl.user in s.born)
    && (fl.KillFamily? ==> fl.family < |s.tokens|)
  }

  ghost predicate Grounded(s: Sys) {
    (forall i :: 0 <= i < |s.tokens| ==> s.tokens[i].user in s.born)
    && (forall f :: f in s.flights ==> Founded(s, s.flights[f]))
  }

  lemma NewTokensBorn(s: Sys, f: FlightId)
    requires Inv(s) && Grounded(s) && f in s.flights
    ensures var s' := Advance(s, f);
      forall i :: |s.tokens| <= i < |s'.tokens| ==> s'.tokens[i].user in s.born
  {
    assert FlightOk(s, s.flights[f]);
  }

  /** The two statements after which a handler may go on to end a family. */
  lemma RotationFounded(s: Sys, f: FlightId)
    requires Inv(s) && f in s.flights && f in Advance(s, f).flights
    requires s.flights[f].RotateLoad? || s.flights[f].RotateClaim?
    ensures Founded(s, Advance(s, f).flights[f])
  {
    var fl := s.flights[f];
    assert FlightOk(s, fl);
    if fl.RotateLoad? && fl.presented < |s.tokens| { assert LinkOk(s.tokens, fl.presented); }
  }

  lemma MoverFounded(s: Sys, f: FlightId)
    requires Inv(s) && Grounded(s) && f in s.flights && f in Advance(s, f).flights
    ensures Founded(s, Advance(s, f).flights[f])
  {
    var fl := s.flights[f];
    if fl.RotateLoad? || fl.RotateClaim? {
      RotationFounded(s, f);
    } else {
      assert FlightOk(s, fl);
      if fl.RotateUser? { assert LinkOk(s.tokens, fl.id); }
    }
  }

  lemma AdvanceGrounded(s: Sys, f: FlightId)
    requires Inv(s) && Grounded(s) && f in s.flights
    ensures Grounded(Advance(s, f))
  {
    var s' := Advance(s, f);
    AdvanceStep(s, f);
    NewTokensBorn(s, f);
    forall g | g in s'.flights ensures Founded(s', s'.flights[g]) {
      if g == f { MoverFounded(s, f); } else { OthersSame(s, f, g); assert Founded(s, s.flights[g]); }
    }
  }

  lemma ApplyGrounded(s: Sys, e: Event)
    requires Inv(s) && Grounded(s)
    ensures Grounded(Apply(s, e))
  {
    if e.Next? {
      if e.f in s.flights { AdvanceGrounded(s, e.f); }
    } else {
      ApplyStep(s, e);
    }
  }

  lemma {:induction false} RunGrounded(s: Sys, es: seq<Event>)
    requires Inv(s) && Grounded(s)
    ensures Grounded(Run(s, es))
  {
    if es != [] {
      RunGrounded(s, es[..|es| - 1]);
      RunStep(s, es[..|es| - 1]);
      ApplyGrounded(Run(s, es[..|es| - 1]), es[|es| - 1]);
    }
  }

  /** Every reachable state is one the lemmas below speak of. */
  lemma ReachableGrounded(ttl: nat, es: seq<Event>)
    ensures Inv(Run(Empty(ttl), es)) && Grounded(Run(Empty(ttl), es))
  {
    ReachableInv(ttl, es);
    RunGrounded(Empty(ttl), es);
  }

  /** A born user's account, once gone, is gone. */
  lemma GoneStaysGone(s: Sys, s': Sys, u: UserId)
    requires Grows(s, s') && u in s.born && u !in s.accounts
    ensures u !in s'.accounts
  {}

  // --- One family ----------------------------------------------------------------------------------

  ghost predicate Revoked(s: Sys, family: Id) {
    family < |s.tokens|
    && forall i :: 0 <= i < |s.tokens| && s.tokens[i].family == family ==> s.tokens[i].revoked
  }

  /** A rotation of the family past its claim, whose account has not been deleted under it. */
  ghost predicate CanAppend(s: Sys, g: FlightId, family: Id) {
    ClaimsOn(s, g, family) && (s.flights[g].RotateAppend? || s.flights[g].user in s.accounts)
  }

  ghost predicate Over(s: Sys, family: Id) {
    Revoked(s, family) && forall g :: !CanAppend(s, g, family)
  }

  lemma OverRotate(s: Sys, f: FlightId, family: Id)
    requires Inv(s) && Over(s, family) && f in s.flights && FlightOk(s, s.flights[f]) && !CanAppend(s, f, family)
    requires var fl := s.flights[f]; fl.RotateLoad? || fl.RotateClaim? || fl.RotateUser? || fl.KillFamily?
    ensures Revoked(Advance(s, f), family) && !CanAppend(Advance(s, f), f, family)
  {}

  lemma OverAppend(s: Sys, f: FlightId, family: Id)
    requires Over(s, family) && f in s.flights && s.flights[f].RotateAppend? && !CanAppend(s, f, family)
    ensures Revoked(Advance(s, f), family) && !CanAppend(Advance(s, f), f, family)
  {
    assert Advance(s, f) == DoRotateAppend(s, f, s.flights[f]);
  }

  lemma OverElse(s: Sys, f: FlightId, family: Id)
    requires Over(s, family) && f in s.flights
    requires var fl := s.flights[f]; !fl.RotateLoad? && !fl.RotateClaim? && !Claiming(fl) && !fl.KillFamily?
    ensures Revoked(Advance(s, f), family) && !CanAppend(Advance(s, f), f, family)
  {}

  lemma OverRows(s: Sys, f: FlightId, family: Id)
    requires Inv(s) && Over(s, family) && f in s.flights
    ensures Revoked(Advance(s, f), family) && !CanAppend(Advance(s, f), f, family)
  {
    var fl := s.flights[f];
    assert FlightOk(s, fl) && !CanAppend(s, f, family);
    if fl.RotateLoad? || fl.RotateClaim? || fl.RotateUser? || fl.KillFamily? { OverRotate(s, f, family); }
    else if fl.RotateAppend? { OverAppend(s, f, family); }
    else { OverElse(s, f, family); }
  }

  /** A handler that did not move can append no more than it could. */
  lemma StillCannot(s: Sys, s': Sys, g: FlightId, family: Id)
    requires Inv(s) && Grounded(s) && Grows(s, s') && !CanAppend(s, g, family)
    requires g in s'.flights ==> g in s.flights && s'.flights[g] == s.flights[g]
    ensures !CanAppend(s', g, family)
  {
    if g in s'.flights && Claiming(s.flights[g]) {
      assert FlightOk(s, s.flights[g]);
      if s.flights[g].user !in s.accounts { GoneStaysGone(s, s', s.flights[g].user); }
    }
  }

  lemma OverApply(s: Sys, e: Event, family: Id)
    requires Inv(s) && Grounded(s) && Over(s, family)
    ensures Over(Apply(s, e), family)
  {
    var s' := Apply(s, e);
    ApplyStep(s, e);
    if e.Next? && e.f in s.flights {
      OverRows(s, e.f, family);
      forall g ensures !CanAppend(s', g, family) {
        if g != e.f { OthersSame(s, e.f, g); StillCannot(s, s', g, family); }
      }
    } else {
      forall g ensures !CanAppend(s', g, family) {
        if g in s.flights || g !in s'.flights { StillCannot(s, s', g, family); }
      }
    }
  }

  lemma {:induction false} OverForever(s: Sys, es: seq<Event>, family: Id)
    requires Inv(s) && Grounded(s) && Over(s, family)
    ensures Over(Run(s, es), family)
  {
    if es != [] {
      var front := es[..|es| - 1];
      OverForever(s, front, family);
      RunStep(s, front);
      RunGrounded(s, front);
      OverApply(Run(s, front), es[|es| - 1], family);
    }
  }

  /** What puts flight g's token in the table: its own statements, its account being active. */
  function Revival(s: Sys, g: FlightId): seq<Event>
    requires g in s.flights && (Claiming(s.flights[g]) || s.flights[g].LoginAppend?)
  {
    if s.flights[g].RotateUser? then [SetActive(s.flights[g].user, true), Next(g), Next(g)] else [Next(g)]
  }

  lemma RunOne(s: Sys, e: Event)
    ensures Run(s, [e]) == Apply(s, e)
  {
    assert [e][..0] == [] && Run(s, []) == s;
  }

  lemma RunThree(s: Sys, a: Event, b: Event, c: Event)
    ensures Run(s, [a, b, c]) == Apply(Apply(Apply(s, a), b), c)
  {
    assert [a, b, c][..2] == [a, b] && [a, b][..1] == [a];
    RunOne(s, a);
  }

  /** Such a handler does put a live token of its user, in its family, after the others. */
  lemma Revives(s: Sys, g: FlightId)
    requires g in s.flights && (Claiming(s.flights[g]) || s.flights[g].LoginAppend?)
    requires s.flights[g].RotateUser? ==> s.flights[g].user in s.accounts
    ensures var t, n := Run(s, Revival(s, g)), |s.tokens|;
      |t.tokens| == n + 1 && LiveToken(t.tokens[n]) && t.tokens[n].user == s.flights[g].user
      && t.tokens[n].expires == s.clock + s.ttl && t.clock == s.clock
      && t.tokens[n].family == if s.flights[g].LoginAppend? then n else s.flights[g].family
  {
    var fl := s.flights[g];
    if fl.RotateUser? {
      var s1 := Apply(s, SetActive(fl.user, true));
      assert s1.flights == s.flights;
      var s2 := Apply(s1, Next(g));
      assert s2.flights[g].RotateAppend?;
      RunThree(s, SetActive(fl.user, true), Next(g), Next(g));
    } else {
      RunOne(s, Next(g));
    }
  }

  ghost predicate Lives(s: Sys, family: Id) { LiveIn(s, family) != {} }

  /**
   Revoking every token of a family ends it for good exactly when no rotation of it is past its
   claim with its account still there: otherwise some continuation has a live token of it.
   */
  lemma RevocationExactly(s: Sys, family: Id)
    requires Inv(s) && Grounded(s) && Revoked(s, family)
    ensures (exists es :: Lives(Run(s, es), family)) <==> (exists g :: CanAppend(s, g, family))
  {
    if g :| CanAppend(s, g, family) {
      Revives(s, g);
      var t := Run(s, Revival(s, g));
      assert |s.tokens| in Indices(|t.tokens|);
      assert |s.tokens| in LiveIn(t, family);
      assert Lives(t, family);
    } else {
      forall es ensures !Lives(Run(s, es), family) {
        OverForever(s, es, family);
        assert LiveIn(Run(s, es), family) == {};
      }
    }
  }

  /** The revocation a replay triggers, from just before the statement that revokes. */
  lemma KillExactly(s: Sys, f: FlightId, family: Id)
    requires Inv(s) && Grounded(s) && f in s.flights && s.flights[f] == KillFamily(family)
    ensures (exists es :: Lives(Run(Advance(s, f), es), family)) <==> (exists g :: CanAppend(s, g, family))
  {
    var s' := Advance(s, f);
    assert Founded(s, s.flights[f]);
    AdvanceStep(s, f);
    AdvanceGrounded(s, f);
    RevocationExactly(s', family);
    forall g ensures CanAppend(s', g, family) <==> CanAppend(s, g, family) {
      if g != f { OthersSame(s, f, g); }
    }
  }

  /** The same for signing out: the family of the presented token, just before it is revoked. */
  lemma LogoutExactly(s: Sys, presented: Id)
    requires Inv(s) && Grounded(s) && presented < |s.tokens|
    ensures var family := s.tokens[presented].family;
      (exists es :: Lives(Run(Apply(s, Logout(presented)), es), family)) <==> (exists g :: CanAppend(s, g, family))
  {
    var s', family := Apply(s, Logout(presented)), s.tokens[presented].family;
    assert LinkOk(s.tokens, presented);
    ApplyStep(s, Logout(presented));
    ApplyGrounded(s, Logout(presented));
    RevocationExactly(s', family);
    assert forall g :: CanAppend(s', g, family) <==> CanAppend(s, g, family);
  }

  // --- One user ------------------------------------------------------------------------------------

  ghost predicate AllRevoked(s: Sys, u: UserId) {
    forall i :: 0 <= i < |s.tokens| && s.tokens[i].user == u ==> s.tokens[i].revoked
  }

  ghost predicate Holds(s: Sys, u: UserId) {
    exists i :: 0 <= i < |s.tokens| && s.tokens[i].user == u && LiveToken(s.tokens[i])
  }

  /** A rotation of the user past its claim, or a sign-in past its password check. */
  ghost predicate CanMint(s: Sys, g: FlightId, u: UserId) {
    g in s.flights && (Claiming(s.flights[g]) || s.flights[g].LoginAppend?) && s.flights[g].user == u
    && (s.flights[g].RotateUser? ==> u in s.accounts)
  }

  ghost predicate Evicted(s: Sys, u: UserId) {
    AllRevoked(s, u) && u in s.born && forall g :: !CanMint(s, g, u)
  }

  /** This statement checks a password of u, and finds it right and the account active. */
  ghost predicate SignsIn(s: Sys, e: Event, u: UserId) {
    e.Next? && e.f in s.flights && s.flights[e.f].LoginCheck? && s.flights[e.f].user == u
    && u in s.accounts && s.accounts[u].active && s.flights[e.f].password == s.accounts[u].password
  }

  /** Nobody manages to sign in as u along the run, however often he tries a wrong password. */
  ghost predicate NoSignIn(s: Sys, es: seq<Event>, u: UserId) {
    forall i :: 0 <= i < |es| ==> !SignsIn(Run(s, es[..i]), es[i], u)
  }

  lemma EvictedRotate(s: Sys, f: FlightId, u: UserId)
    requires Inv(s) && Evicted(s, u) && f in s.flights && FlightOk(s, s.flights[f]) && !CanMint(s, f, u)
    requires var fl := s.flights[f]; fl.RotateLoad? || fl.RotateClaim? || Claiming(fl) || fl.KillFamily?
    ensures AllRevoked(Advance(s, f), u) && !CanMint(Advance(s, f), f, u)
  {}

  lemma EvictedElse(s: Sys, f: FlightId, u: UserId)
    requires Evicted(s, u) && f in s.flights && !CanMint(s, f, u) && !SignsIn(s, Next(f), u)
    requires var fl := s.flights[f]; !fl.RotateLoad? && !fl.RotateClaim? && !Claiming(fl) && !fl.KillFamily?
    ensures AllRevoked(Advance(s, f), u) && !CanMint(Advance(s, f), f, u)
  {}

  lemma EvictedApply(s: Sys, e: Event, u: UserId)
    requires Inv(s) && Evicted(s, u) && !SignsIn(s, e, u)
    ensures Evicted(Apply(s, e), u)
  {
    var s' := Apply(s, e);
    ApplyStep(s, e);
    if e.Next? && e.f in s.flights {
      var fl := s.flights[e.f];
      assert FlightOk(s, fl) && !CanMint(s, e.f, u);
      if fl.RotateLoad? || fl.RotateClaim? || Claiming(fl) || fl.KillFamily? { EvictedRotate(s, e.f, u); }
      else { EvictedElse(s, e.f, u); }
      forall g ensures !CanMint(s', g, u) {
        if g != e.f { OthersSame(s, e.f, g); StillNoMint(s, s', g, u); }
      }
    } else {
      forall g ensures !CanMint(s', g, u) {
        if g in s.flights || g !in s'.flights { StillNoMint(s, s', g, u); }
      }
    }
  }

  lemma StillNoMint(s: Sys, s': Sys, g: FlightId, u: UserId)
    requires Grows(s, s') && u in s.born && !CanMint(s, g, u)
    requires g in s'.flights ==> g in s.flights && s'.flights[g] == s.flights[g]
    ensures !CanMint(s', g, u)
  {}

  lemma {:induction false} EvictedForever(s: Sys, es: seq<Event>, u: UserId)
    requires Inv(s) && Evicted(s, u) && NoSignIn(s, es, u)
    ensures Evicted(Run(s, es), u)
  {
    if es != [] {
      var n := |es| - 1;
      forall i | 0 <= i < n ensures !SignsIn(Run(s, es[..n][..i]), es[..n][i], u) {
        assert es[..n][..i] == es[..i];
      }
      EvictedForever(s, es[..n], u);
      RunStep(s, es[..n]);
      EvictedApply(Run(s, es[..n]), es[n], u);
    }
  }

  /** Some continuation, in which nobody signs in as u, gives u a live refresh token. */
  ghost predicate Survives(s: Sys, u: UserId) {
    exists es :: NoSignIn(s, es, u) && Holds(Run(s, es), u)
  }

  lemma RevivalSignsNobodyIn(s: Sys, g: FlightId, u: UserId)
    requires CanMint(s, g, u)
    ensures NoSignIn(s, Revival(s, g), u)
  {
    var es := Revival(s, g);
    forall i | 0 <= i < |es| ensures !SignsIn(Run(s, es[..i]), es[i], u) {
      assert es[..0] == [] && Run(s, []) == s;
      if i == 1 {
        assert es[..1] == [es[0]];
        RunOne(s, es[0]);
      } else if i == 2 {
        assert es[..2] == [es[0], es[1]] && [es[0], es[1]][..1] == [es[0]];
        RunOne(s, es[0]);
        assert Run(s, es[..2]) == Apply(Apply(s, es[0]), es[1]);
      }
    }
  }

  /**
   Revoking everything a user holds evicts him for good, short of his signing in again, exactly
   when no rotation of his is past its claim and no sign-in of his past its password check.
   */
  lemma EvictionExactly(s: Sys, u: UserId)
    requires Inv(s) && u in s.born && AllRevoked(s, u)
    ensures Survives(s, u) <==> (exists g :: CanMint(s, g, u))
  {
    if g :| CanMint(s, g, u) {
      Revives(s, g);
      RevivalSignsNobodyIn(s, g, u);
      var t := Run(s, Revival(s, g));
      assert t.tokens[|s.tokens|].user == u && LiveToken(t.tokens[|s.tokens|]);
      assert Holds(t, u);
    } else {
      forall es | NoSignIn(s, es, u) ensures !Holds(Run(s, es), u) { EvictedForever(s, es, u); }
    }
  }

  /** At a reset's commit: who survives it, and which of his families are over. */
  lemma ResetExactly(s: Sys, f: FlightId)
    requires Inv(s) && Grounded(s) && f in s.flights && s.flights[f].ResetCommit?
    requires s.flights[f].reset < |s.resets| && !s.resets[s.flights[f].reset].used
    ensures var u := s.flights[f].user;
      Survives(Advance(s, f), u) <==> (exists g :: CanMint(s, g, u))
    ensures forall i :: 0 <= i < |s.tokens| && s.tokens[i].user == s.flights[f].user ==>
      (Dead(Advance(s, f), s.tokens[i].family) <==> forall g :: !ClaimsOn(s, g, s.tokens[i].family))
  {
    var s', u := Advance(s, f), s.flights[f].user;
    assert Founded(s, s.flights[f]);
    AdvanceStep(s, f);
    EvictionExactly(s', u);
    forall g ensures CanMint(s', g, u) <==> CanMint(s, g, u) {
      if g != f { OthersSame(s, f, g); }
    }
    forall i | 0 <= i < |s.tokens| && s.tokens[i].user == u
      ensures Dead(s', s.tokens[i].family) <==> forall g :: !ClaimsOn(s, g, s.tokens[i].family)
    {
      ResetFamily(s, f, i);
    }
  }

  lemma ResetFamily(s: Sys, f: FlightId, i: Id)
    requires Inv(s) && f in s.flights && s.flights[f].ResetCommit? && i < |s.tokens|
    requires s.flights[f].reset < |s.resets| && !s.resets[s.flights[f].reset].used
    requires s.tokens[i].user == s.flights[f].user
    ensures Dead(Advance(s, f), s.tokens[i].family) <==> forall g :: !ClaimsOn(s, g, s.tokens[i].family)
  {
    var s', family := Advance(s, f), s.tokens[i].family;
    assert LinkOk(s.tokens, i);
    forall j | 0 <= j < |s.tokens| && s.tokens[j].family == family ensures s.tokens[j].user == s.tokens[i].user {
      assert LinkOk(s.tokens, j);
    }
    forall g ensures ClaimsOn(s', g, family) <==> ClaimsOn(s, g, family) {
      if g != f { OthersSame(s, f, g); }
    }
  }

  /** At sign-out everywhere, whose first statement revokes and whose second moves the version on. */
  lemma SignOutExactly(s: Sys, f: FlightId)
    requires Inv(s) && Grounded(s) && f in s.flights && s.flights[f].OutTokens?
    ensures var u := s.flights[f].user;
      Survives(Advance(s, f), u) <==> (exists g :: CanMint(s, g, u))
  {
    var s', u := Advance(s, f), s.flights[f].user;
    assert Founded(s, s.flights[f]);
    AdvanceStep(s, f);
    TokensOut(s, f);
    EvictionExactly(s', u);
    forall g ensures CanMint(s', g, u) <==> CanMint(s, g, u) {
      if g != f { OthersSame(s, f, g); }
    }
  }

  // --- And a survivor is a working session ------------------------------------------------------------

  function Exchange(h: FlightId, i: Id): seq<Event> { [Start(h, CallRefresh(i)), Next(h), Next(h), Next(h), Next(h)] }

  /** A token that could be exchanged now. */
  ghost predicate Working(s: Sys, i: Id) {
    i < |s.tokens| && LiveToken(s.tokens[i]) && s.clock <= s.tokens[i].expires
    && s.tokens[i].user in s.accounts && s.accounts[s.tokens[i].user].active
  }

  /** After h has claimed it. */
  ghost function Spent(s: Sys, h: FlightId, i: Id): Sys
    requires i < |s.tokens|
  {
    var tk := s.tokens[i];
    Goto(s.(tokens := s.tokens[i := tk.(used := true)]), h, RotateUser(i, tk.user, tk.family))
  }

  lemma Presented(s: Sys, h: FlightId, i: Id, s1: Sys, s2: Sys, s3: Sys)
    requires Working(s, i) && h !in s.flights && h !in s.results
    requires s1 == Apply(s, Start(h, CallRefresh(i))) && s2 == Apply(s1, Next(h)) && s3 == Apply(s2, Next(h))
    ensures s3 == Spent(s, h, i)
  {
    assert s1 == Goto(s, h, RotateLoad(i));
    assert s2 == Goto(s1, h, RotateClaim(i, s.tokens[i].user, s.tokens[i].family));
    assert s3.flights == s.flights[h := RotateUser(i, s.tokens[i].user, s.tokens[i].family)];
  }

  lemma HandedOver(s: Sys, h: FlightId, i: Id, s4: Sys, s5: Sys)
    requires Working(s, i) && s4 == Apply(Spent(s, h, i), Next(h)) && s5 == Apply(s4, Next(h))
    ensures var u := s.tokens[i].user;
      h in s5.results && s5.results[h] == Rotated(|s.tokens|) && s5.accounts == s.accounts
      && s5.issued == s.issued + [Access(u, s.accounts[u].version)] && Accepts(s5, s5.issued[|s.issued|])
  {
    var tk := s.tokens[i];
    assert s4 == Goto(Spent(s, h, i), h, RotateAppend(i, tk.user, tk.family, s.accounts[tk.user].version));
  }

  lemma RunFive(s: Sys, a: Event, b: Event, c: Event, d: Event, e: Event)
    ensures Run(s, [a, b, c, d, e]) == Apply(Apply(Run(s, [a, b, c]), d), e)
  {
    assert [a, b, c, d, e][..4] == [a, b, c, d] && [a, b, c, d][..3] == [a, b, c];
  }

  lemma ExchangeRuns(s: Sys, h: FlightId, i: Id)
    requires Working(s, i) && h !in s.flights && h !in s.results
    ensures Run(s, Exchange(h, i)) == Apply(Apply(Spent(s, h, i), Next(h)), Next(h))
  {
    RunFive(s, Start(h, CallRefresh(i)), Next(h), Next(h), Next(h), Next(h));
    RunThree(s, Start(h, CallRefresh(i)), Next(h), Next(h));
    var s1 := Apply(s, Start(h, CallRefresh(i)));
    var s2 := Apply(s1, Next(h));
    Presented(s, h, i, s1, s2, Apply(s2, Next(h)));
  }

  /** Presenting a live, unexpired token of an active account yields an access token that is accepted. */
  lemma LiveTokenWorks(s: Sys, h: FlightId, i: Id)
    requires Working(s, i) && h !in s.flights && h !in s.results
    ensures var t, u := Run(s, Exchange(h, i)), s.tokens[i].user;
      h in t.results && t.results[h] == Rotated(|s.tokens|)
      && t.issued == s.issued + [Access(u, s.accounts[u].version)] && Accepts(t, t.issued[|s.issued|])
  {
    ExchangeRuns(s, h, i);
    HandedOver(s, h, i, Apply(Spent(s, h, i), Next(h)), Run(s, Exchange(h, i)));
  }

  /**
   The reset that can be missed: a rotation or sign-in of the same user about to insert when the
   reset commits leaves a live token, and exchanging it yields an accepted access token.
   */
  lemma ResetCanMiss(s: Sys, f: FlightId, g: FlightId, h: FlightId)
    requires Inv(s) && f in s.flights && g in s.flights && h !in s.flights && h !in s.results
    requires s.flights[f].ResetCommit? && s.flights[f].reset < |s.resets| && !s.resets[s.flights[f].reset].used
    requires (s.flights[g].RotateAppend? || s.flights[g].LoginAppend?) && s.flights[g].user == s.flights[f].user
    requires s.flights[g].user in s.accounts && s.accounts[s.flights[g].user].active
    ensures g in Advance(s, f).flights
    ensures var t, u := Advance(Advance(s, f), g), s.flights[f].user;
      |t.tokens| == |s.tokens| + 1 && t.tokens[|s.tokens|].user == u && LiveToken(t.tokens[|s.tokens|])
      && exists a :: a in Run(t, Exchange(h, |s.tokens|)).issued && a.user == u && Accepts(Run(t, Exchange(h, |s.tokens|)), a)
  {
    var s', u := Advance(s, f), s.flights[f].user;
    OthersSame(s, f, g);
    OthersSame(s, f, h);
    Revives(s', g);
    RunOne(s', Next(g));
    var t := Advance(s', g);
    OthersSame(s', g, h);
    AfterBoth(s, f, g, h);
    LiveTokenWorks(t, h, |s.tokens|);
    var r := Run(t, Exchange(h, |s.tokens|));
    assert r.issued[|t.issued|] in r.issued;
  }

  lemma AfterBoth(s: Sys, f: FlightId, g: FlightId, h: FlightId)
    requires f in s.flights && g in s.flights && g != f && h !in s.results && h != f && h != g
    requires s.flights[f].ResetCommit? && s.flights[f].reset < |s.resets| && !s.resets[s.flights[f].reset].used
    requires s.flights[g].RotateAppend? || s.flights[g].LoginAppend?
    requires g in Advance(s, f).flights && Advance(s, f).flights[g] == s.flights[g]
    requires s.flights[g].user in s.accounts && s.accounts[s.flights[g].user].active
    ensures var t, u := Advance(Advance(s, f), g), s.flights[g].user;
      h !in t.results && u in t.accounts && t.accounts[u].active
      && |Advance(s, f).tokens| == |s.tokens| && Advance(s, f).clock == s.clock
  {}
}
