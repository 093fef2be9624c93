/**
 The session services as they run when nothing interleaves with them (refresh.go, auth.go,
 password_reset.go, session.go): rows are updated in place, and serving a call is proved to be
 one run of the statement-level machine.
 */
module SessionHandlers {
  import opened Common
  import opened Sessions
  import opened SessionSafety

  ghost function Drive(s: Sys, f: FlightId, n: nat): Sys
    decreases n
  {
    if n == 0 || f !in s.flights then s else Drive(Advance(s, f), f, n - 1)
  }

  const Longest := 4

  ghost function Serve(s: Sys, f: FlightId, call: Call): Sys {
    Drive(Apply(s, Start(f, call)), f, Longest)
  }

  function Script(f: FlightId, call: Call, n: nat): seq<Event> {
    [Start(f, call)] + seq(n, _ => Next(f))
  }

  lemma RunSnoc(s: Sys, es: seq<Event>, e: Event)
    ensures Run(s, es + [e]) == Apply(Run(s, es), e)
  {
    assert (es + [e])[..|es|] == es;
  }

  lemma {:induction false} DriveLast(s: Sys, f: FlightId, n: nat)
    ensures Drive(s, f, n + 1) == Apply(Drive(s, f, n), Next(f))
    decreases n
  {
    if n > 0 && f in s.flights { DriveLast(Advance(s, f), f, n - 1); }
  }

  lemma {:induction false} DriveIsRun(s: Sys, f: FlightId, call: Call, n: nat)
    ensures Drive(Apply(s, Start(f, call)), f, n) == Run(s, Script(f, call, n))
  {
    if n == 0 {
      assert Script(f, call, 0) == [] + [Start(f, call)];
      RunSnoc(s, [], Start(f, call));
    } else {
      DriveIsRun(s, f, call, n - 1);
      DriveLast(Apply(s, Start(f, call)), f, n - 1);
      ScriptSnoc(s, f, call, n - 1);
    }
  }

  lemma ScriptSnoc(s: Sys, f: FlightId, call: Call, n: nat)
    ensures Run(s, Script(f, call, n + 1)) == Apply(Run(s, Script(f, call, n)), Next(f))
  {
    RunSnoc(s, Script(f, call, n), Next(f));
    assert Script(f, call, n + 1) == Script(f, call, n) + [Next(f)];
  }

  /** A state some run leads to, so that every theorem about runs applies to it. */
  ghost predicate Reachable(s: Sys) {
    exists es :: s == Run(Empty(s.ttl), es)
  }

  lemma {:induction false} TtlFixed(s: Sys, es: seq<Event>)
    ensures Run(s, es).ttl == s.ttl
  {
    if es != [] {
      var n := |es| - 1;
      TtlFixed(s, es[..n]);
      var t, e := Run(s, es[..n]), es[n];
      if e.Next? && e.f in t.flights { AdvanceTtl(t, e.f); }
    }
  }

  lemma AdvanceTtl(s: Sys, f: FlightId)
    requires f in s.flights
    ensures Advance(s, f).ttl == s.ttl
  {}

  lemma {:induction false} RunAppend(s: Sys, es: seq<Event>, fs: seq<Event>)
    ensures Run(s, es + fs) == Run(Run(s, es), fs)
  {
    if fs == [] {
      assert es + fs == es;
    } else {
      RunAppend(s, es, fs[..|fs| - 1]);
      assert (es + fs)[..|es + fs| - 1] == es + fs[..|fs| - 1];
    }
  }

  lemma ReachableRun(s: Sys, fs: seq<Event>)
    requires Reachable(s)
    ensures Reachable(Run(s, fs))
  {
    var es :| s == Run(Empty(s.ttl), es);
    RunAppend(Empty(s.ttl), es, fs);
    TtlFixed(s, fs);
  }

  lemma ReachableApply(s: Sys, e: Event)
    requires Reachable(s)
    ensures Reachable(Apply(s, e))
  {
    RunSnoc(s, [], e);
    assert [] + [e] == [e] && Run(s, []) == s;
    ReachableRun(s, [e]);
  }

  /** Serving one call alone is a run of the machine: the call and then only its own statements. */
  lemma ServeIsRun(s: Sys, f: FlightId, call: Call)
    requires Reachable(s)
    ensures Serve(s, f, call) == Run(s, Script(f, call, Longest))
    ensures Reachable(Serve(s, f, call))
  {
    DriveIsRun(s, f, call, Longest);
    ReachableRun(s, Script(f, call, Longest));
  }

  // --- What one call amounts to ------------------------------------------------------

  ghost function At(s: Sys, f: FlightId, fl: Flight): Sys { s.(flights := map[f := fl]) }

  ghost function Answered(s: Sys, f: FlightId, o: Outcome): Sys {
    s.(flights := map[], results := s.results[f := o])
  }

  lemma Hop(s: Sys, f: FlightId, fl: Flight, next: Sys, n: nat)
    requires n > 0 && Advance(At(s, f, fl), f) == next
    ensures Drive(At(s, f, fl), f, n) == Drive(next, f, n - 1)
  {}

  lemma FinishAlone(s: Sys, f: FlightId, fl: Flight, o: Outcome)
    ensures Finish(At(s, f, fl), f, o) == Answered(s, f, o)
  {
    assert map[f := fl] - {f} == map[];
  }

  lemma Finished(s: Sys, f: FlightId, n: nat)
    requires f !in s.flights
    ensures Drive(s, f, n) == s
  {}

  ghost function Killed(s: Sys, f: FlightId, family: Id): Sys {
    Answered(s, f, Rejected).(tokens := RevokeFamily(s.tokens, family))
  }

  lemma KillServed(s: Sys, f: FlightId, family: Id, n: nat)
    requires n > 0
    ensures Drive(At(s, f, KillFamily(family)), f, n) == Killed(s, f, family)
  {
    var fl := KillFamily(family);
    var next := DoKillFamily(At(s, f, fl), f, fl);
    FinishAlone(s, f, fl, Rejected);
    Hop(s, f, fl, next, n);
    Finished(next, f, n - 1);
  }

  ghost function Spend(ts: seq<Token>, id: Id): seq<Token>
    requires id < |ts|
  {
    ts[id := ts[id].(used := true)]
  }

  /** The presented token is spent; then its owner decides whether a successor is written. */
  ghost function Exchanged(s: Sys, f: FlightId, id: Id): Sys
    requires id < |s.tokens|
  {
    var t, s1 := s.tokens[id], s.(tokens := Spend(s.tokens, id));
    if t.user !in s.accounts then Answered(s1, f, Rejected)
    else if !s.accounts[t.user].active then Killed(s1, f, t.family)
    else Answered(s1, f, Rotated(|s.tokens|)).(
           tokens := s1.tokens + [Token(t.user, t.family, s.clock + s.ttl, false, false, Some(id))],
           issued := s.issued + [Access(t.user, s.accounts[t.user].version)], rotated := s.rotated + [id])
  }

  ghost function Refreshed(s: Sys, f: FlightId, presented: Id): Sys {
    if presented >= |s.tokens| || s.tokens[presented].revoked || s.clock > s.tokens[presented].expires
    then Answered(s, f, Rejected)
    else if s.tokens[presented].used then Killed(s, f, s.tokens[presented].family)
    else Exchanged(s, f, presented)
  }

  lemma AppendServed(s: Sys, f: FlightId, id: Id, user: UserId, family: Id, version: nat)
    ensures Drive(At(s, f, RotateAppend(id, user, family, version)), f, 1) ==
      Answered(s, f, Rotated(|s.tokens|)).(
        tokens := s.tokens + [Token(user, family, s.clock + s.ttl, false, false, Some(id))],
        issued := s.issued + [Access(user, version)], rotated := s.rotated + [id])
  {
    var fl := RotateAppend(id, user, family, version);
    var next := DoRotateAppend(At(s, f, fl), f, fl);
    FinishAlone(s, f, fl, Rotated(|s.tokens|));
    Hop(s, f, fl, next, 1);
    Finished(next, f, 0);
  }

  lemma UserServed(s: Sys, f: FlightId, id: Id)
    requires id < |s.tokens|
    ensures var t, s1 := s.tokens[id], s.(tokens := Spend(s.tokens, id));
            Drive(At(s1, f, RotateUser(id, t.user, t.family)), f, 2) == Exchanged(s, f, id)
  {
    var t, s1 := s.tokens[id], s.(tokens := Spend(s.tokens, id));
    var fl := RotateUser(id, t.user, t.family);
    var next := DoRotateUser(At(s1, f, fl), f, fl);
    Hop(s1, f, fl, next, 2);
    if t.user !in s.accounts {
      FinishAlone(s1, f, fl, Rejected);
      Finished(next, f, 1);
    } else if !s.accounts[t.user].active {
      assert next == At(s1, f, KillFamily(t.family));
      KillServed(s1, f, t.family, 1);
    } else {
      var v := s.accounts[t.user].version;
      assert next == At(s1, f, RotateAppend(id, t.user, t.family, v));
      AppendServed(s1, f, id, t.user, t.family, v);
    }
  }

  lemma ClaimServed(s: Sys, f: FlightId, id: Id)
    requires id < |s.tokens| && LiveToken(s.tokens[id])
    ensures Drive(At(s, f, RotateClaim(id, s.tokens[id].user, s.tokens[id].family)), f, 3) == Exchanged(s, f, id)
  {
    var t := s.tokens[id];
    var fl := RotateClaim(id, t.user, t.family);
    var next := DoRotateClaim(At(s, f, fl), f, fl);
    Hop(s, f, fl, next, 3);
    assert next == At(s.(tokens := Spend(s.tokens, id)), f, RotateUser(id, t.user, t.family));
    UserServed(s, f, id);
  }

  lemma RefreshServed(s: Sys, f: FlightId, presented: Id)
    requires s.flights == map[] && f !in s.results
    ensures Serve(s, f, CallRefresh(presented)) == Refreshed(s, f, presented)
  {
    var fl := RotateLoad(presented);
    assert Apply(s, Start(f, CallRefresh(presented))) == At(s, f, fl);
    var next := DoRotateLoad(At(s, f, fl), f, fl);
    Hop(s, f, fl, next, 4);
    if presented >= |s.tokens| || s.tokens[presented].revoked || s.clock > s.tokens[presented].expires {
      FinishAlone(s, f, fl, Rejected);
      Finished(next, f, 3);
    } else if s.tokens[presented].used {
      assert next == At(s, f, KillFamily(s.tokens[presented].family));
      KillServed(s, f, s.tokens[presented].family, 3);
    } else {
      assert next == At(s, f, RotateClaim(presented, s.tokens[presented].user, s.tokens[presented].family));
      ClaimServed(s, f, presented);
    }
  }

  ghost function SignedOut(s: Sys, f: FlightId, user: UserId): Sys {
    if user !in s.accounts then Answered(s, f, Rejected)
    else Answered(s, f, Done).(tokens := RevokeUser(s.tokens, user), accounts := BumpVersion(s.accounts, user))
  }

  lemma LogoutEverywhereServed(s: Sys, f: FlightId, user: UserId)
    requires s.flights == map[] && f !in s.results
    ensures Serve(s, f, CallLogoutEverywhere(user)) == SignedOut(s, f, user)
  {
    var fl := OutLoad(user);
    assert Apply(s, Start(f, CallLogoutEverywhere(user))) == At(s, f, fl);
    var next := DoOutLoad(At(s, f, fl), f, fl);
    Hop(s, f, fl, next, 4);
    if user in s.accounts {
      assert next == At(s, f, OutTokens(user));
      OutTokensServed(s, f, user);
    } else {
      FinishAlone(s, f, fl, Rejected);
      Finished(next, f, 3);
    }
  }

  lemma OutTokensServed(s: Sys, f: FlightId, user: UserId)
    ensures Drive(At(s, f, OutTokens(user)), f, 3) ==
      Answered(s, f, Done).(tokens := RevokeUser(s.tokens, user), accounts := BumpVersion(s.accounts, user))
  {
    var fl := OutTokens(user);
    var s1 := s.(tokens := RevokeUser(s.tokens, user));
    Hop(s, f, fl, DoOutTokens(At(s, f, fl), f, fl), 3);
    assert DoOutTokens(At(s, f, fl), f, fl) == At(s1, f, OutVersion(user));
    OutVersionServed(s1, f, user);
  }

  lemma OutVersionServed(s: Sys, f: FlightId, user: UserId)
    ensures Drive(At(s, f, OutVersion(user)), f, 2) ==
      Answered(s, f, Done).(accounts := BumpVersion(s.accounts, user))
  {
    var fl := OutVersion(user);
    var next := DoOutVersion(At(s, f, fl), f, fl);
    FinishAlone(s, f, fl, Done);
    Hop(s, f, fl, next, 2);
    Finished(next, f, 1);
  }

  predicate Matches(accounts: map<UserId, Account>, user: UserId, password: nat) {
    user in accounts && accounts[user].active && accounts[user].password == password
  }

  /** A token pair: an access token at the account's version, and a family of one refresh token. */
  ghost function SignedIn(s: Sys, f: FlightId, user: UserId, password: nat): Sys {
    if !Matches(s.accounts, user, password) then Answered(s, f, Rejected)
    else
      Answered(s, f, Done).(issued := s.issued + [Access(user, s.accounts[user].version)],
        tokens := s.tokens + [Token(user, |s.tokens|, s.clock + s.ttl, false, false, None)])
  }

  lemma LoginServed(s: Sys, f: FlightId, user: UserId, password: nat)
    requires s.flights == map[] && f !in s.results
    ensures Serve(s, f, CallLogin(user, password)) == SignedIn(s, f, user, password)
  {
    var fl := LoginCheck(user, password);
    assert Apply(s, Start(f, CallLogin(user, password))) == At(s, f, fl);
    var next := DoLoginCheck(At(s, f, fl), f, fl);
    Hop(s, f, fl, next, 4);
    if Matches(s.accounts, user, password) {
      var s1 := s.(issued := s.issued + [Access(user, s.accounts[user].version)]);
      assert next == At(s1, f, LoginAppend(user));
      LoginAppendServed(s1, f, user);
    } else {
      FinishAlone(s, f, fl, Rejected);
      Finished(next, f, 3);
    }
  }

  lemma LoginAppendServed(s: Sys, f: FlightId, user: UserId)
    ensures Drive(At(s, f, LoginAppend(user)), f, 3) == Answered(s, f, Done).(
      tokens := s.tokens + [Token(user, |s.tokens|, s.clock + s.ttl, false, false, None)])
  {
    var fl := LoginAppend(user);
    var next := DoLoginAppend(At(s, f, fl), f, fl);
    FinishAlone(s, f, fl, Done);
    Hop(s, f, fl, next, 3);
    Finished(next, f, 2);
  }

  ghost predicate Redeemable(s: Sys, reset: Id) {
    && reset < |s.resets| && !s.resets[reset].used && s.clock <= s.resets[reset].expires
    && s.resets[reset].user in s.accounts && s.accounts[s.resets[reset].user].active
  }

  ghost function Redeemed(s: Sys, f: FlightId, reset: Id, newPassword: nat): Sys {
    if !Redeemable(s, reset) then Answered(s, f, Rejected)
    else
      var u := s.resets[reset].user;
      Answered(s, f, Done).(
        resets := s.resets[reset := s.resets[reset].(used := true)],
        accounts := BumpVersion(SetPassword(s.accounts, u, newPassword), u),
        tokens := RevokeUser(s.tokens, u), redeemed := s.redeemed + [reset])
  }

  lemma ResetServed(s: Sys, f: FlightId, reset: Id, newPassword: nat)
    requires s.flights == map[] && f !in s.results
    ensures Serve(s, f, CallReset(reset, newPassword)) == Redeemed(s, f, reset, newPassword)
  {
    var fl := ResetLoad(reset, newPassword);
    assert Apply(s, Start(f, CallReset(reset, newPassword))) == At(s, f, fl);
    var next := DoResetLoad(At(s, f, fl), f, fl);
    Hop(s, f, fl, next, 4);
    if Redeemable(s, reset) {
      assert next == At(s, f, ResetCommit(reset, s.resets[reset].user, newPassword));
      ResetCommitServed(s, f, reset, newPassword);
    } else {
      FinishAlone(s, f, fl, Rejected);
      Finished(next, f, 3);
    }
  }

  lemma ResetCommitServed(s: Sys, f: FlightId, reset: Id, newPassword: nat)
    requires Redeemable(s, reset)
    ensures Drive(At(s, f, ResetCommit(reset, s.resets[reset].user, newPassword)), f, 3) ==
      Redeemed(s, f, reset, newPassword)
  {
    var fl := ResetCommit(reset, s.resets[reset].user, newPassword);
    var next := DoResetCommit(At(s, f, fl), f, fl);
    FinishAlone(s, f, fl, Done);
    Hop(s, f, fl, next, 3);
    Finished(next, f, 2);
  }

  predicate Active(accounts: map<UserId, Account>, user: UserId) {
    user in accounts && accounts[user].active
  }

  function WithLink(rs: seq<Reset>, user: UserId, expires: nat): seq<Reset> {
    Supersede(rs, user) + [Reset(user, expires, false)]
  }

  /** The only link of the user that can still be used, among any number of others'. */
  predicate OnlyLink(rs: seq<Reset>, user: UserId, id: Id) {
    forall i :: 0 <= i < |rs| ==> (rs[i].user == user && !rs[i].used <==> i == id)
  }

  lemma NewLinkOnly(rs: seq<Reset>, user: UserId, expires: nat)
    ensures OnlyLink(WithLink(rs, user, expires), user, |rs|)
    ensures OneLinkEach(rs) ==> OneLinkEach(WithLink(rs, user, expires))
  {
    var rs' := WithLink(rs, user, expires);
    assert forall i :: 0 <= i < |rs| ==> rs'[i] == Supersede(rs, user)[i];
  }

  ghost function Forgotten(s: Sys, f: FlightId, user: UserId, validFor: nat): Sys {
    if !Active(s.accounts, user) then Answered(s, f, Rejected)
    else Answered(s, f, Linked(|s.resets|)).(resets := WithLink(s.resets, user, s.clock + validFor))
  }

  lemma ForgotServed(s: Sys, f: FlightId, user: UserId, validFor: nat)
    requires s.flights == map[] && f !in s.results
    ensures Serve(s, f, CallForgot(user, validFor)) == Forgotten(s, f, user, validFor)
  {
    var fl := ForgotLoad(user, validFor);
    assert Apply(s, Start(f, CallForgot(user, validFor))) == At(s, f, fl);
    var next := DoForgotLoad(At(s, f, fl), f, fl);
    Hop(s, f, fl, next, 4);
    if Active(s.accounts, user) {
      assert next == At(s, f, ForgotSupersede(user, validFor));
      SupersedeServed(s, f, user, validFor);
    } else {
      FinishAlone(s, f, fl, Rejected);
      Finished(next, f, 3);
    }
  }

  lemma SupersedeServed(s: Sys, f: FlightId, user: UserId, validFor: nat)
    ensures Drive(At(s, f, ForgotSupersede(user, validFor)), f, 3) ==
      Answered(s, f, Linked(|s.resets|)).(resets := WithLink(s.resets, user, s.clock + validFor))
  {
    var fl := ForgotSupersede(user, validFor);
    var s1 := s.(resets := Supersede(s.resets, user));
    Hop(s, f, fl, DoForgotSupersede(At(s, f, fl), f, fl), 3);
    assert DoForgotSupersede(At(s, f, fl), f, fl) == At(s1, f, ForgotInsert(user, validFor));
    InsertServed(s1, f, user, validFor);
  }

  lemma InsertServed(s: Sys, f: FlightId, user: UserId, validFor: nat)
    ensures Drive(At(s, f, ForgotInsert(user, validFor)), f, 2) ==
      Answered(s, f, Linked(|s.resets|)).(resets := s.resets + [Reset(user, s.clock + validFor, false)])
  {
    var fl := ForgotInsert(user, validFor);
    var next := DoForgotInsert(At(s, f, fl), f, fl);
    FinishAlone(s, f, fl, Linked(|s.resets|));
    Hop(s, f, fl, next, 2);
    Finished(next, f, 1);
  }

  /** Served one at a time, requests leave each user one link at most that has not been used. */
  predicate OneLinkEach(rs: seq<Reset>) {
    forall i, j :: 0 <= i < j < |rs| && rs[i].user == rs[j].user ==> rs[i].used
  }

  class SessionStore {
    const ttl: nat
    var clock: nat
    var tokens: seq<Token>
    var accounts: map<UserId, Account>
    var resets: seq<Reset>
    /** Credentials handed out, answers given, exchanges made, and the number of calls served. */
    ghost var issued: seq<Access>
    ghost var born: set<UserId>
    ghost var results: map<FlightId, Outcome>
    ghost var rotated: seq<Id>
    ghost var redeemed: seq<Id>
    ghost var turn: FlightId

    ghost function Model(): Sys
      reads this
    {
      Sys(clock, ttl, tokens, accounts, born, issued, resets, map[], results, rotated, redeemed)
    }

    ghost predicate Valid()
      reads this
    {
      Reachable(Model()) && OneLinkEach(resets) && (forall f :: f in results ==> f < turn)
    }

    constructor (ttl: nat)
      ensures Valid() && Model() == Empty(ttl)
    {
      this.ttl := ttl;
      clock, tokens, accounts, resets := 0, [], map[], [];
      issued, born, results, rotated, redeemed, turn := [], {}, map[], [], [], 0;
      new;
      assert Run(Empty(ttl), []) == Empty(ttl);
    }

    method RevokeRefreshFamily(family: Id)
      modifies this`tokens
      ensures tokens == RevokeFamily(old(tokens), family)
    {
      tokens := RevokeFamily(tokens, family);
    }

    method RevokeAllRefreshTokens(user: UserId)
      modifies this`tokens
      ensures tokens == RevokeUser(old(tokens), user)
    {
      tokens := RevokeUser(tokens, user);
    }

    method RevokeAllSessions(user: UserId)
      modifies this`accounts
      ensures accounts == BumpVersion(old(accounts), user)
    {
      accounts := BumpVersion(accounts, user);
    }

    /** appendToFamily: the new row's id. */
    method AppendToFamily(user: UserId, family: Id, parent: Option<Id>) returns (id: Id)
      modifies this`tokens
      ensures id == |old(tokens)|
      ensures tokens == old(tokens) + [Token(user, family, clock + ttl, false, false, parent)]
    {
      id := |tokens|;
      tokens := tokens + [Token(user, family, clock + ttl, false, false, parent)];
    }

    /** RotateRefreshToken, with the access token Refresh then issues. */
    method Refresh(presented: Id) returns (o: Outcome)
      requires Valid()
      modifies this
      ensures Valid() && turn == old(turn) + 1
      ensures Model() == Serve(old(Model()), old(turn), CallRefresh(presented))
      ensures results == old(results)[old(turn) := o]
      ensures o.Rotated? || o == Rejected
    {
      ghost var f := turn;
      ServeIsRun(Model(), f, CallRefresh(presented));
      RefreshServed(Model(), f, presented);
      turn := turn + 1;
      if presented >= |tokens| || tokens[presented].revoked || clock > tokens[presented].expires {
        o := Answer(f, Rejected); return;
      }
      var row := tokens[presented];
      if row.used {
        RevokeRefreshFamily(row.family);
        o := Answer(f, Rejected); return;
      }
      o := Exchange(f, presented);
    }

    /** The rest of the rotation, once the presented token is known to be live. */
    method Exchange(ghost f: FlightId, presented: Id) returns (o: Outcome)
      requires presented < |tokens|
      modifies this`tokens, this`issued, this`rotated, this`results
      ensures Model() == Exchanged(old(Model()), f, presented)
      ensures results == old(results)[f := o] && (o.Rotated? || o == Rejected)
    {
      var row := tokens[presented];
      tokens := tokens[presented := row.(used := true)];
      if row.user !in accounts { o := Answer(f, Rejected); return; }
      if !accounts[row.user].active {
        RevokeRefreshFamily(row.family);
        o := Answer(f, Rejected); return;
      }
      var next := AppendToFamily(row.user, row.family, Some(presented));
      issued := issued + [Access(row.user, accounts[row.user].version)];
      rotated := rotated + [presented];
      o := Answer(f, Rotated(next));
    }

    /** Login, with IssueToken and IssueRefreshToken: a sign-in starts a family of its own. */
    method Login(user: UserId, password: nat) returns (o: Outcome)
      requires Valid()
      modifies this
      ensures Valid() && turn == old(turn) + 1
      ensures Model() == Serve(old(Model()), old(turn), CallLogin(user, password))
      ensures results == old(results)[old(turn) := o]
      ensures o == Done <==> Matches(accounts, user, password)
    {
      ghost var f := turn;
      ServeIsRun(Model(), f, CallLogin(user, password));
      LoginServed(Model(), f, user, password);
      turn := turn + 1;
      o := SignIn(f, user, password);
    }

    /** The rest of Login, once the call is under way. */
    method SignIn(ghost f: FlightId, user: UserId, password: nat) returns (o: Outcome)
      modifies this`tokens, this`issued, this`results
      ensures Model() == SignedIn(old(Model()), f, user, password)
      ensures results == old(results)[f := o]
      ensures o == Done <==> Matches(accounts, user, password)
    {
      if !Matches(accounts, user, password) { o := Answer(f, Rejected); return; }
      issued := issued + [Access(user, accounts[user].version)];
      var _ := AppendToFamily(user, |tokens|, None);
      o := Answer(f, Done);
    }

    method LogoutEverywhere(user: UserId) returns (o: Outcome)
      requires Valid()
      modifies this
      ensures Valid() && turn == old(turn) + 1
      ensures Model() == Serve(old(Model()), old(turn), CallLogoutEverywhere(user))
      ensures if user in old(accounts)
              then o == Done && tokens == RevokeUser(old(tokens), user)
                && accounts == old(accounts)[user := old(accounts)[user].(version := old(accounts)[user].version + 1)]
              else o == Rejected && tokens == old(tokens) && accounts == old(accounts)
    {
      ghost var f := turn;
      ServeIsRun(Model(), f, CallLogoutEverywhere(user));
      LogoutEverywhereServed(Model(), f, user);
      turn := turn + 1;
      if user !in accounts { o := Answer(f, Rejected); return; }
      RevokeAllRefreshTokens(user);
      RevokeAllSessions(user);
      o := Answer(f, Done);
    }

    method ConsumePasswordReset(reset: Id, newPassword: nat) returns (o: Outcome)
      requires Valid()
      modifies this
      ensures Valid() && turn == old(turn) + 1
      ensures Model() == Serve(old(Model()), old(turn), CallReset(reset, newPassword))
      ensures results == old(results)[old(turn) := o]
      ensures o == Done || (o == Rejected && tokens == old(tokens) && accounts == old(accounts))
    {
      ghost var f := turn;
      ServeIsRun(Model(), f, CallReset(reset, newPassword));
      ResetServed(Model(), f, reset, newPassword);
      turn := turn + 1;
      if reset >= |resets| || resets[reset].used || clock > resets[reset].expires {
        o := Answer(f, Rejected); return;
      }
      var user := resets[reset].user;
      if user !in accounts || !accounts[user].active { o := Answer(f, Rejected); return; }
      o := Redeem(f, reset, newPassword);
    }

    /** The transaction that redeems a link. */
    method Redeem(ghost f: FlightId, reset: Id, newPassword: nat) returns (o: Outcome)
      requires Redeemable(Model(), reset)
      modifies this`tokens, this`accounts, this`resets, this`redeemed, this`results
      ensures Model() == Redeemed(old(Model()), f, reset, newPassword)
      ensures o == Done && results == old(results)[f := Done]
    {
      var user := resets[reset].user;
      resets := resets[reset := resets[reset].(used := true)];
      accounts := SetPassword(accounts, user, newPassword);
      RevokeAllRefreshTokens(user);
      RevokeAllSessions(user);
      redeemed := redeemed + [reset];
      o := Answer(f, Done);
    }

    /** CreatePasswordReset: older links superseded and a new one written, for an active account. */
    method CreatePasswordReset(user: UserId, validFor: nat) returns (id: Option<Id>)
      requires Valid()
      modifies this`resets, this`results, this`turn
      ensures Valid() && turn == old(turn) + 1
      ensures Model() == Serve(old(Model()), old(turn), CallForgot(user, validFor))
      ensures id.Some? <==> Active(accounts, user)
      ensures id.None? ==> resets == old(resets)
      ensures id.Some? ==> id == Some(|old(resets)|) && OnlyLink(resets, user, id.value)
    {
      ServeIsRun(Model(), turn, CallForgot(user, validFor));
      ForgotServed(Model(), turn, user, validFor);
      NewLinkOnly(resets, user, clock + validFor);
      id := Relink(turn, user, validFor);
      turn := turn + 1;
    }

    /** The rest of it, once the call is under way. */
    method Relink(ghost f: FlightId, user: UserId, validFor: nat) returns (id: Option<Id>)
      modifies this`resets, this`results
      ensures Model() == Forgotten(old(Model()), f, user, validFor)
      ensures results.Keys == old(results).Keys + {f}
      ensures id == if Active(accounts, user) then Some(|old(resets)|) else None
      ensures resets == if id.Some? then WithLink(old(resets), user, clock + validFor) else old(resets)
    {
      if !Active(accounts, user) {
        var _ := Answer(f, Rejected);
        return None;
      }
      resets := Supersede(resets, user);
      id := Some(|resets|);
      resets := resets + [Reset(user, clock + validFor, false)];
      var _ := Answer(f, Linked(id.value));
    }

    /** Logout: ends the family of the presented token, whatever state the token is in. */
    method Logout(presented: Id)
      requires Valid()
      modifies this`tokens
      ensures Valid() && Model() == Apply(old(Model()), Event.Logout(presented))
    {
      ReachableApply(Model(), Event.Logout(presented));
      if presented < |tokens| { RevokeRefreshFamily(tokens[presented].family); }
    }

    method Answer(ghost f: FlightId, o: Outcome) returns (r: Outcome)
      modifies this`results
      ensures r == o && results == old(results)[f := o]
    {
      results := results[f := o];
      r := o;
    }
  }
}
