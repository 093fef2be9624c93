/** What every interleaving of the session protocol keeps. */
module SessionSafety {
  import opened Common
  import opened Sessions

  // --- Families are chains -----------------------------------------------------------

  ghost predicate NewestOf(ts: seq<Token>, i: Id) {
    i < |ts| && forall j :: i < j < |ts| ==> ts[j].family != ts[i].family
  }

  /** i is the next token of its family after p, which was spent on it. */
  ghost predicate Follows(ts: seq<Token>, p: Id, i: Id) {
    && p < i < |ts| && ts[p].family == ts[i].family && ts[p].used
    && forall j :: p < j < i ==> ts[j].family != ts[i].family
  }

  /** A token is the first of its family, or directly follows the token it replaced. */
  ghost predicate LinkOk(ts: seq<Token>, i: Id)
    requires i < |ts|
  {
    && ts[i].family <= i && ts[ts[i].family].family == ts[i].family
    && ts[ts[i].family].user == ts[i].user
    && match ts[i].parent
       case None => ts[i].family == i
       case Some(p) => Follows(ts, p, i)
  }

  ghost predicate TokensOk(ts: seq<Token>) {
    && (forall i :: 0 <= i < |ts| ==> LinkOk(ts, i))
    && (forall i, j :: 0 <= i < j < |ts| && ts[i].family == ts[j].family ==> !LiveToken(ts[i]))
  }

  predicate Claiming(fl: Flight) { fl.RotateUser? || fl.RotateAppend? }

  /** No two handlers hold a claim on the same token. */
  predicate OneClaim(a: Flight, b: Flight) { Claiming(a) && Claiming(b) ==> a.id != b.id }

  ghost predicate FlightOk(s: Sys, fl: Flight) {
    && (fl.RotateClaim? || Claiming(fl) ==>
          fl.id < |s.tokens| && s.tokens[fl.id].user == fl.user && s.tokens[fl.id].family == fl.family)
    && (Claiming(fl) ==> s.tokens[fl.id].used && NewestOf(s.tokens, fl.id))
    && (fl.RotateAppend? ==> NotAhead(s, Access(fl.user, fl.version)))
    && (fl.ResetCommit? ==> fl.reset < |s.resets| && s.resets[fl.reset].user == fl.user)
  }

  /** No credential carries a version the account has not reached. */
  ghost predicate NotAhead(s: Sys, a: Access) {
    a.user in s.born && (a.user in s.accounts ==> a.version <= s.accounts[a.user].version)
  }

  ghost predicate FlightsOk(s: Sys) {
    && (forall f :: f in s.flights ==> FlightOk(s, s.flights[f]) && f !in s.results)
    && (forall f, g :: f in s.flights && g in s.flights && f != g ==> OneClaim(s.flights[f], s.flights[g]))
  }

  ghost predicate DistinctIds(ids: seq<Id>) {
    forall a, b :: 0 <= a < b < |ids| ==> ids[a] != ids[b]
  }

  ghost predicate LogsOk(s: Sys) {
    && DistinctIds(s.rotated)
    && (forall k :: 0 <= k < |s.rotated| ==> s.rotated[k] < |s.tokens| && !NewestOf(s.tokens, s.rotated[k]))
    && DistinctIds(s.redeemed)
    && (forall k :: 0 <= k < |s.redeemed| ==> s.redeemed[k] < |s.resets| && s.resets[s.redeemed[k]].used)
  }

  ghost predicate VersionsOk(s: Sys) {
    && s.accounts.Keys <= s.born
    && (forall k :: 0 <= k < |s.issued| ==> NotAhead(s, s.issued[k]))
  }

  ghost predicate Inv(s: Sys) {
    TokensOk(s.tokens) && FlightsOk(s) && LogsOk(s) && VersionsOk(s)
  }

  // --- Growth ---------------------------------------------------------------------------

  /** Tokens keep who and what they are; being used or revoked is never undone. */
  ghost predicate TokensGrow(ts: seq<Token>, ts': seq<Token>) {
    |ts| <= |ts'| && forall i :: 0 <= i < |ts| ==>
      && ts'[i].user == ts[i].user && ts'[i].family == ts[i].family && ts'[i].parent == ts[i].parent
      && ts'[i].expires == ts[i].expires && (ts[i].used ==> ts'[i].used) && (ts[i].revoked ==> ts'[i].revoked)
  }

  /** Versions only rise, and an account once gone stays gone. */
  ghost predicate AccountsGrow(s: Sys, s': Sys) {
    && s.born <= s'.born
    && (forall u :: u in s.born && u in s'.accounts ==> u in s.accounts && s.accounts[u].version <= s'.accounts[u].version)
  }

  ghost predicate Grows(s: Sys, s': Sys) {
    && TokensGrow(s.tokens, s'.tokens) && AccountsGrow(s, s')
    && s.issued <= s'.issued && s.rotated <= s'.rotated && s.redeemed <= s'.redeemed
    && |s.resets| <= |s'.resets|
    && (forall i :: 0 <= i < |s.resets| ==>
          s'.resets[i].user == s.resets[i].user && (s.resets[i].used ==> s'.resets[i].used))
  }

  lemma MarkTokens(ts: seq<Token>, ts': seq<Token>)
    requires TokensOk(ts) && |ts'| == |ts| && TokensGrow(ts, ts')
    ensures TokensOk(ts')
    ensures forall i :: 0 <= i < |ts| ==> (NewestOf(ts', i) <==> NewestOf(ts, i))
  {
    forall i | 0 <= i < |ts'| ensures LinkOk(ts', i) { assert LinkOk(ts, i); }
  }

  /** A new token may start a family, or follow the newest of one. */
  ghost predicate Appendable(ts: seq<Token>, t: Token) {
    match t.parent
    case None => t.family == |ts|
    case Some(p) => NewestOf(ts, p) && ts[p].used && t.family == ts[p].family && t.user == ts[p].user
  }

  lemma AppendLinks(ts: seq<Token>, t: Token)
    requires TokensOk(ts) && Appendable(ts, t)
    ensures forall i :: 0 <= i < |ts| + 1 ==> LinkOk(ts + [t], i)
  {
    var ts' := ts + [t];
    forall i | 0 <= i < |ts'| ensures LinkOk(ts', i) {
      if i < |ts| { assert LinkOk(ts, i); }
      else if t.parent.Some? { assert LinkOk(ts, t.parent.value); }
    }
  }

  lemma AppendSpends(ts: seq<Token>, t: Token)
    requires TokensOk(ts) && Appendable(ts, t)
    ensures forall i :: 0 <= i < |ts| && ts[i].family == t.family ==> !LiveToken(ts[i])
  {
    forall i | 0 <= i < |ts| && ts[i].family == t.family ensures !LiveToken(ts[i]) {
      assert LinkOk(ts, i);
      assert t.parent.Some?;
      assert i <= t.parent.value;
    }
  }

  lemma AppendToken(ts: seq<Token>, t: Token)
    requires TokensOk(ts) && Appendable(ts, t)
    ensures TokensOk(ts + [t]) && TokensGrow(ts, ts + [t])
  {
    AppendLinks(ts, t);
    AppendSpends(ts, t);
  }

  /** Handlers other than the mover keep what they rely on, if their claims stay newest. */
  lemma OthersFly(s: Sys, s': Sys, f: FlightId)
    requires FlightsOk(s) && Grows(s, s') && s'.flights - {f} == s.flights - {f}
    requires forall g :: g in s'.results ==> g in s.results || g == f
    requires f in s'.flights ==> FlightOk(s', s'.flights[f]) && f !in s'.results
    requires forall g :: g in s.flights && g != f && Claiming(s.flights[g]) ==>
      NewestOf(s'.tokens, s.flights[g].id)
      && (f in s'.flights && Claiming(s'.flights[f]) ==> s'.flights[f].id != s.flights[g].id)
    ensures FlightsOk(s')
  {
    forall g | g in s'.flights ensures FlightOk(s', s'.flights[g]) && g !in s'.results {
      if g != f {
        assert g in s'.flights - {f} && g in s.flights - {f};
        assert FlightOk(s, s.flights[g]);
        if s.flights[g].RotateAppend? {
          assert NotAhead(s, Access(s.flights[g].user, s.flights[g].version));
        }
      }
    }
    forall g, h | g in s'.flights && h in s'.flights && g != h
      ensures OneClaim(s'.flights[g], s'.flights[h])
    {
      if g != f { assert g in s'.flights - {f} && g in s.flights - {f}; }
      if h != f { assert h in s'.flights - {f} && h in s.flights - {f}; }
      if g != f && h != f { assert OneClaim(s.flights[g], s.flights[h]); }
    }
  }

  lemma VersionsKept(s: Sys, s': Sys)
    requires VersionsOk(s) && Grows(s, s') && s'.accounts.Keys <= s'.born
    requires forall k :: |s.issued| <= k < |s'.issued| ==> NotAhead(s', s'.issued[k])
    ensures VersionsOk(s')
  {
    forall k | 0 <= k < |s'.issued| ensures NotAhead(s', s'.issued[k]) {
      if k < |s.issued| { assert NotAhead(s, s.issued[k]); }
    }
  }

  // --- One lemma per statement -----------------------------------------------------------

  ghost predicate Ready(s: Sys, f: FlightId) {
    Inv(s) && f in s.flights && FlightOk(s, s.flights[f]) && f !in s.results
  }

  ghost predicate Step(s: Sys, s': Sys) {
    Inv(s') && Grows(s, s')
  }

  /** Statements that write no table. */
  lemma ReadStep(s: Sys, s': Sys, f: FlightId)
    requires Ready(s, f) && s'.flights - {f} == s.flights - {f}
    requires s'.tokens == s.tokens && s'.accounts == s.accounts && s'.born == s.born && s'.issued == s.issued
    requires s'.resets == s.resets && s'.rotated == s.rotated && s'.redeemed == s.redeemed
    requires forall g :: g in s'.results ==> g in s.results || g == f
    requires f in s'.flights ==> FlightOk(s', s'.flights[f]) && f !in s'.results
    requires f in s'.flights && Claiming(s'.flights[f]) ==>
      Claiming(s.flights[f]) && s'.flights[f].id == s.flights[f].id
    ensures Step(s, s')
  {
    OthersFly(s, s', f);
    VersionsKept(s, s');
  }

  lemma LoadSteps(s: Sys, f: FlightId, fl: Flight)
    requires Ready(s, f) && fl == s.flights[f]
    ensures fl.RotateLoad? ==> Step(s, DoRotateLoad(s, f, fl))
    ensures fl.ResetLoad? ==> Step(s, DoResetLoad(s, f, fl))
    ensures fl.OutLoad? ==> Step(s, DoOutLoad(s, f, fl))
    ensures fl.ForgotLoad? ==> Step(s, DoForgotLoad(s, f, fl))
  {
    if fl.RotateLoad? { ReadStep(s, DoRotateLoad(s, f, fl), f); }
    if fl.ResetLoad? { ReadStep(s, DoResetLoad(s, f, fl), f); }
    if fl.OutLoad? { ReadStep(s, DoOutLoad(s, f, fl), f); }
    if fl.ForgotLoad? { ReadStep(s, DoForgotLoad(s, f, fl), f); }
  }

  lemma UserStep(s: Sys, f: FlightId, fl: Flight)
    requires Ready(s, f) && fl == s.flights[f] && fl.RotateUser?
    ensures Step(s, DoRotateUser(s, f, fl))
  {
    ReadStep(s, DoRotateUser(s, f, fl), f);
  }

  lemma ClaimStep(s: Sys, f: FlightId, fl: Flight)
    requires Ready(s, f) && fl == s.flights[f] && fl.RotateClaim?
    ensures Step(s, DoRotateClaim(s, f, fl))
  {
    var s' := DoRotateClaim(s, f, fl);
    if LiveToken(s.tokens[fl.id]) {
      assert NewestOf(s.tokens, fl.id);
      MarkTokens(s.tokens, s'.tokens);
      assert forall g :: g in s.flights && Claiming(s.flights[g]) ==> FlightOk(s, s.flights[g]);
      OthersFly(s, s', f);
      VersionsKept(s, s');
    } else {
      ReadStep(s, s', f);
    }
  }

  lemma AppendStep(s: Sys, f: FlightId, fl: Flight)
    requires Ready(s, f) && fl == s.flights[f] && fl.RotateAppend?
    ensures Step(s, DoRotateAppend(s, f, fl))
  {
    var s' := DoRotateAppend(s, f, fl);
    var t := Token(fl.user, fl.family, s.clock + s.ttl, false, false, Some(fl.id));
    AppendToken(s.tokens, t);
    forall g | g in s.flights && g != f && Claiming(s.flights[g]) ensures NewestOf(s'.tokens, s.flights[g].id) {
      assert FlightOk(s, s.flights[g]) && s.flights[g].id != fl.id;
      assert s.flights[g].family != fl.family by {
        if s.flights[g].id < fl.id { assert s.tokens[fl.id].family != s.flights[g].family; }
      }
    }
    OthersFly(s, s', f);
    assert s'.issued[|s.issued|] == Access(fl.user, fl.version);
    VersionsKept(s, s');
    forall k | 0 <= k < |s'.rotated| ensures s'.rotated[k] < |s'.tokens| && !NewestOf(s'.tokens, s'.rotated[k]) {
      NoLongerNewest(s.tokens, t, s'.rotated[k]);
    }
  }

  lemma NoLongerNewest(ts: seq<Token>, t: Token, i: Id)
    requires i < |ts| && (!NewestOf(ts, i) || t.family == ts[i].family)
    ensures !NewestOf(ts + [t], i)
  {
    if !NewestOf(ts, i) {
      var j :| i < j < |ts| && ts[j].family == ts[i].family;
      assert (ts + [t])[j].family == (ts + [t])[i].family;
    } else {
      assert (ts + [t])[|ts|].family == (ts + [t])[i].family;
    }
  }

  /** Revoking tokens, whoever's they are. */
  lemma RevokeStep(s: Sys, s': Sys, f: FlightId)
    requires Inv(s) && s'.flights - {f} == s.flights - {f}
    requires |s'.tokens| == |s.tokens| && TokensGrow(s.tokens, s'.tokens)
    requires s'.accounts == s.accounts && s'.born == s.born && s'.issued == s.issued
    requires s'.resets == s.resets && s'.rotated == s.rotated && s'.redeemed == s.redeemed
    requires forall g :: g in s'.results ==> g in s.results || g == f
    requires f in s'.flights ==> f !in s'.results && s'.flights[f].OutVersion?
    ensures Step(s, s')
  {
    MarkTokens(s.tokens, s'.tokens);
    assert forall g :: g in s.flights && Claiming(s.flights[g]) ==> FlightOk(s, s.flights[g]);
    OthersFly(s, s', f);
    VersionsKept(s, s');
  }

  lemma KillSteps(s: Sys, f: FlightId, fl: Flight)
    requires Ready(s, f) && fl == s.flights[f]
    ensures fl.KillFamily? ==> Step(s, DoKillFamily(s, f, fl))
    ensures fl.OutTokens? ==> Step(s, DoOutTokens(s, f, fl))
  {
    if fl.KillFamily? { RevokeStep(s, DoKillFamily(s, f, fl), f); }
    if fl.OutTokens? { RevokeStep(s, DoOutTokens(s, f, fl), f); }
  }

  lemma OutVersionStep(s: Sys, f: FlightId, fl: Flight)
    requires Ready(s, f) && fl == s.flights[f] && fl.OutVersion?
    ensures Step(s, DoOutVersion(s, f, fl))
  {
    var s' := DoOutVersion(s, f, fl);
    MarkTokens(s.tokens, s'.tokens);
    assert forall g :: g in s.flights && Claiming(s.flights[g]) ==> FlightOk(s, s.flights[g]);
    OthersFly(s, s', f);
    VersionsKept(s, s');
  }

  lemma LoginCheckStep(s: Sys, f: FlightId, fl: Flight)
    requires Ready(s, f) && fl == s.flights[f] && fl.LoginCheck?
    ensures Step(s, DoLoginCheck(s, f, fl))
  {
    var s' := DoLoginCheck(s, f, fl);
    assert forall g :: g in s.flights && Claiming(s.flights[g]) ==> FlightOk(s, s.flights[g]);
    OthersFly(s, s', f);
    if f in s'.flights { assert s'.issued[|s.issued|] == Access(fl.user, s.accounts[fl.user].version); }
    VersionsKept(s, s');
  }

  lemma LoginAppendStep(s: Sys, f: FlightId, fl: Flight)
    requires Ready(s, f) && fl == s.flights[f] && fl.LoginAppend?
    ensures Step(s, DoLoginAppend(s, f, fl))
  {
    var s' := DoLoginAppend(s, f, fl);
    var t := Token(fl.user, |s.tokens|, s.clock + s.ttl, false, false, None);
    AppendToken(s.tokens, t);
    forall g | g in s.flights && g != f && Claiming(s.flights[g]) ensures NewestOf(s'.tokens, s.flights[g].id) {
      assert FlightOk(s, s.flights[g]) && LinkOk(s.tokens, s.flights[g].id);
    }
    OthersFly(s, s', f);
    VersionsKept(s, s');
    forall k | 0 <= k < |s'.rotated| ensures s'.rotated[k] < |s'.tokens| && !NewestOf(s'.tokens, s'.rotated[k]) {
      NoLongerNewest(s.tokens, t, s'.rotated[k]);
    }
  }

  lemma ResetCommitStep(s: Sys, f: FlightId, fl: Flight)
    requires Ready(s, f) && fl == s.flights[f] && fl.ResetCommit?
    ensures Step(s, DoResetCommit(s, f, fl))
  {
    var s' := DoResetCommit(s, f, fl);
    if s.resets[fl.reset].used {
      ReadStep(s, s', f);
    } else {
      MarkTokens(s.tokens, s'.tokens);
      ResetGrows(s, f, fl);
      assert forall g :: g in s.flights && Claiming(s.flights[g]) ==> FlightOk(s, s.flights[g]);
      OthersFly(s, s', f);
      VersionsKept(s, s');
      ResetLogs(s, f, fl);
    }
  }

  lemma ResetGrows(s: Sys, f: FlightId, fl: Flight)
    requires Ready(s, f) && fl == s.flights[f] && fl.ResetCommit? && !s.resets[fl.reset].used
    ensures Grows(s, DoResetCommit(s, f, fl))
  {}

  lemma ResetLogs(s: Sys, f: FlightId, fl: Flight)
    requires Ready(s, f) && fl == s.flights[f] && fl.ResetCommit? && !s.resets[fl.reset].used
    requires forall i :: 0 <= i < |s.tokens| ==> (NewestOf(DoResetCommit(s, f, fl).tokens, i) <==> NewestOf(s.tokens, i))
    ensures LogsOk(DoResetCommit(s, f, fl))
  {}

  /** Statements that write nothing but reset links, none of them back to unused. */
  lemma LinksStep(s: Sys, s': Sys, f: FlightId)
    requires Ready(s, f) && s'.flights - {f} == s.flights - {f} && Grows(s, s')
    requires s'.tokens == s.tokens && s'.accounts == s.accounts && s'.born == s.born && s'.issued == s.issued
    requires s'.rotated == s.rotated && s'.redeemed == s.redeemed
    requires forall g :: g in s'.results ==> g in s.results || g == f
    requires f in s'.flights ==> f !in s'.results && s'.flights[f].ForgotInsert?
    ensures Step(s, s')
  {
    assert forall g :: g in s.flights && Claiming(s.flights[g]) ==> FlightOk(s, s.flights[g]);
    OthersFly(s, s', f);
    VersionsKept(s, s');
  }

  lemma ForgotSteps(s: Sys, f: FlightId, fl: Flight)
    requires Ready(s, f) && fl == s.flights[f]
    ensures fl.ForgotSupersede? ==> Step(s, DoForgotSupersede(s, f, fl))
    ensures fl.ForgotInsert? ==> Step(s, DoForgotInsert(s, f, fl))
  {
    if fl.ForgotSupersede? { LinksStep(s, DoForgotSupersede(s, f, fl), f); }
    if fl.ForgotInsert? { LinksStep(s, DoForgotInsert(s, f, fl), f); }
  }

  lemma AdvanceStep(s: Sys, f: FlightId)
    requires Inv(s) && f in s.flights
    ensures Step(s, Advance(s, f))
  {
    var fl := s.flights[f];
    assert Ready(s, f);
    match fl
    case RotateLoad(_) => LoadSteps(s, f, fl);
    case RotateClaim(_, _, _) => ClaimStep(s, f, fl);
    case RotateUser(_, _, _) => UserStep(s, f, fl);
    case RotateAppend(_, _, _, _) => AppendStep(s, f, fl);
    case KillFamily(_) => KillSteps(s, f, fl);
    case LoginCheck(_, _) => LoginCheckStep(s, f, fl);
    case LoginAppend(_) => LoginAppendStep(s, f, fl);
    case OutLoad(_) => LoadSteps(s, f, fl);
    case OutTokens(_) => KillSteps(s, f, fl);
    case OutVersion(_) => OutVersionStep(s, f, fl);
    case ResetLoad(_, _) => LoadSteps(s, f, fl);
    case ResetCommit(_, _, _) => ResetCommitStep(s, f, fl);
    case ForgotLoad(_, _) => LoadSteps(s, f, fl);
    case ForgotSupersede(_, _) => ForgotSteps(s, f, fl);
    case ForgotInsert(_, _) => ForgotSteps(s, f, fl);
  }

  lemma StartStep(s: Sys, f: FlightId, call: Call)
    requires Inv(s) && f !in s.flights && f !in s.results
    ensures Step(s, Goto(s, f, Entry(call)))
  {
    var s' := Goto(s, f, Entry(call));
    assert !Claiming(Entry(call)) && FlightOk(s', Entry(call));
    MarkTokens(s.tokens, s'.tokens);
    assert forall g :: g in s.flights && Claiming(s.flights[g]) ==> FlightOk(s, s.flights[g]);
    OthersFly(s, s', f);
    VersionsKept(s, s');
  }

  lemma CrashStep(s: Sys, f: FlightId)
    requires Inv(s) && f in s.flights
    ensures Step(s, Finish(s, f, Rejected))
  {
    assert Ready(s, f);
    ReadStep(s, Finish(s, f, Rejected), f);
  }

  lemma TickStep(s: Sys)
    requires Inv(s)
    ensures Step(s, s.(clock := s.clock + 1))
  {
    var s' := s.(clock := s.clock + 1);
    KeptFlights(s, s');
    VersionsKept(s, s');
  }

  lemma KeptFlights(s: Sys, s': Sys)
    requires FlightsOk(s) && Grows(s, s') && s'.flights == s.flights && s'.results == s.results
    requires |s'.tokens| == |s.tokens|
    ensures FlightsOk(s')
  {
    forall g | g in s.flights ensures FlightOk(s', s.flights[g]) {
      assert FlightOk(s, s.flights[g]);
      if s.flights[g].RotateAppend? { assert NotAhead(s, Access(s.flights[g].user, s.flights[g].version)); }
    }
  }

  /** Changes to accounts that never lower a version or revive an account. */
  lemma AccountsKept(s: Sys, s': Sys)
    requires Inv(s) && AccountsGrow(s, s') && s' == s.(accounts := s'.accounts, born := s'.born)
    requires s'.accounts.Keys <= s'.born
    ensures Step(s, s')
  {
    KeptFlights(s, s');
    VersionsKept(s, s');
  }

  lemma AccountStep(s: Sys, e: Event)
    requires Inv(s) && (e.Register? || e.SetActive? || e.Delete?)
    ensures Step(s, Apply(s, e))
  {
    AccountsKept(s, Apply(s, e));
  }

  lemma LogoutStep(s: Sys, presented: Id)
    requires Inv(s) && presented < |s.tokens|
    ensures Step(s, s.(tokens := RevokeFamily(s.tokens, s.tokens[presented].family)))
  {
    var s' := s.(tokens := RevokeFamily(s.tokens, s.tokens[presented].family));
    MarkTokens(s.tokens, s'.tokens);
    KeptFlights(s, s');
    VersionsKept(s, s');
  }

  lemma HandlerEventStep(s: Sys, e: Event)
    requires Inv(s) && (e.Start? || e.Crash? || e.Tick?)
    ensures Step(s, Apply(s, e))
  {
    match e
    case Start(f, call) => if f !in s.flights && f !in s.results { StartStep(s, f, call); }
    case Crash(f) => if f in s.flights { CrashStep(s, f); }
    case Tick => TickStep(s);
    case _ =>
  }

  /** Events outside the handlers' statements. */
  lemma OutsideStep(s: Sys, e: Event)
    requires Inv(s) && !e.Next?
    ensures Step(s, Apply(s, e))
  {
    if e.Logout? {
      if e.presented < |s.tokens| { LogoutStep(s, e.presented); }
    } else if e.Start? || e.Crash? || e.Tick? {
      HandlerEventStep(s, e);
    } else {
      AccountStep(s, e);
    }
  }

  lemma ApplyStep(s: Sys, e: Event)
    requires Inv(s)
    ensures Step(s, Apply(s, e))
  {
    if e.Next? {
      if e.f in s.flights { AdvanceStep(s, e.f); }
    } else {
      OutsideStep(s, e);
    }
  }

  lemma {:induction false} RunStep(s: Sys, es: seq<Event>)
    requires Inv(s)
    ensures Step(s, Run(s, es))
  {
    if es != [] {
      RunStep(s, es[..|es| - 1]);
      ApplyStep(Run(s, es[..|es| - 1]), es[|es| - 1]);
    }
  }

  lemma ReachableInv(ttl: nat, es: seq<Event>)
    ensures Inv(Run(Empty(ttl), es))
  {
    assert Inv(Empty(ttl));
    RunStep(Empty(ttl), es);
  }
}
