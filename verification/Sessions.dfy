/**
 The session protocol (internal/services/refresh.go, password_reset.go, auth.go and
 internal/handlers/session.go) one database statement at a time: refresh-token rotation and
 revocation, sign-in, sign-out everywhere and password reset, interleaving freely.
 Hashes are injective, so a refresh token is named by its row.
 */
module Sessions {
  import opened Common

  type UserId = nat
  type Id = nat
  type FlightId = nat

  /** A refresh token. A family is named by its first token; `parent` records what it replaced. */
  datatype Token = Token(user: UserId, family: Id, expires: nat, used: bool, revoked: bool, parent: Option<Id>)

  datatype Account = Account(active: bool, version: nat, password: nat)

  /** The claims of an access token that the middleware checks. */
  datatype Access = Access(user: UserId, version: nat)

  datatype Reset = Reset(user: UserId, expires: nat, used: bool)

  datatype Flight =
    | RotateLoad(presented: Id)
    | RotateClaim(id: Id, user: UserId, family: Id)
    | RotateUser(id: Id, user: UserId, family: Id)
    | RotateAppend(id: Id, user: UserId, family: Id, version: nat)
    | KillFamily(family: Id)
    | LoginCheck(user: UserId, password: nat)
    | LoginAppend(user: UserId)
    | OutLoad(user: UserId)
    | OutTokens(user: UserId)
    | OutVersion(user: UserId)
    | ResetLoad(reset: Id, newPassword: nat)
    | ResetCommit(reset: Id, user: UserId, newPassword: nat)
    | ForgotLoad(user: UserId, validFor: nat)
    | ForgotSupersede(user: UserId, validFor: nat)
    | ForgotInsert(user: UserId, validFor: nat)

  datatype Outcome = Rotated(next: Id) | Linked(link: Id) | Raced | Rejected | Done

  /** `rotated` and `redeemed` log what was exchanged; `born` the accounts that ever existed. */
  datatype Sys = Sys(clock: nat, ttl: nat, tokens: seq<Token>, accounts: map<UserId, Account>,
                     born: set<UserId>, issued: seq<Access>, resets: seq<Reset>,
                     flights: map<FlightId, Flight>, results: map<FlightId, Outcome>,
                     rotated: seq<Id>, redeemed: seq<Id>)

  function Empty(ttl: nat): Sys { Sys(0, ttl, [], map[], {}, [], [], map[], map[], [], []) }

  predicate LiveToken(t: Token) { !t.used && !t.revoked }

  /** Auth: the account must exist, be active and still be at the token's version. */
  predicate Accepts(s: Sys, a: Access) {
    a.user in s.accounts && s.accounts[a.user].active && a.version == s.accounts[a.user].version
  }

  function Goto(s: Sys, f: FlightId, next: Flight): Sys { s.(flights := s.flights[f := next]) }

  function Finish(s: Sys, f: FlightId, o: Outcome): Sys {
    s.(flights := s.flights - {f}, results := s.results[f := o])
  }

  function RevokeWhere(ts: seq<Token>, which: Token -> bool): (r: seq<Token>)
    ensures |r| == |ts|
    ensures forall i :: 0 <= i < |ts| ==> r[i] == if which(ts[i]) then ts[i].(revoked := true) else ts[i]
  {
    seq(|ts|, i requires 0 <= i < |ts| => if which(ts[i]) then ts[i].(revoked := true) else ts[i])
  }

  function RevokeFamily(ts: seq<Token>, family: Id): (r: seq<Token>)
    ensures |r| == |ts|
    ensures forall i :: 0 <= i < |ts| ==> r[i] == if ts[i].family == family then ts[i].(revoked := true) else ts[i]
  {
    RevokeWhere(ts, (t: Token) => t.family == family)
  }

  function RevokeUser(ts: seq<Token>, user: UserId): (r: seq<Token>)
    ensures |r| == |ts|
    ensures forall i :: 0 <= i < |ts| ==> r[i] == if ts[i].user == user then ts[i].(revoked := true) else ts[i]
  {
    RevokeWhere(ts, (t: Token) => t.user == user)
  }

  /** UPDATE ... SET token_version = token_version + 1; no row, no effect. */
  function BumpVersion(accounts: map<UserId, Account>, user: UserId): map<UserId, Account> {
    if user in accounts then accounts[user := accounts[user].(version := accounts[user].version + 1)]
    else accounts
  }

  function SetPassword(accounts: map<UserId, Account>, user: UserId, password: nat): map<UserId, Account> {
    if user in accounts then accounts[user := accounts[user].(password := password)] else accounts
  }

  // --- Statements ------------------------------------------------------------------

  function DoRotateLoad(s: Sys, f: FlightId, fl: Flight): Sys
    requires fl.RotateLoad?
  {
    if fl.presented >= |s.tokens| then Finish(s, f, Rejected)
    else
      var t := s.tokens[fl.presented];
      if t.revoked || s.clock > t.expires then Finish(s, f, Rejected)
      else if t.used then Goto(s, f, KillFamily(t.family))
      else Goto(s, f, RotateClaim(fl.presented, t.user, t.family))
  }

  /** The conditional UPDATE that lets one of several concurrent requests win. */
  function DoRotateClaim(s: Sys, f: FlightId, fl: Flight): Sys
    requires fl.RotateClaim?
  {
    if fl.id < |s.tokens| && LiveToken(s.tokens[fl.id])
    then Goto(s.(tokens := s.tokens[fl.id := s.tokens[fl.id].(used := true)]), f,
              RotateUser(fl.id, fl.user, fl.family))
    else Finish(s, f, Raced)
  }

  function DoRotateUser(s: Sys, f: FlightId, fl: Flight): Sys
    requires fl.RotateUser?
  {
    if fl.user !in s.accounts then Finish(s, f, Rejected)
    else if !s.accounts[fl.user].active then Goto(s, f, KillFamily(fl.family))
    else Goto(s, f, RotateAppend(fl.id, fl.user, fl.family, s.accounts[fl.user].version))
  }

  function DoRotateAppend(s: Sys, f: FlightId, fl: Flight): Sys
    requires fl.RotateAppend?
  {
    Finish(s, f, Rotated(|s.tokens|)).(
      tokens := s.tokens + [Token(fl.user, fl.family, s.clock + s.ttl, false, false, Some(fl.id))],
      issued := s.issued + [Access(fl.user, fl.version)], rotated := s.rotated + [fl.id])
  }

  function DoKillFamily(s: Sys, f: FlightId, fl: Flight): Sys
    requires fl.KillFamily?
  {
    Finish(s, f, Rejected).(tokens := RevokeFamily(s.tokens, fl.family))
  }

  function DoLoginCheck(s: Sys, f: FlightId, fl: Flight): Sys
    requires fl.LoginCheck?
  {
    if fl.user !in s.accounts || !s.accounts[fl.user].active || s.accounts[fl.user].password != fl.password
    then Finish(s, f, Rejected)
    else Goto(s, f, LoginAppend(fl.user)).(issued := s.issued + [Access(fl.user, s.accounts[fl.user].version)])
  }

  /** A sign-in starts a family of its own. */
  function DoLoginAppend(s: Sys, f: FlightId, fl: Flight): Sys
    requires fl.LoginAppend?
  {
    Finish(s, f, Done).(tokens := s.tokens + [Token(fl.user, |s.tokens|, s.clock + s.ttl, false, false, None)])
  }

  function DoOutLoad(s: Sys, f: FlightId, fl: Flight): Sys
    requires fl.OutLoad?
  {
    if fl.user in s.accounts then Goto(s, f, OutTokens(fl.user)) else Finish(s, f, Rejected)
  }

  function DoOutTokens(s: Sys, f: FlightId, fl: Flight): Sys
    requires fl.OutTokens?
  {
    Goto(s, f, OutVersion(fl.user)).(tokens := RevokeUser(s.tokens, fl.user))
  }

  function DoOutVersion(s: Sys, f: FlightId, fl: Flight): Sys
    requires fl.OutVersion?
  {
    Finish(s, f, Done).(accounts := BumpVersion(s.accounts, fl.user))
  }

  function DoResetLoad(s: Sys, f: FlightId, fl: Flight): Sys
    requires fl.ResetLoad?
  {
    if fl.reset >= |s.resets| || s.resets[fl.reset].used || s.clock > s.resets[fl.reset].expires
       || s.resets[fl.reset].user !in s.accounts || !s.accounts[s.resets[fl.reset].user].active
    then Finish(s, f, Rejected)
    else Goto(s, f, ResetCommit(fl.reset, s.resets[fl.reset].user, fl.newPassword))
  }

  /** One transaction: claim the link, set the password, end every session. */
  function DoResetCommit(s: Sys, f: FlightId, fl: Flight): Sys
    requires fl.ResetCommit?
  {
    if fl.reset < |s.resets| && !s.resets[fl.reset].used
    then Finish(s, f, Done).(
           resets := s.resets[fl.reset := s.resets[fl.reset].(used := true)],
           accounts := BumpVersion(SetPassword(s.accounts, fl.user, fl.newPassword), fl.user),
           tokens := RevokeUser(s.tokens, fl.user), redeemed := s.redeemed + [fl.reset])
    else Finish(s, f, Rejected)
  }

  function DoForgotLoad(s: Sys, f: FlightId, fl: Flight): Sys
    requires fl.ForgotLoad?
  {
    if fl.user in s.accounts && s.accounts[fl.user].active then Goto(s, f, ForgotSupersede(fl.user, fl.validFor))
    else Finish(s, f, Rejected)
  }

  /** Older links are superseded. */
  function Supersede(rs: seq<Reset>, user: UserId): (r: seq<Reset>)
    ensures |r| == |rs|
    ensures forall i :: 0 <= i < |rs| ==> r[i] == if rs[i].user == user then rs[i].(used := true) else rs[i]
  {
    seq(|rs|, i requires 0 <= i < |rs| => if rs[i].user == user then rs[i].(used := true) else rs[i])
  }

  function DoForgotSupersede(s: Sys, f: FlightId, fl: Flight): Sys
    requires fl.ForgotSupersede?
  {
    Goto(s, f, ForgotInsert(fl.user, fl.validFor)).(resets := Supersede(s.resets, fl.user))
  }

  /** The new link, in a statement of its own: no transaction, and no index on the user. */
  function DoForgotInsert(s: Sys, f: FlightId, fl: Flight): Sys
    requires fl.ForgotInsert?
  {
    Finish(s, f, Linked(|s.resets|)).(resets := s.resets + [Reset(fl.user, s.clock + fl.validFor, false)])
  }

  function Advance(s: Sys, f: FlightId): Sys
    requires f in s.flights
  {
    var fl := s.flights[f];
    match fl
    case RotateLoad(_) => DoRotateLoad(s, f, fl)
    case RotateClaim(_, _, _) => DoRotateClaim(s, f, fl)
    case RotateUser(_, _, _) => DoRotateUser(s, f, fl)
    case RotateAppend(_, _, _, _) => DoRotateAppend(s, f, fl)
    case KillFamily(_) => DoKillFamily(s, f, fl)
    case LoginCheck(_, _) => DoLoginCheck(s, f, fl)
    case LoginAppend(_) => DoLoginAppend(s, f, fl)
    case OutLoad(_) => DoOutLoad(s, f, fl)
    case OutTokens(_) => DoOutTokens(s, f, fl)
    case OutVersion(_) => DoOutVersion(s, f, fl)
    case ResetLoad(_, _) => DoResetLoad(s, f, fl)
    case ResetCommit(_, _, _) => DoResetCommit(s, f, fl)
    case ForgotLoad(_, _) => DoForgotLoad(s, f, fl)
    case ForgotSupersede(_, _) => DoForgotSupersede(s, f, fl)
    case ForgotInsert(_, _) => DoForgotInsert(s, f, fl)
  }

  /** What a client may ask for. */
  datatype Call =
    | CallRefresh(presented: Id)
    | CallLogin(user: UserId, password: nat)
    | CallLogoutEverywhere(user: UserId)
    | CallReset(reset: Id, newPassword: nat)
    | CallForgot(user: UserId, validFor: nat)

  function Entry(c: Call): Flight {
    match c
    case CallRefresh(presented) => RotateLoad(presented)
    case CallLogin(user, password) => LoginCheck(user, password)
    case CallLogoutEverywhere(user) => OutLoad(user)
    case CallReset(reset, newPassword) => ResetLoad(reset, newPassword)
    case CallForgot(user, validFor) => ForgotLoad(user, validFor)
  }

  datatype Event =
    | Start(f: FlightId, call: Call)
    | Next(f: FlightId)
    | Crash(f: FlightId)
    | Tick
    | Register(user: UserId, password: nat)
    | SetActive(user: UserId, active: bool)
    | Delete(user: UserId)
    | Logout(presented: Id)

  function Apply(s: Sys, e: Event): Sys {
    match e
    case Start(f, call) => if f in s.flights || f in s.results then s else Goto(s, f, Entry(call))
    case Next(f) => if f in s.flights then Advance(s, f) else s
    case Crash(f) => if f in s.flights then Finish(s, f, Rejected) else s
    case Tick => s.(clock := s.clock + 1)
    case Register(u, password) =>
      if u in s.born then s
      else s.(accounts := s.accounts[u := Account(true, 1, password)], born := s.born + {u})
    case SetActive(u, active) =>
      if u in s.accounts then s.(accounts := s.accounts[u := s.accounts[u].(active := active)]) else s
    case Delete(u) => s.(accounts := s.accounts - {u})
    case Logout(presented) =>
      if presented < |s.tokens| then s.(tokens := RevokeFamily(s.tokens, s.tokens[presented].family)) else s
  }

  function Run(s: Sys, es: seq<Event>): Sys {
    if es == [] then s else Apply(Run(s, es[..|es| - 1]), es[|es| - 1])
  }
}
