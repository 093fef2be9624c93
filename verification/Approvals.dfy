/**
 The approval engine (internal/handlers/approvals.go) at the granularity of its database
 statements. A handler in flight is a program counter together with what it has read so far;
 one event runs one statement of one handler, so a sequence of events is an arbitrary
 interleaving of gates, votes, resubmissions and rule edits.
 */
module Approvals {
  import opened Common

  /** Rows are numbered in creation order, which is the order `created_at` sorts by. */
  type Id = nat
  type UserId = nat
  type FlightId = nat

  /** `key` is the primary key, which need not follow the order of creation. */
  datatype Rule = Rule(key: nat, action: string, minAmount: real, required: int, approverRole: string, active: bool)

  datatype Triple = Triple(action: string, entity: nat, requester: UserId)

  datatype Status = Pending | Approved | Rejected | Consumed

  datatype Request = Request(key: Triple, amount: real, required: int, approverRole: string,
                             rule: nat, status: Status, pendingKey: Option<Triple>,
                             supersedes: Option<Id>)

  datatype Vote = Approve | Reject

  datatype Decision = Decision(request: Id, approver: UserId, role: string, vote: Vote, reason: string)

  datatype Outcome = Proceed | BlockedBy(request: Id) | Refused | Done

  /** A rule as it was read, with its id. */
  datatype Matched = Matched(id: nat, required: int, approverRole: string)

  /** What a handler does next, with what it holds in memory. */
  datatype Flight =
    | GateMatch(action: string, entity: nat, caller: Option<UserId>, amount: real)
    | GateFind(key: Triple, amount: real, rule: Matched)
    | GateSpend(key: Triple, amount: real, rule: Matched, found: Id)
    | GateRaise(key: Triple, amount: real, rule: Matched)
    | VoteCaller(request: Id, who: UserId, vote: Vote, reason: string)
    | VoteLoad(request: Id, who: UserId, role: string, vote: Vote, reason: string)
    | VoteCast(request: Id, who: UserId, role: string, required: int, vote: Vote, reason: string)
    | VoteCount(request: Id, required: int)
    | Finalise(request: Id, status: Status)
    | ResubmitLoad(prev: Id, who: UserId)
    | ResubmitMatch(prev: Id, key: Triple, amount: real)
    | ResubmitRaise(prev: Id, key: Triple, amount: real, rule: Matched)
    | ResubmitLink(prev: Id, next: Id)

  /** The log of admitted actions: ungated ones with the rules then in force, and paid-for ones. */
  datatype Pass =
    | Free(flight: FlightId, action: string, amount: real, rules: seq<Rule>)
    | Spent(flight: FlightId, id: Id, key: Triple, amount: real)

  datatype Sys = Sys(rules: seq<Rule>, users: map<UserId, string>,
                     requests: seq<Request>, decisions: seq<Decision>,
                     flights: map<FlightId, Flight>, results: map<FlightId, Outcome>,
                     passes: seq<Pass>, dropped: set<Id>)

  const Empty := Sys([], map[], [], [], map[], map[], [], {})

  // --- Queries -----------------------------------------------------------------

  predicate Covers(r: Rule, action: string, amount: real) {
    r.action == action && r.active && r.minAmount <= amount
  }

  /** The order rules are looked up in: highest floor first, lowest primary key on a tie. */
  predicate Precedes(a: Rule, b: Rule) {
    b.minAmount < a.minAmount || (a.minAmount == b.minAmount && a.key < b.key)
  }

  /** Among the first k rules: the covering one that precedes the others. */
  function BestOf(rules: seq<Rule>, action: string, amount: real, k: nat): (b: Option<nat>)
    requires k <= |rules|
    ensures b.Some? ==> b.value < k
  {
    if k == 0 then None
    else
      var b := BestOf(rules, action, amount, k - 1);
      if Covers(rules[k - 1], action, amount) && (b.None? || Precedes(rules[k - 1], rules[b.value]))
      then Some(k - 1) else b
  }

  function MatchRule(rules: seq<Rule>, action: string, amount: real): (b: Option<nat>)
    ensures b.Some? ==> b.value < |rules|
  {
    BestOf(rules, action, amount, |rules|)
  }

  function Read(rules: seq<Rule>, i: nat): Matched
    requires i < |rules|
  {
    Matched(i, rules[i].required, rules[i].approverRole)
  }

  predicate Live(st: Status) { st == Pending || st == Approved || st == Rejected }

  /** The newest request of a triple that is neither consumed nor absent. */
  function LatestLive(requests: seq<Request>, key: Triple): (id: Option<Id>)
    ensures id.Some? ==> id.value < |requests| && requests[id.value].key == key && Live(requests[id.value].status)
    ensures forall j :: (if id.Some? then id.value else -1) < j < |requests| && requests[j].key == key ==>
      !Live(requests[j].status)
  {
    if requests == [] then None
    else
      var last := |requests| - 1;
      if requests[last].key == key && Live(requests[last].status) then Some(last)
      else LatestLive(requests[..last], key)
  }

  /** The unique index on pending_key has an entry for the triple. */
  predicate SlotTaken(requests: seq<Request>, key: Triple) {
    exists i :: 0 <= i < |requests| && requests[i].pendingKey == Some(key)
  }

  /** The unique index on (request, approver) has an entry for the pair. */
  predicate HasVoted(decisions: seq<Decision>, id: Id, who: UserId) {
    exists k :: 0 <= k < |decisions| && decisions[k].request == id && decisions[k].approver == who
  }

  /** SELECT count(*) of the approving votes on a request. */
  function CountApprovals(decisions: seq<Decision>, id: Id): nat {
    if decisions == [] then 0
    else
      var d := decisions[|decisions| - 1];
      CountApprovals(decisions[..|decisions| - 1], id)
      + (if d.request == id && d.vote == Approve then 1 else 0)
  }

  // --- Statements --------------------------------------------------------------

  function Goto(s: Sys, f: FlightId, next: Flight): Sys {
    s.(flights := s.flights[f := next])
  }

  function Finish(s: Sys, f: FlightId, o: Outcome): Sys {
    s.(flights := s.flights - {f}, results := s.results[f := o])
  }

  function AtLeastOne(n: int): int { if n < 1 then 1 else n }

  /** The row raise() inserts: the rule's demands are copied here and never read again. */
  function NewRequest(key: Triple, amount: real, rule: Matched): Request {
    Request(key, amount, AtLeastOne(rule.required), rule.approverRole, rule.id, Pending, Some(key), None)
  }

  function WithStatus(r: Request, st: Status): Request {
    r.(status := st, pendingKey := if st == Pending then Some(r.key) else None)
  }

  function SetStatus(s: Sys, id: Id, st: Status): Sys
    requires id < |s.requests|
  {
    s.(requests := s.requests[id := WithStatus(s.requests[id], st)])
  }

  function DoGateMatch(s: Sys, f: FlightId, fl: Flight): Sys
    requires fl.GateMatch?
  {
    match MatchRule(s.rules, fl.action, fl.amount)
    case None => Finish(s, f, Proceed).(passes := s.passes + [Free(f, fl.action, fl.amount, s.rules)])
    case Some(i) =>
      if fl.caller.None? then Finish(s, f, Refused)
      else Goto(s, f, GateFind(Triple(fl.action, fl.entity, fl.caller.value), fl.amount, Read(s.rules, i)))
  }

  function DoGateFind(s: Sys, f: FlightId, fl: Flight): Sys
    requires fl.GateFind?
  {
    match LatestLive(s.requests, fl.key)
    case None => Goto(s, f, GateRaise(fl.key, fl.amount, fl.rule))
    case Some(id) =>
      if s.requests[id].status != Approved then Finish(s, f, BlockedBy(id))
      else Goto(s, f, GateSpend(fl.key, fl.amount, fl.rule, id))
  }

  /** consume(): the conditional UPDATE; one row affected admits the action. */
  function DoGateSpend(s: Sys, f: FlightId, fl: Flight): Sys
    requires fl.GateSpend?
  {
    if fl.found < |s.requests| && s.requests[fl.found].status == Approved
       && s.requests[fl.found].amount >= fl.amount
    then Finish(SetStatus(s, fl.found, Consumed), f, Proceed)
         .(passes := s.passes + [Spent(f, fl.found, fl.key, fl.amount)])
    else Goto(s, f, GateRaise(fl.key, fl.amount, fl.rule))
  }

  function DoGateRaise(s: Sys, f: FlightId, fl: Flight): Sys
    requires fl.GateRaise?
  {
    if SlotTaken(s.requests, fl.key) then Finish(s, f, Refused)
    else Finish(s, f, BlockedBy(|s.requests|))
         .(requests := s.requests + [NewRequest(fl.key, fl.amount, fl.rule)])
  }

  function DoVoteCaller(s: Sys, f: FlightId, fl: Flight): Sys
    requires fl.VoteCaller?
  {
    if fl.who !in s.users then Finish(s, f, Refused)
    else Goto(s, f, VoteLoad(fl.request, fl.who, s.users[fl.who], fl.vote, fl.reason))
  }

  /** eligibleToDecide on the row as loaded; a rejection also needs a reason. */
  predicate Eligible(r: Request, who: UserId, role: string) {
    r.status == Pending && r.key.requester != who && role == r.approverRole
  }

  function DoVoteLoad(s: Sys, f: FlightId, fl: Flight): Sys
    requires fl.VoteLoad?
  {
    if fl.request >= |s.requests| || !Eligible(s.requests[fl.request], fl.who, fl.role)
       || (fl.vote == Reject && fl.reason == "")
    then Finish(s, f, Refused)
    else Goto(s, f, VoteCast(fl.request, fl.who, fl.role, s.requests[fl.request].required, fl.vote, fl.reason))
  }

  function DoVoteCast(s: Sys, f: FlightId, fl: Flight): Sys
    requires fl.VoteCast?
  {
    if HasVoted(s.decisions, fl.request, fl.who) then Finish(s, f, Refused)
    else
      var s' := s.(decisions := s.decisions + [Decision(fl.request, fl.who, fl.role, fl.vote, fl.reason)]);
      if fl.vote == Approve then Goto(s', f, VoteCount(fl.request, fl.required))
      else Goto(s', f, Finalise(fl.request, Rejected))
  }

  function DoVoteCount(s: Sys, f: FlightId, fl: Flight): Sys
    requires fl.VoteCount?
  {
    if CountApprovals(s.decisions, fl.request) >= fl.required
    then Goto(s, f, Finalise(fl.request, Approved))
    else Finish(s, f, Done)
  }

  function DoFinalise(s: Sys, f: FlightId, fl: Flight): Sys
    requires fl.Finalise?
  {
    if fl.request < |s.requests| && s.requests[fl.request].status == Pending
    then Finish(SetStatus(s, fl.request, fl.status), f, Done)
    else Finish(s, f, Done)
  }

  function DoResubmitLoad(s: Sys, f: FlightId, fl: Flight): Sys
    requires fl.ResubmitLoad?
  {
    if fl.who !in s.users || fl.prev >= |s.requests| || s.requests[fl.prev].key.requester != fl.who
       || s.requests[fl.prev].status != Rejected
    then Finish(s, f, Refused)
    else Goto(s, f, ResubmitMatch(fl.prev, s.requests[fl.prev].key, s.requests[fl.prev].amount))
  }

  function DoResubmitMatch(s: Sys, f: FlightId, fl: Flight): Sys
    requires fl.ResubmitMatch?
  {
    match MatchRule(s.rules, fl.key.action, fl.amount)
    case None => Finish(s, f, Refused)
    case Some(i) => Goto(s, f, ResubmitRaise(fl.prev, fl.key, fl.amount, Read(s.rules, i)))
  }

  function DoResubmitRaise(s: Sys, f: FlightId, fl: Flight): Sys
    requires fl.ResubmitRaise?
  {
    if SlotTaken(s.requests, fl.key) then Finish(s, f, Refused)
    else Goto(s.(requests := s.requests + [NewRequest(fl.key, fl.amount, fl.rule)]), f,
              ResubmitLink(fl.prev, |s.requests|))
  }

  function DoResubmitLink(s: Sys, f: FlightId, fl: Flight): Sys
    requires fl.ResubmitLink?
  {
    if fl.next < |s.requests|
    then Finish(s, f, Done).(requests := s.requests[fl.next := s.requests[fl.next].(supersedes := Some(fl.prev))])
    else Finish(s, f, Refused)
  }

  /** Runs the next statement of handler f. */
  function Advance(s: Sys, f: FlightId): Sys
    requires f in s.flights
  {
    var fl := s.flights[f];
    match fl
    case GateMatch(_, _, _, _) => DoGateMatch(s, f, fl)
    case GateFind(_, _, _) => DoGateFind(s, f, fl)
    case GateSpend(_, _, _, _) => DoGateSpend(s, f, fl)
    case GateRaise(_, _, _) => DoGateRaise(s, f, fl)
    case VoteCaller(_, _, _, _) => DoVoteCaller(s, f, fl)
    case VoteLoad(_, _, _, _, _) => DoVoteLoad(s, f, fl)
    case VoteCast(_, _, _, _, _, _) => DoVoteCast(s, f, fl)
    case VoteCount(_, _) => DoVoteCount(s, f, fl)
    case Finalise(_, _) => DoFinalise(s, f, fl)
    case ResubmitLoad(_, _) => DoResubmitLoad(s, f, fl)
    case ResubmitMatch(_, _, _) => DoResubmitMatch(s, f, fl)
    case ResubmitRaise(_, _, _, _) => DoResubmitRaise(s, f, fl)
    case ResubmitLink(_, _) => DoResubmitLink(s, f, fl)
  }

  // --- Runs ----------------------------------------------------------------------

  /** A request arriving at the server. */
  datatype Call =
    | CallGate(action: string, entity: nat, caller: Option<UserId>, amount: real)
    | CallVote(request: Id, voter: UserId, vote: Vote, reason: string)
    | CallResubmit(prev: Id, requester: UserId)

  function Entry(c: Call): Flight {
    match c
    case CallGate(action, entity, caller, amount) => GateMatch(action, entity, caller, amount)
    case CallVote(request, voter, vote, reason) => VoteCaller(request, voter, vote, reason)
    case CallResubmit(prev, requester) => ResubmitLoad(prev, requester)
  }

  /**
   Rule and user administration are over-approximated: any rule table and any user table may
   replace the current one at any moment. Crash(f) is handler f failing or being cut off
   between two statements.
   */
  datatype Event =
    | Start(f: FlightId, call: Call)
    | Next(f: FlightId)
    | Crash(f: FlightId)
    | EditRules(rules: seq<Rule>)
    | EditUsers(users: map<UserId, string>)

  function Apply(s: Sys, e: Event): Sys {
    match e
    case Start(f, call) => if f in s.flights || f in s.results then s else Goto(s, f, Entry(call))
    case Next(f) => if f in s.flights then Advance(s, f) else s
    case Crash(f) =>
      if f !in s.flights then s
      else
        var fl := s.flights[f];
        Finish(s, f, Refused).(dropped := s.dropped +
          (if fl.VoteCount? || fl.Finalise? then {fl.request} else {}))
    case EditRules(rules) => s.(rules := rules)
    case EditUsers(users) => s.(users := users)
  }

  function Run(s: Sys, es: seq<Event>): Sys {
    if es == [] then s else Apply(Run(s, es[..|es| - 1]), es[|es| - 1])
  }
}
