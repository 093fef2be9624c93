/**
 Roles, grants and accounts: internal/authz/authz.go, internal/seed/roles.go and the role and
 user handlers of internal/handlers/handlers.go. One database is shared by any number of
 replicas, each of which answers permission checks from its own cached copy of the grants.
 */
module Roles {
  import opened Common

  datatype Resource =
    | ResOpportunities | ResAccounts | ResContracts | ResPayments | ResQuotes
    | ResEnrollments | ResStudents | ResEvents | ResProducts | ResUsers
    | ResAudit | ResEmail | ResMetrics | ResRoles | ResGallery | ResNotifications
    | ResApprovals | ResExpenses | ResCounterSales | ResPurchaseOrders

  datatype Action = Read | Create | Update | Delete

  datatype Scope = ScopeNone | ScopeOwn | ScopeAll

  datatype Grant = Grant(read: bool, create: bool, update: bool, delete: bool, scope: Scope)

  type Grants = map<Resource, Grant>

  /** A role slug, with the four shipped ones told apart from any other. */
  datatype RoleName = SuperAdmin | Admin | Admissions | Student | Named(slug: string)

  /** What a process consults: every role it knows with its grants. */
  type Matrix = map<RoleName, Grants>

  type UserId = nat

  type Replica = nat

  datatype RoleRow = RoleRow(title: string, builtIn: bool, grants: Grants)

  datatype User = User(email: string, role: RoleName, active: bool)

  /** Role rows are keyed by their unique name; accounts are numbered in order of creation. */
  datatype Db = Db(roles: map<RoleName, RoleRow>, users: map<UserId, User>, next: UserId)

  // --- Grants ------------------------------------------------------------------

  const Full := Grant(true, true, true, true, ScopeAll)
  const ReadOnly := Grant(true, false, false, false, ScopeAll)
  const OwnInbox := Grant(true, false, true, false, ScopeOwn)
  const ApprovalDesk := Grant(true, true, true, false, ScopeAll)

  function AdminGrant(res: Resource): Grant {
    match res
    case ResMetrics => ReadOnly
    case ResNotifications => OwnInbox
    case ResApprovals => ApprovalDesk
    case _ => Full
  }

  predicate IsBuiltIn(role: RoleName) {
    !role.Named?
  }

  function BuiltInGrants(role: RoleName): Grants {
    match role
    case SuperAdmin => map res: Resource | true :: AdminGrant(res)
    case Admin => map res: Resource | res != ResRoles :: AdminGrant(res)
    case Admissions =>
      map[ResEnrollments := Full, ResStudents := Full, ResEvents := Full,
          ResProducts := ReadOnly, ResMetrics := ReadOnly, ResNotifications := OwnInbox]
    case _ => map[]
  }

  /** The hardcoded matrix that answers while nothing has been loaded. */
  function Fallback(): Matrix {
    map[SuperAdmin := BuiltInGrants(SuperAdmin), Admin := BuiltInGrants(Admin),
        Admissions := BuiltInGrants(Admissions), Student := BuiltInGrants(Student)]
  }

  predicate Allows(g: Grant, act: Action) {
    match act
    case Read => g.read
    case Create => g.create
    case Update => g.update
    case Delete => g.delete
  }

  predicate Holds(grants: Grants, res: Resource, act: Action) {
    res in grants && Allows(grants[res], act)
  }

  predicate Can(m: Matrix, role: RoleName, res: Resource, act: Action) {
    role in m && Holds(m[role], res, act) && !(act == Read && m[role][res].scope == ScopeNone)
  }

  function Active(cached: Option<Matrix>): Matrix {
    if cached.Some? then cached.value else Fallback()
  }

  /** The grant map LoadFromDB builds. */
  function Snapshot(roles: map<RoleName, RoleRow>): Matrix {
    map name | name in roles :: roles[name].grants
  }

  /** A loaded map is published only if super_admin can read users in it. */
  predicate Publishable(m: Matrix) { Can(m, SuperAdmin, ResUsers, Read) }

  function Published(m: Matrix, cached: Option<Matrix>): Option<Matrix> {
    if Publishable(m) then Some(m) else cached
  }

  function Refreshed(db: Db, cached: Option<Matrix>): Option<Matrix> {
    Published(Snapshot(db.roles), cached)
  }

  predicate Privileged(m: Matrix, role: RoleName) {
    exists res, act ::
      (res == ResUsers || res == ResRoles) && act != Read && Can(m, role, res, act)
  }

  // --- Vetting requested permissions ---------------------------------------------

  /** A requested entry; None is a string that names no resource, or no scope. */
  datatype PermReq = PermReq(resource: Option<Resource>, read: bool, create: bool, update: bool,
                             delete: bool, scope: Option<Scope>)

  datatype Fault = UnknownResource | DuplicateResource | UnknownScope | ScopeMissing | NotHeld(action: Action)

  predicate Asks(p: PermReq, act: Action) {
    match act
    case Read => p.read
    case Create => p.create
    case Update => p.update
    case Delete => p.delete
  }

  predicate AsksAny(p: PermReq) { p.read || p.create || p.update || p.delete }

  /** The first check the entry fails, in the order the handlers make them. */
  function FaultOf(m: Matrix, caller: RoleName, seen: set<Resource>, p: PermReq): Option<Fault> {
    if p.resource.None? then Some(UnknownResource)
    else if p.resource.value in seen then Some(DuplicateResource)
    else if p.scope.None? then Some(UnknownScope)
    else if AsksAny(p) && p.scope.value == ScopeNone then Some(ScopeMissing)
    else if p.read && !Can(m, caller, p.resource.value, Read) then Some(NotHeld(Read))
    else if p.create && !Can(m, caller, p.resource.value, Create) then Some(NotHeld(Create))
    else if p.update && !Can(m, caller, p.resource.value, Update) then Some(NotHeld(Update))
    else if p.delete && !Can(m, caller, p.resource.value, Delete) then Some(NotHeld(Delete))
    else None
  }

  function AsGrant(p: PermReq): Grant
    requires p.scope.Some?
  {
    Grant(p.read, p.create, p.update, p.delete, if AsksAny(p) then p.scope.value else ScopeNone)
  }

  function Vet(m: Matrix, caller: RoleName, reqs: seq<PermReq>): Result<Grants, Fault> {
    if reqs == [] then Ok(map[])
    else
      match Vet(m, caller, reqs[..|reqs| - 1])
      case Err(e) => Err(e)
      case Ok(grants) =>
        var p := reqs[|reqs| - 1];
        match FaultOf(m, caller, grants.Keys, p)
        case Some(e) => Err(e)
        case None => Ok(grants[p.resource.value := AsGrant(p)])
  }

  // --- Handlers ------------------------------------------------------------------

  datatype Reply = Done | Denied | Invalid | Missing | Taken

  predicate SlugChar(c: char) { 'a' <= c <= 'z' || '0' <= c <= '9' || c == '_' }

  predicate Slug(s: string) { s != "" && forall i :: 0 <= i < |s| ==> SlugChar(s[i]) }

  function VetReply(e: Fault): Reply { if e.NotHeld? then Denied else Invalid }

  function DoCreateRole(db: Db, m: Matrix, caller: RoleName, name: RoleName, title: string,
                        reqs: seq<PermReq>): (Db, Reply) {
    if (name.Named? && !Slug(name.slug)) || title == "" then (db, Invalid)
    else if name in db.roles then (db, Taken)
    else
      match Vet(m, caller, reqs)
      case Err(e) => (db, VetReply(e))
      case Ok(grants) => (db.(roles := db.roles[name := RoleRow(title, false, grants)]), Done)
  }

  /** Permissions that are absent leave the grants alone; an empty list clears them. */
  function DoUpdateRole(db: Db, m: Matrix, caller: RoleName, name: RoleName, retitle: Option<string>,
                        reqs: Option<seq<PermReq>>): (Db, Reply) {
    if name !in db.roles then (db, Missing)
    else
      var row := db.roles[name];
      if row.builtIn && reqs.Some? then (db, Denied)
      else if retitle == Some("") then (db, Invalid)
      else
        var titled := if retitle.Some? then row.(title := retitle.value) else row;
        if reqs.None? then (db.(roles := db.roles[name := titled]), Done)
        else
          match Vet(m, caller, reqs.value)
          case Err(e) => (db, VetReply(e))
          case Ok(grants) => (db.(roles := db.roles[name := titled.(grants := grants)]), Done)
  }

  predicate Assigned(users: map<UserId, User>, role: RoleName) {
    exists u :: u in users && users[u].role == role
  }

  function DoDeleteRole(db: Db, name: RoleName): (Db, Reply) {
    if name !in db.roles then (db, Missing)
    else if db.roles[name].builtIn then (db, Invalid)
    else if Assigned(db.users, name) then (db, Taken)
    else (db.(roles := db.roles - {name}), Done)
  }

  predicate Assignable(db: Db, role: RoleName) { role in db.roles || IsBuiltIn(role) }

  predicate EmailTaken(users: map<UserId, User>, email: string) {
    exists u :: u in users && users[u].email == email
  }

  function Insert(db: Db, u: User): Db {
    db.(users := db.users[db.next := u], next := db.next + 1)
  }

  function DoCreateUser(db: Db, m: Matrix, caller: RoleName, email: string, fullName: string,
                        passwordOk: bool, asked: RoleName): (Db, Reply) {
    var role := if asked == Named("") then Admissions else asked;
    if email == "" || '@' !in email || fullName == "" || !passwordOk || role == Student
       || !Assignable(db, role)
    then (db, Invalid)
    else if Privileged(m, role) && caller != SuperAdmin then (db, Denied)
    else if EmailTaken(db.users, email) then (db, Taken)
    else (Insert(db, User(email, role, true)), Done)
  }

  function DoUpdateUser(db: Db, m: Matrix, callerId: UserId, caller: RoleName, target: UserId,
                        active: Option<bool>, role: Option<RoleName>): (Db, Reply) {
    if target !in db.users then (db, Missing)
    else
      var u := db.users[target];
      if active == Some(false) && callerId == target then (db, Invalid)
      else if active == Some(false) && Privileged(m, u.role) && caller != SuperAdmin then (db, Denied)
      else if role.Some? && !Assignable(db, role.value) then (db, Invalid)
      else if role.Some? && callerId == target && role.value != u.role then (db, Invalid)
      else if role.Some? && (Privileged(m, role.value) || Privileged(m, u.role)) && caller != SuperAdmin
      then (db, Denied)
      else if active.None? && role.None? then (db, Invalid)
      else
        var u' := User(u.email, if role.Some? then role.value else u.role,
                       if active.Some? then active.value else u.active);
        (db.(users := db.users[target := u']), Done)
  }

  function DoDeleteUser(db: Db, callerId: UserId, caller: RoleName, target: UserId): (Db, Reply) {
    if target !in db.users then (db, Missing)
    else if callerId == target then (db, Invalid)
    else if db.users[target].role == SuperAdmin && caller != SuperAdmin then (db, Denied)
    else (db.(users := db.users - {target}), Done)
  }

  datatype Call =
    | CreateRole(name: RoleName, title: string, perms: seq<PermReq>)
    | UpdateRole(name: RoleName, retitle: Option<string>, edits: Option<seq<PermReq>>)
    | DeleteRole(name: RoleName)
    | CreateUser(email: string, fullName: string, passwordOk: bool, asked: RoleName)
    | UpdateUser(target: UserId, active: Option<bool>, role: Option<RoleName>)
    | DeleteUser(target: UserId)

  predicate OnRoles(c: Call) { c.CreateRole? || c.UpdateRole? || c.DeleteRole? }

  /** The action the route and the verb of a call stand for. */
  function ActionOf(c: Call): Action {
    if c.CreateRole? || c.CreateUser? then Create
    else if c.UpdateRole? || c.UpdateUser? then Update
    else Delete
  }

  /** The middleware chain: an active account, not a student, whose role holds the action. */
  predicate Admitted(db: Db, m: Matrix, caller: UserId, c: Call) {
    caller in db.users && db.users[caller].active && db.users[caller].role != Student
    && Can(m, db.users[caller].role, if OnRoles(c) then ResRoles else ResUsers, ActionOf(c))
  }

  function Perform(db: Db, m: Matrix, caller: UserId, c: Call): (Db, Reply)
    requires caller in db.users
  {
    var role := db.users[caller].role;
    match c
    case CreateRole(name, title, perms) => DoCreateRole(db, m, role, name, title, perms)
    case UpdateRole(name, retitle, edits) => DoUpdateRole(db, m, role, name, retitle, edits)
    case DeleteRole(name) => DoDeleteRole(db, name)
    case CreateUser(email, fullName, ok, asked) => DoCreateUser(db, m, role, email, fullName, ok, asked)
    case UpdateUser(target, active, to) => DoUpdateUser(db, m, caller, role, target, active, to)
    case DeleteUser(target) => DoDeleteUser(db, caller, role, target)
  }

  /** A request served whole; a successful role edit refreshes the serving replica's cache. */
  function Respond(db: Db, cached: Option<Matrix>, caller: UserId, c: Call): (Db, Option<Matrix>, Reply) {
    if !Admitted(db, Active(cached), caller, c) then (db, cached, Denied)
    else
      var (db', reply) := Perform(db, Active(cached), caller, c);
      (db', if reply == Done && OnRoles(c) then Refreshed(db', cached) else cached, reply)
  }

  // --- Seeding -------------------------------------------------------------------

  function BuiltInLabel(role: RoleName): string {
    match role
    case SuperAdmin => "Super Admin"
    case Admin => "Admin"
    case Admissions => "Admissions"
    case Student => "Student"
    case Named(slug) => slug
  }

  /** An existing row keeps its title and its built-in flag; its permissions are replaced. */
  function SeedRole(roles: map<RoleName, RoleRow>, role: RoleName): map<RoleName, RoleRow> {
    var row := if role in roles then roles[role] else RoleRow(BuiltInLabel(role), true, map[]);
    roles[role := row.(grants := BuiltInGrants(role))]
  }

  function SeedRoles(roles: map<RoleName, RoleRow>): map<RoleName, RoleRow> {
    SeedRole(SeedRole(SeedRole(SeedRole(roles, SuperAdmin), Admin), Admissions), Student)
  }

  function InsertIfNew(db: Db, email: string, role: RoleName): Db {
    if EmailTaken(db.users, email) then db else Insert(db, User(email, role, true))
  }

  // --- Runs ----------------------------------------------------------------------

  /**
   The shared database, the cache of every replica that has published one, and every grant map
   a loader has read so far: a loader may sit on its map for any time before publishing it.
   */
  datatype State = State(db: Db, caches: map<Replica, Matrix>, loads: seq<Matrix>)

  datatype Event =
    | SeedGrants
    | SeedAdmin(email: string)
    | ClaimInvitation(email: string)
    | Restart(replica: Replica)
    | Load
    | Publish(replica: Replica, load: nat)
    | Request(replica: Replica, caller: UserId, call: Call)

  function Cached(s: State, r: Replica): Option<Matrix> {
    if r in s.caches then Some(s.caches[r]) else None
  }

  function SetCache(s: State, r: Replica, cached: Option<Matrix>): State {
    if cached.Some? then s.(caches := s.caches[r := cached.value]) else s.(caches := s.caches - {r})
  }

  function Apply(s: State, e: Event): State {
    match e
    case SeedGrants => s.(db := s.db.(roles := SeedRoles(s.db.roles)))
    case SeedAdmin(email) => s.(db := InsertIfNew(s.db, email, SuperAdmin))
    case ClaimInvitation(email) => s.(db := InsertIfNew(s.db, email, Student))
    case Restart(r) => SetCache(s, r, None)
    case Load => s.(loads := s.loads + [Snapshot(s.db.roles)])
    case Publish(r, k) =>
      if k < |s.loads| then SetCache(s, r, Published(s.loads[k], Cached(s, r))) else s
    case Request(r, caller, call) =>
      var (db', cached', _) := Respond(s.db, Cached(s, r), caller, call);
      SetCache(s.(db := db'), r, cached')
  }

  function Run(s: State, es: seq<Event>): State {
    if es == [] then s else Apply(Run(s, es[..|es| - 1]), es[|es| - 1])
  }

  /** A fresh database once the roles have been seeded. */
  const Seeded := State(Db(SeedRoles(map[]), map[], 0), map[], [])
}
