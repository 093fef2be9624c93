/** What every run of role and user administration keeps, from the seeded state on. */
module RoleTheorems {
  import opened Common
  import opened Roles

  // --- The reach of the built-in roles ------------------------------------------------

  /** Some shipped role holds the action. */
  ghost predicate Granted(res: Resource, act: Action) {
    exists role :: IsBuiltIn(role) && Holds(BuiltInGrants(role), res, act)
  }

  /** The six permissions no shipped role holds. */
  predicate OutOfReach(res: Resource, act: Action) {
    (res == ResMetrics && act != Read)
    || (res == ResNotifications && (act == Create || act == Delete))
    || (res == ResApprovals && act == Delete)
  }

  lemma GrantedExactly(res: Resource, act: Action)
    ensures Granted(res, act) <==> !OutOfReach(res, act)
    ensures Granted(res, act) <==> Holds(BuiltInGrants(SuperAdmin), res, act)
  {
    forall role | IsBuiltIn(role) && Holds(BuiltInGrants(role), res, act)
      ensures Holds(BuiltInGrants(SuperAdmin), res, act)
    {
      assert res in BuiltInGrants(SuperAdmin);
    }
    assert IsBuiltIn(SuperAdmin);
    assert Holds(BuiltInGrants(SuperAdmin), res, act) <==> !OutOfReach(res, act);
  }

  ghost predicate Bounded(grants: Grants) {
    forall res, act :: Holds(grants, res, act) ==> !OutOfReach(res, act)
  }

  // --- The invariant ------------------------------------------------------------------

  ghost predicate MatrixOk(m: Matrix) {
    (forall role :: IsBuiltIn(role) ==> role in m && m[role] == BuiltInGrants(role))
    && (forall role :: role in m ==> Bounded(m[role]))
  }

  ghost predicate RolesOk(roles: map<RoleName, RoleRow>) {
    (forall role :: IsBuiltIn(role) ==>
      role in roles && roles[role].builtIn && roles[role].grants == BuiltInGrants(role))
    && (forall role :: role in roles ==>
      Bounded(roles[role].grants) && (roles[role].builtIn ==> IsBuiltIn(role)))
  }

  ghost predicate UsersOk(db: Db) {
    (forall u :: u in db.users ==> u < db.next && Assignable(db, db.users[u].role))
    && (forall u, v :: u in db.users && v in db.users && u != v ==> db.users[u].email != db.users[v].email)
  }

  ghost predicate Inv(s: State) {
    RolesOk(s.db.roles) && UsersOk(s.db)
    && (forall r :: r in s.caches ==> MatrixOk(s.caches[r]))
    && (forall k :: 0 <= k < |s.loads| ==> MatrixOk(s.loads[k]))
  }

  lemma BuiltInsBounded(role: RoleName)
    ensures Bounded(BuiltInGrants(role))
  {
    forall res, act | Holds(BuiltInGrants(role), res, act) ensures !OutOfReach(res, act) {
      GrantedExactly(res, act);
    }
  }

  lemma FallbackOk()
    ensures MatrixOk(Fallback())
  {
    forall role | role in Fallback() ensures Bounded(Fallback()[role]) { BuiltInsBounded(role); }
  }

  lemma ActiveOk(cached: Option<Matrix>)
    requires cached.Some? ==> MatrixOk(cached.value)
    ensures MatrixOk(Active(cached))
  {
    FallbackOk();
  }

  lemma SnapshotOk(roles: map<RoleName, RoleRow>)
    requires RolesOk(roles)
    ensures MatrixOk(Snapshot(roles)) && Publishable(Snapshot(roles))
  {
    GrantedExactly(ResUsers, Read);
    assert ResUsers in BuiltInGrants(SuperAdmin);
  }

  // --- Vetting ------------------------------------------------------------------------

  ghost predicate EntryOk(m: Matrix, caller: RoleName, p: PermReq) {
    p.resource.Some? && p.scope.Some? && (AsksAny(p) ==> p.scope.value != ScopeNone)
    && forall act :: Asks(p, act) ==> Can(m, caller, p.resource.value, act)
  }

  /** What a request must satisfy as a whole for its permissions to be accepted. */
  ghost predicate Acceptable(m: Matrix, caller: RoleName, reqs: seq<PermReq>) {
    (forall i :: 0 <= i < |reqs| ==> EntryOk(m, caller, reqs[i]))
    && (forall i, j :: 0 <= i < j < |reqs| ==> reqs[i].resource != reqs[j].resource)
  }

  ghost predicate Listed(reqs: seq<PermReq>, res: Resource) {
    exists p :: p in reqs && p.resource == Some(res)
  }

  ghost predicate Asked(reqs: seq<PermReq>, res: Resource, act: Action) {
    exists p :: p in reqs && p.resource == Some(res) && Asks(p, act)
  }

  lemma FaultExactly(m: Matrix, caller: RoleName, seen: set<Resource>, p: PermReq)
    ensures FaultOf(m, caller, seen, p).None? <==> EntryOk(m, caller, p) && p.resource.value !in seen
  {
    assert forall act :: Asks(p, act) ==> AsksAny(p);
    assert (p.read <==> Asks(p, Read)) && (p.create <==> Asks(p, Create));
    assert (p.update <==> Asks(p, Update)) && (p.delete <==> Asks(p, Delete));
  }

  lemma AcceptableSnoc(m: Matrix, caller: RoleName, front: seq<PermReq>, p: PermReq)
    ensures Acceptable(m, caller, front + [p]) <==>
      Acceptable(m, caller, front) && EntryOk(m, caller, p) && !Listed(front, p.resource.value)
  {
    var all, n := front + [p], |front|;
    assert forall i :: 0 <= i < n ==> all[i] == front[i];
    assert all[n] == p;
    if Acceptable(m, caller, all) {
      assert EntryOk(m, caller, all[n]);
      assert forall i :: 0 <= i < n ==> EntryOk(m, caller, all[i]) && all[i].resource != all[n].resource;
    }
  }

  lemma AskedSnoc(front: seq<PermReq>, p: PermReq, res: Resource)
    ensures Listed(front + [p], res) <==> Listed(front, res) || p.resource == Some(res)
    ensures forall act :: Asked(front + [p], res, act) <==>
      Asked(front, res, act) || (p.resource == Some(res) && Asks(p, act))
  {
    var all := front + [p];
    assert p in all && forall q :: q in front ==> q in all;
    assert forall q :: q in all ==> q in front || q == p;
  }

  /** Vetting accepts exactly the acceptable lists, and then grants just what was asked. */
  lemma {:induction false} VetExactly(m: Matrix, caller: RoleName, reqs: seq<PermReq>)
    ensures Vet(m, caller, reqs).Ok? <==> Acceptable(m, caller, reqs)
    ensures Vet(m, caller, reqs).Ok? ==>
      forall res :: res in Vet(m, caller, reqs).value <==> Listed(reqs, res)
    ensures Vet(m, caller, reqs).Ok? ==>
      forall res, act :: Holds(Vet(m, caller, reqs).value, res, act) <==> Asked(reqs, res, act)
  {
    if reqs != [] {
      var front, p := reqs[..|reqs| - 1], reqs[|reqs| - 1];
      assert reqs == front + [p];
      VetExactly(m, caller, front);
      AcceptableSnoc(m, caller, front, p);
      if Vet(m, caller, front).Ok? {
        var g := Vet(m, caller, front).value;
        FaultExactly(m, caller, g.Keys, p);
        if FaultOf(m, caller, g.Keys, p).None? {
          assert forall act :: Allows(AsGrant(p), act) <==> Asks(p, act);
          forall res
            ensures res in Vet(m, caller, reqs).value <==> Listed(reqs, res)
            ensures forall act :: Holds(Vet(m, caller, reqs).value, res, act) <==> Asked(reqs, res, act)
          {
            AskedSnoc(front, p, res);
          }
        }
      }
    }
  }

  /** No accepted permission exceeds what the caller holds in the matrix that was consulted. */
  lemma VetWithinCaller(m: Matrix, caller: RoleName, reqs: seq<PermReq>)
    requires Vet(m, caller, reqs).Ok?
    ensures forall res, act :: Holds(Vet(m, caller, reqs).value, res, act) ==> Can(m, caller, res, act)
  {
    VetExactly(m, caller, reqs);
    forall res, act | Holds(Vet(m, caller, reqs).value, res, act) ensures Can(m, caller, res, act) {
      var p :| p in reqs && p.resource == Some(res) && Asks(p, act);
      assert EntryOk(m, caller, p);
    }
  }

  lemma VetBounded(m: Matrix, caller: RoleName, reqs: seq<PermReq>)
    requires MatrixOk(m) && Vet(m, caller, reqs).Ok?
    ensures Bounded(Vet(m, caller, reqs).value)
  {
    VetWithinCaller(m, caller, reqs);
  }

  // --- Preservation -------------------------------------------------------------------

  lemma SetRoleKeeps(db: Db, name: RoleName, row: RoleRow)
    requires RolesOk(db.roles) && UsersOk(db) && Bounded(row.grants)
    requires row.builtIn <==> IsBuiltIn(name)
    requires IsBuiltIn(name) ==> row.grants == BuiltInGrants(name)
    ensures var db' := db.(roles := db.roles[name := row]); RolesOk(db'.roles) && UsersOk(db')
  {}

  lemma CreateRoleKeeps(db: Db, m: Matrix, caller: RoleName, name: RoleName, title: string, reqs: seq<PermReq>)
    requires RolesOk(db.roles) && UsersOk(db) && MatrixOk(m)
    ensures var db' := DoCreateRole(db, m, caller, name, title, reqs).0; RolesOk(db'.roles) && UsersOk(db')
  {
    if Vet(m, caller, reqs).Ok? && name !in db.roles {
      VetBounded(m, caller, reqs);
      SetRoleKeeps(db, name, RoleRow(title, false, Vet(m, caller, reqs).value));
    }
  }

  lemma UpdateRoleKeeps(db: Db, m: Matrix, caller: RoleName, name: RoleName, retitle: Option<string>,
                        reqs: Option<seq<PermReq>>)
    requires RolesOk(db.roles) && UsersOk(db) && MatrixOk(m)
    ensures var db' := DoUpdateRole(db, m, caller, name, retitle, reqs).0; RolesOk(db'.roles) && UsersOk(db')
  {
    if name in db.roles {
      var row := db.roles[name];
      var titled := if retitle.Some? then row.(title := retitle.value) else row;
      if reqs.None? {
        SetRoleKeeps(db, name, titled);
      } else if !row.builtIn && Vet(m, caller, reqs.value).Ok? {
        VetBounded(m, caller, reqs.value);
        SetRoleKeeps(db, name, titled.(grants := Vet(m, caller, reqs.value).value));
      }
    }
  }

  lemma DeleteRoleKeeps(db: Db, name: RoleName)
    requires RolesOk(db.roles) && UsersOk(db)
    ensures var db' := DoDeleteRole(db, name).0; RolesOk(db'.roles) && UsersOk(db')
  {}

  lemma CreateUserKeeps(db: Db, m: Matrix, caller: RoleName, email: string, fullName: string,
                        passwordOk: bool, asked: RoleName)
    requires UsersOk(db)
    ensures var db' := DoCreateUser(db, m, caller, email, fullName, passwordOk, asked).0;
      db'.roles == db.roles && UsersOk(db')
  {}

  lemma UpdateUserKeeps(db: Db, m: Matrix, callerId: UserId, caller: RoleName, target: UserId,
                        active: Option<bool>, role: Option<RoleName>)
    requires UsersOk(db)
    ensures var db' := DoUpdateUser(db, m, callerId, caller, target, active, role).0;
      db'.roles == db.roles && UsersOk(db')
  {}

  lemma PerformKeeps(db: Db, m: Matrix, caller: UserId, c: Call)
    requires RolesOk(db.roles) && UsersOk(db) && MatrixOk(m) && caller in db.users
    ensures var db' := Perform(db, m, caller, c).0; RolesOk(db'.roles) && UsersOk(db')
  {
    var role := db.users[caller].role;
    match c
    case CreateRole(name, title, perms) => CreateRoleKeeps(db, m, role, name, title, perms);
    case UpdateRole(name, retitle, edits) => UpdateRoleKeeps(db, m, role, name, retitle, edits);
    case DeleteRole(name) => DeleteRoleKeeps(db, name);
    case CreateUser(email, fullName, ok, asked) => CreateUserKeeps(db, m, role, email, fullName, ok, asked);
    case UpdateUser(target, active, to) => UpdateUserKeeps(db, m, caller, role, target, active, to);
    case DeleteUser(target) =>
  }

  lemma SetCacheKeeps(s: State, r: Replica, cached: Option<Matrix>)
    requires Inv(s) && (cached.Some? ==> MatrixOk(cached.value))
    ensures Inv(SetCache(s, r, cached))
  {}

  lemma RespondKeeps(db: Db, cached: Option<Matrix>, caller: UserId, c: Call)
    requires RolesOk(db.roles) && UsersOk(db) && (cached.Some? ==> MatrixOk(cached.value))
    ensures var (db', cached', _) := Respond(db, cached, caller, c);
      RolesOk(db'.roles) && UsersOk(db') && (cached'.Some? ==> MatrixOk(cached'.value))
  {
    ActiveOk(cached);
    if Admitted(db, Active(cached), caller, c) {
      PerformKeeps(db, Active(cached), caller, c);
      SnapshotOk(Perform(db, Active(cached), caller, c).0.roles);
    }
  }

  lemma RequestKeeps(s: State, r: Replica, caller: UserId, c: Call)
    requires Inv(s)
    ensures Inv(Apply(s, Request(r, caller, c)))
  {
    RespondKeeps(s.db, Cached(s, r), caller, c);
    var (db', cached', _) := Respond(s.db, Cached(s, r), caller, c);
    SetCacheKeeps(s.(db := db'), r, cached');
  }

  /** Seeding rewrites the four built-in rows and touches nothing else. */
  lemma SeedExactly(roles: map<RoleName, RoleRow>)
    ensures forall role :: role in SeedRoles(roles) <==> role in roles || IsBuiltIn(role)
    ensures forall role :: role in SeedRoles(roles) ==>
      SeedRoles(roles)[role] == (if IsBuiltIn(role) then SeedRole(roles, role)[role] else roles[role])
  {}

  lemma SeedKeeps(s: State)
    requires Inv(s)
    ensures Inv(Apply(s, SeedGrants))
  {
    SeedExactly(s.db.roles);
  }

  lemma ApplyKeepsInv(s: State, e: Event)
    requires Inv(s)
    ensures Inv(Apply(s, e))
  {
    match e
    case SeedGrants => SeedKeeps(s);
    case SeedAdmin(email) =>
    case ClaimInvitation(email) =>
    case Restart(r) => SetCacheKeeps(s, r, None);
    case Load => SnapshotOk(s.db.roles);
    case Publish(r, k) =>
      if k < |s.loads| { SetCacheKeeps(s, r, Published(s.loads[k], Cached(s, r))); }
    case Request(r, caller, c) => RequestKeeps(s, r, caller, c);
  }

  lemma {:induction false} RunKeepsInv(s: State, es: seq<Event>)
    requires Inv(s)
    ensures Inv(Run(s, es))
  {
    if es != [] {
      RunKeepsInv(s, es[..|es| - 1]);
      ApplyKeepsInv(Run(s, es[..|es| - 1]), es[|es| - 1]);
    }
  }

  lemma SeededOk()
    ensures Inv(Seeded)
  {
    SeedExactly(map[]);
    forall role | role in SeedRoles(map[]) ensures Bounded(SeedRoles(map[])[role].grants) {
      assert SeedRoles(map[])[role] == SeedRole(map[], role)[role];
      BuiltInsBounded(role);
    }
  }

  lemma ReachableInv(es: seq<Event>)
    ensures Inv(Run(Seeded, es))
  {
    SeededOk();
    RunKeepsInv(Seeded, es);
  }

  /** Nobody can do it: not in the database, not in a replica's cache, not in any map loaded so far. */
  ghost predicate Absent(s: State, replica: Replica, role: RoleName, res: Resource, act: Action) {
    (role in s.db.roles ==> !Holds(s.db.roles[role].grants, res, act))
    && !Can(Active(Cached(s, replica)), role, res, act)
    && (forall k :: 0 <= k < |s.loads| && role in s.loads[k] ==> !Holds(s.loads[k][role], res, act))
  }

  lemma MatrixLacks(m: Matrix, role: RoleName, res: Resource, act: Action)
    requires MatrixOk(m) && OutOfReach(res, act)
    ensures !Can(m, role, res, act) && (role in m ==> !Holds(m[role], res, act))
  {
    if role in m { assert Bounded(m[role]); }
  }

  lemma OutOfReachAbsent(s: State, replica: Replica, role: RoleName, res: Resource, act: Action)
    requires Inv(s) && OutOfReach(res, act)
    ensures Absent(s, replica, role, res, act)
  {
    ActiveOk(Cached(s, replica));
    MatrixLacks(Active(Cached(s, replica)), role, res, act);
    forall k | 0 <= k < |s.loads| ensures role in s.loads[k] ==> !Holds(s.loads[k][role], res, act) {
      MatrixLacks(s.loads[k], role, res, act);
    }
    assert role in s.db.roles ==> Bounded(s.db.roles[role].grants);
  }

  // --- Main results -------------------------------------------------------------------

  lemma BuiltInCan(m: Matrix, role: RoleName)
    requires IsBuiltIn(role) && role in m && m[role] == BuiltInGrants(role)
    ensures forall res, act :: Can(m, role, res, act) <==> Holds(BuiltInGrants(role), res, act)
  {
    assert forall res :: res in BuiltInGrants(role) ==> BuiltInGrants(role)[res].scope != ScopeNone;
  }

  /** Whatever is edited, the shipped roles hold exactly their shipped grants, on every replica. */
  lemma BuiltInsNeverChange(es: seq<Event>, replica: Replica, role: RoleName)
    requires IsBuiltIn(role)
    ensures var s := Run(Seeded, es);
      role in s.db.roles && s.db.roles[role].grants == BuiltInGrants(role)
      && forall res, act :: Can(Active(Cached(s, replica)), role, res, act) <==> Holds(BuiltInGrants(role), res, act)
  {
    ReachableInv(es);
    ActiveOk(Cached(Run(Seeded, es), replica));
    BuiltInCan(Active(Cached(Run(Seeded, es), replica)), role);
  }

  /**
   Whatever roles are created, edited and deleted, and however stale the map a replica has
   published or is about to publish: nobody anywhere holds one of the six actions that no
   shipped role holds.
   */
  lemma GrantsNeverGrow(es: seq<Event>, replica: Replica, role: RoleName, res: Resource, act: Action)
    requires forall r :: IsBuiltIn(r) ==> !Holds(BuiltInGrants(r), res, act)
    ensures Absent(Run(Seeded, es), replica, role, res, act)
  {
    assert OutOfReach(res, act) by { GrantedExactly(res, act); }
    ReachableInv(es);
    OutOfReachAbsent(Run(Seeded, es), replica, role, res, act);
  }

  /** A refresh always gets through, and then the replica answers exactly as the database would. */
  lemma RefreshAgrees(es: seq<Event>, cached: Option<Matrix>)
    ensures var db := Run(Seeded, es).db;
      Refreshed(db, cached) == Some(Snapshot(db.roles))
    ensures var db := Run(Seeded, es).db;
      forall role, res, act :: Can(Active(Refreshed(db, cached)), role, res, act) <==>
        role in db.roles && Holds(db.roles[role].grants, res, act)
        && !(act == Read && db.roles[role].grants[res].scope == ScopeNone)
  {
    ReachableInv(es);
    SnapshotOk(Run(Seeded, es).db.roles);
  }

  /** Booting again is harmless: seeding a seeded database changes no role. */
  lemma SeedingIsIdempotent(es: seq<Event>)
    ensures SeedRoles(Run(Seeded, es).db.roles) == Run(Seeded, es).db.roles
  {
    ReachableInv(es);
    SeedingChangesNothing(Run(Seeded, es).db.roles);
  }

  lemma SeedingChangesNothing(roles: map<RoleName, RoleRow>)
    requires RolesOk(roles)
    ensures SeedRoles(roles) == roles
  {
    SeedExactly(roles);
  }

  lemma EveryAccountHasARole(es: seq<Event>, u: UserId)
    requires u in Run(Seeded, es).db.users
    ensures var db := Run(Seeded, es).db;
      db.users[u].role in db.roles || IsBuiltIn(db.users[u].role)
  {
    ReachableInv(es);
  }

  ghost predicate Guarded(db: Db) {
    exists u :: Seat(db, u)
  }

  /** A matrix in which the built-in grants are intact sees super_admin as privileged. */
  lemma SuperAdminPrivileged(m: Matrix)
    requires MatrixOk(m)
    ensures Privileged(m, SuperAdmin)
  {
    assert IsBuiltIn(SuperAdmin);
    GrantedExactly(ResUsers, Update);
    assert Can(m, SuperAdmin, ResUsers, Update);
  }

  ghost predicate Seat(db: Db, u: UserId) {
    u in db.users && db.users[u].active && db.users[u].role == SuperAdmin
  }

  /** Nobody unseats himself, and a seat is taken from another only by a super_admin. */
  lemma SeatKept(db: Db, m: Matrix, caller: UserId, c: Call, u: UserId)
    requires Privileged(m, SuperAdmin) && db.next !in db.users
    requires caller in db.users && Seat(db, u)
    requires u == caller || db.users[caller].role != SuperAdmin
    ensures Seat(Perform(db, m, caller, c).0, u)
  {
    match c
    case CreateRole(name, title, perms) =>
    case UpdateRole(name, retitle, edits) =>
    case DeleteRole(name) =>
    case CreateUser(email, fullName, ok, asked) =>
    case UpdateUser(target, active, to) =>
    case DeleteUser(target) =>
  }

  lemma RequestKeepsGuard(db: Db, cached: Option<Matrix>, caller: UserId, c: Call)
    requires UsersOk(db) && Guarded(db) && MatrixOk(Active(cached))
    ensures Guarded(Respond(db, cached, caller, c).0)
  {
    var m := Active(cached);
    SuperAdminPrivileged(m);
    if Admitted(db, m, caller, c) {
      var u :| Seat(db, u);
      SeatKept(db, m, caller, c, if db.users[caller].role == SuperAdmin then caller else u);
    }
  }

  lemma ApplyKeepsGuard(s: State, e: Event)
    requires Inv(s) && Guarded(s.db)
    ensures Guarded(Apply(s, e).db)
  {
    var u :| Seat(s.db, u);
    if e.Request? {
      ActiveOk(Cached(s, e.replica));
      RequestKeepsGuard(s.db, Cached(s, e.replica), e.caller, e.call);
    } else {
      assert Seat(Apply(s, e).db, u);
    }
  }

  /** Once there is an active super_admin, every later state has one. */
  lemma {:induction false} SuperAdminRemains(es: seq<Event>, more: seq<Event>)
    requires Guarded(Run(Seeded, es).db)
    ensures Guarded(Run(Run(Seeded, es), more).db)
  {
    if more != [] {
      var front := more[..|more| - 1];
      SuperAdminRemains(es, front);
      ReachableInv(es);
      RunKeepsInv(Run(Seeded, es), front);
      ApplyKeepsGuard(Run(Run(Seeded, es), front), more[|more| - 1]);
    }
  }

  /** Role r already held the action, or the caller does. */
  ghost predicate Accounted(db: Db, m: Matrix, caller: RoleName, r: RoleName, res: Resource, act: Action) {
    (r in db.roles && Holds(db.roles[r].grants, res, act)) || Can(m, caller, res, act)
  }

  lemma CreateAccounted(db: Db, m: Matrix, caller: RoleName, name: RoleName, title: string, reqs: seq<PermReq>,
                        r: RoleName, res: Resource, act: Action)
    requires var roles := DoCreateRole(db, m, caller, name, title, reqs).0.roles;
      r in roles && Holds(roles[r].grants, res, act)
    ensures Accounted(db, m, caller, r, res, act)
  {
    if Vet(m, caller, reqs).Ok? { VetWithinCaller(m, caller, reqs); }
  }

  lemma UpdateAccounted(db: Db, m: Matrix, caller: RoleName, name: RoleName, retitle: Option<string>,
                        reqs: Option<seq<PermReq>>, r: RoleName, res: Resource, act: Action)
    requires var roles := DoUpdateRole(db, m, caller, name, retitle, reqs).0.roles;
      r in roles && Holds(roles[r].grants, res, act)
    ensures Accounted(db, m, caller, r, res, act)
  {
    if reqs.Some? && Vet(m, caller, reqs.value).Ok? { VetWithinCaller(m, caller, reqs.value); }
  }

  lemma OtherCallsKeepRoles(db: Db, m: Matrix, caller: UserId, c: Call)
    requires caller in db.users && !c.CreateRole? && !c.UpdateRole?
    ensures var roles := Perform(db, m, caller, c).0.roles;
      forall r :: r in roles ==> r in db.roles && roles[r] == db.roles[r]
  {}

  /** A role edit hands out only what its caller holds in the consulted matrix; others keep theirs. */
  lemma NoAmplification(db: Db, cached: Option<Matrix>, caller: UserId, c: Call, role: RoleName, res: Resource,
                        act: Action)
    requires var roles := Respond(db, cached, caller, c).0.roles;
      role in roles && Holds(roles[role].grants, res, act)
    ensures (role in db.roles && Holds(db.roles[role].grants, res, act))
      || (caller in db.users && Can(Active(cached), db.users[caller].role, res, act))
  {
    var m := Active(cached);
    if Admitted(db, m, caller, c) {
      var mine := db.users[caller].role;
      if c.CreateRole? {
        CreateAccounted(db, m, mine, c.name, c.title, c.perms, role, res, act);
      } else if c.UpdateRole? {
        UpdateAccounted(db, m, mine, c.name, c.retitle, c.edits, role, res, act);
      } else {
        OtherCallsKeepRoles(db, m, caller, c);
      }
    }
  }

  /**
   A caller who is not super_admin gives nobody a role that the serving replica sees as
   privileged, and against an account that has one can do no more than reactivate it or,
   when it is not super_admin, delete it.
   */
  lemma OnlySuperAdminsMovePrivilege(db: Db, cached: Option<Matrix>, caller: UserId, c: Call, u: UserId)
    requires caller in db.users && db.users[caller].role != SuperAdmin
    requires u < db.next && forall v :: v in db.users ==> v < db.next
    ensures var m, db' := Active(cached), Respond(db, cached, caller, c).0;
      (u in db.users && Privileged(m, db.users[u].role) ==>
        (u in db'.users && db'.users[u].role == db.users[u].role && (db.users[u].active ==> db'.users[u].active))
        || (u !in db'.users && db.users[u].role != SuperAdmin && c == DeleteUser(u)))
      && (u in db.users && u in db'.users && Privileged(m, db'.users[u].role) ==>
        db'.users[u].role == db.users[u].role)
      && (db.next in db'.users ==> !Privileged(m, db'.users[db.next].role))
  {
    var m := Active(cached);
    if Admitted(db, m, caller, c) {
      var mine := db.users[caller].role;
      match c
      case CreateRole(name, title, perms) =>
      case UpdateRole(name, retitle, edits) =>
      case DeleteRole(name) =>
      case CreateUser(email, fullName, ok, asked) =>
      case UpdateUser(target, active, to) =>
      case DeleteUser(target) =>
    }
  }

  // --- Undoing -------------------------------------------------------------------------------

  /** Deleting a role just created leaves the tables as they were: nobody can hold it yet. */
  lemma DeleteUndoesCreate(es: seq<Event>, m: Matrix, caller: RoleName, name: RoleName, title: string,
                           reqs: seq<PermReq>)
    ensures var db := Run(Seeded, es).db;
      var (db', reply) := DoCreateRole(db, m, caller, name, title, reqs);
      reply == Done ==> DoDeleteRole(db', name) == (db, Done)
  {
    var db := Run(Seeded, es).db;
    ReachableInv(es);
    if DoCreateRole(db, m, caller, name, title, reqs).1 == Done {
      assert name !in db.roles && !IsBuiltIn(name);
      var db' := DoCreateRole(db, m, caller, name, title, reqs).0;
      assert !Assigned(db'.users, name);
      assert db'.roles - {name} == db.roles;
    }
  }

  /**
   A deleted role is gone and takes nobody with it: no account had it, once a replica refreshes
   nobody can act through it, and every other role can do exactly what it could.
   */
  lemma DeletionIsClean(es: seq<Event>, name: RoleName, cached: Option<Matrix>)
    ensures var db := Run(Seeded, es).db;
      var (db', reply) := DoDeleteRole(db, name);
      reply == Done ==>
        (forall u :: u in db.users ==> db.users[u].role != name)
        && (forall res, act :: !Can(Active(Refreshed(db', cached)), name, res, act))
        && (forall role, res, act :: role != name ==>
          (Can(Active(Refreshed(db', cached)), role, res, act) <==> Can(Active(Refreshed(db, cached)), role, res, act)))
  {
    ReachableInv(es);
    RemovedCleanly(Run(Seeded, es).db, name, cached);
  }

  lemma RemovedCleanly(db: Db, name: RoleName, cached: Option<Matrix>)
    requires RolesOk(db.roles) && UsersOk(db)
    ensures var (db', reply) := DoDeleteRole(db, name);
      reply == Done ==>
        (forall u :: u in db.users ==> db.users[u].role != name)
        && (forall res, act :: !Can(Active(Refreshed(db', cached)), name, res, act))
        && (forall role, res, act :: role != name ==>
          (Can(Active(Refreshed(db', cached)), role, res, act) <==> Can(Active(Refreshed(db, cached)), role, res, act)))
  {
    DeleteRoleKeeps(db, name);
    RefreshedIs(db, cached);
    RefreshedIs(DoDeleteRole(db, name).0, cached);
    SnapshotWithout(db.roles, name);
  }

  lemma RefreshedIs(db: Db, cached: Option<Matrix>)
    requires RolesOk(db.roles)
    ensures Active(Refreshed(db, cached)) == Snapshot(db.roles)
  {
    SnapshotOk(db.roles);
  }

  lemma SnapshotWithout(roles: map<RoleName, RoleRow>, name: RoleName)
    ensures forall res, act :: !Can(Snapshot(roles - {name}), name, res, act)
    ensures forall role, res, act :: role != name ==>
      (Can(Snapshot(roles - {name}), role, res, act) <==> Can(Snapshot(roles), role, res, act))
  {
    forall role | role != name
      ensures role in Snapshot(roles - {name}) <==> role in Snapshot(roles)
      ensures role in Snapshot(roles) ==> Snapshot(roles - {name})[role] == Snapshot(roles)[role]
    {}
  }

  /**
   Deletion frees the address: an account created and then deleted leaves the other accounts as
   they were, and the same request creates it anew.
   */
  lemma EmailFreedByDeletion(es: seq<Event>, m: Matrix, caller: RoleName, email: string, fullName: string,
                             passwordOk: bool, asked: RoleName, callerId: UserId)
    ensures var db := Run(Seeded, es).db;
      var (db', reply) := DoCreateUser(db, m, caller, email, fullName, passwordOk, asked);
      reply == Done && callerId != db.next && caller == SuperAdmin ==>
        DoCreateUser(db', m, caller, email, fullName, passwordOk, asked).1 == Taken
        && var (gone, deleted) := DoDeleteUser(db', callerId, caller, db.next);
        deleted == Done && gone == db.(next := db.next + 1)
        && DoCreateUser(gone, m, caller, email, fullName, passwordOk, asked).1 == Done
  {
    var db := Run(Seeded, es).db;
    ReachableInv(es);
    var (db', reply) := DoCreateUser(db, m, caller, email, fullName, passwordOk, asked);
    if reply == Done {
      assert db.next !in db.users;
      assert db'.users[db.next].email == email;
      assert db'.users - {db.next} == db.users;
    }
  }
}
