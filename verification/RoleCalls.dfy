/**
 What role and account calls do, in the fields of the tables: what a role holds after an edit, who
 may ask for what, and which accounts a call leaves as they were.
 */
module RoleCalls {
  import opened Common
  import opened Roles
  import opened RoleTheorems

  // --- Permissions as stored -----------------------------------------------------------------------

  /** The grants of a list of entries: those entries' actions and scopes, and nothing else. */
  ghost predicate HoldsJust(grants: Grants, reqs: seq<PermReq>) {
    (forall res, act :: Holds(grants, res, act) <==> Asked(reqs, res, act))
    && (forall res :: res in grants <==> Listed(reqs, res))
    && forall p :: p in reqs && p.resource.Some? && p.scope.Some? && p.resource.value in grants ==>
      grants[p.resource.value].scope ==
        (if p.read || p.create || p.update || p.delete then p.scope.value else ScopeNone)
  }

  lemma {:induction false} VetScopes(m: Matrix, caller: RoleName, reqs: seq<PermReq>)
    requires Vet(m, caller, reqs).Ok?
    ensures forall i :: 0 <= i < |reqs| ==>
      reqs[i].resource.Some? && reqs[i].scope.Some? && reqs[i].resource.value in Vet(m, caller, reqs).value
      && Vet(m, caller, reqs).value[reqs[i].resource.value].scope ==
        (if AsksAny(reqs[i]) then reqs[i].scope.value else ScopeNone)
  {
    if reqs != [] {
      var n := |reqs| - 1;
      VetScopes(m, caller, reqs[..n]);
      FaultExactly(m, caller, Vet(m, caller, reqs[..n]).value.Keys, reqs[n]);
      forall i | 0 <= i < n ensures reqs[i].resource != reqs[n].resource {
        assert reqs[..n][i] == reqs[i];
      }
    }
  }

  lemma VetHoldsJust(m: Matrix, caller: RoleName, reqs: seq<PermReq>)
    requires Vet(m, caller, reqs).Ok?
    ensures HoldsJust(Vet(m, caller, reqs).value, reqs)
  {
    VetExactly(m, caller, reqs);
    VetScopes(m, caller, reqs);
    var grants := Vet(m, caller, reqs).value;
    forall p | p in reqs ensures p.resource.Some? && p.scope.Some? && p.resource.value in grants
        && grants[p.resource.value].scope == (if AsksAny(p) then p.scope.value else ScopeNone) {
      var i :| 0 <= i < |reqs| && reqs[i] == p;
    }
  }

  /** A built-in slug, or one of lower-case letters, digits and underscores. */
  ghost predicate GoodName(name: RoleName) {
    name.Named? ==>
      name.slug != ""
      && forall i :: 0 <= i < |name.slug| ==>
        'a' <= name.slug[i] <= 'z' || '0' <= name.slug[i] <= '9' || name.slug[i] == '_'
  }

  /** A role is created, custom and holding just what was asked, or nothing happens. */
  lemma CreateRoleInFull(db: Db, m: Matrix, caller: RoleName, name: RoleName, title: string, reqs: seq<PermReq>)
    ensures var (db', reply) := DoCreateRole(db, m, caller, name, title, reqs);
      (reply == Done <==> GoodName(name) && title != "" && name !in db.roles && Acceptable(m, caller, reqs))
      && (reply != Done ==> db' == db)
      && (reply == Done ==>
        name in db'.roles && db' == db.(roles := db.roles[name := db'.roles[name]])
        && db'.roles[name].title == title && !db'.roles[name].builtIn && HoldsJust(db'.roles[name].grants, reqs))
  {
    VetExactly(m, caller, reqs);
    if Vet(m, caller, reqs).Ok? { VetHoldsJust(m, caller, reqs); }
    assert name.Named? ==> (GoodName(name) <==> Slug(name.slug)) by {
      if name.Named? {
        assert forall i :: 0 <= i < |name.slug| ==>
          (SlugChar(name.slug[i]) <==> 'a' <= name.slug[i] <= 'z' || '0' <= name.slug[i] <= '9' || name.slug[i] == '_');
      }
    }
  }

  /**
   An edit that sends permissions leaves the role with just those, whatever it held; one that sends
   none leaves them alone. Only custom roles' permissions change, and a refusal changes nothing.
   */
  lemma UpdateRoleInFull(db: Db, m: Matrix, caller: RoleName, name: RoleName, retitle: Option<string>,
                         reqs: Option<seq<PermReq>>)
    ensures var (db', reply) := DoUpdateRole(db, m, caller, name, retitle, reqs);
      (reply == Done <==>
        name in db.roles && retitle != Some("")
        && (reqs.Some? ==> !db.roles[name].builtIn && Acceptable(m, caller, reqs.value)))
      && (reply != Done ==> db' == db)
      && (reply == Done ==>
        name in db.roles && name in db'.roles && db' == db.(roles := db.roles[name := db'.roles[name]])
        && db'.roles[name].builtIn == db.roles[name].builtIn
        && db'.roles[name].title == (if retitle.Some? then retitle.value else db.roles[name].title)
        && (reqs.None? ==> db'.roles[name].grants == db.roles[name].grants)
        && (reqs.Some? ==> HoldsJust(db'.roles[name].grants, reqs.value)))
  {
    if reqs.Some? {
      VetExactly(m, caller, reqs.value);
      if Vet(m, caller, reqs.value).Ok? { VetHoldsJust(m, caller, reqs.value); }
    }
  }

  // --- What the shipped roles hold -------------------------------------------------------------------

  ghost predicate MayDo(role: RoleName, res: Resource, act: Action) {
    match role
    case SuperAdmin =>
      (res == ResMetrics ==> act == Read)
      && (res == ResNotifications ==> act == Read || act == Update)
      && (res == ResApprovals ==> act != Delete)
    case Admin =>
      res != ResRoles
      && (res == ResMetrics ==> act == Read)
      && (res == ResNotifications ==> act == Read || act == Update)
      && (res == ResApprovals ==> act != Delete)
    case Admissions =>
      res in {ResEnrollments, ResStudents, ResEvents}
      || (res in {ResProducts, ResMetrics} && act == Read)
      || (res == ResNotifications && (act == Read || act == Update))
    case _ => false
  }

  /** Everything but the six, for super_admin; all of that but roles, for admin; intake, for admissions. */
  lemma ShippedInFull(role: RoleName)
    ensures forall res, act :: Holds(BuiltInGrants(role), res, act) <==> MayDo(role, res, act)
    ensures forall res :: res in BuiltInGrants(role) ==>
      BuiltInGrants(role)[res].scope == (if res == ResNotifications then ScopeOwn else ScopeAll)
  {}

  /** A role is privileged if it may create, update or delete users or roles. */
  lemma PrivilegedExactly(m: Matrix, role: RoleName)
    ensures Privileged(m, role) <==>
      Can(m, role, ResUsers, Create) || Can(m, role, ResUsers, Update) || Can(m, role, ResUsers, Delete)
      || Can(m, role, ResRoles, Create) || Can(m, role, ResRoles, Update) || Can(m, role, ResRoles, Delete)
  {}

  /** What a grant table lets a role do: the row's own flag, and for reading a scope. */
  lemma CanExactly(m: Matrix, role: RoleName, res: Resource)
    ensures Can(m, role, res, Read) <==>
      role in m && res in m[role] && m[role][res].read && m[role][res].scope != ScopeNone
    ensures Can(m, role, res, Create) <==> role in m && res in m[role] && m[role][res].create
    ensures Can(m, role, res, Update) <==> role in m && res in m[role] && m[role][res].update
    ensures Can(m, role, res, Delete) <==> role in m && res in m[role] && m[role][res].delete
  {}

  // --- Who may ask -------------------------------------------------------------------------------------

  /** The permission a call needs. */
  ghost predicate Permitted(m: Matrix, role: RoleName, c: Call) {
    match c
    case CreateRole(_, _, _) => Can(m, role, ResRoles, Create)
    case UpdateRole(_, _, _) => Can(m, role, ResRoles, Update)
    case DeleteRole(_) => Can(m, role, ResRoles, Delete)
    case CreateUser(_, _, _, _) => Can(m, role, ResUsers, Create)
    case UpdateUser(_, _, _) => Can(m, role, ResUsers, Update)
    case DeleteUser(_) => Can(m, role, ResUsers, Delete)
  }

  /** The caller's account exists and is active, is no student's, and its role holds the permission. */
  ghost predicate LetIn(db: Db, m: Matrix, caller: UserId, c: Call) {
    caller in db.users && db.users[caller].active && db.users[caller].role != Student
    && Permitted(m, db.users[caller].role, c)
  }

  /** Anybody else is turned away with nothing changed, by the grants the replica has at that moment. */
  lemma TurnedAway(db: Db, cached: Option<Matrix>, caller: UserId, c: Call)
    ensures var m := if cached.Some? then cached.value else Fallback();
      !LetIn(db, m, caller, c) ==> Respond(db, cached, caller, c) == (db, cached, Denied)
    ensures var m := if cached.Some? then cached.value else Fallback();
      LetIn(db, m, caller, c) ==>
        caller in db.users && Respond(db, cached, caller, c).0 == Perform(db, m, caller, c).0
        && Respond(db, cached, caller, c).2 == Perform(db, m, caller, c).1
  {}

  /** The replica's grants change only with a role edit that went through, and only if super_admin reads users. */
  lemma CacheFollows(db: Db, cached: Option<Matrix>, caller: UserId, c: Call)
    ensures var (db', cached', reply) := Respond(db, cached, caller, c);
      cached' ==
        if reply == Done && (c.CreateRole? || c.UpdateRole? || c.DeleteRole?)
           && Can(Snapshot(db'.roles), SuperAdmin, ResUsers, Read)
        then Some(Snapshot(db'.roles)) else cached
  {}

  // --- Accounts ------------------------------------------------------------------------------------------

  /** What stands in the way of editing an account, as it was found. */
  ghost predicate MayEdit(db: Db, m: Matrix, callerId: UserId, caller: RoleName, target: UserId,
                          active: Option<bool>, role: Option<RoleName>)
  {
    target in db.users && (active.Some? || role.Some?)
    && var u := db.users[target];
    (active == Some(false) ==> callerId != target && (caller == SuperAdmin || !Privileged(m, u.role)))
    && (role.Some? ==>
      (role.value in db.roles || !role.value.Named?)
      && (callerId == target ==> role.value == u.role)
      && (caller == SuperAdmin || (!Privileged(m, role.value) && !Privileged(m, u.role))))
  }

  /** The account gets the role and the status sent and keeps the rest; a refusal changes nothing. */
  lemma UpdateUserInFull(db: Db, m: Matrix, callerId: UserId, caller: RoleName, target: UserId,
                         active: Option<bool>, role: Option<RoleName>)
    ensures var (db', reply) := DoUpdateUser(db, m, callerId, caller, target, active, role);
      (reply == Done <==> MayEdit(db, m, callerId, caller, target, active, role))
      && (reply != Done ==> db' == db)
      && (reply == Done ==>
        target in db.users && target in db'.users && db' == db.(users := db.users[target := db'.users[target]])
        && db'.users[target].email == db.users[target].email
        && db'.users[target].role == (if role.Some? then role.value else db.users[target].role)
        && db'.users[target].active == (if active.Some? then active.value else db.users[target].active))
  {}

  /** The shipped administrator and invited students get an account unless the address has one. */
  lemma InsertedInFull(db: Db, email: string, role: RoleName)
    ensures var db' := InsertIfNew(db, email, role);
      if exists u :: u in db.users && db.users[u].email == email then db' == db
      else
        db'.roles == db.roles && db'.next == db.next + 1
        && db'.users == db.users[db.next := User(email, role, true)]
  {}

  /** Who may be created: a real address and name, a role that is nobody's privilege to give but super_admin's. */
  ghost predicate MayCreate(db: Db, m: Matrix, caller: RoleName, email: string, fullName: string, passwordOk: bool,
                            role: RoleName)
  {
    email != "" && '@' in email && fullName != "" && passwordOk && role != Student
    && (role in db.roles || !role.Named?) && (caller == SuperAdmin || !Privileged(m, role))
    && forall u :: u in db.users ==> db.users[u].email != email
  }

  /** A new active account with the role asked for, admissions if none is; or nothing. */
  lemma CreateUserInFull(db: Db, m: Matrix, caller: RoleName, email: string, fullName: string, passwordOk: bool,
                         asked: RoleName)
    ensures var role := if asked == Named("") then Admissions else asked;
      var (db', reply) := DoCreateUser(db, m, caller, email, fullName, passwordOk, asked);
      (reply == Done <==> MayCreate(db, m, caller, email, fullName, passwordOk, role))
      && (reply != Done ==> db' == db)
      && (reply == Done ==> db' == db.(users := db.users[db.next := User(email, role, true)], next := db.next + 1))
  {}

  /** Deleting removes the account, and only a super_admin removes a super_admin, never himself. */
  lemma DeleteUserInFull(db: Db, callerId: UserId, caller: RoleName, target: UserId)
    ensures var (db', reply) := DoDeleteUser(db, callerId, caller, target);
      (reply == Done <==>
        target in db.users && target != callerId && (db.users[target].role == SuperAdmin ==> caller == SuperAdmin))
      && db' == if reply == Done then db.(users := db.users - {target}) else db
  {}

  /** A custom role that nobody has is deleted; any other stays. */
  lemma DeleteRoleInFull(db: Db, name: RoleName)
    ensures var (db', reply) := DoDeleteRole(db, name);
      (reply == Done <==>
        name in db.roles && !db.roles[name].builtIn && forall u :: u in db.users ==> db.users[u].role != name)
      && db' == if reply == Done then db.(roles := db.roles - {name}) else db
  {}

  /** Seeding gives the four shipped roles their shipped grants, keeps what a row was called, and adds missing rows. */
  lemma SeededInFull(roles: map<RoleName, RoleRow>, role: RoleName)
    ensures role in SeedRoles(roles) <==> role in roles || role in {SuperAdmin, Admin, Admissions, Student}
    ensures role.Named? && role in roles ==> SeedRoles(roles)[role] == roles[role]
    ensures !role.Named? ==>
      var row := SeedRoles(roles)[role];
      (forall res, act :: Holds(row.grants, res, act) <==> MayDo(role, res, act))
      && row.builtIn == (role in roles ==> roles[role].builtIn)
      && row.title == (if role in roles then roles[role].title
                       else match role case SuperAdmin => "Super Admin" case Admin => "Admin"
                            case Admissions => "Admissions" case _ => "Student")
  {
    SeedExactly(roles);
    ShippedInFull(role);
  }
}
