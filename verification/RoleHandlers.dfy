/**
 The role and user handlers as they run: the rows and the process's cached matrix are updated
 in place, permissions are vetted in a loop, and serving a request is one step of the machine.
 */
module RoleHandlers {
  import opened Common
  import opened Roles
  import opened RoleTheorems
  import RoleCalls

  /** The loop CreateRole and UpdateRole share: one pass with a set of the resources seen. */
  method VetPermissions(m: Matrix, caller: RoleName, reqs: seq<PermReq>) returns (r: Result<Grants, Fault>)
    ensures r == Vet(m, caller, reqs)
    ensures r.Ok? <==> Acceptable(m, caller, reqs)
    ensures r.Ok? ==> forall res, act :: Holds(r.value, res, act) <==> Asked(reqs, res, act)
  {
    var grants: Grants := map[];
    var seen := {};
    for i := 0 to |reqs|
      invariant Vet(m, caller, reqs[..i]) == Ok(grants)
      invariant seen == grants.Keys
    {
      var p := reqs[i];
      assert reqs[..i + 1][..i] == reqs[..i];
      var fault := FaultOf(m, caller, seen, p);
      if fault.Some? {
        VetStops(m, caller, reqs, i + 1);
        VetExactly(m, caller, reqs);
        return Err(fault.value);
      }
      assert Vet(m, caller, reqs[..i + 1]) == Ok(grants[p.resource.value := AsGrant(p)]);
      seen := seen + {p.resource.value};
      grants := grants[p.resource.value := AsGrant(p)];
    }
    assert reqs[..|reqs|] == reqs;
    VetExactly(m, caller, reqs);
    return Ok(grants);
  }

  /** A refusal of the first k entries is the refusal of the whole list. */
  lemma {:induction false} VetStops(m: Matrix, caller: RoleName, reqs: seq<PermReq>, k: nat)
    requires k <= |reqs| && Vet(m, caller, reqs[..k]).Err?
    ensures Vet(m, caller, reqs) == Vet(m, caller, reqs[..k])
    decreases |reqs| - k
  {
    if k < |reqs| {
      assert reqs[..k + 1][..k] == reqs[..k];
      VetStops(m, caller, reqs, k + 1);
    } else {
      assert reqs[..k] == reqs;
    }
  }

  method RoleHasPrivilegedAccess(m: Matrix, role: RoleName) returns (b: bool)
    ensures b <==> Privileged(m, role)
  {
    var watched := [ResUsers, ResRoles];
    for i := 0 to |watched|
      invariant forall res, act :: res in watched[..i] && act != Read ==> !Can(m, role, res, act)
    {
      if Can(m, role, watched[i], Create) || Can(m, role, watched[i], Update) || Can(m, role, watched[i], Delete) {
        assert watched[i] == ResUsers || watched[i] == ResRoles;
        return true;
      }
      forall act | act != Read ensures !Can(m, role, watched[i], act) {
        assert act == Create || act == Update || act == Delete;
      }
      assert watched[..i + 1] == watched[..i] + [watched[i]];
    }
    assert ResUsers == watched[0] && ResRoles == watched[1];
    return false;
  }

  ghost function SeededRow(roles: map<RoleName, RoleRow>, role: RoleName): RoleRow {
    SeedRole(roles, role)[role]
  }

  lemma SeedRowByRow(before: map<RoleName, RoleRow>, after: map<RoleName, RoleRow>)
    requires forall role :: role in after <==> role in before || IsBuiltIn(role)
    requires forall role :: role in after ==>
      after[role] == (if IsBuiltIn(role) then SeededRow(before, role) else before[role])
    ensures after == SeedRoles(before)
  {
    SeedExactly(before);
  }

  /** Accounts are created for known roles, students excepted. */
  predicate Creatable(roles: map<RoleName, RoleRow>, asked: RoleName) {
    Given(asked) != Student && (Given(asked) in roles || IsBuiltIn(Given(asked)))
  }

  /** The role a new account gets: admissions, unless one is named. */
  function Given(asked: RoleName): RoleName { if asked == Named("") then Admissions else asked }

  /** One process in front of the database. */
  class Server {
    var roles: map<RoleName, RoleRow>
    var users: map<UserId, User>
    var next: UserId
    var cached: Option<Matrix>

    ghost function Tables(): Db
      reads this
    {
      Db(roles, users, next)
    }

    constructor ()
      ensures Tables() == Db(map[], map[], 0) && cached == None
    {
      roles, users, next, cached := map[], map[], 0, None;
    }

    /** Provisions the shipped roles, in whatever order the grant table is walked. */
    method SeedGrants()
      modifies `roles
      ensures roles == SeedRoles(old(roles))
    {
      var left := {SuperAdmin, Admin, Admissions, Student};
      while left != {}
        invariant left <= {SuperAdmin, Admin, Admissions, Student}
        invariant forall role :: role in roles <==> role in old(roles) || (IsBuiltIn(role) && role !in left)
        invariant forall role :: role in roles ==>
          roles[role] == (if IsBuiltIn(role) && role !in left then SeededRow(old(roles), role) else old(roles)[role])
        decreases |left|
      {
        var role :| role in left;
        if role !in roles { roles := roles[role := RoleRow(BuiltInLabel(role), true, map[])]; }
        roles := roles[role := roles[role].(grants := BuiltInGrants(role))];
        left := left - {role};
      }
      SeedRowByRow(old(roles), roles);
    }

    /** Builds a new matrix row by row and publishes it if it passes the sanity check. */
    method LoadFromDB()
      modifies `cached
      ensures cached == Refreshed(Tables(), old(cached))
    {
      var loaded: Matrix := map[];
      var left := roles.Keys;
      while left != {}
        invariant left <= roles.Keys && loaded.Keys == roles.Keys - left
        invariant forall name :: name in loaded ==> loaded[name] == roles[name].grants
        decreases |left|
      {
        var name :| name in left;
        loaded := loaded[name := roles[name].grants];
        left := left - {name};
      }
      assert loaded == Snapshot(roles);
      if Can(loaded, SuperAdmin, ResUsers, Read) { cached := Some(loaded); }
    }

    method CreateRole(caller: RoleName, name: RoleName, title: string, reqs: seq<PermReq>) returns (reply: Reply)
      modifies `roles, `cached
      ensures (Tables(), reply) == DoCreateRole(old(Tables()), Active(old(cached)), caller, name, title, reqs)
      ensures cached == if reply == Done then Refreshed(Tables(), old(cached)) else old(cached)
      ensures if reply == Done
              then name in roles && roles == old(roles)[name := roles[name]] && roles[name].title == title
                && !roles[name].builtIn && RoleCalls.HoldsJust(roles[name].grants, reqs)
              else roles == old(roles)
    {
      RoleCalls.CreateRoleInFull(Tables(), Active(cached), caller, name, title, reqs);
      if (name.Named? && !Slug(name.slug)) || title == "" { return Invalid; }
      if name in roles { return Taken; }
      var vetted := VetPermissions(Active(cached), caller, reqs);
      if vetted.Err? { return VetReply(vetted.error); }
      roles := roles[name := RoleRow(title, false, vetted.value)];
      LoadFromDB();
      return Done;
    }

    method UpdateRole(caller: RoleName, name: RoleName, retitle: Option<string>, reqs: Option<seq<PermReq>>)
      returns (reply: Reply)
      modifies `roles, `cached
      ensures (Tables(), reply) == DoUpdateRole(old(Tables()), Active(old(cached)), caller, name, retitle, reqs)
      ensures cached == if reply == Done then Refreshed(Tables(), old(cached)) else old(cached)
      ensures if reply == Done
              then name in old(roles) && name in roles && roles == old(roles)[name := roles[name]]
                && roles[name].builtIn == old(roles)[name].builtIn
                && roles[name].title == (if retitle.Some? then retitle.value else old(roles)[name].title)
                && (reqs.None? ==> roles[name].grants == old(roles)[name].grants)
                && (reqs.Some? ==> RoleCalls.HoldsJust(roles[name].grants, reqs.value))
              else roles == old(roles)
    {
      RoleCalls.UpdateRoleInFull(Tables(), Active(cached), caller, name, retitle, reqs);
      if name !in roles { return Missing; }
      if roles[name].builtIn && reqs.Some? { return Denied; }
      if retitle == Some("") { return Invalid; }
      var row := roles[name];
      if retitle.Some? { row := row.(title := retitle.value); }
      if reqs.Some? {
        var vetted := VetPermissions(Active(cached), caller, reqs.value);
        if vetted.Err? { return VetReply(vetted.error); }
        row := row.(grants := vetted.value);
      }
      roles := roles[name := row];
      LoadFromDB();
      return Done;
    }

    method DeleteRole(name: RoleName) returns (reply: Reply)
      modifies `roles, `cached
      ensures (Tables(), reply) == DoDeleteRole(old(Tables()), name)
      ensures reply == Done <==> (name in old(roles) && !old(roles)[name].builtIn
                                  && forall u :: u in users ==> users[u].role != name)
      ensures roles == if reply == Done then old(roles) - {name} else old(roles)
      ensures cached == if reply == Done then Refreshed(Tables(), old(cached)) else old(cached)
    {
      if name !in roles { return Missing; }
      if roles[name].builtIn { return Invalid; }
      if Assigned(users, name) { return Taken; }
      roles := roles - {name};
      LoadFromDB();
      return Done;
    }

    method CreateUser(caller: RoleName, email: string, fullName: string, passwordOk: bool, asked: RoleName)
      returns (reply: Reply)
      modifies `users, `next
      ensures (Tables(), reply) ==
        DoCreateUser(old(Tables()), Active(cached), caller, email, fullName, passwordOk, asked)
      ensures reply == Done <==>
        (email != "" && '@' in email && fullName != "" && passwordOk && Creatable(roles, asked)
         && (Privileged(Active(cached), Given(asked)) ==> caller == SuperAdmin)
         && forall u :: u in old(users) ==> old(users)[u].email != email)
      ensures users == if reply == Done then old(users)[old(next) := User(email, Given(asked), true)] else old(users)
    {
      if email == "" || '@' !in email || fullName == "" || !passwordOk { return Invalid; }
      var role := asked;
      if role == Named("") { role := Admissions; }
      if role == Student { return Invalid; }
      if !(role in roles || IsBuiltIn(role)) { return Invalid; }
      var privileged := RoleHasPrivilegedAccess(Active(cached), role);
      if privileged && caller != SuperAdmin { return Denied; }
      if EmailTaken(users, email) { return Taken; }
      users, next := users[next := User(email, role, true)], next + 1;
      return Done;
    }

    method UpdateUser(callerId: UserId, caller: RoleName, target: UserId, active: Option<bool>, role: Option<RoleName>)
      returns (reply: Reply)
      modifies `users
      ensures (Tables(), reply) == DoUpdateUser(old(Tables()), Active(cached), callerId, caller, target, active, role)
    {
      if target !in users { return Missing; }
      var u := users[target];
      var before := RoleHasPrivilegedAccess(Active(cached), u.role);
      if active.Some? {
        if callerId == target && !active.value { return Invalid; }
        if !active.value && before && caller != SuperAdmin { return Denied; }
        u := u.(active := active.value);
      }
      if role.Some? {
        if !(role.value in roles || IsBuiltIn(role.value)) { return Invalid; }
        if callerId == target && role.value != u.role { return Invalid; }
        var after := RoleHasPrivilegedAccess(Active(cached), role.value);
        if (after || before) && caller != SuperAdmin { return Denied; }
        u := u.(role := role.value);
      }
      if active.None? && role.None? { return Invalid; }
      users := users[target := u];
      return Done;
    }

    method DeleteUser(callerId: UserId, caller: RoleName, target: UserId) returns (reply: Reply)
      modifies `users
      ensures (Tables(), reply) == DoDeleteUser(old(Tables()), callerId, caller, target)
      ensures reply == Done <==> (target in old(users) && target != callerId
                                  && (old(users)[target].role == SuperAdmin ==> caller == SuperAdmin))
      ensures users == if reply == Done then old(users) - {target} else old(users)
    {
      if target !in users { return Missing; }
      if callerId == target { return Invalid; }
      if users[target].role == SuperAdmin && caller != SuperAdmin { return Denied; }
      users := users - {target};
      return Done;
    }

    /** Auth, RejectStudents and RequirePermission, then the handler. */
    method Handle(caller: UserId, call: Call) returns (reply: Reply)
      modifies this
      ensures (Tables(), cached, reply) == Respond(old(Tables()), old(cached), caller, call)
    {
      if caller !in users || !users[caller].active { return Denied; }
      var role := users[caller].role;
      if role == Student { return Denied; }
      if !Can(Active(cached), role, if OnRoles(call) then ResRoles else ResUsers, ActionOf(call)) { return Denied; }
      match call
      case CreateRole(name, title, perms) => reply := CreateRole(role, name, title, perms);
      case UpdateRole(name, retitle, edits) => reply := UpdateRole(role, name, retitle, edits);
      case DeleteRole(name) => reply := DeleteRole(name);
      case CreateUser(email, fullName, ok, asked) => reply := CreateUser(role, email, fullName, ok, asked);
      case UpdateUser(target, active, to) => reply := UpdateUser(caller, role, target, active, to);
      case DeleteUser(target) => reply := DeleteUser(caller, role, target);
    }
  }
}
