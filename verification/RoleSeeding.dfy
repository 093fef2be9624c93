/**
 Seeding as the database sees it. internal/seed/roles.go writes one row at a time and outside any
 transaction, and a loader reads the roles and then their permissions. So a replica may refresh
 in the middle of another's boot, two boots may interleave, and a boot may stop half-way.
 */
module RoleSeeding {
  import opened Common
  import opened Roles
  import opened RoleTheorems

  /**
   Whole events are those of the other theorems. The rest are single statements: create a missing
   role row, delete a role's permissions, create one permission (refused by the unique index when
   it exists), and read the permissions of the roles a loader has found earlier.
   */
  datatype Step =
    | Whole(event: Event)
    | AddRow(role: RoleName)
    | Wipe(role: RoleName)
    | Fill(role: RoleName, res: Resource)
    | ReadFor(names: set<RoleName>)

  function SetRow(s: State, role: RoleName, row: RoleRow): State {
    s.(db := s.db.(roles := s.db.roles[role := row]))
  }

  function Take(s: State, e: Step): State {
    var roles := s.db.roles;
    match e
    case Whole(event) => Apply(s, event)
    case AddRow(role) =>
      if IsBuiltIn(role) && role !in roles then SetRow(s, role, RoleRow(BuiltInLabel(role), true, map[])) else s
    case Wipe(role) =>
      if IsBuiltIn(role) && role in roles then SetRow(s, role, roles[role].(grants := map[])) else s
    case Fill(role, res) =>
      if role in roles && res in BuiltInGrants(role) && res !in roles[role].grants
      then SetRow(s, role, roles[role].(grants := roles[role].grants[res := BuiltInGrants(role)[res]]))
      else s
    case ReadFor(names) => s.(loads := s.loads + [GrantsOf(roles, names)])
  }

  /** A role deleted since it was found has no permissions left to read. */
  function GrantsOf(roles: map<RoleName, RoleRow>, names: set<RoleName>): Matrix {
    map name | name in names :: if name in roles then roles[name].grants else map[]
  }

  function Walk(s: State, es: seq<Step>): State {
    if es == [] then s else Take(Walk(s, es[..|es| - 1]), es[|es| - 1])
  }

  /** A database in which nothing has been seeded. */
  const Bare := State(Db(map[], map[], 0), map[], [])

  // --- No action beyond the shipped grants ---------------------------------------------------

  ghost predicate Tame(m: Matrix) {
    forall role :: role in m ==> Bounded(m[role])
  }

  ghost predicate AllTame(s: State) {
    Tame(Snapshot(s.db.roles))
    && (forall r :: r in s.caches ==> Tame(s.caches[r]))
    && (forall k :: 0 <= k < |s.loads| ==> Tame(s.loads[k]))
  }

  lemma ActiveTame(cached: Option<Matrix>)
    requires cached.Some? ==> Tame(cached.value)
    ensures Tame(Active(cached))
  {
    FallbackOk();
  }

  lemma RespondTame(db: Db, cached: Option<Matrix>, caller: UserId, c: Call)
    requires Tame(Snapshot(db.roles)) && (cached.Some? ==> Tame(cached.value))
    ensures var (db', cached', _) := Respond(db, cached, caller, c);
      Tame(Snapshot(db'.roles)) && (cached'.Some? ==> Tame(cached'.value))
  {
    ActiveTame(cached);
    var roles := Respond(db, cached, caller, c).0.roles;
    forall role, res, act | role in roles && Holds(roles[role].grants, res, act) ensures !OutOfReach(res, act) {
      NoAmplification(db, cached, caller, c, role, res, act);
      assert role in db.roles ==> Snapshot(db.roles)[role] == db.roles[role].grants;
    }
  }

  lemma ApplyTame(s: State, e: Event)
    requires AllTame(s)
    ensures AllTame(Apply(s, e))
  {
    match e
    case SeedGrants =>
      SeedExactly(s.db.roles);
      forall role | role in SeedRoles(s.db.roles) ensures Bounded(SeedRoles(s.db.roles)[role].grants) {
        BuiltInsBounded(role);
        assert role in s.db.roles ==> Bounded(Snapshot(s.db.roles)[role]);
      }
    case SeedAdmin(email) =>
    case ClaimInvitation(email) =>
    case Restart(r) =>
    case Load =>
    case Publish(r, k) =>
    case Request(r, caller, c) => RespondTame(s.db, Cached(s, r), caller, c);
  }

  lemma SetRowTame(s: State, role: RoleName, row: RoleRow)
    requires AllTame(s) && Bounded(row.grants)
    ensures AllTame(SetRow(s, role, row))
  {
    assert forall r :: r in s.db.roles ==> Snapshot(s.db.roles)[r] == s.db.roles[r].grants;
  }

  lemma TakeTame(s: State, e: Step)
    requires AllTame(s)
    ensures AllTame(Take(s, e))
  {
    var roles := s.db.roles;
    match e
    case Whole(event) => ApplyTame(s, event);
    case AddRow(role) => SetRowTame(s, role, RoleRow(BuiltInLabel(role), true, map[]));
    case Wipe(role) =>
      if role in roles { SetRowTame(s, role, roles[role].(grants := map[])); }
    case Fill(role, res) =>
      if role in roles && res in BuiltInGrants(role) && res !in roles[role].grants {
        BuiltInsBounded(role);
        assert Bounded(Snapshot(roles)[role]);
        var grants := roles[role].grants[res := BuiltInGrants(role)[res]];
        forall other, act | Holds(grants, other, act) ensures !OutOfReach(other, act) {
          assert if other == res then Holds(BuiltInGrants(role), res, act) else Holds(roles[role].grants, other, act);
        }
        SetRowTame(s, role, roles[role].(grants := grants));
      }
    case ReadFor(names) =>
      assert Tame(GrantsOf(roles, names)) by {
        assert forall name :: name in roles ==> Snapshot(roles)[name] == roles[name].grants;
      }
  }

  lemma {:induction false} WalkTame(s: State, es: seq<Step>)
    requires AllTame(s)
    ensures AllTame(Walk(s, es))
  {
    if es != [] {
      WalkTame(s, es[..|es| - 1]);
      TakeTame(Walk(s, es[..|es| - 1]), es[|es| - 1]);
    }
  }

  /**
   From an empty database on, whatever boots, loads and edits interleave row by row: nobody
   anywhere holds one of the actions that no shipped role holds.
   */
  lemma NothingBeyondShipped(es: seq<Step>, replica: Replica, role: RoleName, res: Resource, act: Action)
    requires forall r :: IsBuiltIn(r) ==> !Holds(BuiltInGrants(r), res, act)
    ensures Absent(Walk(Bare, es), replica, role, res, act)
  {
    var s := Walk(Bare, es);
    assert OutOfReach(res, act) by { GrantedExactly(res, act); }
    WalkTame(Bare, es);
    TameAbsent(s, replica, role, res, act);
  }

  lemma TameLacks(m: Matrix, role: RoleName, res: Resource, act: Action)
    requires Tame(m) && OutOfReach(res, act)
    ensures !Can(m, role, res, act) && (role in m ==> !Holds(m[role], res, act))
  {
    if role in m { assert Bounded(m[role]); }
  }

  lemma TameAbsent(s: State, replica: Replica, role: RoleName, res: Resource, act: Action)
    requires AllTame(s) && OutOfReach(res, act)
    ensures Absent(s, replica, role, res, act)
  {
    ActiveTame(Cached(s, replica));
    TameLacks(Active(Cached(s, replica)), role, res, act);
    TameLacks(Snapshot(s.db.roles), role, res, act);
    assert role in s.db.roles ==> Snapshot(s.db.roles)[role] == s.db.roles[role].grants;
    forall k | 0 <= k < |s.loads| ensures role in s.loads[k] ==> !Holds(s.loads[k][role], res, act) {
      TameLacks(s.loads[k], role, res, act);
    }
  }

  // --- What a boot under way can and cannot take from a shipped role -----------------------------

  /** Some of the role's shipped permissions, each of them whole. */
  ghost predicate PartOf(grants: Grants, role: RoleName) {
    forall res :: res in grants ==> res in BuiltInGrants(role) && grants[res] == BuiltInGrants(role)[res]
  }

  ghost predicate Partial(m: Matrix) {
    forall role :: IsBuiltIn(role) && role in m ==> PartOf(m[role], role)
  }

  ghost predicate RowsHeld(roles: map<RoleName, RoleRow>) {
    forall role :: IsBuiltIn(role) ==> role in roles && roles[role].builtIn && PartOf(roles[role].grants, role)
  }

  ghost predicate Steady(s: State) {
    RowsHeld(s.db.roles)
    && (forall u :: u in s.db.users ==> u < s.db.next)
    && (forall r :: r in s.caches ==> Partial(s.caches[r]) && Publishable(s.caches[r]))
    && (forall k :: 0 <= k < |s.loads| ==> Partial(s.loads[k]))
  }

  /** Reading users and managing them are one row, so a map that may be published has both. */
  lemma PublishableManages(m: Matrix)
    requires Partial(m) && Publishable(m)
    ensures forall act :: Can(m, SuperAdmin, ResUsers, act)
    ensures Privileged(m, SuperAdmin)
  {
    assert IsBuiltIn(SuperAdmin) && PartOf(m[SuperAdmin], SuperAdmin);
    assert m[SuperAdmin][ResUsers] == Full;
    assert Can(m, SuperAdmin, ResUsers, Update);
  }

  lemma ActivePartial(cached: Option<Matrix>)
    requires cached.Some? ==> Partial(cached.value) && Publishable(cached.value)
    ensures Partial(Active(cached)) && Publishable(Active(cached))
  {}

  lemma PerformHoldsRows(db: Db, m: Matrix, caller: UserId, c: Call)
    requires RowsHeld(db.roles) && caller in db.users && forall u :: u in db.users ==> u < db.next
    ensures var db' := Perform(db, m, caller, c).0;
      RowsHeld(db'.roles) && forall u :: u in db'.users ==> u < db'.next
  {
    var roles := Perform(db, m, caller, c).0.roles;
    forall role | IsBuiltIn(role)
      ensures role in roles && roles[role].builtIn && roles[role].grants == db.roles[role].grants
    {}
  }

  lemma InstallSteady(s: State, db: Db, r: Replica, cached: Option<Matrix>)
    requires Steady(s) && RowsHeld(db.roles) && forall u :: u in db.users ==> u < db.next
    requires cached.Some? ==> Partial(cached.value) && Publishable(cached.value)
    ensures Steady(SetCache(s.(db := db), r, cached))
  {}

  lemma RespondSteady(db: Db, cached: Option<Matrix>, caller: UserId, c: Call)
    requires RowsHeld(db.roles) && forall u :: u in db.users ==> u < db.next
    requires cached.Some? ==> Partial(cached.value) && Publishable(cached.value)
    ensures var (db', cached', _) := Respond(db, cached, caller, c);
      RowsHeld(db'.roles) && (forall u :: u in db'.users ==> u < db'.next)
      && (cached'.Some? ==> Partial(cached'.value) && Publishable(cached'.value))
  {
    if Admitted(db, Active(cached), caller, c) {
      PerformHoldsRows(db, Active(cached), caller, c);
      var db' := Perform(db, Active(cached), caller, c).0;
      assert Partial(Snapshot(db'.roles));
    }
  }

  lemma RequestSteady(s: State, r: Replica, caller: UserId, c: Call)
    requires Steady(s)
    ensures var after := Respond(s.db, Cached(s, r), caller, c);
      Steady(SetCache(s.(db := after.0), r, after.1))
  {
    var after := Respond(s.db, Cached(s, r), caller, c);
    RespondSteady(s.db, Cached(s, r), caller, c);
    InstallSteady(s, after.0, r, after.1);
  }

  lemma SeedSteady(s: State)
    requires Steady(s)
    ensures Steady(Apply(s, SeedGrants))
  {
    SeedExactly(s.db.roles);
  }

  lemma LoadSteady(s: State, m: Matrix)
    requires Steady(s) && Partial(m)
    ensures Steady(s.(loads := s.loads + [m]))
  {}

  lemma ApplySteady(s: State, e: Event)
    requires Steady(s)
    ensures Steady(Apply(s, e))
  {
    match e
    case SeedGrants => SeedSteady(s);
    case SeedAdmin(email) =>
    case ClaimInvitation(email) =>
    case Restart(r) =>
    case Load => LoadSteady(s, Snapshot(s.db.roles));
    case Publish(r, k) =>
    case Request(r, caller, c) => RequestSteady(s, r, caller, c);
  }

  lemma TakeSteady(s: State, e: Step)
    requires Steady(s)
    ensures Steady(Take(s, e))
  {
    match e
    case Whole(event) => ApplySteady(s, event);
    case AddRow(role) =>
    case Wipe(role) =>
    case Fill(role, res) =>
    case ReadFor(names) => LoadSteady(s, GrantsOf(s.db.roles, names));
  }

  lemma {:induction false} WalkSteady(s: State, es: seq<Step>)
    requires Steady(s)
    ensures Steady(Walk(s, es))
  {
    if es != [] {
      WalkSteady(s, es[..|es| - 1]);
      TakeSteady(Walk(s, es[..|es| - 1]), es[|es| - 1]);
    }
  }

  lemma ReachableSteady(es: seq<Step>)
    ensures Steady(Walk(Seeded, es))
  {
    SeedExactly(map[]);
    WalkSteady(Seeded, es);
  }

  /**
   On every replica and at every moment a shipped role holds at most its shipped grants, and
   super_admin can read, create, update and delete users: no half-seeded map that lacks this is
   ever published.
   */
  lemma BuiltInsNeverExceed(es: seq<Step>, replica: Replica)
    ensures var m := Active(Cached(Walk(Seeded, es), replica));
      (forall role, res, act :: IsBuiltIn(role) && Can(m, role, res, act) ==> Holds(BuiltInGrants(role), res, act))
      && (forall act :: Can(m, SuperAdmin, ResUsers, act))
  {
    ReachableSteady(es);
    var cached := Cached(Walk(Seeded, es), replica);
    ActivePartial(cached);
    PublishableManages(Active(cached));
  }

  lemma RespondKeepsSeat(db: Db, cached: Option<Matrix>, caller: UserId, c: Call)
    requires Privileged(Active(cached), SuperAdmin) && db.next !in db.users && Guarded(db)
    ensures Guarded(Respond(db, cached, caller, c).0)
  {
    if Admitted(db, Active(cached), caller, c) {
      var u :| Seat(db, u);
      SeatKept(db, Active(cached), caller, c, if db.users[caller].role == SuperAdmin then caller else u);
    }
  }

  lemma TakeKeepsGuard(s: State, e: Step)
    requires Steady(s) && Guarded(s.db)
    ensures Guarded(Take(s, e).db)
  {
    if e.Whole? && e.event.Request? {
      var cached := Cached(s, e.event.replica);
      ActivePartial(cached);
      PublishableManages(Active(cached));
      RespondKeepsSeat(s.db, cached, e.event.caller, e.event.call);
    } else {
      var u :| Seat(s.db, u);
      assert Seat(Take(s, e).db, u);
    }
  }

  /** Half-seeded replicas included: once there is an active super_admin, there always is one. */
  lemma {:induction false} SuperAdminStays(es: seq<Step>, more: seq<Step>)
    requires Guarded(Walk(Seeded, es).db)
    ensures Guarded(Walk(Walk(Seeded, es), more).db)
  {
    if more != [] {
      var front := more[..|more| - 1];
      SuperAdminStays(es, front);
      ReachableSteady(es);
      WalkSteady(Walk(Seeded, es), front);
      TakeKeepsGuard(Walk(Walk(Seeded, es), front), more[|more| - 1]);
    }
  }

  // --- One boot alone --------------------------------------------------------------------------

  function Fills(role: RoleName, kept: seq<Resource>): seq<Step> {
    seq(|kept|, i requires 0 <= i < |kept| => Fill(role, kept[i]))
  }

  /** The statements a boot spends on one role, its permissions in any order. */
  function Reseed(role: RoleName, kept: seq<Resource>): seq<Step> {
    [AddRow(role), Wipe(role)] + Fills(role, kept)
  }

  function Restricted(role: RoleName, kept: seq<Resource>): Grants {
    map res | res in BuiltInGrants(role) && res in kept :: BuiltInGrants(role)[res]
  }

  lemma WalkSnoc(s: State, es: seq<Step>, e: Step)
    ensures Walk(s, es + [e]) == Take(Walk(s, es), e)
  {
    assert (es + [e])[..|es|] == es;
  }

  function RowFor(roles: map<RoleName, RoleRow>, role: RoleName): RoleRow {
    if role in roles then roles[role] else RoleRow(BuiltInLabel(role), true, map[])
  }

  lemma RestrictedSnoc(role: RoleName, front: seq<Resource>, res: Resource)
    ensures Restricted(role, front + [res]) ==
      if res in BuiltInGrants(role) then Restricted(role, front)[res := BuiltInGrants(role)[res]]
      else Restricted(role, front)
  {
    var all := front + [res];
    assert res in all && forall other :: other in front ==> other in all;
    assert forall other :: other in all ==> other in front || other == res;
  }

  lemma SetRowTwice(s: State, role: RoleName, first: RoleRow, second: RoleRow)
    ensures SetRow(SetRow(s, role, first), role, second) == SetRow(s, role, second)
    ensures role in s.db.roles ==> SetRow(s, role, s.db.roles[role]) == s
  {
    assert s.db.roles[role := first][role := second] == s.db.roles[role := second];
    if role in s.db.roles { assert s.db.roles[role := s.db.roles[role]] == s.db.roles; }
  }

  lemma WipedFirst(s: State, role: RoleName)
    requires IsBuiltIn(role)
    ensures Walk(s, Reseed(role, [])) == SetRow(s, role, RowFor(s.db.roles, role).(grants := map[]))
  {
    var row := RowFor(s.db.roles, role);
    assert Reseed(role, []) == [AddRow(role)] + [Wipe(role)];
    WalkSnoc(s, [AddRow(role)], Wipe(role));
    assert [] + [AddRow(role)] == [AddRow(role)];
    WalkSnoc(s, [], AddRow(role));
    SetRowTwice(s, role, row, row.(grants := map[]));
  }

  /** One more permission: a second attempt at the same one changes nothing. */
  lemma FilledNext(s: State, role: RoleName, front: seq<Resource>, res: Resource)
    requires IsBuiltIn(role)
    ensures var row := RowFor(s.db.roles, role);
      Take(SetRow(s, role, row.(grants := Restricted(role, front))), Fill(role, res)) ==
      SetRow(s, role, row.(grants := Restricted(role, front + [res])))
  {
    var row := RowFor(s.db.roles, role);
    var before, after := row.(grants := Restricted(role, front)), row.(grants := Restricted(role, front + [res]));
    RestrictedSnoc(role, front, res);
    if res in before.grants {
      assert after.grants == before.grants;
    } else {
      SetRowTwice(s, role, before, after);
    }
  }

  /** A boot that stops after some of a role's permissions leaves the role with just those. */
  lemma {:induction false} ReseedLeaves(s: State, role: RoleName, kept: seq<Resource>)
    requires IsBuiltIn(role)
    ensures Walk(s, Reseed(role, kept)) == SetRow(s, role, RowFor(s.db.roles, role).(grants := Restricted(role, kept)))
  {
    if kept == [] {
      WipedFirst(s, role);
      assert Restricted(role, kept) == map[];
    } else {
      var front, res := kept[..|kept| - 1], kept[|kept| - 1];
      assert kept == front + [res];
      ReseedLeaves(s, role, front);
      assert Reseed(role, kept) == Reseed(role, front) + [Fill(role, res)];
      WalkSnoc(s, Reseed(role, front), Fill(role, res));
      FilledNext(s, role, front, res);
    }
  }

  lemma RestrictedCan(m: Matrix, role: RoleName, kept: seq<Resource>)
    requires role in m && m[role] == Restricted(role, kept)
    ensures forall res, act :: Can(m, role, res, act) <==> res in kept && Holds(BuiltInGrants(role), res, act)
  {
    assert forall res :: res in BuiltInGrants(role) ==> BuiltInGrants(role)[res].scope != ScopeNone;
  }

  lemma PublishableExactly(m: Matrix)
    requires Partial(m) && SuperAdmin in m
    ensures Publishable(m) <==> ResUsers in m[SuperAdmin]
  {
    assert IsBuiltIn(SuperAdmin) && PartOf(m[SuperAdmin], SuperAdmin);
    assert ResUsers in m[SuperAdmin] ==> m[SuperAdmin][ResUsers] == Full;
  }

  /**
   Stopped there, a refresh publishes the half-seeded role as it stands, so that the role can do
   exactly what has been written back; unless it is super_admin's own users permission that is
   still missing, in which case the replica keeps what it had.
   */
  lemma InterruptedExactly(es: seq<Step>, role: RoleName, kept: seq<Resource>, cached: Option<Matrix>)
    requires IsBuiltIn(role)
    ensures var roles, after := Walk(Seeded, es).db.roles, Walk(Walk(Seeded, es), Reseed(role, kept)).db;
      (forall res, act :: Can(Snapshot(after.roles), role, res, act) <==>
        res in kept && Holds(BuiltInGrants(role), res, act))
      && SuperAdmin in roles
      && (var visible := if role == SuperAdmin then ResUsers in kept else ResUsers in roles[SuperAdmin].grants;
          Refreshed(after, cached) == if visible then Some(Snapshot(after.roles)) else cached)
  {
    var s := Walk(Seeded, es);
    ReachableSteady(es);
    ReseedLeaves(s, role, kept);
    WalkSteady(s, Reseed(role, kept));
    var m := Snapshot(Walk(s, Reseed(role, kept)).db.roles);
    RestrictedCan(m, role, kept);
    assert IsBuiltIn(SuperAdmin) && SuperAdmin in m && ResUsers in BuiltInGrants(SuperAdmin);
    PublishableExactly(m);
  }

  /** After the statements of a whole boot: the roles in any order, and so each one's permissions. */
  function Booted(s: State, order: seq<RoleName>, rows: map<RoleName, seq<Resource>>): State
    requires forall role :: role in order ==> role in rows
  {
    if order == [] then s
    else
      var last := order[|order| - 1];
      Walk(Booted(s, order[..|order| - 1], rows), Reseed(last, rows[last]))
  }

  lemma {:induction false} BootLeaves(s: State, order: seq<RoleName>, rows: map<RoleName, seq<Resource>>)
    requires forall role :: role in order ==> IsBuiltIn(role) && role in rows
    requires forall role, res :: role in order && res in BuiltInGrants(role) ==> res in rows[role]
    ensures var s' := Booted(s, order, rows);
      s' == s.(db := s.db.(roles := s'.db.roles))
      && (forall role :: role in s'.db.roles <==> role in s.db.roles || role in order)
      && (forall role :: role in s'.db.roles ==>
        s'.db.roles[role] ==
          (if role in order then RowFor(s.db.roles, role).(grants := BuiltInGrants(role)) else s.db.roles[role]))
  {
    if order != [] {
      var front, last := order[..|order| - 1], order[|order| - 1];
      assert order == front + [last];
      BootLeaves(s, front, rows);
      ReseedLeaves(Booted(s, front, rows), last, rows[last]);
      assert Restricted(last, rows[last]) == BuiltInGrants(last);
    }
  }

  /**
   A boot that runs to its end undisturbed comes to one atomic seeding, in whatever order it
   writes: so it mends whatever interrupted or interleaved boots have left behind.
   */
  lemma BootMends(s: State, order: seq<RoleName>, rows: map<RoleName, seq<Resource>>)
    requires forall role :: role in order <==> IsBuiltIn(role)
    requires forall role :: role in order ==> role in rows
    requires forall role, res :: role in order && res in BuiltInGrants(role) ==> res in rows[role]
    ensures Booted(s, order, rows) == Apply(s, SeedGrants)
  {
    BootLeaves(s, order, rows);
    SeedExactly(s.db.roles);
    var roles := Booted(s, order, rows).db.roles;
    forall role | role in roles ensures roles[role] == SeedRoles(s.db.roles)[role] {
      if IsBuiltIn(role) {
        assert SeedRole(s.db.roles, role)[role] == RowFor(s.db.roles, role).(grants := BuiltInGrants(role));
      }
    }
    assert roles == SeedRoles(s.db.roles);
  }
}
