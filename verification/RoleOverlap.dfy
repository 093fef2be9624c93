/**
 Account and role handlers that overlap. Each looks its row up, checks, and then writes by id; a
 second handler may write in between. These lemmas say exactly when that costs the last
 super_admin, or leaves an account with a role that is gone.
 */
module RoleOverlap {
  import opened Common
  import opened Roles
  import opened RoleTheorems

  /** A call whose checks have passed and which is about to write, with its caller as let in. */
  datatype Ticket = Ticket(caller: UserId, role: RoleName, m: Matrix, call: Call)

  predicate Checked(c: Call) { c.DeleteRole? || c.CreateUser? || c.UpdateUser? || c.DeleteUser? }

  /** The whole handler, the caller's role being the one that was read when he was let in. */
  function Handled(db: Db, t: Ticket): (Db, Reply)
    requires Checked(t.call)
  {
    match t.call
    case DeleteRole(name) => DoDeleteRole(db, name)
    case CreateUser(email, fullName, ok, asked) => DoCreateUser(db, t.m, t.role, email, fullName, ok, asked)
    case UpdateUser(target, active, to) => DoUpdateUser(db, t.m, t.caller, t.role, target, active, to)
    case DeleteUser(target) => DoDeleteUser(db, t.caller, t.role, target)
  }

  function RoleAsked(asked: RoleName): RoleName { if asked == Named("") then Admissions else asked }

  /** The write alone. Only the unique index on addresses still refuses anything. */
  function Put(db: Db, c: Call): Db
    requires Checked(c)
  {
    match c
    case DeleteRole(name) => db.(roles := db.roles - {name})
    case CreateUser(email, _, _, asked) =>
      if EmailTaken(db.users, email) then db else Insert(db, User(email, RoleAsked(asked), true))
    case UpdateUser(target, active, to) =>
      if target !in db.users then db
      else
        var u := db.users[target];
        db.(users := db.users[target := User(u.email, if to.Some? then to.value else u.role,
                                             if active.Some? then active.value else u.active)])
    case DeleteUser(target) => db.(users := db.users - {target})
  }

  /** A write whose checks would pass again is the handler served whole. */
  lemma PutIsWhole(db: Db, t: Ticket)
    requires Checked(t.call) && Handled(db, t).1 == Done
    ensures Handled(db, t).0 == Put(db, t.call)
  {}

  // --- The last super_admin --------------------------------------------------------------------

  /** The write takes u's seat, if he has one. */
  predicate Unseats(c: Call, u: UserId) {
    match c
    case DeleteUser(target) => target == u
    case UpdateUser(target, active, to) =>
      target == u && (active == Some(false) || (to.Some? && to.value != SuperAdmin))
    case _ => false
  }

  /** A seat survives the write exactly if it is not the one taken. */
  lemma SeatExactly(db: Db, c: Call, u: UserId)
    requires Checked(c) && Seat(db, u) && u < db.next
    ensures Seat(Put(db, c), u) <==> !Unseats(c, u)
  {}

  /**
   A write that takes a super_admin's seat leaves nobody exactly when no one else has one as it
   runs. So its caller, who had one when he was let in, has lost it since.
   */
  lemma LastSeatExactly(db: Db, t: Ticket, u: UserId)
    requires UsersOk(db) && Checked(t.call) && Seat(db, u) && Unseats(t.call, u) && t.caller != u
    ensures Guarded(Put(db, t.call)) <==> exists v :: v != u && Seat(db, v)
    ensures !Guarded(Put(db, t.call)) ==> !Seat(db, t.caller)
  {
    SeatExactly(db, t.call, u);
    if v :| v != u && Seat(db, v) {
      SeatExactly(db, t.call, v);
      assert Seat(Put(db, t.call), v);
    }
    if v :| Seat(Put(db, t.call), v) {
      assert v != u && Seat(db, v);
    }
  }

  /** Two super_admins who delete each other at once, each let in and checked before either writes. */
  lemma MutualRemoval(db: Db, m: Matrix, a: UserId, b: UserId)
    requires a != b && Seat(db, a) && Seat(db, b) && forall v :: Seat(db, v) ==> v == a || v == b
    ensures Handled(db, Ticket(a, SuperAdmin, m, DeleteUser(b))).1 == Done
    ensures Handled(db, Ticket(b, SuperAdmin, m, DeleteUser(a))).1 == Done
    ensures Guarded(db) && !Guarded(Put(Put(db, DeleteUser(b)), DeleteUser(a)))
  {
    var after := Put(Put(db, DeleteUser(b)), DeleteUser(a));
    forall v ensures !Seat(after, v) {
      if Seat(after, v) { assert Seat(db, v); }
    }
  }

  // --- Accounts and their roles ------------------------------------------------------------------

  ghost predicate RolesHeld(db: Db) {
    forall u :: u in db.users ==> Assignable(db, db.users[u].role)
  }

  /** The role a write gives to an account. */
  function Given(c: Call): Option<RoleName> {
    match c
    case CreateUser(_, _, _, asked) => Some(RoleAsked(asked))
    case UpdateUser(_, _, to) => to
    case _ => None
  }

  /** An account written with a role has one exactly if the role has not been deleted since it was checked. */
  lemma GivenExactly(db: Db, c: Call)
    requires RolesHeld(db) && db.next !in db.users && Checked(c) && Given(c).Some? && Put(db, c) != db
    ensures RolesHeld(Put(db, c)) <==> Assignable(db, Given(c).value)
  {
    var who, db' := if c.CreateUser? then db.next else c.target, Put(db, c);
    assert who in db'.users && db'.users[who].role == Given(c).value;
    forall u | u in db'.users && u != who ensures u in db.users && db'.users[u] == db.users[u] {}
  }

  /** And a role deleted leaves nobody without one exactly if no account has got it since the count. */
  lemma DroppedExactly(db: Db, name: RoleName)
    requires RolesHeld(db) && !IsBuiltIn(name)
    ensures RolesHeld(Put(db, DeleteRole(name))) <==> forall u :: u in db.users ==> db.users[u].role != name
  {}

  /** A role given out and deleted at once: both checks pass, and the new account's role is gone. */
  lemma OrphanedAccount(db: Db, m: Matrix, caller: UserId, name: RoleName, email: string, fullName: string)
    requires UsersOk(db) && name in db.roles && !db.roles[name].builtIn && !IsBuiltIn(name) && name != Named("")
    requires !Assigned(db.users, name) && '@' in email && fullName != "" && !EmailTaken(db.users, email)
    ensures var create := CreateUser(email, fullName, true, name);
      Handled(db, Ticket(caller, SuperAdmin, m, create)).1 == Done
      && Handled(db, Ticket(caller, SuperAdmin, m, DeleteRole(name))).1 == Done
      && RolesHeld(db) && !RolesHeld(Put(Put(db, DeleteRole(name)), create))
  {
    var create := CreateUser(email, fullName, true, name);
    var after := Put(Put(db, DeleteRole(name)), create);
    assert db.next in after.users && after.users[db.next].role == name;
  }
}
