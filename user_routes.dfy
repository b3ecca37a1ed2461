/** The handlers of the users blueprint (app/routes/users.py): lookups and the admin role-transition table. */
module UserRoutes {
  import opened Common
  import opened UserModel
  import opened AuthGuards
  import opened Store
  import AuthRoutes

  const PERMISSION_DENIED: string := "Permission denied"
  const ALREADY_PUBLISHER: string := "User is already a publisher"
  const ADMIN_HAS_PUBLISHER: string := "Admin users already have publisher privileges"
  const ALREADY_ADMIN: string := "User is already an admin"
  const SELF_REVOKE: string := "Cannot revoke your own admin privileges"
  const ALREADY_REGULAR: string := "User already has regular privileges"

  /** `get_users`: every user's view, for admins only. */
  function GetUsers(users: map<int, User>, caller: int): (r: Reply<map<int, UserView>>)
    ensures r.Ok? <==> AdminRequired(users, caller).Pass?
    ensures r.Fail? ==> r == Fail(AdminRequired(users, caller).status, AdminRequired(users, caller).message)
    ensures r.Ok? ==> r.status == 200 && r.body.Keys == users.Keys
    ensures r.Ok? ==> forall id :: id in r.body ==> r.body[id] == ToView(users[id])
  {
    match AdminRequired(users, caller)
    case Deny(status, message) => Fail(status, message)
    case Pass(_) => Ok(200, map id | id in users :: ToView(users[id]))
  }

  /** `get_user`: a non-admin asking about somebody else is refused before the id is even looked up. */
  function GetUser(users: map<int, User>, caller: int, userId: int): (r: Reply<UserView>)
    requires UsersValid(users) && caller in users
    ensures !IsAdmin(users[caller]) && caller != userId ==> r == Fail(403, PERMISSION_DENIED)
    ensures (IsAdmin(users[caller]) || caller == userId) && userId !in users ==> r == Fail(404, USER_NOT_FOUND)
    ensures r.Ok? <==> (IsAdmin(users[caller]) || caller == userId) && userId in users
    ensures r.Ok? ==> r == Ok(200, ToView(users[userId]))
  {
    var current := users[caller];
    if !IsAdmin(current) && current.id != userId then Fail(403, PERMISSION_DENIED)
    else if userId !in users then Fail(404, USER_NOT_FOUND)
    else Ok(200, ToView(users[userId]))
  }

  /** `get_publishers`: the views of exactly the users whose role is `'publisher'` or `'admin'`. */
  function GetPublishers(users: map<int, User>): (r: map<int, UserView>)
    ensures forall id :: id in r <==> id in users && (users[id].role == PUBLISHER || users[id].role == ADMIN)
    ensures forall id :: id in r ==> r[id] == ToView(users[id]) && IsPublisher(users[id])
  {
    map id | id in users && users[id].role in [PUBLISHER, ADMIN] :: ToView(users[id])
  }

  /** The table with one user's role replaced. */
  function WithRole(users: map<int, User>, userId: int, role: string): (r: map<int, User>)
    requires userId in users
    ensures r.Keys == users.Keys && r[userId] == users[userId].(role := role)
    ensures forall id :: id in users && id != userId ==> r[id] == users[id]
  {
    users[userId := users[userId].(role := role)]
  }

  /** Changing a role keeps the table valid: ids, usernames and emails are untouched. */
  lemma WithRoleKeepsValid(users: map<int, User>, events: map<int, EventModel.Event>, userId: int, role: string)
    requires UsersValid(users) && EventsValid(users, events) && userId in users
    ensures UsersValid(WithRole(users, userId, role)) && EventsValid(WithRole(users, userId, role), events)
  {
  }

  /** `make_publisher`: missing (404), already a publisher (400), an admin (400), else the role becomes `'publisher'`. */
  method MakePublisher(db: Database, caller: int, userId: int) returns (r: Reply<UserView>)
    requires db.Valid()
    modifies db
    ensures db.Valid()
    ensures db.events == old(db.events) && db.nextUserId == old(db.nextUserId) && db.nextEventId == old(db.nextEventId)
    ensures AdminRequired(old(db.users), caller).Deny? ==>
              r == Fail(AdminRequired(old(db.users), caller).status, AdminRequired(old(db.users), caller).message)
    ensures AdminRequired(old(db.users), caller).Pass? ==>
              && (userId !in old(db.users) ==> r == Fail(404, USER_NOT_FOUND))
              && (userId in old(db.users) && old(db.users)[userId].role == PUBLISHER ==> r == Fail(400, ALREADY_PUBLISHER))
              && (userId in old(db.users) && old(db.users)[userId].role == ADMIN ==> r == Fail(400, ADMIN_HAS_PUBLISHER))
    ensures r.Fail? ==> db.users == old(db.users)
    ensures r.Ok? <==> AdminRequired(old(db.users), caller).Pass? && userId in old(db.users) &&
                       old(db.users)[userId].role != PUBLISHER && old(db.users)[userId].role != ADMIN
    ensures r.Ok? ==> db.users == WithRole(old(db.users), userId, PUBLISHER) && r == Ok(200, ToView(db.users[userId]))
  {
    var g := AdminRequired(db.users, caller);
    if g.Deny? {
      return Fail(g.status, g.message);
    }
    if userId !in db.users {
      return Fail(404, USER_NOT_FOUND);
    }
    var user := db.users[userId];
    if user.role == PUBLISHER {
      return Fail(400, ALREADY_PUBLISHER);
    }
    if user.role == ADMIN {
      return Fail(400, ADMIN_HAS_PUBLISHER);
    }
    WithRoleKeepsValid(db.users, db.events, userId, PUBLISHER);
    db.users := WithRole(db.users, userId, PUBLISHER);
    r := Ok(200, ToView(db.users[userId]));
  }

  /** `make_admin`: missing (404), already an admin (400), else the role becomes `'admin'`. */
  method MakeAdmin(db: Database, caller: int, userId: int) returns (r: Reply<UserView>)
    requires db.Valid()
    modifies db
    ensures db.Valid()
    ensures db.events == old(db.events) && db.nextUserId == old(db.nextUserId) && db.nextEventId == old(db.nextEventId)
    ensures AdminRequired(old(db.users), caller).Deny? ==>
              r == Fail(AdminRequired(old(db.users), caller).status, AdminRequired(old(db.users), caller).message)
    ensures AdminRequired(old(db.users), caller).Pass? ==>
              && (userId !in old(db.users) ==> r == Fail(404, USER_NOT_FOUND))
              && (userId in old(db.users) && old(db.users)[userId].role == ADMIN ==> r == Fail(400, ALREADY_ADMIN))
    ensures r.Fail? ==> db.users == old(db.users)
    ensures r.Ok? <==> AdminRequired(old(db.users), caller).Pass? && userId in old(db.users) && old(db.users)[userId].role != ADMIN
    ensures r.Ok? ==> db.users == WithRole(old(db.users), userId, ADMIN) && r == Ok(200, ToView(db.users[userId]))
  {
    var g := AdminRequired(db.users, caller);
    if g.Deny? {
      return Fail(g.status, g.message);
    }
    if userId !in db.users {
      return Fail(404, USER_NOT_FOUND);
    }
    if db.users[userId].role == ADMIN {
      return Fail(400, ALREADY_ADMIN);
    }
    WithRoleKeepsValid(db.users, db.events, userId, ADMIN);
    db.users := WithRole(db.users, userId, ADMIN);
    r := Ok(200, ToView(db.users[userId]));
  }

  /**
   * `revoke_privileges`: self-revocation is refused (400) before the target is looked up; then
   * missing (404), already `'user'` (400), else the role becomes `'user'`.
   */
  method RevokePrivileges(db: Database, caller: int, userId: int) returns (r: Reply<UserView>)
    requires db.Valid()
    modifies db
    ensures db.Valid()
    ensures db.events == old(db.events) && db.nextUserId == old(db.nextUserId) && db.nextEventId == old(db.nextEventId)
    ensures AdminRequired(old(db.users), caller).Deny? ==>
              r == Fail(AdminRequired(old(db.users), caller).status, AdminRequired(old(db.users), caller).message)
    ensures AdminRequired(old(db.users), caller).Pass? ==>
              && (caller == userId ==> r == Fail(400, SELF_REVOKE))
              && (caller != userId && userId !in old(db.users) ==> r == Fail(404, USER_NOT_FOUND))
              && (caller != userId && userId in old(db.users) && old(db.users)[userId].role == USER ==> r == Fail(400, ALREADY_REGULAR))
    ensures r.Fail? ==> db.users == old(db.users)
    ensures r.Ok? <==> AdminRequired(old(db.users), caller).Pass? && caller != userId && userId in old(db.users) &&
                       old(db.users)[userId].role != USER
    ensures r.Ok? ==> db.users == WithRole(old(db.users), userId, USER) && r == Ok(200, ToView(db.users[userId]))
  {
    var g := AdminRequired(db.users, caller);
    if g.Deny? {
      return Fail(g.status, g.message);
    }
    if g.user.id == userId {
      return Fail(400, SELF_REVOKE);
    }
    if userId !in db.users {
      return Fail(404, USER_NOT_FOUND);
    }
    if db.users[userId].role == USER {
      return Fail(400, ALREADY_REGULAR);
    }
    WithRoleKeepsValid(db.users, db.events, userId, USER);
    db.users := WithRole(db.users, userId, USER);
    r := Ok(200, ToView(db.users[userId]));
  }

  /** An admin can never strip their own role, so a database with an admin keeps at least one after any revocation. */
  lemma RevokeKeepsCallerAdmin(users: map<int, User>, caller: int, userId: int)
    requires AdminRequired(users, caller).Pass? && caller != userId && userId in users
    ensures IsAdmin(WithRole(users, userId, USER)[caller])
  {
  }

  /** `register_publisher`: the registration checks, then a new row whose role is `'publisher'`. */
  method RegisterPublisher(db: Database, caller: int, data: AuthRoutes.RegistrationPayload,
                           validate: string -> AuthRoutes.EmailCheck) returns (r: Reply<UserView>)
    requires db.Valid()
    modifies db
    ensures db.Valid()
    ensures db.events == old(db.events) && db.nextEventId == old(db.nextEventId)
    ensures AdminRequired(old(db.users), caller).Deny? ==>
              r == Fail(AdminRequired(old(db.users), caller).status, AdminRequired(old(db.users), caller).message)
    ensures AdminRequired(old(db.users), caller).Pass? && AuthRoutes.CheckRegistration(old(db.users), data, validate).Refused? ==>
              r == Fail(400, AuthRoutes.CheckRegistration(old(db.users), data, validate).message)
    ensures r.Fail? ==> db.users == old(db.users) && db.nextUserId == old(db.nextUserId)
    ensures r.Ok? <==> AdminRequired(old(db.users), caller).Pass? && AuthRoutes.CheckRegistration(old(db.users), data, validate).Accepted?
    ensures r.Ok? ==> && r.status == 201
                      && r.body.role == PUBLISHER
                      && r.body.username == data.username.value
                      && r.body.email == AuthRoutes.CheckRegistration(old(db.users), data, validate).email
                      && r.body.id !in old(db.users) && r.body.id in db.users
                      && db.users == old(db.users)[r.body.id := db.users[r.body.id]]
                      && r.body == ToView(db.users[r.body.id])
                      && db.users[r.body.id].password == data.password.value
  {
    var g := AdminRequired(db.users, caller);
    if g.Deny? {
      return Fail(g.status, g.message);
    }
    var check := AuthRoutes.CheckRegistration(db.users, data, validate);
    if check.Refused? {
      return Fail(400, check.message);
    }
    var u := AuthRoutes.InsertUser(db, data, check.email, Some(PUBLISHER));
    r := Ok(201, ToView(u));
  }
}
