/** The `register`, `login` and `me` handlers of the auth blueprint (app/routes/auth.py). */
module AuthRoutes {
  import opened Common
  import opened UserModel
  import opened Store
  import AuthGuards

  const MISSING_FIELDS: string := "Missing required fields"
  const USERNAME_EXISTS: string := "Username already exists"
  const EMAIL_EXISTS: string := "Email already exists"
  const MISSING_CREDENTIALS: string := "Missing email or password"
  const INVALID_CREDENTIALS: string := "Invalid email or password"

  /** The answer of `email_validator.validate_email`: the normalised address, or the reason it was rejected. */
  datatype EmailCheck = ValidEmail(normalized: string) | InvalidEmail(reason: string)

  /** The JSON body of a registration; `None` is an absent key. */
  datatype RegistrationPayload = RegistrationPayload(username: Option<string>, email: Option<string>, password: Option<string>)

  /** The JSON body of a login; `None` is an absent key. */
  datatype LoginPayload = LoginPayload(email: Option<string>, password: Option<string>)

  /** The body of a successful login: the user and the two minted tokens. */
  datatype LoginBody = LoginBody(user: UserView, accessToken: string, refreshToken: string)

  predicate UsernameTaken(users: map<int, User>, username: string)
  {
    exists id | id in users :: users[id].username == username
  }

  predicate EmailTaken(users: map<int, User>, email: string)
  {
    exists id | id in users :: users[id].email == email
  }

  /** The verdict of the registration checks: the normalised email to store, or the message of the 400 reply. */
  datatype Checked = Accepted(email: string) | Refused(message: string)

  /**
   * The guard chain shared by `register` and `register_publisher`: missing fields, then a taken
   * username, then the email validator's verdict, then a taken (normalised) email.
   */
  function CheckRegistration(users: map<int, User>, data: RegistrationPayload, validate: string -> EmailCheck): (r: Checked)
    ensures data.username.None? || data.email.None? || data.password.None? ==> r == Refused(MISSING_FIELDS)
    ensures data.username.Some? && data.email.Some? && data.password.Some? ==>
              var name, check := data.username.value, validate(data.email.value);
              && (UsernameTaken(users, name) ==> r == Refused(USERNAME_EXISTS))
              && (!UsernameTaken(users, name) && check.InvalidEmail? ==> r == Refused(check.reason))
              && (!UsernameTaken(users, name) && check.ValidEmail? && EmailTaken(users, check.normalized) ==> r == Refused(EMAIL_EXISTS))
    ensures r.Accepted? ==> && data.username.Some? && data.email.Some? && data.password.Some?
                            && !UsernameTaken(users, data.username.value)
                            && validate(data.email.value) == ValidEmail(r.email)
                            && !EmailTaken(users, r.email)
  {
    if data.username.None? || data.email.None? || data.password.None? then Refused(MISSING_FIELDS)
    else if UsernameTaken(users, data.username.value) then Refused(USERNAME_EXISTS)
    else match validate(data.email.value)
      case InvalidEmail(reason) => Refused(reason)
      case ValidEmail(email) => if EmailTaken(users, email) then Refused(EMAIL_EXISTS) else Accepted(email)
  }

  /** A username is checked before the email is even validated. */
  lemma UsernameCheckedFirst(users: map<int, User>, data: RegistrationPayload, validate: string -> EmailCheck)
    requires data.username.Some? && data.email.Some? && data.password.Some?
    requires UsernameTaken(users, data.username.value)
    ensures CheckRegistration(users, data, validate) == Refused(USERNAME_EXISTS)
  {
  }

  /**
   * Inserts a user the chain accepted, with the next id and the given role. The table stays valid:
   * the username and the normalised email were both unused.
   */
  method InsertUser(db: Database, data: RegistrationPayload, email: string, role: Option<string>) returns (u: User)
    requires db.Valid()
    requires data.username.Some? && data.password.Some?
    requires !UsernameTaken(db.users, data.username.value) && !EmailTaken(db.users, email)
    modifies db
    ensures db.Valid()
    ensures u == NewUser(old(db.nextUserId), data.username.value, email, data.password.value, role)
    ensures old(db.nextUserId) !in old(db.users)
    ensures db.users == old(db.users)[u.id := u] && |db.users| == |old(db.users)| + 1
    ensures db.events == old(db.events) && db.nextEventId == old(db.nextEventId) && db.nextUserId == old(db.nextUserId) + 1
  {
    var id := db.nextUserId;
    u := NewUser(id, data.username.value, email, data.password.value, role);
    assert id !in db.users;
    db.users := db.users[id := u];
    db.nextUserId := id + 1;
  }

  /** `register`: on success the user table grows by exactly one row, whose role is `'user'`. */
  method Register(db: Database, data: RegistrationPayload, validate: string -> EmailCheck) returns (r: Reply<UserView>)
    requires db.Valid()
    modifies db
    ensures db.Valid()
    ensures db.events == old(db.events) && db.nextEventId == old(db.nextEventId)
    ensures CheckRegistration(old(db.users), data, validate).Refused? ==>
              r == Fail(400, CheckRegistration(old(db.users), data, validate).message) && db.users == old(db.users)
    ensures r.Ok? <==> CheckRegistration(old(db.users), data, validate).Accepted?
    ensures r.Ok? ==> && r.status == 201
                      && r.body.role == USER
                      && r.body.username == data.username.value
                      && r.body.email == CheckRegistration(old(db.users), data, validate).email
                      && r.body.id !in old(db.users) && r.body.id in db.users
                      && db.users == old(db.users)[r.body.id := db.users[r.body.id]]
                      && r.body == ToView(db.users[r.body.id])
                      && db.users[r.body.id].password == data.password.value
                      && |db.users| == |old(db.users)| + 1
  {
    var check := CheckRegistration(db.users, data, validate);
    if check.Refused? {
      return Fail(400, check.message);
    }
    var u := InsertUser(db, data, check.email, None);
    r := Ok(201, ToView(u));
  }

  /** The user a login names: the row with that exact email, if any (emails are unique). */
  function FindByEmail(users: map<int, User>, email: string): (r: Option<User>)
    requires UsersValid(users)
    ensures r.Some? <==> EmailTaken(users, email)
    ensures r.Some? ==> r.value.id in users && users[r.value.id] == r.value && r.value.email == email
  {
    if EmailTaken(users, email) then
      var id :| id in users && users[id].email == email;
      Some(users[id])
    else None
  }

  /**
   * `login`. An unknown email and a wrong password get the identical 401; a success returns the user
   * and the two tokens (minted by the JWT library, here given as opaque strings).
   */
  function Login(users: map<int, User>, data: LoginPayload, accessToken: string, refreshToken: string): (r: Reply<LoginBody>)
    requires UsersValid(users)
    ensures data.email.None? || data.password.None? ==> r == Fail(400, MISSING_CREDENTIALS)
    ensures data.email.Some? && data.password.Some? && r.Fail? ==> r == Fail(401, INVALID_CREDENTIALS)
    ensures r.Ok? <==> && data.email.Some? && data.password.Some?
                       && exists id | id in users :: users[id].email == data.email.value && CheckPassword(users[id], data.password.value)
    ensures r.Ok? ==> && r.status == 200
                      && r.body.user.id in users && r.body.user == ToView(users[r.body.user.id])
                      && CheckPassword(users[r.body.user.id], data.password.value)
                      && r.body.user.email == data.email.value
                      && r.body.accessToken == accessToken && r.body.refreshToken == refreshToken
  {
    if data.email.None? || data.password.None? then Fail(400, MISSING_CREDENTIALS)
    else match FindByEmail(users, data.email.value)
      case None => Fail(401, INVALID_CREDENTIALS)
      case Some(user) =>
        if !CheckPassword(user, data.password.value) then Fail(401, INVALID_CREDENTIALS)
        else Ok(200, LoginBody(ToView(user), accessToken, refreshToken))
  }

  /** `get_me`: the `to_dict` view of the user the token names, or 404 `User not found` when that row is gone. */
  function GetMe(users: map<int, User>, identity: int): (r: Reply<UserView>)
    requires UsersValid(users)
    ensures r.Ok? <==> identity in users
    ensures r.Fail? ==> r == Fail(404, AuthGuards.USER_NOT_FOUND)
    ensures r.Ok? ==> r.status == 200 && r.body.id == identity && r.body == ToView(users[identity])
  {
    match AuthGuards.GetCurrentUser(users, identity)
    case None => Fail(404, AuthGuards.USER_NOT_FOUND)
    case Some(user) => Ok(200, ToView(user))
  }

  /** The session check after a login: `/me` with the identity of the logged-in user answers the user the login returned. */
  lemma LoginThenMe(users: map<int, User>, data: LoginPayload, accessToken: string, refreshToken: string)
    requires UsersValid(users) && Login(users, data, accessToken, refreshToken).Ok?
    ensures GetMe(users, Login(users, data, accessToken, refreshToken).body.user.id)
            == Ok(200, Login(users, data, accessToken, refreshToken).body.user)
  {
  }
}
