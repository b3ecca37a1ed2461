/** The client's role policy (frontend/src/utils/roleUtils.js) and its relation to the backend role predicates. */
module RoleUtils {
  import opened Common
  import UserModel

  const ADMIN: string := "admin"
  const PUBLISHER: string := "publisher"
  const USER: string := "user"

  /**
   * The properties of a client-side user object that the client reads. A missing property is `None`;
   * any object (even the value `true`, whose properties are all missing) is truthy.
   */
  datatype ClientUser = ClientUser(id: Option<int>, role: Option<string>)

  /** `user.to_dict()` as received by the client: both properties are present. */
  function FromServer(u: UserModel.User): (c: Option<ClientUser>)
    ensures c.Some? && c.value.id == Some(u.id) && c.value.role == Some(u.role)
  {
    var view := UserModel.ToView(u);
    Some(ClientUser(Some(view.id), Some(view.role)))
  }

  /** Whether a present user has exactly the given role. */
  predicate HasRole(user: Option<ClientUser>, role: string)
  {
    user.Some? && user.value.role == Some(role)
  }

  /** `isAdmin`. */
  predicate IsAdmin(user: Option<ClientUser>)
  {
    HasRole(user, ADMIN)
  }

  /** `isPublisher`: unlike the backend, an admin is not a publisher here. */
  predicate IsPublisher(user: Option<ClientUser>)
  {
    HasRole(user, PUBLISHER)
  }

  /** `isRegularUser`. */
  predicate IsRegularUser(user: Option<ClientUser>)
  {
    HasRole(user, USER)
  }

  /** `canManageEvents`: admins and publishers. */
  function CanManageEvents(user: Option<ClientUser>): (r: bool)
    ensures r <==> user.Some? && (user.value.role == Some(ADMIN) || user.value.role == Some(PUBLISHER))
    ensures r ==> !IsRegularUser(user)
  {
    IsAdmin(user) || IsPublisher(user)
  }

  /** `getHomePageForUser`. */
  function GetHomePageForUser(user: Option<ClientUser>): (r: string)
    ensures r == "/admin" <==> IsAdmin(user)
    ensures r == "/my-events" <==> IsPublisher(user)
    ensures r == "/events" <==> !CanManageEvents(user)
    ensures user.None? ==> r == "/events"
  {
    if IsAdmin(user) then "/admin"
    else if IsPublisher(user) then "/my-events"
    else "/events"
  }

  /** `getRoleName`: the display name of a role value (which may itself be missing). */
  function GetRoleName(role: Option<string>): (r: string)
    ensures role == Some(ADMIN) <==> r == "Administrator"
    ensures role == Some(PUBLISHER) <==> r == "Platform Manager"
    ensures role == Some(USER) <==> r == "User"
    ensures role !in {Some(ADMIN), Some(PUBLISHER), Some(USER)} <==> r == "Guest"
  {
    if role == Some(ADMIN) then "Administrator"
    else if role == Some(PUBLISHER) then "Platform Manager"
    else if role == Some(USER) then "User"
    else "Guest"
  }

  /** For a user whose role is one of the three constants, exactly one of the three predicates holds. */
  lemma ExactlyOneRole(user: Option<ClientUser>)
    requires user.Some? && user.value.role in {Some(ADMIN), Some(PUBLISHER), Some(USER)}
    ensures IsAdmin(user) || IsPublisher(user) || IsRegularUser(user)
    ensures !(IsAdmin(user) && IsPublisher(user))
    ensures !(IsAdmin(user) && IsRegularUser(user))
    ensures !(IsPublisher(user) && IsRegularUser(user))
  {
  }

  /** No user, or a user without a recognised role, satisfies none of the three predicates. */
  lemma NoRoleNoPredicate(user: Option<ClientUser>)
    requires user.None? || user.value.role !in {Some(ADMIN), Some(PUBLISHER), Some(USER)}
    ensures !IsAdmin(user) && !IsPublisher(user) && !IsRegularUser(user)
    ensures !CanManageEvents(user) && GetHomePageForUser(user) == "/events"
  {
  }

  /**
   * Client and backend agree on who is an admin and on who may manage events, but disagree on the
   * name: a backend admin passes `is_publisher()` while the client's `isPublisher` is false for it.
   */
  lemma AgreesWithServer(u: UserModel.User)
    ensures IsAdmin(FromServer(u)) <==> UserModel.IsAdmin(u)
    ensures CanManageEvents(FromServer(u)) <==> UserModel.CanPublishEvents(u)
    ensures IsPublisher(FromServer(u)) <==> UserModel.IsPublisher(u) && !UserModel.IsAdmin(u)
    ensures IsRegularUser(FromServer(u)) <==> u.role == UserModel.USER
    ensures GetRoleName(Some(u.role)) == "Guest" <==> u.role !in {UserModel.ADMIN, UserModel.PUBLISHER, UserModel.USER}
  {
  }
}
