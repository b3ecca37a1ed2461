/** The backend `User` row and its role predicates (app/models/user.py). */
module UserModel {
  import opened Common

  /** The three role strings of `UserRole`. */
  const ADMIN: string := "admin"
  const PUBLISHER: string := "publisher"
  const USER: string := "user"

  /**
   * A stored user. The role column is a free string; only the three constants above are ever
   * written by the handlers. The password is kept as the string the user chose: hashing is opaque.
   */
  datatype User = User(id: int, username: string, email: string, password: string, role: string)

  /** What a reply shows of a user (`to_dict`): every column but the password hash; the timestamps are not modelled. */
  datatype UserView = UserView(id: int, username: string, email: string, role: string)

  /** `to_dict`. */
  function ToView(u: User): UserView
  {
    UserView(u.id, u.username, u.email, u.role)
  }

  /** A reply tells nothing about the password: two users have the same view exactly when only their passwords differ. */
  lemma ViewHidesPassword(a: User, b: User)
    ensures ToView(a) == ToView(b) <==> a.(password := b.password) == b
  {
  }

  /** `User.__init__`: the role defaults to `'user'` when none is passed. */
  function NewUser(id: int, username: string, email: string, password: string, role: Option<string>): (u: User)
    ensures u.id == id && u.username == username && u.email == email && u.password == password
    ensures role.None? ==> u.role == USER && !IsAdmin(u) && !IsPublisher(u)
    ensures role.Some? ==> u.role == role.value
  {
    User(id, username, email, password, match role case Some(r) => r case None => USER)
  }

  /** `check_password`: the bcrypt comparison, modelled as equality with the chosen password. */
  predicate CheckPassword(u: User, password: string)
  {
    u.password == password
  }

  /** `is_admin`. */
  predicate IsAdmin(u: User)
  {
    u.role == ADMIN
  }

  /** `is_publisher`: publishers and admins alike. */
  function IsPublisher(u: User): (r: bool)
    ensures IsAdmin(u) ==> r
    ensures u.role == USER ==> !r
    ensures r ==> u.role == PUBLISHER || IsAdmin(u)
  {
    u.role == PUBLISHER || u.role == ADMIN
  }

  /** `can_publish_events` delegates to `is_publisher`. */
  function CanPublishEvents(u: User): (r: bool)
    ensures r <==> u.role == PUBLISHER || u.role == ADMIN
  {
    IsPublisher(u)
  }

  /** `can_manage_publishers` delegates to `is_admin`. */
  function CanManagePublishers(u: User): (r: bool)
    ensures r <==> u.role == ADMIN
  {
    IsAdmin(u)
  }

  /** The role constants are pairwise distinct, so each stored role satisfies at most one of them. */
  lemma RoleConstantsDistinct()
    ensures ADMIN != PUBLISHER && ADMIN != USER && PUBLISHER != USER
  {
  }

  /** A user whose role is `'user'` has neither admin nor publisher privileges; a publisher is not an admin. */
  lemma RolesAreExclusive(u: User)
    ensures u.role == USER ==> !IsAdmin(u) && !IsPublisher(u)
    ensures u.role == PUBLISHER ==> IsPublisher(u) && !IsAdmin(u)
    ensures u.role == ADMIN ==> IsPublisher(u) && IsAdmin(u)
  {
  }
}
