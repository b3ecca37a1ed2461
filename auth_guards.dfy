/** The decision logic of the `admin_required` and `publisher_required` decorators (app/utils/auth.py). */
module AuthGuards {
  import opened Common
  import opened UserModel

  const USER_NOT_FOUND: string := "User not found"
  const ADMIN_REQUIRED: string := "Admin privileges required"
  const PUBLISHER_REQUIRED: string := "Publisher privileges required"

  /** A guard either lets the wrapped handler run for the looked-up user or answers with an error. */
  datatype Guard = Pass(user: User) | Deny(status: int, message: string)

  /** `get_current_user`: the row whose id is the token's identity, if any. */
  function GetCurrentUser(users: map<int, User>, callerId: int): (u: Option<User>)
    ensures u.Some? <==> callerId in users
    ensures u.Some? ==> u.value == users[callerId]
  {
    if callerId in users then Some(users[callerId]) else None
  }

  /** `admin_required`: a missing user is reported before the role is looked at. */
  function AdminRequired(users: map<int, User>, callerId: int): (g: Guard)
    ensures callerId !in users ==> g == Deny(404, USER_NOT_FOUND)
    ensures callerId in users && !IsAdmin(users[callerId]) ==> g == Deny(403, ADMIN_REQUIRED)
    ensures g.Pass? <==> callerId in users && IsAdmin(users[callerId])
    ensures g.Pass? ==> g.user == users[callerId]
  {
    match GetCurrentUser(users, callerId)
    case None => Deny(404, USER_NOT_FOUND)
    case Some(u) => if !IsAdmin(u) then Deny(403, ADMIN_REQUIRED) else Pass(u)
  }

  /** `publisher_required`: admins pass too, because `is_publisher` holds for them. */
  function PublisherRequired(users: map<int, User>, callerId: int): (g: Guard)
    ensures callerId !in users ==> g == Deny(404, USER_NOT_FOUND)
    ensures callerId in users && !IsPublisher(users[callerId]) ==> g == Deny(403, PUBLISHER_REQUIRED)
    ensures g.Pass? <==> callerId in users && IsPublisher(users[callerId])
    ensures g.Pass? ==> g.user == users[callerId]
  {
    match GetCurrentUser(users, callerId)
    case None => Deny(404, USER_NOT_FOUND)
    case Some(u) => if !IsPublisher(u) then Deny(403, PUBLISHER_REQUIRED) else Pass(u)
  }

  /** Whoever passes the admin guard passes the publisher guard; a regular user passes neither. */
  lemma GuardsAreNested(users: map<int, User>, callerId: int)
    ensures AdminRequired(users, callerId).Pass? ==> PublisherRequired(users, callerId).Pass?
    ensures callerId in users && users[callerId].role == USER ==>
              AdminRequired(users, callerId) == Deny(403, ADMIN_REQUIRED) &&
              PublisherRequired(users, callerId) == Deny(403, PUBLISHER_REQUIRED)
  {
  }
}
