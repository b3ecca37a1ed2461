/** The `AdminRoute` guard component (frontend/src/components/AdminRoute.js). */
module AdminRoute {
  import opened Common
  import UserModel
  import opened RoleUtils
  import opened ClientCommon

  /** Spinner while loading; otherwise non-admins (including no user) are sent to `/`, admins see the children. */
  function Guard(loading: bool, currentUser: Option<ClientUser>): (s: Screen)
    ensures loading ==> s == Spinner
    ensures !loading && !IsAdmin(currentUser) ==> s == Redirect("/")
    ensures s == Children <==> !loading && IsAdmin(currentUser)
  {
    if loading then Spinner
    else if !IsAdmin(currentUser) then Redirect("/")
    else Children
  }

  /** The outcome depends on nothing but `loading` and `isAdmin(currentUser)`. */
  lemma GuardDependsOnlyOnAdmin(loading: bool, a: Option<ClientUser>, b: Option<ClientUser>)
    requires IsAdmin(a) == IsAdmin(b)
    ensures Guard(loading, a) == Guard(loading, b)
  {
  }

  /** A backend admin passes the guard once loading is over, and every other backend role is redirected. */
  lemma GuardAgreesWithServer(u: UserModel.User)
    ensures Guard(false, FromServer(u)) == (if UserModel.IsAdmin(u) then Children else Redirect("/"))
  {
    AgreesWithServer(u);
  }
}
