/** The landing redirect of the `Home` page (frontend/src/pages/Home.js). */
module HomePage {
  import opened Common
  import opened RoleUtils
  import opened ClientCommon

  /** Spinner while loading; then a logged-in user goes to their role's home page and nobody to `/events`. */
  function Landing(loading: bool, currentUser: Option<ClientUser>): (s: Screen)
    ensures loading ==> s == Spinner
    ensures !loading && currentUser.Some? ==> s == Redirect(GetHomePageForUser(currentUser))
    ensures !loading && currentUser.None? ==> s == Redirect("/events")
  {
    if loading then Spinner
    else if currentUser.Some? then Redirect(GetHomePageForUser(currentUser))
    else Redirect("/events")
  }

  /** The two redirects collapse into one: once loaded, the target is always `getHomePageForUser(currentUser)`. */
  lemma LandingIsHomePage(currentUser: Option<ClientUser>)
    ensures Landing(false, currentUser) == Redirect(GetHomePageForUser(currentUser))
    ensures Landing(false, currentUser).to in {"/admin", "/my-events", "/events"}
  {
  }
}
