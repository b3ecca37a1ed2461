/**
 * Where the login form sends a user once `login` resolves (frontend/src/pages/Login.js). The form passes the
 * resolved value of `login`, which is `true`, to `getHomePageForUser` in place of the user.
 */
module LoginLanding {
  import opened Common
  import opened RoleUtils
  import opened ClientCommon
  import opened AuthContext
  import HomePage

  /** `true` read as a user: truthy, but every property lookup on it is `undefined`. */
  const TRUE_AS_USER: Option<ClientUser> := Some(ClientUser(None, None))

  /** The landing route as written: `getHomePageForUser` applied to the resolved value `true`. */
  function LandingAsWritten(): (r: string)
    ensures r == "/events"
  {
    GetHomePageForUser(TRUE_AS_USER)
  }

  /** Admins and publishers are sent to `/events` after logging in, not to their own home page. */
  lemma RoleIgnoredAtLogin(user: ClientUser)
    requires user.role == Some(ADMIN) || user.role == Some(PUBLISHER)
    ensures LandingAsWritten() == "/events"
    ensures GetHomePageForUser(Some(user)) != "/events"
  {
  }

  /** The landing route as intended: the home page of the user `login` has just stored, as the `Home` page would choose. */
  function LandingAfterLogin(user: ClientUser): (r: string)
    ensures HomePage.Landing(false, Some(user)) == Redirect(r)
    ensures r == "/admin" <==> user.role == Some(ADMIN)
    ensures r == "/my-events" <==> user.role == Some(PUBLISHER)
  {
    HomePage.LandingIsHomePage(Some(user));
    GetHomePageForUser(Some(user))
  }

  /** `handleSubmit` of the login form: log in, then navigate to the intended landing route; a failed login navigates nowhere. */
  method SubmitLogin(session: Session, response: Call<TokenPair>, me: Call<ClientUser>) returns (target: Option<string>)
    requires session.client.Valid()
    modifies session, session.client, session.client.store
    ensures session.client.Valid()
    ensures target.Some? <==> response.Done? && me.Done?
    ensures target.Some? ==> session.currentUser == Some(me.value) && target.value == LandingAfterLogin(me.value)
  {
    var outcome := session.Login(response, me);
    if outcome.Resolved? {
      target := Some(LandingAfterLogin(me.value));
    } else {
      target := None;
    }
  }
}
