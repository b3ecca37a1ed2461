/**
 * The client's session store (frontend/src/context/AuthContext.js): `currentUser`, `loading` and `error` over the
 * two-token store. Every awaited API call is a parameter holding how it settled.
 */
module AuthContext {
  import opened Common
  import opened TokenStore
  import opened RoleUtils
  import opened ClientCommon
  import opened RequestPipeline

  const SESSION_EXPIRED: string := "Session expired. Please login again."
  const REFRESH_URL: string := "/api/auth/refresh/"
  const ME_URL: string := "/api/auth/me/"
  const LOGIN_URL: string := "/api/auth/login/"
  const REGISTER_URL: string := "/api/auth/register/"

  /** The `access_token` and `refresh_token` of a login response. */
  datatype TokenPair = TokenPair(access: string, refresh: string)

  /** How an exposed async operation settles: its resolved value, or a thrown error. */
  datatype Outcome<+T> = Resolved(value: T) | Threw

  /** The refresh call as written: it sets the refresh token header, then passes through the request interceptor. */
  function RefreshRequestAsWritten(refreshToken: string, storedToken: Option<string>): (sent: Request)
    ensures AUTHORIZATION in sent.headers
    ensures Present(storedToken) ==> sent.headers[AUTHORIZATION] == BEARER + storedToken.value
    ensures !Present(storedToken) ==> sent.headers[AUTHORIZATION] == BEARER + refreshToken
  {
    AttachToken(Request(REFRESH_URL, map[AUTHORIZATION := BEARER + refreshToken], false), storedToken)
  }

  /** With an access token stored, the header the refresh endpoint needs is overwritten by the access token. */
  lemma RefreshHeaderOverwritten()
    ensures RefreshRequestAsWritten("r", Some("a")).headers[AUTHORIZATION] == BEARER + "a"
    ensures RefreshRequestAsWritten("r", Some("a")).headers[AUTHORIZATION] != BEARER + "r"
  {
    assert (BEARER + "a")[|BEARER|] == 'a' && (BEARER + "r")[|BEARER|] == 'r';
  }

  /** The refresh call as intended: the refresh token in the header whatever else is stored, as the axios.js refresh does. */
  function RefreshRequest(refreshToken: string): (sent: Request)
    ensures AUTHORIZATION in sent.headers && sent.headers[AUTHORIZATION] == BEARER + refreshToken
    ensures sent.url == REFRESH_URL && !sent.retry
  {
    Request(REFRESH_URL, map[AUTHORIZATION := BEARER + refreshToken], false)
  }

  class Session {
    /** The shared API client every call of the context goes through; its store is `localStorage`. */
    const client: Pipeline
    var currentUser: Option<ClientUser>
    var loading: bool
    var error: Option<string>

    /** The initial state of the provider: no user, loading, no error. */
    constructor (client: Pipeline)
      ensures this.client == client && currentUser == None && loading && error == None
    {
      this.client := client;
      currentUser := None;
      loading := true;
      error := None;
    }

    /**
     * `checkLoggedIn`: with a stored token, fetch `/me`; a failure passes through the client's response handler
     * (a 401 clears both tokens and redirects to the login page), then both tokens are cleared, the session error
     * is recorded and the user forgotten. Without a token nothing is fetched. Loading ends either way.
     */
    method CheckLoggedIn(me: Call<ClientUser>)
      requires client.Valid()
      modifies this, client, client.store
      ensures client.Valid() && client.RefreshUntouched() && !loading
      ensures !Present(old(client.store.GetItem(TOKEN))) ==>
                currentUser == old(currentUser) && error == old(error) && client.Untouched()
      ensures Present(old(client.store.GetItem(TOKEN))) && me.Done? ==>
                currentUser == Some(me.value) && error == old(error) && client.Untouched()
      ensures Present(old(client.store.GetItem(TOKEN))) && me.Failed? ==>
                && currentUser == None && error == Some(SESSION_EXPIRED)
                && client.store.items == Cleared(old(client.store.items))
                && client.redirects == old(client.redirects) + (if me.status == Some(401) then 1 else 0)
    {
      loading := true;
      var token := client.store.GetItem(TOKEN);
      if Present(token) {
        match me {
          case Done(user) =>
            currentUser := Some(user);
          case Failed(status, _) =>
            var h := client.RejectUnmarked(status, ME_URL);
            client.store.ClearTokens();
            ClearedIdempotent(old(client.store.items));
            error := Some(SESSION_EXPIRED);
            currentUser := None;
        }
      }
      loading := false;
    }

    /** `loadUser`: as `checkLoggedIn`, except that a failure records no error. */
    method LoadUser(me: Call<ClientUser>)
      requires client.Valid()
      modifies this, client, client.store
      ensures client.Valid() && client.RefreshUntouched() && !loading && error == old(error)
      ensures !Present(old(client.store.GetItem(TOKEN))) ==> currentUser == old(currentUser) && client.Untouched()
      ensures Present(old(client.store.GetItem(TOKEN))) && me.Done? ==> currentUser == Some(me.value) && client.Untouched()
      ensures Present(old(client.store.GetItem(TOKEN))) && me.Failed? ==>
                && currentUser == None && client.store.items == Cleared(old(client.store.items))
                && client.redirects == old(client.redirects) + (if me.status == Some(401) then 1 else 0)
    {
      if Present(client.store.GetItem(TOKEN)) {
        match me {
          case Done(user) =>
            currentUser := Some(user);
          case Failed(status, _) =>
            var h := client.RejectUnmarked(status, ME_URL);
            client.store.ClearTokens();
            ClearedIdempotent(old(client.store.items));
            currentUser := None;
        }
      }
      loading := false;
    }

    /**
     * `login`: both tokens are written as soon as the login call answers, before `/me` is fetched, so they stay
     * when `/me` fails with anything but a 401; on success the user is set and the promise resolves to `true`,
     * not to the user. A failed call passes through the client's response handler before it is rethrown.
     */
    method Login(response: Call<TokenPair>, me: Call<ClientUser>) returns (r: Outcome<bool>)
      requires client.Valid()
      modifies this, client, client.store
      ensures client.Valid() && client.RefreshUntouched()
      ensures loading == old(loading) && error == old(error)
      ensures response.Failed? ==> r == Threw && currentUser == old(currentUser) && client.RejectedWith(response.status)
      ensures response.Done? ==>
                var written := old(client.store.items)[TOKEN := response.value.access][REFRESH_TOKEN := response.value.refresh];
                && (me.Done? ==> client.store.items == written && client.redirects == old(client.redirects))
                && (me.Failed? && me.status == Some(401) ==>
                      client.store.items == Cleared(written) && client.redirects == old(client.redirects) + 1)
                && (me.Failed? && me.status != Some(401) ==>
                      client.store.items == written && client.redirects == old(client.redirects))
      ensures response.Done? && me.Failed? ==> r == Threw && currentUser == old(currentUser)
      ensures r.Resolved? <==> response.Done? && me.Done?
      ensures r.Resolved? ==> r.value && currentUser == Some(me.value)
    {
      match response
      case Failed(status, _) =>
        var h := client.RejectUnmarked(status, LOGIN_URL);
        return Threw;
      case Done(tokens) =>
        client.store.SetItem(TOKEN, tokens.access);
        client.store.SetItem(REFRESH_TOKEN, tokens.refresh);
        match me
        case Failed(status, _) =>
          var h := client.RejectUnmarked(status, ME_URL);
          return Threw;
        case Done(user) =>
          currentUser := Some(user);
          return Resolved(true);
    }

    /** `register`: resolves to `true` or rethrows after the client's response handler; the session is not touched. */
    method Register(response: Call<()>) returns (r: Outcome<bool>)
      requires client.Valid()
      modifies client, client.store
      ensures client.Valid()
      ensures r.Resolved? <==> response.Done?
      ensures r.Resolved? ==> r.value
      ensures response.Done? ==> client.Untouched()
      ensures response.Failed? ==> client.RejectedWith(response.status)
    {
      match response
      case Done(_) =>
        r := Resolved(true);
      case Failed(status, _) =>
        var h := client.RejectUnmarked(status, REGISTER_URL);
        r := Threw;
    }

    /** `logout`: both tokens go and the user is forgotten; no request is made. */
    method Logout()
      modifies this, client.store
      ensures client.store.items == Cleared(old(client.store.items)) && currentUser == None
      ensures loading == old(loading) && error == old(error)
    {
      client.store.ClearTokens();
      currentUser := None;
    }

    /**
     * `refreshToken`: without a stored refresh token it throws before any request, clearing both tokens and the
     * user. When the refresh call fails it passes through the client's response handler, then both tokens and the
     * user are cleared and the error is rethrown. On success only the access token is replaced and it is the
     * resolved value.
     */
    method RefreshToken(response: Call<string>) returns (r: Outcome<string>, sent: Option<Request>)
      requires client.Valid()
      modifies this, client, client.store
      ensures client.Valid() && client.RefreshUntouched()
      ensures loading == old(loading) && error == old(error)
      ensures !Present(old(client.store.GetItem(REFRESH_TOKEN))) ==>
                && r == Threw && sent.None? && currentUser == None
                && client.store.items == Cleared(old(client.store.items)) && client.redirects == old(client.redirects)
      ensures Present(old(client.store.GetItem(REFRESH_TOKEN))) ==>
                sent == Some(RefreshRequest(old(client.store.items)[REFRESH_TOKEN]))
      ensures Present(old(client.store.GetItem(REFRESH_TOKEN))) && response.Failed? ==>
                && r == Threw && currentUser == None && client.store.items == Cleared(old(client.store.items))
                && client.redirects == old(client.redirects) + (if response.status == Some(401) then 1 else 0)
      ensures r.Resolved? <==> Present(old(client.store.GetItem(REFRESH_TOKEN))) && response.Done?
      ensures r.Resolved? ==> && r.value == response.value
                              && client.store.items == old(client.store.items)[TOKEN := response.value]
                              && REFRESH_TOKEN in client.store.items
                              && client.store.items[REFRESH_TOKEN] == old(client.store.items)[REFRESH_TOKEN]
                              && currentUser == old(currentUser) && client.redirects == old(client.redirects)
    {
      var refreshToken := client.store.GetItem(REFRESH_TOKEN);
      if !Present(refreshToken) {
        client.store.ClearTokens();
        currentUser := None;
        return Threw, None;
      }
      sent := Some(RefreshRequest(refreshToken.value));
      match response
      case Failed(status, _) =>
        var h := client.RejectUnmarked(status, REFRESH_URL);
        client.store.ClearTokens();
        ClearedIdempotent(old(client.store.items));
        currentUser := None;
        r := Threw;
      case Done(accessToken) =>
        client.store.SetItem(TOKEN, accessToken);
        r := Resolved(accessToken);
    }
  }

  /** Mounting the provider: the initial state followed by `checkLoggedIn`. With no stored token nobody is logged in. */
  method Mount(client: Pipeline, me: Call<ClientUser>) returns (s: Session)
    requires client.Valid()
    modifies client, client.store
    ensures fresh(s) && s.client == client && !s.loading && client.Valid()
    ensures !Present(old(client.store.GetItem(TOKEN))) ==>
              s.currentUser == None && s.error == None && client.store.items == old(client.store.items)
    ensures Present(old(client.store.GetItem(TOKEN))) && me.Done? ==> s.currentUser == Some(me.value) && s.error == None
    ensures Present(old(client.store.GetItem(TOKEN))) && me.Failed? ==>
              && s.currentUser == None && s.error == Some(SESSION_EXPIRED)
              && client.store.items == Cleared(old(client.store.items))
              && client.redirects == old(client.redirects) + (if me.status == Some(401) then 1 else 0)
  {
    s := new Session(client);
    s.CheckLoggedIn(me);
  }
}
