/**
 * The session store (src/stores/auth.js): a bearer token and the account profile, with the
 * token mirrored under one key of the browser's durable storage.
 */
module Auth {
  import opened Wrappers
  import opened Api
  import Config
  import opened Storage

  /** The body of a login request: `{ email, password, keepMeLoggedIn }`. */
  datatype LoginBody = LoginBody(email: string, password: string, keepMeLoggedIn: bool)

  /** The body of a registration request: `{ email, password, firstname, lastname }`. */
  datatype RegisterBody = RegisterBody(email: string, password: string, firstname: string, lastname: string)

  /** The part of a login or registration answer the store reads: `data.token`. */
  datatype TokenReply = TokenReply(token: string)

  /** The profile a store starts with and returns to on logout: `{}`. */
  const EmptyProfile := Obj(map[])

  /** A token as the stores see it after a reload: a falsy one reads back as `null`. */
  function Normalized(token: Option<string>): (t: Option<string>)
    ensures t.Some? <==> Truthy(token)
    ensures t.Some? ==> t == token
  {
    if Truthy(token) then token else None
  }

  class AuthStore {
    const env: Config.Env
    const storage: LocalStorage
    var token: Option<string>
    var userProfile: Json

    /** The token in the store and the one in storage agree, up to JavaScript truthiness. */
    ghost predicate Synced()
      reads this, storage
    {
      Normalized(token) == StoredToken(storage.items)
    }

    constructor (env: Config.Env, storage: LocalStorage)
      ensures this.env == env && this.storage == storage
      ensures token == StoredToken(storage.items)
      ensures userProfile == EmptyProfile
      ensures Synced()
    {
      this.env := env;
      this.storage := storage;
      token := StoredToken(storage.items);
      userProfile := EmptyProfile;
    }

    /**
     * `fetchUserProfile()`: reads the account with the current token and keeps it as the
     * profile; a failure leaves the profile as it was and is re-raised.
     */
    method FetchUserProfile(outcome: Outcome<Json>) returns (call: Call<()>, r: Result<()>)
      modifies this`userProfile
      ensures call.verb == Get && call.url == env.baseUrl + env.accountEndpoint
      ensures HeadersFor(call.headers, token) && call.body == None
      ensures r.Ok? <==> Classify(outcome).Ok?
      ensures r.Ok? ==> userProfile == Classify(outcome).value
      ensures r.Err? ==> r.message == Classify(outcome).message && userProfile == old(userProfile)
    {
      var response, notice;
      call, response, notice := Request(env.baseUrl, Get, env.accountEndpoint, token, None, outcome);
      if response.Err? {
        return call, Err(response.message);
      }
      userProfile := response.value;
      r := Ok(());
    }

    /**
     * `login(email, password, keepMeLoggedIn)`. On success the returned token goes into the
     * store and into storage before the profile is fetched with it; if that second request
     * fails, the session stays logged in with the old profile and the error is re-raised.
     * A failed login request changes nothing.
     */
    method Login(email: string, password: string, keepMeLoggedIn: bool,
                 loginOutcome: Outcome<TokenReply>, profileOutcome: Outcome<Json>)
      returns (loginCall: Call<LoginBody>, profileCall: Option<Call<()>>, r: Result<()>)
      modifies this, storage
      ensures loginCall.verb == Post && loginCall.url == env.baseUrl + env.loginEndpoint
      ensures HeadersFor(loginCall.headers, old(token))
      ensures loginCall.body == Some(LoginBody(email, password, keepMeLoggedIn))
      ensures Classify(loginOutcome).Err? ==>
                && r == Err(Classify(loginOutcome).message)
                && profileCall == None
                && token == old(token) && userProfile == old(userProfile)
                && storage.items == old(storage.items)
      ensures Classify(loginOutcome).Ok? ==>
                var t := Classify(loginOutcome).value.token;
                && token == Some(t)
                && storage.items == old(storage.items)[AuthTokenKey := t]
                && profileCall.Some?
                && profileCall.value.url == env.baseUrl + env.accountEndpoint
                && HeadersFor(profileCall.value.headers, Some(t))
                && (Classify(profileOutcome).Ok? ==> r.Ok? && userProfile == Classify(profileOutcome).value)
                && (Classify(profileOutcome).Err? ==>
                      r == Err(Classify(profileOutcome).message) && userProfile == old(userProfile))
      ensures Classify(loginOutcome).Ok? || old(Synced()) ==> Synced()
    {
      var response, notice;
      loginCall, response, notice := Request(env.baseUrl, Post, env.loginEndpoint, token,
                                             Some(LoginBody(email, password, keepMeLoggedIn)), loginOutcome);
      if response.Err? {
        return loginCall, None, Err(response.message);
      }
      token := Some(response.value.token);
      storage.SetItem(AuthTokenKey, response.value.token);
      var call;
      call, r := FetchUserProfile(profileOutcome);
      profileCall := Some(call);
    }

    /**
     * `register(email, password, firstname, lastname)`: on success the returned token goes into
     * the store and into storage; the profile is not touched. A failure changes nothing.
     */
    method Register(email: string, password: string, firstname: string, lastname: string,
                    outcome: Outcome<TokenReply>)
      returns (call: Call<RegisterBody>, r: Result<()>)
      modifies this, storage
      ensures call.verb == Post && call.url == env.baseUrl + env.registerEndpoint
      ensures HeadersFor(call.headers, old(token))
      ensures call.body == Some(RegisterBody(email, password, firstname, lastname))
      ensures userProfile == old(userProfile)
      ensures r.Ok? <==> Classify(outcome).Ok?
      ensures r.Err? ==>
                && r.message == Classify(outcome).message
                && token == old(token) && storage.items == old(storage.items)
      ensures r.Ok? ==>
                && token == Some(Classify(outcome).value.token)
                && storage.items == old(storage.items)[AuthTokenKey := Classify(outcome).value.token]
      ensures r.Ok? || old(Synced()) ==> Synced()
    {
      var response, notice;
      call, response, notice := Request(env.baseUrl, Post, env.registerEndpoint, token,
                                        Some(RegisterBody(email, password, firstname, lastname)), outcome);
      if response.Err? {
        return call, Err(response.message);
      }
      token := Some(response.value.token);
      storage.SetItem(AuthTokenKey, response.value.token);
      r := Ok(());
    }

    /**
     * `forgotPassword(email)`. The `{ email }` object is handed to the gateway where the store
     * belongs and no body follows it, so the request carries neither a token nor the address.
     * Nothing in the session changes.
     */
    method ForgotPassword(email: string, outcome: Outcome<Json>) returns (call: Call<()>, r: Result<()>)
      ensures call.verb == Post && call.url == env.baseUrl + env.passwordForgot
      ensures Authorization !in call.headers && HeadersFor(call.headers, None)
      ensures call.body == None
      ensures r.Ok? <==> Classify(outcome).Ok?
      ensures r.Err? ==> r.message == Classify(outcome).message
    {
      var response, notice;
      // `({ email }).token` is undefined, and `body` is undefined.
      call, response, notice := Request<(), Json>(env.baseUrl, Post, env.passwordForgot, None, None, outcome);
      r := if response.Err? then Err(response.message) else Ok(());
    }

    /** `logout()`: forgets the token and the profile and removes the stored key. */
    method Logout()
      modifies this, storage
      ensures token == None && userProfile == EmptyProfile
      ensures storage.items == old(storage.items) - {AuthTokenKey}
      ensures Synced()
    {
      token := None;
      userProfile := EmptyProfile;
      storage.RemoveItem(AuthTokenKey);
    }

    /**
     * `validateToken()`: probes the account endpoint. Success changes nothing; on any failure
     * the store logs out, so a stale stored token heals itself. Never fails.
     */
    method ValidateToken(outcome: Outcome<Json>) returns (call: Call<()>, valid: bool)
      modifies this, storage
      ensures call.verb == Get && call.url == env.baseUrl + env.accountEndpoint
      ensures HeadersFor(call.headers, old(token)) && call.body == None
      ensures valid <==> Classify(outcome).Ok?
      ensures valid ==>
                token == old(token) && userProfile == old(userProfile) && storage.items == old(storage.items)
      ensures !valid ==>
                && token == None && userProfile == EmptyProfile
                && storage.items == old(storage.items) - {AuthTokenKey}
      ensures !valid || old(Synced()) ==> Synced()
    {
      var response, notice;
      call, response, notice := Request<(), Json>(env.baseUrl, Get, env.accountEndpoint, token, None, outcome);
      if response.Err? {
        Logout();
        return call, false;
      }
      valid := true;
    }

    /** `getSelf()`: the current profile, unchanged. */
    method GetSelf() returns (profile: Json)
      ensures profile == userProfile
    {
      profile := userProfile;
    }
  }

  /** Logging out twice leaves the same state as logging out once. */
  method LogoutTwice(auth: AuthStore)
    modifies auth, auth.storage
    ensures auth.token == None && auth.userProfile == EmptyProfile
    ensures auth.storage.items == old(auth.storage.items) - {AuthTokenKey}
  {
    auth.Logout();
    auth.Logout();
    assert old(auth.storage.items) - {AuthTokenKey} - {AuthTokenKey} == old(auth.storage.items) - {AuthTokenKey};
  }

  /**
   * Reloading the page rebuilds the store from storage: a synced session keeps its token
   * (a falsy one reads back as `null`), while the profile starts empty again.
   */
  method Reload(auth: AuthStore) returns (reloaded: AuthStore)
    requires auth.Synced()
    ensures reloaded.token == Normalized(auth.token)
    ensures reloaded.userProfile == EmptyProfile
  {
    reloaded := new AuthStore(auth.env, auth.storage);
  }
}
