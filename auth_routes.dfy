/**
 * The session handlers of app/routes/auth.py: register, login, logout and refresh.
 *
 * Two stores are involved. The user table maps an email to its account (password hash and
 * role). The key-value store maps "refresh:" + token to the email the token was issued to.
 * The rate limiter's own counters live in the same store in the program but are not part of
 * this model; other keys are still allowed, so every handler is specified by what it does to
 * the refresh key it touches and by "no other key changes".
 *
 * Each handler is given twice: as a pure step function on a State (where its properties are
 * stated and proved), and as a method of AuthService, which updates the two maps in place and
 * is proved to do exactly what the step function says.
 */
module AuthRoutes {

  /** A row of the user table, keyed by email. */
  datatype Account = Account(hashedPassword: string, role: string)

  /**
   * The helpers the handlers import from app/auth.py, which is not part of this model. They
   * are left uninterpreted: any functions of these shapes will do.
   *  - hash:   get_password_hash(password)
   *  - verify: the password check inside authenticate, given (password, stored hash)
   *  - mint:   create_access_token(sub, role), given also the time of the call, since the
   *            token carries an expiry claim computed from the clock
   */
  datatype Env = Env(
    hash: string -> string,
    verify: (string, string) -> bool,
    mint: (string, string, int) -> string)

  /** The user-visible failures: Conflict is HTTP 400, Unauthorized is HTTP 401. */
  datatype Error = Conflict | RateLimited | Unauthorized

  datatype Outcome<T> = Ok(value: T) | Err(error: Error)

  /** The JSON body returned by login and refresh. */
  datatype Tokens = Tokens(tokenType: string, accessToken: string, refreshToken: string)

  /** Both stores, as one value. */
  datatype State = State(users: map<string, Account>, store: map<string, string>)

  /** What a handler leaves behind and what it answers. */
  datatype Step<T> = Step(state: State, result: Outcome<T>)

  const DefaultRole: string := "user"
  const Bearer: string := "bearer"
  const RegisteredMessage: string := "User created successfully"
  const LoggedOutMessage: string := "Logout successful"
  const RefreshPrefix: string := "refresh:"

  /** The store key of a refresh token: the f-string f"refresh:{token}". */
  function RefreshKey(token: string): (k: string)
    ensures IsRefreshKey(k) && TokenOf(k) == token
  {
    RefreshPrefix + token
  }

  predicate IsRefreshKey(k: string) {
    |RefreshPrefix| <= |k| && k[..|RefreshPrefix|] == RefreshPrefix
  }

  /** The token a refresh key was built from. */
  function TokenOf(k: string): string
    requires IsRefreshKey(k)
  {
    k[|RefreshPrefix|..]
  }

  /** Two maps that agree on every key outside `keys`. */
  ghost predicate AgreeExcept<V>(a: map<string, V>, b: map<string, V>, keys: set<string>) {
    forall k :: k !in keys ==> (k in a <==> k in b) && (k in a ==> a[k] == b[k])
  }

  /**
   * authenticate(db, email, password) from app/auth.py: the account exists and the password
   * matches its stored hash.
   */
  predicate Authenticates(env: Env, users: map<string, Account>, email: string, password: string) {
    email in users && env.verify(password, users[email].hashedPassword)
  }

  /**
   * A token the refresh handler will honour: its key is present, the bound email is not the
   * empty string (the handler tests `if not sub`, and "" is falsy), and the email is still in
   * the user table.
   */
  predicate Redeemable(s: State, token: string) {
    var key := RefreshKey(token);
    key in s.store && s.store[key] != "" && s.store[key] in s.users
  }

  /** register: refuses a known email; otherwise adds one account with the default role. */
  function RegisterStep(env: Env, s: State, email: string, password: string): (r: Step<string>)
    ensures r.result.Err? <==> email in s.users
    ensures r.result.Err? ==> r.result.error == Conflict && r.state == s
    ensures r.result.Ok? ==> r.result.value == RegisteredMessage
    ensures r.result.Ok? ==>
      && r.state.users.Keys == s.users.Keys + {email}
      && r.state.users[email] == Account(env.hash(password), DefaultRole)
      && |r.state.users| == |s.users| + 1
    // an existing account is never overwritten, and the key-value store is not touched
    ensures forall e :: e in s.users ==> e in r.state.users && r.state.users[e] == s.users[e]
    ensures r.state.store == s.store
  {
    if email in s.users then
      Step(s, Err(Conflict))
    else
      Step(State(s.users[email := Account(env.hash(password), DefaultRole)], s.store),
           Ok(RegisteredMessage))
  }

  /**
   * login: the rate limiter's verdict (`allowed`) is consulted first, then the credentials;
   * on success the refresh token `newToken` is recorded against the email.
   */
  function LoginStep(env: Env, s: State, email: string, password: string, allowed: bool, newToken: string, now: int)
    : (r: Step<Tokens>)
    ensures !allowed ==> r == Step(s, Err(RateLimited))
    ensures allowed && !Authenticates(env, s.users, email, password) ==> r == Step(s, Err(Unauthorized))
    ensures r.result.Ok? <==> allowed && Authenticates(env, s.users, email, password)
    ensures r.state.users == s.users
    ensures r.result.Ok? ==>
      && email in s.users
      && r.result.value == Tokens(Bearer, env.mint(email, s.users[email].role, now), newToken)
      && RefreshKey(newToken) in r.state.store
      && r.state.store[RefreshKey(newToken)] == email
      && r.state.store.Keys == s.store.Keys + {RefreshKey(newToken)}
      && AgreeExcept(s.store, r.state.store, {RefreshKey(newToken)})
  {
    if !allowed then
      Step(s, Err(RateLimited))
    else if !Authenticates(env, s.users, email, password) then
      Step(s, Err(Unauthorized))
    else
      var user := s.users[email];
      Step(State(s.users, s.store[RefreshKey(newToken) := email]),
           Ok(Tokens(Bearer, env.mint(email, user.role, now), newToken)))
  }

  /** logout: drops the token's key, present or not, and always succeeds. */
  function LogoutStep(s: State, token: string): (r: Step<string>)
    ensures r.result == Ok(LoggedOutMessage)
    ensures RefreshKey(token) !in r.state.store
    ensures AgreeExcept(s.store, r.state.store, {RefreshKey(token)})
    ensures r.state.users == s.users
    ensures RefreshKey(token) !in s.store ==> r.state == s
  {
    Step(State(s.users, s.store - {RefreshKey(token)}), Ok(LoggedOutMessage))
  }

  /**
   * refresh: rotation. A redeemable token's key is deleted and `newToken` is recorded against
   * the same email; the access token carries the role currently in the user table.
   */
  function RefreshStep(env: Env, s: State, token: string, newToken: string, now: int): (r: Step<Tokens>)
    ensures r.result.Ok? <==> Redeemable(s, token)
    ensures !Redeemable(s, token) ==> r == Step(s, Err(Unauthorized))
    ensures r.state.users == s.users
    ensures r.result.Ok? ==>
      var sub := s.store[RefreshKey(token)];
      && r.result.value == Tokens(Bearer, env.mint(sub, s.users[sub].role, now), newToken)
      && RefreshKey(newToken) in r.state.store
      && r.state.store[RefreshKey(newToken)] == sub
      && AgreeExcept(s.store, r.state.store, {RefreshKey(token), RefreshKey(newToken)})
    // the presented token is gone whenever the replacement differs from it
    ensures r.result.Ok? && newToken != token ==> RefreshKey(token) !in r.state.store
    // with a fresh replacement token, nothing else moved
    ensures r.result.Ok? && RefreshKey(newToken) !in s.store ==>
      && newToken != token
      && RefreshKey(token) !in r.state.store
      && r.state.store.Keys == s.store.Keys - {RefreshKey(token)} + {RefreshKey(newToken)}
  {
    var key := RefreshKey(token);
    if key !in s.store || s.store[key] == "" then
      Step(s, Err(Unauthorized))
    else
      var sub := s.store[key];
      if sub !in s.users then
        Step(s, Err(Unauthorized))
      else
        Step(State(s.users, (s.store - {key})[RefreshKey(newToken) := sub]),
             Ok(Tokens(Bearer, env.mint(sub, s.users[sub].role, now), newToken)))
  }

  /**
   * The router's view of the two stores. Each handler changes only the map it writes, and in
   * the way its step function describes.
   */
  class AuthService {
    const env: Env
    var users: map<string, Account>
    var store: map<string, string>

    constructor (env: Env, users: map<string, Account>, store: map<string, string>)
      ensures this.env == env && this.users == users && this.store == store
    {
      this.env := env;
      this.users := users;
      this.store := store;
    }

    function Snapshot(): State
      reads this
    {
      State(users, store)
    }

    method Register(email: string, password: string) returns (r: Outcome<string>)
      modifies this`users
      ensures Step(Snapshot(), r) == RegisterStep(env, old(Snapshot()), email, password)
    {
      if email in users {
        return Err(Conflict);
      }
      var hashed := env.hash(password);
      users := users[email := Account(hashed, DefaultRole)];
      r := Ok(RegisteredMessage);
    }

    /**
     * `allowed` is the rate limiter's verdict, `newToken` the token create_refresh_token gave
     * and `now` the clock reading create_access_token uses.
     */
    method Login(email: string, password: string, allowed: bool, newToken: string, now: int) returns (r: Outcome<Tokens>)
      requires RefreshKey(newToken) !in store
      modifies this`store
      ensures Step(Snapshot(), r) == LoginStep(env, old(Snapshot()), email, password, allowed, newToken, now)
      ensures r.Ok? ==> |store| == |old(store)| + 1
    {
      if !allowed {
        return Err(RateLimited);
      }
      if !Authenticates(env, users, email, password) {
        return Err(Unauthorized);
      }
      var user := users[email];
      var access := env.mint(email, user.role, now);
      store := store[RefreshKey(newToken) := email];
      r := Ok(Tokens(Bearer, access, newToken));
    }

    method Logout(token: string) returns (r: Outcome<string>)
      modifies this`store
      ensures Step(Snapshot(), r) == LogoutStep(old(Snapshot()), token)
    {
      store := store - {RefreshKey(token)};
      r := Ok(LoggedOutMessage);
    }

    /** `newToken` is the replacement token create_refresh_token gave; `now` is the clock reading. */
    method Refresh(token: string, newToken: string, now: int) returns (r: Outcome<Tokens>)
      requires RefreshKey(newToken) !in store
      modifies this`store
      ensures Step(Snapshot(), r) == RefreshStep(env, old(Snapshot()), token, newToken, now)
      ensures r.Ok? ==> RefreshKey(token) !in store && |store| == |old(store)|
    {
      var key := RefreshKey(token);
      if key !in store || store[key] == "" {
        return Err(Unauthorized);
      }
      var sub := store[key];
      if sub !in users {
        return Err(Unauthorized);
      }
      store := store - {key};
      store := store[RefreshKey(newToken) := sub];
      var access := env.mint(sub, users[sub].role, now);
      r := Ok(Tokens(Bearer, access, newToken));
    }
  }
}
