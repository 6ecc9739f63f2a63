/**
 * Properties of the session handlers across several calls: logout is idempotent, a refresh
 * token is single use, a fresh login can be refreshed, and two invariants of any sequence of
 * handler calls (interleaved with TTL expiry of store keys).
 */
module AuthSessions {
  import opened AuthRoutes

  /** Logging out twice with the same token leaves what logging out once leaves. */
  lemma LogoutIsIdempotent(s: State, token: string)
    ensures LogoutStep(LogoutStep(s, token).state, token) == LogoutStep(s, token)
  {
  }

  /** After logout, the same refresh token is refused and nothing changes. */
  lemma RefreshAfterLogoutFails(env: Env, s: State, token: string, newToken: string, now: int)
    ensures var s1 := LogoutStep(s, token).state;
      RefreshStep(env, s1, token, newToken, now) == Step(s1, Err(Unauthorized))
  {
  }

  /**
   * Rotation makes the presented token single use: once a refresh succeeds with a replacement
   * different from it, a second refresh with the same token fails with Unauthorized and
   * changes nothing, whatever else the store holds.
   */
  lemma RefreshIsSingleUse(env: Env, s: State, token: string, newToken: string, now: int, later: string, laterTime: int)
    requires RefreshStep(env, s, token, newToken, now).result.Ok?
    requires newToken != token
    ensures var s1 := RefreshStep(env, s, token, newToken, now).state;
      RefreshStep(env, s1, token, later, laterTime) == Step(s1, Err(Unauthorized))
  {
  }

  /**
   * A newly registered account can log in with the password it registered with (given that
   * the password check accepts a password against its own hash), and the access token is
   * minted for the role registration gave it.
   */
  lemma RegisterThenLogin(env: Env, s: State, email: string, password: string, token: string, now: int)
    requires email !in s.users
    requires env.verify(password, env.hash(password))
    ensures var s1 := RegisterStep(env, s, email, password).state;
      var r := LoginStep(env, s1, email, password, true, token, now);
      && r.result.Ok?
      && r.result.value.accessToken == env.mint(email, DefaultRole, now)
      && r.result.value.refreshToken == token
      && r.state.store[RefreshKey(token)] == email
  {
  }

  /**
   * A successful login can be refreshed straight away (for a non-empty email), and the
   * rotation hands out a refresh token different from the one login gave, bound to the same
   * email and with an access token for the user's role at the time of the refresh.
   */
  lemma LoginThenRefresh(env: Env, s: State, email: string, password: string, first: string, second: string,
                         loginTime: int, refreshTime: int)
    requires LoginStep(env, s, email, password, true, first, loginTime).result.Ok?
    requires email != ""
    requires RefreshKey(second) !in LoginStep(env, s, email, password, true, first, loginTime).state.store
    ensures var s1 := LoginStep(env, s, email, password, true, first, loginTime).state;
      var r := RefreshStep(env, s1, first, second, refreshTime);
      && r.result.Ok?
      && r.result.value.refreshToken == second
      && second != first
      && r.result.value.accessToken == env.mint(email, s.users[email].role, refreshTime)
      && r.state.store[RefreshKey(second)] == email
      && RefreshKey(first) !in r.state.store
  {
  }

  /**
   * The refresh handler treats a stored empty email as a missing one (`if not sub`), so an
   * account whose email is the empty string can log in but can never refresh.
   */
  lemma EmptyIdentityCannotRefresh(env: Env, s: State, password: string, first: string, second: string,
                                   loginTime: int, refreshTime: int)
    requires LoginStep(env, s, "", password, true, first, loginTime).result.Ok?
    ensures var s1 := LoginStep(env, s, "", password, true, first, loginTime).state;
      && RefreshKey(first) in s1.store
      && RefreshStep(env, s1, first, second, refreshTime) == Step(s1, Err(Unauthorized))
  {
  }

  /** Distinct tokens have distinct store keys. */
  lemma RefreshKeyInjective(a: string, b: string)
    requires RefreshKey(a) == RefreshKey(b)
    ensures a == b
  {
  }

  /**
   * One request against the two stores, with the collaborators' answers as arguments:
   * `allowed` is the rate limiter's verdict, `newToken` the token create_refresh_token
   * produced and `now` the clock reading. Expire is the key-value store dropping a key whose TTL ran out.
   */
  datatype Op =
    | Register(email: string, password: string)
    | Login(email: string, password: string, allowed: bool, newToken: string, now: int)
    | Logout(token: string)
    | Refresh(token: string, newToken: string, now: int)
    | Expire(key: string)

  function Apply(env: Env, s: State, op: Op): State {
    match op
    case Register(email, password) => RegisterStep(env, s, email, password).state
    case Login(email, password, allowed, newToken, now) => LoginStep(env, s, email, password, allowed, newToken, now).state
    case Logout(token) => LogoutStep(s, token).state
    case Refresh(token, newToken, now) => RefreshStep(env, s, token, newToken, now).state
    case Expire(key) => State(s.users, s.store - {key})
  }

  function Run(env: Env, s: State, ops: seq<Op>): State
    decreases |ops|
  {
    if ops == [] then s else Run(env, Apply(env, s, ops[0]), ops[1..])
  }

  /** The request mints `token` as a new refresh token. */
  predicate Issues(op: Op, token: string) {
    (op.Login? || op.Refresh?) && op.newToken == token
  }

  /** A token whose key is absent stays absent through a request that does not mint it. */
  lemma ApplyKeepsDead(env: Env, s: State, op: Op, token: string)
    requires RefreshKey(token) !in s.store
    requires !Issues(op, token)
    ensures RefreshKey(token) !in Apply(env, s, op).store
  {
    match op
    case Login(email, password, allowed, newToken, _) =>
      if RefreshKey(token) == RefreshKey(newToken) {
        RefreshKeyInjective(token, newToken);
      }
    case Refresh(t, newToken, _) =>
      if RefreshKey(token) == RefreshKey(newToken) {
        RefreshKeyInjective(token, newToken);
      }
    case _ =>
  }

  /**
   * Replay protection: a refresh token that is no longer in the store (redeemed, logged out
   * or expired) stays unredeemable through any later sequence of requests, as long as the
   * token generator never hands out that same value again.
   */
  lemma {:induction false} ReplayStaysDead(env: Env, s: State, ops: seq<Op>, token: string, newToken: string, now: int)
    requires RefreshKey(token) !in s.store
    requires forall i :: 0 <= i < |ops| ==> !Issues(ops[i], token)
    ensures RefreshKey(token) !in Run(env, s, ops).store
    ensures var t := Run(env, s, ops);
      RefreshStep(env, t, token, newToken, now) == Step(t, Err(Unauthorized))
    decreases |ops|
  {
    if ops != [] {
      ApplyKeepsDead(env, s, ops[0], token);
      ReplayStaysDead(env, Apply(env, s, ops[0]), ops[1..], token, newToken, now);
    }
  }

  /** Every refresh key in the store is bound to an email that is in the user table. */
  ghost predicate BoundToUsers(s: State) {
    forall k :: k in s.store && IsRefreshKey(k) ==> s.store[k] in s.users
  }

  lemma ApplyPreservesBound(env: Env, s: State, op: Op)
    requires BoundToUsers(s)
    ensures BoundToUsers(Apply(env, s, op))
  {
    match op
    case Login(email, password, allowed, newToken, now) =>
      var t := LoginStep(env, s, email, password, allowed, newToken, now).state;
      forall k | k in t.store && IsRefreshKey(k) ensures t.store[k] in t.users {
        if k != RefreshKey(newToken) {
          assert t.store[k] == s.store[k];
        }
      }
    case Refresh(token, newToken, now) =>
      var t := RefreshStep(env, s, token, newToken, now).state;
      forall k | k in t.store && IsRefreshKey(k) ensures t.store[k] in t.users {
        if k != RefreshKey(newToken) {
          assert t.store[k] == s.store[k];
        }
      }
    case _ =>
  }

  /** No sequence of requests breaks BoundToUsers. */
  lemma {:induction false} RunPreservesBound(env: Env, s: State, ops: seq<Op>)
    requires BoundToUsers(s)
    ensures BoundToUsers(Run(env, s, ops))
    decreases |ops|
  {
    if ops != [] {
      ApplyPreservesBound(env, s, ops[0]);
      RunPreservesBound(env, Apply(env, s, ops[0]), ops[1..]);
    }
  }

  /**
   * While BoundToUsers holds, the "User not found" branch of refresh cannot be taken: the
   * handler fails exactly when the token's key is absent or bound to the empty email. That
   * branch is reached only when the user table loses an account outside these handlers.
   */
  lemma BoundRefreshFailsOnlyOnMissingKey(env: Env, s: State, token: string, newToken: string, now: int)
    requires BoundToUsers(s)
    ensures RefreshStep(env, s, token, newToken, now).result.Ok?
      <==> RefreshKey(token) in s.store && s.store[RefreshKey(token)] != ""
  {
  }
}
