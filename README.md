# AuthLab session handlers in Dafny

This project models the four session handlers of AuthLab's `app/routes/auth.py` —
`register`, `login`, `logout` and `refresh` — as a sequential state machine over two stores:

- the user table, email ↦ (password hash, role);
- the key-value store, where `"refresh:" + token` ↦ email records every live refresh token.
  In the program the rate limiter keeps its counters in the same store; those writes are not
  part of this model, and the store here is that store without them (other keys are allowed
  and every handler is shown to leave them alone).

`auth_routes.dfy` (module `AuthRoutes`) holds the data model, the store key construction, one
pure step function per handler on a `State` value (where the handlers' properties are stated
and proved), and the class `AuthService`, whose two map fields the handler methods update in
place; each method is proved to leave exactly the state and answer its step function gives.
`sessions.dfy` (module `AuthSessions`) proves properties of several calls in a row: logout is
idempotent, refresh tokens are single use, a new account can log in, a fresh login can be
refreshed, and two invariants of any sequence of requests interleaved with TTL expiry.

The helpers the handlers import from `app/auth.py` (not part of this model) are uninterpreted:
the record `Env` carries `hash` (`get_password_hash`), `verify` (the password check inside
`authenticate`) and `mint` (`create_access_token(sub, role)`) as arbitrary total functions.
`create_access_token` puts an expiry computed from the clock into the token, so `mint` also
takes the time of the call, and `Login` and `Refresh` take that time as an argument `now`. The
rate limiter's verdict is a boolean argument of `Login`, and the value `create_refresh_token`
returns is an argument of `Login` and `Refresh`; the class methods require that its key is not
already in the store, which stands in for the randomness of the generator.

Errors are the datatype `Error`: `Conflict` (HTTP 400, "Email already registered"),
`RateLimited` (raised by the rate limiter) and `Unauthorized` (HTTP 401, for bad credentials,
an unknown refresh token and a vanished user alike).

One detail of the code is modelled as written: `refresh` tests `if not sub`, so a key bound to
the empty string counts as absent (`Redeemable` in the model). An account registered under the
empty email can therefore log in but never refresh (`EmptyIdentityCannotRefresh`); whether such
an email can be registered at all depends on request validation in `app/models`, which is not
part of this model.

## Model

| member | source | states |
|---|---|---|
| `AuthRoutes.RefreshKey` | app/routes/auth.py:55 | the key of a token starts with `refresh:` and the token can be read back from it (the key construction is injective) |
| `AuthRoutes.RegisterStep` | app/routes/auth.py:10-22 | fails with Conflict exactly when the email is already registered, and then changes nothing; otherwise adds exactly one account, with the hashed password and role `user`; existing accounts are never overwritten; the key-value store is never touched |
| `AuthRoutes.LoginStep` | app/routes/auth.py:24-45 | a rate-limit rejection wins over everything and changes nothing; otherwise bad credentials give Unauthorized and change nothing; success iff allowed and authenticated; on success `refresh:<token>` ↦ email is inserted, no other key changes, the user table is untouched, and the answer is `bearer` with the access token minted from (email, current role, time of the call) and exactly that refresh token |
| `AuthRoutes.LogoutStep` | app/routes/auth.py:47-50 | always succeeds; afterwards the token's key is absent, every other key is as before, and if the key was absent the state is unchanged |
| `AuthRoutes.RefreshStep` | app/routes/auth.py:52-76 | succeeds iff the key is present, bound to a non-empty email, and that email is still registered; every failure is Unauthorized with both stores unchanged (a missing user does not delete the old key); on success the new key maps to the same email, the access token uses the user's current role, and no key other than the old and the new one changes; whenever the new token differs from the presented one the old key is gone; with a fresh new token the key set is exactly old minus old key plus new key |
| `AuthRoutes.AuthService.Register` | app/routes/auth.py:10-22 | updates only the user table, leaving state and answer exactly as `RegisterStep` |
| `AuthRoutes.AuthService.Login` | app/routes/auth.py:24-45 | updates only the key-value store, exactly as `LoginStep`; with a fresh token a success grows the store by one key |
| `AuthRoutes.AuthService.Logout` | app/routes/auth.py:47-50 | updates only the key-value store, exactly as `LogoutStep` |
| `AuthRoutes.AuthService.Refresh` | app/routes/auth.py:52-76 | updates only the key-value store, exactly as `RefreshStep`; with a fresh token a success removes the presented key and keeps the store's size |
| `AuthSessions.LogoutIsIdempotent` | app/routes/auth.py:47-50 | logging out twice with a token gives the same state and answer as once |
| `AuthSessions.RefreshAfterLogoutFails` | app/routes/auth.py:47-59 | after logout the token is refused with Unauthorized and nothing changes |
| `AuthSessions.RefreshIsSingleUse` | app/routes/auth.py:55-71 | after a successful rotation to any token other than the presented one, refreshing again with the old token fails with Unauthorized and changes nothing |
| `AuthSessions.RegisterThenLogin` | app/routes/auth.py:10-45 | an account just registered can log in with its password (assuming the password check accepts a password against its own hash), gets an access token minted for the role `user` it was registered with, and its refresh key is bound to its email |
| `AuthSessions.LoginThenRefresh` | app/routes/auth.py:36-71 | a refresh right after a successful login (non-empty email) succeeds, returns a refresh token different from login's, binds it to the same email, deletes login's key and mints the access token from the user's role at the time of the refresh |
| `AuthSessions.EmptyIdentityCannotRefresh` | app/routes/auth.py:56-59 | a refresh token bound to the empty email is present in the store yet always refused, since the handler treats a falsy value as absent |
| `AuthSessions.RefreshKeyInjective` | app/routes/auth.py:55 | distinct tokens never share a store key |
| `AuthSessions.ApplyKeepsDead` | app/routes/auth.py:39-69 | a request that does not mint a token cannot bring that token's key back |
| `AuthSessions.ReplayStaysDead` | app/routes/auth.py:52-69 | a token whose key is gone (redeemed, logged out or expired) stays gone and is refused after any sequence of requests that never mints it again |
| `AuthSessions.ApplyPreservesBound` | app/routes/auth.py:36-69 | one request (or a TTL expiry) keeps every refresh key bound to a registered email |
| `AuthSessions.RunPreservesBound` | app/routes/auth.py:10-69 | any sequence of requests keeps every refresh key bound to a registered email |
| `AuthSessions.BoundRefreshFailsOnlyOnMissingKey` | app/routes/auth.py:58-64 | while that invariant holds, refresh fails exactly when the key is absent or bound to the empty email, so the "User not found" branch needs an account to disappear outside these handlers |

## Left out

- HTTP routing, `HTTPException` plumbing, request parsing and `req.client.host`: transport. The client address only feeds the rate limiter, whose verdict is an argument.
- SQLAlchemy sessions (`db.add`, `commit`, `refresh`, query building): modelled as map lookup and insert.
- `app/auth.py` is not part of this model: password hashing and verification, JWT signing and decoding (`create_access_token`, `get_current_user`) stay uninterpreted functions in `Env`; the clock enters only as the `now` argument of `mint`, so nothing about expiry of access tokens is modelled; `tests/test_jwt.py` exercises only those and adds no handler logic.
- The rate limiter's internals (`check_login_rate_limit`), including the counters it keeps in the key-value store: only its allow/block verdict is modelled.
- The randomness of `create_refresh_token`: replaced by a caller-supplied token whose key is not already in the store.
- TTL (`ex=TTL`): not modelled as time; expiry appears only as the `Expire` request of the traces in `sessions.dfy`, which deletes a key.
- Concurrency: `storage.get` and `storage.delete` in `refresh` are separate calls, so two concurrent refreshes of one token could both succeed; the model is sequential and cannot show this.
- Store connectivity failures and the `refresh` of a user-table row that fails at the database: infrastructure errors, not modelled.
- The HTTP status of `RateLimited` is set inside `app/auth.py` and is not modelled.
