/** The manager session token, seen from the code that checks it. Signing and
    verification themselves (HS256, the `exp` and `iat` checks) belong to the JWT
    library and are an oracle here. */
module Tokens {
  import opened Js

  const CookieName: string := "manager_session"
  const NotAuthenticated: string := "Not authenticated"
  const InvalidSession: string := "Invalid or expired session"

  /** The claims of a session token: the manager identity, issue time and expiry
      (seconds since the epoch). A claim the token lacks is the empty string. */
  datatype Claims = Claims(id: string, plantId: string, role: string, username: string, iat: int, exp: int)

  /** `jwtVerify(token, secret)` at time `now`: the payload, or `None` when it throws. */
  type Verifier = (string, string, int) -> Option<Claims>

  /** What a handler consults to check a session: the `JWT_SECRET` setting, the
      verifier and the clock. */
  datatype Env = Env(jwtSecret: Option<string>, verify: Verifier, now: nat)

  /** `process.env.JWT_SECRET` is truthy: set and not empty. */
  predicate HasSecret(env: Env) {
    env.jwtSecret.Some? && env.jwtSecret.value != ""
  }

  /** The claims of `token`, or `None` when the handler's try block throws: no
      secret, or a token the library rejects. */
  function Verify(env: Env, token: string): (r: Option<Claims>)
    ensures r.Some? ==> HasSecret(env) && r == env.verify(env.jwtSecret.value, token, env.now)
    ensures HasSecret(env) ==> r == env.verify(env.jwtSecret.value, token, env.now)
    ensures !HasSecret(env) ==> r.None?
  {
    if HasSecret(env) then env.verify(env.jwtSecret.value, token, env.now) else None
  }
}
