/** `GET /api/auth/manager/session`: the claims of the current session token. */
module Session {
  import opened Js
  import opened Http
  import opened Tokens

  /** The handler: no cookie, a rejected token or a missing secret are 401s; a
      verified token answers with its payload as it is. */
  function CurrentSession(env: Env, cookie: Option<string>): (r: Response<Claims>)
    ensures r.status == StatusOk || r.status == StatusUnauthorized
    ensures r.status == StatusOk <==> cookie.Some? && Verify(env, cookie.value).Some?
  {
    if cookie.None? then Response(StatusUnauthorized, Error(NotAuthenticated))
    else match Verify(env, cookie.value)
      case None => Response(StatusUnauthorized, Error(InvalidSession))
      case Some(claims) => Response(StatusOk, Json(claims))
  }

  /** The payload answered is the verifier's, unchanged; only a missing cookie is
      told apart from every other failure. */
  lemma SessionAnswers(env: Env, cookie: Option<string>)
    ensures cookie.None? ==> CurrentSession(env, cookie) == Response(StatusUnauthorized, Error(NotAuthenticated))
    ensures cookie.Some? && Verify(env, cookie.value).None? ==>
              CurrentSession(env, cookie) == Response(StatusUnauthorized, Error(InvalidSession))
    ensures cookie.Some? && Verify(env, cookie.value).Some? ==>
              CurrentSession(env, cookie) == Response(StatusOk, Json(env.verify(env.jwtSecret.value, cookie.value, env.now).value))
  {
  }

  /** Without a usable secret no session is ever reported. */
  lemma NoSecretNoSession(env: Env, cookie: Option<string>)
    requires !HasSecret(env)
    ensures CurrentSession(env, cookie).status == StatusUnauthorized
  {
  }
}
