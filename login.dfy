/** `POST /api/auth/manager/login`: check the credentials with the stored
    procedure, then issue the session token and its cookie. The procedure, the
    signer and `NODE_ENV` are parameters. */
module Login {
  import opened Js
  import opened Http
  import opened Tokens
  import Middleware
  import Session

  const InvalidCredentials: string := "Invalid username or PIN."
  const InternalError: string := "An internal error occurred."
  const LoginOk: string := "Login successful"
  const CredentialsRequired: string := "Username and PIN are required."

  /** 24 hours, in seconds: the token lifetime and the cookie's `maxAge`. */
  const SessionSeconds: int := 60 * 60 * 24

  /** The manager row `get_manager_if_pin_valid` returns. */
  datatype ManagerRow = ManagerRow(id: string, plantId: string, role: string, username: string)

  /** The procedure with `.single()`: one row, no row, an error object, or an exception. */
  datatype CredentialCheck = Matched(row: ManagerRow) | NoMatch | CheckError | CheckThrew

  /** The token before signing: its protected header's `alg` and its claims. */
  datatype IssuedToken = IssuedToken(alg: string, claims: Claims)

  /** `sign(token, secret)`: the compact serialisation the signer produces. */
  type Signer = (IssuedToken, string) -> string

  /** The attributes `cookies().set` is given. */
  datatype SessionCookie = SessionCookie(name: string, value: string, httpOnly: bool, secure: bool, maxAge: int, path: string)

  datatype LoginResult = LoginResult(response: Response<Value>, cookie: Option<SessionCookie>)

  /** The payload copied from the row, issued now and expiring 24 hours later. */
  function TokenFor(row: ManagerRow, now: int): (t: IssuedToken)
    ensures t.alg == "HS256"
    ensures t.claims.id == row.id && t.claims.plantId == row.plantId
    ensures t.claims.role == row.role && t.claims.username == row.username
    ensures t.claims.iat == now && t.claims.exp == now + SessionSeconds
  {
    IssuedToken("HS256", Claims(row.id, row.plantId, row.role, row.username, now, now + SessionSeconds))
  }

  function CookieFor(value: string, nodeEnv: Option<string>): (c: SessionCookie)
    ensures c.name == CookieName && c.value == value && c.httpOnly && c.path == "/"
    ensures c.secure <==> nodeEnv != Some("development")
    ensures c.maxAge == SessionSeconds
  {
    SessionCookie(CookieName, value, true, nodeEnv != Some("development"), SessionSeconds, "/")
  }

  function Fail(status: int, message: string): LoginResult {
    LoginResult(Response(status, Error(message)), None)
  }

  /** The handler; `check` is the credential procedure, called with the two fields. */
  function SignIn(env: Env, nodeEnv: Option<string>, sign: Signer, body: Option<Value>,
                  check: (Value, Value) -> CredentialCheck): (r: LoginResult)
    ensures r.cookie.Some? <==> r.response.status == StatusOk
    ensures r.response.status == StatusOk ==>
              && body.Some? && Destructurable(body.value) && HasSecret(env)
              && check(Field(body.value, "username"), Field(body.value, "pin")).Matched?
              && var row := check(Field(body.value, "username"), Field(body.value, "pin")).row;
                 && r.cookie.value == CookieFor(sign(TokenFor(row, env.now), env.jwtSecret.value), nodeEnv)
                 && r.response.body == Message(LoginOk)
  {
    if body.None? || !Destructurable(body.value) then LoginResult(UncaughtException(), None)
    else
      var username := Field(body.value, "username");
      var pin := Field(body.value, "pin");
      if !Truthy(username) || !Truthy(pin) then Fail(StatusBadRequest, CredentialsRequired)
      else match check(username, pin)
        case CheckThrew => Fail(StatusInternalError, InternalError)
        case CheckError => Fail(StatusUnauthorized, InvalidCredentials)
        case NoMatch => Fail(StatusUnauthorized, InvalidCredentials)
        case Matched(row) =>
          if !HasSecret(env) then Fail(StatusInternalError, InternalError)
          else
            var token := sign(TokenFor(row, env.now), env.jwtSecret.value);
            LoginResult(Response(StatusOk, Message(LoginOk)), Some(CookieFor(token, nodeEnv)))
  }

  // ------------------------------------------------------------ properties

  /** Missing fields are refused before the procedure is consulted: the answer is
      the same whatever the procedure would say. */
  lemma RequiredBeforeCheck(env: Env, nodeEnv: Option<string>, sign: Signer, fields: map<string, Value>,
                            check: (Value, Value) -> CredentialCheck, other: (Value, Value) -> CredentialCheck)
    requires !Truthy(Field(Obj(fields), "username")) || !Truthy(Field(Obj(fields), "pin"))
    ensures SignIn(env, nodeEnv, sign, Some(Obj(fields)), check) == Fail(StatusBadRequest, CredentialsRequired)
    ensures SignIn(env, nodeEnv, sign, Some(Obj(fields)), check) == SignIn(env, nodeEnv, sign, Some(Obj(fields)), other)
  {
  }

  /** An error object and "no such manager" are indistinguishable to the client. */
  lemma FailedChecksLookAlike(env: Env, nodeEnv: Option<string>, sign: Signer, body: Value,
                              check: (Value, Value) -> CredentialCheck)
    requires Destructurable(body) && Truthy(Field(body, "username")) && Truthy(Field(body, "pin"))
    requires check(Field(body, "username"), Field(body, "pin")) in {NoMatch, CheckError}
    ensures SignIn(env, nodeEnv, sign, Some(body), check) == Fail(StatusUnauthorized, InvalidCredentials)
  {
  }

  /** A matched row with a secret set logs in: 200 and the session cookie; an
      exception from the procedure is a 500 without a cookie. */
  lemma MatchedRowLogsIn(env: Env, nodeEnv: Option<string>, sign: Signer, body: Value,
                         check: (Value, Value) -> CredentialCheck)
    requires Destructurable(body) && Truthy(Field(body, "username")) && Truthy(Field(body, "pin"))
    ensures var outcome := check(Field(body, "username"), Field(body, "pin"));
            && (outcome.Matched? && HasSecret(env) ==>
                  SignIn(env, nodeEnv, sign, Some(body), check)
                  == LoginResult(Response(StatusOk, Message(LoginOk)),
                                 Some(CookieFor(sign(TokenFor(outcome.row, env.now), env.jwtSecret.value), nodeEnv))))
            && (outcome == CheckThrew ==> SignIn(env, nodeEnv, sign, Some(body), check) == Fail(StatusInternalError, InternalError))
  {
  }

  /** A body that is not JSON, or is `null`, escapes the handler: the framework's
      500, and no cookie. */
  lemma UnreadableBodyUncaught(env: Env, nodeEnv: Option<string>, sign: Signer, check: (Value, Value) -> CredentialCheck)
    ensures SignIn(env, nodeEnv, sign, None, check) == LoginResult(UncaughtException(), None)
    ensures SignIn(env, nodeEnv, sign, Some(Null), check) == LoginResult(UncaughtException(), None)
  {
  }

  /** A missing secret after a matched row is a 500 and no cookie is set. */
  lemma NoSecretNoCookie(env: Env, nodeEnv: Option<string>, sign: Signer, body: Value,
                         check: (Value, Value) -> CredentialCheck)
    requires Destructurable(body) && Truthy(Field(body, "username")) && Truthy(Field(body, "pin"))
    requires check(Field(body, "username"), Field(body, "pin")).Matched?
    requires !HasSecret(env)
    ensures SignIn(env, nodeEnv, sign, Some(body), check) == Fail(StatusInternalError, InternalError)
  {
  }

  /** The cookie lives exactly as long as the token inside it. */
  lemma CookieLifetimeMatchesToken(row: ManagerRow, now: int, value: string, nodeEnv: Option<string>)
    ensures CookieFor(value, nodeEnv).maxAge == TokenFor(row, now).claims.exp - TokenFor(row, now).claims.iat
    ensures SessionSeconds == 86400
  {
  }

  /** A signer and a verifier that agree: a token signed with a secret verifies
      with that secret, to its own claims, until it expires. */
  ghost predicate Agree(sign: Signer, verify: Verifier) {
    forall t: IssuedToken, secret: string, now: int ::
      t.alg == "HS256" && now < t.claims.exp ==> verify(secret, sign(t, secret), now) == Some(t.claims)
  }

  /** With such a pair, the cookie set at login opens the manager area and the
      session endpoint reports the claims of the matched row, for any request
      made before the token expires. */
  lemma LoginOpensSession(env: Env, nodeEnv: Option<string>, sign: Signer, body: Value,
                          check: (Value, Value) -> CredentialCheck, later: nat, path: string)
    requires Agree(sign, env.verify)
    requires SignIn(env, nodeEnv, sign, Some(body), check).response.status == StatusOk
    requires env.now <= later < env.now + SessionSeconds
    ensures var r := SignIn(env, nodeEnv, sign, Some(body), check);
            var envLater := Env(env.jwtSecret, env.verify, later);
            var row := check(Field(body, "username"), Field(body, "pin")).row;
            && (Middleware.IsProtected(path) ==> Middleware.Gate(envLater, path, Some(r.cookie.value.value)).action == Middleware.Next)
            && Session.CurrentSession(envLater, Some(r.cookie.value.value)).body.data == TokenFor(row, env.now).claims
  {
    var row := check(Field(body, "username"), Field(body, "pin")).row;
    var t := TokenFor(row, env.now);
    var value := sign(t, env.jwtSecret.value);
    assert env.verify(env.jwtSecret.value, value, later) == Some(t.claims);
  }
}
