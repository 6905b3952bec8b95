/** `POST`, `PUT` and `DELETE /api/managers`: guard checks in front of one stored
    procedure call each. Whether a user is signed in, and what the procedure
    answers, are oracle parameters; each handler is split into the checks that
    decide whether the procedure is called, and the mapping of its answer. */
module Managers {
  import opened Js
  import opened Http

  const LoginToCreate: string := "You must be logged in to create a manager."
  const LoginRequired: string := "You must be logged in."
  const CredentialsRequired: string := "Username and PIN are required."
  const PinFormat: string := "PIN must be a 6-digit string."
  const OptionalPinFormat: string := "If provided, PIN must be a 6-digit string."
  const IdRequired: string := "Manager ID is required."
  const UsernameTaken: string := "This username is already taken."
  const Deleted: string := "Manager deleted successfully"

  /** Postgres' `unique_violation` error code. */
  const UniqueViolation: string := "23505"

  /** What a stored procedure call yields: its data, an error object (a code and
      a message; a missing code is ""), or an exception. */
  datatype RpcResult = Returned(data: Value) | RpcError(code: string, message: string) | Raised(message: string)

  /** Either the handler answers before the call, or it calls with these arguments. */
  datatype Stage<A> = Done(response: Response<Value>) | Call(args: A)

  /** `typeof pin === 'string' && /^\d{6}$/.test(pin)`: exactly six ASCII digits;
      without the `m` flag, `$` does not match before a trailing line break. */
  predicate IsSixDigitPin(pin: Value) {
    pin.Str? && |pin.s| == 6 && AllDigits(pin.s)
  }

  function Refused(status: int, message: string): Response<Value> {
    Response(status, Error(message))
  }

  // ----------------------------------------------------------------- create

  datatype CreateArgs = CreateArgs(username: Value, pin: string)

  /** The checks of `POST`: sign-in, the body, the required fields, the PIN. */
  function CreateStage(signedIn: bool, body: Option<Value>): (s: Stage<CreateArgs>)
    ensures !signedIn ==> s == Done(Refused(StatusUnauthorized, LoginToCreate))
    ensures signedIn && (body.None? || !Destructurable(body.value)) ==> s == Done(UncaughtException())
    ensures s.Call? <==>
              && signedIn && body.Some? && Destructurable(body.value)
              && Truthy(Field(body.value, "username")) && IsSixDigitPin(Field(body.value, "pin"))
    ensures s.Call? ==> s.args == CreateArgs(Field(body.value, "username"), Field(body.value, "pin").s)
    ensures signedIn && body.Some? && Destructurable(body.value) ==>
              var username := Field(body.value, "username");
              var pin := Field(body.value, "pin");
              && (!Truthy(username) || !Truthy(pin) ==> s == Done(Refused(StatusBadRequest, CredentialsRequired)))
              && (Truthy(username) && Truthy(pin) && !IsSixDigitPin(pin) ==> s == Done(Refused(StatusBadRequest, PinFormat)))
  {
    if !signedIn then Done(Refused(StatusUnauthorized, LoginToCreate))
    else if body.None? || !Destructurable(body.value) then Done(UncaughtException())
    else
      var username := Field(body.value, "username");
      var pin := Field(body.value, "pin");
      if !Truthy(username) || !Truthy(pin) then Done(Refused(StatusBadRequest, CredentialsRequired))
      else if !IsSixDigitPin(pin) then Done(Refused(StatusBadRequest, PinFormat))
      else Call(CreateArgs(username, pin.s))
  }

  /** The answer of `create_manager` mapped to a response; `success` is the status
      of a returned profile. */
  function MapRpc(r: RpcResult, success: int): (resp: Response<Value>)
    ensures r.Returned? ==> resp == Response(success, Json(r.data))
    ensures r.RpcError? && r.code == UniqueViolation ==> resp == Refused(StatusConflict, UsernameTaken)
    ensures r.RpcError? && r.code != UniqueViolation ==> resp == Refused(StatusBadRequest, r.message)
    ensures r.Raised? ==> resp == Refused(StatusInternalError, r.message)
  {
    match r
    case Returned(data) => Response(success, Json(data))
    case RpcError(code, message) =>
      if code == UniqueViolation then Refused(StatusConflict, UsernameTaken) else Refused(StatusBadRequest, message)
    case Raised(message) => Refused(StatusInternalError, message)
  }

  /** `POST`: `createManager` is the procedure, called only when the checks pass. */
  function Create(signedIn: bool, body: Option<Value>, createManager: CreateArgs -> RpcResult): (resp: Response<Value>)
    ensures CreateStage(signedIn, body).Call? ==>
              resp == MapRpc(createManager(CreateStage(signedIn, body).args), StatusCreated)
    ensures CreateStage(signedIn, body).Done? ==> resp == CreateStage(signedIn, body).response
  {
    match CreateStage(signedIn, body)
    case Done(response) => response
    case Call(args) => MapRpc(createManager(args), StatusCreated)
  }

  // ----------------------------------------------------------------- update

  datatype UpdateArgs = UpdateArgs(id: Value, newUsername: Value, newPin: Value)

  /** `x || null`. */
  function OrNull(v: Value): (r: Value)
    ensures Truthy(v) ==> r == v
    ensures !Truthy(v) ==> r == Null
  {
    if Truthy(v) then v else Null
  }

  /** The checks of `PUT`: sign-in, the body, the id; the PIN only when it is given. */
  function UpdateStage(signedIn: bool, body: Option<Value>): (s: Stage<UpdateArgs>)
    ensures !signedIn ==> s == Done(Refused(StatusUnauthorized, LoginRequired))
    ensures signedIn && (body.None? || !Destructurable(body.value)) ==> s == Done(UncaughtException())
    ensures s.Call? <==>
              && signedIn && body.Some? && Destructurable(body.value)
              && Truthy(Field(body.value, "id"))
              && (Truthy(Field(body.value, "pin")) ==> IsSixDigitPin(Field(body.value, "pin")))
    ensures s.Call? ==>
              s.args == UpdateArgs(Field(body.value, "id"), OrNull(Field(body.value, "username")), OrNull(Field(body.value, "pin")))
    ensures s.Call? ==> s.args.newPin == Null || IsSixDigitPin(s.args.newPin)
    ensures signedIn && body.Some? && Destructurable(body.value) ==>
              var id := Field(body.value, "id");
              var pin := Field(body.value, "pin");
              && (!Truthy(id) ==> s == Done(Refused(StatusBadRequest, IdRequired)))
              && (Truthy(id) && Truthy(pin) && !IsSixDigitPin(pin) ==> s == Done(Refused(StatusBadRequest, OptionalPinFormat)))
  {
    if !signedIn then Done(Refused(StatusUnauthorized, LoginRequired))
    else if body.None? || !Destructurable(body.value) then Done(UncaughtException())
    else
      var id := Field(body.value, "id");
      var username := Field(body.value, "username");
      var pin := Field(body.value, "pin");
      if !Truthy(id) then Done(Refused(StatusBadRequest, IdRequired))
      else if Truthy(pin) && !IsSixDigitPin(pin) then Done(Refused(StatusBadRequest, OptionalPinFormat))
      else Call(UpdateArgs(id, OrNull(username), OrNull(pin)))
  }

  /** `PUT`: `updateManager` is the procedure. */
  function Update(signedIn: bool, body: Option<Value>, updateManager: UpdateArgs -> RpcResult): (resp: Response<Value>)
    ensures UpdateStage(signedIn, body).Call? ==>
              resp == MapRpc(updateManager(UpdateStage(signedIn, body).args), StatusOk)
    ensures UpdateStage(signedIn, body).Done? ==> resp == UpdateStage(signedIn, body).response
  {
    match UpdateStage(signedIn, body)
    case Done(response) => response
    case Call(args) => MapRpc(updateManager(args), StatusOk)
  }

  // ----------------------------------------------------------------- delete

  /** The checks of `DELETE`: sign-in, then the `id` search parameter (absent is `None`). */
  function DeleteStage(signedIn: bool, id: Option<string>): (s: Stage<string>)
    ensures !signedIn ==> s == Done(Refused(StatusUnauthorized, LoginRequired))
    ensures s.Call? <==> signedIn && id.Some? && id.value != ""
    ensures s.Call? ==> s.args == id.value
    ensures signedIn && (id.None? || id.value == "") ==> s == Done(Refused(StatusBadRequest, IdRequired))
  {
    if !signedIn then Done(Refused(StatusUnauthorized, LoginRequired))
    else if id.None? || id.value == "" then Done(Refused(StatusBadRequest, IdRequired))
    else Call(id.value)
  }

  /** The answer of `delete_manager`: every error object is a 400, the unique
      violation included. */
  function DeleteReply(r: RpcResult): (resp: Response<Value>)
    ensures r.Returned? ==>
              resp == Response(StatusOk, Json(Obj(map["message" := Str(Deleted), "id" := r.data])))
    ensures r.RpcError? ==> resp == Refused(StatusBadRequest, r.message)
    ensures r.Raised? ==> resp == Refused(StatusInternalError, r.message)
  {
    match r
    case Returned(data) => Response(StatusOk, Json(Obj(map["message" := Str(Deleted), "id" := data])))
    case RpcError(_, message) => Refused(StatusBadRequest, message)
    case Raised(message) => Refused(StatusInternalError, message)
  }

  /** `DELETE`: `deleteManager` is the procedure. */
  function Delete(signedIn: bool, id: Option<string>, deleteManager: string -> RpcResult): (resp: Response<Value>)
    ensures DeleteStage(signedIn, id).Call? ==> resp == DeleteReply(deleteManager(id.value))
    ensures DeleteStage(signedIn, id).Done? ==> resp == DeleteStage(signedIn, id).response
  {
    match DeleteStage(signedIn, id)
    case Done(response) => response
    case Call(managerId) => DeleteReply(deleteManager(managerId))
  }

  // ------------------------------------------------------------ properties

  /** Without a signed-in user every handler answers 401, whatever the body or
      query, and before the body is read (a body that fails to parse included). */
  lemma SignInCheckedFirst(body: Option<Value>, id: Option<string>,
                           createManager: CreateArgs -> RpcResult, updateManager: UpdateArgs -> RpcResult,
                           deleteManager: string -> RpcResult)
    ensures Create(false, body, createManager) == Refused(StatusUnauthorized, LoginToCreate)
    ensures Update(false, body, updateManager) == Refused(StatusUnauthorized, LoginRequired)
    ensures Delete(false, id, deleteManager) == Refused(StatusUnauthorized, LoginRequired)
  {
  }

  /** The PIN check accepts exactly six ASCII digits: not five, not six digits
      followed by a line break, not a number, not non-ASCII digits. */
  lemma PinExamples()
    ensures IsSixDigitPin(Str("123456")) && IsSixDigitPin(Str("000000"))
    ensures !IsSixDigitPin(Str("12345")) && !IsSixDigitPin(Str("1234567"))
    ensures !IsSixDigitPin(Str("123456\n")) && !IsSixDigitPin(Str("12345a"))
    ensures !IsSixDigitPin(Num(123456))
    ensures !IsSixDigitPin(Str("١٢٣٤٥٦"))
  {
    var arabic := "١٢٣٤٥٦";
    assert !IsDigit(arabic[0]);
    var letter := "12345a";
    assert !IsDigit(letter[5]);
  }

  /** A numeric PIN such as `123456` is refused by `POST`, and the procedure is not
      called. */
  lemma NumericPinRefused(username: string)
    requires username != ""
    ensures CreateStage(true, Some(Obj(map["username" := Str(username), "pin" := Num(123456)])))
            == Done(Refused(StatusBadRequest, PinFormat))
  {
    var body := Obj(map["username" := Str(username), "pin" := Num(123456)]);
    assert Field(body, "username") == Str(username);
    assert Field(body, "pin") == Num(123456);
  }

  /** `PUT` passes every falsy username or PIN (absent, `""`, `0`, `false`, `null`)
      to the procedure as `null`, and a given one as it is: only the id is
      required, and an update of the username alone never sends a PIN. */
  lemma EmptyFieldsBecomeNull(id: Value, username: Value, pin: Value)
    requires Truthy(id) && !Truthy(pin)
    ensures UpdateStage(true, Some(Obj(map["id" := id, "username" := username, "pin" := pin])))
            == Call(UpdateArgs(id, if Truthy(username) then username else Null, Null))
    ensures UpdateStage(true, Some(Obj(map["id" := id])))
            == Call(UpdateArgs(id, Null, Null))
  {
    var body := Obj(map["id" := id, "username" := username, "pin" := pin]);
    assert Field(body, "id") == id && Field(body, "username") == username && Field(body, "pin") == pin;
    var bare := Obj(map["id" := id]);
    assert Field(bare, "id") == id && Field(bare, "username") == Undefined && Field(bare, "pin") == Undefined;
  }

  /** A body that is not JSON, or is `null`, is destructured outside the `try`:
      `POST` and `PUT` of a signed-in user end in the framework's 500, and no
      procedure is called. */
  lemma UnreadableBodyUncaught(createManager: CreateArgs -> RpcResult, updateManager: UpdateArgs -> RpcResult)
    ensures Create(true, None, createManager) == UncaughtException()
    ensures Create(true, Some(Null), createManager) == UncaughtException()
    ensures Update(true, None, updateManager) == UncaughtException()
    ensures Update(true, Some(Undefined), updateManager) == UncaughtException()
  {
  }

  /** A unique violation is a 409 from `POST` and `PUT` but a plain 400 from
      `DELETE`; every other error object passes its message through as a 400. */
  lemma UniqueViolationMapping(message: string, other: string)
    requires other != UniqueViolation
    ensures MapRpc(RpcError(UniqueViolation, message), StatusCreated) == Refused(StatusConflict, UsernameTaken)
    ensures MapRpc(RpcError(UniqueViolation, message), StatusOk) == Refused(StatusConflict, UsernameTaken)
    ensures MapRpc(RpcError(other, message), StatusCreated) == Refused(StatusBadRequest, message)
    ensures DeleteReply(RpcError(UniqueViolation, message)) == Refused(StatusBadRequest, message)
  {
  }

  /** Whatever the procedure answers, a called handler's status is one of the
      mapped ones. */
  lemma CalledStatuses(signedIn: bool, body: Option<Value>, createManager: CreateArgs -> RpcResult)
    requires CreateStage(signedIn, body).Call?
    ensures Create(signedIn, body, createManager).status in {StatusCreated, StatusConflict, StatusBadRequest, StatusInternalError}
  {
  }
}
