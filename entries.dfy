/** The daily entry routes (`POST`, `GET` and `PUT` on `/api/entries`) over the
    `bottle_entries` table. Validation and the order of the checks are pure
    functions; the table is a class whose handlers read and write its rows. */
module Entries {
  import opened Js
  import opened Http
  import opened Tokens

  /** A bottle count the handlers accept: a positive integer. */
  type Count = n: int | n >= 1 witness 1

  /** A row of `bottle_entries`. `id`, `entryDate` and `createdAt` are filled in by the store. */
  datatype Entry = Entry(id: nat, driverId: string, managerId: string, bottleCount: Count, entryDate: string, createdAt: int)

  const RequiredForCreate: string := "Driver ID and bottle count are required."
  const RequiredForUpdate: string := "Entry ID and bottle count are required."
  const DriverIdRequired: string := "Driver ID is required."
  const NotPositive: string := "Bottle count must be a positive number."
  const SaveFailed: string := "Failed to save entry."
  const FetchFailed: string := "Failed to fetch last entry."
  const UpdateFailed: string := "Failed to update entry."
  const NoEntryToday: string := "No entry found for today."
  const EntryNotFound: string := "Entry not found."
  const NotOwner: string := "You are not authorized to edit this entry."

  // ------------------------------------------------------------ validation

  /** The outcome of validation: a count, a 400 message, or a TypeError thrown by
      `parseInt`'s ToString. */
  datatype Checked = Accepted(count: Count) | Rejected(message: string) | Threw

  /** The checks POST and PUT share: both fields truthy, then
      `parseInt(bottle_count, 10)` neither NaN nor `<= 0`. */
  function CheckInput(key: Value, count: Value, required: string): (c: Checked)
    ensures !Truthy(key) || !Truthy(count) ==> c == Rejected(required)
    ensures Truthy(key) && Truthy(count) ==> (c == Threw <==> ToString(count).None?)
    ensures c.Accepted? ==> Truthy(key) && Truthy(count) && ToString(count).Some?
                            && ParseInt10(ToString(count).value) == Some(c.count as int)
    ensures Truthy(key) && Truthy(count) && ToString(count).Some? ==>
              var n := ParseInt10(ToString(count).value);
              if n.Some? && n.value >= 1 then c == Accepted(n.value) else c == Rejected(NotPositive)
  {
    if !Truthy(key) || !Truthy(count) then Rejected(required)
    else match ToString(count)
      case None => Threw
      case Some(text) =>
        match ParseInt10(text)
        case None => Rejected(NotPositive)
        case Some(n) => if n <= 0 then Rejected(NotPositive) else Accepted(n)
  }

  /** Every positive integer is accepted as a JSON number. */
  lemma AcceptsPositiveNumber(key: Value, n: int, required: string)
    requires Truthy(key) && n >= 1
    ensures CheckInput(key, Num(n), required) == Accepted(n)
  {
    assert ToString(Num(n)) == Some(IntToString(n));
    ParseIntOfIntToString(n);
  }

  /** Every positive integer is accepted as its decimal string. */
  lemma AcceptsPositiveString(key: Value, n: int, required: string)
    requires Truthy(key) && n >= 1
    ensures CheckInput(key, Str(IntToString(n)), required) == Accepted(n)
  {
    assert ToString(Str(IntToString(n))) == Some(IntToString(n));
    ParseIntOfIntToString(n);
    assert IntToString(n) != [];
  }

  /** Zero and negative integers are rejected, as numbers or as strings. */
  lemma RejectsNonPositive(key: Value, n: int, required: string)
    requires n <= 0
    ensures CheckInput(key, Num(n), required).Rejected?
    ensures CheckInput(key, Str(IntToString(n)), required).Rejected?
  {
    assert ToString(Num(n)) == Some(IntToString(n));
    assert ToString(Str(IntToString(n))) == Some(IntToString(n));
    ParseIntOfIntToString(n);
  }

  /** `"12abc"` counts as 12. */
  lemma TrailingTextIgnored(key: Value, required: string)
    requires Truthy(key)
    ensures CheckInput(key, Str("12abc"), required) == Accepted(12)
  {
    assert ToString(Str("12abc")) == Some("12abc");
    ParseIntTrailingExample();
  }

  /** `"0"` passes the required-field check and fails the number check. */
  lemma ZeroStringRejected(key: Value, required: string)
    requires Truthy(key)
    ensures CheckInput(key, Str("0"), required) == Rejected(NotPositive)
  {
    assert ToString(Str("0")) == Some("0");
    ParseIntOfDigits("0");
  }

  /** `"-5"` and `"abc"` fail the number check. */
  lemma NegativeAndTextRejected(key: Value, required: string)
    requires Truthy(key)
    ensures CheckInput(key, Str("-5"), required) == Rejected(NotPositive)
    ensures CheckInput(key, Str("abc"), required) == Rejected(NotPositive)
  {
    assert ToString(Str("-5")) == Some("-5");
    assert ToString(Str("abc")) == Some("abc");
    ParseIntSignExample();
  }

  /** What `parseInt` reads is what counts: leading white space, a `+`, leading
      zeros and a one-element array are all accepted. */
  lemma AcceptsWhatParseIntReads(key: Value, required: string)
    requires Truthy(key)
    ensures CheckInput(key, Str(" 5"), required) == Accepted(5)
    ensures CheckInput(key, Str("+5"), required) == Accepted(5)
    ensures CheckInput(key, Str("05"), required) == Accepted(5)
    ensures CheckInput(key, Arr([Str("7")]), required) == Accepted(7)
  {
    ParseIntSpaceOrPlusExample();
    ParseIntLeadingZeroExample();
    assert ToString(Str(" 5")) == Some(" 5");
    assert ToString(Str("+5")) == Some("+5");
    assert ToString(Str("05")) == Some("05");
    ToStringExamples();
    var seven := "7";
    assert DecimalValue(seven) == 7 by { assert seven[..0] == []; }
    ParseIntOfDigits(seven);
  }

  /** A count that is an object with its own `toString` key makes `parseInt` throw. */
  lemma NonCallableToStringThrows(key: Value, required: string)
    requires Truthy(key)
    ensures CheckInput(key, Obj(map["toString" := Num(0)]), required) == Threw
    ensures CheckInput(key, Arr([Obj(map["toString" := Num(0)])]), required) == Threw
  {
  }

  /** A zero or missing count fails the required-field check. */
  lemma FalsyCountRejected(key: Value, required: string)
    ensures CheckInput(key, Num(0), required) == Rejected(required)
    ensures CheckInput(key, Undefined, required) == Rejected(required)
  {
  }

  /** `new Date().toISOString().split('T')[0]`: the part before the first 'T'. */
  function UtcDate(iso: string): (d: string)
    ensures d <= iso && 'T' !in d
    ensures d == iso || iso[|d|] == 'T'
  {
    if iso == [] || iso[0] == 'T' then [] else [iso[0]] + UtcDate(iso[1..])
  }

  /** The date part of an ISO timestamp is what precedes its 'T'. */
  lemma {:induction false} UtcDateOfTimestamp(day: string, time: string)
    requires 'T' !in day
    ensures UtcDate(day + "T" + time) == day
    decreases |day|
  {
    var s := day + "T" + time;
    if day == [] {
      assert s[0] == 'T';
    } else {
      assert s[0] == day[0];
      assert s[1..] == day[1..] + "T" + time;
      UtcDateOfTimestamp(day[1..], time);
    }
  }

  // ---------------------------------------------- the checks before the store

  /** Either the response a handler gives before it reaches the store, or what it passes on. */
  datatype Step<A> = Reply(response: Response<Entry>) | Go(args: A)

  function Refuse(status: int, message: string): Response<Entry> {
    Response(status, Error(message))
  }

  /** The row POST asks the store to insert. */
  datatype NewEntry = NewEntry(driverId: Value, managerId: string, count: Count)

  /** POST up to the insert: cookie, session, body, validation. Anything thrown in
      the try block (no secret, a rejected token, a body that is not JSON or not an
      object) becomes 401. */
  function CreateStep(env: Env, cookie: Option<string>, body: Option<Value>): (s: Step<NewEntry>)
    ensures cookie.None? ==> s == Reply(Refuse(StatusUnauthorized, NotAuthenticated))
    ensures cookie.Some? && Verify(env, cookie.value).None? ==> s == Reply(Refuse(StatusUnauthorized, InvalidSession))
    ensures cookie.Some? && Verify(env, cookie.value).Some? && (body.None? || !Destructurable(body.value))
            ==> s == Reply(Refuse(StatusUnauthorized, InvalidSession))
    ensures cookie.Some? && Verify(env, cookie.value).Some? && body.Some? && Destructurable(body.value) ==>
              var c := CheckInput(Field(body.value, "driver_id"), Field(body.value, "bottle_count"), RequiredForCreate);
              && (c.Rejected? ==> s == Reply(Refuse(StatusBadRequest, c.message)))
              && (c.Threw? ==> s == Reply(Refuse(StatusUnauthorized, InvalidSession)))
              && (c.Accepted? ==> s == Go(NewEntry(Field(body.value, "driver_id"), Verify(env, cookie.value).value.id, c.count)))
    ensures s.Go? ==> cookie.Some? && Verify(env, cookie.value).Some?
                      && s.args.managerId == Verify(env, cookie.value).value.id
    ensures s.Reply? ==> s.response.status in {StatusUnauthorized, StatusBadRequest}
  {
    if cookie.None? then Reply(Refuse(StatusUnauthorized, NotAuthenticated))
    else match Verify(env, cookie.value)
      case None => Reply(Refuse(StatusUnauthorized, InvalidSession))
      case Some(claims) =>
        if body.None? || !Destructurable(body.value) then Reply(Refuse(StatusUnauthorized, InvalidSession))
        else
          var driverId := Field(body.value, "driver_id");
          match CheckInput(driverId, Field(body.value, "bottle_count"), RequiredForCreate)
          case Rejected(m) => Reply(Refuse(StatusBadRequest, m))
          case Threw => Reply(Refuse(StatusUnauthorized, InvalidSession))
          case Accepted(n) => Go(NewEntry(driverId, claims.id, n))
  }

  /** The manager of a new row comes from the verified token: a `manager_id` in the
      body changes nothing. */
  lemma ManagerIdNotFromBody(env: Env, cookie: Option<string>, fields: map<string, Value>, forged: Value)
    ensures CreateStep(env, cookie, Some(Obj(fields["manager_id" := forged])))
            == CreateStep(env, cookie, Some(Obj(fields)))
  {
    var forgedBody := Obj(fields["manager_id" := forged]);
    assert Field(forgedBody, "driver_id") == Field(Obj(fields), "driver_id");
    assert Field(forgedBody, "bottle_count") == Field(Obj(fields), "bottle_count");
  }

  /** The check order of POST: the token is verified before the body is read, so a
      rejected token gives 401 whatever the body holds. */
  lemma CreateChecksSessionFirst(env: Env, cookie: Option<string>, body: Option<Value>, other: Option<Value>)
    requires cookie.None? || Verify(env, cookie.value).None?
    ensures CreateStep(env, cookie, body) == CreateStep(env, cookie, other)
  {
  }

  /** How the store keeps the `driver_id` it is given: a string as it is, a number
      as its decimal text; anything else makes the insert fail. */
  function StoredDriverId(v: Value): Option<string> {
    match v
    case Str(s) => Some(s)
    case Num(n) => Some(IntToString(n))
    case _ => None
  }

  /** The GET query, before the store is consulted. */
  datatype Lookup = Lookup(managerId: string, driverId: string)

  /** GET up to the query: the cookie, then `driver_id` (before the token), then the token. */
  function LookupStep(env: Env, cookie: Option<string>, driverParam: Option<string>): (s: Step<Lookup>)
    ensures cookie.None? ==> s == Reply(Refuse(StatusUnauthorized, NotAuthenticated))
    ensures cookie.Some? && driverParam.Some? && driverParam.value != "" ==>
              s == if Verify(env, cookie.value).None? then Reply(Refuse(StatusUnauthorized, InvalidSession))
                   else Go(Lookup(Verify(env, cookie.value).value.id, driverParam.value))
    ensures cookie.Some? && (driverParam.None? || driverParam == Some(""))
            ==> s == Reply(Refuse(StatusBadRequest, DriverIdRequired))
    ensures s.Go? ==> cookie.Some? && Verify(env, cookie.value).Some? && driverParam.Some?
                      && s.args == Lookup(Verify(env, cookie.value).value.id, driverParam.value)
                      && s.args.driverId != ""
  {
    if cookie.None? then Reply(Refuse(StatusUnauthorized, NotAuthenticated))
    else if driverParam.None? || driverParam.value == "" then Reply(Refuse(StatusBadRequest, DriverIdRequired))
    else match Verify(env, cookie.value)
      case None => Reply(Refuse(StatusUnauthorized, InvalidSession))
      case Some(claims) => Go(Lookup(claims.id, driverParam.value))
  }

  /** A row GET looks for: this manager, this driver, this day. */
  predicate IsTodays(e: Entry, q: Lookup, day: string) {
    e.managerId == q.managerId && e.driverId == q.driverId && e.entryDate == day
  }

  /** `order('created_at', { ascending: false }).limit(1)` on the matching rows. */
  function Latest(rows: seq<Entry>, q: Lookup, day: string): (r: Option<Entry>)
    ensures r.Some? ==> r.value in rows && IsTodays(r.value, q, day)
    ensures r.Some? ==> forall e :: e in rows && IsTodays(e, q, day) ==> e.createdAt <= r.value.createdAt
    ensures r.None? <==> forall e :: e in rows ==> !IsTodays(e, q, day)
  {
    if rows == [] then None
    else
      var rest := Latest(rows[1..], q, day);
      assert forall e :: e in rows ==> e == rows[0] || e in rows[1..];
      if !IsTodays(rows[0], q, day) then rest
      else if rest.Some? && rest.value.createdAt > rows[0].createdAt then rest
      else Some(rows[0])
  }

  /** A first entry of the day, or any entry newer than the day's others, is what
      the next GET returns. */
  lemma NewestEntryIsReturned(rows: seq<Entry>, row: Entry, q: Lookup, day: string)
    requires IsTodays(row, q, day)
    requires forall e :: e in rows && IsTodays(e, q, day) ==> e.createdAt < row.createdAt
    ensures Latest(rows + [row], q, day) == Some(row)
  {
    var r := Latest(rows + [row], q, day);
    assert row in rows + [row];
    assert r.value in rows || r.value == row;
  }

  /** The row PUT asks about. */
  datatype Change = Change(key: Value, managerId: string, count: Count)

  /** PUT up to the ownership lookup: cookie, session, body, validation. */
  function UpdateStep(env: Env, cookie: Option<string>, body: Option<Value>): (s: Step<Change>)
    ensures cookie.None? ==> s == Reply(Refuse(StatusUnauthorized, NotAuthenticated))
    ensures cookie.Some? && Verify(env, cookie.value).None? ==> s == Reply(Refuse(StatusUnauthorized, InvalidSession))
    ensures cookie.Some? && Verify(env, cookie.value).Some? && (body.None? || !Destructurable(body.value))
            ==> s == Reply(Refuse(StatusUnauthorized, InvalidSession))
    ensures cookie.Some? && Verify(env, cookie.value).Some? && body.Some? && Destructurable(body.value) ==>
              var c := CheckInput(Field(body.value, "entry_id"), Field(body.value, "bottle_count"), RequiredForUpdate);
              && (c.Rejected? ==> s == Reply(Refuse(StatusBadRequest, c.message)))
              && (c.Threw? ==> s == Reply(Refuse(StatusUnauthorized, InvalidSession)))
              && (c.Accepted? ==> s == Go(Change(Field(body.value, "entry_id"), Verify(env, cookie.value).value.id, c.count)))
    ensures s.Go? ==> cookie.Some? && Verify(env, cookie.value).Some?
                      && s.args.managerId == Verify(env, cookie.value).value.id
    ensures s.Reply? ==> s.response.status in {StatusUnauthorized, StatusBadRequest}
  {
    if cookie.None? then Reply(Refuse(StatusUnauthorized, NotAuthenticated))
    else match Verify(env, cookie.value)
      case None => Reply(Refuse(StatusUnauthorized, InvalidSession))
      case Some(claims) =>
        if body.None? || !Destructurable(body.value) then Reply(Refuse(StatusUnauthorized, InvalidSession))
        else
          var key := Field(body.value, "entry_id");
          match CheckInput(key, Field(body.value, "bottle_count"), RequiredForUpdate)
          case Rejected(m) => Reply(Refuse(StatusBadRequest, m))
          case Threw => Reply(Refuse(StatusUnauthorized, InvalidSession))
          case Accepted(n) => Go(Change(key, claims.id, n))
  }

  /** The id `.eq('id', entry_id)` selects: a non-negative number, or a string of
      digits; any other value selects no row. */
  function RowKey(v: Value): Option<nat> {
    match v
    case Num(n) => if n >= 0 then Some(n) else None
    case Str(s) => if s != [] && AllDigits(s) then Some(DecimalValue(s)) else None
    case _ => None
  }

  /** The position of the row with this id. */
  function IndexOfId(rows: seq<Entry>, id: nat): (r: Option<nat>)
    ensures r.Some? ==> r.value < |rows| && rows[r.value].id == id
    ensures r.None? ==> forall i :: 0 <= i < |rows| ==> rows[i].id != id
  {
    if rows == [] then None
    else if rows[0].id == id then Some(0)
    else match IndexOfId(rows[1..], id)
      case None => None
      case Some(i) => Some(i + 1)
  }

  /** The row PUT updates and its new count. */
  datatype Target = Target(index: nat, count: Count)

  /** PUT up to the update, in the handler's order: 401, then 400, then 404 (no
      such row, or the lookup failed), then 403 (another manager's row). */
  function OwnershipStep(rows: seq<Entry>, env: Env, cookie: Option<string>, body: Option<Value>, fetchFails: bool)
    : (s: Step<Target>)
    ensures UpdateStep(env, cookie, body).Reply? ==> s.Reply? && s.response == UpdateStep(env, cookie, body).response
    ensures s.Reply? && s.response.status == StatusNotFound
            ==> UpdateStep(env, cookie, body).Go?
                && (fetchFails || RowKey(UpdateStep(env, cookie, body).args.key).None?
                    || forall i :: 0 <= i < |rows| ==> Some(rows[i].id) != RowKey(UpdateStep(env, cookie, body).args.key))
    ensures s.Reply? && s.response.status == StatusForbidden
            ==> UpdateStep(env, cookie, body).Go? && !fetchFails
                && exists i :: 0 <= i < |rows| && Some(rows[i].id) == RowKey(UpdateStep(env, cookie, body).args.key)
                               && rows[i].managerId != UpdateStep(env, cookie, body).args.managerId
    ensures UpdateStep(env, cookie, body).Go? && s.Reply? ==> s.response.status in {StatusNotFound, StatusForbidden}
    ensures UpdateStep(env, cookie, body).Go? ==>
              var key := RowKey(UpdateStep(env, cookie, body).args.key);
              (s == Reply(Refuse(StatusNotFound, EntryNotFound))
               <==> fetchFails || key.None? || forall i :: 0 <= i < |rows| ==> Some(rows[i].id) != key)
    ensures s.Go? ==> UpdateStep(env, cookie, body).Go? && !fetchFails && s.args.index < |rows|
                      && Some(rows[s.args.index].id) == RowKey(UpdateStep(env, cookie, body).args.key)
                      && rows[s.args.index].managerId == UpdateStep(env, cookie, body).args.managerId
                      && s.args.count == UpdateStep(env, cookie, body).args.count
  {
    match UpdateStep(env, cookie, body)
    case Reply(r) => Reply(r)
    case Go(c) =>
      var key := RowKey(c.key);
      if fetchFails || key.None? then Reply(Refuse(StatusNotFound, EntryNotFound))
      else match IndexOfId(rows, key.value)
        case None => Reply(Refuse(StatusNotFound, EntryNotFound))
        case Some(i) =>
          if rows[i].managerId != c.managerId then Reply(Refuse(StatusForbidden, NotOwner))
          else Go(Target(i, c.count))
  }

  /** Another manager's row is never updated: it yields 403, not 404. */
  lemma OtherManagersRowForbidden(rows: seq<Entry>, env: Env, token: string, fields: map<string, Value>, i: nat)
    requires Verify(env, token).Some?
    requires "entry_id" in fields && "bottle_count" in fields
    requires CheckInput(fields["entry_id"], fields["bottle_count"], RequiredForUpdate).Accepted?
    requires forall a, b :: 0 <= a < b < |rows| ==> rows[a].id != rows[b].id
    requires i < |rows| && Some(rows[i].id) == RowKey(fields["entry_id"])
    requires rows[i].managerId != Verify(env, token).value.id
    ensures OwnershipStep(rows, env, Some(token), Some(Obj(fields)), false) == Reply(Refuse(StatusForbidden, NotOwner))
  {
    var body := Obj(fields);
    assert Field(body, "entry_id") == fields["entry_id"];
    assert Field(body, "bottle_count") == fields["bottle_count"];
    var c := UpdateStep(env, Some(token), Some(body));
    assert c.Go? && c.args.key == fields["entry_id"];
    var key := RowKey(fields["entry_id"]).value;
    var j := IndexOfId(rows, key);
    assert j.Some? && rows[j.value].id == rows[i].id;
    assert j.value == i;
  }

  /** The owner of an existing row can edit it: with distinct ids, an accepted
      PUT by the row's manager goes on to update exactly that row. */
  lemma OwnerCanEdit(rows: seq<Entry>, env: Env, token: string, fields: map<string, Value>, i: nat)
    requires Verify(env, token).Some?
    requires "entry_id" in fields && "bottle_count" in fields
    requires CheckInput(fields["entry_id"], fields["bottle_count"], RequiredForUpdate).Accepted?
    requires forall a, b :: 0 <= a < b < |rows| ==> rows[a].id != rows[b].id
    requires i < |rows| && Some(rows[i].id) == RowKey(fields["entry_id"])
    requires rows[i].managerId == Verify(env, token).value.id
    ensures OwnershipStep(rows, env, Some(token), Some(Obj(fields)), false)
            == Go(Target(i, CheckInput(fields["entry_id"], fields["bottle_count"], RequiredForUpdate).count))
  {
    var body := Obj(fields);
    assert Field(body, "entry_id") == fields["entry_id"];
    assert Field(body, "bottle_count") == fields["bottle_count"];
    var c := UpdateStep(env, Some(token), Some(body));
    assert c.Go? && c.args.key == fields["entry_id"];
    var key := RowKey(fields["entry_id"]).value;
    var j := IndexOfId(rows, key);
    assert j.Some? && rows[j.value].id == rows[i].id;
    assert j.value == i;
  }

  /** `GET /api/entries` as a function of the table: the checks of `LookupStep`,
      then 500 on a store error, else the newest of today's matching rows, or 404
      "No entry found for today." when there is none. */
  function LatestAnswer(rows: seq<Entry>, env: Env, cookie: Option<string>, driverParam: Option<string>,
                        nowIso: string, fetchFails: bool): (resp: Response<Entry>)
    ensures LookupStep(env, cookie, driverParam).Reply? ==> resp == LookupStep(env, cookie, driverParam).response
    ensures LookupStep(env, cookie, driverParam).Go? && fetchFails ==> resp == Refuse(StatusInternalError, FetchFailed)
    ensures LookupStep(env, cookie, driverParam).Go? && !fetchFails ==>
              var q := LookupStep(env, cookie, driverParam).args;
              var day := UtcDate(nowIso);
              && (resp.status == StatusNotFound <==> forall e :: e in rows ==> !IsTodays(e, q, day))
              && (resp.status == StatusNotFound ==> resp.body == Message(NoEntryToday))
              && (resp.status != StatusNotFound ==>
                    && resp.status == StatusOk && resp.body.Json?
                    && resp.body.data in rows && IsTodays(resp.body.data, q, day)
                    && forall e :: e in rows && IsTodays(e, q, day) ==> e.createdAt <= resp.body.data.createdAt)
  {
    match LookupStep(env, cookie, driverParam)
    case Reply(r) => r
    case Go(q) =>
      if fetchFails then Refuse(StatusInternalError, FetchFailed)
      else match Latest(rows, q, UtcDate(nowIso))
        case None => Response(StatusNotFound, Message(NoEntryToday))
        case Some(e) => Response(StatusOk, Json(e))
  }

  // ------------------------------------------------------------------ table

  /** Row ids are distinct and below `next`. */
  ghost predicate IdsBelow(rows: seq<Entry>, next: nat) {
    && (forall i :: 0 <= i < |rows| ==> rows[i].id < next)
    && (forall i, j :: 0 <= i < j < |rows| ==> rows[i].id != rows[j].id)
  }

  /** Changing only a row's count keeps ids distinct. */
  lemma SetCountKeepsIdsDistinct(rows: seq<Entry>, i: nat, count: Count, next: nat)
    requires IdsBelow(rows, next) && i < |rows|
    ensures IdsBelow(rows[i := rows[i].(bottleCount := count)], next)
  {
  }

  /** Appending a row with the next id keeps ids distinct. */
  lemma AppendKeepsIdsDistinct(rows: seq<Entry>, row: Entry, next: nat)
    requires IdsBelow(rows, next) && row.id == next
    ensures IdsBelow(rows + [row], next + 1)
  {
    var r := rows + [row];
    assert forall i :: 0 <= i < |rows| ==> r[i] == rows[i];
  }

  /** The `bottle_entries` table as the three handlers see it. */
  class EntryTable {
    var rows: seq<Entry>
    /** The id the store gives the next inserted row. */
    var nextId: nat

    /** Row ids are distinct and below `nextId`. */
    ghost predicate Valid()
      reads this
    {
      IdsBelow(rows, nextId)
    }

    constructor ()
      ensures Valid() && rows == [] && nextId == 1
    {
      rows := [];
      nextId := 1;
    }

    /** `POST /api/entries`. `today` and `createdAt` are the values the store gives
        the new row's `entry_date` and `created_at`; `insertFails` is a store error. */
    method Post(env: Env, cookie: Option<string>, body: Option<Value>, today: string, createdAt: int, insertFails: bool)
      returns (resp: Response<Entry>)
      requires Valid()
      modifies this
      ensures Valid()
      ensures CreateStep(env, cookie, body).Reply?
              ==> resp == CreateStep(env, cookie, body).response && rows == old(rows) && nextId == old(nextId)
      ensures CreateStep(env, cookie, body).Go? ==>
                var e := CreateStep(env, cookie, body).args;
                if insertFails || StoredDriverId(e.driverId).None? then
                  resp == Refuse(StatusInternalError, SaveFailed) && rows == old(rows) && nextId == old(nextId)
                else
                  var row := Entry(old(nextId), StoredDriverId(e.driverId).value, e.managerId, e.count, today, createdAt);
                  rows == old(rows) + [row] && nextId == old(nextId) + 1 && resp == Response(StatusCreated, Json(row))
    {
      match CreateStep(env, cookie, body)
      case Reply(r) =>
        resp := r;
      case Go(e) =>
        var driverId := StoredDriverId(e.driverId);
        if insertFails || driverId.None? {
          resp := Refuse(StatusInternalError, SaveFailed);
        } else {
          var row := Entry(nextId, driverId.value, e.managerId, e.count, today, createdAt);
          AppendKeepsIdsDistinct(rows, row, nextId);
          rows := rows + [row];
          nextId := nextId + 1;
          resp := Response(StatusCreated, Json(row));
        }
    }

    /** `GET /api/entries?driver_id=`: the newest of today's rows for this manager
        and driver, 404 when there is none. `nowIso` is the server's clock as
        `toISOString()` writes it; `fetchFails` is a store error. */
    method GetLatest(env: Env, cookie: Option<string>, driverParam: Option<string>, nowIso: string, fetchFails: bool)
      returns (resp: Response<Entry>)
      ensures resp == LatestAnswer(rows, env, cookie, driverParam, nowIso, fetchFails)
    {
      match LookupStep(env, cookie, driverParam)
      case Reply(r) =>
        resp := r;
      case Go(q) =>
        if fetchFails {
          resp := Refuse(StatusInternalError, FetchFailed);
        } else {
          var found := Latest(rows, q, UtcDate(nowIso));
          if found.None? {
            resp := Response(StatusNotFound, Message(NoEntryToday));
          } else {
            resp := Response(StatusOk, Json(found.value));
          }
        }
    }

    /** `PUT /api/entries`: the checks of `OwnershipStep`, then the update of the one
        row's `bottle_count`; `updateFails` is a store error. */
    method Put(env: Env, cookie: Option<string>, body: Option<Value>, fetchFails: bool, updateFails: bool)
      returns (resp: Response<Entry>)
      requires Valid()
      modifies this
      ensures Valid() && nextId == old(nextId)
      ensures OwnershipStep(old(rows), env, cookie, body, fetchFails).Reply?
              ==> resp == OwnershipStep(old(rows), env, cookie, body, fetchFails).response && rows == old(rows)
      ensures OwnershipStep(old(rows), env, cookie, body, fetchFails).Go? ==>
                var t := OwnershipStep(old(rows), env, cookie, body, fetchFails).args;
                if updateFails then
                  resp == Refuse(StatusInternalError, UpdateFailed) && rows == old(rows)
                else
                  && |rows| == |old(rows)|
                  && rows[t.index] == old(rows)[t.index].(bottleCount := t.count)
                  && (forall k :: 0 <= k < |rows| && k != t.index ==> rows[k] == old(rows)[k])
                  && resp == Response(StatusOk, Json(rows[t.index]))
    {
      var step := OwnershipStep(rows, env, cookie, body, fetchFails);
      match step
      case Reply(r) =>
        resp := r;
      case Go(t) =>
        if updateFails {
          resp := Refuse(StatusInternalError, UpdateFailed);
        } else {
          assert t.index < |rows|;
          SetCountKeepsIdsDistinct(rows, t.index, t.count, nextId);
          var updated := rows[t.index].(bottleCount := t.count);
          rows := rows[t.index := updated];
          resp := Response(StatusOk, Json(updated));
        }
    }
  }

  // ------------------------------------------------------------- scenarios

  /** A new entry, queried right after it is saved on the same day, is what GET
      returns, provided it is newer than the day's other rows of that manager
      and driver. */
  method SaveThenQuery(t: EntryTable, env: Env, token: string, body: Value, day: string, time: string, createdAt: int)
    returns (created: Response<Entry>, latest: Response<Entry>)
    requires t.Valid() && 'T' !in day
    requires CreateStep(env, Some(token), Some(body)).Go?
    requires var e := CreateStep(env, Some(token), Some(body)).args;
             StoredDriverId(e.driverId).Some? && StoredDriverId(e.driverId).value != ""
    requires var e := CreateStep(env, Some(token), Some(body)).args;
             forall r :: r in t.rows && IsTodays(r, Lookup(e.managerId, StoredDriverId(e.driverId).value), day)
                         ==> r.createdAt < createdAt
    modifies t
    ensures created.status == StatusCreated && created.body.Json?
    ensures latest == Response(StatusOk, created.body)
  {
    var e := CreateStep(env, Some(token), Some(body)).args;
    var driver := StoredDriverId(e.driverId).value;
    var q := Lookup(e.managerId, driver);
    var before := t.rows;
    created := t.Post(env, Some(token), Some(body), day, createdAt, false);
    var row := Entry(t.nextId - 1, driver, e.managerId, e.count, day, createdAt);
    assert t.rows == before + [row];
    UtcDateOfTimestamp(day, time);
    NewestEntryIsReturned(before, row, q, day);
    assert LookupStep(env, Some(token), Some(driver)) == Go(q);
    latest := t.GetLatest(env, Some(token), Some(driver), day + "T" + time, false);
  }
}
