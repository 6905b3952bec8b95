/** The manager dashboard page (`ManagerDashboard`): the count typed on the
    number pad, the edit mode, the submit in flight and the last entry of the
    selected driver, updated handler by handler. Requests the page sends are
    returned to the caller; what comes back is passed in. */
module Dashboard {
  import opened Js
  import opened Http
  import opened Tokens
  import opened Entries
  import Drivers

  /** The count shown has at most this many digits when typed on the pad. */
  const MaxDigits: nat := 4

  // ------------------------------------------------------------- key presses

  /** `handleDigitClick`'s next count: a digit replaces "0", is appended below
      four digits, and is ignored from four digits on. */
  function PressDigit(count: string, digit: char): string {
    if count == "0" then [digit]
    else if |count| < MaxDigits then count + [digit]
    else count
  }

  /** `handleDeleteClick`'s next count: drop the last character, down to "0". */
  function PressDelete(count: string): string {
    if |count| > 1 then count[..|count| - 1] else "0"
  }

  datatype Key = DigitKey(digit: char) | DeleteKey

  /** The pad offers the ten digits and delete. */
  predicate PadKey(k: Key) {
    k.DeleteKey? || IsDigit(k.digit)
  }

  function Press(count: string, k: Key): string {
    match k
    case DigitKey(d) => PressDigit(count, d)
    case DeleteKey => PressDelete(count)
  }

  /** The count after pressing `keys` in order. */
  function PressAll(count: string, keys: seq<Key>): string
    decreases |keys|
  {
    if keys == [] then count else PressAll(Press(count, keys[0]), keys[1..])
  }

  function Longest(count: string): nat {
    if |count| > MaxDigits then |count| else MaxDigits
  }

  /** One press keeps the count a numeral, and never makes it longer than four
      digits or than it already was. */
  lemma PressKeepsNumeral(count: string, k: Key)
    requires IsNumeral(count) && PadKey(k)
    ensures IsNumeral(Press(count, k))
    ensures |Press(count, k)| <= Longest(count)
  {
    var next := Press(count, k);
    if k.DeleteKey? && |count| > 1 {
      assert next[0] == count[0];
    } else if k.DigitKey? && count != "0" && |count| < MaxDigits {
      assert next[0] == count[0];
    }
  }

  /** Any sequence of pad presses keeps the count a numeral (digits, no leading
      zero except "0" itself) within the same bound. */
  lemma {:induction false} PressesKeepNumeral(count: string, keys: seq<Key>)
    requires IsNumeral(count)
    requires forall i :: 0 <= i < |keys| ==> PadKey(keys[i])
    ensures IsNumeral(PressAll(count, keys))
    ensures |PressAll(count, keys)| <= Longest(count)
    decreases |keys|
  {
    if keys != [] {
      PressKeepsNumeral(count, keys[0]);
      var next := Press(count, keys[0]);
      PressesKeepNumeral(next, keys[1..]);
      assert Longest(next) <= Longest(count);
    }
  }

  /** From the initial "0", the count stays a numeral of at most four digits. */
  lemma TypedFromZero(keys: seq<Key>)
    requires forall i :: 0 <= i < |keys| ==> PadKey(keys[i])
    ensures IsNumeral(PressAll("0", keys)) && |PressAll("0", keys)| <= MaxDigits
  {
    PressesKeepNumeral("0", keys);
  }

  /** A digit on "0" replaces it, so '0' on "0" stays "0"; from four digits on a
      digit changes nothing. */
  lemma DigitEdgeCases(digit: char, count: string)
    ensures PressDigit("0", digit) == [digit]
    ensures PressDigit("0", '0') == "0"
    ensures count != "0" && |count| >= MaxDigits ==> PressDigit(count, digit) == count
  {
  }

  /** Delete right after a digit that was appended restores the count. */
  lemma DeleteUndoesDigit(count: string, digit: char)
    requires IsNumeral(count) && count != "0" && |count| < MaxDigits
    ensures PressDelete(PressDigit(count, digit)) == count
  {
    assert (count + [digit])[..|count|] == count;
  }

  /** An appended digit is a new last decimal place. */
  lemma DigitAppendsPlace(count: string, digit: char)
    requires IsNumeral(count) && count != "0" && |count| < MaxDigits && IsDigit(digit)
    ensures AllDigits(PressDigit(count, digit))
    ensures DecimalValue(PressDigit(count, digit)) == 10 * DecimalValue(count) + DigitValue(digit)
  {
    var next := count + [digit];
    assert next[..|next| - 1] == count;
  }

  /** Delete drops the last decimal place; on a single digit it yields zero. */
  lemma DeleteDropsPlace(count: string)
    requires IsNumeral(count)
    ensures IsNumeral(PressDelete(count))
    ensures DecimalValue(PressDelete(count)) == DecimalValue(count) / 10
  {
    if |count| > 1 {
      var prefix := count[..|count| - 1];
      assert PressDelete(count) == prefix;
      assert prefix[0] == count[0];
      var d := DigitValue(count[|count| - 1]);
      assert DecimalValue(count) == 10 * DecimalValue(prefix) + d;
      assert 0 <= d < 10;
    } else {
      assert DecimalValue(count) == 10 * DecimalValue(count[..0]) + DigitValue(count[0]);
      assert count[..0] == [];
    }
  }

  // ---------------------------------------------------------------- requests

  datatype Verb = Post | Put

  /** A request to `/api/entries`: the method and the JSON body sent. */
  datatype Request = Request(verb: Verb, body: Value)

  /** The request `handleSubmit` sends: PUT of `{entry_id, bottle_count}` in edit
      mode (`JSON.stringify` drops an `entry_id` that is undefined), otherwise
      POST of `{driver_id, bottle_count}`. */
  function SubmitRequest(driver: Drivers.Listed, isEditMode: bool, lastEntry: Option<Entry>, count: string): Request {
    if isEditMode then
      if lastEntry.Some? then Request(Put, Obj(map["entry_id" := Num(lastEntry.value.id), "bottle_count" := Str(count)]))
      else Request(Put, Obj(map["bottle_count" := Str(count)]))
    else Request(Post, Obj(map["driver_id" := Str(driver.id), "bottle_count" := Str(count)]))
  }

  /** The guard of `handleSubmit`: a driver is selected, the count is not "0" and
      no submit is in flight. */
  predicate SubmitAllowed(driver: Option<Drivers.Listed>, count: string, loading: bool) {
    driver.Some? && count != "0" && !loading
  }

  /** `response.ok` for the submit's answer; a request that throws (`None`) fails. */
  predicate Succeeded(reply: Option<Response<Entry>>) {
    reply.Some? && 200 <= reply.value.status <= 299
  }

  /** A request the page sends that the route refuses does not count as saved:
      a PUT without a last entry leaves the typed count and edit mode in place. */
  lemma RefusedEditNotSucceeded(env: Env, token: string, driver: Drivers.Listed, count: string,
                                rows: seq<Entry>, fetchFails: bool)
    requires Verify(env, token).Some?
    ensures var body := SubmitRequest(driver, true, None, count).body;
            !Succeeded(Some(OwnershipStep(rows, env, Some(token), Some(body), fetchFails).response))
  {
    EditWithoutEntryRefused(env, token, driver, count);
  }

  /** `fetchLastEntry`'s outcome: the payload of a 2xx answer; anything else,
      including a request that throws (`None`), clears it. */
  function LastEntryFrom(reply: Option<Response<Entry>>): (e: Option<Entry>)
    ensures e.Some? <==> reply.Some? && 200 <= reply.value.status <= 299 && reply.value.body.Json?
    ensures e.Some? ==> e.value == reply.value.body.data
  {
    if reply.Some? && 200 <= reply.value.status <= 299 && reply.value.body.Json? then Some(reply.value.body.data)
    else None
  }

  /** What `fetchLastEntry` keeps is what GET answers for the driver: the newest
      of today's rows of this manager and driver when the session and the query
      succeed, and nothing otherwise, including when today has no row (404). */
  lemma LastEntryIsTodaysNewest(rows: seq<Entry>, env: Env, cookie: Option<string>, driverId: string,
                                nowIso: string, fetchFails: bool)
    ensures var step := LookupStep(env, cookie, Some(driverId));
            LastEntryFrom(Some(LatestAnswer(rows, env, cookie, Some(driverId), nowIso, fetchFails)))
            == if step.Go? && !fetchFails then Latest(rows, step.args, UtcDate(nowIso)) else None
  {
  }

  /** Every count the page can submit is accepted by the route's validation, with
      the number it shows. */
  lemma SubmittedCountAccepted(key: Value, count: string, required: string)
    requires Truthy(key) && IsNumeral(count) && count != "0"
    ensures CheckInput(key, Str(count), required).Accepted?
    ensures CheckInput(key, Str(count), required).count as int == DecimalValue(count)
  {
    assert ToString(Str(count)) == Some(count);
    ParseIntOfDigits(count);
    NumeralValuePositive(count);
    var n: Count := DecimalValue(count);
    assert ParseInt10(ToString(Str(count)).value) == Some(n as int);
    assert CheckInput(key, Str(count), required) == Accepted(n);
  }

  /** A POST the page sends for a verified session passes every check of the route
      and asks for a row of the selected driver with the count shown. */
  lemma PostReachesStore(env: Env, token: string, driver: Drivers.Listed, lastEntry: Option<Entry>, count: string)
    requires Verify(env, token).Some? && driver.id != ""
    requires IsNumeral(count) && count != "0"
    ensures var step := CreateStep(env, Some(token), Some(SubmitRequest(driver, false, lastEntry, count).body));
            && step.Go?
            && step.args.driverId == Str(driver.id)
            && step.args.managerId == Verify(env, token).value.id
            && step.args.count as int == DecimalValue(count)
  {
    var body := Obj(map["driver_id" := Str(driver.id), "bottle_count" := Str(count)]);
    assert Field(body, "driver_id") == Str(driver.id);
    assert Field(body, "bottle_count") == Str(count);
    SubmittedCountAccepted(Str(driver.id), count, RequiredForCreate);
  }

  /** A PUT in edit mode without a last entry carries no `entry_id` and is refused
      with 400. */
  lemma EditWithoutEntryRefused(env: Env, token: string, driver: Drivers.Listed, count: string)
    requires Verify(env, token).Some?
    ensures UpdateStep(env, Some(token), Some(SubmitRequest(driver, true, None, count).body))
            == Reply(Refuse(StatusBadRequest, RequiredForUpdate))
  {
    var body := Obj(map["bottle_count" := Str(count)]);
    assert Field(body, "entry_id") == Undefined;
  }

  /** A stored count, as `String` writes it, is a numeral other than "0" that
      `parseInt` reads back. */
  lemma StoredCountShown(n: Count)
    ensures IsNumeral(IntToString(n)) && IntToString(n) != "0"
    ensures ParseInt10(IntToString(n)) == Some(n as int)
  {
    var m: nat := n;
    var shown := NatToString(m);
    assert IntToString(n) == shown;
    NatToStringIsNumeral(m);
    ParseIntOfIntToString(n);
    var zero := "0";
    assert DecimalValue(zero) == 0 by { assert zero[..0] == []; }
    assert DecimalValue(shown) != DecimalValue(zero);
  }

  /** A PUT the page sends in edit mode with a last entry passes every check of
      the route and asks to set that entry to the count shown. Store ids start at
      1; an `entry_id` of 0 would be falsy. */
  lemma PutReachesStore(env: Env, token: string, driver: Drivers.Listed, e: Entry, count: string)
    requires Verify(env, token).Some? && e.id >= 1
    requires IsNumeral(count) && count != "0"
    ensures var step := UpdateStep(env, Some(token), Some(SubmitRequest(driver, true, Some(e), count).body));
            && step.Go?
            && step.args.key == Num(e.id)
            && step.args.managerId == Verify(env, token).value.id
            && step.args.count as int == DecimalValue(count)
  {
    var body := Obj(map["entry_id" := Num(e.id), "bottle_count" := Str(count)]);
    assert Field(body, "entry_id") == Num(e.id);
    assert Field(body, "bottle_count") == Str(count);
    SubmittedCountAccepted(Num(e.id), count, RequiredForUpdate);
  }

  /** Editing and submitting the count unchanged asks the route to set the entry
      to the count it already has. */
  lemma EditRoundTrip(env: Env, token: string, driver: Drivers.Listed, e: Entry)
    requires Verify(env, token).Some? && e.id >= 1
    ensures UpdateStep(env, Some(token), Some(SubmitRequest(driver, true, Some(e), IntToString(e.bottleCount)).body))
            == Go(Change(Num(e.id), Verify(env, token).value.id, e.bottleCount))
  {
    var shown := IntToString(e.bottleCount);
    StoredCountShown(e.bottleCount);
    PutReachesStore(env, token, driver, e, shown);
    ParseIntOfDigits(shown);
  }

  // ------------------------------------------------------------------- page

  class ManagerDashboard {
    var selectedDriver: Option<Drivers.Listed>
    var bottleCount: string
    var isNumberPadVisible: bool
    var submitLoading: bool
    var lastEntry: Option<Entry>
    var isEditMode: bool

    /** The count shown is always a numeral. */
    ghost predicate Valid()
      reads this
    {
      IsNumeral(bottleCount)
    }

    /** The initial state of every `useState`. */
    constructor ()
      ensures Valid()
      ensures selectedDriver == None && bottleCount == "0" && !isNumberPadVisible
      ensures !submitLoading && lastEntry == None && !isEditMode
    {
      selectedDriver := None;
      bottleCount := "0";
      isNumberPadVisible := false;
      submitLoading := false;
      lastEntry := None;
      isEditMode := false;
    }

    method DigitClick(digit: char)
      requires Valid() && IsDigit(digit)
      modifies this`bottleCount
      ensures Valid()
      ensures bottleCount == PressDigit(old(bottleCount), digit)
      ensures |bottleCount| <= Longest(old(bottleCount))
    {
      PressKeepsNumeral(bottleCount, DigitKey(digit));
      if bottleCount == "0" {
        bottleCount := [digit];
      } else if |bottleCount| < MaxDigits {
        bottleCount := bottleCount + [digit];
      }
    }

    method DeleteClick()
      requires Valid()
      modifies this`bottleCount
      ensures Valid()
      ensures bottleCount == PressDelete(old(bottleCount))
      ensures DecimalValue(bottleCount) == DecimalValue(old(bottleCount)) / 10
    {
      DeleteDropsPlace(bottleCount);
      bottleCount := if |bottleCount| > 1 then bottleCount[..|bottleCount| - 1] else "0";
    }

    /** The sidebar's `onSelectDriver`: select, and reset count, pad and edit mode.
        The last entry is replaced only when its fetch completes. */
    method SelectDriver(driver: Drivers.Listed)
      modifies this`selectedDriver, this`bottleCount, this`isNumberPadVisible, this`isEditMode
      ensures Valid()
      ensures selectedDriver == Some(driver) && bottleCount == "0" && !isNumberPadVisible && !isEditMode
    {
      selectedDriver := Some(driver);
      bottleCount := "0";
      isNumberPadVisible := false;
      isEditMode := false;
    }

    /** The count button toggles the pad. */
    method TogglePad()
      modifies this`isNumberPadVisible
      ensures isNumberPadVisible == !old(isNumberPadVisible)
    {
      isNumberPadVisible := !isNumberPadVisible;
    }

    /** `fetchLastEntry` completing with `reply`. */
    method ReceiveLastEntry(reply: Option<Response<Entry>>)
      modifies this`lastEntry
      ensures lastEntry == LastEntryFrom(reply)
    {
      if reply.Some? && 200 <= reply.value.status <= 299 && reply.value.body.Json? {
        lastEntry := Some(reply.value.body.data);
      } else {
        lastEntry := None;
      }
    }

    /** `handleEditClick`: nothing without a last entry; otherwise edit mode, its
        count as `String` writes it, and the pad. */
    method EditClick()
      requires Valid()
      modifies this`isEditMode, this`bottleCount, this`isNumberPadVisible
      ensures Valid()
      ensures old(lastEntry).None? ==> unchanged(this)
      ensures old(lastEntry).Some? ==>
                && isEditMode && isNumberPadVisible
                && bottleCount == IntToString(lastEntry.value.bottleCount)
                && bottleCount != "0"
                && ParseInt10(bottleCount) == Some(lastEntry.value.bottleCount as int)
    {
      if lastEntry.Some? {
        isEditMode := true;
        var e := lastEntry.value;
        bottleCount := IntToString(e.bottleCount);
        isNumberPadVisible := true;
        StoredCountShown(e.bottleCount);
      }
    }

    /** The synchronous part of `handleSubmit`: the guard, then the request and the
        in-flight flag. */
    method BeginSubmit() returns (request: Option<Request>)
      modifies this`submitLoading
      ensures !SubmitAllowed(old(selectedDriver), bottleCount, old(submitLoading)) ==>
                request.None? && submitLoading == old(submitLoading)
      ensures SubmitAllowed(old(selectedDriver), bottleCount, old(submitLoading)) ==>
                && request == Some(SubmitRequest(selectedDriver.value, isEditMode, lastEntry, bottleCount))
                && submitLoading
    {
      if selectedDriver.None? || bottleCount == "0" || submitLoading {
        return None;
      }
      submitLoading := true;
      request := Some(SubmitRequest(selectedDriver.value, isEditMode, lastEntry, bottleCount));
    }

    /** The rest of `handleSubmit` once the answer is in (`None` when the request
        throws): after a 2xx answer, count "0", pad hidden and edit mode off (the
        refresh of the last entry arrives later through `ReceiveLastEntry`);
        otherwise these are kept; in every case the submit is no longer in flight. */
    method FinishSubmit(reply: Option<Response<Entry>>)
      requires Valid()
      modifies this`bottleCount, this`isNumberPadVisible, this`isEditMode, this`submitLoading
      ensures Valid()
      ensures !submitLoading
      ensures Succeeded(reply) ==> bottleCount == "0" && !isNumberPadVisible && !isEditMode
      ensures !Succeeded(reply) ==> bottleCount == old(bottleCount) && isNumberPadVisible == old(isNumberPadVisible)
                                    && isEditMode == old(isEditMode)
    {
      if reply.Some? && 200 <= reply.value.status <= 299 {
        bottleCount := "0";
        isNumberPadVisible := false;
        isEditMode := false;
      }
      submitLoading := false;
    }
  }

  // --------------------------------------------------------------- sessions

  /** The effect that runs when the selected driver changes: with a driver, GET
      its last entry and keep the answer; without one, clear it. The page then
      holds today's newest row of the driver for the signed-in manager. */
  method DriverChanged(page: ManagerDashboard, t: EntryTable, env: Env, cookie: Option<string>,
                       nowIso: string, fetchFails: bool)
    modifies page`lastEntry
    ensures page.selectedDriver.None? ==> page.lastEntry == None
    ensures page.selectedDriver.Some? ==>
              var step := LookupStep(env, cookie, Some(page.selectedDriver.value.id));
              page.lastEntry == if step.Go? && !fetchFails then Latest(t.rows, step.args, UtcDate(nowIso)) else None
  {
    if page.selectedDriver.None? {
      page.ReceiveLastEntry(None);
    } else {
      var id := page.selectedDriver.value.id;
      var reply := t.GetLatest(env, cookie, Some(id), nowIso, fetchFails);
      LastEntryIsTodaysNewest(t.rows, env, cookie, id, nowIso, fetchFails);
      page.ReceiveLastEntry(Some(reply));
    }
  }

  /** While a submit is in flight a second one sends nothing. */
  method DoubleSubmitSendsOnce(driver: Drivers.Listed, keys: seq<Key>) returns (first: Option<Request>, second: Option<Request>)
    requires forall i :: 0 <= i < |keys| ==> PadKey(keys[i])
    requires PressAll("0", keys) != "0"
    ensures first == Some(Request(Post, Obj(map["driver_id" := Str(driver.id), "bottle_count" := Str(PressAll("0", keys))])))
    ensures second.None?
  {
    var page := new ManagerDashboard();
    page.SelectDriver(driver);
    var i := 0;
    while i < |keys|
      invariant 0 <= i <= |keys|
      invariant page.Valid() && page.selectedDriver == Some(driver) && !page.isEditMode && !page.submitLoading
      invariant PressAll(page.bottleCount, keys[i..]) == PressAll("0", keys)
    {
      assert keys[i..] == [keys[i]] + keys[i + 1..];
      match keys[i] {
        case DigitKey(d) => page.DigitClick(d);
        case DeleteKey => page.DeleteClick();
      }
      i := i + 1;
    }
    assert keys[i..] == [];
    first := page.BeginSubmit();
    second := page.BeginSubmit();
  }

  /** Switching drivers and pressing edit before the new driver's last entry has
      arrived edits the previous driver's entry: the last entry is not cleared on
      selection. */
  method EditAfterSwitch(a: Drivers.Listed, b: Drivers.Listed, e: Entry) returns (request: Option<Request>)
    requires e.driverId == a.id && a != b
    ensures request == Some(Request(Put, Obj(map["entry_id" := Num(e.id), "bottle_count" := Str(IntToString(e.bottleCount))])))
  {
    var page := new ManagerDashboard();
    page.SelectDriver(a);
    page.ReceiveLastEntry(Some(Response(StatusOk, Json(e))));
    page.SelectDriver(b);
    page.EditClick();
    request := page.BeginSubmit();
  }
}
