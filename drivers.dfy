/** `GET /api/drivers`: the active drivers of the manager's plant, ordered by
    name. The drivers table is a parameter; the query's filter and `order`
    are functions on it. */
module Drivers {
  import opened Js
  import opened Http
  import opened Tokens

  /** A row of the drivers table, as far as the query looks at it. */
  datatype DriverRow = DriverRow(id: string, name: string, plantId: string, isActive: bool)

  /** What the query selects of a row: `id, name`. */
  datatype Listed = Listed(id: string, name: string)

  const PlantMissing: string := "Invalid session: plant_id missing."
  const DriversFetchFailed: string := "Failed to fetch drivers."

  // ------------------------------------------------------------ name order

  /** Ascending order on names, character by character (code-point order; a
      prefix comes first). */
  predicate NameLe(a: string, b: string)
    decreases |a|
  {
    a == [] || (b != [] && (a[0] < b[0] || (a[0] == b[0] && NameLe(a[1..], b[1..]))))
  }

  lemma {:induction false} NameLeTotal(a: string, b: string)
    ensures NameLe(a, b) || NameLe(b, a)
    decreases |a|
  {
    if a != [] && b != [] && a[0] == b[0] {
      NameLeTotal(a[1..], b[1..]);
    }
  }

  lemma {:induction false} NameLeTransitive(a: string, b: string, c: string)
    requires NameLe(a, b) && NameLe(b, c)
    ensures NameLe(a, c)
    decreases |a|
  {
    if a != [] && b != [] && c != [] && a[0] == b[0] && b[0] == c[0] {
      NameLeTransitive(a[1..], b[1..], c[1..]);
    }
  }

  lemma {:induction false} NameLeAntisymmetric(a: string, b: string)
    requires NameLe(a, b) && NameLe(b, a)
    ensures a == b
    decreases |a|
  {
    if a != [] {
      NameLeAntisymmetric(a[1..], b[1..]);
      assert a == [a[0]] + a[1..] && b == [b[0]] + b[1..];
    }
  }

  predicate SortedByName(s: seq<Listed>) {
    forall i, j :: 0 <= i < j < |s| ==> NameLe(s[i].name, s[j].name)
  }

  // ----------------------------------------------------------------- query

  /** `.eq('plant_id', plant).eq('is_active', true)` projected to `id, name`, in
      table order. */
  function ActiveOf(rows: seq<DriverRow>, plant: string): (r: seq<Listed>)
    ensures |r| <= |rows|
    ensures forall x :: x in r <==>
              exists row :: row in rows && row.plantId == plant && row.isActive && x == Listed(row.id, row.name)
  {
    if rows == [] then []
    else
      var row := rows[0];
      var rest := ActiveOf(rows[1..], plant);
      assert forall r :: r in rows <==> r == row || r in rows[1..];
      if row.plantId == plant && row.isActive then [Listed(row.id, row.name)] + rest else rest
  }

  /** ActiveOf is a filter that keeps table order and multiplicity: it maps a
      concatenation to the concatenation of the parts, and a single row to
      itself when it is selected and to nothing otherwise. */
  lemma {:induction false} ActiveOfKeepsOrder(a: seq<DriverRow>, b: seq<DriverRow>, plant: string)
    ensures ActiveOf(a + b, plant) == ActiveOf(a, plant) + ActiveOf(b, plant)
    ensures forall row :: ActiveOf([row], plant)
                          == if row.plantId == plant && row.isActive then [Listed(row.id, row.name)] else []
    decreases |a|
  {
    if a != [] {
      assert (a + b)[1..] == a[1..] + b;
      ActiveOfKeepsOrder(a[1..], b, plant);
    } else {
      assert a + b == b;
    }
    forall row
      ensures ActiveOf([row], plant) == if row.plantId == plant && row.isActive then [Listed(row.id, row.name)] else []
    {
      assert [row][1..] == [];
    }
  }

  /** Insert `x` before the first element it does not follow. */
  function InsertByName(x: Listed, s: seq<Listed>): (r: seq<Listed>)
    ensures multiset(r) == multiset(s) + multiset{x}
  {
    if s == [] then [x]
    else if NameLe(x.name, s[0].name) then [x] + s
    else
      assert s == [s[0]] + s[1..];
      [s[0]] + InsertByName(x, s[1..])
  }

  /** `.order('name', { ascending: true })`, as an insertion sort. */
  function SortByName(s: seq<Listed>): (r: seq<Listed>)
    ensures multiset(r) == multiset(s)
  {
    if s == [] then []
    else
      assert s == [s[0]] + s[1..];
      InsertByName(s[0], SortByName(s[1..]))
  }

  lemma {:induction false} InsertKeepsSorted(x: Listed, s: seq<Listed>)
    requires SortedByName(s)
    ensures SortedByName(InsertByName(x, s))
  {
    if s != [] && !NameLe(x.name, s[0].name) {
      NameLeTotal(x.name, s[0].name);
      InsertKeepsSorted(x, s[1..]);
      var tail := InsertByName(x, s[1..]);
      forall j | 0 <= j < |tail|
        ensures NameLe(s[0].name, tail[j].name)
      {
        assert tail[j] in multiset(tail);
        assert tail[j] == x || tail[j] in multiset(s[1..]);
        if tail[j] != x {
          assert tail[j] in s[1..];
        }
      }
    } else if s != [] {
      var r := [x] + s;
      forall j | 1 <= j < |r|
        ensures NameLe(x.name, r[j].name)
      {
        assert r[j] == s[j - 1];
        if j > 1 {
          NameLeTransitive(x.name, s[0].name, r[j].name);
        }
      }
    }
  }

  lemma {:induction false} SortByNameSorted(s: seq<Listed>)
    ensures SortedByName(SortByName(s))
  {
    if s != [] {
      SortByNameSorted(s[1..]);
      InsertKeepsSorted(s[0], SortByName(s[1..]));
    }
  }

  // ----------------------------------------------------------------- route

  /** The handler: the session cookie, its verification, the plant claim, then
      the query, whose error (`fetchFails`) is a 500. */
  function ListDrivers(env: Env, cookie: Option<string>, rows: seq<DriverRow>, fetchFails: bool)
    : (r: Response<seq<Listed>>)
    ensures r.status == StatusOk || r.body.Error?
    ensures cookie.None? ==> r == Response(StatusUnauthorized, Error(NotAuthenticated))
    ensures cookie.Some? && Verify(env, cookie.value).None? ==>
              r == Response(StatusUnauthorized, Error(InvalidSession))
    ensures cookie.Some? && Verify(env, cookie.value).Some? && Verify(env, cookie.value).value.plantId == "" ==>
              r == Response(StatusUnauthorized, Error(PlantMissing))
    ensures cookie.Some? && Verify(env, cookie.value).Some? && Verify(env, cookie.value).value.plantId != ""
            && fetchFails ==>
              r == Response(StatusInternalError, Error(DriversFetchFailed))
    ensures cookie.Some? && Verify(env, cookie.value).Some? && Verify(env, cookie.value).value.plantId != ""
            && !fetchFails ==>
              && r.status == StatusOk && r.body.Json?
              && SortedByName(r.body.data)
              && multiset(r.body.data) == multiset(ActiveOf(rows, Verify(env, cookie.value).value.plantId))
  {
    if cookie.None? then Response(StatusUnauthorized, Error(NotAuthenticated))
    else match Verify(env, cookie.value)
      case None => Response(StatusUnauthorized, Error(InvalidSession))
      case Some(claims) =>
        if claims.plantId == "" then Response(StatusUnauthorized, Error(PlantMissing))
        else if fetchFails then Response(StatusInternalError, Error(DriversFetchFailed))
        else
          SortByNameSorted(ActiveOf(rows, claims.plantId));
          Response(StatusOk, Json(SortByName(ActiveOf(rows, claims.plantId))))
  }

  // ------------------------------------------------------------ properties

  /** A successful listing holds exactly the active drivers of the plant named in
      the session, each as often as the table holds it, in ascending name order. */
  lemma ListingIsPlantsActiveDrivers(env: Env, token: string, rows: seq<DriverRow>)
    requires Verify(env, token).Some? && Verify(env, token).value.plantId != ""
    ensures ListDrivers(env, Some(token), rows, false).status == StatusOk
    ensures var listed := ListDrivers(env, Some(token), rows, false).body.data;
            && SortedByName(listed)
            && multiset(listed) == multiset(ActiveOf(rows, Verify(env, token).value.plantId))
            && forall x :: x in listed <==>
                 exists row :: row in rows && row.plantId == Verify(env, token).value.plantId
                               && row.isActive && x == Listed(row.id, row.name)
  {
    var plant := Verify(env, token).value.plantId;
    var listed := SortByName(ActiveOf(rows, plant));
    forall x ensures x in listed <==> x in ActiveOf(rows, plant) {
      assert x in listed <==> x in multiset(listed);
    }
  }

  /** Drivers of another plant and inactive drivers never appear. */
  lemma OtherPlantsNeverListed(env: Env, token: string, rows: seq<DriverRow>, row: DriverRow)
    requires Verify(env, token).Some? && Verify(env, token).value.plantId != ""
    requires row in rows && (row.plantId != Verify(env, token).value.plantId || !row.isActive)
    requires forall other :: other in rows && other != row ==> other.id != row.id
    ensures Listed(row.id, row.name) !in ListDrivers(env, Some(token), rows, false).body.data
  {
    ListingIsPlantsActiveDrivers(env, token, rows);
  }

  /** Session failures come before the query and do not depend on the table. */
  lemma SessionCheckedBeforeQuery(env: Env, token: string, rows: seq<DriverRow>, fetchFails: bool)
    ensures Verify(env, token).None? ==>
              ListDrivers(env, Some(token), rows, fetchFails) == Response(StatusUnauthorized, Error(InvalidSession))
    ensures Verify(env, token).Some? && Verify(env, token).value.plantId == "" ==>
              ListDrivers(env, Some(token), rows, fetchFails) == Response(StatusUnauthorized, Error(PlantMissing))
    ensures Verify(env, token).Some? && Verify(env, token).value.plantId != "" && fetchFails ==>
              ListDrivers(env, Some(token), rows, fetchFails) == Response(StatusInternalError, Error(DriversFetchFailed))
  {
  }
}
