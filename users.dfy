/** The users screen (src/components/Users.jsx): one bare axios call to the users endpoint, then a spinner,
    an error alert or the user table, in that order of precedence. */
module Users {
  import opened Wrappers
  import opened Js
  import Http
  import Text

  const USERS_URL := "https://boldservebackend-production.up.railway.app/api/users"
  const LOAD_FAILED := "Failed to load users. Please try again later."
  const NA := "N/A"
  /** The columns of a row, left to right. */
  const COLUMNS := ["_id", "email", "fullName", "mobile", "address"]

  /** The value `fetchUsers` installs as `users`, or `None` when it ends in its `catch`. */
  function FetchResult(o: Http.Outcome): (r: Option<Json>)
    ensures r.Some? <==> o.Resolved? && Truthy(Field(o.body, "success"))
    ensures r.Some? ==> r.value == Field(o.body, "data")
  {
    match Http.SettlePlain(o)
    case Err(_) => None
    case Ok(response) =>
      if Truthy(response.data) && Truthy(Field(response.data, "success")) then Some(Field(response.data, "data"))
      else None
  }

  /** One table row: each column's property, or "N/A" when it is falsy. */
  function Row(user: Json): (cells: seq<Json>)
    ensures |cells| == |COLUMNS|
    ensures forall i :: 0 <= i < |COLUMNS| ==>
              Truthy(cells[i]) && (Truthy(Field(user, COLUMNS[i])) ==> cells[i] == Field(user, COLUMNS[i]))
    ensures forall i :: 0 <= i < |COLUMNS| && !Truthy(Field(user, COLUMNS[i])) ==> cells[i] == Str(NA)
  {
    seq(|COLUMNS|, i requires 0 <= i < |COLUMNS| => Or(Field(user, COLUMNS[i]), Str(NA)))
  }

  /** Every cell of the user's row is something React can print. */
  predicate RowRenders(user: Json) {
    forall c :: 0 <= c < |COLUMNS| ==> Renderable(Row(user)[c])
  }

  /** What the screen draws. */
  datatype Screen =
    | Spinner
    | ErrorAlert(message: string)
    | UserTable(rows: seq<seq<Json>>)
    | NoUsersRow    // the single "No users found" row
    | Broken        // rendering throws: `users.length` of `null`/`undefined`, a `null` user, or a cell
                    // React cannot print

  /** `users.length` as the `> 0` test sees it: the length of an array or a string, the `length`
      property of an object, and `undefined` (never greater than 0) for numbers and booleans. */
  function LengthAboveZero(users: Json): (above: bool)
    requires !Nullish(users)
    ensures users.Arr? ==> (above <==> |users.items| > 0)
    ensures users.Obj? ==> (above <==> AboveZero(Field(users, "length")))
    ensures users.Num? || users.Bool? ==> !above
  {
    match users
    case Arr(items) => |items| > 0
    case Str(s) => |s| > 0
    case Obj(_) => AboveZero(Field(users, "length"))
    case _ => false
  }

  /** `v > 0` for a JSON value: a positive number, `true` (which compares as 1), or a string of decimal
      digits that are not all zero; `null`, `undefined`, objects and the other strings are not. */
  predicate AboveZero(v: Json) {
    match v
    case Num(n) => n > 0
    case Bool(b) => b
    case Str(s) => s != [] && (forall i :: 0 <= i < |s| ==> Text.IsDigit(s[i])) && exists i :: 0 <= i < |s| && s[i] != '0'
    case _ => false
  }

  /** The spinner while loading; then the alert when `error` is truthy; then the table, the single
      "No users found" row for an empty list, or a throw. */
  function Render(loading: bool, error: Option<string>, users: Json): (s: Screen)
    ensures s.Spinner? <==> loading
    ensures s.ErrorAlert? <==> !loading && error.Some? && error.value != ""
    ensures s.ErrorAlert? ==> s.message == error.value
    ensures !loading && error.None? && users == Arr([]) ==> s == NoUsersRow
    ensures s.UserTable? ==> users.Arr? && |s.rows| == |users.items| > 0
    ensures s.UserTable? ==> forall i :: 0 <= i < |users.items| ==> s.rows[i] == Row(users.items[i])
    ensures s.UserTable? <==> !loading && !(error.Some? && error.value != "") && users.Arr? && |users.items| > 0
                              && forall i :: 0 <= i < |users.items| ==> !Nullish(users.items[i]) && RowRenders(users.items[i])
  {
    if loading then Spinner
    else if error.Some? && error.value != "" then ErrorAlert(error.value)
    else if Nullish(users) then Broken
    else if !LengthAboveZero(users) then NoUsersRow
    else if !users.Arr? then Broken
    else if exists i :: 0 <= i < |users.items| && Nullish(users.items[i]) then Broken
    else if exists i :: 0 <= i < |users.items| && !RowRenders(users.items[i]) then Broken
    else UserTable(seq(|users.items|, i requires 0 <= i < |users.items| => Row(users.items[i])))
  }

  /** After one fetch from the initial state: a failure shows the alert; a success shows one row per user
      for a non-empty array of printable users, the "No users found" row for an empty one, and throws
      when the body holds no `data` or a user's cell cannot be printed. */
  lemma {:induction false} ViewAfterFetch(o: Http.Outcome)
    ensures FetchResult(o).None? ==> Render(false, Some(LOAD_FAILED), Arr([])) == ErrorAlert(LOAD_FAILED)
    ensures FetchResult(o).Some? ==>
      var users := FetchResult(o).value;
      && (users == Arr([]) ==> Render(false, None, users) == NoUsersRow)
      && (users == Undefined ==> Render(false, None, users) == Broken)
      && (users.Arr? && |users.items| > 0
          && (forall i :: 0 <= i < |users.items| ==> !Nullish(users.items[i]) && RowRenders(users.items[i])) ==>
            Render(false, None, users).UserTable? && |Render(false, None, users).rows| == |users.items|)
      && (users.Arr? && (exists i :: 0 <= i < |users.items| && !RowRenders(users.items[i])) ==>
            Render(false, None, users) == Broken)
  {
  }

  /** An object with a positive `length` passes the `> 0` test, and its missing `map` then throws; an
      object without one shows the "No users found" row. */
  lemma ObjectUsers(fields: map<string, Json>)
    ensures var users := Obj(fields);
      && (AboveZero(Field(users, "length")) ==> Render(false, None, users) == Broken)
      && (!AboveZero(Field(users, "length")) ==> Render(false, None, users) == NoUsersRow)
      && ("length" !in fields ==> Render(false, None, users) == NoUsersRow)
  {
  }

  /** A user whose address is an object (a street, a city, ...) cannot be printed in its cell: the
      table throws instead of drawing. */
  lemma {:induction false} ObjectAddressBreaksTheTable(email: string, address: map<string, Json>)
    ensures var user := Obj(map["email" := Str(email), "address" := Obj(address)]);
      && !RowRenders(user)
      && Render(false, None, Arr([user])) == Broken
  {
    var user := Obj(map["email" := Str(email), "address" := Obj(address)]);
    assert COLUMNS[4] == "address" && Field(user, "address") == Obj(address);
    assert Row(user)[4] == Obj(address);
    assert Arr([user]).items[0] == user;
  }

  /** An error, once set, hides any table: a later successful fetch does not clear it. */
  lemma ErrorOutranksUsers(error: string, users: Json)
    requires error != ""
    ensures Render(false, Some(error), users) == ErrorAlert(error)
  {
  }

  // ---------------------------------------------------------------- the component

  class UsersPage {
    var users: Json
    var loading: bool
    var error: Option<string>

    constructor ()
      ensures users == Arr([]) && loading && error.None?
    {
      users := Arr([]);
      loading := true;
      error := None;
    }

    function View(): Screen
      reads this
    {
      Render(loading, error, users)
    }

    /** `fetchUsers`, run by the mount effect: success replaces `users` and leaves `error` as it was; the
        catch path sets the message and keeps `users`. */
    method FetchUsers(o: Http.Outcome)
      modifies this
      ensures FetchResult(o).Some? ==> users == FetchResult(o).value && error == old(error)
      ensures FetchResult(o).None? ==> users == old(users) && error == Some(LOAD_FAILED)
      ensures !loading
    {
      loading := true;
      var response := Http.SettlePlain(o);
      match response {
        case Err(_) =>
          error := Some(LOAD_FAILED);
        case Ok(r) =>
          if Truthy(r.data) && Truthy(Field(r.data, "success")) {
            users := Field(r.data, "data");
          } else {
            error := Some(LOAD_FAILED);
          }
      }
      loading := false;
    }
  }
}
