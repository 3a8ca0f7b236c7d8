/** The orders screen (src/components/Orders.jsx): fetches through `paymentAPI.getAllPayments`, splits the
    orders into an "accepted" and a "cancelled" bucket, and shows either a spinner, an empty state or a
    two-tab table. */
module Orders {
  import opened Wrappers
  import opened Js
  import Text
  import Web
  import Http
  import Api

  const NOT_FOUND := "No orders found. The system is ready to receive new orders."
  const LOAD_FAILED := "Failed to load orders. Please try again later."
  const EMPTY_DEFAULT := "Orders will appear here once customers start placing them"
  const NA := "N/A"

  /** The two lists held in the `orders` state. */
  datatype Buckets = Buckets(accepted: seq<Json>, cancelled: seq<Json>)

  const NO_BUCKETS := Buckets([], [])

  /** The first filter's test. */
  predicate IsAccepted(order: Json) {
    Field(order, "status") == Str("accepted") || Field(order, "paymentStatus") == Str("successful")
  }

  /** The second filter's test. */
  predicate IsCancelled(order: Json) {
    Field(order, "status") == Str("cancelled") || Field(order, "paymentStatus") == Str("failed")
  }

  /** What the `try` block makes of a resolved call: the two filters over `response.data || []` when
      `response.success` is truthy, two empty buckets otherwise; a TypeError when `allOrders` is not an
      array or holds a `null` order. */
  function Partition(response: Json): (r: Result<Buckets, Error>)
    ensures !Truthy(Field(response, "success")) ==> r == Ok(NO_BUCKETS)
    ensures r.Err? <==>
              var all := Or(Field(response, "data"), Arr([]));
              && Truthy(response) && Truthy(Field(response, "success"))
              && (!all.Arr? || exists i :: 0 <= i < |all.items| && Nullish(all.items[i]))
    ensures r.Err? ==> r.error == TYPE_ERROR
    ensures r.Ok? && Truthy(Field(response, "success")) ==>
              var all := Or(Field(response, "data"), Arr([]));
              all.Arr? && r.value == Buckets(Filter(all.items, IsAccepted), Filter(all.items, IsCancelled))
  {
    if Truthy(response) && Truthy(Field(response, "success")) then
      var all := Or(Field(response, "data"), Arr([]));
      if !all.Arr? then Err(TYPE_ERROR)
      else
        match FilterElements(all.items, IsAccepted)
        case Err(e) => Err(e)
        case Ok(accepted) =>
          match FilterElements(all.items, IsCancelled)
          case Err(e) => Err(e)
          case Ok(cancelled) => Ok(Buckets(accepted, cancelled))
    else Ok(NO_BUCKETS)
  }

  /** The `catch` block's message: 404 means "nothing yet", anything else a failure. */
  function ErrorMessage(e: Error): (m: string)
    ensures m == NOT_FOUND <==> e.response.Some? && e.response.value.status == 404
    ensures m == NOT_FOUND || m == LOAD_FAILED
  {
    if e.response.Some? && e.response.value.status == 404 then NOT_FOUND else LOAD_FAILED
  }

  /** The outcome of `fetchOrders`: new buckets, or the error message it sets. */
  function FetchResult(o: Http.Outcome): Result<Buckets, string> {
    match Api.PaymentsOutcome(o)
    case Err(e) => Err(ErrorMessage(e))
    case Ok(response) =>
      match Partition(response)
      case Ok(buckets) => Ok(buckets)
      case Err(e) => Err(ErrorMessage(e))
  }

  /** Each bucket holds, in the original order, exactly the orders its test accepts; an order can sit in
      both buckets or in neither. */
  lemma {:induction false} PartitionMembership(response: Json, order: Json)
    requires Truthy(Field(response, "success")) && Partition(response).Ok?
    ensures var all := Or(Field(response, "data"), Arr([])).items;
      var b := Partition(response).value;
      && (order in b.accepted <==> order in all && IsAccepted(order))
      && (order in b.cancelled <==> order in all && IsCancelled(order))
      && IsSubsequence(b.accepted, all) && IsSubsequence(b.cancelled, all)
  {
    var all := Or(Field(response, "data"), Arr([])).items;
    FilterMembership(all, IsAccepted, order);
    FilterMembership(all, IsCancelled, order);
    FilterIsSubsequence(all, IsAccepted);
    FilterIsSubsequence(all, IsCancelled);
  }

  /** The buckets are neither disjoint nor exhaustive: an accepted order whose payment failed is listed
      twice, and a pending one is not listed at all. */
  lemma {:induction false} BucketsOverlap()
    ensures var both := Obj(map["status" := Str("accepted"), "paymentStatus" := Str("failed")]);
      var neither := Obj(map["status" := Str("pending")]);
      var b := Partition(Obj(map["success" := Bool(true), "data" := Arr([both, neither])]));
      b == Ok(Buckets([both], [both]))
  {
    var both := Obj(map["status" := Str("accepted"), "paymentStatus" := Str("failed")]);
    var neither := Obj(map["status" := Str("pending")]);
    var response := Obj(map["success" := Bool(true), "data" := Arr([both, neither])]);
    assert Field(response, "data") == Arr([both, neither]);
    assert IsAccepted(both) && IsCancelled(both);
    assert Field(neither, "status") == Str("pending") && Field(neither, "paymentStatus") == Undefined;
    assert !IsAccepted(neither) && !IsCancelled(neither);
    assert [both, neither][1..] == [neither];
    assert Filter([both, neither], IsAccepted) == [both];
    assert Filter([both, neither], IsCancelled) == [both];
  }

  /** As written, the screen never lists an order: `getAllPayments` resolves with the response wrapper,
      which has no `success`, so every resolved call empties both buckets; only a rejected call sets an
      error, with the "not found" text exactly for a 404 answer. */
  lemma {:induction false} OrdersNeverListed(o: Http.Outcome)
    ensures FetchResult(o).Ok? <==> o.Resolved?
    ensures FetchResult(o).Ok? ==> FetchResult(o).value == NO_BUCKETS
    ensures FetchResult(o) == Err(NOT_FOUND) <==>
              o.Rejected? && o.code != Http.TIMEOUT_CODE && o.response.Some? && o.response.value.status == 404
  {
    Api.PaymentsResultHasNoSuccess(o);
    Http.RejectionClassification(o);
  }

  // ---------------------------------------------------------------- the view

  /** The first truthy property among `keys`, or "N/A": the table's fallback chains `a || b || 'N/A'`. */
  function FirstTruthy(order: Json, keys: seq<string>): (r: Json)
    ensures Truthy(r)
    ensures r == Str(NA) || exists i :: 0 <= i < |keys| && r == Field(order, keys[i])
  {
    if keys == [] then Str(NA)
    else Or(Field(order, keys[0]), FirstTruthy(order, keys[1..]))
  }

  /** The fallback picks the earliest truthy property: every key before the chosen one is falsy. */
  lemma {:induction false} FirstTruthyIsEarliest(order: Json, keys: seq<string>, k: nat)
    requires k < |keys| && Truthy(Field(order, keys[k]))
    requires forall i :: 0 <= i < k ==> !Truthy(Field(order, keys[i]))
    ensures FirstTruthy(order, keys) == Field(order, keys[k])
    decreases k
  {
    if k > 0 {
      FirstTruthyIsEarliest(order, keys[1..], k - 1);
    }
  }

  /** When no key holds a truthy value the cell shows "N/A". */
  lemma {:induction false} FirstTruthyDefault(order: Json, keys: seq<string>)
    requires forall i :: 0 <= i < |keys| ==> !Truthy(Field(order, keys[i]))
    ensures FirstTruthy(order, keys) == Str(NA)
    decreases |keys|
  {
    if keys != [] {
      FirstTruthyDefault(order, keys[1..]);
    }
  }

  /** The Payment ID cell: `paymentId`, else `_id`, else "N/A". */
  function IdCell(order: Json): (r: Json)
    ensures Truthy(r)
  {
    FirstTruthy(order, ["paymentId", "_id"])
  }

  /** The Payment ID cell's order of preference. */
  lemma IdCellPreference(order: Json)
    ensures Truthy(Field(order, "paymentId")) ==> IdCell(order) == Field(order, "paymentId")
    ensures !Truthy(Field(order, "paymentId")) && Truthy(Field(order, "_id")) ==> IdCell(order) == Field(order, "_id")
    ensures !Truthy(Field(order, "paymentId")) && !Truthy(Field(order, "_id")) ==> IdCell(order) == Str(NA)
  {
    var keys := ["paymentId", "_id"];
    if Truthy(Field(order, "paymentId")) {
      FirstTruthyIsEarliest(order, keys, 0);
    } else if Truthy(Field(order, "_id")) {
      FirstTruthyIsEarliest(order, keys, 1);
    } else {
      FirstTruthyDefault(order, keys);
    }
  }

  /** What the screen draws. */
  datatype Screen =
    | Spinner
    | EmptyState(message: string)
    | Table(labels: seq<string>, rows: seq<Json>)

  /** "Successful Payments (n)" and "Failed Payments (n)". */
  function TabLabels(orders: Buckets): seq<string> {
    ["Successful Payments (" + Text.NatToString(|orders.accepted|) + ")",
     "Failed Payments (" + Text.NatToString(|orders.cancelled|) + ")"]
  }

  /** The spinner while loading; the empty state when both buckets are empty, showing the error if
      there is one; otherwise the tabs, the first one listing `accepted` and any other `cancelled`. */
  function Render(loading: bool, error: Option<string>, orders: Buckets, tab: int): (s: Screen)
    ensures s.Spinner? <==> loading
    ensures s.EmptyState? <==> !loading && orders.accepted == [] && orders.cancelled == []
    ensures s.EmptyState? ==> s.message == if error.Some? && error.value != "" then error.value else EMPTY_DEFAULT
    ensures s.Table? ==> s.rows == (if tab == 0 then orders.accepted else orders.cancelled)
    ensures s.Table? ==> s.labels == TabLabels(orders)
  {
    if loading then Spinner
    else if |orders.accepted| == 0 && |orders.cancelled| == 0 then
      EmptyState(if error.Some? && error.value != "" then error.value else EMPTY_DEFAULT)
    else Table(TabLabels(orders), if tab == 0 then orders.accepted else orders.cancelled)
  }

  /** The tab labels carry the bucket sizes, read back as numbers. */
  lemma {:induction false} TabLabelsCount(orders: Buckets)
    ensures var labels := TabLabels(orders);
      && |labels| == 2
      && labels[0] == "Successful Payments (" + Text.NatToString(|orders.accepted|) + ")"
      && labels[1] == "Failed Payments (" + Text.NatToString(|orders.cancelled|) + ")"
      && Text.DigitsValue(Text.NatToString(|orders.accepted|)) == |orders.accepted|
      && Text.DigitsValue(Text.NatToString(|orders.cancelled|)) == |orders.cancelled|
  {
    Text.NatToStringRoundTrip(|orders.accepted|);
    Text.NatToStringRoundTrip(|orders.cancelled|);
  }

  /** After any fetch from a screen that holds no orders, the empty state shows: the 404 text, the
      failure text, or the default text. */
  lemma {:induction false} AlwaysEmptyAfterFetch(o: Http.Outcome, tab: int)
    ensures var s := match FetchResult(o)
        case Ok(b) => Render(false, None, b, tab)
        case Err(m) => Render(false, Some(m), NO_BUCKETS, tab);
      s.EmptyState? && s.message in {NOT_FOUND, LOAD_FAILED, EMPTY_DEFAULT}
  {
    OrdersNeverListed(o);
    match FetchResult(o)
    case Ok(b) =>
    case Err(m) =>
      match Api.PaymentsOutcome(o)
      case Err(e) => assert m == ErrorMessage(e);
      case Ok(_) => assert false;
  }

  // ---------------------------------------------------------------- the component

  class OrdersPage {
    var tab: int
    var orders: Buckets
    var loading: bool
    var error: Option<string>

    constructor ()
      ensures tab == 0 && orders == NO_BUCKETS && loading && error.None?
    {
      tab := 0;
      orders := NO_BUCKETS;
      loading := true;
      error := None;
    }

    function View(): Screen
      reads this
    {
      Render(loading, error, orders, tab)
    }

    /** `fetchOrders`, run by the mount effect. */
    method FetchOrders(o: Http.Outcome, browser: Web.Browser)
      modifies this, browser
      ensures FetchResult(o).Ok? ==> orders == FetchResult(o).value && error.None?
      ensures FetchResult(o).Err? ==> orders == old(orders) && error == Some(FetchResult(o).error)
      ensures !loading && tab == old(tab)
      ensures browser.storage == Http.StorageAfter(o, old(browser.storage))
      ensures browser.location == Http.LocationAfter(o, old(browser.location))
    {
      loading := true;
      error := None;
      var response := Api.GetAllPayments(o, browser);
      match response {
        case Err(e) =>
          error := Some(ErrorMessage(e));
        case Ok(r) =>
          match Partition(r) {
            case Ok(buckets) => orders := buckets;
            case Err(e) => error := Some(ErrorMessage(e));
          }
      }
      loading := false;
    }

    /** `handleTabChange`, taken at the moment its timer fires. */
    method HandleTabChange(newValue: int)
      modifies this
      ensures tab == newValue
      ensures orders == old(orders) && loading == old(loading) && error == old(error)
    {
      tab := newValue;
    }
  }
}
