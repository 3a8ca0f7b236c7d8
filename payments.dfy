/** The payments screen (src/components/Payments.jsx): one bare axios call to the payments endpoint, two
    status buckets, an empty state and a two-tab table. */
module Payments {
  import opened Wrappers
  import opened Js
  import Text
  import Http

  const PAYMENTS_URL := "https://boldservebackend-production.up.railway.app/api/payments"
  const LOAD_FAILED := "Failed to load payments. Please try again later."
  const NO_PAYMENTS := "No payments found"
  const NA := "N/A"

  /** The two lists held in the `payments` state. */
  datatype Buckets = Buckets(successful: seq<Json>, failed: seq<Json>)

  const NO_BUCKETS := Buckets([], [])

  /** The first filter's test, also the test that colours a status green. */
  predicate IsSuccessful(payment: Json) {
    Field(payment, "status") == Str("successful") || Field(payment, "status") == Str("completed")
  }

  /** The second filter's test. */
  predicate IsFailed(payment: Json) {
    Field(payment, "status") == Str("failed") || Field(payment, "status") == Str("cancelled")
  }

  /** The buckets `fetchPayments` installs, or `None` when it ends in its `catch`: a failed call, a body
      without truthy `success`, a `data` that is not an array, or a `null` payment in it. */
  function FetchResult(o: Http.Outcome): (r: Option<Buckets>)
    ensures r.Some? ==> o.Resolved? && Truthy(Field(o.body, "success")) && Field(o.body, "data").Arr?
    ensures r.Some? ==> var all := Field(o.body, "data").items;
      r.value == Buckets(Filter(all, IsSuccessful), Filter(all, IsFailed))
  {
    match Http.SettlePlain(o)
    case Err(_) => None
    case Ok(response) =>
      var body := response.data;
      if Truthy(body) && Truthy(Field(body, "success")) then
        var all := Field(body, "data");
        if !all.Arr? then None
        else
          match FilterElements(all.items, IsSuccessful)
          case Err(_) => None
          case Ok(successful) =>
            match FilterElements(all.items, IsFailed)
            case Err(_) => None
            case Ok(failed) => Some(Buckets(successful, failed))
      else None
  }

  /** A well-formed answer always fills the buckets: the catch path is taken exactly for a failed call, a
      body without truthy `success`, a non-array `data`, or a `null` payment. */
  lemma FetchFailsExactly(o: Http.Outcome)
    ensures FetchResult(o).None? <==>
      || o.Rejected?
      || !Truthy(Field(o.body, "success"))
      || !Field(o.body, "data").Arr?
      || exists i :: 0 <= i < |Field(o.body, "data").items| && Nullish(Field(o.body, "data").items[i])
  {
  }

  /** Each bucket holds, in the original order, exactly the payments its test accepts, and no payment is
      in both: the two tests compare the same `status` with disjoint sets of values. */
  lemma {:induction false} BucketsPartition(o: Http.Outcome, payment: Json)
    requires FetchResult(o).Some?
    ensures var all := Field(o.body, "data").items;
      var b := FetchResult(o).value;
      && (payment in b.successful <==> payment in all && IsSuccessful(payment))
      && (payment in b.failed <==> payment in all && IsFailed(payment))
      && !(payment in b.successful && payment in b.failed)
      && IsSubsequence(b.successful, all) && IsSubsequence(b.failed, all)
  {
    var all := Field(o.body, "data").items;
    FilterMembership(all, IsSuccessful, payment);
    FilterMembership(all, IsFailed, payment);
    FiltersDisjoint(all, IsSuccessful, IsFailed, payment);
    FilterIsSubsequence(all, IsSuccessful);
    FilterIsSubsequence(all, IsFailed);
  }

  // ---------------------------------------------------------------- the rows

  datatype Colour = Green | Red

  /** The status cell's colour. */
  function StatusColour(payment: Json): (c: Colour)
    ensures c == Green <==> IsSuccessful(payment)
  {
    if Field(payment, "status") == Str("successful") || Field(payment, "status") == Str("completed") then Green
    else Red
  }

  /** The status cell's text, `payment.status?.toUpperCase() || 'N/A'`; `None` when the status is neither
      missing nor a string, so that `toUpperCase` is not a function and rendering throws. */
  function StatusText(payment: Json): (t: Option<string>)
    ensures Nullish(Field(payment, "status")) ==> t == Some(NA)
    ensures t.None? <==> !Nullish(Field(payment, "status")) && !Field(payment, "status").Str?
  {
    match Field(payment, "status")
    case Undefined => Some(NA)
    case Null => Some(NA)
    case Str(s) => if Text.UpperCase(s) == "" then Some(NA) else Some(Text.UpperCase(s))
    case _ => None
  }

  lemma UpperCaseStatuses()
    ensures Text.UpperCase("successful") == "SUCCESSFUL" && Text.UpperCase("completed") == "COMPLETED"
    ensures Text.UpperCase("failed") == "FAILED" && Text.UpperCase("cancelled") == "CANCELLED"
  {
  }

  /** A payment that passes a filter shows its status upper-cased, in the filter's colour. */
  lemma {:induction false} StatusCellOfBuckets(payment: Json)
    ensures IsSuccessful(payment) ==>
              StatusColour(payment) == Green && StatusText(payment) in {Some("SUCCESSFUL"), Some("COMPLETED")}
    ensures IsFailed(payment) ==>
              StatusColour(payment) == Red && StatusText(payment) in {Some("FAILED"), Some("CANCELLED")}
  {
    UpperCaseStatuses();
  }

  /** In the successful tab every status is green and reads SUCCESSFUL or COMPLETED; in the failed tab
      every status is red and reads FAILED or CANCELLED. */
  lemma {:induction false} RowsMatchTheirTab(o: Http.Outcome, payment: Json)
    requires FetchResult(o).Some?
    ensures payment in FetchResult(o).value.successful ==>
              StatusColour(payment) == Green && StatusText(payment) in {Some("SUCCESSFUL"), Some("COMPLETED")}
    ensures payment in FetchResult(o).value.failed ==>
              StatusColour(payment) == Red && StatusText(payment) in {Some("FAILED"), Some("CANCELLED")}
  {
    BucketsPartition(o, payment);
    StatusCellOfBuckets(payment);
  }

  // ---------------------------------------------------------------- the view

  /** One tab's table: its rows, or the single placeholder row. */
  datatype TableBody = Rows(rows: seq<Json>) | Placeholder(text: string)

  datatype Screen =
    | Spinner
    | EmptyState
    | Tabs(labels: seq<string>, table: Option<TableBody>)

  /** `renderPaymentTable(list)`. */
  function PaymentTable(list: seq<Json>, error: Option<string>): (t: TableBody)
    ensures t.Rows? <==> |list| > 0
    ensures t.Rows? ==> t.rows == list
  {
    if |list| > 0 then Rows(list)
    else Placeholder(if error.Some? && error.value != "" then error.value else NO_PAYMENTS)
  }

  /** "Successful Payments (n)" and "Failed Payments (n)". */
  function TabLabels(payments: Buckets): seq<string> {
    ["Successful Payments (" + Text.NatToString(|payments.successful|) + ")",
     "Failed Payments (" + Text.NatToString(|payments.failed|) + ")"]
  }

  /** The tab labels carry the bucket sizes, read back as numbers. */
  lemma {:induction false} TabLabelsCount(payments: Buckets)
    ensures var labels := TabLabels(payments);
      && |labels| == 2
      && labels[0] == "Successful Payments (" + Text.NatToString(|payments.successful|) + ")"
      && labels[1] == "Failed Payments (" + Text.NatToString(|payments.failed|) + ")"
      && Text.DigitsValue(Text.NatToString(|payments.successful|)) == |payments.successful|
      && Text.DigitsValue(Text.NatToString(|payments.failed|)) == |payments.failed|
  {
    Text.NatToStringRoundTrip(|payments.successful|);
    Text.NatToStringRoundTrip(|payments.failed|);
  }

  /** The spinner while loading; the empty state iff both buckets are empty; otherwise the tabs, labelled
      with the two counts, with the successful table on tab 0, the failed one on tab 1 and no table for
      any other value. */
  function Render(loading: bool, error: Option<string>, payments: Buckets, tabValue: int): (s: Screen)
    ensures s.Spinner? <==> loading
    ensures s.EmptyState? <==> !loading && payments.successful == [] && payments.failed == []
    ensures s.Tabs? ==> (s.table.Some? <==> tabValue == 0 || tabValue == 1)
    ensures s.Tabs? ==> s.labels == TabLabels(payments)
    ensures s.Tabs? && tabValue == 0 ==> s.table == Some(PaymentTable(payments.successful, error))
    ensures s.Tabs? && tabValue == 1 ==> s.table == Some(PaymentTable(payments.failed, error))
  {
    if loading then Spinner
    else if |payments.successful| == 0 && |payments.failed| == 0 then EmptyState
    else Tabs(
      TabLabels(payments),
      if tabValue == 0 then Some(PaymentTable(payments.successful, error))
      else if tabValue == 1 then Some(PaymentTable(payments.failed, error))
      else None)
  }

  /** A failed fetch always lands on the empty state; a successful one shows the table iff some payment
      is successful or failed, so payments of any other status alone also give the empty state. */
  lemma {:induction false} ViewAfterFetch(o: Http.Outcome, tabValue: int)
    ensures FetchResult(o).None? ==> Render(false, Some(LOAD_FAILED), NO_BUCKETS, tabValue) == EmptyState
    ensures FetchResult(o).Some? ==>
      (Render(false, None, FetchResult(o).value, tabValue).EmptyState? <==>
        forall i :: 0 <= i < |Field(o.body, "data").items| ==>
          !IsSuccessful(Field(o.body, "data").items[i]) && !IsFailed(Field(o.body, "data").items[i]))
  {
    if FetchResult(o).Some? {
      var all := Field(o.body, "data").items;
      var b := FetchResult(o).value;
      if forall i :: 0 <= i < |all| ==> !IsSuccessful(all[i]) && !IsFailed(all[i]) {
        if b.successful != [] {
          BucketsPartition(o, b.successful[0]);
        }
        if b.failed != [] {
          BucketsPartition(o, b.failed[0]);
        }
      } else {
        var i :| 0 <= i < |all| && (IsSuccessful(all[i]) || IsFailed(all[i]));
        BucketsPartition(o, all[i]);
      }
    }
  }

  // ---------------------------------------------------------------- the component

  class PaymentsPage {
    var tabValue: int
    var payments: Buckets
    var loading: bool
    var error: Option<string>

    constructor ()
      ensures tabValue == 0 && payments == NO_BUCKETS && loading && error.None?
    {
      tabValue := 0;
      payments := NO_BUCKETS;
      loading := true;
      error := None;
    }

    function View(): Screen
      reads this
    {
      Render(loading, error, payments, tabValue)
    }

    /** `fetchPayments`, run by the mount effect: the buckets and a cleared error, or the failure message
        and two empty buckets. */
    method FetchPayments(o: Http.Outcome)
      modifies this
      ensures FetchResult(o).Some? ==> payments == FetchResult(o).value && error.None?
      ensures FetchResult(o).None? ==> payments == NO_BUCKETS && error == Some(LOAD_FAILED)
      ensures !loading && tabValue == old(tabValue)
    {
      loading := true;
      var response := Http.SettlePlain(o);
      var result: Option<Buckets> := None;
      match response {
        case Err(_) =>
        case Ok(r) =>
          var body := r.data;
          if Truthy(body) && Truthy(Field(body, "success")) {
            var all := Field(body, "data");
            if all.Arr? {
              var successful := FilterElements(all.items, IsSuccessful);
              var failed := FilterElements(all.items, IsFailed);
              if successful.Ok? && failed.Ok? {
                result := Some(Buckets(successful.value, failed.value));
              }
            }
          }
      }
      if result.Some? {
        payments := result.value;
        error := None;
      } else {
        error := Some(LOAD_FAILED);
        payments := NO_BUCKETS;
      }
      loading := false;
    }

    /** `handleTabChange`. */
    method HandleTabChange(newValue: int)
      modifies this
      ensures tabValue == newValue
      ensures payments == old(payments) && loading == old(loading) && error == old(error)
    {
      tabValue := newValue;
    }
  }
}
