/**
 * The sensor-history page: the user picks a start and an end date, presses
 * the button, and the page asks the backend for the records in that range.
 */
module History {
  import opened Wrappers

  /** One stored record as the range endpoint returns it; values are shown as-is. */
  datatype Record = Record(
    id: string,
    timestamp: Option<string>, recordedAt: Option<string>,
    temperature: string, humidity: string, soilMoisture: string,
    light: string, co2: string)

  /** The query parameters of the range request. */
  datatype RangeQuery = RangeQuery(startDate: string, endDate: string)

  /** Outcome of the range GET: it threw, or it gave a list of records. */
  datatype RangeResponse = RangeFailed | RangeOk(records: seq<Record>)

  /** How a press of the button ended, with the alert shown if any. */
  datatype FetchOutcome = Rejected(alert: string) | Loaded | Failed(alert: string)

  const MissingDatesAlert := "Please select both start and end date/time"
  const FailureAlert := "Failed to fetch data"
  const LoadingLabel := "Loading..."
  const IdleLabel := "\U{1F50D} Fetch Data"

  /** JavaScript truthiness of an optional string: present and non-empty. */
  predicate Truthy(v: Option<string>)
  {
    v.Some? && v.value != ""
  }

  /** The fetch guard: both dates must be non-empty; their order is not checked. */
  predicate DatesGiven(startDate: string, endDate: string)
  {
    startDate != "" && endDate != ""
  }

  /** `item.timestamp || item.recordedAt`: the value a card's time is formatted from. */
  function TimeSource(item: Record): (r: Option<string>)
    ensures Truthy(item.timestamp) ==> r == item.timestamp
    ensures !Truthy(item.timestamp) ==> r == item.recordedAt
    ensures Truthy(r) <==> Truthy(item.timestamp) || Truthy(item.recordedAt)
  {
    if Truthy(item.timestamp) then item.timestamp else item.recordedAt
  }

  /** The button's text. */
  function ButtonLabel(loading: bool): (text: string)
    ensures text == LoadingLabel <==> loading
  {
    if loading then LoadingLabel else IdleLabel
  }

  /** Whether the "No data found" message is shown. */
  predicate ShowsNoData(data: seq<Record>, loading: bool)
  {
    |data| == 0 && !loading
  }

  /** The "No data found" message and the "Loading..." label never appear together. */
  lemma NoDataNeverWhileLoading(data: seq<Record>, loading: bool)
    ensures ShowsNoData(data, loading) ==> ButtonLabel(loading) != LoadingLabel
    ensures ButtonLabel(loading) == LoadingLabel ==> !ShowsNoData(data, loading)
  {
  }

  /** The page component with its four state variables. */
  class SensorHistory {
    var startDate: string
    var endDate: string
    var data: seq<Record>
    var loading: bool

    /** The initial state: no dates, no data, not loading. */
    constructor ()
      ensures startDate == "" && endDate == "" && data == [] && !loading
    {
      startDate, endDate, data, loading := "", "", [], false;
    }

    /** The start input's change handler. */
    method SetStartDate(value: string)
      modifies this`startDate
      ensures startDate == value
    {
      startDate := value;
    }

    /** The end input's change handler. */
    method SetEndDate(value: string)
      modifies this`endDate
      ensures endDate == value
    {
      endDate := value;
    }

    /**
     * The part of `fetchData` before its `await`: the guard, then
     * `setLoading(true)`; `q` is the request issued, if any.
     */
    method Begin() returns (q: Option<RangeQuery>)
      modifies this`loading
      ensures q.Some? <==> DatesGiven(startDate, endDate)
      ensures q.Some? ==> q.value == RangeQuery(startDate, endDate) && loading
      // while the request is in flight the "No data found" message is hidden
      ensures q.Some? ==> !ShowsNoData(data, loading)
      ensures q.None? ==> loading == old(loading)
    {
      if !DatesGiven(startDate, endDate) {
        return None;
      }
      loading := true;
      q := Some(RangeQuery(startDate, endDate));
    }

    /**
     * The part after the `await`: on success the list replaces `data`; on
     * failure `data` stays; in both cases `finally` clears `loading`.
     */
    method Settle(response: RangeResponse) returns (outcome: FetchOutcome)
      modifies this`data, this`loading
      ensures !loading
      ensures response.RangeOk? ==> data == response.records && outcome == Loaded
      ensures response.RangeFailed? ==> data == old(data) && outcome == Failed(FailureAlert)
    {
      if response.RangeOk? {
        data := response.records;
        outcome := Loaded;
      } else {
        outcome := Failed(FailureAlert);
      }
      loading := false;
    }

    /** `fetchData` from the button press to the end of its `finally`. */
    method FetchData(response: RangeResponse) returns (outcome: FetchOutcome)
      modifies this`data, this`loading
      ensures startDate == old(startDate) && endDate == old(endDate)
      ensures outcome.Rejected? <==> !DatesGiven(startDate, endDate)
      ensures outcome.Rejected? ==>
        outcome.alert == MissingDatesAlert && data == old(data) && loading == old(loading)
      ensures !outcome.Rejected? ==> !loading
      ensures outcome == Loaded <==> DatesGiven(startDate, endDate) && response.RangeOk?
      ensures outcome == Loaded ==> data == response.records
      ensures outcome.Failed? ==> data == old(data) && outcome.alert == FailureAlert
      // after an attempt, the "No data found" message shows exactly when the
      // list in force (the new one on success, the old one on failure) is empty
      ensures outcome == Loaded ==> (ShowsNoData(data, loading) <==> response.records == [])
      ensures outcome.Failed? ==> (ShowsNoData(data, loading) <==> old(data) == [])
    {
      var q := Begin();
      if q.None? {
        return Rejected(MissingDatesAlert);
      }
      outcome := Settle(response);
    }
  }
}
