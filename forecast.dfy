/** The 5-day forecast screen: coordinate guards, the fetch state machine
    over `loading`, `error` and `forecast`, and the projection of the `daily`
    arrays into one row per day. */
module Forecast {
  import opened Wrappers
  import Js

  /** The `daily` object of the forecast API's reply: parallel arrays that
      nothing checks to be of equal length. */
  datatype DailySeries = DailySeries(
    time: seq<string>,
    temperature2mMax: seq<real>,
    temperature2mMin: seq<real>,
    precipitationSum: seq<real>)

  /** What the one GET request produces: a transport failure carrying the
      error's `message`, or a reply whose body may lack `daily`. */
  datatype Response = TransportFailure(message: string) | Received(daily: Option<DailySeries>)

  /** One rendered day. A sibling array shorter than `time` gives `undefined`,
      modelled as `None`. */
  datatype DailyRow = DailyRow(
    date: string,
    minC: Option<real>,
    maxC: Option<real>,
    precipitationMm: Option<real>)

  const INVALID_LATITUDE := "Invalid latitude"
  const INVALID_LONGITUDE := "Invalid longitude"
  const LATITUDE_OUT_OF_RANGE := "Latitude out of range"
  const LONGITUDE_OUT_OF_RANGE := "Longitude out of range"
  const INVALID_DATA_FORMAT := "Invalid data format from API"
  const FAILED_TO_LOAD := "Failed to load forecast"

  /** The guard `x < -bound || x > bound`. */
  predicate OutOfRange(x: Js.Number, bound: real)
  {
    Js.Less(x, Js.Finite(-bound)) || Js.Less(Js.Finite(bound), x)
  }

  /** The four guards in source order; the first that fails names the error.
      `None` means the request may be issued. */
  function ValidateCoordinates(latitude: Js.Number, longitude: Js.Number): (failure: Option<string>)
    ensures failure.None? <==>
      && latitude.Finite? && -90.0 <= latitude.value <= 90.0
      && longitude.Finite? && -180.0 <= longitude.value <= 180.0
    ensures failure.Some? ==>
      failure.value in {INVALID_LATITUDE, INVALID_LONGITUDE, LATITUDE_OUT_OF_RANGE, LONGITUDE_OUT_OF_RANGE}
  {
    if latitude.NaN? then Some(INVALID_LATITUDE)
    else if longitude.NaN? then Some(INVALID_LONGITUDE)
    else if OutOfRange(latitude, 90.0) then Some(LATITUDE_OUT_OF_RANGE)
    else if OutOfRange(longitude, 180.0) then Some(LONGITUDE_OUT_OF_RANGE)
    else None
  }

  /** A NaN is reported before any range check, latitude before longitude. */
  lemma GuardOrder(latitude: Js.Number, longitude: Js.Number)
    ensures latitude.NaN? ==> ValidateCoordinates(latitude, longitude) == Some(INVALID_LATITUDE)
    ensures !latitude.NaN? && longitude.NaN? ==>
      ValidateCoordinates(latitude, longitude) == Some(INVALID_LONGITUDE)
    ensures !latitude.NaN? && !longitude.NaN? && OutOfRange(latitude, 90.0) ==>
      ValidateCoordinates(latitude, longitude) == Some(LATITUDE_OUT_OF_RANGE)
  {
  }

  /** Once neither value is NaN, latitude is rejected exactly when it lies
      outside the closed interval [-90, 90] (infinities included). */
  lemma LatitudeRange(latitude: Js.Number, longitude: Js.Number)
    requires !latitude.NaN? && !longitude.NaN?
    ensures ValidateCoordinates(latitude, longitude) == Some(LATITUDE_OUT_OF_RANGE) <==>
      !(latitude.Finite? && -90.0 <= latitude.value <= 90.0)
  {
  }

  /** With a valid latitude, longitude is rejected exactly when it lies
      outside the closed interval [-180, 180]. */
  lemma LongitudeRange(latitude: Js.Number, longitude: Js.Number)
    requires latitude.Finite? && -90.0 <= latitude.value <= 90.0 && !longitude.NaN?
    ensures ValidateCoordinates(latitude, longitude) == Some(LONGITUDE_OUT_OF_RANGE) <==>
      !(longitude.Finite? && -180.0 <= longitude.value <= 180.0)
  {
  }

  /** The interval ends are accepted; one degree beyond is not. */
  lemma RangeBoundaries()
    ensures ValidateCoordinates(Js.Finite(90.0), Js.Finite(180.0)) == None
    ensures ValidateCoordinates(Js.Finite(-90.0), Js.Finite(-180.0)) == None
    ensures ValidateCoordinates(Js.Finite(91.0), Js.Finite(0.0)) == Some(LATITUDE_OUT_OF_RANGE)
    ensures ValidateCoordinates(Js.Finite(0.0), Js.Finite(181.0)) == Some(LONGITUDE_OUT_OF_RANGE)
    ensures ValidateCoordinates(Js.PosInfinity, Js.Finite(0.0)) == Some(LATITUDE_OUT_OF_RANGE)
  {
  }

  /** What one fetch attempt ends in: the `daily` payload, or the message of
      the error thrown inside the `try`. */
  function FetchOutcome(latitude: Js.Number, longitude: Js.Number, response: Response): (r: Result<DailySeries, string>)
    ensures ValidateCoordinates(latitude, longitude).Some? ==>
      r == Failure(ValidateCoordinates(latitude, longitude).value)
    ensures r.Success? <==>
      ValidateCoordinates(latitude, longitude).None? && response.Received? && response.daily.Some?
    ensures r.Success? ==> r.value == response.daily.value
    ensures ValidateCoordinates(latitude, longitude).None? && response == Received(None) ==>
      r == Failure(INVALID_DATA_FORMAT)
    ensures ValidateCoordinates(latitude, longitude).None? && response.TransportFailure? ==>
      r == Failure(response.message)
  {
    match ValidateCoordinates(latitude, longitude)
    case Some(message) => Failure(message)
    case None =>
      match response
      case TransportFailure(message) => Failure(message)
      case Received(None) => Failure(INVALID_DATA_FORMAT)
      case Received(Some(daily)) => Success(daily)
  }

  /** `err.message || "Failed to load forecast"`: the text shown for a failure
      is never empty, and is the message itself whenever that is not empty. */
  function ErrorText(message: string): (shown: string)
    ensures shown != ""
    ensures message != "" ==> shown == message
    ensures message == "" ==> shown == FAILED_TO_LOAD
  {
    if message == "" then FAILED_TO_LOAD else message
  }

  /** A transport error with an empty message is the one input that shows
      the fallback text; a non-empty one is shown as it is. */
  lemma TransportErrorText(latitude: Js.Number, longitude: Js.Number, message: string)
    requires ValidateCoordinates(latitude, longitude).None?
    ensures ErrorText(FetchOutcome(latitude, longitude, TransportFailure(message)).error) ==
      if message == "" then FAILED_TO_LOAD else message
  {
  }

  /** Row `i` of the list, built from `time[i]` and the sibling arrays at `i`. */
  function RowAt(daily: DailySeries, i: nat): (row: DailyRow)
    requires i < |daily.time|
  {
    DailyRow(
      daily.time[i],
      Js.Index(daily.temperature2mMin, i),
      Js.Index(daily.temperature2mMax, i),
      Js.Index(daily.precipitationSum, i))
  }

  /** The rows `forecast.time.map(...)` produces from index `start` on. */
  function RowsFrom(daily: DailySeries, start: nat): (rows: seq<DailyRow>)
    requires start <= |daily.time|
    ensures |rows| == |daily.time| - start
    ensures forall i :: 0 <= i < |rows| ==> rows[i] == RowAt(daily, start + i)
    decreases |daily.time| - start
  {
    if start == |daily.time| then [] else [RowAt(daily, start)] + RowsFrom(daily, start + 1)
  }

  /** One row per entry of `time`, in order; row `i` pairs `time[i]` with the
      minimum, maximum and precipitation at the same index. */
  function DailyRows(daily: DailySeries): (rows: seq<DailyRow>)
    ensures |rows| == |daily.time|
    ensures forall i :: 0 <= i < |rows| ==>
      && rows[i].date == daily.time[i]
      && rows[i].minC == Js.Index(daily.temperature2mMin, i)
      && rows[i].maxC == Js.Index(daily.temperature2mMax, i)
      && rows[i].precipitationMm == Js.Index(daily.precipitationSum, i)
  {
    RowsFrom(daily, 0)
  }

  /** The dates of a list of rows. */
  function Dates(rows: seq<DailyRow>): seq<string>
  {
    if rows == [] then [] else [rows[0].date] + Dates(rows[1..])
  }

  lemma {:induction false} DatesFrom(daily: DailySeries, start: nat)
    requires start <= |daily.time|
    ensures Dates(RowsFrom(daily, start)) == daily.time[start..]
    decreases |daily.time| - start
  {
    if start < |daily.time| {
      DatesFrom(daily, start + 1);
      assert RowsFrom(daily, start)[1..] == RowsFrom(daily, start + 1);
    }
  }

  /** The rows correspond one-to-one, in order, to the `time` array. */
  lemma DatesAreTime(daily: DailySeries)
    ensures Dates(DailyRows(daily)) == daily.time
  {
    DatesFrom(daily, 0);
  }

  /** Sibling arrays at least as long as `time` give complete rows; one that
      is shorter leaves the trailing rows without that value. */
  lemma MissingValuesFollowShortArrays(daily: DailySeries, i: nat)
    requires i < |daily.time|
    ensures DailyRows(daily)[i].minC.None? <==> |daily.temperature2mMin| <= i
    ensures DailyRows(daily)[i].maxC.None? <==> |daily.temperature2mMax| <= i
    ensures DailyRows(daily)[i].precipitationMm.None? <==> |daily.precipitationSum| <= i
  {
  }

  /** A two-day series and the two rows it gives. */
  lemma TwoDayExample()
    ensures DailyRows(DailySeries(["2024-01-01", "2024-01-02"], [10.0, 15.0], [0.0, 5.0], [0.0, 2.0])) ==
      [DailyRow("2024-01-01", Some(0.0), Some(10.0), Some(0.0)),
       DailyRow("2024-01-02", Some(5.0), Some(15.0), Some(2.0))]
  {
  }

  /** The screen's state: `forecast` (initially `null`), `loading` (initially
      `true`) and `error` (initially empty). */
  class ForecastScreen {
    var forecast: Option<DailySeries>
    var loading: bool
    var error: string

    constructor ()
      ensures forecast == None && loading && error == ""
    {
      forecast := None;
      loading := true;
      error := "";
    }

    /** The list is rendered only when `forecast` is set, nothing is loading
        and no error is shown. */
    function VisibleRows(): Option<seq<DailyRow>>
      reads this
    {
      if forecast.Some? && !loading && error == "" then Some(DailyRows(forecast.value)) else None
    }

    /** The first two statements of the `try`. */
    method BeginFetch()
      modifies this
      ensures loading && error == "" && forecast == old(forecast)
    {
      loading := true;
      error := "";
    }

    /** One call of `fetchForecast`. `requested` says whether the GET request
        was issued; `response` stands for what it produced. */
    method FetchForecast(latitude: Js.Number, longitude: Js.Number, response: Response) returns (requested: bool)
      modifies this
      ensures requested <==> ValidateCoordinates(latitude, longitude).None?
      ensures !loading
      ensures FetchOutcome(latitude, longitude, response).Success? ==>
        forecast == Some(FetchOutcome(latitude, longitude, response).value) && error == ""
      ensures FetchOutcome(latitude, longitude, response).Failure? ==>
        forecast == old(forecast) && error == ErrorText(FetchOutcome(latitude, longitude, response).error)
      ensures VisibleRows() == match FetchOutcome(latitude, longitude, response)
        case Success(daily) => Some(DailyRows(daily))
        case Failure(_) => None
    {
      BeginFetch();
      requested := false;
      var thrown: Option<string> := None;
      if latitude.NaN? {
        thrown := Some(INVALID_LATITUDE);
      } else if longitude.NaN? {
        thrown := Some(INVALID_LONGITUDE);
      } else if OutOfRange(latitude, 90.0) {
        thrown := Some(LATITUDE_OUT_OF_RANGE);
      } else if OutOfRange(longitude, 180.0) {
        thrown := Some(LONGITUDE_OUT_OF_RANGE);
      } else {
        requested := true;
        match response
        case TransportFailure(message) =>
          thrown := Some(message);
        case Received(daily) =>
          if daily.None? {
            thrown := Some(INVALID_DATA_FORMAT);
          } else {
            forecast := daily;
          }
      }
      if thrown.Some? {
        error := ErrorText(thrown.value);
      }
      loading := false;
    }
  }
}
