/** The hourly forecast screen: the zip of the `hourly` arrays into records,
    the fetch that stores them, and the per-record display values. */
module Hourly {
  import opened Wrappers
  import Js
  import Units

  /** The `hourly` object of the forecast API's reply: parallel arrays that
      nothing checks to be of equal length. A `uv_index` entry may be `null`. */
  datatype HourlySeries = HourlySeries(
    time: seq<string>,
    temperature2m: seq<real>,
    windspeed10m: seq<real>,
    precipitation: seq<real>,
    uvIndex: seq<Option<real>>)

  /** One element of `formattedData`. A field read past the end of a shorter
      sibling array is `undefined` (`None`); for `uv_index`, `null` and
      `undefined` are both `None`, as `??` treats them alike. */
  datatype HourlyRecord = HourlyRecord(
    time: string,
    temperature: Option<real>,
    windspeed: Option<real>,
    precipitation: Option<real>,
    uvIndex: Option<real>)

  /** What the GET request produced; a body without `hourly` reads as
      `undefined` (`None`), and `hourly.time.map` then throws. */
  datatype HourlyReply = RequestFailed | Received(hourly: Option<HourlySeries>)

  /** `uv_index[index]`: `undefined` past the end, otherwise the entry,
      which may itself be `null`. */
  function UvAt(uv: seq<Option<real>>, i: nat): (r: Option<real>)
    ensures r.Some? <==> i < |uv| && uv[i].Some?
    ensures r.Some? ==> r.value == uv[i].value
  {
    if i < |uv| then uv[i] else None
  }

  /** The record the map callback builds for `index`. */
  function RecordAt(hourly: HourlySeries, i: nat): HourlyRecord
    requires i < |hourly.time|
  {
    HourlyRecord(
      hourly.time[i],
      Js.Index(hourly.temperature2m, i),
      Js.Index(hourly.windspeed10m, i),
      Js.Index(hourly.precipitation, i),
      UvAt(hourly.uvIndex, i))
  }

  /** The records `hourly.time.map(...)` produces from index `start` on. */
  function RecordsFrom(hourly: HourlySeries, start: nat): (records: seq<HourlyRecord>)
    requires start <= |hourly.time|
    ensures |records| == |hourly.time| - start
    ensures forall i :: 0 <= i < |records| ==> records[i] == RecordAt(hourly, start + i)
    decreases |hourly.time| - start
  {
    if start == |hourly.time| then [] else [RecordAt(hourly, start)] + RecordsFrom(hourly, start + 1)
  }

  /** `formattedData`: exactly one record per entry of `time`, in order;
      record `i` takes index `i` of every sibling array. */
  function FormatHourly(hourly: HourlySeries): (records: seq<HourlyRecord>)
    ensures |records| == |hourly.time|
    ensures forall i :: 0 <= i < |records| ==>
      && records[i].time == hourly.time[i]
      && records[i].temperature == Js.Index(hourly.temperature2m, i)
      && records[i].windspeed == Js.Index(hourly.windspeed10m, i)
      && records[i].precipitation == Js.Index(hourly.precipitation, i)
      && records[i].uvIndex == UvAt(hourly.uvIndex, i)
  {
    RecordsFrom(hourly, 0)
  }

  /** The times of a list of records. */
  function Times(records: seq<HourlyRecord>): seq<string>
  {
    if records == [] then [] else [records[0].time] + Times(records[1..])
  }

  lemma {:induction false} TimesFrom(hourly: HourlySeries, start: nat)
    requires start <= |hourly.time|
    ensures Times(RecordsFrom(hourly, start)) == hourly.time[start..]
    decreases |hourly.time| - start
  {
    if start < |hourly.time| {
      TimesFrom(hourly, start + 1);
      assert RecordsFrom(hourly, start)[1..] == RecordsFrom(hourly, start + 1);
    }
  }

  /** The records correspond one-to-one, in order, to the `time` array. */
  lemma TimesAreTime(hourly: HourlySeries)
    ensures Times(FormatHourly(hourly)) == hourly.time
  {
    TimesFrom(hourly, 0);
  }

  /** When every sibling array is as long as `time` and has no `null`, every
      record is complete; a shorter array leaves the trailing records without
      that value, with no error raised. */
  lemma MissingValuesFollowShortArrays(hourly: HourlySeries, i: nat)
    requires i < |hourly.time|
    ensures FormatHourly(hourly)[i].temperature.None? <==> |hourly.temperature2m| <= i
    ensures FormatHourly(hourly)[i].windspeed.None? <==> |hourly.windspeed10m| <= i
    ensures FormatHourly(hourly)[i].precipitation.None? <==> |hourly.precipitation| <= i
    ensures FormatHourly(hourly)[i].uvIndex.None? <==> |hourly.uvIndex| <= i || hourly.uvIndex[i].None?
  {
  }

  const NOT_AVAILABLE := "N/A"

  /** The UV value a record displays: the reading, or a marker string. */
  datatype UvDisplay = Reading(index: real) | Marker(text: string)

  /** `item.uv_index ?? 'N/A'`: only an absent value is replaced, so a
      reading of 0 is kept. */
  function UvIndexOrMarker(uv: Option<real>): (shown: UvDisplay)
    ensures shown == Marker(NOT_AVAILABLE) <==> uv.None?
    ensures uv.Some? ==> shown == Reading(uv.value)
  {
    match uv
    case Some(u) => Reading(u)
    case None => Marker(NOT_AVAILABLE)
  }

  /** The converted values `renderItem` displays for one record, before
      `toFixed` rounding. A missing input gives NaN in JavaScript, `None`
      here. */
  datatype HourlyView = HourlyView(
    temperatureF: Option<real>,
    precipitationIn: Option<real>,
    windspeedMph: Option<real>,
    uvIndex: UvDisplay)

  function Convert(value: Option<real>, f: real -> real): Option<real>
  {
    match value
    case Some(v) => Some(f(v))
    case None => None
  }

  function ViewOf(item: HourlyRecord): (view: HourlyView)
    ensures view.temperatureF.Some? <==> item.temperature.Some?
    ensures view.temperatureF.Some? ==> (view.temperatureF.value - 32.0) * 5.0 / 9.0 == item.temperature.value
    ensures view.precipitationIn.Some? <==> item.precipitation.Some?
    ensures view.precipitationIn.Some? ==> view.precipitationIn.value * 25.4 == item.precipitation.value
    ensures view.windspeedMph.Some? <==> item.windspeed.Some?
    ensures view.windspeedMph.Some? ==> view.windspeedMph.value / 0.621371 == item.windspeed.value
    ensures view.uvIndex.Marker? <==> item.uvIndex.None?
    ensures item.uvIndex.Some? ==> view.uvIndex == Reading(item.uvIndex.value)
  {
    HourlyView(
      Convert(item.temperature, Units.ConvertToFahrenheit),
      Convert(item.precipitation, Units.ConvertToInches),
      Convert(item.windspeed, Units.ConvertToMph),
      UvIndexOrMarker(item.uvIndex))
  }

  /** The screen's state: `hourlyData` (initially `[]`) and `loading`
      (initially `true`). */
  class HourlyForecastScreen {
    var hourlyData: seq<HourlyRecord>
    var loading: bool

    constructor ()
      ensures hourlyData == [] && loading
    {
      hourlyData := [];
      loading := true;
    }

    /** The list is rendered once loading is over, one item per record. */
    function VisibleItems(): Option<seq<HourlyRecord>>
      reads this
    {
      if loading then None else Some(hourlyData)
    }

    /** One call of `fetchHourlyForecast`; `reply` stands for what the GET
        request produced. The coordinates are not checked by this screen. */
    method FetchHourlyForecast(reply: HourlyReply)
      modifies this
      ensures !loading
      ensures reply == Received(None) || reply == RequestFailed ==> hourlyData == old(hourlyData)
      ensures reply.Received? && reply.hourly.Some? ==> hourlyData == FormatHourly(reply.hourly.value)
      ensures VisibleItems() == Some(hourlyData)
    {
      if reply.Received? && reply.hourly.Some? {
        hourlyData := FormatHourly(reply.hourly.value);
      }
      loading := false;
    }
  }

  /** The screen fetches once, on mount: a failure leaves the list empty. */
  method MountAndFetch(reply: HourlyReply) returns (items: seq<HourlyRecord>)
    ensures reply.Received? && reply.hourly.Some? ==> items == FormatHourly(reply.hourly.value)
    ensures !(reply.Received? && reply.hourly.Some?) ==> items == []
  {
    var screen := new HourlyForecastScreen();
    screen.FetchHourlyForecast(reply);
    items := screen.hourlyData;
  }
}
