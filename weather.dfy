/** The current-weather screen: the refresh state machine over `loading`,
    `error` and `weather`, and the precipitation classifier of its panel. */
module Weather {
  import opened Wrappers
  import Js
  import Units

  /** The `current_weather` object as the panel reads it. `precipitation` is
      a JavaScript value compared with `>`: an absent field is `undefined`,
      which compares like NaN. */
  datatype CurrentWeather = CurrentWeather(temperature: real, windspeed: real, precipitation: Js.Number)

  /** What the permission prompt produced: a status string, or a rejection. */
  datatype PermissionReply = Status(status: string) | PermissionFailed

  /** What the position query produced. */
  datatype PositionReply = PositionFound(latitude: real, longitude: real) | PositionFailed

  /** What the weather GET request produced; a body without
      `current_weather` reads as `undefined` (`None`). */
  datatype WeatherReply = RequestFailed | Received(current: Option<CurrentWeather>)

  datatype PrecipitationStatus = Snowing | Raining | NoPrecipitation

  const GRANTED := "granted"
  const PERMISSION_DENIED := "Permission to access location was denied."
  const COULD_NOT_RETRIEVE := "Could not retrieve weather. Check your internet connection."

  /** `p > 0 ? (p > 1 ? Snowing : Raining) : NoPrecipitation`, with
      JavaScript's comparison (NaN is greater than nothing). */
  function GetPrecipitationStatus(precipitation: Js.Number): (status: PrecipitationStatus)
    ensures precipitation.Finite? ==>
      && (status == Snowing <==> precipitation.value > 1.0)
      && (status == Raining <==> 0.0 < precipitation.value <= 1.0)
      && (status == NoPrecipitation <==> precipitation.value <= 0.0)
    ensures precipitation.NaN? || precipitation.NegInfinity? ==> status == NoPrecipitation
    ensures precipitation.PosInfinity? ==> status == Snowing
  {
    if Js.Less(Js.Finite(0.0), precipitation) then
      if Js.Less(Js.Finite(1.0), precipitation) then Snowing else Raining
    else NoPrecipitation
  }

  /** The boundary values: 1 is still rain, 0 is none. */
  lemma PrecipitationBoundaries()
    ensures GetPrecipitationStatus(Js.Finite(0.0)) == NoPrecipitation
    ensures GetPrecipitationStatus(Js.Finite(0.5)) == Raining
    ensures GetPrecipitationStatus(Js.Finite(1.0)) == Raining
    ensures GetPrecipitationStatus(Js.Finite(1.5)) == Snowing
  {
  }

  /** The classification never decreases as precipitation grows. */
  lemma PrecipitationMonotonic(p: real, q: real)
    requires p <= q
    ensures GetPrecipitationStatus(Js.Finite(p)) == Snowing ==> GetPrecipitationStatus(Js.Finite(q)) == Snowing
    ensures GetPrecipitationStatus(Js.Finite(q)) == NoPrecipitation ==>
      GetPrecipitationStatus(Js.Finite(p)) == NoPrecipitation
  {
  }

  /** The label the panel shows for a status. */
  function StatusLabel(status: PrecipitationStatus): string
  {
    match status
    case Snowing => "Snowing \U{2744}\U{FE0F}"
    case Raining => "Raining \U{1F327}\U{FE0F}"
    case NoPrecipitation => "No Precipitation \U{2600}\U{FE0F}"
  }

  /** The three labels differ, so the text shown names the category. */
  lemma StatusLabelsDistinct(a: PrecipitationStatus, b: PrecipitationStatus)
    ensures StatusLabel(a) == StatusLabel(b) <==> a == b
  {
    if a != b {
      assert StatusLabel(a)[0] != StatusLabel(b)[0];
    }
  }

  /** How a refresh ends: denied permission, any failure inside the `try`, or
      the reply's `current_weather` field (possibly absent). */
  datatype Outcome = Denied | Failed | Loaded(current: Option<CurrentWeather>)

  function RefreshOutcome(permission: PermissionReply, position: PositionReply, reply: WeatherReply): (r: Outcome)
    ensures r.Denied? <==> permission.Status? && permission.status != GRANTED
    ensures r.Loaded? <==> permission == Status(GRANTED) && position.PositionFound? && reply.Received?
    ensures r.Loaded? ==> r.current == reply.current
  {
    match permission
    case PermissionFailed => Failed
    case Status(status) =>
      if status != GRANTED then Denied
      else if position.PositionFailed? then Failed
      else match reply
        case RequestFailed => Failed
        case Received(current) => Loaded(current)
  }

  /** The error text a refresh leaves: empty exactly on success, and one of
      the two fixed messages otherwise. */
  function RefreshMessage(outcome: Outcome): (message: string)
    ensures message == "" <==> outcome.Loaded?
    ensures outcome.Denied? ==> message == PERMISSION_DENIED
    ensures outcome.Failed? ==> message == COULD_NOT_RETRIEVE
  {
    match outcome
    case Denied => PERMISSION_DENIED
    case Failed => COULD_NOT_RETRIEVE
    case Loaded(_) => ""
  }

  /** The weather panel's three lines. */
  datatype Panel = Panel(temperatureF: real, windspeedKmh: real, precipitationText: string)

  function PanelOf(current: CurrentWeather): (panel: Panel)
    ensures (panel.temperatureF - 32.0) * 5.0 / 9.0 == current.temperature
    ensures panel.windspeedKmh == current.windspeed
    ensures panel.precipitationText == StatusLabel(GetPrecipitationStatus(current.precipitation))
  {
    Panel(
      Units.ConvertToFahrenheit(current.temperature),
      current.windspeed,
      StatusLabel(GetPrecipitationStatus(current.precipitation)))
  }

  /** The screen's state: `weather` (initially `null`), `loading` (initially
      `false`) and `error` (initially empty). */
  class WeatherScreen {
    var weather: Option<CurrentWeather>
    var loading: bool
    var error: string

    constructor ()
      ensures weather == None && !loading && error == ""
    {
      weather := None;
      loading := false;
      error := "";
    }

    /** The panel is rendered only when `weather` is truthy and nothing is
        loading. */
    function VisiblePanel(): Option<Panel>
      reads this
    {
      if weather.Some? && !loading then Some(PanelOf(weather.value)) else None
    }

    /** The three statements that open every refresh. */
    method Reset()
      modifies this
      ensures loading && error == "" && weather == None
    {
      loading := true;
      error := "";
      weather := None;
    }

    /** One call of `getLocationAndWeather`. `requested` says whether the
        weather request was issued; the three replies stand for what the
        permission prompt, the position query and the request produced. */
    method GetLocationAndWeather(permission: PermissionReply, position: PositionReply, reply: WeatherReply)
      returns (requested: bool)
      modifies this
      ensures requested <==> permission == Status(GRANTED) && position.PositionFound?
      ensures !loading
      ensures error == RefreshMessage(RefreshOutcome(permission, position, reply))
      ensures weather == match RefreshOutcome(permission, position, reply)
        case Loaded(current) => current
        case _ => None
      ensures VisiblePanel() == match RefreshOutcome(permission, position, reply)
        case Loaded(Some(current)) => Some(PanelOf(current))
        case _ => None
    {
      Reset();
      requested := false;
      var failed := false;
      if permission.PermissionFailed? {
        failed := true;
      } else if permission.status != GRANTED {
        error := PERMISSION_DENIED;
        loading := false;
        return;
      } else if position.PositionFailed? {
        failed := true;
      } else {
        requested := true;
        match reply
        case RequestFailed =>
          failed := true;
        case Received(current) =>
          weather := current;
      }
      if failed {
        error := COULD_NOT_RETRIEVE;
      }
      loading := false;
    }
  }
}
