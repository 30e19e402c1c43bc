/** The unit converters of the current-weather and hourly screens, over exact
    reals. Both screens define the same Fahrenheit formula; it is defined once
    here. */
module Units {

  /** `(celsius * 9) / 5 + 32`. Its inverse recovers the input. */
  function ConvertToFahrenheit(celsius: real): (fahrenheit: real)
    ensures (fahrenheit - 32.0) * 5.0 / 9.0 == celsius
  {
    (celsius * 9.0) / 5.0 + 32.0
  }

  /** `mm / 25.4`: millimetres to inches. */
  function ConvertToInches(mm: real): (inches: real)
    ensures inches * 25.4 == mm
  {
    mm / 25.4
  }

  /** `kmph * 0.621371`: kilometres per hour to miles per hour. */
  function ConvertToMph(kmph: real): (mph: real)
    ensures mph / 0.621371 == kmph
  {
    kmph * 0.621371
  }

  /** Freezing and boiling points of water. */
  lemma FahrenheitLandmarks()
    ensures ConvertToFahrenheit(0.0) == 32.0
    ensures ConvertToFahrenheit(100.0) == 212.0
    ensures ConvertToFahrenheit(-40.0) == -40.0
  {
  }

  /** Zero distance and zero speed stay zero. */
  lemma ZeroIsFixed()
    ensures ConvertToInches(0.0) == 0.0
    ensures ConvertToMph(0.0) == 0.0
  {
  }

  /** Each converter is strictly increasing, so it preserves the order of
      readings in both directions. */
  lemma ConvertersStrictlyIncreasing(a: real, b: real)
    ensures a < b <==> ConvertToFahrenheit(a) < ConvertToFahrenheit(b)
    ensures a < b <==> ConvertToInches(a) < ConvertToInches(b)
    ensures a < b <==> ConvertToMph(a) < ConvertToMph(b)
  {
  }
}
