/**
 * The display rules of the weather client: which scale a temperature is
 * printed in, and when the page is in dark mode.
 */
module Display {

  /** A temperature as printed: a value followed by a degree sign and the scale letter. */
  datatype Reading = Reading(value: real, scale: string)

  /**
   * Celsius to Fahrenheit: C × 9/5 + 32.  Nothing is lost (ToCelsius undoes
   * it), and the freezing point of water separates the two signs.
   */
  function ToFahrenheit(celsius: real): (f: real)
    ensures ToCelsius(f) == celsius
    ensures f < 32.0 <==> celsius < 0.0
    ensures f == 32.0 <==> celsius == 0.0
  {
    celsius * 9.0 / 5.0 + 32.0
  }

  /** Fahrenheit back to Celsius; the client never does this, it pins down ToFahrenheit. */
  function ToCelsius(fahrenheit: real): (c: real)
  {
    (fahrenheit - 32.0) * 5.0 / 9.0
  }

  /**
   * How a provider temperature (always Celsius) is shown under the `unit`
   * setting: converted and labelled "F" exactly when the unit is
   * "fahrenheit"; any other unit value leaves it as it is, labelled "C".
   * The conversion loses nothing: converting back gives the stored value.
   */
  function ShownTemperature(celsius: real, unit: string): (r: Reading)
    ensures r.scale == "F" <==> unit == "fahrenheit"
    ensures r.scale == "F" || r.scale == "C"
    ensures r.scale == "C" ==> r.value == celsius
    ensures r.scale == "F" ==> ToCelsius(r.value) == celsius
  {
    if unit == "fahrenheit" then Reading(ToFahrenheit(celsius), "F")
    else Reading(celsius, "C")
  }

  /** Water freezes at 32°F and boils at 212°F. */
  lemma FahrenheitLandmarks()
    ensures ShownTemperature(0.0, "fahrenheit") == Reading(32.0, "F")
    ensures ShownTemperature(100.0, "fahrenheit") == Reading(212.0, "F")
  {
  }

  /**
   * Whether the body gets the `dark-mode` class: the theme "dark" always,
   * the theme "auto" when the system prefers a dark colour scheme, and
   * nothing else.
   */
  predicate DarkMode(theme: string, prefersDark: bool): (dark: bool)
    ensures theme == "dark" ==> dark
    ensures theme == "auto" ==> (dark <==> prefersDark)
    ensures dark ==> theme == "dark" || theme == "auto"
  {
    theme == "dark" || (theme == "auto" && prefersDark)
  }

  /** The system preference matters only under "auto", which follows it. */
  lemma DarkModeFollowsSystemOnlyOnAuto(theme: string)
    ensures theme == "auto" ==> (DarkMode(theme, true) && !DarkMode(theme, false))
    ensures theme != "auto" ==> DarkMode(theme, true) == DarkMode(theme, false) == (theme == "dark")
  {
  }
}
