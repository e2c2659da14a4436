/**
 * The presenter of the weather client: the global `state` record (current
 * city and observation, favorites, settings), the browser's local storage it
 * mirrors, and the operations that change them.
 *
 * The network, the `confirm` dialog and the `prefers-color-scheme` media query
 * are inputs: a fetch is given by what it produced (`Fetched`), the dialog by
 * the user's answer, the media query by a boolean.  The page itself is not
 * modelled; what a render would print for the current city is returned as a
 * `WeatherCard`.
 */
module Presenter {

  import opened Wrappers
  import opened JsText
  import opened Favorites
  import opened Forecast
  import opened Display

  /** The user's preferences; unit and theme are the raw values of the settings form. */
  datatype Settings = Settings(unit: string, theme: string, notifications: bool)

  /** The settings used when none are stored. */
  const DefaultSettings := Settings("celsius", "light", false)

  /** The city shown at startup when no city was searched before. */
  const FallbackCity := "London"

  /** The parts of a current-weather response the client uses; temperatures are Celsius. */
  datatype Observation = Observation(name: string, country: string, temp: real, feelsLike: real)

  /**
   * What `fetch` followed by `response.json()` produced: the parsed body, or a
   * failure of any kind (a response that is not ok, a network error, a body
   * that is not JSON), which the client handles all alike.
   */
  datatype Fetched<T> = Received(body: T) | Failed

  /**
   * Local storage, one slot per key the client uses; `None` is a key that is
   * absent.  A stored value is the value that was serialised into it.
   */
  datatype Store = Store(favorites: Option<seq<Favorite>>, settings: Option<Settings>,
                         defaultCity: Option<string>)

  /** Local storage after `localStorage.clear()`. */
  const EmptyStore := Store(None, None, None)

  /** The favorites the client starts with: the stored list, or [] when the key is absent. */
  function StoredFavorites(store: Store): (favs: seq<Favorite>)
    ensures store.favorites == None ==> favs == []
    ensures store.favorites.Some? ==> favs == store.favorites.value
  {
    store.favorites.GetOr([])
  }

  /** The settings the client starts with: the stored record, or the defaults when the key is absent. */
  function StoredSettings(store: Store): (s: Settings)
    ensures store.settings == None ==> s == DefaultSettings
    ensures store.settings.Some? ==> s == store.settings.value
  {
    store.settings.GetOr(DefaultSettings)
  }

  /**
   * The city loaded at startup: the stored default city, or "London" when
   * the key is absent or holds the empty string.  It is never empty.
   */
  function StartupCity(store: Store): (city: string)
    ensures city != []
    ensures store.defaultCity == None ==> city == FallbackCity
    ensures store.defaultCity.Some? && store.defaultCity.value != [] ==> city == store.defaultCity.value
  {
    match store.defaultCity
    case Some(c) => if c != [] then c else FallbackCity
    case None => FallbackCity
  }

  /** After `localStorage.clear()` a reload starts from no favorites, the default settings and London. */
  lemma ClearedStoreGivesDefaults()
    ensures StoredFavorites(EmptyStore) == []
    ensures StoredSettings(EmptyStore) == DefaultSettings
    ensures StartupCity(EmptyStore) == FallbackCity
  {
  }

  /**
   * A non-blank search is remembered: the next start-up loads the trimmed
   * search text, whatever else the store holds.
   */
  lemma SearchedCityLoadsNext(store: Store, input: string)
    requires !AllSpace(input)
    ensures StartupCity(store.(defaultCity := Some(Trim(input)))) == Trim(input)
  {
  }

  /** What `displayWeather` prints for an observation. */
  datatype WeatherCard = WeatherCard(title: string, temperature: Reading, feelsLike: Reading,
                                     isFavorite: bool)

  /**
   * The card for an observation: the city and country, both temperatures in
   * the unit of the settings, and whether the favorite button offers removal
   * (the city's name is among the favorites).
   */
  function Card(w: Observation, settings: Settings, favorites: seq<Favorite>): (c: WeatherCard)
    ensures c.title == w.name + ", " + w.country
    ensures c.temperature.scale == c.feelsLike.scale == (if settings.unit == "fahrenheit" then "F" else "C")
    ensures c.temperature == ShownTemperature(w.temp, settings.unit)
    ensures c.feelsLike == ShownTemperature(w.feelsLike, settings.unit)
    ensures c.isFavorite <==> HasName(favorites, w.name)
  {
    WeatherCard(w.name + ", " + w.country,
                ShownTemperature(w.temp, settings.unit),
                ShownTemperature(w.feelsLike, settings.unit),
                HasName(favorites, w.name))
  }

  /** What the forecast page shows after `loadForecast`. */
  datatype ForecastView =
    | Skipped                      // no current city: nothing was requested
    | Unavailable                  // the request failed: "Could not load forecast"
    | Cards(days: seq<Sample>)     // the day cards, at most five

  /** The client's global state together with the local storage it writes. */
  class App {
    var currentCity: Option<string>
    var currentWeather: Option<Observation>
    var favorites: seq<Favorite>
    var settings: Settings
    /** Whether the body carries the `dark-mode` class. */
    var darkMode: bool
    var store: Store

    /** A reload would read back exactly the favorites and settings held in memory. */
    ghost predicate Persisted()
      reads this
    {
      StoredFavorites(store) == favorites && StoredSettings(store) == settings
    }

    /** The initial `state`: nothing loaded yet, favorites and settings read from storage. */
    constructor (saved: Store)
      ensures currentCity == None && currentWeather == None
      ensures favorites == StoredFavorites(saved) && settings == StoredSettings(saved)
      ensures store == saved && !darkMode
      ensures Persisted()
    {
      currentCity := None;
      currentWeather := None;
      favorites := StoredFavorites(saved);
      settings := StoredSettings(saved);
      darkMode := false;
      store := saved;
    }

    /** `applySettings`: dark mode exactly for "dark", or for "auto" when the system prefers dark. */
    method ApplySettings(prefersDark: bool)
      modifies this`darkMode
      ensures darkMode == DarkMode(settings.theme, prefersDark)
    {
      darkMode := settings.theme == "dark" || (settings.theme == "auto" && prefersDark);
    }

    /**
     * `fetchWeather`: on success the response becomes the current observation
     * and the requested city the current city, and the card is rendered; on
     * any failure both stay as they were and nothing is rendered.
     */
    method FetchWeather(city: string, response: Fetched<Observation>) returns (card: Option<WeatherCard>)
      modifies this`currentWeather, this`currentCity
      ensures response.Failed? ==>
                currentWeather == old(currentWeather) && currentCity == old(currentCity) && card == None
      ensures response.Received? ==>
                currentWeather == Some(response.body) && currentCity == Some(city) &&
                card == Some(Card(response.body, settings, favorites))
    {
      match response {
        case Failed =>
          card := None;
        case Received(data) =>
          currentWeather := Some(data);
          currentCity := Some(city);
          card := Some(Card(data, settings, favorites));
      }
    }

    /** `loadDefaultCity`: fetch the stored default city, or London. */
    method LoadDefaultCity(response: Fetched<Observation>) returns (requested: string, card: Option<WeatherCard>)
      modifies this`currentWeather, this`currentCity
      ensures requested == StartupCity(store)
      ensures response.Failed? ==>
                currentWeather == old(currentWeather) && currentCity == old(currentCity) && card == None
      ensures response.Received? ==>
                currentWeather == Some(response.body) && currentCity == Some(requested) &&
                card == Some(Card(response.body, settings, favorites))
    {
      requested := StartupCity(store);
      card := FetchWeather(requested, response);
    }

    /**
     * `searchWeather`: a blank input (empty after trimming) changes nothing and
     * requests nothing.  Otherwise the trimmed input is fetched and then
     * stored as the default city, whether or not the fetch succeeded.
     */
    method SearchWeather(input: string, response: Fetched<Observation>)
      returns (requested: Option<string>, card: Option<WeatherCard>)
      requires Persisted()
      modifies this`currentWeather, this`currentCity, this`store
      ensures Persisted()
      ensures AllSpace(input) ==>
                requested == None && card == None && store == old(store) &&
                currentWeather == old(currentWeather) && currentCity == old(currentCity)
      ensures !AllSpace(input) ==>
                requested == Some(Trim(input)) &&
                store == old(store).(defaultCity := Some(Trim(input)))
      ensures response.Failed? ==>
                currentWeather == old(currentWeather) && currentCity == old(currentCity) && card == None
      ensures !AllSpace(input) && response.Received? ==>
                currentWeather == Some(response.body) && currentCity == Some(Trim(input)) &&
                card == Some(Card(response.body, settings, favorites))
    {
      var city := Trim(input);
      if city != [] {
        card := FetchWeather(city, response);
        store := store.(defaultCity := Some(city));
        requested := Some(city);
        assert response.Failed? ==>
                 currentWeather == old(currentWeather) && currentCity == old(currentCity) && card == None;
      } else {
        requested, card := None, None;
      }
    }

    /**
     * `loadForecast`: without a current city nothing is requested; otherwise
     * the forecast of the current city is requested and, when it arrives,
     * reduced to at most five day cards.  The state is not changed.
     */
    method LoadForecast(response: Fetched<seq<Sample>>, dateOf: int -> string)
      returns (requested: Option<string>, view: ForecastView)
      ensures requested == if currentCity == None || currentCity == Some("") then None else currentCity
      ensures requested == None ==> view == Skipped
      ensures requested != None && response.Failed? ==> view == Unavailable
      ensures requested != None && response.Received? ==>
                view == Cards(FirstDays(Firsts(response.body, dateOf)))
    {
      if currentCity == None || currentCity == Some("") {
        return None, Skipped;
      }
      requested := currentCity;
      match response {
        case Failed =>
          view := Unavailable;
        case Received(list) =>
          var cards := ReduceForecast(list, dateOf);
          view := Cards(cards);
      }
    }

    /**
     * `addToFavorites`: without a current observation nothing happens.
     * Otherwise the current city's favorite status flips (see Toggled), the
     * list is written to storage, and the card is rendered again with the
     * flipped button.
     */
    method AddToFavorites() returns (card: Option<WeatherCard>)
      requires Persisted()
      modifies this`favorites, this`store
      ensures Persisted()
      ensures currentWeather == None ==> favorites == old(favorites) && store == old(store) && card == None
      ensures currentWeather != None ==>
                var w := currentWeather.value;
                favorites == Toggled(old(favorites), Favorite(w.name, w.country)) &&
                store == old(store).(favorites := Some(favorites)) &&
                card == Some(Card(w, settings, favorites)) &&
                (card.value.isFavorite <==> !HasName(old(favorites), w.name))
      ensures UniqueNames(old(favorites)) ==> UniqueNames(favorites)
    {
      if currentWeather == None {
        return None;
      }
      var w := currentWeather.value;
      var isFavorite := HasName(favorites, w.name);
      if isFavorite {
        favorites := WithoutName(favorites, w.name);
      } else {
        favorites := favorites + [Favorite(w.name, w.country)];
      }
      store := store.(favorites := Some(favorites));
      card := Some(Card(w, settings, favorites));
      ghost var toggled := Toggled(old(favorites), Favorite(w.name, w.country));
      assert favorites == toggled;
    }

    /** `removeFavorite`: drop every favorite with that name and write the list to storage. */
    method RemoveFavorite(name: string)
      requires Persisted()
      modifies this`favorites, this`store
      ensures Persisted()
      ensures favorites == WithoutName(old(favorites), name)
      ensures store == old(store).(favorites := Some(favorites))
      ensures UniqueNames(old(favorites)) ==> UniqueNames(favorites)
    {
      favorites := WithoutName(favorites, name);
      store := store.(favorites := Some(favorites));
      if UniqueNames(old(favorites)) {
        WithoutNameKeepsUnique(old(favorites), name);
      }
    }

    /**
     * `updateSettings`: the form's values replace the settings wholesale and
     * are written to storage, the theme is applied, and the cached
     * observation (if any) is rendered again in the new unit without
     * fetching anything.
     */
    method UpdateSettings(unit: string, theme: string, notifications: bool, prefersDark: bool)
      returns (card: Option<WeatherCard>)
      requires Persisted()
      modifies this`settings, this`store, this`darkMode
      ensures Persisted()
      ensures settings == Settings(unit, theme, notifications)
      ensures store == old(store).(settings := Some(settings))
      ensures darkMode == DarkMode(theme, prefersDark)
      ensures currentWeather == None ==> card == None
      ensures currentWeather != None ==> card == Some(Card(currentWeather.value, settings, favorites))
    {
      settings := Settings(unit, theme, notifications);
      store := store.(settings := Some(settings));
      ApplySettings(prefersDark);
      if currentWeather != None {
        card := Some(Card(currentWeather.value, settings, favorites));
      } else {
        card := None;
      }
    }

    /**
     * `clearAllData`: when the user confirms, storage is emptied and the
     * favorites and settings are reset to their defaults; otherwise nothing
     * changes.
     */
    method ClearAllData(confirmed: bool)
      requires Persisted()
      modifies this`favorites, this`settings, this`store
      ensures Persisted()
      ensures !confirmed ==> favorites == old(favorites) && settings == old(settings) && store == old(store)
      ensures confirmed ==> favorites == [] && settings == DefaultSettings && store == EmptyStore
    {
      if confirmed {
        store := EmptyStore;
        favorites := [];
        settings := DefaultSettings;
      }
    }

    /** Page start-up (`DOMContentLoaded`): apply the settings, then load the default city. */
    method Start(prefersDark: bool, response: Fetched<Observation>)
      returns (requested: string, card: Option<WeatherCard>)
      modifies this`darkMode, this`currentWeather, this`currentCity
      ensures darkMode == DarkMode(settings.theme, prefersDark)
      ensures requested == StartupCity(store)
      ensures response.Failed? ==> currentWeather == old(currentWeather) && currentCity == old(currentCity)
      ensures response.Received? ==> currentWeather == Some(response.body) && currentCity == Some(requested)
      ensures response.Failed? ==> card == None
      ensures response.Received? ==> card == Some(Card(response.body, settings, favorites))
    {
      ApplySettings(prefersDark);
      requested, card := LoadDefaultCity(response);
    }
  }
}
