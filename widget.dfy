/**
 * The weather widget's orchestration: the status line, its error flag, the
 * result panel's visibility, the slot texts and the remembered city, and how
 * a city search, a geolocation request, a form submission and the page-load
 * auto-fetch change them. Every request is an input: the search and
 * forecast services are functions from the query to the response, and each
 * pipeline runs to completion before the next event.
 */
module Widget {
  import opened Wrappers
  import opened Js
  import opened Geocoding
  import opened Forecast
  import opened Storage

  /** How `navigator.geolocation` answered: missing, the error callback, or a position. */
  datatype Geolocation = Unsupported | Denied | Position(latitude: real, longitude: real)

  const LastCityKey := "lastCity"
  const DefaultCity := "Stockholm"
  const LoadingWeather := "Loading weather…"
  const GettingLocation := "Getting your location…"
  const GenericFailure := "Something went wrong"
  const GeolocationUnsupported := "Geolocation not supported in this browser."
  const PermissionDenied := "Location permission denied or unavailable."
  const LocationLoadFailed := "Couldn't load weather for your location."

  /** `err.message || "Something went wrong"`: the status a failed city load shows. */
  function ErrorStatus(message: string): (status: string)
    ensures status != ""
    ensures message != "" ==> status == message
    ensures message == "" ==> status == GenericFailure
  {
    if message != "" then message else GenericFailure
  }

  /** The search found at least one place. */
  predicate Found(response: SearchResponse) {
    response.SearchOk? && |response.results| > 0
  }

  /**
   * The city pipeline of `loadByCity` without its effects: geocode the name,
   * fetch the forecast for the first result's coordinates, render it under
   * that result's label; or the message of the first step that failed.
   */
  function CityPipeline(name: string, search: string -> SearchResponse,
                        forecast: (real, real) -> ForecastResponse): (r: Result<Display, string>)
    ensures search(name).SearchRejected? ==> r == Failure(search(name).reason)
    ensures search(name).SearchNotOk? ==> r == Failure(SearchFailed)
    ensures search(name) == SearchOk([]) ==> r == Failure(CityNotFound)
    ensures Found(search(name)) ==>
              var first := search(name).results[0];
              match forecast(first.latitude, first.longitude)
              case ForecastRejected(reason) => r == Failure(reason)
              case ForecastNotOk => r == Failure(LoadFailed)
              case ForecastOk(p) => r == Success(Render(p, CityLabel(first)))
  {
    match Geocode(search(name))
    case Failure(message) => Failure(message)
    case Success(place) =>
      match FetchForecast(forecast(place.latitude, place.longitude))
      case Failure(message) => Failure(message)
      case Success(p) => Success(Render(p, place.caption))
  }

  /** A city load succeeds exactly when the search finds a place and its forecast arrives. */
  lemma CityPipelineSucceeds(name: string, search: string -> SearchResponse,
                             forecast: (real, real) -> ForecastResponse)
    ensures CityPipeline(name, search, forecast).Success? <==>
              Found(search(name))
              && forecast(search(name).results[0].latitude, search(name).results[0].longitude).ForecastOk?
  {
  }

  /** The city the page-load auto-fetch searches for: the remembered one if non-empty, else Stockholm. */
  function AutoLoadCity(items: map<string, string>): (city: string)
    ensures city != ""
    ensures LastCityKey in items && items[LastCityKey] != "" ==> city == items[LastCityKey]
    ensures !(LastCityKey in items && items[LastCityKey] != "") ==> city == DefaultCity
  {
    if LastCityKey in items && items[LastCityKey] != "" then items[LastCityKey] else DefaultCity
  }

  /** A reload after a successful search for `name` searches for `name` again. */
  lemma ReloadAfterSearch(items: map<string, string>, name: string)
    requires name != ""
    ensures AutoLoadCity(items[LastCityKey := name]) == name
  {
  }

  /** A reload after a successful geolocation falls back to the default city. */
  lemma ReloadAfterLocate(items: map<string, string>)
    ensures AutoLoadCity(items - {LastCityKey}) == DefaultCity
  {
  }

  /** The remembered city, if there is one, is not the empty string. */
  ghost predicate StoredCityNonEmpty(items: map<string, string>) {
    LastCityKey in items ==> items[LastCityKey] != ""
  }

  class WeatherWidget {
    /** The status line's text and whether it carries the `error` class. */
    var status: string
    var isError: bool
    /** The result panel's `hidden` attribute. */
    var resultHidden: bool
    /** The texts in the result slots; `None` while they hold the page's own placeholders. */
    var shown: Option<Display>
    /** The city input's value. */
    var inputValue: string
    /** Whether the page has a city input element. */
    const hasCityInput: bool
    const storage: LocalStorage

    constructor (storage: LocalStorage, hasCityInput: bool, inputValue: string, status: string, resultHidden: bool)
      ensures this.storage == storage && this.hasCityInput == hasCityInput && this.inputValue == inputValue
      ensures this.status == status && !isError && this.resultHidden == resultHidden && shown == None
    {
      this.storage := storage;
      this.hasCityInput := hasCityInput;
      this.inputValue := inputValue;
      this.status := status;
      this.isError := false;
      this.resultHidden := resultHidden;
      this.shown := None;
    }

    /** The weather result `d` is on screen and the status line is cleared. */
    predicate Showing(d: Display)
      reads this
    {
      status == "" && !isError && !resultHidden && shown == Some(d)
    }

    /**
     * What a finished city load leaves behind: on success the rendered
     * result and the remembered city `name`; on failure the error status, the
     * hidden panel, and the slot texts and store as they were.
     */
    twostate predicate CityLoaded(name: string, search: string -> SearchResponse,
                                  forecast: (real, real) -> ForecastResponse)
      reads this, storage
    {
      match CityPipeline(name, search, forecast)
      case Success(d) =>
        Showing(d) && storage.items == old(storage.items)[LastCityKey := name]
      case Failure(message) =>
        && status == ErrorStatus(message) && isError && resultHidden
        && shown == old(shown) && storage.items == old(storage.items)
    }

    /**
     * What the position callback leaves behind: the result under the
     * reverse-geocoded label with the remembered city removed, or the fixed
     * error status with the panel's visibility `hidden`, the slot texts and
     * the store as they were.
     */
    twostate predicate PositionHandled(latitude: real, longitude: real, forecast: (real, real) -> ForecastResponse,
                                       reverse: (real, real) -> ReverseResponse, hidden: bool)
      reads this, storage
    {
      match FetchForecast(forecast(latitude, longitude))
      case Success(p) =>
        Showing(Render(p, ReverseLookup(reverse(latitude, longitude))))
        && storage.items == old(storage.items) - {LastCityKey}
      case Failure(_) =>
        && status == LocationLoadFailed && isError && resultHidden == hidden
        && shown == old(shown) && storage.items == old(storage.items)
    }

    /** `setStatus(msg, isError)`. */
    method SetStatus(msg: string, error: bool)
      modifies this`status, this`isError
      ensures status == msg && isError == error
    {
      status := msg;
      isError := error;
    }

    /** `showResult(show)`. */
    method ShowResult(show: bool)
      modifies this`resultHidden
      ensures resultHidden == !show
    {
      resultHidden := !show;
    }

    /** The first two steps of both pipelines: a neutral progress message and a hidden panel. */
    method ShowProgress(msg: string)
      modifies this`status, this`isError, this`resultHidden
      ensures status == msg && !isError && resultHidden
    {
      SetStatus(msg, false);
      ShowResult(false);
    }

    /** The `catch` of `loadByCity`: the error's message (or the generic one) and a hidden panel. */
    method ShowFailure(message: string)
      modifies this`status, this`isError, this`resultHidden
      ensures status == ErrorStatus(message) && isError && resultHidden
    {
      SetStatus(ErrorStatus(message), true);
      ShowResult(false);
    }

    /** `renderWeather(data, label)`: fill the slots, clear the status, show the panel. */
    method RenderWeather(p: Payload, caption: string)
      modifies this`shown, this`status, this`isError, this`resultHidden
      ensures Showing(Render(p, caption))
    {
      shown := Some(Render(p, caption));
      SetStatus("", false);
      ShowResult(true);
    }

    /** `loadByCity(name)`: the city is stored only once its weather has been rendered. */
    method LoadByCity(name: string, search: string -> SearchResponse, forecast: (real, real) -> ForecastResponse)
      modifies this`status, this`isError, this`resultHidden, this`shown, storage
      ensures CityLoaded(name, search, forecast)
    {
      ShowProgress(LoadingWeather);
      var located := Geocode(search(name));
      if located.Failure? {
        ShowFailure(located.error);
        return;
      }
      var fetched := FetchForecast(forecast(located.value.latitude, located.value.longitude));
      if fetched.Failure? {
        ShowFailure(fetched.error);
        return;
      }
      RenderWeather(fetched.value, located.value.caption);
      storage.SetItem(LastCityKey, name);
    }

    /** The success callback of `getCurrentPosition`. */
    method OnPosition(latitude: real, longitude: real, forecast: (real, real) -> ForecastResponse,
                      reverse: (real, real) -> ReverseResponse)
      modifies this`status, this`isError, this`resultHidden, this`shown, storage
      ensures PositionHandled(latitude, longitude, forecast, reverse, old(resultHidden))
    {
      var fetched := FetchForecast(forecast(latitude, longitude));
      if fetched.Failure? {
        SetStatus(LocationLoadFailed, true);
        return;
      }
      var caption := ReverseLookup(reverse(latitude, longitude));
      RenderWeather(fetched.value, caption);
      storage.RemoveItem(LastCityKey);
    }

    /** `loadByGeolocation()`. */
    method LoadByGeolocation(geo: Geolocation, forecast: (real, real) -> ForecastResponse,
                             reverse: (real, real) -> ReverseResponse)
      modifies this`status, this`isError, this`resultHidden, this`shown, storage
      ensures geo.Unsupported? ==>
                && status == GeolocationUnsupported && isError
                && resultHidden == old(resultHidden) && shown == old(shown) && storage.items == old(storage.items)
      ensures geo.Denied? ==>
                && status == PermissionDenied && isError && resultHidden
                && shown == old(shown) && storage.items == old(storage.items)
      ensures geo.Position? ==> PositionHandled(geo.latitude, geo.longitude, forecast, reverse, true)
      ensures StoredCityNonEmpty(old(storage.items)) ==> StoredCityNonEmpty(storage.items)
    {
      if geo.Unsupported? {
        SetStatus(GeolocationUnsupported, true);
        return;
      }
      ShowProgress(GettingLocation);
      match geo
      case Denied =>
        SetStatus(PermissionDenied, true);
      case Position(latitude, longitude) =>
        OnPosition(latitude, longitude, forecast, reverse);
    }

    /**
     * The form's submit handler: a blank input (after trimming) starts
     * nothing; otherwise the trimmed text is loaded. Without a city input the
     * handler stops at reading its value.
     */
    method Submit(search: string -> SearchResponse, forecast: (real, real) -> ForecastResponse)
      modifies this`status, this`isError, this`resultHidden, this`shown, storage
      ensures !hasCityInput || Trim(inputValue) == "" ==> unchanged(this) && unchanged(storage)
      ensures hasCityInput && Trim(inputValue) != "" ==> CityLoaded(Trim(inputValue), search, forecast)
      ensures StoredCityNonEmpty(old(storage.items)) ==> StoredCityNonEmpty(storage.items)
    {
      if !hasCityInput {
        return;
      }
      var name := Trim(inputValue);
      if name == "" {
        return;
      }
      LoadByCity(name, search, forecast);
    }

    /**
     * The page-load auto-fetch: put the remembered city, or Stockholm, into
     * the input and load it. Without a city input nothing is loaded.
     */
    method PageLoad(search: string -> SearchResponse, forecast: (real, real) -> ForecastResponse)
      modifies this, storage
      ensures !hasCityInput ==> unchanged(this) && unchanged(storage)
      ensures hasCityInput ==>
                && inputValue == AutoLoadCity(old(storage.items))
                && CityLoaded(AutoLoadCity(old(storage.items)), search, forecast)
      ensures StoredCityNonEmpty(old(storage.items)) ==> StoredCityNonEmpty(storage.items)
    {
      var last := storage.GetItem(LastCityKey);
      if !hasCityInput {
        return;
      }
      var city := if last.Some? && last.value != "" then last.value else DefaultCity;
      inputValue := city;
      LoadByCity(city, search, forecast);
    }
  }
}
