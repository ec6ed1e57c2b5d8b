/**
 * The geocoder: turning a city search or a reverse lookup answered by the
 * Open-Meteo geocoding service into a location and a display label.
 * The HTTP exchange itself is not modelled; its outcome is an input.
 */
module Geocoding {
  import opened Wrappers
  import opened Js

  /** One entry of the service's `results` array. */
  datatype Place = Place(latitude: real, longitude: real, name: JsValue, admin1: JsValue, country: JsValue)

  /** Where a city search resolved to, and how it is labelled. */
  datatype Location = Location(latitude: real, longitude: real, caption: string)

  /**
   * How the name search ended: `fetch` or `res.json()` rejected with an error
   * message, the response was not ok, or the JSON arrived (a missing `results`
   * array reads as an empty one).
   */
  datatype SearchResponse = SearchRejected(reason: string) | SearchNotOk | SearchOk(results: seq<Place>)

  /** How the reverse lookup ended; a rejection is caught and its message dropped. */
  datatype ReverseResponse = ReverseThrows | ReverseNotOk | ReverseOk(results: seq<Place>)

  const SearchFailed := "Failed to search city"
  const CityNotFound := "City not found"
  const DefaultPlaceName := "Your location"

  /** `${v ? ", " + v : ""}`: an optional part of a label. */
  function Part(v: JsValue): string {
    if Truthy(v) then ", " + v.s else ""
  }

  /** The forward label `${name}${admin1 part}${country part}`. */
  function CityLabel(p: Place): string {
    Interpolate(p.name) + Part(p.admin1) + Part(p.country)
  }

  /** The reverse label, where a missing or empty name reads "Your location". */
  function ReverseLabel(p: Place): string {
    (if Truthy(p.name) then p.name.s else DefaultPlaceName) + Part(p.admin1) + Part(p.country)
  }

  /** Reference definition of a label: the parts joined by ", ". */
  function Join(parts: seq<string>): string {
    if |parts| == 0 then ""
    else if |parts| == 1 then parts[0]
    else parts[0] + ", " + Join(parts[1..])
  }

  /** The texts of the truthy values, in order. */
  function Present(vs: seq<JsValue>): (texts: seq<string>)
    ensures |texts| <= |vs|
    ensures forall t :: t in texts ==> t != ""
  {
    if |vs| == 0 then []
    else if Truthy(vs[0]) then [vs[0].s] + Present(vs[1..])
    else Present(vs[1..])
  }

  /**
   * The forward label is the name followed by exactly the non-empty optional
   * parts, joined by ", ": an empty or missing admin1 or country adds no
   * separator.
   */
  lemma {:induction false} CityLabelIsJoin(p: Place)
    ensures CityLabel(p) == Join([Interpolate(p.name)] + Present([p.admin1, p.country]))
  {
    JoinLabel(Interpolate(p.name), p.admin1, p.country);
  }

  /** The same shape for the reverse label, with "Your location" standing in for a falsy name. */
  lemma {:induction false} ReverseLabelIsJoin(p: Place)
    ensures ReverseLabel(p) == Join([if Truthy(p.name) then p.name.s else DefaultPlaceName] + Present([p.admin1, p.country]))
  {
    JoinLabel(if Truthy(p.name) then p.name.s else DefaultPlaceName, p.admin1, p.country);
  }

  lemma JoinLabel(head: string, admin1: JsValue, country: JsValue)
    ensures head + Part(admin1) + Part(country) == Join([head] + Present([admin1, country]))
  {
    assert [admin1, country][1..] == [country] && [country][1..] == [];
    assert Parts([country]) == Part(country) + Parts([]);
    assert Parts([admin1, country]) == Part(admin1) + Parts([country]);
    JoinParts(head, [admin1, country]);
  }

  /** The concatenated optional parts of `vs`. */
  function Parts(vs: seq<JsValue>): string {
    if |vs| == 0 then "" else Part(vs[0]) + Parts(vs[1..])
  }

  /** Appending optional parts one by one is joining the head with the truthy ones. */
  lemma {:induction false} JoinParts(head: string, vs: seq<JsValue>)
    ensures head + Parts(vs) == Join([head] + Present(vs))
    decreases |vs|
  {
    if |vs| > 0 {
      var v, rest := vs[0], vs[1..];
      if Truthy(v) {
        JoinParts(v.s, rest);
        var tail := [v.s] + Present(rest);
        assert [head] + Present(vs) == [head] + tail;
        assert ([head] + tail)[1..] == tail;
        calc {
          Join([head] + tail);
          head + ", " + Join(tail);
          head + ", " + (v.s + Parts(rest));
          head + (Part(v) + Parts(rest));
        }
      } else {
        JoinParts(head, rest);
      }
    } else {
      assert [head] + Present(vs) == [head];
    }
  }

  /**
   * The reverse label agrees with the forward one when the name is truthy;
   * otherwise it starts with "Your location". It is never empty.
   */
  lemma ReverseLabelDefaultsName(p: Place)
    ensures Truthy(p.name) ==> ReverseLabel(p) == CityLabel(p)
    ensures !Truthy(p.name) ==> ReverseLabel(p)[..|DefaultPlaceName|] == DefaultPlaceName
    ensures ReverseLabel(p) != ""
  {
  }

  /** `geocodeCity` after the request: the first result, or the error it throws. */
  function Geocode(response: SearchResponse): (r: Result<Location, string>)
    ensures r.Success? <==> response.SearchOk? && |response.results| > 0
    ensures r.Success? ==> r.value.caption == CityLabel(response.results[0])
                           && r.value.latitude == response.results[0].latitude
                           && r.value.longitude == response.results[0].longitude
    ensures response.SearchNotOk? ==> r == Failure(SearchFailed)
    ensures response.SearchOk? && response.results == [] ==> r == Failure(CityNotFound)
    ensures response.SearchRejected? ==> r == Failure(response.reason)
  {
    match response
    case SearchRejected(reason) => Failure(reason)
    case SearchNotOk => Failure(SearchFailed)
    case SearchOk(results) =>
      if |results| == 0 then Failure(CityNotFound)
      else
        var first := results[0];
        Success(Location(first.latitude, first.longitude, CityLabel(first)))
  }

  /** The best-effort reverse lookup: it never fails, it falls back to "Your location". */
  function ReverseLookup(response: ReverseResponse): (caption: string)
    ensures caption != ""
    ensures !(response.ReverseOk? && |response.results| > 0) ==> caption == DefaultPlaceName
    ensures response.ReverseOk? && |response.results| > 0 ==> caption == ReverseLabel(response.results[0])
  {
    match response
    case ReverseOk(results) =>
      if |results| > 0 then
        ReverseLabelDefaultsName(results[0]);
        ReverseLabel(results[0])
      else DefaultPlaceName
    case _ => DefaultPlaceName
  }
}
