/**
 * The request side of the two handlers of main.py: validating the typed
 * city, building the provider URL for the city form and for the
 * latitude/longitude form, and splitting the geolocation `loc` field.
 */
module Query {
  import opened Wrappers
  import opened Text

  const WeatherEndpoint := "https://api.openweathermap.org/data/2.5/weather?"
  const UnitsAndKey := "&units=metric&appid="
  const GeoEndpoint := "https://ipinfo.io/"
  const EmptyCityMessage := "Please enter a city name"

  /** Reads the city back out of a city-form URL built with `apiKey`. */
  function CityOf(url: string, apiKey: string): Option<string>
  {
    var head := WeatherEndpoint + "q=";
    var tail := UnitsAndKey + apiKey;
    if |head| + |tail| <= |url| && url[..|head|] == head && url[|url| - |tail|..] == tail
    then Some(url[|head|..|url| - |tail|])
    else None
  }

  /**
   * The city-form request. The city is inserted as typed, without escaping,
   * and reading it back out of the URL gives the city.
   */
  function CityUrl(city: string, apiKey: string): (url: string)
    ensures CityOf(url, apiKey) == Some(city)
  {
    var head := WeatherEndpoint + "q=";
    var tail := UnitsAndKey + apiKey;
    var url := head + city + tail;
    assert url[..|head|] == head;
    assert url[|url| - |tail|..] == tail;
    assert url[|head|..|url| - |tail|] == city;
    url
  }

  /**
   * Reads latitude and longitude back out of a coordinate-form URL built
   * with `apiKey`: the latitude runs up to the first `&`, which must start
   * `&lon=`.
   */
  function CoordsOf(url: string, apiKey: string): Option<(string, string)>
  {
    var head := WeatherEndpoint + "lat=";
    var tail := UnitsAndKey + apiKey;
    if |head| + |tail| <= |url| && url[..|head|] == head && url[|url| - |tail|..] == tail then
      var m := url[|head|..|url| - |tail|];
      var i := IndexOf(m, '&', 0);
      if i + 5 <= |m| && m[i..i + 5] == "&lon=" then Some((m[..i], m[i + 5..])) else None
    else None
  }

  /**
   * The coordinate-form request; the two `loc` pieces are inserted verbatim,
   * and when the latitude holds no `&` both read back out of the URL.
   */
  function CoordUrl(lat: string, lon: string, apiKey: string): (url: string)
    ensures '&' !in lat ==> CoordsOf(url, apiKey) == Some((lat, lon))
  {
    var head := WeatherEndpoint + "lat=";
    var tail := UnitsAndKey + apiKey;
    var m := lat + "&lon=" + lon;
    var url := head + m + tail;
    assert url[..|head|] == head;
    assert url[|url| - |tail|..] == tail;
    assert url[|head|..|url| - |tail|] == m;
    assert m[|lat|..|lat| + 5] == "&lon=" && m[..|lat|] == lat && m[|lat| + 5..] == lon;
    assert '&' !in lat ==> IndexOf(m, '&', 0) == |lat| by {
      if '&' !in lat {
        assert forall k :: 0 <= k < |lat| ==> m[k] == lat[k];
        assert m[|lat|] == '&';
      }
    }
    url
  }

  /** Different cities (same key) never produce the same request. */
  lemma CityUrlInjective(c1: string, c2: string, apiKey: string)
    ensures CityUrl(c1, apiKey) == CityUrl(c2, apiKey) ==> c1 == c2
  {
  }

  /** A city-form request is never a coordinate-form request. */
  lemma FormsDiffer(city: string, lat: string, lon: string, k1: string, k2: string)
    ensures CityUrl(city, k1) != CoordUrl(lat, lon, k2)
  {
    var n := |WeatherEndpoint|;
    assert CityUrl(city, k1)[n] == 'q';
    assert CoordUrl(lat, lon, k2)[n] == 'l';
  }

  /**
   * `get_weather` up to the request: the typed text is stripped; an empty
   * result is refused with a message and no URL, otherwise the URL for the
   * stripped city is produced.
   */
  function CityRequest(input: string, apiKey: string): (r: Result<string, string>)
    ensures r.Failure? <==> AllSpace(input)
    ensures r.Failure? ==> r.error == EmptyCityMessage
    ensures r.Success? ==> CityOf(r.value, apiKey) == Some(Strip(input)) && Strip(input) != []
  {
    var city := Strip(input);
    if city == [] then Failure(EmptyCityMessage)
    else Success(CityUrl(city, apiKey))
  }

  /** Surrounding whitespace does not change the request. */
  lemma CityRequestIgnoresPadding(pre: string, city: string, post: string, apiKey: string)
    requires AllSpace(pre) && AllSpace(post) && Trimmed(city) && city != []
    ensures CityRequest(pre + city + post, apiKey) == Success(CityUrl(city, apiKey))
  {
    StripPadding(pre, city, post);
  }

  /**
   * `lat, lon = loc.split(",")`: succeeds exactly when `loc` holds one comma,
   * giving the text before and after it; otherwise the unpacking fails and
   * the error carries the number of pieces found.
   */
  function ParseLoc(loc: string): (r: Result<(string, string), nat>)
    ensures r.Success? <==> Count(loc, ',') == 1
    ensures r.Success? ==>
      loc == r.value.0 + "," + r.value.1 && ',' !in r.value.0 && ',' !in r.value.1
    ensures r.Failure? ==> r.error == Count(loc, ',') + 1 && r.error != 2
  {
    var parts := Split(loc, ',');
    if |parts| == 2 then
      assert Join(parts, ',') == parts[0] + "," + parts[1] by {
        assert parts[1..] == [parts[1]];
      }
      Success((parts[0], parts[1]))
    else Failure(|parts|)
  }

  /** Joining two comma-free coordinates with a comma and parsing gives them back. */
  lemma ParseLocRoundTrip(lat: string, lon: string)
    requires ',' !in lat && ',' !in lon
    ensures ParseLoc(lat + "," + lon) == Success((lat, lon))
  {
    var parts := [lat, lon];
    assert parts[1..] == [lon];
    assert Join(parts, ',') == lat + "," + lon;
    SplitJoin(parts, ',');
  }

  /** A well-formed `loc` parses; one without a comma is refused. */
  lemma ParseLocExamples()
    ensures ParseLoc("40.7128,-74.0060") == Success(("40.7128", "-74.0060"))
    ensures ParseLoc("bad").Failure?
  {
    ParseLocRoundTrip("40.7128", "-74.0060");
    assert "40.7128" + "," + "-74.0060" == "40.7128,-74.0060";
    assert Count("bad", ',') == 0 by {
      assert "bad"[1..] == "ad" && "ad"[1..] == "d" && "d"[1..] == "";
    }
  }
}
