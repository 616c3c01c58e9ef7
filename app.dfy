/**
 * The `WeatherApp` widget of main.py, reduced to the state its handlers
 * change: the text of the typed city, the four result labels, and the
 * requests sent. The network is a parameter: `fetch` maps a URL to what
 * `requests` delivers for it (a decoded reply or a request failure).
 */
module App {
  import opened Wrappers
  import opened Text
  import opened Query
  import opened Payload
  import Emoji

  /** What one network call gives back: the decoded body, or a `RequestException` with its text. */
  datatype Transport<T> = Delivered(body: T) | RequestFailed(cause: string)

  /** The geolocation reply; only its `loc` field is read. */
  datatype GeoInfo = GeoInfo(loc: Option<string>)

  const LocationFailure := "Could not fetch location-based weather."
  const RequestErrorPrefix := "Request error: "
  const CityPrompt := "Enter City Name:"

  /** The temperature label's stylesheet: as built, red error text, or large reading text. */
  datatype Style = DefaultStyle | AlertStyle | ReadingStyle

  datatype TemperatureText = NoTemperature | Message(text: string) | Degrees(celsius: Payload.Measure)

  datatype DescriptionText =
    | NoDescription
    | Details(description: string, humidity: Payload.Measure, windSpeed: Payload.Measure, feelsLike: Payload.Measure)

  /** A snapshot of the labels the handlers write. */
  datatype Labels = Labels(
    heading: string,
    style: Style,
    temperature: TemperatureText,
    emoji: string,
    description: DescriptionText)

  // ---------------------------------------------------------------------------
  // The two handlers as functions of their inputs.

  /** The text shown when a weather request fails: the city handler shows the failure, the location handler a fixed text. */
  function FailureText(located: bool, cause: string): (m: string)
    ensures located ==> m == LocationFailure
    ensures !located ==>
      |m| >= |RequestErrorPrefix| && m[..|RequestErrorPrefix|] == RequestErrorPrefix && m[|RequestErrorPrefix|..] == cause
  {
    if located then LocationFailure else RequestErrorPrefix + cause
  }

  /** The `try` block both handlers share once the weather URL is known. */
  function ReplyOutcome(reply: Transport<Response>, located: bool): (o: Outcome)
    ensures reply.RequestFailed? ==> o == ShowError(FailureText(located, reply.cause))
    ensures reply.Delivered? ==> o == Respond(reply.body)
    ensures o.ShowWeather? ==> reply.Delivered? && Succeeded(reply.body)
    ensures o.Uncaught? ==> o.styled
  {
    match reply
    case RequestFailed(e) => ShowError(FailureText(located, e))
    case Delivered(d) => Respond(d)
  }

  /** `get_weather`: what is shown for the typed text, given the network. */
  function CityOutcome(input: string, apiKey: string, fetch: string -> Transport<Response>): (o: Outcome)
    ensures AllSpace(input) ==> o == ShowError(EmptyCityMessage)
    ensures !AllSpace(input) ==> o == ReplyOutcome(fetch(CityUrl(Strip(input), apiKey)), false)
    ensures o.Uncaught? ==> o.styled
  {
    match CityRequest(input, apiKey)
    case Failure(m) => ShowError(m)
    case Success(url) => ReplyOutcome(fetch(url), false)
  }

  /** The URLs `get_weather` requests: none for a blank city, else the one city URL. */
  function CityRequests(input: string, apiKey: string): (urls: seq<string>)
    ensures urls == [] <==> AllSpace(input)
    ensures urls != [] ==> urls == [CityUrl(Strip(input), apiKey)]
  {
    match CityRequest(input, apiKey)
    case Failure(_) => []
    case Success(url) => [url]
  }

  /** The coordinates `get_current_location_weather` asks for, if `loc` can be unpacked. */
  function Coordinates(geo: Transport<GeoInfo>): (c: Option<(string, string)>)
    ensures c.Some? <==> geo.Delivered? && geo.body.loc.Some? && Count(geo.body.loc.value, ',') == 1
    ensures c.Some? ==> geo.body.loc.value == c.value.0 + "," + c.value.1
  {
    match geo
    case Delivered(GeoInfo(Some(loc))) =>
      (match ParseLoc(loc)
       case Success(p) => Some(p)
       case Failure(_) => None)
    case _ => None
  }

  /**
   * `get_current_location_weather`: a request failure shows one fixed text;
   * a reply without `loc` or a `loc` that does not unpack into two pieces
   * escapes the handler before anything is shown.
   */
  function LocationOutcome(geo: Transport<GeoInfo>, apiKey: string, fetch: string -> Transport<Response>): (o: Outcome)
    ensures geo.RequestFailed? ==> o == ShowError(LocationFailure)
    ensures o.ShowError? ==> o.message == LocationFailure || (|o.message| >= 7 && o.message[..7] == "Error: ")
    ensures geo.Delivered? && Coordinates(geo).None? ==> o == Uncaught(false)
    ensures Coordinates(geo).Some? ==>
      o == ReplyOutcome(fetch(CoordUrl(Coordinates(geo).value.0, Coordinates(geo).value.1, apiKey)), true)
    ensures Coordinates(geo).Some? && fetch(CoordUrl(Coordinates(geo).value.0, Coordinates(geo).value.1, apiKey)).RequestFailed? ==>
      o == ShowError(LocationFailure)
  {
    match geo
    case RequestFailed(_) => ShowError(LocationFailure)
    case Delivered(info) =>
      match info.loc
      case None => Uncaught(false)
      case Some(loc) =>
        match ParseLoc(loc)
        case Failure(_) => Uncaught(false)
        case Success((lat, lon)) => ReplyOutcome(fetch(CoordUrl(lat, lon, apiKey)), true)
  }

  /** The URLs `get_current_location_weather` requests: the geolocation service, then the coordinate URL. */
  function LocationRequests(geo: Transport<GeoInfo>, apiKey: string): (urls: seq<string>)
    ensures 1 <= |urls| <= 2 && urls[0] == GeoEndpoint
    ensures |urls| == 2 <==> Coordinates(geo).Some?
    ensures Coordinates(geo).Some? ==>
      urls == [GeoEndpoint, CoordUrl(Coordinates(geo).value.0, Coordinates(geo).value.1, apiKey)]
  {
    match Coordinates(geo)
    case Some((lat, lon)) => [GeoEndpoint, CoordUrl(lat, lon, apiKey)]
    case None => [GeoEndpoint]
  }

  /** Weather is shown for a typed city exactly when its reply has `cod` 200 and every required field. */
  lemma CityWeatherOnlyOn200(input: string, apiKey: string, fetch: string -> Transport<Response>)
    ensures CityOutcome(input, apiKey, fetch).ShowWeather? <==>
      && !AllSpace(input)
      && fetch(CityUrl(Strip(input), apiKey)).Delivered?
      && Succeeded(fetch(CityUrl(Strip(input), apiKey)).body)
      && Extract(fetch(CityUrl(Strip(input), apiKey)).body).Some?
  {
  }

  /** The city handler depends on the network only at the URLs it requests. */
  lemma CityOutcomeLocal(input: string, apiKey: string, f: string -> Transport<Response>, g: string -> Transport<Response>)
    requires forall url :: url in CityRequests(input, apiKey) ==> f(url) == g(url)
    ensures CityOutcome(input, apiKey, f) == CityOutcome(input, apiKey, g)
  {
    if !AllSpace(input) {
      assert CityRequest(input, apiKey).value in CityRequests(input, apiKey);
    }
  }

  /** The location handler escapes on a delivered `loc` exactly when it has other than one comma. */
  lemma LocationEscapesOnBadLoc(loc: string, apiKey: string, fetch: string -> Transport<Response>)
    ensures LocationOutcome(Delivered(GeoInfo(Some(loc))), apiKey, fetch) == Uncaught(false)
        <==> Count(loc, ',') != 1
  {
    var o := LocationOutcome(Delivered(GeoInfo(Some(loc))), apiKey, fetch);
    if Count(loc, ',') == 1 {
      assert !o.Uncaught? || o.styled;
    }
  }

  /**
   * For `loc == lat + "," + lon` the coordinate URL carries both pieces
   * verbatim, and its reply is handled exactly as the city handler
   * handles the same reply.
   */
  lemma LocationUsesCoordinates(lat: string, lon: string, apiKey: string,
                                fetch: string -> Transport<Response>, input: string, fetch': string -> Transport<Response>)
    requires ',' !in lat && ',' !in lon
    requires !AllSpace(input)
    requires fetch(CoordUrl(lat, lon, apiKey)).Delivered?
    requires fetch'(CityUrl(Strip(input), apiKey)) == fetch(CoordUrl(lat, lon, apiKey))
    ensures LocationRequests(Delivered(GeoInfo(Some(lat + "," + lon))), apiKey) == [GeoEndpoint, CoordUrl(lat, lon, apiKey)]
    ensures LocationOutcome(Delivered(GeoInfo(Some(lat + "," + lon))), apiKey, fetch) == CityOutcome(input, apiKey, fetch')
  {
    ParseLocRoundTrip(lat, lon);
  }

  // ---------------------------------------------------------------------------
  // The widget state.

  class WeatherApp {
    const apiKey: string
    /** The text of the city input field. */
    var cityInput: string
    /** The heading label: the prompt, then the last city shown. */
    var cityHeading: string
    var temperatureStyle: Style
    var temperatureText: TemperatureText
    var emojiText: string
    var descriptionText: DescriptionText
    /** Every URL requested so far, in order. */
    ghost var requested: seq<string>

    constructor (apiKey: string)
      ensures this.apiKey == apiKey && cityInput == ""
      ensures View() == Labels(CityPrompt, DefaultStyle, NoTemperature, "", NoDescription)
      ensures requested == []
    {
      this.apiKey := apiKey;
      cityInput := "";
      cityHeading := CityPrompt;
      temperatureStyle := DefaultStyle;
      temperatureText := NoTemperature;
      emojiText := "";
      descriptionText := NoDescription;
      requested := [];
    }

    function View(): Labels
      reads this
    {
      Labels(cityHeading, temperatureStyle, temperatureText, emojiText, descriptionText)
    }

    /** The labels as `display_error(message)` leaves them. */
    ghost predicate ShowsError(message: string)
      reads this
    {
      && temperatureStyle == AlertStyle
      && temperatureText == Message(message)
      && emojiText == ""
      && descriptionText == NoDescription
    }

    /** The labels as `display_weather` leaves them for a reading. */
    ghost predicate ShowsWeather(r: Reading)
      reads this
    {
      && cityHeading == r.cityName
      && temperatureStyle == ReadingStyle
      && temperatureText == Degrees(r.temperature)
      && emojiText == Emoji.WeatherEmoji(r.conditionId)
      && descriptionText == Details(r.description, r.humidity, r.windSpeed, r.feelsLike)
    }

    /** The labels after a handler with outcome `o`, starting from `before`. */
    ghost predicate Shows(o: Outcome, before: Labels)
      reads this
    {
      match o
      case ShowError(m) => ShowsError(m) && cityHeading == before.heading
      case ShowWeather(r) => ShowsWeather(r)
      case Uncaught(styled) => View() == before.(style := if styled then ReadingStyle else before.style)
    }

    /** `display_error`: the message goes to the temperature label, in red; the emoji and description are cleared. */
    method DisplayError(message: string)
      modifies this
      ensures ShowsError(message)
      ensures cityHeading == old(cityHeading) && cityInput == old(cityInput) && requested == old(requested)
    {
      temperatureStyle := AlertStyle;
      temperatureText := Message(message);
      emojiText := "";
      descriptionText := NoDescription;
    }

    /**
     * `display_weather`: the stylesheet is switched first; then the fields are
     * read, and a missing one raises before any label text changes.
     */
    method DisplayWeather(data: Response) returns (raised: bool)
      modifies this
      ensures raised <==> Extract(data).None?
      ensures !raised ==> ShowsWeather(Extract(data).value)
      ensures raised ==> View() == old(View()).(style := ReadingStyle)
      ensures cityInput == old(cityInput) && requested == old(requested)
    {
      temperatureStyle := ReadingStyle;
      var reading := Extract(data);
      if reading.None? {
        return true;
      }
      var r := reading.value;
      var emoji := Emoji.WeatherEmoji(r.conditionId);
      cityHeading := r.cityName;
      temperatureText := Degrees(r.temperature);
      emojiText := emoji;
      descriptionText := Details(r.description, r.humidity, r.windSpeed, r.feelsLike);
      raised := false;
    }

    /** The shared tail of both handlers: a delivered reply is shown as weather when `cod` is 200, else as an error. */
    method ShowReply(data: Response) returns (escaped: bool)
      modifies this
      ensures Shows(Respond(data), old(View()))
      ensures escaped <==> Respond(data).Uncaught?
      ensures cityInput == old(cityInput) && requested == old(requested)
    {
      if Succeeded(data) {
        escaped := DisplayWeather(data);
      } else {
        DisplayError(ErrorText(data));
        escaped := false;
      }
    }

    /** One weather request and the display of its result; the two handlers share this `try` block. */
    method Request(url: string, fetch: string -> Transport<Response>, located: bool) returns (escaped: bool)
      modifies this
      ensures Shows(ReplyOutcome(fetch(url), located), old(View()))
      ensures escaped <==> ReplyOutcome(fetch(url), located).Uncaught?
      ensures requested == old(requested) + [url]
      ensures cityInput == old(cityInput)
    {
      requested := requested + [url];
      match fetch(url)
      case RequestFailed(e) =>
        DisplayError(FailureText(located, e));
        escaped := false;
      case Delivered(data) =>
        escaped := ShowReply(data);
    }

    /** `get_weather`; `escaped` tells that an exception left the handler. */
    method GetWeather(fetch: string -> Transport<Response>) returns (escaped: bool)
      modifies this
      ensures Shows(CityOutcome(old(cityInput), apiKey, fetch), old(View()))
      ensures escaped <==> CityOutcome(old(cityInput), apiKey, fetch).Uncaught?
      ensures requested == old(requested) + CityRequests(old(cityInput), apiKey)
      ensures cityInput == old(cityInput)
    {
      var city := Strip(cityInput);
      if city == [] {
        DisplayError(EmptyCityMessage);
        return false;
      }
      escaped := Request(CityUrl(city, apiKey), fetch, false);
    }

    /** `get_current_location_weather`; the geolocation reply is a parameter like the weather replies. */
    method GetCurrentLocationWeather(geo: Transport<GeoInfo>, fetch: string -> Transport<Response>) returns (escaped: bool)
      modifies this
      ensures Shows(LocationOutcome(geo, apiKey, fetch), old(View()))
      ensures escaped <==> LocationOutcome(geo, apiKey, fetch).Uncaught?
      ensures requested == old(requested) + LocationRequests(geo, apiKey)
      ensures cityInput == old(cityInput)
    {
      requested := requested + [GeoEndpoint];
      match geo
      case RequestFailed(_) =>
        DisplayError(LocationFailure);
        escaped := false;
      case Delivered(info) =>
        if info.loc.None? {
          return true;
        }
        match ParseLoc(info.loc.value)
        case Failure(_) =>
          escaped := true;
        case Success((lat, lon)) =>
          escaped := Request(CoordUrl(lat, lon, apiKey), fetch, true);
    }
  }
}
