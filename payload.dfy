/**
 * The response side of main.py: the decoded provider reply, the dispatch
 * on its `cod` field, and the fields `display_weather` reads from it.
 */
module Payload {
  import opened Wrappers

  /** The JSON value of `cod`: the provider sends the number 200 on success and a string such as "404" on error. */
  datatype Cod = IntCod(n: int) | StrCod(s: string) | OtherCod

  /** A JSON number the handlers only pass on to formatting, kept as its literal text. */
  datatype Measure = Measure(literal: string)

  datatype MainBlock = MainBlock(temp: Option<Measure>, feelsLike: Option<Measure>, humidity: Option<Measure>)

  datatype WindBlock = WindBlock(speed: Option<Measure>)

  /** One entry of the `weather` list. */
  datatype Condition = Condition(id: Option<int>, description: Option<string>)

  /** The decoded reply; `None` is a key absent from the JSON object. */
  datatype Response = Response(
    cod: Option<Cod>,
    message: Option<string>,
    main: Option<MainBlock>,
    wind: Option<WindBlock>,
    weather: Option<seq<Condition>>,
    name: Option<string>)

  /** What `display_weather` takes out of a reply. */
  datatype Reading = Reading(
    cityName: string,
    temperature: Measure,
    feelsLike: Measure,
    humidity: Measure,
    windSpeed: Measure,
    conditionId: int,
    description: string)

  /** What a handler ends up doing with a reply or a failure. */
  datatype Outcome =
    | ShowError(message: string)
    | ShowWeather(reading: Reading)
      /** An exception the handler does not catch escapes; `styled` tells whether
          the temperature label's stylesheet had already been switched. */
    | Uncaught(styled: bool)

  const UnknownCity := "Unknown City"
  const UnknownError := "Unknown error"

  /** `data.get("cod") == 200`: only the integer 200 counts as success. */
  predicate Succeeded(d: Response)
    ensures Succeeded(d) ==> d.cod.Some? && d.cod.value.IntCod?
    ensures d.cod.None? || d.cod.value.StrCod? || d.cod.value.OtherCod? ==> !Succeeded(d)
  {
    d.cod == Some(IntCod(200))
  }

  /** The text shown for a provider error: the reply's `message`, or a default. */
  function ErrorText(d: Response): (m: string)
    ensures |m| >= 7 && m[..7] == "Error: "
    ensures d.message.Some? ==> m[7..] == d.message.value
    ensures d.message.None? ==> m[7..] == UnknownError
  {
    "Error: " + d.message.GetOr(UnknownError)
  }

  /**
   * The field reads of `display_weather`: every field but `name` is required
   * (a missing one raises), `weather[0]` needs a non-empty list, and `name`
   * falls back to "Unknown City".
   */
  function Extract(d: Response): (r: Option<Reading>)
    ensures r.None? <==>
      || d.main.None? || d.main.value.temp.None? || d.main.value.feelsLike.None?
      || d.main.value.humidity.None? || d.wind.None? || d.wind.value.speed.None?
      || d.weather.None? || d.weather.value == []
      || d.weather.value[0].id.None? || d.weather.value[0].description.None?
    ensures r.Some? ==>
      var v := r.value;
      && d.main == Some(MainBlock(Some(v.temperature), Some(v.feelsLike), Some(v.humidity)))
      && d.wind == Some(WindBlock(Some(v.windSpeed)))
      && d.weather.Some? && |d.weather.value| > 0
      && d.weather.value[0] == Condition(Some(v.conditionId), Some(v.description))
      && v.cityName == d.name.GetOr(UnknownCity)
  {
    match (d.main, d.wind, d.weather)
    case (Some(m), Some(w), Some(ws)) =>
      if m.temp.Some? && m.feelsLike.Some? && m.humidity.Some? && w.speed.Some?
         && ws != [] && ws[0].id.Some? && ws[0].description.Some?
      then Some(Reading(d.name.GetOr(UnknownCity), m.temp.value, m.feelsLike.value, m.humidity.value,
                        w.speed.value, ws[0].id.value, ws[0].description.value))
      else None
    case _ => None
  }

  /** The successful reply the provider sends for a reading, with or without a `name`. */
  function Report(r: Reading, named: bool): Response
  {
    Response(
      Some(IntCod(200)),
      None,
      Some(MainBlock(Some(r.temperature), Some(r.feelsLike), Some(r.humidity))),
      Some(WindBlock(Some(r.windSpeed))),
      Some([Condition(Some(r.conditionId), Some(r.description))]),
      if named then Some(r.cityName) else None)
  }

  /** Extraction recovers a reported reading; without a `name` the city is "Unknown City". */
  lemma ExtractReport(r: Reading)
    ensures Extract(Report(r, true)) == Some(r)
    ensures Extract(Report(r, false)) == Some(r.(cityName := UnknownCity))
  {
  }

  /**
   * Extraction reads only the `main` and `wind` fields, the first `weather`
   * entry and `name`: two replies that agree on those give the same reading,
   * whatever else (`cod`, `message`, further conditions) they hold.
   */
  lemma ExtractReadsOnly(d: Response, e: Response)
    requires d.main == e.main && d.wind == e.wind && d.name == e.name
    requires d.weather.Some? <==> e.weather.Some?
    requires d.weather.Some? ==> (|d.weather.value| > 0 <==> |e.weather.value| > 0)
    requires d.weather.Some? && |d.weather.value| > 0 ==> d.weather.value[0] == e.weather.value[0]
    ensures Extract(d) == Extract(e)
  {
  }

  /** `get_weather`'s handling of a decoded reply: weather for `cod == 200`, an error text otherwise. */
  function Respond(d: Response): (o: Outcome)
    ensures o.ShowWeather? <==> Succeeded(d) && Extract(d).Some?
    ensures o.ShowWeather? ==> Some(o.reading) == Extract(d)
    ensures o.ShowError? <==> !Succeeded(d)
    ensures o.ShowError? ==> o.message == ErrorText(d)
    ensures o.Uncaught? ==> o.styled
  {
    if Succeeded(d) then
      match Extract(d)
      case Some(r) => ShowWeather(r)
      case None => Uncaught(true)
    else ShowError(ErrorText(d))
  }

  /** A reply whose `cod` is a string is an error, even the string "200". */
  lemma StringCodIsError(d: Response, s: string)
    requires d.cod == Some(StrCod(s))
    ensures Respond(d) == ShowError(ErrorText(d))
  {
  }

  /** Every reported reading is shown as it was reported. */
  lemma RespondReport(r: Reading)
    ensures Respond(Report(r, true)) == ShowWeather(r)
  {
    ExtractReport(r);
  }

  /** The provider's sample success reply for Paris, with and without its `name`. */
  lemma RespondParis()
    ensures
      var paris := Reading("Paris", Measure("21.3"), Measure("20.1"), Measure("55"), Measure("3.2"), 800, "clear sky");
      Respond(Report(paris, true)) == ShowWeather(paris)
      && Respond(Report(paris, false)) == ShowWeather(paris.(cityName := "Unknown City"))
  {
    var paris := Reading("Paris", Measure("21.3"), Measure("20.1"), Measure("55"), Measure("3.2"), 800, "clear sky");
    ExtractReport(paris);
  }

  /** The provider's "city not found" reply, and a reply with neither `cod` nor `message`. */
  lemma RespondErrors()
    ensures
      Respond(Response(Some(StrCod("404")), Some("city not found"), None, None, None, None))
      == ShowError("Error: city not found")
    ensures
      Respond(Response(None, None, None, None, None, None)) == ShowError("Error: Unknown error")
  {
    assert "Error: " + "city not found" == "Error: city not found";
    assert "Error: " + UnknownError == "Error: Unknown error";
  }
}
