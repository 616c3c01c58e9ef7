# Weather Anytime — a Dafny model of its decision logic

The application is a PyQt window (`WeatherApp` in `main.py`) that asks the
OpenWeatherMap service for the current weather, either for a typed city or
for the caller's IP-derived location, and shows the temperature, a weather
symbol and a short description. This project models the decisions the
widget makes around those calls, and the label updates they cause:

- `Emoji` — `get_weather_emoji`, the classifier from a condition id to a
  symbol, together with an independent band table, ordered first-match
  lookup over it, and proofs that the bands are disjoint, that order does
  not matter, and that every id outside the bands gets the empty text.
- `Text` — Python's `str.strip()` (with `str.isspace`'s whitespace set) and
  `str.split(",")`, with their round-trip properties.
- `Query` — validating the typed city, the two request URLs (city form and
  latitude/longitude form) and the unpacking of the geolocation `loc` field.
- `Payload` — the decoded provider reply (`cod` as an integer, a string or
  something else, every key optional), the `cod == 200` dispatch with its
  `"Unknown error"` default, and the field reads of `display_weather` with
  the `"Unknown City"` default.
- `App` — the two handlers as functions of the typed text, the API key and
  the network replies, and the `WeatherApp` class: the label state, with
  `display_error`, `display_weather` and the two handlers as methods proved
  against those functions. A ghost field records every URL requested, so
  "no request for a blank city" is a postcondition.
- `Wrappers` — `Option` and `Result`.

The network is a parameter. `fetch` maps a URL to what `requests` delivers
for it: a decoded reply or a `RequestException` with its text. For the
weather requests that exception covers connection failures, HTTP error
statuses (main.py:113 and 131 call `raise_for_status`) and undecodable
JSON. The last assumes requests 2.27 or later, where `.json()` raises
`requests.exceptions.JSONDecodeError`, a `RequestException`. The
geolocation reply is passed in as a value of the same type. Its
`RequestFailed` covers only connection failures and undecodable JSON,
because main.py:126 does not call `raise_for_status`. An HTTP error page
from the geolocation service with a JSON body therefore arrives as a
delivered reply. Such a reply usually lacks `loc`, so the handler escapes
with nothing shown (`Uncaught(false)`).

The model follows the code as written, including these behaviours one
might not expect from a description of the application:
- A reply with `cod == 200` that lacks a required field is not turned
  into an error result. `display_weather` raises `KeyError` or
  `IndexError`, which neither handler catches. The stylesheet switch on
  main.py:149 has already happened by then. The model records this as
  `Outcome.Uncaught(styled: true)`.
- A geolocation reply without `loc`, or a `loc` that does not split into
  exactly two pieces, raises `KeyError` or `ValueError`. The
  `RequestException` handler does not catch either. The model records this
  as `Uncaught(styled: false)`, with nothing shown.
- The two `loc` pieces are not checked to be numbers. They go into the URL
  verbatim.
- Every request failure in the location handler shows the same fixed text.
  In the city handler the text is `"Request error: "` followed by the
  failure's text.
- A provider error is shown as `"Error: "` followed by the reply's
  `message`, or by `"Unknown error"` when there is none.

## Model

| member | source | states |
|---|---|---|
| Emoji.Classify | main.py:175-196 | the if/elif chain as written; every id it recognises lies in 200..804 (exact bands: `ClassifyIsTableLookup`) |
| Emoji.WeatherEmoji | main.py:174-196 | total on every integer; the text is empty exactly when the id lies in none of the ten bands |
| Emoji.Glyph | main.py:175-196 | the empty text belongs to the unknown symbol only |
| Emoji.GlyphInjective | main.py:175-194 | distinct symbols have distinct texts, so the shown text identifies the band |
| Emoji.FirstMatch | main.py:174-196 | ordered lookup: an id in no band gives the empty symbol; otherwise the result is the symbol of the first band holding the id, no earlier band holding it |
| Emoji.ClassifyIsTableLookup | main.py:175-196 | the written if/elif chain equals the ordered lookup in the band table |
| Emoji.BandsDisjoint | main.py:175-194 | the bands 200-232, 300-321, 500-531, 600-622, 701-741, 762, 771, 781, 800, 801-804 are pairwise disjoint |
| Emoji.DisjointFirstMatch | main.py:175-194 | in any disjoint table, the band holding an id decides its symbol, wherever the band stands |
| Emoji.OrderIrrelevant | main.py:175-194 | any reordering of a disjoint table classifies every id alike |
| Emoji.ClassifyBand | main.py:175-194 | every id inside a band gets that band's symbol |
| Emoji.ClassifyUnknown | main.py:195-196 | an id gets the empty symbol exactly when it lies outside every band |
| Emoji.ThunderstormBand | main.py:175-176 | thunderstorm exactly for 200..232, both ends included |
| Emoji.ClassifyPreimage | main.py:175-194 | each band's symbol is given to exactly the ids of that band |
| Emoji.Boundaries | main.py:175-196 | the ends of every band and the ids just outside them (199, 233, 299, 322, 499, 532, 599, 623, 700, 742, 761, 763, 770, 772, 780, 782, 799, 805), plus -1 and 0 |
| Text.Strip | main.py:103 | the result has no whitespace at either end, and it is empty exactly when the input is all whitespace |
| Text.StripPadding | main.py:103 | whitespace around a trimmed text is exactly what strip removes |
| Text.StripIdempotent | main.py:103 | stripping a second time changes nothing |
| Text.Split | main.py:127 | one piece more than separators, no piece holds the separator, and joining the pieces gives the input back |
| Text.SplitJoin | main.py:127 | splitting a join of separator-free pieces gives the pieces back |
| Query.CityRequest | main.py:103-109 | refused with "Please enter a city name" exactly when the input is all whitespace; otherwise a URL that carries the stripped city |
| Query.CityRequestIgnoresPadding | main.py:103-109 | padding a city with whitespace does not change its request |
| Query.CityUrl | main.py:109 | the city-form URL; the city, inserted unescaped, reads back out of it |
| Query.CoordUrl | main.py:128 | the coordinate-form URL; the two pieces go in verbatim, and when the latitude holds no `&` both read back out of it |
| Query.CityUrlInjective | main.py:109 | different cities never give the same request |
| Query.FormsDiffer | main.py:128 | a coordinate-form request is never a city-form request |
| Query.ParseLoc | main.py:127 | unpacking succeeds exactly when `loc` holds one comma; the two pieces are comma-free and joined by the comma give `loc` |
| Query.ParseLocRoundTrip | main.py:127 | comma-free latitude and longitude joined by a comma unpack to themselves |
| Query.ParseLocExamples | main.py:127 | "40.7128,-74.0060" unpacks into its two numbers; "bad" fails |
| Payload.Succeeded | main.py:116 | success needs an integer `cod`; a missing, string or other `cod` never succeeds |
| Payload.ErrorText | main.py:119 | "Error: " followed by the reply's message, or by "Unknown error" when the message is missing |
| Payload.Extract | main.py:150-156 | fails exactly when a required key is missing or `weather` is empty; on success `main`, `wind` and the first condition hold exactly the reading's values, and the city is `name`, or "Unknown City" |
| Payload.ExtractReport | main.py:150-156 | a reported reading is recovered; without `name` its city becomes "Unknown City" |
| Payload.ExtractReadsOnly | main.py:150-156 | replies that agree on `main`, `wind`, the first condition and `name` give the same reading, whatever their `cod`, `message` or further conditions |
| Payload.Respond | main.py:116-119 | weather only when `cod` is the integer 200 and the fields are present; an error text exactly when `cod` is anything else or missing |
| Payload.StringCodIsError | main.py:116 | a string `cod`, even "200", gives an error |
| Payload.RespondReport | main.py:116-117 | every reported reading is shown as reported |
| Payload.RespondParis | main.py:116-117 | the sample Paris reply is shown; without `name` it is shown as "Unknown City" |
| Payload.RespondErrors | main.py:116-119 | `{"cod": "404", "message": "city not found"}` shows "Error: city not found"; an empty reply shows "Error: Unknown error" |
| App.FailureText | main.py:121-122 | the city handler shows "Request error: " followed by the failure's text |
| App.ReplyOutcome | main.py:111-122 | a request failure is caught and shows `FailureText` (the `"Request error: "` text for the city handler, the fixed text for the location handler); a delivered reply gets exactly `Respond`'s outcome; weather only for `cod` 200; an escape only after the style switch |
| App.CityOutcome | main.py:102-122 | a blank city shows the prompt error; any other input gives the outcome of the reply to the stripped city's URL; the handler can escape only from `display_weather` |
| App.Coordinates | main.py:126-127 | coordinates exist exactly when a delivered reply has a `loc` with one comma, and they are the text on either side of it |
| App.CityRequests | main.py:103-112 | no request for a blank city, otherwise exactly the one city URL |
| App.LocationOutcome | main.py:124-140 | a failed geolocation request shows the fixed text; a delivered reply whose `loc` is missing or does not unpack escapes with nothing shown; otherwise the outcome is `ReplyOutcome` of the coordinate URL, so a failed coordinate request shows the fixed text too; every error shown is that text or a provider error |
| App.LocationRequests | main.py:126-130 | the geolocation service first, then exactly `CoordUrl` of the unpacked pieces when `loc` unpacks, and nothing else |
| App.CityWeatherOnlyOn200 | main.py:103-117 | weather is shown for a typed city exactly when the city is not blank and its reply has `cod` 200 and every required field |
| App.CityOutcomeLocal | main.py:103-114 | the city handler depends on the network only at the URLs it requests |
| App.LocationEscapesOnBadLoc | main.py:126-127 | a delivered `loc` escapes the location handler exactly when it has other than one comma |
| App.LocationUsesCoordinates | main.py:127-137 | the coordinate URL carries the two pieces verbatim, and its reply is handled as the city handler handles it |
| App.WeatherApp.constructor | main.py:10-21 | the heading shows the prompt, the other labels are empty, nothing has been requested |
| App.WeatherApp.DisplayError | main.py:142-146 | the message goes to the temperature label in the red style; the emoji and description are cleared; the heading is kept |
| App.WeatherApp.DisplayWeather | main.py:148-171 | the stylesheet switches first; it raises exactly when a field is missing, and then no text changes; otherwise every label shows the reading |
| App.WeatherApp.Request | main.py:111-122 | appends the URL to the requests made and leaves the labels as `ReplyOutcome` prescribes |
| App.WeatherApp.ShowReply | main.py:116-119 | a delivered reply leaves the labels as `Respond` prescribes |
| App.WeatherApp.GetWeather | main.py:102-122 | the labels follow `CityOutcome`; exactly the URLs of `CityRequests` are requested |
| App.WeatherApp.GetCurrentLocationWeather | main.py:124-140 | the labels follow `LocationOutcome`; exactly the URLs of `LocationRequests` are requested |

## Left out

- Window construction, layout, stylesheet text, icon, button wiring and the entry point (main.py:29-100, 199-203): these are PyQt plumbing.
- The HTTP calls, `raise_for_status` and `.json()` decoding (main.py:112-114, 126, 130-132): this is network I/O. Their results are parameters.
- Temperature, feels-like, humidity and wind speed are JSON numbers that are only formatted. They are carried as their literal text (`Measure`). The `:.0f`/`:.1f` rounding, `capitalize()` and the HTML span markup (main.py:160-171) are presentation and are not modelled. Label contents are structured values, not rendered strings.
- The API key's environment lookup and its built-in default (main.py:13) are configuration. The key is a constructor parameter.
- The `QCompleter` list of previous searches (main.py:23-25) is a UI convenience with no behaviour.
- A `cod` that is a JSON float (Python's `200.0 == 200` is true) is not modelled, because floats are outside the model. Such a value falls under `OtherCod`, which the model treats as an error.
- `message` is carried as the text Python's f-string would print. A non-string `message` (for example `null`, printed as "None") is not distinguished.
- The condition `id` is an integer. A float id from the JSON is not modelled.
- Replies whose fields have other JSON types are outside the model; every field is assumed to have the type the provider documents. Such replies behave as follows in the code:
  - A `"name": null` that is present is shown as "None" (main.py:156, 160).
  - A string `temp` raises at main.py:161, after the heading has already changed at main.py:160.
  - A non-number `feels_like` raises at main.py:170.
  - A non-string `description` raises `AttributeError` at main.py:167.
- requests versions before 2.27 are not modelled. There, `.json()` on an undecodable body raises a plain `ValueError`, which escapes both handlers.
- Python exception propagation beyond "escaped the handler" is not modelled. What Qt then does with an exception raised in a slot is not modelled either.
