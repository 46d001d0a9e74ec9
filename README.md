# Weather and traffic tools: a Dafny model

Two agent tools, each of which sends one HTTP GET to a third-party provider
and reshapes the JSON reply into a small flat record:

- `current_weather(city, units)` (`server.py`) asks the weather provider for
  the current weather in a city and returns a seven-field record.
- `traffic_flow(lat, lon, length_km, style, units)` (`traffic.py`) asks the
  traffic provider for the flow on the road segment nearest a point and
  returns an eleven-field record, including a congestion label derived from
  the provider's jam factor by `_status_from_jam`.

The model keeps what the tools themselves decide: the request each one builds,
the status check that comes before the body is read, which fields of the reply
are required, which are optional and what they default to, which values are
copied and which echo the caller's inputs, and the three-way congestion label.
The network exchange is an input: the provider's status code and its body,
already parsed into a `Json` value.

Files:

- `Json.dfy` (module `Json`): the `Json` value and the lookups `d[key]`,
  `xs[i]` and `d.get(key, default)`, with Python's failures as `None`.
- `Http.dfy` (module `Http`): the request, the two errors (`HttpError` with the
  status, `Malformed` for every KeyError, IndexError, TypeError or
  AttributeError raised while reading a success body) and the 2xx test that
  `raise_for_status()` applies.
- `Text.dfy` (module `Text`) and `Decimal.dfy` (module `Decimal`): splitting a
  string at its last separator, and Python's `str()` of an int with a parser
  that reads it back; they show that the traffic URL string, and the point
  parameter, lose nothing of the inputs they are built from.
- `Traffic.dfy` (module `Traffic`): `traffic.py`.
- `Weather.dfy` (module `Weather`): `server.py`.

Every failure of a call is an `Err`; a success always carries every key of
its record. A null is copied into the record only where it is itself the
copied value (for instance a null `main.temp` or `roadClosure`). A null or
wrongly typed value where a tool looks further inside (`main`, `wind`,
`weather` or its first element, `flowSegmentData`) fails the call, and so
does an empty `weather` list and a present `jamFactor` that is neither a
number nor a boolean. Only an absent `jamFactor` or `roadClosure` selects a
default.

## Model

| member | source | states |
|---|---|---|
| `Traffic.StatusFromJam` | traffic.py:12-18 | the label is one of free, moderate, heavy; free exactly when jam < 4, moderate exactly when 4 <= jam < 8, heavy exactly when jam >= 8, with no range check on the jam factor |
| `Traffic.StatusMonotone` | traffic.py:12-18 | a larger jam factor never gives a less congested label (free < moderate < heavy) |
| `Traffic.StatusBoundaries` | traffic.py:14-18 | 4 is moderate and 8 is heavy (boundaries belong to the upper bracket); 3.999 is free, 7.999 moderate; -1 is free and 11 heavy |
| `Traffic.TrafficRequest` | traffic.py:38-39 | the URL is the template with style and the rendered length substituted, and parses back to exactly that style and length; the query parameters are exactly point, key and unit, key and unit verbatim, point the two rendered coordinates joined by a comma |
| `Traffic.DefaultTrafficRequest` | traffic.py:24-26 | a call with only the coordinates asks for the URL of style absolute and length 10, with unit KMPH |
| `Traffic.TrafficUrlRoundTrip` | traffic.py:5-8 | parsing the URL built from the template gives back the style and segment length, for every style string, including ones holding '/' |
| `Traffic.TrafficUrlInjective` | traffic.py:38 | two different (style, length) pairs never produce the same URL |
| `Traffic.PointRoundTrip` | traffic.py:39 | the point parameter splits at its last comma into the rendered latitude and longitude, when the longitude's rendering holds no comma |
| `Decimal.IntToDecimalRoundTrip` | traffic.py:38 | the decimal rendering of the segment length reads back as the same integer, negative values included |
| `Decimal.IntToDecimalInjective` | traffic.py:38 | different segment lengths render differently |
| `Traffic.NormalizeTraffic` | traffic.py:44-60 | a non-2xx status fails with that status whatever the body; otherwise the call succeeds exactly when the body is usable (flowSegmentData an object with the six required fields, jam factor absent or comparable) and fails as Malformed otherwise; a success has exactly the eleven keys, echoes lat, lon and length_km from the inputs, copies the six required fields verbatim, takes jam factor and road closure from the body when present and 0 and false when absent, and labels the record with the classifier applied to the jam factor |
| `Traffic.DefaultsWhenAbsent` | traffic.py:47-58 | with jamFactor and roadClosure absent, the record has jam_factor 0, traffic_status free and road_closure false |
| `Traffic.MissingRequiredFails` | traffic.py:45-59 | a missing flowSegmentData or a missing required field fails the whole call as Malformed |
| `Traffic.OnlyNamedFieldsMatter` | traffic.py:45-60 | the result depends only on the eight named fields of flowSegmentData; everything else in the body is ignored |
| `Traffic.RejectedStatusIsHttpError` | traffic.py:44 | a 401 or 403 reply fails with that status, whatever the body holds |
| `Traffic.ModerateExample` | traffic.py:47-60 | a reply with jam factor 5.2 and no roadClosure at lat 1, lon 2, length 10 gives exactly the eleven-key record: moderate, road_closure false, the echoed coordinates and length, and every provider field copied |
| `Traffic.NullJamFactorFails` | traffic.py:47 | a jam factor present as null is not defaulted: the comparison fails and so does the call |
| `Traffic.NullSegmentFails` | traffic.py:45-47 | a flowSegmentData present as null fails the call as Malformed |
| `Weather.WeatherRequest` | server.py:13-15 | the request goes to the fixed endpoint with exactly the parameters q, appid and units, each equal to city, key and units |
| `Weather.DefaultWeatherRequest` | server.py:11-13 | a call with only the city asks for units metric |
| `Weather.NormalizeWeather` | server.py:16-29 | a non-2xx status fails with that status whatever the body; otherwise the call succeeds exactly when name, main.{temp, feels_like, humidity}, a non-empty weather list whose first element has description and icon, and wind.speed are all present, and fails as Malformed otherwise; a success has exactly the seven keys, each copied from its fixed place |
| `Weather.MissingPartFails` | server.py:18-22 | a missing name, main, weather or wind, or an empty weather list, fails the whole call as Malformed |
| `Weather.WindSpeedNotConverted` | server.py:20-27 | wind_kts is the provider's wind.speed unchanged, whatever unit it is in |
| `Weather.RejectedStatusIsHttpError` | server.py:16 | a 401 or 403 reply fails with that status, whatever the body holds |
| `Weather.ParisExample` | server.py:17-29 | the Paris reply gives exactly location Paris, temperature 18.2, feels_like 17.5, conditions clear sky, humidity 60, wind_kts 3.1, icon 01d |
| `Weather.MissingMainExample` | server.py:18 | the Paris reply without main fails as Malformed rather than yielding null fields |
| `Weather.NullMainFails` | server.py:18-23 | a main present as null fails the call as Malformed instead of yielding null fields |
| `Weather.PresentNullIsCopied` | server.py:23 | a temp present as null is copied into the record as null |

## Left out

- The network exchange itself (the async HTTP client, its 8-second timeout,
  the disabled certificate verification, connection errors and timeouts): the
  status and body are inputs of the normalisation functions.
- Parsing the body text as JSON (`r.json()`): the body arrives parsed; a body
  that is not JSON is not modelled.
- What httpx counts as success is taken to be the 2xx range (`Http.IsSuccess`).
- The provider's error body: `HttpError` keeps only the status code, while
  httpx's `HTTPStatusError` also carries the response.
- Reading the API keys from the environment: the key is a parameter. A key
  missing from the environment (Python `None`) is not modelled.
- The rendering of the float coordinates in `f"{lat},{lon}"`: `fmt` is a
  function parameter.
- The tool registration, the decorators and the stdio transport to the host.
- Integer versus float JSON numbers: both are `real`, so `0` and `0.0` are the
  same value here, and so are a length of 10 echoed as int and as float.
  NaN and infinities, which Python's JSON reader accepts, are not modelled
  (Python would label NaN and +inf heavy and -inf free).
- The order of keys in the query parameters and in the returned records
  (Python dicts keep insertion order; the model uses maps).
- Which of several failures Python would raise first: all failures of a
  success body are the single `Malformed` error.
