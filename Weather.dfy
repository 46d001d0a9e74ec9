/** The weather tool (`server.py`): the current-weather request and the
    normalisation of the provider's reply into the seven-field weather
    record. */
module Weather {
  import opened Json
  import opened Http

  const WeatherUrl: string := "https://api.openweathermap.org/data/2.5/weather"

  /** The request `current_weather` sends: the fixed endpoint and exactly the
      query parameters q, appid and units, each passed through unchanged and
      unvalidated. */
  function WeatherRequest(city: string, units: string, key: string): (r: Request)
    ensures r.url == WeatherUrl
    ensures r.params.Keys == {"q", "appid", "units"}
    ensures r.params["q"] == city && r.params["appid"] == key && r.params["units"] == units
  {
    var params := map["q" := city, "appid" := key, "units" := units];
    assert params.Keys == {"q", "appid", "units"};
    Request(WeatherUrl, params)
  }

  /** The default of `current_weather`'s optional `units` argument. */
  const DefaultUnits: string := "metric"

  /** A call that gives only the city asks for metric units. */
  lemma DefaultWeatherRequest(city: string, key: string)
    ensures WeatherRequest(city, DefaultUnits, key).params["units"] == "metric"
    ensures WeatherRequest(city, DefaultUnits, key).params["q"] == city
  {
  }

  /** The keys of the record `current_weather` returns. */
  const WeatherKeys: set<string> :=
    {"location", "temperature", "feels_like", "conditions", "humidity", "wind_kts", "icon"}

  /** A success body the tool can turn into a record: an object with a
      `name`, a `main` object holding temp, feels_like and humidity, a
      non-empty `weather` array whose first element holds description and icon,
      and a `wind` object holding speed. */
  predicate UsableWeatherBody(body: Json)
  {
    && HasKeys(body, {"name", "main", "weather", "wind"})
    && HasKeys(body.fields["main"], {"temp", "feels_like", "humidity"})
    && body.fields["weather"].JArray?
    && |body.fields["weather"].items| > 0
    && HasKeys(body.fields["weather"].items[0], {"description", "icon"})
    && HasKeys(body.fields["wind"], {"speed"})
  }

  /** The normalisation step of `current_weather`, given the provider's status
      and parsed body. A failed status wins before the body is looked at;
      otherwise every field is copied from its fixed place in the body, and a
      single missing piece fails the whole call. */
  function NormalizeWeather(status: int, body: Json): (r: Result<map<string, Json>>)
    ensures !IsSuccess(status) ==> r == Err(HttpError(status))
    ensures IsSuccess(status) ==> (r.Ok? <==> UsableWeatherBody(body))
    ensures IsSuccess(status) && r.Err? ==> r.error == Malformed
    ensures r.Ok? ==> r.value.Keys == WeatherKeys
    ensures r.Ok? ==>
      var main := body.fields["main"].fields;
      var first := body.fields["weather"].items[0].fields;
      && r.value["location"] == body.fields["name"]
      && r.value["temperature"] == main["temp"]
      && r.value["feels_like"] == main["feels_like"]
      && r.value["humidity"] == main["humidity"]
      && r.value["conditions"] == first["description"]
      && r.value["icon"] == first["icon"]
      && r.value["wind_kts"] == body.fields["wind"].fields["speed"]
  {
    if !IsSuccess(status) then Err(HttpError(status))
    else
      var data := Some(body);
      var main := Field(data, "main");
      // `data["weather"][0]` on a non-empty string would give its first
      // character, and `w["description"]` would then raise; Elem answers
      // None at once, with the same outcome.
      var w := Elem(Field(data, "weather"), 0);
      var wind := Field(data, "wind");
      var location := Field(data, "name");
      var temperature := Field(main, "temp");
      var feelsLike := Field(main, "feels_like");
      var conditions := Field(w, "description");
      var humidity := Field(main, "humidity");
      var windSpeed := Field(wind, "speed");
      var icon := Field(w, "icon");
      if location.None? || temperature.None? || feelsLike.None? || conditions.None?
         || humidity.None? || windSpeed.None? || icon.None?
      then Err(Malformed)
      else
        Ok(map[
          "location" := location.value,
          "temperature" := temperature.value,
          "feels_like" := feelsLike.value,
          "conditions" := conditions.value,
          "humidity" := humidity.value,
          "wind_kts" := windSpeed.value,
          "icon" := icon.value])
  }

  /** Missing `main`, `weather`, `wind` or `name`, or an empty `weather`
      list, fails the whole call instead of yielding a record with gaps. */
  lemma MissingPartFails(status: int, body: Json, part: string)
    requires IsSuccess(status) && body.JObject?
    requires (part in {"name", "main", "weather", "wind"} && part !in body.fields)
             || ("weather" in body.fields && body.fields["weather"] == JArray([]))
    ensures NormalizeWeather(status, body) == Err(Malformed)
  {
  }

  /** The wind speed is copied as the provider reports it, in the unit the
      request's `units` selected: no conversion to knots takes place. */
  lemma WindSpeedNotConverted(status: int, body: Json)
    requires NormalizeWeather(status, body).Ok?
    ensures NormalizeWeather(status, body).value["wind_kts"] == body.fields["wind"].fields["speed"]
  {
  }

  /** A reply that fails with 401 or 403 yields that status, whatever the
      body says. */
  lemma RejectedStatusIsHttpError(body: Json)
    ensures NormalizeWeather(401, body) == Err(HttpError(401))
    ensures NormalizeWeather(403, body) == Err(HttpError(403))
  {
  }

  /** A typical reply for Paris. */
  function ParisBody(): Json
  {
    JObject(map[
      "name" := JString("Paris"),
      "main" := JObject(map["temp" := JNumber(18.2), "feels_like" := JNumber(17.5),
                            "humidity" := JNumber(60.0)]),
      "weather" := JArray([JObject(map["description" := JString("clear sky"),
                                       "icon" := JString("01d")])]),
      "wind" := JObject(map["speed" := JNumber(3.1)])])
  }

  lemma ParisExample()
    ensures NormalizeWeather(200, ParisBody()) == Ok(map[
      "location" := JString("Paris"), "temperature" := JNumber(18.2),
      "feels_like" := JNumber(17.5), "conditions" := JString("clear sky"),
      "humidity" := JNumber(60.0), "wind_kts" := JNumber(3.1), "icon" := JString("01d")])
  {
  }

  /** Removing `main` from the Paris reply makes the call fail. */
  lemma MissingMainExample()
    ensures NormalizeWeather(200, JObject(ParisBody().fields - {"main"})) == Err(Malformed)
  {
  }

  /** A null `main` is not a record with null fields: looking up `temp` in
      it raises, so the call fails. */
  lemma NullMainFails()
    ensures NormalizeWeather(200, JObject(ParisBody().fields["main" := JNull])) == Err(Malformed)
  {
  }

  /** A copied field that is present but null is copied as null: the call
      fails only when a lookup raises, not on a null value it merely copies. */
  lemma PresentNullIsCopied()
    ensures
      var body := JObject(ParisBody().fields["main" := JObject(map[
        "temp" := JNull, "feels_like" := JNumber(17.5), "humidity" := JNumber(60.0)])]);
      var r := NormalizeWeather(200, body);
      r.Ok? && r.value["temperature"] == JNull
  {
  }
}
