/** `GET /api/weather?city=London` of the starter template: the weather handler with a
    smaller, 7-field success body (no `temp_min`, `temp_max`, `pressure`, `visibility`). */
module Example {
  import opened JsValues
  import opened Http
  import Weather

  const KeyName := "OPENWEATHER_API_KEY"

  const CityRequired := "City parameter is required"
  const ConfigurationError := "Server configuration error"
  const UpstreamFailed := "Failed to fetch weather data"
  const InternalError := "Internal server error"

  /** The message for a city the upstream does not know, quoting the query value. */
  function NotFound(city: string): string {
    "City \"" + city + "\" not found"
  }

  /** The current-weather endpoint, in metric units. */
  function WeatherUrl(city: string, key: string): Url {
    [ Text("https://api.openweathermap.org/data/2.5/weather?q="), UriComponent(city),
      Text("&appid="), Text(key), Text("&units=metric") ]
  }

  /** Validation, then the credential check, then the upstream request. The upstream is
      asked exactly when the city and the key are both set, and every answer of its own is
      a 400 or 500 error body. */
  function Plan(q: Query, env: Env): (s: Step<string>)
    ensures s.Call? <==> Present(Get(q, "city")) && Present(EnvGet(env, KeyName))
    ensures s.Answer? ==> s.response.status in {400, 500} && IsErrorBody(s.response.body)
    ensures s.Call? ==> s.context == Get(q, "city").value
  {
    var city := Get(q, "city");
    if !Present(city) then Answer(Response(400, ErrorBody(CityRequired)))
    else
      var key := EnvGet(env, KeyName);
      if !Present(key) then Answer(Response(500, ErrorBody(ConfigurationError)))
      else Call(WeatherUrl(city.value, key.value), city.value)
  }

  /** The values of the success object literal's properties, before serialisation. */
  datatype Readings = Readings(
    city: Val, country: Val, temperature: Val, feelsLike: Val, description: Val,
    humidity: Val, windSpeed: Val)

  /** Evaluates the properties in the source's order; reading a property of a missing
      `sys`, `main`, `weather[0]` or `wind` throws (see `Summary`). */
  function Read(data: Json): Got<Readings> {
    var d := Defined(data);
    var name :- GetProp(d, "name");
    var sys :- GetProp(d, "sys");
    var country :- GetProp(sys, "country");
    var main :- GetProp(d, "main");
    var temp :- GetProp(main, "temp");
    var feelsLike :- GetProp(main, "feels_like");
    var weather :- GetProp(d, "weather");
    var first :- GetProp(weather, "0");
    var description :- GetProp(first, "description");
    var humidity :- GetProp(main, "humidity");
    var wind :- GetProp(d, "wind");
    var speed :- GetProp(wind, "speed");
    Value(Readings(name, country, temp, feelsLike, description, humidity, speed))
  }

  /** The success object literal's properties, in source order. */
  function Properties(r: Readings): seq<(string, Val)> {
    [ ("city", r.city), ("country", r.country), ("temperature", r.temperature),
      ("feels_like", r.feelsLike), ("description", r.description), ("humidity", r.humidity),
      ("wind_speed", r.windSpeed) ]
  }

  /** The object literal as `Response.json` writes it: only the seven names, so none of
      the weather report's four extra ones. */
  function Serialize(r: Readings): (body: Json)
    ensures body.Obj? && body.fields.Keys <= SummaryNames && body.fields.Keys !! Extras
  {
    SummaryKeys(r);
    Obj(Literal(Properties(r)))
  }

  /** The success body: it throws exactly when `sys`, `main`, `weather[0]` or `wind` is
      missing, as the full report does, and otherwise has only the seven names. */
  function Summary(data: Json): (body: Got<Json>)
    ensures body.Thrown? <==> Weather.MissingSection(data)
    ensures body.Value? ==>
              body.value.Obj? && body.value.fields.Keys <= SummaryNames
  {
    var d := Defined(data);
    Weather.FollowOne(d, "sys");
    Weather.FollowOne(d, "main");
    Weather.FollowOne(d, "wind");
    Weather.FollowTwo(d, "weather", "0");
    var r :- Read(data);
    Value(Serialize(r))
  }

  /** The `try` block after the `fetch`: it throws exactly on a failed fetch, on a
      non-ok status other than 404 that `Response.json` refuses, and on an ok body that is
      not JSON or misses a section; what it returns has a status `Response.json` accepts,
      and is the summary when the status is 200 and an error body otherwise. */
  function Attempt(city: string, up: Upstream): (r: Got<Response>)
    ensures r.Thrown? <==>
              || up.NetworkFailure?
              || (!IsOk(up.status) && up.status != 404 && !CanCarryBody(up.status))
              || (IsOk(up.status) && (up.payload.None? || Weather.MissingSection(up.payload.value)))
    ensures r.Value? ==> CanCarryBody(r.value.status)
    ensures r.Value? && r.value.status != 200 ==> IsErrorBody(r.value.body)
    ensures r.Value? && r.value.status == 200 ==>
              r.value.body.Obj? && r.value.body.fields.Keys <= SummaryNames
  {
    if up.NetworkFailure? then Thrown
    else if !IsOk(up.status) then
      if up.status == 404 then Value(Response(404, ErrorBody(NotFound(city))))
      else JsonResponse(ErrorBody(UpstreamFailed), up.status)
    else
      var data :- ReadJson(up.payload);
      var body :- Summary(data);
      Value(Response(200, body))
  }

  /** The second phase with its `catch`. */
  function Settle(city: string, up: Upstream): (r: Response)
    ensures CanCarryBody(r.status)
    ensures r.status != 200 ==> IsErrorBody(r.body)
    ensures r.status == 200 ==> r.body.Obj? && r.body.fields.Keys <= SummaryNames
  {
    match Attempt(city, up)
    case Value(r) => r
    case Thrown => Response(500, ErrorBody(InternalError))
  }

  /** The handler: every response has a status `Response.json` accepts; a 200 carries
      the seven-field summary, anything else an `{ error }` body with a text. */
  function Handle(q: Query, env: Env, up: Upstream): (r: Response)
    ensures CanCarryBody(r.status)
    ensures r.status != 200 ==> IsErrorBody(r.body)
    ensures r.status == 200 ==> r.body.Obj? && r.body.fields.Keys <= SummaryNames
  {
    match Plan(q, env)
    case Answer(r) => r
    case Call(_, city) => Settle(city, up)
  }

  // ----- Validation, credential, upstream outcomes -----

  /** An absent or empty `city` gives 400 before anything else. */
  lemma CityRequiredFirst(q: Query, env: Env, up: Upstream)
    requires !Present(Get(q, "city"))
    ensures Plan(q, env) == Answer(Response(400, ErrorBody(CityRequired)))
    ensures Handle(q, env, up) == Response(400, ErrorBody(CityRequired))
  {
  }

  /** With a city and no key, the answer is 500 and the upstream is not asked. */
  lemma MissingKeyRejected(q: Query, env: Env, up: Upstream)
    requires Present(Get(q, "city")) && !Present(EnvGet(env, KeyName))
    ensures Plan(q, env) == Answer(Response(500, ErrorBody(ConfigurationError)))
    ensures Handle(q, env, up) == Response(500, ErrorBody(ConfigurationError))
  {
  }

  /** With a city and a key, the one request carries the encoded city and the key. */
  lemma UpstreamRequest(q: Query, env: Env)
    requires Present(Get(q, "city")) && Present(EnvGet(env, KeyName))
    ensures Plan(q, env) == Call(
              [ Text("https://api.openweathermap.org/data/2.5/weather?q="),
                UriComponent(Get(q, "city").value), Text("&appid="),
                Text(EnvGet(env, KeyName).value), Text("&units=metric") ],
              Get(q, "city").value)
  {
  }

  /** An upstream 404 gives 404 quoting the raw query value; any other non-ok status is
      passed on with a generic message (or is a 500 when `Response.json` refuses it). */
  lemma UpstreamStatusMapped(city: string, status: int, payload: Option<Json>)
    requires !IsOk(status)
    ensures Settle(city, Reply(status, payload)) ==
            if status == 404 then Response(404, ErrorBody(NotFound(city)))
            else if CanCarryBody(status) then Response(status, ErrorBody(UpstreamFailed))
            else Response(500, ErrorBody(InternalError))
  {
  }

  /** A failed `fetch`, a body that is not JSON, or a payload missing a section the body
      reads through is caught as 500. */
  lemma ThrowsAreInternal(city: string, up: Upstream)
    requires || up.NetworkFailure?
             || (IsOk(up.status) && up.payload.None?)
             || (IsOk(up.status) && up.payload.Some? &&
                 var data := up.payload.value;
                 || data == Null
                 || Weather.Breaks(data, ["sys"]) || Weather.Breaks(data, ["main"])
                 || Weather.Breaks(data, ["weather", "0"]) || Weather.Breaks(data, ["wind"]))
    ensures Settle(city, up) == Response(500, ErrorBody(InternalError))
  {
  }

  // ----- The success body -----

  /** The summary's names and the upstream paths they are read from. */
  const SummaryPaths: seq<(string, seq<string>)> := [
    ("city", ["name"]), ("country", ["sys", "country"]), ("temperature", ["main", "temp"]),
    ("feels_like", ["main", "feels_like"]), ("description", ["weather", "0", "description"]),
    ("humidity", ["main", "humidity"]), ("wind_speed", ["wind", "speed"]) ]

  const SummaryNames: set<string> := {
    "city", "country", "temperature", "feels_like", "description", "humidity", "wind_speed" }

  /** The literal's names are the seven summary names, each once, in the order of the
      path table. */
  lemma PropertyNames(r: Readings)
    ensures DistinctNames(Properties(r))
    ensures forall i :: 0 <= i < |Properties(r)| ==> Properties(r)[i].0 in SummaryNames
    ensures |Properties(r)| == |SummaryPaths|
    ensures forall i :: 0 <= i < |SummaryPaths| ==> Properties(r)[i].0 == SummaryPaths[i].0
  {
  }

  /** The written summary has only summary names, so none of the four extra ones. */
  lemma SummaryKeys(r: Readings)
    ensures Literal(Properties(r)).Keys <= SummaryNames
    ensures Literal(Properties(r)).Keys !! Extras
  {
    PropertyNames(r);
    LiteralKeys(Properties(r));
    assert SummaryNames !! Extras;
  }

  /** Every property holds the value at the end of its upstream path. */
  lemma ReadFollowsPaths(data: Json)
    requires Read(data).Value?
    ensures var props := Properties(Read(data).value);
            forall i :: 0 <= i < |SummaryPaths| ==>
              Follow(Defined(data), SummaryPaths[i].1) == Value(props[i].1)
  {
    ReadByPaths(data);
  }

  /** The same, reading by reading. */
  lemma ReadByPaths(data: Json)
    requires Read(data).Value?
    ensures var r := Read(data).value;
            var d := Defined(data);
            && Follow(d, ["name"]) == Value(r.city)
            && Follow(d, ["sys", "country"]) == Value(r.country)
            && Follow(d, ["main", "temp"]) == Value(r.temperature)
            && Follow(d, ["main", "feels_like"]) == Value(r.feelsLike)
            && Follow(d, ["weather", "0", "description"]) == Value(r.description)
            && Follow(d, ["main", "humidity"]) == Value(r.humidity)
            && Follow(d, ["wind", "speed"]) == Value(r.windSpeed)
  {
    var d := Defined(data);
    Weather.FollowOne(d, "name");
    Weather.FollowTwo(d, "sys", "country");
    Weather.FollowTwo(d, "main", "temp");
    Weather.FollowTwo(d, "main", "feels_like");
    Weather.FollowThree(d, "weather", "0", "description");
    Weather.FollowTwo(GetProp(d, "weather").value, "0", "description");
    Weather.FollowTwo(d, "main", "humidity");
    Weather.FollowTwo(d, "wind", "speed");
  }

  /** On success the body holds only the seven whitelisted names, none of the four extra
      fields of the full weather report, and each field is copied from its upstream path. */
  lemma SummaryFields(data: Json)
    requires Summary(data).Value?
    ensures var body := Summary(data).value;
            && body.Obj?
            && body.fields.Keys <= SummaryNames
            && body.fields.Keys !! Extras
            && forall i :: 0 <= i < |SummaryPaths| ==>
                 Weather.Copied(body.fields, data, SummaryPaths[i].0, SummaryPaths[i].1)
  {
    var props := Properties(Read(data).value);
    ReadFollowsPaths(data);
    PropertyNames(Read(data).value);
    SummaryKeys(Read(data).value);
    forall i | 0 <= i < |SummaryPaths|
      ensures Weather.Copied(Literal(props), data, SummaryPaths[i].0, SummaryPaths[i].1)
    {
      LiteralField(props, i);
    }
  }

  // ----- Relation to the full weather handler -----

  /** The four fields of the weather report that the template leaves out. */
  const Extras: set<string> := {"temp_min", "temp_max", "pressure", "visibility"}

  /** A response with the extra report fields taken out of its body. */
  function WithoutExtras(r: Response): Response {
    if r.body.Obj? then Response(r.status, Obj(r.body.fields - Extras)) else r
  }

  /** The template reads through the same sections as the full report. It never divides
      the visibility, so the full report throws on exactly the template's throwing payloads
      and those whose visibility cannot be divided. When both succeed they read the same
      values for the fields the template keeps. */
  lemma ReadsAgree(data: Json)
    ensures Weather.Read(data).Thrown? <==> Read(data).Thrown? || Weather.VisibilityThrows(data)
    ensures Weather.Read(data).Value? ==>
              var r := Read(data).value;
              var w := Weather.Read(data).value;
              r == Readings(w.city, w.country, w.temperature, w.feelsLike, w.description,
                            w.humidity, w.windSpeed)
  {
    var _ := Summary(data);
    var _ := Weather.Report(data);
  }

  /** Leaving the four extra properties out of the weather report's literal gives the
      template's literal. */
  lemma PropertiesWithoutExtras(w: Weather.Readings)
    ensures Without(Weather.Properties(w), Extras) ==
            Properties(Readings(w.city, w.country, w.temperature, w.feelsLike, w.description,
                                w.humidity, w.windSpeed))
  {
    // Walk the report's properties in order, keeping those the template has.
    var p := Weather.Properties(w);
    var kept: seq<(string, Val)> := [];
    assert p[..1][..0] == p[..0];
    kept := kept + [p[0]];
    assert Without(p[..1], Extras) == kept;
    assert p[..2][..1] == p[..1];
    kept := kept + [p[1]];
    assert Without(p[..2], Extras) == kept;
    assert p[..3][..2] == p[..2];
    kept := kept + [p[2]];
    assert Without(p[..3], Extras) == kept;
    assert p[..4][..3] == p[..3];
    kept := kept + [p[3]];
    assert Without(p[..4], Extras) == kept;
    assert p[..5][..4] == p[..4];
    assert Without(p[..5], Extras) == kept;
    assert p[..6][..5] == p[..5];
    assert Without(p[..6], Extras) == kept;
    assert p[..7][..6] == p[..6];
    kept := kept + [p[6]];
    assert Without(p[..7], Extras) == kept;
    assert p[..8][..7] == p[..7];
    kept := kept + [p[7]];
    assert Without(p[..8], Extras) == kept;
    assert p[..9][..8] == p[..8];
    kept := kept + [p[8]];
    assert Without(p[..9], Extras) == kept;
    assert p[..10][..9] == p[..9];
    assert Without(p[..10], Extras) == kept;
    assert p[..11] == p;
    assert Without(p[..11], Extras) == kept;
  }

  lemma SerializeWithoutExtras(w: Weather.Readings)
    ensures Serialize(Readings(w.city, w.country, w.temperature, w.feelsLike, w.description,
                               w.humidity, w.windSpeed)).fields
            == Weather.Serialize(w).fields - Extras
  {
    LiteralWithout(Weather.Properties(w), Extras);
    PropertiesWithoutExtras(w);
  }

  /** Unless the upstream answers ok with a visibility that cannot be divided, the
      template answers exactly as the full weather handler does, with the four extra
      fields removed from the body: same checks, same order, same statuses, same messages. */
  lemma WeatherWithoutExtras(q: Query, env: Env, up: Upstream)
    requires up.Reply? && IsOk(up.status) && up.payload.Some? ==>
               !Weather.VisibilityThrows(up.payload.value)
    ensures Handle(q, env, up) == WithoutExtras(Weather.Handle(q, env, up))
  {
    if up.Reply? && IsOk(up.status) && up.payload.Some? {
      var data := up.payload.value;
      ReadsAgree(data);
      if Read(data).Value? {
        SerializeWithoutExtras(Weather.Read(data).value);
      }
    }
  }

  /** Where the two differ: on an ok payload with every section present and a visibility
      that cannot be divided, the template answers 200 with its summary while the full
      weather handler answers 500. */
  lemma VisibilityOnlyBreaksWeather(city: string, status: int, data: Json)
    requires IsOk(status) && !Weather.MissingSection(data) && Weather.VisibilityThrows(data)
    ensures Settle(city, Reply(status, Some(data))) == Response(200, Summary(data).value)
    ensures Weather.Settle(city, Reply(status, Some(data))) ==
            Response(500, ErrorBody(InternalError))
  {
    Weather.SuccessOrInternal(city, status, data);
  }
}
