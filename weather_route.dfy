/** `GET /api/weather?city=London` of the weather project: validates `city`, reads the
    OpenWeatherMap key, asks the current-weather endpoint, and answers with an 11-field
    report (visibility in kilometres) or an `{ error }` body. */
module Weather {
  import opened JsValues
  import opened Http

  const KeyName := "OPENWEATHER_API_KEY"

  const CityRequired := "City parameter is required"
  const ConfigurationError := "Server configuration error"
  const UpstreamFailed := "Failed to fetch weather data"
  const InternalError := "Internal server error"

  /** The message for a city the upstream does not know, quoting the query value. */
  function NotFound(city: string): string {
    "City \"" + city + "\" not found"
  }

  /** The current-weather endpoint, in metric units. */
  function WeatherUrl(city: string, key: string): Url {
    [ Text("https://api.openweathermap.org/data/2.5/weather?q="), UriComponent(city),
      Text("&appid="), Text(key), Text("&units=metric") ]
  }

  /** Validation, then the credential check, then the upstream request; the second phase
      needs only the city. The upstream is asked exactly when the city and the key are
      both set, and every answer of its own is a 400 or 500 error body. */
  function Plan(q: Query, env: Env): (s: Step<string>)
    ensures s.Call? <==> Present(Get(q, "city")) && Present(EnvGet(env, KeyName))
    ensures s.Answer? ==> s.response.status in {400, 500} && IsErrorBody(s.response.body)
    ensures s.Call? ==> s.context == Get(q, "city").value
  {
    var city := Get(q, "city");
    if !Present(city) then Answer(Response(400, ErrorBody(CityRequired)))
    else
      var key := EnvGet(env, KeyName);
      if !Present(key) then Answer(Response(500, ErrorBody(ConfigurationError)))
      else Call(WeatherUrl(city.value, key.value), city.value)
  }

  /** `Math.round(x)`: the nearest integer, halves rounded up. */
  function Round(x: real): int {
    (x + 0.5).Floor
  }

  /** `data.visibility ? Math.round(data.visibility / 1000) : null` for the values JSON
      can hold. A truthy non-number is coerced by `ToNumber`. An object with its own
      `toString`, or an array holding one at any depth, makes that coercion throw. `true`
      gives 0.001, rounded to 0. Any other object gives NaN, written as null. The other
      strings and arrays, whose coercion goes through number parsing, are written as null
      here. */
  function VisibilityKm(v: Val): (km: Got<Json>)
    ensures km.Thrown? <==> ConversionThrows(v)
    ensures !Truthy(v) ==> km == Value(Null)
    ensures km.Value? ==> km.value == Null || (km.value.Num? && km.value.n == km.value.n.Floor as real)
  {
    if !Truthy(v) then Value(Null)
    else if ConversionThrows(v) then Thrown
    else
      match v.json
      case Num(n) => Value(Num(Round(n / 1000.0) as real))
      case Bool(_) => Value(Num(0.0))
      case _ => Value(Null)
  }

  /** The values of the success object literal's properties, before serialisation. */
  datatype Readings = Readings(
    city: Val, country: Val, temperature: Val, feelsLike: Val, tempMin: Val, tempMax: Val,
    description: Val, humidity: Val, windSpeed: Val, pressure: Val, visibility: Val)

  /** The payload is `null`, or one of the sections the report reads through is missing
      or `null`. */
  predicate MissingSection(data: Json) {
    || data == Null
    || Breaks(data, ["sys"]) || Breaks(data, ["main"])
    || Breaks(data, ["weather", "0"]) || Breaks(data, ["wind"])
  }

  /** The payload's visibility is an object with its own `toString`, or an array holding
      one: dividing it by 1000 throws. */
  predicate VisibilityThrows(data: Json) {
    ConversionThrows(Member(data, "visibility"))
  }

  /** Evaluates the properties in the source's order; reading a property of a missing
      `sys`, `main`, `weather[0]` or `wind` throws, and so does a visibility whose coercion
      throws (see `Report`). Otherwise the visibility is always written. */
  function Read(data: Json): (r: Got<Readings>)
    ensures r.Value? ==> r.value.visibility.Defined?
  {
    var d := Defined(data);
    var name :- GetProp(d, "name");
    var sys :- GetProp(d, "sys");
    var country :- GetProp(sys, "country");
    var main :- GetProp(d, "main");
    var temp :- GetProp(main, "temp");
    var feelsLike :- GetProp(main, "feels_like");
    var tempMin :- GetProp(main, "temp_min");
    var tempMax :- GetProp(main, "temp_max");
    var weather :- GetProp(d, "weather");
    var first :- GetProp(weather, "0");
    var description :- GetProp(first, "description");
    var humidity :- GetProp(main, "humidity");
    var wind :- GetProp(d, "wind");
    var speed :- GetProp(wind, "speed");
    var pressure :- GetProp(main, "pressure");
    var visibility :- GetProp(d, "visibility");
    var km :- VisibilityKm(visibility);
    Value(Readings(name, country, temp, feelsLike, tempMin, tempMax, description, humidity,
                   speed, pressure, Defined(km)))
  }

  /** The success object literal's properties, in source order. */
  function Properties(r: Readings): seq<(string, Val)> {
    [ ("city", r.city), ("country", r.country), ("temperature", r.temperature),
      ("feels_like", r.feelsLike), ("temp_min", r.tempMin), ("temp_max", r.tempMax),
      ("description", r.description), ("humidity", r.humidity), ("wind_speed", r.windSpeed),
      ("pressure", r.pressure), ("visibility", r.visibility) ]
  }

  /** The object literal as `Response.json` writes it: only the eleven names, and
      `visibility` whenever it is defined. */
  function Serialize(r: Readings): (body: Json)
    ensures body.Obj? && body.fields.Keys <= ReportNames
    ensures r.visibility.Defined? ==> "visibility" in body.fields
  {
    PropertyNames(r);
    LiteralKeys(Properties(r));
    LiteralField(Properties(r), |ReportPaths|);
    Obj(Literal(Properties(r)))
  }

  /** The success body: it throws exactly when a section it reads through is missing or
      the visibility cannot be divided, and otherwise has only the eleven names, always with `visibility`. */
  function Report(data: Json): (body: Got<Json>)
    ensures body.Thrown? <==> MissingSection(data) || VisibilityThrows(data)
    ensures body.Value? ==>
              && body.value.Obj? && body.value.fields.Keys <= ReportNames
              && "visibility" in body.value.fields
  {
    var d := Defined(data);
    FollowOne(d, "sys");
    FollowOne(d, "main");
    FollowOne(d, "wind");
    FollowTwo(d, "weather", "0");
    var r :- Read(data);
    Value(Serialize(r))
  }

  /** The `try` block after the `fetch`: it throws exactly on a failed fetch, on a
      non-ok status other than 404 that `Response.json` refuses, and on an ok body that is
      not JSON, misses a section or has a visibility that cannot be divided; what it returns has a status `Response.json` accepts,
      and is the report when the status is 200 and an error body otherwise. */
  function Attempt(city: string, up: Upstream): (r: Got<Response>)
    ensures r.Thrown? <==>
              || up.NetworkFailure?
              || (!IsOk(up.status) && up.status != 404 && !CanCarryBody(up.status))
              || (IsOk(up.status) && (up.payload.None? || MissingSection(up.payload.value) ||
                                      VisibilityThrows(up.payload.value)))
    ensures r.Value? ==> CanCarryBody(r.value.status)
    ensures r.Value? && r.value.status != 200 ==> IsErrorBody(r.value.body)
    ensures r.Value? && r.value.status == 200 ==>
              && r.value.body.Obj? && r.value.body.fields.Keys <= ReportNames
              && "visibility" in r.value.body.fields
  {
    if up.NetworkFailure? then Thrown
    else if !IsOk(up.status) then
      if up.status == 404 then Value(Response(404, ErrorBody(NotFound(city))))
      else JsonResponse(ErrorBody(UpstreamFailed), up.status)
    else
      var data :- ReadJson(up.payload);
      var body :- Report(data);
      Value(Response(200, body))
  }

  /** The second phase with its `catch`. */
  function Settle(city: string, up: Upstream): (r: Response)
    ensures CanCarryBody(r.status)
    ensures r.status != 200 ==> IsErrorBody(r.body)
    ensures r.status == 200 ==>
              && r.body.Obj? && r.body.fields.Keys <= ReportNames
              && "visibility" in r.body.fields
  {
    match Attempt(city, up)
    case Value(r) => r
    case Thrown => Response(500, ErrorBody(InternalError))
  }

  /** The handler: `up` is what the upstream answers, when it is asked. Every response
      has a status `Response.json` accepts; a 200 carries the report, anything else an
      `{ error }` body with a text. */
  function Handle(q: Query, env: Env, up: Upstream): (r: Response)
    ensures CanCarryBody(r.status)
    ensures r.status != 200 ==> IsErrorBody(r.body)
    ensures r.status == 200 ==>
              && r.body.Obj? && r.body.fields.Keys <= ReportNames
              && "visibility" in r.body.fields
  {
    match Plan(q, env)
    case Answer(r) => r
    case Call(_, city) => Settle(city, up)
  }

  // ----- Validation and credential -----

  /** An absent or empty `city` gives 400 before anything else. */
  lemma CityRequiredFirst(q: Query, env: Env, up: Upstream)
    requires !Present(Get(q, "city"))
    ensures Plan(q, env) == Answer(Response(400, ErrorBody(CityRequired)))
    ensures Handle(q, env, up) == Response(400, ErrorBody(CityRequired))
  {
  }

  /** With a city and no key, the answer is 500 and the upstream is not asked. */
  lemma MissingKeyRejected(q: Query, env: Env, up: Upstream)
    requires Present(Get(q, "city")) && !Present(EnvGet(env, KeyName))
    ensures Plan(q, env) == Answer(Response(500, ErrorBody(ConfigurationError)))
    ensures Handle(q, env, up) == Response(500, ErrorBody(ConfigurationError))
  {
  }

  /** With a city and a key, the one request carries the encoded city and the key. */
  lemma UpstreamRequest(q: Query, env: Env)
    requires Present(Get(q, "city")) && Present(EnvGet(env, KeyName))
    ensures Plan(q, env) == Call(
              [ Text("https://api.openweathermap.org/data/2.5/weather?q="),
                UriComponent(Get(q, "city").value), Text("&appid="),
                Text(EnvGet(env, KeyName).value), Text("&units=metric") ],
              Get(q, "city").value)
  {
  }

  /** When the first phase answers, the upstream cannot change the response. */
  lemma AnswerIgnoresUpstream(q: Query, env: Env, up1: Upstream, up2: Upstream)
    requires Plan(q, env).Answer?
    ensures Handle(q, env, up1) == Handle(q, env, up2) == Plan(q, env).response
  {
  }

  // ----- Upstream outcomes -----

  /** An upstream 404 gives 404 quoting the raw query value; any other non-ok status is
      passed on with a generic message (or is a 500 when `Response.json` refuses it). */
  lemma UpstreamStatusMapped(city: string, status: int, payload: Option<Json>)
    requires !IsOk(status)
    ensures Settle(city, Reply(status, payload)) ==
            if status == 404 then Response(404, ErrorBody(NotFound(city)))
            else if CanCarryBody(status) then Response(status, ErrorBody(UpstreamFailed))
            else Response(500, ErrorBody(InternalError))
  {
  }

  /** A failed `fetch` or a body that is not JSON is caught as 500. */
  lemma FetchFailureIsInternal(city: string, up: Upstream)
    requires up.NetworkFailure? || (IsOk(up.status) && up.payload.None?)
    ensures Settle(city, up) == Response(500, ErrorBody(InternalError))
  {
  }

  /** `path` cannot be read, or leads to `undefined` or `null`, so reading a property of
      its end throws. */
  predicate Breaks(data: Json, path: seq<string>) {
    var g := Follow(Defined(data), path);
    g.Thrown? || Nullish(g.value)
  }

  lemma FollowOne(v: Val, a: string)
    ensures Follow(v, [a]) == GetProp(v, a)
  {
    assert [a][1..] == [];
  }

  lemma FollowTwo(v: Val, a: string, b: string)
    ensures Follow(v, [a, b]) ==
            if GetProp(v, a).Thrown? then Thrown else GetProp(GetProp(v, a).value, b)
  {
    assert [a, b][1..] == [b];
    FollowOne(if GetProp(v, a).Thrown? then v else GetProp(v, a).value, b);
  }

  lemma FollowThree(v: Val, a: string, b: string, c: string)
    ensures Follow(v, [a, b, c]) ==
            if GetProp(v, a).Thrown? then Thrown else Follow(GetProp(v, a).value, [b, c])
  {
    assert [a, b, c][1..] == [b, c];
  }

  /** The reshape throws exactly when the payload is `null`, one of `sys`, `main`,
      `weather[0]` and `wind` is missing or `null`, or the visibility is an object with its
      own `toString` or an array holding one. */
  lemma ReportThrowsIff(data: Json)
    ensures Report(data).Thrown? <==>
            || data == Null
            || Breaks(data, ["sys"]) || Breaks(data, ["main"])
            || Breaks(data, ["weather", "0"]) || Breaks(data, ["wind"])
            || ConversionThrows(Member(data, "visibility"))
  {
  }

  /** The report's names and the upstream paths they are read from; the eleventh field,
      `visibility`, is derived from `visibility` in metres. */
  const ReportPaths: seq<(string, seq<string>)> := [
    ("city", ["name"]), ("country", ["sys", "country"]), ("temperature", ["main", "temp"]),
    ("feels_like", ["main", "feels_like"]), ("temp_min", ["main", "temp_min"]),
    ("temp_max", ["main", "temp_max"]), ("description", ["weather", "0", "description"]),
    ("humidity", ["main", "humidity"]), ("wind_speed", ["wind", "speed"]),
    ("pressure", ["main", "pressure"]) ]

  const ReportNames: set<string> := {
    "city", "country", "temperature", "feels_like", "temp_min", "temp_max",
    "description", "humidity", "wind_speed", "pressure", "visibility" }

  /** A field of a report matches its upstream path: present exactly when the path leads
      to a defined value, and then holding that value. */
  predicate Copied(body: map<string, Json>, data: Json, name: string, path: seq<string>) {
    var g := Follow(Defined(data), path);
    && g.Value?
    && (name in body <==> g.value.Defined?)
    && (name in body ==> body[name] == g.value.json)
  }

  /** The literal's names are the eleven report names, each once, in the order of the
      path table with `visibility` last. */
  lemma PropertyNames(r: Readings)
    ensures DistinctNames(Properties(r))
    ensures forall i :: 0 <= i < |Properties(r)| ==> Properties(r)[i].0 in ReportNames
    ensures |Properties(r)| == |ReportPaths| + 1
    ensures forall i :: 0 <= i < |ReportPaths| ==> Properties(r)[i].0 == ReportPaths[i].0
    ensures Properties(r)[|ReportPaths|].0 == "visibility"
  {
  }

  /** Every property but the last holds the value at the end of its upstream path; the
      last holds the visibility in kilometres. */
  lemma ReadFollowsPaths(data: Json)
    requires Read(data).Value?
    ensures var props := Properties(Read(data).value);
            && (forall i :: 0 <= i < |ReportPaths| ==>
                  Follow(Defined(data), ReportPaths[i].1) == Value(props[i].1))
            && props[|ReportPaths|].1 == Defined(VisibilityKm(Member(data, "visibility")).value)
  {
    ReadByPaths(data);
  }

  /** The same, reading by reading. */
  lemma ReadByPaths(data: Json)
    requires Read(data).Value?
    ensures var r := Read(data).value;
            var d := Defined(data);
            && Follow(d, ["name"]) == Value(r.city)
            && Follow(d, ["sys", "country"]) == Value(r.country)
            && Follow(d, ["main", "temp"]) == Value(r.temperature)
            && Follow(d, ["main", "feels_like"]) == Value(r.feelsLike)
            && Follow(d, ["main", "temp_min"]) == Value(r.tempMin)
            && Follow(d, ["main", "temp_max"]) == Value(r.tempMax)
            && Follow(d, ["weather", "0", "description"]) == Value(r.description)
            && Follow(d, ["main", "humidity"]) == Value(r.humidity)
            && Follow(d, ["wind", "speed"]) == Value(r.windSpeed)
            && Follow(d, ["main", "pressure"]) == Value(r.pressure)
            && r.visibility == Defined(VisibilityKm(Member(data, "visibility")).value)
  {
    var d := Defined(data);
    FollowOne(d, "name");
    FollowTwo(d, "sys", "country");
    FollowTwo(d, "main", "temp");
    FollowTwo(d, "main", "feels_like");
    FollowTwo(d, "main", "temp_min");
    FollowTwo(d, "main", "temp_max");
    FollowThree(d, "weather", "0", "description");
    FollowTwo(GetProp(d, "weather").value, "0", "description");
    FollowTwo(d, "main", "humidity");
    FollowTwo(d, "wind", "speed");
    FollowTwo(d, "main", "pressure");
  }

  /** On success the report holds only the eleven whitelisted names; `visibility` is
      always there (a number of kilometres or null), and every other field is copied
      from its fixed upstream path. */
  lemma ReportFields(data: Json)
    requires Report(data).Value?
    ensures var body := Report(data).value;
            && body.Obj?
            && body.fields.Keys <= ReportNames
            && "visibility" in body.fields
            && body.fields["visibility"] == VisibilityKm(Member(data, "visibility")).value
            && forall i :: 0 <= i < |ReportPaths| ==>
                 Copied(body.fields, data, ReportPaths[i].0, ReportPaths[i].1)
  {
    var props := Properties(Read(data).value);
    ReadFollowsPaths(data);
    PropertyNames(Read(data).value);
    LiteralKeys(props);
    LiteralField(props, |ReportPaths|);
    forall i | 0 <= i < |ReportPaths|
      ensures Copied(Literal(props), data, ReportPaths[i].0, ReportPaths[i].1)
    {
      LiteralField(props, i);
    }
  }

  /** Whole metres: rounding `m / 1000` is `(m + 500) / 1000` in integer division, the
      nearest whole kilometre with halves rounded up. */
  lemma RoundMetres(m: int)
    ensures Round(m as real / 1000.0) == (m + 500) / 1000
    ensures var k := (m + 500) / 1000; 1000 * k - 500 <= m < 1000 * k + 500
  {
    var k := (m + 500) / 1000;
    var x := m as real / 1000.0 + 0.5;
    assert 1000 * k <= m + 500 < 1000 * k + 1000;
    assert x == (m + 500) as real / 1000.0;
    assert k as real <= x < k as real + 1.0;
    var f := x.Floor;
    assert f as real <= x < f as real + 1.0;
    assert f == k;
  }

  /** Visibility in whole metres: 0 (falsy) is written as null, any other value as the
      rounded number of kilometres; a missing or `null` visibility is null. */
  lemma VisibilityFromMetres(m: int)
    ensures VisibilityKm(Defined(Num(m as real))) ==
            Value(if m == 0 then Null else Num(((m + 500) / 1000) as real))
    ensures VisibilityKm(Undefined) == Value(Null) && VisibilityKm(Defined(Null)) == Value(Null)
  {
    RoundMetres(m);
  }

  /** The same facts about the handler: 500 when a section is missing or the visibility
      cannot be divided, and 200 with the report otherwise. */
  lemma SuccessOrInternal(city: string, status: int, data: Json)
    requires IsOk(status)
    ensures Settle(city, Reply(status, Some(data))) ==
            if MissingSection(data) || VisibilityThrows(data)
            then Response(500, ErrorBody(InternalError))
            else Response(200, Report(data).value)
  {
  }

  /** A payload with every section and `"visibility": {"toString": 0}` gives 500. */
  lemma VisibilityToStringExample(city: string)
    ensures var own := Obj(map["toString" := Num(0.0)]);
            var data := Obj(map[
              "sys" := Obj(map[]), "main" := Obj(map[]), "wind" := Obj(map[]),
              "weather" := Arr([Obj(map[])]), "visibility" := own]);
            Settle(city, Reply(200, Some(data))) == Response(500, ErrorBody(InternalError))
  {
  }

  /** A city the upstream answers 404 for, as in `city=Nowhereville`. */
  lemma NowherevilleExample(key: string, payload: Option<Json>)
    requires key != ""
    ensures Handle([("city", "Nowhereville")], map[KeyName := key], Reply(404, payload))
            == Response(404, Obj(map["error" := Str("City \"Nowhereville\" not found")]))
  {
    var q := [("city", "Nowhereville")];
    var env := map[KeyName := key];
    assert NotFound("Nowhereville") == "City \"Nowhereville\" not found";
    assert Get(q, "city") == Some("Nowhereville");
    assert EnvGet(env, KeyName) == Some(key);
    UpstreamRequest(q, env);
  }
}
