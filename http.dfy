/** What the route handlers share: the query string, the process environment, the one
    upstream `fetch`, the request URL they build, and the `Response.json` they return. */
module Http {
  import opened JsValues

  /** The decoded name/value pairs of the request's query string, in order. */
  type Query = seq<(string, string)>

  /** `searchParams.get(name)`: the value of the first pair with that name, `null` when
      there is none. */
  function Get(q: Query, name: string): (r: Option<string>)
    ensures r.None? <==> forall i :: 0 <= i < |q| ==> q[i].0 != name
    ensures r.Some? ==> exists i :: 0 <= i < |q| && q[i] == (name, r.value)
                                    && forall j :: 0 <= j < i ==> q[j].0 != name
  {
    if q == [] then None
    else if q[0].0 == name then Some(q[0].1)
    else
      var r := Get(q[1..], name);
      assert r.Some? ==> exists i :: 0 < i < |q| && q[i] == (name, r.value)
                                    && forall j :: 0 <= j < i ==> q[j].0 != name by {
        if r.Some? {
          var i :| 0 <= i < |q[1..]| && q[1..][i] == (name, r.value)
                   && forall j :: 0 <= j < i ==> q[1..][j].0 != name;
          assert forall j :: 1 <= j < i + 1 ==> q[j].0 == q[1..][j - 1].0;
        }
      }
      r
  }

  /** `process.env`. */
  type Env = map<string, string>

  /** `process.env[name]`: `undefined` when the variable is not set. */
  function EnvGet(env: Env, name: string): Option<string> {
    if name in env then Some(env[name]) else None
  }

  /** A piece of an outgoing URL: literal text, `encodeURIComponent(raw)` (percent-encoding
      is not modelled: the segment keeps the raw text it encodes), or the text of a number
      written into a template literal. */
  datatype Segment = Text(text: string) | UriComponent(raw: string) | NumberText(number: Number)

  /** An outgoing URL, the concatenation of its segments. */
  type Url = seq<Segment>

  /** What the single upstream `fetch` yields: a rejected promise (network failure), or a
      response with its status and its body as `res.json()` parses it (`None`: the body is
      not JSON, so `res.json()` throws). */
  datatype Upstream = NetworkFailure | Reply(status: int, payload: Option<Json>)

  /** `await res.json()`: throws when the body is not JSON. */
  function ReadJson(payload: Option<Json>): Got<Json> {
    if payload.Some? then Value(payload.value) else Thrown
  }

  /** `res.ok`. */
  predicate IsOk(status: int) {
    200 <= status <= 299
  }

  /** A response: its status and its JSON body. */
  datatype Response = Response(status: int, body: Json)

  /** The shape of every error response's body: one `error` field holding a text. */
  predicate IsErrorBody(body: Json) {
    body.Obj? && body.fields.Keys == {"error"} && body.fields["error"].Str?
  }

  /** The body `{ error: message }` of every error response. */
  function ErrorBody(message: string): (body: Json)
    ensures IsErrorBody(body) && body.fields["error"].s == message
  {
    Obj(map["error" := Str(message)])
  }

  /** A status `Response.json` accepts for a response with a body: within 200 to 599
      (otherwise a RangeError), and not a null-body status 204, 205 or 304 (otherwise a
      TypeError). */
  predicate CanCarryBody(status: int) {
    200 <= status <= 599 && status != 204 && status != 205 && status != 304
  }

  /** `Response.json(body, { status })`: throws for a status that cannot carry a body. */
  function JsonResponse(body: Json, status: int): (r: Got<Response>)
    ensures r.Value? <==> CanCarryBody(status)
    ensures r.Value? ==> r.value == Response(status, body)
  {
    if CanCarryBody(status) then Value(Response(status, body)) else Thrown
  }

  /** The first phase of a handler, up to the `fetch`: either it answers on its own (no
      upstream request is made), or it calls the upstream at `url`, carrying what the
      second phase needs. */
  datatype Step<C> = Answer(response: Response) | Call(url: Url, context: C)
}
