/** `GET /api/convert?from=USD&to=EUR&amount=100` of the currency converter: validates
    the three parameters, reads the ExchangeRate-API key, asks the pair endpoint for the
    conversion, and answers with a fixed six-field body or an `{ error }` body. */
module Convert {
  import opened Text
  import opened JsValues
  import opened JsParseFloat
  import opened Http

  const KeyName := "EXCHANGERATE_API_KEY"

  const MissingParameters := "Missing required parameters: from, to, amount"
  const NotPositive := "Amount must be a positive number"
  const ConfigurationError := "Server configuration error"
  const UpstreamFailed := "Failed to fetch exchange rate data"
  const MalformedRequest := "Invalid currency code format"
  const QuotaReached := "API quota reached. Try again Later"
  const Fallback := "Failed to fetch exchange rate"
  const InternalError := "Internal server error"

  /** What the second phase needs: the caller's codes as given, and the parsed amount. */
  datatype Conversion = Conversion(from: string, to: string, amount: Number)

  /** The pair endpoint: the key, the upper-cased and encoded codes, and the amount as
      JavaScript writes the parsed number. */
  function PairUrl(key: string, c: Conversion): Url {
    [ Text("https://v6.exchangerate-api.com/v6/"), Text(key), Text("/pair/"),
      UriComponent(Upper(c.from)), Text("/"), UriComponent(Upper(c.to)), Text("/"),
      NumberText(c.amount) ]
  }

  /** Validation, then the credential check, then the upstream request: the upstream is
      asked exactly when the three parameters are there, the amount is not at most zero and
      the key is set, and every answer of its own is a 400 or 500 error body. */
  function Plan(q: Query, env: Env): (s: Step<Conversion>)
    ensures var from, to, amount := Get(q, "from"), Get(q, "to"), Get(q, "amount");
            s.Call? <==>
              && Present(from) && Present(to) && Present(amount)
              && !AtMostZero(ParseFloat(amount.value)) && Present(EnvGet(env, KeyName))
    ensures s.Answer? ==> s.response.status in {400, 500} && IsErrorBody(s.response.body)
    ensures s.Call? ==>
              s.context == Conversion(Get(q, "from").value, Get(q, "to").value,
                                      ParseFloat(Get(q, "amount").value))
  {
    var from, to, amount := Get(q, "from"), Get(q, "to"), Get(q, "amount");
    if !Present(from) || !Present(to) || !Present(amount) then
      Answer(Response(400, ErrorBody(MissingParameters)))
    else
      var n := ParseFloat(amount.value);
      if AtMostZero(n) then Answer(Response(400, ErrorBody(NotPositive)))
      else
        var key := EnvGet(env, KeyName);
        if !Present(key) then Answer(Response(500, ErrorBody(ConfigurationError)))
        else
          var c := Conversion(from.value, to.value, n);
          Call(PairUrl(key.value, c), c)
  }

  /** The keys of the `errorMessage` table. */
  const ErrorKeys: set<string> := {
    "unsupported-code", "malformed-request", "invalid-key", "inactive-account", "quota-reached" }

  /** The own entries of the `errorMessage` table, keyed by the upstream `error-type`. */
  function TableEntry(key: string, c: Conversion): Option<string> {
    if key == "unsupported-code" then
      Some("Currency code \"" + c.from + "\" or \"" + c.to + "\" is not supported")
    else if key == "malformed-request" then Some(MalformedRequest)
    else if key == "invalid-key" then Some(ConfigurationError)
    else if key == "inactive-account" then Some(ConfigurationError)
    else if key == "quota-reached" then Some(QuotaReached)
    else None
  }

  /** `errorMessage[errorType] || fallback`, looking only at the table's own entries
      (the corrected lookup; see `LookupAsWritten`). Turning `errorType` into a key throws
      exactly when its conversion does. Every entry is non-empty, so `||` keeps it. */
  function ErrorMessage(errorType: Val, c: Conversion): (m: Got<string>)
    ensures m.Thrown? <==> ConversionThrows(errorType)
    ensures m.Value? ==> m.value != ""
    ensures m.Value? ==>
              var key := KeyText(errorType).value;
              key.None? || key.value !in ErrorKeys ==> m.value == Fallback
  {
    var key :- KeyText(errorType);
    var entry := if key.Some? then TableEntry(key.value, c) else None;
    Value(if entry.Some? then entry.value else Fallback)
  }

  /** The payload reports a failure whose `error-type` cannot be turned into a key. */
  predicate LookupThrows(data: Json) {
    Member(data, "result") != Defined(Str("success")) && ConversionThrows(Member(data, "error-type"))
  }

  /** The names of the success body and the upstream fields they are copied from; the
      sixth field, `amount`, is the parsed amount. */
  const CopiedFields: seq<(string, string)> := [
    ("from", "base_code"), ("to", "target_code"), ("rate", "conversion_rate"),
    ("result", "conversion_result"), ("last_updated", "time_last_update_utc") ]

  const BodyNames: set<string> := {"from", "to", "rate", "amount", "result", "last_updated"}

  /** The success object literal's properties, in source order. */
  function BodyProperties(data: Json, amount: Number): seq<(string, Val)> {
    [ ("from", Member(data, "base_code")), ("to", Member(data, "target_code")),
      ("rate", Member(data, "conversion_rate")), ("amount", Defined(NumberJson(amount))),
      ("result", Member(data, "conversion_result")),
      ("last_updated", Member(data, "time_last_update_utc")) ]
  }

  /** The success object literal as `Response.json` serialises it: only the six names,
      and always the amount. */
  function ConversionBody(data: Json, amount: Number): (body: Json)
    ensures body.Obj? && body.fields.Keys <= BodyNames
    ensures "amount" in body.fields && body.fields["amount"] == NumberJson(amount)
  {
    var props := BodyProperties(data, amount);
    BodyPropertyNames(data, amount);
    LiteralKeys(props);
    LiteralField(props, 3);
    Obj(Literal(props))
  }

  /** The `try` block after the `fetch`: it throws exactly on a failed fetch, on a
      non-ok status `Response.json` refuses, on an ok body that is not JSON or is `null`,
      and on a failure whose `error-type` cannot be turned into a key; what it returns has a status `Response.json` accepts, and is the success body
      when the status is 200 and an error body otherwise. */
  function Attempt(c: Conversion, up: Upstream): (r: Got<Response>)
    ensures r.Thrown? <==>
              || up.NetworkFailure?
              || (!IsOk(up.status) && !CanCarryBody(up.status))
              || (IsOk(up.status) && (up.payload.None? || up.payload == Some(Null)))
              || (IsOk(up.status) && up.payload.Some? && LookupThrows(up.payload.value))
    ensures r.Value? ==> CanCarryBody(r.value.status)
    ensures r.Value? && r.value.status != 200 ==> IsErrorBody(r.value.body)
    ensures r.Value? && r.value.status == 200 ==>
              && r.value.body.Obj? && r.value.body.fields.Keys <= BodyNames
              && "amount" in r.value.body.fields
  {
    if up.NetworkFailure? then Thrown
    else if !IsOk(up.status) then JsonResponse(ErrorBody(UpstreamFailed), up.status)
    else
      var data :- ReadJson(up.payload);
      var result :- GetProp(Defined(data), "result");
      if result != Defined(Str("success")) then
        var m :- ErrorMessage(Member(data, "error-type"), c);
        Value(Response(400, ErrorBody(m)))
      else
        Value(Response(200, ConversionBody(data, c.amount)))
  }

  /** The second phase with its `catch`: anything thrown becomes a 500. */
  function Settle(c: Conversion, up: Upstream): (r: Response)
    ensures CanCarryBody(r.status)
    ensures r.status != 200 ==> IsErrorBody(r.body)
    ensures r.status == 200 ==>
              r.body.Obj? && r.body.fields.Keys <= BodyNames && "amount" in r.body.fields
  {
    match Attempt(c, up)
    case Value(r) => r
    case Thrown => Response(500, ErrorBody(InternalError))
  }

  /** The handler: `up` is what the upstream answers, when it is asked. Every response
      has a status `Response.json` accepts; a 200 carries the success body, anything else
      an `{ error }` body with a text. */
  function Handle(q: Query, env: Env, up: Upstream): (r: Response)
    ensures CanCarryBody(r.status)
    ensures r.status != 200 ==> IsErrorBody(r.body)
    ensures r.status == 200 ==>
              r.body.Obj? && r.body.fields.Keys <= BodyNames && "amount" in r.body.fields
  {
    match Plan(q, env)
    case Answer(r) => r
    case Call(_, c) => Settle(c, up)
  }

  // ----- Validation and credential: answered before any upstream request -----

  /** An absent or empty `from`, `to` or `amount` gives 400 before anything else. */
  lemma MissingParametersRejected(q: Query, env: Env, up: Upstream)
    requires !Present(Get(q, "from")) || !Present(Get(q, "to")) || !Present(Get(q, "amount"))
    ensures Plan(q, env) == Answer(Response(400, ErrorBody(MissingParameters)))
    ensures Handle(q, env, up) == Response(400, ErrorBody(MissingParameters))
  {
  }

  /** An amount that parses to zero, a negative number or minus infinity gives 400,
      whatever the key or upstream. */
  lemma NonPositiveAmountRejected(q: Query, env: Env, up: Upstream)
    requires Present(Get(q, "from")) && Present(Get(q, "to")) && Present(Get(q, "amount"))
    requires AtMostZero(ParseFloat(Get(q, "amount").value))
    ensures Plan(q, env) == Answer(Response(400, ErrorBody(NotPositive)))
    ensures Handle(q, env, up) == Response(400, ErrorBody(NotPositive))
  {
  }

  /** An amount that parses to NaN is not rejected by the positivity check: it goes on to
      the credential check and, with a key, to the upstream request with `NaN` in it. */
  lemma NaNAmountPassesCheck(q: Query, env: Env)
    requires Present(Get(q, "from")) && Present(Get(q, "to")) && Present(Get(q, "amount"))
    requires ParseFloat(Get(q, "amount").value) == NaN
    ensures var key := EnvGet(env, KeyName);
            var c := Conversion(Get(q, "from").value, Get(q, "to").value, NaN);
            Plan(q, env) == if Present(key) then Call(PairUrl(key.value, c), c)
                            else Answer(Response(500, ErrorBody(ConfigurationError)))
  {
  }

  /** An amount of `Infinity` passes the positivity check too, since `Infinity <= 0` is
      false: it goes on to the credential check and, with a key, to the upstream request. */
  lemma InfinityAmountPassesCheck(q: Query, env: Env)
    requires Present(Get(q, "from")) && Present(Get(q, "to"))
    requires Get(q, "amount") == Some("Infinity")
    ensures var key := EnvGet(env, KeyName);
            var c := Conversion(Get(q, "from").value, Get(q, "to").value, Infinity(false));
            Plan(q, env) == if Present(key) then Call(PairUrl(key.value, c), c)
                            else Answer(Response(500, ErrorBody(ConfigurationError)))
  {
    InfinityParses();
  }

  /** With valid parameters and no key, the answer is 500 and the upstream is not asked. */
  lemma MissingKeyRejected(q: Query, env: Env, up: Upstream)
    requires Present(Get(q, "from")) && Present(Get(q, "to")) && Present(Get(q, "amount"))
    requires !AtMostZero(ParseFloat(Get(q, "amount").value))
    requires !Present(EnvGet(env, KeyName))
    ensures Plan(q, env) == Answer(Response(500, ErrorBody(ConfigurationError)))
    ensures Handle(q, env, up) == Response(500, ErrorBody(ConfigurationError))
  {
  }

  /** When the first phase answers, the upstream cannot change the response. */
  lemma AnswerIgnoresUpstream(q: Query, env: Env, up1: Upstream, up2: Upstream)
    requires Plan(q, env).Answer?
    ensures Handle(q, env, up1) == Handle(q, env, up2) == Plan(q, env).response
  {
  }

  /** With valid parameters and a key, the one upstream request goes to the pair endpoint
      with the key, the upper-cased codes, each percent-encoded, and the parsed amount. */
  lemma UpstreamRequest(q: Query, env: Env)
    requires Present(Get(q, "from")) && Present(Get(q, "to")) && Present(Get(q, "amount"))
    requires !AtMostZero(ParseFloat(Get(q, "amount").value))
    requires Present(EnvGet(env, KeyName))
    ensures var from, to, n := Get(q, "from").value, Get(q, "to").value, ParseFloat(Get(q, "amount").value);
            Plan(q, env) == Call(
              [ Text("https://v6.exchangerate-api.com/v6/"), Text(EnvGet(env, KeyName).value),
                Text("/pair/"), UriComponent(Upper(from)), Text("/"), UriComponent(Upper(to)),
                Text("/"), NumberText(n) ],
              Conversion(from, to, n))
  {
  }

  // ----- Upstream outcomes -----

  /** A non-ok upstream status is passed on with a generic message; a status that
      `Response.json` refuses (304, or one outside 200 to 599) makes it throw, hence a 500. */
  lemma UpstreamStatusPassedOn(c: Conversion, status: int, payload: Option<Json>)
    requires !IsOk(status)
    ensures Settle(c, Reply(status, payload)) ==
            if CanCarryBody(status) then Response(status, ErrorBody(UpstreamFailed))
            else Response(500, ErrorBody(InternalError))
    ensures status == 304 ==> Settle(c, Reply(status, payload)).status == 500
    ensures 400 <= status <= 599 ==> Settle(c, Reply(status, payload)).status == status
  {
  }

  /** A payload whose `result` is not `"success"` gives 400, with the message the table
      gives for its `error-type`, whenever that `error-type` can be turned into a key. */
  lemma LogicalFailureIs400(c: Conversion, status: int, data: Json)
    requires IsOk(status) && data != Null
    requires Member(data, "result") != Defined(Str("success"))
    requires !ConversionThrows(Member(data, "error-type"))
    ensures Settle(c, Reply(status, Some(data))) ==
            Response(400, ErrorBody(ErrorMessage(Member(data, "error-type"), c).value))
  {
  }

  /** An `error-type` that cannot be turned into a key (an object with its own `toString`,
      or an array holding one) makes the lookup throw, so the answer is a 500. */
  lemma UnconvertibleErrorTypeIsInternal(c: Conversion, status: int, data: Json)
    requires IsOk(status) && data != Null && LookupThrows(data)
    ensures Settle(c, Reply(status, Some(data))) == Response(500, ErrorBody(InternalError))
  {
  }

  /** `{"result": "error", "error-type": {"toString": 0}}` and the same with the object
      inside an array both give 500 "Internal server error". */
  lemma ToStringFieldExample(c: Conversion)
    ensures var own := Obj(map["toString" := Num(0.0)]);
            var one := Obj(map["result" := Str("error"), "error-type" := own]);
            var listed := Obj(map["result" := Str("error"), "error-type" := Arr([own])]);
            && Settle(c, Reply(200, Some(one))) == Response(500, ErrorBody(InternalError))
            && Settle(c, Reply(200, Some(listed))) == Response(500, ErrorBody(InternalError))
  {
    var own := Obj(map["toString" := Num(0.0)]);
    assert ToPrimitiveThrows(Arr([own]).items[0]);
  }

  /** The table: both credential errors read as a configuration error, the unsupported
      code message quotes the caller's codes as given (not upper-cased), and an unknown
      or missing type falls back to a generic message. */
  lemma ErrorTable(c: Conversion, other: string)
    requires other !in ErrorKeys
    ensures ErrorMessage(Defined(Str("invalid-key")), c) == Value(ConfigurationError)
    ensures ErrorMessage(Defined(Str("inactive-account")), c) == Value(ConfigurationError)
    ensures ErrorMessage(Defined(Str("unsupported-code")), c)
            == Value("Currency code \"" + c.from + "\" or \"" + c.to + "\" is not supported")
    ensures ErrorMessage(Defined(Str("malformed-request")), c) == Value(MalformedRequest)
    ensures ErrorMessage(Defined(Str("quota-reached")), c) == Value(QuotaReached)
    ensures ErrorMessage(Defined(Str(other)), c) == Value(Fallback)
    ensures ErrorMessage(Undefined, c) == Value(Fallback)
  {
  }

  /** The message of a logical failure is one of the table's five texts or the fallback,
      and never mentions the key or its validity. */
  lemma ErrorMessageRange(errorType: Val, c: Conversion)
    ensures var m := ErrorMessage(errorType, c);
            m.Value? ==>
              m.value in {ConfigurationError, MalformedRequest, QuotaReached, Fallback,
                          "Currency code \"" + c.from + "\" or \"" + c.to + "\" is not supported"}
  {
  }

  /** The literal's names are the six body names, each once; `amount` is fourth and the
      others follow the copy table. */
  lemma BodyPropertyNames(data: Json, amount: Number)
    ensures var props := BodyProperties(data, amount);
            && DistinctNames(props)
            && (forall i :: 0 <= i < |props| ==> props[i].0 in BodyNames)
            && props[3] == ("amount", Defined(NumberJson(amount)))
            && forall i :: 0 <= i < |CopiedFields| ==>
                 var j := if i < 3 then i else i + 1;
                 props[j] == (CopiedFields[i].0, Member(data, CopiedFields[i].1))
  {
  }

  /** On success the body holds exactly the whitelisted fields: `amount` is always there
      and is the parsed amount (NaN and infinities written as null), every other field is
      there exactly when its upstream field is defined, and holds that field's value. */
  lemma SuccessBody(c: Conversion, status: int, data: Json)
    requires IsOk(status)
    requires Member(data, "result") == Defined(Str("success"))
    ensures var r := Settle(c, Reply(status, Some(data)));
            && r.status == 200 && r.body.Obj?
            && r.body.fields.Keys <= BodyNames
            && "amount" in r.body.fields && r.body.fields["amount"] == NumberJson(c.amount)
            && forall i :: 0 <= i < |CopiedFields| ==>
                 var (name, source) := CopiedFields[i];
                 && (name in r.body.fields <==> Member(data, source).Defined?)
                 && (name in r.body.fields ==> r.body.fields[name] == Member(data, source).json)
  {
    var props := BodyProperties(data, c.amount);
    assert Settle(c, Reply(status, Some(data))) == Response(200, Obj(Literal(props)));
    BodyPropertyNames(data, c.amount);
    LiteralKeys(props);
    LiteralField(props, 3);
    forall i | 0 <= i < |CopiedFields|
      ensures var (name, source) := CopiedFields[i];
              && (name in Literal(props) <==> Member(data, source).Defined?)
              && (name in Literal(props) ==> Literal(props)[name] == Member(data, source).json)
    {
      LiteralField(props, if i < 3 then i else i + 1);
    }
  }

  /** A failed `fetch`, a body that is not JSON, or a JSON `null` body is caught as 500. */
  lemma ThrowsAreInternal(c: Conversion, up: Upstream)
    requires || up.NetworkFailure?
             || (IsOk(up.status) && up.payload.None?)
             || (IsOk(up.status) && up.payload == Some(Null))
    ensures Settle(c, up) == Response(500, ErrorBody(InternalError))
  {
  }

  /** `from=USD&to=EUR&amount=100` against an upstream answering a rate of 0.92 and a
      result of 92 yields the six-field body with status 200. */
  lemma ConvertExample(key: string, stamp: string)
    requires key != ""
    ensures var q := [("from", "USD"), ("to", "EUR"), ("amount", "100")];
            var data := Obj(map[
              "result" := Str("success"), "base_code" := Str("USD"), "target_code" := Str("EUR"),
              "conversion_rate" := Num(0.92), "conversion_result" := Num(92.0),
              "time_last_update_utc" := Str(stamp)]);
            Handle(q, map[KeyName := key], Reply(200, Some(data))) ==
              Response(200, Obj(map[
                "from" := Str("USD"), "to" := Str("EUR"), "rate" := Num(0.92),
                "amount" := Num(100.0), "result" := Num(92.0), "last_updated" := Str(stamp)]))
  {
    var c := Conversion("USD", "EUR", Finite(100.0));
    ExamplePlan(key);
    ExampleSettle(c, stamp);
  }

  lemma HundredParses()
    ensures ParseFloat("100") == Finite(100.0)
  {
    assert NatText(100) == "100";
    NatTextParses(100);
  }

  lemma ExamplePlan(key: string)
    requires key != ""
    ensures var c := Conversion("USD", "EUR", Finite(100.0));
            Plan([("from", "USD"), ("to", "EUR"), ("amount", "100")], map[KeyName := key])
              == Call(PairUrl(key, c), c)
  {
    var q := [("from", "USD"), ("to", "EUR"), ("amount", "100")];
    var env := map[KeyName := key];
    assert Get(q, "from") == Some("USD");
    assert Get(q, "to") == Some("EUR");
    assert Get(q, "amount") == Some("100");
    HundredParses();
    assert EnvGet(env, KeyName) == Some(key);
    UpstreamRequest(q, env);
  }

  lemma ExampleSettle(c: Conversion, stamp: string)
    requires c.amount == Finite(100.0)
    ensures var data := Obj(map[
              "result" := Str("success"), "base_code" := Str("USD"), "target_code" := Str("EUR"),
              "conversion_rate" := Num(0.92), "conversion_result" := Num(92.0),
              "time_last_update_utc" := Str(stamp)]);
            Settle(c, Reply(200, Some(data))) ==
              Response(200, Obj(map[
                "from" := Str("USD"), "to" := Str("EUR"), "rate" := Num(0.92),
                "amount" := Num(100.0), "result" := Num(92.0), "last_updated" := Str(stamp)]))
  {
    var data := Obj(map[
      "result" := Str("success"), "base_code" := Str("USD"), "target_code" := Str("EUR"),
      "conversion_rate" := Num(0.92), "conversion_result" := Num(92.0),
      "time_last_update_utc" := Str(stamp)]);
    assert GetProp(Defined(data), "result") == Value(Defined(Str("success")));
    assert Attempt(c, Reply(200, Some(data))) == Value(Response(200, ConversionBody(data, Finite(100.0))));
    ExampleBody(stamp);
  }

  lemma ExampleBody(stamp: string)
    ensures var data := Obj(map[
              "result" := Str("success"), "base_code" := Str("USD"), "target_code" := Str("EUR"),
              "conversion_rate" := Num(0.92), "conversion_result" := Num(92.0),
              "time_last_update_utc" := Str(stamp)]);
            ConversionBody(data, Finite(100.0)) == Obj(map[
              "from" := Str("USD"), "to" := Str("EUR"), "rate" := Num(0.92),
              "amount" := Num(100.0), "result" := Num(92.0), "last_updated" := Str(stamp)])
  {
    var fields := map[
      "result" := Str("success"), "base_code" := Str("USD"), "target_code" := Str("EUR"),
      "conversion_rate" := Num(0.92), "conversion_result" := Num(92.0),
      "time_last_update_utc" := Str(stamp)];
    var data := Obj(fields);
    assert Member(data, "base_code") == Defined(Str("USD"));
    assert Member(data, "target_code") == Defined(Str("EUR"));
    assert Member(data, "conversion_rate") == Defined(Num(0.92));
    assert Member(data, "conversion_result") == Defined(Num(92.0));
    assert Member(data, "time_last_update_utc") == Defined(Str(stamp));
    var from, to := ("from", Defined(Str("USD"))), ("to", Defined(Str("EUR")));
    var rate, amount := ("rate", Defined(Num(0.92))), ("amount", Defined(Num(100.0)));
    var result, updated := ("result", Defined(Num(92.0))), ("last_updated", Defined(Str(stamp)));
    assert BodyProperties(data, Finite(100.0)) == [from, to, rate, amount, result, updated];
    // Build the literal one property at a time.
    var props: seq<(string, Val)> := [];
    var built: map<string, Json> := map[];
    assert Literal(props) == built;
    LiteralSnoc(props, from.0, from.1);
    props, built := props + [from], built["from" := Str("USD")];
    LiteralSnoc(props, to.0, to.1);
    props, built := props + [to], built["to" := Str("EUR")];
    LiteralSnoc(props, rate.0, rate.1);
    props, built := props + [rate], built["rate" := Num(0.92)];
    LiteralSnoc(props, amount.0, amount.1);
    props, built := props + [amount], built["amount" := Num(100.0)];
    LiteralSnoc(props, result.0, result.1);
    props, built := props + [result], built["result" := Num(92.0)];
    LiteralSnoc(props, updated.0, updated.1);
    props, built := props + [updated], built["last_updated" := Str(stamp)];
    assert props == [from, to, rate, amount, result, updated];
  }

  // ----- Finding: the table lookup reaches inherited members -----

  /** The members every object literal inherits from `Object.prototype`: functions, and
      the `__proto__` accessor, which yields `Object.prototype` itself. */
  const InheritedMethods: set<string> := {
    "constructor", "hasOwnProperty", "isPrototypeOf", "propertyIsEnumerable",
    "toLocaleString", "toString", "valueOf",
    "__defineGetter__", "__defineSetter__", "__lookupGetter__", "__lookupSetter__" }

  datatype Lookup = Entry(message: string) | InheritedMethod | InheritedPrototype | NoEntry

  /** `errorMessage[errorType]` as the source writes it: an ordinary property read, which
      also finds the members inherited from `Object.prototype`. Turning `errorType` into a
      key throws as in the corrected lookup. */
  function LookupAsWritten(errorType: Val, c: Conversion): Got<Lookup> {
    var key :- KeyText(errorType);
    if key.None? then Value(NoEntry)
    else
      var entry := TableEntry(key.value, c);
      if entry.Some? then Value(Entry(entry.value))
      else if key.value in InheritedMethods then Value(InheritedMethod)
      else if key.value == "__proto__" then Value(InheritedPrototype)
      else Value(NoEntry)
  }

  /** The body `Response.json` writes for `{ error: errorMessage[errorType] || fallback }`
      as the source writes it: an inherited method is truthy and is dropped by
      `JSON.stringify`; `Object.prototype` is truthy and is written as `{}`. */
  function ErrorBodyAsWritten(errorType: Val, c: Conversion): (body: Got<Json>)
    ensures body.Thrown? <==> ConversionThrows(errorType)
    ensures body.Value? ==> body.value.Obj?
    ensures body.Value? ==>
              var key := KeyText(errorType).value;
              IsErrorBody(body.value) <==>
                !(key.Some? && (key.value in InheritedMethods || key.value == "__proto__"))
  {
    var lookup :- LookupAsWritten(errorType, c);
    match lookup
    case Entry(m) => Value(ErrorBody(m))
    case InheritedMethod => Value(Obj(map[]))
    case InheritedPrototype => Value(Obj(map["error" := Obj(map[])]))
    case NoEntry => Value(ErrorBody(Fallback))
  }

  /** As written, an upstream `error-type` of `"constructor"` yields the body `{}`, which
      has no `error` field, and `"__proto__"` yields `{"error": {}}`. */
  lemma AsWrittenLosesErrorText(c: Conversion)
    ensures ErrorBodyAsWritten(Defined(Str("constructor")), c) == Value(Obj(map[]))
    ensures "error" !in ErrorBodyAsWritten(Defined(Str("constructor")), c).value.fields
    ensures ErrorBodyAsWritten(Defined(Str("__proto__")), c)
            == Value(Obj(map["error" := Obj(map[])]))
  {
  }

  /** The corrected lookup throws on the same `error-type`s as the lookup as written;
      otherwise it always yields an `error` text, and it agrees with the lookup as written
      on every `error-type` that does not name an inherited member. */
  lemma CorrectedLookupAgrees(errorType: Val, c: Conversion)
    ensures ErrorMessage(errorType, c).Thrown? <==> ErrorBodyAsWritten(errorType, c).Thrown?
    ensures var m := ErrorMessage(errorType, c);
            m.Value? ==>
              ErrorBody(m.value).fields.Keys == {"error"} && ErrorBody(m.value).fields["error"].Str?
    ensures var key := KeyText(errorType);
            var m := ErrorMessage(errorType, c);
            (key.Value? && (key.value.None? ||
                            (key.value.value !in InheritedMethods && key.value.value != "__proto__"))) ==>
              ErrorBodyAsWritten(errorType, c) == Value(ErrorBody(m.value))
  {
  }
}
