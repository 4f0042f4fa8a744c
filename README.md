# API by example: the proxy decision logic, in Dafny

The repository is a set of small Next.js projects. Each project has one server route. The
route takes the browser's query, checks it, adds a secret key when the upstream needs one,
calls a public web API once, and reshapes the answer. This model covers four of these
routes and one client-side helper:

- **Currency converter** (`GET /api/convert?from=USD&to=EUR&amount=100`, module `Convert`).
  It checks the three parameters and that the amount is positive, then asks the
  ExchangeRate-API pair endpoint. An error type in the answer becomes a message through a
  fixed table. On success it returns a six-field body.
- **Weather** (`GET /api/weather?city=London`, module `Weather`). It checks `city`, then asks
  OpenWeatherMap. A 404 becomes `City "<city>" not found`, quoting the query value. On
  success it returns an 11-field report, with visibility in kilometres.
- **Starter template** (module `Example`). The same handler as `Weather`, but its success
  body has only 7 fields.
- **Joke generator** (`GET /api/joke?category=Pun`, module `Joke`). The category defaults to
  `Any` and must be one of six names. JokeAPI needs no key. Its answer is forwarded
  unchanged.
- **Weather page** (module `WeatherPage`). `getIcon` chooses an emoji for a weather
  description by ordered keyword tests. The start of `search` returns early on a blank
  query; otherwise it sets the page state and makes the request.

Each handler is a pure function `Handle(query, env, upstream)` (the joke handler, which
reads no environment, is `Handle(query, upstream)`), and it runs in two phases:

- `Plan(query, env)` covers validation and the credential check. It either gives an
  `Answer` (then no upstream request is made) or a `Call` with the exact request URL.
- `Settle(context, upstream)` covers the `try` block after the `fetch`, with its `catch`.
  `upstream` is what the single `fetch` yields: a network failure, or a status and a body
  that is JSON or not.

JavaScript behaviour the code depends on is modelled explicitly:

- Reading a property of `undefined` or `null` throws (`GetProp`, `Follow`).
- `!x` and `x || y` follow JavaScript truthiness (`Present`, `Truthy`).
- `parseFloat` reads the longest decimal prefix, so it gives NaN for text without one
  (`JsParseFloat`).
- Comparisons with NaN are false (`AtMostZero`).
- Turning an object into a property key or a number calls its `toString`. A parsed object
  with its own `toString` field cannot be converted, and the conversion throws. An array
  converts through `join`, so it throws when any element does (`ToPrimitiveThrows`,
  `KeyText`).
- `JSON.stringify` drops `undefined` properties and writes NaN and the infinities as `null`
  (`Put`, `Literal`, `NumberJson`).
- `Response.json` throws for a status that cannot carry a body (`JsonResponse`). An error
  thrown inside `try` becomes the handler's 500.
- Shared pieces (query lookup, environment, responses) are in `Http`. JavaScript values are
  in `JsValues`. String operations (`trim`, case mapping, `includes`, `join`, decimal
  digits) are in `Text`.

## Model

| member | source | states |
|---|---|---|
| Http.Get | beginner/currency-converter-api/app/api/convert/route.js:7-10 | `searchParams.get`: absent exactly when no pair has the name, otherwise the value of the first pair with that name |
| Http.JsonResponse | beginner/currency-converter-api/app/api/convert/route.js:43-47 | `Response.json(body, {status})` succeeds exactly for a status in 200..599 other than 204, 205 and 304, and then carries that status and body |
| JsValues.GetProp | beginner/weather-api/app/api/weather/route.js:53-60 | reading a property throws exactly when the value read from is `undefined` or `null` |
| JsValues.LiteralSnoc | beginner/currency-converter-api/app/api/convert/route.js:69-76 | one more property in an object literal sets its field to the value, or removes the field when the value is `undefined` |
| JsValues.LiteralKeys | beginner/weather-api/app/api/weather/route.js:51-63 | every field `JSON.stringify` writes for an object literal comes from a property whose value is defined |
| JsValues.LiteralField | beginner/weather-api/app/api/weather/route.js:51-63 | with distinct property names, a property is written exactly when its value is defined, and then with that value |
| JsValues.LiteralWithout | starter-files/app/api/example/route.js:52-60 | dropping names from the written object is the same as leaving those properties out of the literal |
| JsValues.KeyText | beginner/currency-converter-api/app/api/convert/route.js:63 | turning a value into a property key throws exactly when it is an object with its own `toString` or an array holding one at any depth |
| JsValues.JoinKeyText | beginner/currency-converter-api/app/api/convert/route.js:63 | `join` from element `i` on throws exactly when converting one of those elements throws |
| Text.TrimEmptyIff | beginner/weather-api/app/page.js:48 | `q.trim()` is empty exactly when every character of `q` is JavaScript white space |
| Text.Lower | beginner/weather-api/app/page.js:34 | `toLowerCase` keeps the length and maps each character on its own |
| Text.Upper | beginner/currency-converter-api/app/api/convert/route.js:40 | `toUpperCase` keeps the length and maps each character on its own |
| Text.LowerIdempotent | beginner/weather-api/app/page.js:34 | lower-casing an already lower-cased text changes nothing |
| Text.ContainsIff | beginner/weather-api/app/page.js:35-41 | `includes` holds exactly when the keyword occurs at some position |
| Text.NatTextValue | beginner/currency-converter-api/app/api/convert/route.js:21 | the decimal text of a natural number reads back as that number |
| JsParseFloat.ParseFloat | beginner/currency-converter-api/app/api/convert/route.js:21 | `parseFloat` gives NaN exactly when the text after the leading white space, past an optional sign, does not start with `Infinity`, a digit, or a point and a digit; its value is proved for the texts named in the lemmas below (whole numbers, `w.f`, each with or without a minus sign, and `Infinity`) |
| JsParseFloat.ParseSigned | beginner/currency-converter-api/app/api/convert/route.js:21 | after the white space, NaN exactly when the text past an optional sign does not start with `Infinity`, a digit, or a point and a digit |
| JsParseFloat.ParseUnsigned | beginner/currency-converter-api/app/api/convert/route.js:21 | past the sign, NaN exactly when the text does not start with `Infinity`, a digit, or a point and a digit |
| JsParseFloat.ParseDecimal | beginner/currency-converter-api/app/api/convert/route.js:21 | a decimal literal is NaN exactly when it does not start with a digit, or a point and a digit, and it is never infinite |
| JsParseFloat.NatTextParses | beginner/currency-converter-api/app/api/convert/route.js:21 | `parseFloat` of the decimal text of `n` is `n` |
| JsParseFloat.NegatedNatTextParses | beginner/currency-converter-api/app/api/convert/route.js:21-22 | `parseFloat("-" + n)` is `-n`, so a negative amount is caught by `numAmount <= 0` |
| JsParseFloat.NoDigitIsNaN | beginner/currency-converter-api/app/api/convert/route.js:21 | a text with no digit and no `Infinity` parses to NaN |
| JsParseFloat.FractionDecimal | beginner/currency-converter-api/app/api/convert/route.js:21 | digits, a point and digits are read as a decimal literal worth `w + f / 10^\|f\|` |
| JsParseFloat.FractionParses | beginner/currency-converter-api/app/api/convert/route.js:21 | `parseFloat` of digits, a point and digits is their exact value |
| JsParseFloat.NegatedFractionParses | beginner/currency-converter-api/app/api/convert/route.js:21-22 | `parseFloat("-" + w.f)` is `-(w.f)`, so a negative fractional amount is caught by `numAmount <= 0` |
| JsParseFloat.HalfParses | beginner/currency-converter-api/app/api/convert/route.js:21 | `parseFloat("0.5")` is one half and `parseFloat("-0.5")` minus one half |
| JsParseFloat.DigitFirst | beginner/currency-converter-api/app/api/convert/route.js:21 | a text that starts with a digit has no white space or sign for `parseFloat` to skip |
| JsParseFloat.MinusDigitFirst | beginner/currency-converter-api/app/api/convert/route.js:21 | a minus sign before a text that starts with a digit negates its value |
| JsParseFloat.DigitRunStops | beginner/currency-converter-api/app/api/convert/route.js:21 | the digit run of digits followed by a non-digit ends at the non-digit |
| JsParseFloat.InfinityParses | beginner/currency-converter-api/app/api/convert/route.js:21 | `parseFloat("Infinity")` is positive infinity |
| JsParseFloat.LettersAreNaN | beginner/currency-converter-api/app/api/convert/route.js:21 | `parseFloat("abc")` is NaN |
| Convert.Handle | beginner/currency-converter-api/app/api/convert/route.js:5-84 | the `GET` handler, `Plan` then `Settle`: every response has a status `Response.json` accepts; a 200 carries the success body (only the six names, always `amount`); every other status carries `{ error: <text> }`. The single cases are stated by the lemmas from `MissingParametersRejected` to `ConvertExample` |
| Convert.Plan | beginner/currency-converter-api/app/api/convert/route.js:7-41 | the upstream is asked exactly when `from`, `to` and `amount` are non-empty, the parsed amount is not `<= 0` and the key is set; every answer before the request is a 400 or 500 error body; the request carries the raw codes and the parsed amount |
| Convert.Attempt | beginner/currency-converter-api/app/api/convert/route.js:43-76 | the `try` block after the `fetch` throws exactly on a failed fetch, a non-ok status `Response.json` refuses, an ok body that is not JSON or is `null`, or a failure whose `error-type` cannot be turned into a property key (an object with its own `toString`, or an array holding one); otherwise its status is accepted, 200 carries the success body and any other status an error body |
| Convert.Settle | beginner/currency-converter-api/app/api/convert/route.js:43-84 | with the `catch`: the status is always accepted by `Response.json`; 200 carries the success body, anything else an error body |
| Convert.ErrorMessage | beginner/currency-converter-api/app/api/convert/route.js:54-63 | the corrected lookup throws exactly when `error-type` cannot be turned into a property key; otherwise it gives a non-empty text, so `\|\|` keeps it, and gives the fallback when `error-type` is a number, and whenever its property-key text is not one of the five table keys; the entries are stated by `ErrorTable` |
| Convert.ConversionBody | beginner/currency-converter-api/app/api/convert/route.js:69-76 | the success literal as written: only the six names, and `amount` always present as the parsed amount (NaN and the infinities as `null`) |
| Convert.MissingParametersRejected | beginner/currency-converter-api/app/api/convert/route.js:13-18 | an absent or empty `from`, `to` or `amount` gives 400 "Missing required parameters: from, to, amount" whatever the key and upstream |
| Convert.NonPositiveAmountRejected | beginner/currency-converter-api/app/api/convert/route.js:21-27 | an amount parsing to zero, a negative number or minus infinity gives 400 "Amount must be a positive number" whatever the key and upstream |
| Convert.NaNAmountPassesCheck | beginner/currency-converter-api/app/api/convert/route.js:21-41 | an amount parsing to NaN passes the positivity check and reaches the credential check and the request |
| Convert.InfinityAmountPassesCheck | beginner/currency-converter-api/app/api/convert/route.js:21-41 | an amount of `Infinity` passes the positivity check and reaches the credential check and the request |
| Convert.MissingKeyRejected | beginner/currency-converter-api/app/api/convert/route.js:30-36 | with valid parameters and no `EXCHANGERATE_API_KEY`, 500 "Server configuration error" with no upstream request |
| Convert.AnswerIgnoresUpstream | beginner/currency-converter-api/app/api/convert/route.js:13-36 | whenever validation or the credential check answers, the upstream has no influence on the response |
| Convert.UpstreamRequest | beginner/currency-converter-api/app/api/convert/route.js:39-41 | the single request is the pair endpoint with the key, the upper-cased and encoded codes, and the parsed amount |
| Convert.UpstreamStatusPassedOn | beginner/currency-converter-api/app/api/convert/route.js:43-48 | a non-ok status is returned with "Failed to fetch exchange rate data"; a status `Response.json` refuses (such as 304) becomes 500 |
| Convert.LogicalFailureIs400 | beginner/currency-converter-api/app/api/convert/route.js:53-66 | a payload whose `result` is not `"success"` gives 400 with the table's message for its `error-type`, whenever that `error-type` can be turned into a property key |
| Convert.UnconvertibleErrorTypeIsInternal | beginner/currency-converter-api/app/api/convert/route.js:53-84 | a failure whose `error-type` cannot be turned into a property key makes the lookup throw, and the `catch` answers 500 "Internal server error" |
| Convert.ToStringFieldExample | beginner/currency-converter-api/app/api/convert/route.js:62-84 | `"error-type": {"toString": 0}`, and the same object inside an array, give 500 "Internal server error" |
| Convert.ErrorTable | beginner/currency-converter-api/app/api/convert/route.js:54-63 | both credential errors read "Server configuration error"; unsupported-code quotes the caller's codes as given; unknown or missing types give "Failed to fetch exchange rate" |
| Convert.ErrorMessageRange | beginner/currency-converter-api/app/api/convert/route.js:54-63 | the message of a logical failure, when the lookup does not throw, is one of the table's texts or the fallback |
| Convert.BodyPropertyNames | beginner/currency-converter-api/app/api/convert/route.js:69-76 | the success literal names each of its six fields once; `amount` holds the parsed amount and every other field its upstream field |
| Convert.SuccessBody | beginner/currency-converter-api/app/api/convert/route.js:69-76 | on success the status is 200; the body holds only the six names; `amount` is the parsed amount; every other field is present exactly when its upstream field is, with its value |
| Convert.ThrowsAreInternal | beginner/currency-converter-api/app/api/convert/route.js:78-84 | a failed fetch, a body that is not JSON, or a `null` body gives 500 "Internal server error" |
| Convert.ConvertExample | beginner/currency-converter-api/app/api/convert/route.js:5-76 | `from=USD&to=EUR&amount=100` with a successful upstream answer yields the expected six-field body |
| Convert.ErrorBodyAsWritten | beginner/currency-converter-api/app/api/convert/route.js:54-65 | the lookup as written throws exactly when `error-type` cannot be turned into a property key; otherwise it gives an `{ error: <text> }` body exactly when `error-type` is not the name of a member inherited from `Object.prototype` |
| Convert.AsWrittenLosesErrorText | beginner/currency-converter-api/app/api/convert/route.js:54-63 | as written, `error-type` `"constructor"` yields the body `{}` and `"__proto__"` yields `{"error": {}}` |
| Convert.CorrectedLookupAgrees | beginner/currency-converter-api/app/api/convert/route.js:54-63 | the corrected lookup throws on the same `error-type`s as the code as written; otherwise it always yields an `error` text, and it agrees with the code as written on every `error-type` that does not name an inherited member |
| Weather.Handle | beginner/weather-api/app/api/weather/route.js:5-71 | the `GET` handler, `Plan` then `Settle`: every response has a status `Response.json` accepts; a 200 carries the report (only the eleven names, always `visibility`); every other status carries `{ error: <text> }`. The single cases are stated by the lemmas from `CityRequiredFirst` to `NowherevilleExample` |
| Weather.Plan | beginner/weather-api/app/api/weather/route.js:8-32 | the upstream is asked exactly when `city` is non-empty and the key is set; every answer before the request is a 400 or 500 error body; the second phase gets the raw city |
| Weather.Attempt | beginner/weather-api/app/api/weather/route.js:35-63 | throws exactly on a failed fetch, a non-ok status other than 404 that `Response.json` refuses, or an ok body that is not JSON, misses a section, or has a visibility that cannot be divided (an object with its own `toString`, or an array holding one); otherwise its status is accepted, 200 carries the report and any other status an error body |
| Weather.Settle | beginner/weather-api/app/api/weather/route.js:35-71 | with the `catch`: the status is always accepted; 200 carries the report, anything else an error body |
| Weather.Read | beginner/weather-api/app/api/weather/route.js:51-62 | the properties in source order; when it does not throw, the visibility is always written. What each property reads is stated by `ReadFollowsPaths`, when it throws by `Report` |
| Weather.Serialize | beginner/weather-api/app/api/weather/route.js:51-63 | the report literal as written has only the eleven names, and `visibility` whenever its value is defined |
| Weather.Report | beginner/weather-api/app/api/weather/route.js:51-63 | the reshape throws exactly when the payload is `null`, `sys`, `main`, `weather[0]` or `wind` is missing or `null`, or the visibility cannot be divided; otherwise the body has only the eleven names and always `visibility` |
| Weather.VisibilityKm | beginner/weather-api/app/api/weather/route.js:62 | throws exactly when the visibility is an object with its own `toString` or an array holding one; a falsy visibility gives `null`; any other result is `null` or a whole number of kilometres; values for whole metres are stated by `VisibilityFromMetres` |
| Weather.CityRequiredFirst | beginner/weather-api/app/api/weather/route.js:12-17 | an absent or empty `city` gives 400 "City parameter is required" whatever the key and upstream |
| Weather.MissingKeyRejected | beginner/weather-api/app/api/weather/route.js:20-27 | with a city and no `OPENWEATHER_API_KEY`, 500 "Server configuration error" with no upstream request |
| Weather.UpstreamRequest | beginner/weather-api/app/api/weather/route.js:30-32 | the single request carries the encoded city, the key and metric units |
| Weather.AnswerIgnoresUpstream | beginner/weather-api/app/api/weather/route.js:12-27 | whenever validation or the credential check answers, the upstream has no influence on the response |
| Weather.UpstreamStatusMapped | beginner/weather-api/app/api/weather/route.js:35-46 | upstream 404 gives 404 quoting the raw query value; another non-ok status is passed on with "Failed to fetch weather data" |
| Weather.FetchFailureIsInternal | beginner/weather-api/app/api/weather/route.js:64-70 | a failed fetch or a body that is not JSON gives 500 "Internal server error" |
| Weather.ReportThrowsIff | beginner/weather-api/app/api/weather/route.js:49-63 | the reshape throws exactly when the payload is `null`, `sys`, `main`, `weather[0]` or `wind` is missing or `null`, or the visibility is an object with its own `toString` or an array holding one |
| Weather.ReadFollowsPaths | beginner/weather-api/app/api/weather/route.js:52-62 | every value the report reads is the value at the end of its upstream path |
| Weather.PropertyNames | beginner/weather-api/app/api/weather/route.js:51-63 | the report literal names each of its eleven fields once, in the order of the upstream paths, with `visibility` last |
| Weather.ReportFields | beginner/weather-api/app/api/weather/route.js:51-63 | on success the body holds only the eleven names; `visibility` is always present; every other field is copied from its fixed upstream path |
| Weather.RoundMetres | beginner/weather-api/app/api/weather/route.js:62 | `Math.round(m / 1000)` for whole metres `m` is `(m + 500) / 1000`, the nearest kilometre with halves rounded up |
| Weather.VisibilityFromMetres | beginner/weather-api/app/api/weather/route.js:62 | visibility is `null` when it is 0, missing or `null`, and otherwise the rounded number of kilometres |
| Weather.SuccessOrInternal | beginner/weather-api/app/api/weather/route.js:49-70 | an ok response gives 500 when a section is missing or the visibility cannot be divided, and 200 with the report otherwise |
| Weather.VisibilityToStringExample | beginner/weather-api/app/api/weather/route.js:62-70 | a payload with every section and `"visibility": {"toString": 0}` gives 500 "Internal server error" |
| Weather.NowherevilleExample | beginner/weather-api/app/api/weather/route.js:36-41 | `city=Nowhereville` with an upstream 404 gives 404 `City "Nowhereville" not found` |
| Example.Handle | starter-files/app/api/example/route.js:5-69 | the `GET` handler, `Plan` then `Settle`: every response has a status `Response.json` accepts; a 200 carries the seven-field summary; every other status carries `{ error: <text> }`. That it answers as `Weather.Handle` minus four fields, except on an ok payload whose visibility cannot be divided, is `WeatherWithoutExtras`; that exception is `VisibilityOnlyBreaksWeather` |
| Example.Plan | starter-files/app/api/example/route.js:8-33 | the upstream is asked exactly when `city` is non-empty and the key is set; every answer before the request is a 400 or 500 error body |
| Example.Attempt | starter-files/app/api/example/route.js:36-60 | throws exactly on a failed fetch, a non-ok status other than 404 that `Response.json` refuses, or an ok body that is not JSON or misses a section; otherwise its status is accepted, 200 carries the summary and any other status an error body |
| Example.Settle | starter-files/app/api/example/route.js:36-68 | with the `catch`: the status is always accepted; 200 carries the summary, anything else an error body |
| Example.Serialize | starter-files/app/api/example/route.js:52-60 | the summary literal as written has only the seven names, so none of the weather report's four extra ones |
| Example.Summary | starter-files/app/api/example/route.js:52-60 | the reshape throws exactly when the weather report's does (`Weather.MissingSection`); otherwise the body has only the seven names |
| Example.CityRequiredFirst | starter-files/app/api/example/route.js:12-17 | an absent or empty `city` gives 400 "City parameter is required" whatever the key and upstream |
| Example.MissingKeyRejected | starter-files/app/api/example/route.js:20-28 | a missing key gives 500 "Server configuration error" with no upstream request |
| Example.UpstreamRequest | starter-files/app/api/example/route.js:31-33 | the single request carries the encoded city, the key and metric units |
| Example.UpstreamStatusMapped | starter-files/app/api/example/route.js:36-47 | upstream 404 gives 404 `City "<city>" not found`; another non-ok status is passed on with "Failed to fetch weather data" |
| Example.ThrowsAreInternal | starter-files/app/api/example/route.js:61-68 | a failed fetch, a body that is not JSON, or a payload that is `null` or misses `sys`, `main`, `weather[0]` or `wind` gives 500 "Internal server error" |
| Example.ReadFollowsPaths | starter-files/app/api/example/route.js:52-60 | every value the summary reads is the value at the end of its upstream path |
| Example.PropertyNames | starter-files/app/api/example/route.js:52-60 | the summary literal names each of its seven fields once, in the order of the upstream paths |
| Example.SummaryKeys | starter-files/app/api/example/route.js:52-60 | the written summary has only the seven names, so none of `temp_min`, `temp_max`, `pressure` and `visibility` |
| Example.SummaryFields | starter-files/app/api/example/route.js:52-60 | on success the body holds only the seven names, none of `temp_min`, `temp_max`, `pressure` and `visibility`, each copied from its upstream path |
| Example.ReadsAgree | starter-files/app/api/example/route.js:52-60 | the weather handler's reshape throws exactly on the payloads the template throws on and those whose visibility cannot be divided (the template never reads `visibility`); when it succeeds, both read the same values for the fields the template keeps |
| Example.PropertiesWithoutExtras | starter-files/app/api/example/route.js:52-60 | the template's property list is the weather report's list, in the same order, with the four extra properties removed |
| Example.SerializeWithoutExtras | starter-files/app/api/example/route.js:52-60 | the template's body is the weather report's body without the four extra names |
| Example.WeatherWithoutExtras | starter-files/app/api/example/route.js:5-69 | for every query, environment and upstream, except an ok payload whose visibility cannot be divided, the template answers as the weather handler does, minus the four extra fields |
| Example.VisibilityOnlyBreaksWeather | starter-files/app/api/example/route.js:52-60 | on an ok payload with every section and a visibility that cannot be divided, the template answers 200 with its summary while the weather handler answers 500 |
| Joke.Handle | beginner/joke-generator/app/api/joke/route.js:5-38 | the `GET` handler, `Plan` then `Settle`: every response has a status `Response.json` accepts; a 200 is JokeAPI's body, forwarded unchanged, for a valid category; every other status carries `{ error: <text> }` |
| Joke.Plan | beginner/joke-generator/app/api/joke/route.js:7-20 | the upstream is asked exactly when the defaulted category is one of the six; the only answer before the request is a 400 error body |
| Joke.Attempt | beginner/joke-generator/app/api/joke/route.js:22-30 | throws exactly on a failed fetch, a non-ok status `Response.json` refuses, or an ok body that is not JSON; otherwise its status is accepted, 200 is the upstream body and any other status an error body |
| Joke.Settle | beginner/joke-generator/app/api/joke/route.js:22-37 | with the `catch`: the status is always accepted; 200 is the upstream body unchanged, anything else an error body |
| Joke.Category | beginner/joke-generator/app/api/joke/route.js:8 | the category is `Any` exactly when the parameter is absent, empty or `Any`; otherwise it is the parameter |
| Joke.InvalidCategoryText | beginner/joke-generator/app/api/joke/route.js:11-14 | the message is "Invalid category. Use one of: " followed by the six categories in order, separated by ", " |
| Joke.DefaultsToAny | beginner/joke-generator/app/api/joke/route.js:8 | with no category or an empty one, the request is for `Any` |
| Joke.InvalidCategoryRejected | beginner/joke-generator/app/api/joke/route.js:11-17 | a category outside the list gives 400 with that message whatever the upstream |
| Joke.CallIffValid | beginner/joke-generator/app/api/joke/route.js:11-20 | the upstream is asked exactly when the category is one of the six, at the URL with the encoded category and the fixed blacklist flags |
| Joke.CaseSensitive | beginner/joke-generator/app/api/joke/route.js:12 | `programming` is refused: the membership test is exact |
| Joke.UpstreamStatusPassedOn | beginner/joke-generator/app/api/joke/route.js:22-27 | a non-ok status is passed on with "Failed to fetch joke from JokeAPI" |
| Joke.ForwardedUnchanged | beginner/joke-generator/app/api/joke/route.js:29-30 | an ok JSON body is returned unchanged with status 200 |
| Joke.ThrowsAreServerError | beginner/joke-generator/app/api/joke/route.js:31-37 | a failed fetch or a body that is not JSON gives 500 "Server error while fetching joke", which differs from the handler's other two messages |
| WeatherPage.GetIcon | beginner/weather-api/app/page.js:33-43 | `getIcon` returns one of the eight icons, and the fair-weather one exactly when the lower-cased description (absent read as `""`) holds no deciding keyword |
| WeatherPage.Classify | beginner/weather-api/app/page.js:35-42 | the keyword tests always give one of the eight icons |
| WeatherPage.IconIsOneOfEight | beginner/weather-api/app/page.js:33-43 | `getIcon` always returns one of eight fixed icons |
| WeatherPage.CaseInsensitive | beginner/weather-api/app/page.js:34 | the icon does not depend on letter case; an absent description behaves like `""` and gives the fair-weather icon |
| WeatherPage.ClearFirst | beginner/weather-api/app/page.js:35 | `clear` wins over every other keyword |
| WeatherPage.CloudsNext | beginner/weather-api/app/page.js:36-37 | without `clear`: `cloud` with `scatter` gives the partly cloudy icon, `cloud` without `scatter` gives the cloudy one |
| WeatherPage.RainBeforeThunder | beginner/weather-api/app/page.js:38-39 | `rain` or `drizzle` wins over `thunder` |
| WeatherPage.SnowBeforeMist | beginner/weather-api/app/page.js:39-42 | after rain, the tests run in the order `thunder`, `snow`, then `mist`/`fog`/`haze` |
| WeatherPage.FairIffNoKeyword | beginner/weather-api/app/page.js:35-42 | the fair-weather icon is returned exactly when no deciding keyword occurs |
| WeatherPage.LightRainExample | beginner/weather-api/app/page.js:38 | "Light Rain" shows the rain icon |
| WeatherPage.FewCloudsExample | beginner/weather-api/app/page.js:37 | "Few Clouds" shows the cloudy icon |
| WeatherPage.Page.constructor | beginner/weather-api/app/page.js:13-16 | the page starts with an empty city, not loading, no error and no report |
| WeatherPage.Page.BeginSearch | beginner/weather-api/app/page.js:46-56 | a blank or all-white-space query returns with no request and no state changed; otherwise the query becomes the city, the page is loading with no error and no report, and the request is `/api/weather?city=` with the encoded query |

## Left out

- The network. `fetch` and `res.json()` are an input (`Http.Upstream`). The model does not
  cover timing, redirects or headers.
- `encodeURIComponent`, that is percent-encoding per section 2.1 of RFC 3986. A
  `UriComponent` segment keeps the raw text it encodes.
- JavaScript's number-to-text conversion. The amount in the currency URL is a `NumberText`
  segment holding the parsed number.
- `new URL(request.url)` and query decoding. The query arrives as decoded name/value pairs.
- `console.error` logging. It does not change any response.
- Number precision. JSON numbers and `parseFloat` results are exact reals, so double
  rounding, overflow to infinity and underflow to zero are not modelled.
- JsParseFloat.ParseFloat: the model has no rounding step. A parsed number keeps every
  digit that was given.
- JsParseFloat.ParseFloat: its value is proved only for whole numbers, for digits, a point
  and digits, each with or without a leading minus sign, and for `Infinity`. Texts with an
  exponent or with trailing characters are defined by the function's body, and no lemma
  states their value. The handler only needs the NaN case and the sign of the result.
- Key order in response bodies. An object is a map.
- Inherited properties of JSON values, such as `length`. No handler reads one by name.
  The conversions to a property key at
  beginner/currency-converter-api/app/api/convert/route.js:63 and to a number at
  beginner/weather-api/app/api/weather/route.js:62 consult `toString` and `valueOf`; `JsValues.ToPrimitiveThrows` models
  them.
- Text.Lower: only ASCII letters are mapped. This does not change any icon:
  - Every keyword is lower-case ASCII.
  - The only non-ASCII characters `toLowerCase` turns into ASCII letters are U+212A KELVIN
    SIGN, which gives `k` (no keyword has a `k`), and U+0130, which gives `i` followed by a
    combining dot (no keyword ends in `i`).
- Text.Upper: only ASCII letters are mapped. `toUpperCase` also turns `ß` into `SS` and
  dotless `ı` into `I`. Such input changes only the text of the currency request URL.
- WeatherPage.GetIcon: the description is a string or absent. A truthy non-string would make
  `toLowerCase` throw in the page; the model does not cover that.
- Weather.VisibilityKm: a truthy string visibility, and an array visibility with no element
  that makes the conversion throw, are written as `null`. JavaScript would convert them to
  a number first (an array through its joined text).
- WeatherPage.Page.BeginSearch: the page after the request is left out. That covers the
  response handling, the error text, the clock update and the `finally`. So are the dark
  mode toggle, the clock interval, the JSON toggle and all rendering.
- The other pages, layouts, `lib/apiClient.js` helpers and `snippet.js` scripts. They are
  user interface, configuration or standalone scripts, and no route uses them.
- Convert.ErrorMessage: the table lookup uses only the table's own entries. The code as
  written also reaches members inherited from `Object.prototype`; see Findings.
- The comment at beginner/currency-converter-api/app/api/convert/route.js:20 and the
  message at :24 say the amount must be a positive number. The check `numAmount <= 0` at
  :22 lets through an amount that parses to NaN (`Convert.NaNAmountPassesCheck`) and the
  amount `Infinity` (`Convert.InfinityAmountPassesCheck`). The model follows the code.

## Findings

| source | as written | input that shows it | evidently intended | confidence | as-written member | corrected member |
|---|---|---|---|---|---|---|
| beginner/currency-converter-api/app/api/convert/route.js:54-63 | `errorMessage[data["error-type"]]` is an ordinary property read on an object literal, so it also finds members inherited from `Object.prototype` | an upstream `{"result": "error", "error-type": "constructor"}` gives 400 with body `{}`, because the inherited function is truthy and `JSON.stringify` drops it; `"__proto__"` gives `{"error": {}}` | only the table's own entries are messages; every other type falls back to "Failed to fetch exchange rate" | low (needs a malformed upstream answer); not executed | Convert.AsWrittenLosesErrorText | Convert.CorrectedLookupAgrees |
