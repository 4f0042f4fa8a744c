/** `GET /api/joke?category=Programming`: defaults the category to `Any`, checks it against
    JokeAPI's six categories, asks JokeAPI without any key, and forwards its JSON as is. */
module Joke {
  import opened Text
  import opened JsValues
  import opened Http

  /** JokeAPI's categories, in the order the error message lists them. */
  const Categories: seq<string> :=
    ["Any", "Programming", "Miscellaneous", "Pun", "Spooky", "Christmas"]

  const UpstreamFailed := "Failed to fetch joke from JokeAPI"
  const ServerError := "Server error while fetching joke"

  /** `searchParams.get("category") || "Any"`: absent and empty fall back to `Any`. */
  function Category(q: Query): (c: string)
    ensures c == "Any" <==> !Present(Get(q, "category")) || Get(q, "category").value == "Any"
    ensures Present(Get(q, "category")) ==> c == Get(q, "category").value
  {
    var c := Get(q, "category");
    if Present(c) then c.value else "Any"
  }

  /** The message for a category outside the list; it names every category. */
  function InvalidCategory(): string {
    "Invalid category. Use one of: " + Join(Categories, ", ")
  }

  /** The joke endpoint for a category, with the fixed blacklist flags. */
  function JokeUrl(category: string): Url {
    [ Text("https://v2.jokeapi.dev/joke/"), UriComponent(category),
      Text("?blacklistFlags=nsfw,racist,sexist,explicit") ]
  }

  /** Defaulting, then the exact, case-sensitive membership test, then the request; there
      is no credential, and the second phase needs nothing from the first. The only answer
      of its own is a 400 error body. */
  function Plan(q: Query): (s: Step<()>)
    ensures s.Call? <==> Category(q) in Categories
    ensures s.Answer? ==> s.response.status == 400 && IsErrorBody(s.response.body)
  {
    var category := Category(q);
    if category !in Categories then Answer(Response(400, ErrorBody(InvalidCategory())))
    else Call(JokeUrl(category), ())
  }

  /** The `try` block after the `fetch`: a non-ok status is passed on with a fixed message,
      an ok body is returned unchanged. It throws exactly on a failed fetch, on a non-ok
      status `Response.json` refuses, and on an ok body that is not JSON. */
  function Attempt(up: Upstream): (r: Got<Response>)
    ensures r.Thrown? <==>
              || up.NetworkFailure?
              || (!IsOk(up.status) && !CanCarryBody(up.status))
              || (IsOk(up.status) && up.payload.None?)
    ensures r.Value? ==> CanCarryBody(r.value.status)
    ensures r.Value? && r.value.status != 200 ==> IsErrorBody(r.value.body)
    ensures r.Value? && r.value.status == 200 ==> up.Reply? && up.payload == Some(r.value.body)
  {
    if up.NetworkFailure? then Thrown
    else if !IsOk(up.status) then JsonResponse(ErrorBody(UpstreamFailed), up.status)
    else
      var data :- ReadJson(up.payload);
      Value(Response(200, data))
  }

  /** The second phase with its `catch`. */
  function Settle(up: Upstream): (r: Response)
    ensures CanCarryBody(r.status)
    ensures r.status != 200 ==> IsErrorBody(r.body)
    ensures r.status == 200 ==> up.Reply? && up.payload == Some(r.body)
  {
    match Attempt(up)
    case Value(r) => r
    case Thrown => Response(500, ErrorBody(ServerError))
  }

  /** The handler: every response has a status `Response.json` accepts; a 200 forwards
      JokeAPI's body for a valid category, anything else is an `{ error }` body. */
  function Handle(q: Query, up: Upstream): (r: Response)
    ensures CanCarryBody(r.status)
    ensures r.status != 200 ==> IsErrorBody(r.body)
    ensures r.status == 200 ==>
              Category(q) in Categories && up.Reply? && up.payload == Some(r.body)
  {
    match Plan(q)
    case Answer(r) => r
    case Call(_, _) => Settle(up)
  }

  // ----- The category -----

  /** The message lists the six categories in order, separated by `", "`. */
  lemma InvalidCategoryText()
    ensures InvalidCategory() ==
            "Invalid category. Use one of: " + "Any" + ", " + "Programming" + ", " +
            "Miscellaneous" + ", " + "Pun" + ", " + "Spooky" + ", " + "Christmas"
  {
    assert Categories[1..][1..][1..][1..][1..] == ["Christmas"];
  }

  /** With no category, or an empty one, the request is for `Any`. */
  lemma DefaultsToAny(q: Query)
    requires !Present(Get(q, "category"))
    ensures Plan(q) == Call(JokeUrl("Any"), ())
  {
  }

  /** A category outside the list, compared exactly (so `programming` is refused), gives 400
      whatever the upstream would say. */
  lemma InvalidCategoryRejected(q: Query, up: Upstream)
    requires Present(Get(q, "category")) && Get(q, "category").value !in Categories
    ensures Handle(q, up) == Response(400, ErrorBody(InvalidCategory()))
  {
  }

  /** The upstream is asked exactly when the effective category is in the list: there is
      no credential to check. */
  lemma CallIffValid(q: Query)
    ensures Plan(q).Call? <==> Category(q) in Categories
    ensures Plan(q).Call? ==> Plan(q).url == JokeUrl(Category(q))
  {
  }

  /** Lower-case spelling of a category is refused. */
  lemma CaseSensitive(up: Upstream)
    ensures Handle([("category", "programming")], up) == Response(400, ErrorBody(InvalidCategory()))
  {
    var q := [("category", "programming")];
    assert Get(q, "category") == Some("programming");
    assert "programming"[0] != "Programming"[0];
  }

  // ----- Upstream outcomes -----

  /** A non-ok status is passed on with a fixed message (or is a 500 when `Response.json`
      refuses it). */
  lemma UpstreamStatusPassedOn(status: int, payload: Option<Json>)
    requires !IsOk(status)
    ensures Settle(Reply(status, payload)) ==
            if CanCarryBody(status) then Response(status, ErrorBody(UpstreamFailed))
            else Response(500, ErrorBody(ServerError))
  {
  }

  /** An ok JSON body is forwarded unchanged with status 200. */
  lemma ForwardedUnchanged(status: int, data: Json)
    requires IsOk(status)
    ensures Settle(Reply(status, Some(data))) == Response(200, data)
  {
  }

  /** A failed `fetch` or a body that is not JSON gives 500 with this handler's own
      message, which differs from its other two messages. */
  lemma ThrowsAreServerError(up: Upstream)
    requires up.NetworkFailure? || (IsOk(up.status) && up.payload.None?)
    ensures Settle(up) == Response(500, ErrorBody(ServerError))
    ensures ServerError != UpstreamFailed && ServerError != InvalidCategory()
  {
    assert ServerError[0] != InvalidCategory()[0];
  }
}
