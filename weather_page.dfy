/** The weather page of the weather project: the icon shown for a weather description, and
    the start of a search (the guard against a blank query and the state set before the
    request to `/api/weather`). */
module WeatherPage {
  import opened Text
  import opened JsValues
  import opened Http

  // ----- Icons -----

  const Sunny := "\U{2600}\U{FE0F}"
  const PartlyCloudy := "\U{26C5}"
  const Cloudy := "\U{2601}\U{FE0F}"
  const Rainy := "\U{1F327}"
  const Stormy := "\U{26C8}"
  const Snowy := "\U{2744}\U{FE0F}"
  const Foggy := "\U{1F32B}"
  const Fair := "\U{1F324}"

  const Icons: set<string> := {Sunny, PartlyCloudy, Cloudy, Rainy, Stormy, Snowy, Foggy, Fair}

  /** The keyword tests on the lower-cased description, first match wins. */
  function Classify(d: string): (icon: string)
    ensures icon in Icons
  {
    if Contains(d, "clear") then Sunny
    else if Contains(d, "cloud") && Contains(d, "scatter") then PartlyCloudy
    else if Contains(d, "cloud") then Cloudy
    else if Contains(d, "rain") || Contains(d, "drizzle") then Rainy
    else if Contains(d, "thunder") then Stormy
    else if Contains(d, "snow") then Snowy
    else if Contains(d, "mist") || Contains(d, "fog") || Contains(d, "haze") then Foggy
    else Fair
  }

  /** `getIcon(description)`: an absent (or empty) description is read as `""`, and the
      text is lower-cased before the keyword tests. The icon is one of the eight, and the
      fair-weather one exactly when no deciding keyword occurs. */
  function GetIcon(description: Option<string>): (icon: string)
    ensures icon in Icons
    ensures icon == Fair <==>
              !HasKeyword(Lower(if description.Some? then description.value else ""))
  {
    var d := if description.Some? then description.value else "";
    Classify(Lower(d))
  }

  /** Whether the lower-cased text holds any of the keywords that choose an icon on their
      own (`scatter` only matters together with `cloud`). */
  predicate HasKeyword(d: string) {
    || Contains(d, "clear") || Contains(d, "cloud")
    || Contains(d, "rain") || Contains(d, "drizzle") || Contains(d, "thunder")
    || Contains(d, "snow") || Contains(d, "mist") || Contains(d, "fog") || Contains(d, "haze")
  }

  /** The icon is always one of the eight. */
  lemma IconIsOneOfEight(description: Option<string>)
    ensures GetIcon(description) in Icons
  {
  }

  /** The icon does not depend on letter case, and an absent description is the empty one. */
  lemma CaseInsensitive(s: string)
    ensures GetIcon(Some(s)) == GetIcon(Some(Lower(s)))
    ensures GetIcon(None) == GetIcon(Some("")) == Fair
  {
    LowerIdempotent(s);
    NoKeywordInEmpty();
  }

  lemma NoKeywordInEmpty()
    ensures !HasKeyword(Lower(""))
  {
    assert Lower("") == "";
  }

  /** `clear` wins over every other keyword. */
  lemma ClearFirst(s: string)
    requires Contains(Lower(s), "clear")
    ensures GetIcon(Some(s)) == Sunny
  {
  }

  /** Without `clear`, `cloud` with `scatter` is partly cloudy and `cloud` without it is
      cloudy, whatever else the text holds. */
  lemma CloudsNext(s: string)
    requires !Contains(Lower(s), "clear") && Contains(Lower(s), "cloud")
    ensures GetIcon(Some(s)) == if Contains(Lower(s), "scatter") then PartlyCloudy else Cloudy
  {
  }

  /** Without `clear` and `cloud`, `rain` or `drizzle` wins over `thunder`. */
  lemma RainBeforeThunder(s: string)
    requires !Contains(Lower(s), "clear") && !Contains(Lower(s), "cloud")
    requires Contains(Lower(s), "rain") || Contains(Lower(s), "drizzle")
    ensures GetIcon(Some(s)) == Rainy
  {
  }

  /** Among the later keywords the order is `thunder`, `snow`, then `mist`/`fog`/`haze`. */
  lemma SnowBeforeMist(s: string)
    requires var d := Lower(s);
             && !Contains(d, "clear") && !Contains(d, "cloud")
             && !Contains(d, "rain") && !Contains(d, "drizzle")
    ensures var d := Lower(s);
            GetIcon(Some(s)) ==
              if Contains(d, "thunder") then Stormy
              else if Contains(d, "snow") then Snowy
              else if Contains(d, "mist") || Contains(d, "fog") || Contains(d, "haze") then Foggy
              else Fair
  {
  }

  /** The fair-weather icon is the answer exactly when no keyword occurs. */
  lemma FairIffNoKeyword(s: string)
    ensures GetIcon(Some(s)) == Fair <==> !HasKeyword(Lower(s))
  {
  }

  /** `"Light Rain"` shows the rain icon. */
  lemma LightRainExample()
    ensures GetIcon(Some("Light Rain")) == Rainy
  {
    assert Lower("Light Rain") == "light rain";
    ContainsAt("light rain", "rain", 6);
    MissingChar("light rain", "clear", 0);
    MissingChar("light rain", "cloud", 0);
  }

  /** `"Few Clouds"` shows the cloudy icon: there is no `scatter` to make it partly cloudy. */
  lemma FewCloudsExample()
    ensures GetIcon(Some("Few Clouds")) == Cloudy
  {
    FewCloudsLower();
    FewCloudsKeywords();
  }

  lemma FewCloudsLower()
    ensures Lower("Few Clouds") == "few clouds"
  {
    var l := Lower("Few Clouds");
    assert l[0] == 'f' && l[4] == 'c';
  }

  lemma FewCloudsKeywords()
    ensures Classify("few clouds") == Cloudy
  {
    ContainsAt("few clouds", "cloud", 4);
    FewCloudsMisses();
  }

  lemma FewCloudsMisses()
    ensures !Contains("few clouds", "clear") && !Contains("few clouds", "scatter")
  {
    MissingChar("few clouds", "clear", 3);
    MissingChar("few clouds", "scatter", 2);
  }

  // ----- The start of `search` -----

  /** `c || city`: the argument when it is a non-empty string, the typed city otherwise. */
  function EffectiveQuery(c: Option<string>, city: string): string {
    if Present(c) then c.value else city
  }

  /** The request the page sends for a query. */
  function SearchUrl(q: string): Url {
    [Text("/api/weather?city="), UriComponent(q)]
  }

  /** The page state that `search` sets before its request. */
  class Page {
    var city: string
    var loading: bool
    var error: string
    var weather: Option<Json>

    /** The initial state: empty input, not loading, no error, no report. */
    constructor ()
      ensures city == "" && !loading && error == "" && weather.None?
    {
      city := "";
      loading := false;
      error := "";
      weather := None;
    }

    /** `search(c)` up to its `fetch`: a query that is empty or all white space returns at
        once, with no request and no state changed; any other query becomes the city, the
        page shows loading with no error and no report, and the request for it is made. */
    method BeginSearch(c: Option<string>) returns (request: Option<Url>)
      modifies this
      ensures var q := EffectiveQuery(c, old(city));
              && (request.None? <==> AllSpaces(q))
              && (AllSpaces(q) ==>
                    city == old(city) && loading == old(loading)
                    && error == old(error) && weather == old(weather))
              && (!AllSpaces(q) ==>
                    city == q && loading && error == "" && weather.None?
                    && request == Some(SearchUrl(q)))
    {
      var q := EffectiveQuery(c, city);
      TrimEmptyIff(q);
      if Trim(q) == [] {
        return None;
      }
      city := q;
      loading := true;
      error := "";
      weather := None;
      request := Some(SearchUrl(q));
    }
  }
}
