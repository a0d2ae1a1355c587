/**
 * The dashboard endpoint: `DashboardHandler` routes GET requests to
 * `DashboardFunc`, which reads the dashboard identifier off the path, looks
 * the registration up, gathers country data, coordinates, weather and
 * exchange rates, and shows the fields the registration switched on.
 *
 * Every outbound request is an oracle from its URL to what `fetchURLdata`
 * obtained. Numbers are copied, never computed with, so they are `real`s;
 * `floatFormat` is a given function `format`, and the hourly averages of
 * the weather request arrive already averaged.
 */
module Dashboard {
  import opened Text
  import opened Http
  import Registration

  // ---------------------------------------------------------------------------
  // DashboardHandler

  /** Where `DashboardHandler` sends a request. */
  datatype DashboardRoute = Show | Refused(w: Writer)

  function RouteDashboard(verb: string): DashboardRoute {
    if verb == "GET" then Show
    else Refused(Error(Fresh, "Method " + verb + " not supported.", StatusMethodNotAllowed))
  }

  /** Only GET reaches `DashboardFunc`; every other method is a 405 naming it. */
  lemma RouteDashboardTable(verb: string)
    ensures RouteDashboard(verb) == Show <==> verb == "GET"
    ensures verb != "GET" ==>
      RouteDashboard(verb) == Refused(Writer(true, StatusMethodNotAllowed, "Method " + verb + " not supported.\n"))
  {
  }

  /** The refusals the handler test expects for POST and HEAD. */
  lemma RouteDashboardExamples()
    ensures RouteDashboard("POST") == Refused(Writer(true, StatusMethodNotAllowed, "Method POST not supported.\n"))
    ensures RouteDashboard("HEAD").Refused? && RouteDashboard("HEAD").w.status == StatusMethodNotAllowed
  {
  }

  // ---------------------------------------------------------------------------
  // The stored dashboard, as `DataTo` reads it into `Recieved_Dashboard`

  datatype Switches = Switches(temperature: bool, precipitation: bool, capital: bool, coordinates: bool,
                               population: bool, area: bool, targetCurrencies: seq<string>)

  datatype Stored = Stored(id: string, country: string, isoCode: string, features: Switches)

  /** The identifier of a stored dashboard, the key of the collection's queries. */
  function StoredId(d: Stored): string {
    d.id
  }

  function StoredIds(store: seq<Stored>): set<string> {
    KeySet(store, StoredId)
  }

  // ---------------------------------------------------------------------------
  // The dashboard identifier

  /**
   * The identifier is what follows the first `len(DASHBOARD_PATH)` characters
   * of the path; the prefix itself is not compared. A shorter path is a slice
   * out of range.
   */
  function DashboardId(path: string): (id: Option<string>)
    ensures id.Some? <==> |path| >= |DashboardPath|
    ensures id.Some? ==> |id.value| == |path| - |DashboardPath| && path == path[..|DashboardPath|] + id.value
  {
    if |path| < |DashboardPath| then None else Some(path[|DashboardPath|..])
  }

  /** Under the dashboards path, the identifier is the rest of the path. */
  lemma DashboardIdUnderPath(id: string)
    ensures DashboardId(DashboardPath + id) == Some(id)
  {
    assert (DashboardPath + id)[|DashboardPath|..] == id;
  }

  // ---------------------------------------------------------------------------
  // retrieveCountryData

  /**
   * The fields of a country record that `retrieveCountryData` decodes; the
   * currency map is given by its keys, in the order a `range` over it visits them.
   */
  datatype CountryData = CountryData(population: int, capital: seq<string>, currencies: seq<string>, area: real)

  /** The first capital of the last record that lists one, or "". */
  function LastCapital(found: seq<CountryData>): string
    decreases |found|
  {
    if |found| == 0 then ""
    else if |found[|found| - 1].capital| > 0 then found[|found| - 1].capital[0]
    else LastCapital(found[..|found| - 1])
  }

  /** The first currency of the last record that has one, or "". */
  function LastCurrency(found: seq<CountryData>): string
    decreases |found|
  {
    if |found| == 0 then ""
    else if |found[|found| - 1].currencies| > 0 then found[|found| - 1].currencies[0]
    else LastCurrency(found[..|found| - 1])
  }

  /** What `retrieveCountryData` returns: population, capital, currency and area. */
  datatype CountryPick = CountryPick(population: int, capital: string, currency: string, area: real)

  function PickCountry(found: seq<CountryData>): CountryPick {
    CountryPick(if |found| == 0 then 0 else found[|found| - 1].population,
                LastCapital(found), LastCurrency(found),
                if |found| == 0 then 0.0 else found[|found| - 1].area)
  }

  /**
   * The selection rule: population and area come from the last record, the
   * capital from the last record whose capital list is not empty; an empty
   * result gives 0, "" and 0.
   */
  lemma {:induction false} PickCountrySpec(found: seq<CountryData>)
    ensures |found| == 0 ==> PickCountry(found) == CountryPick(0, "", "", 0.0)
    ensures |found| > 0 ==> PickCountry(found).population == found[|found| - 1].population
    ensures |found| > 0 ==> PickCountry(found).area == found[|found| - 1].area
    ensures (forall k :: 0 <= k < |found| ==> |found[k].capital| == 0) ==> PickCountry(found).capital == ""
    ensures (exists k :: 0 <= k < |found| && |found[k].capital| > 0) ==>
      exists k :: 0 <= k < |found| && |found[k].capital| > 0 && PickCountry(found).capital == found[k].capital[0]
        && forall j :: k < j < |found| ==> |found[j].capital| == 0
    decreases |found|
  {
    if |found| > 0 && |found[|found| - 1].capital| == 0 {
      var front := found[..|found| - 1];
      PickCountrySpec(front);
      assert forall k :: 0 <= k < |front| ==> front[k] == found[k];
      if exists k :: 0 <= k < |found| && |found[k].capital| > 0 {
        var k :| 0 <= k < |found| && |found[k].capital| > 0;
        assert k < |front| && |front[k].capital| > 0;
      }
    }
  }

  /** The loop of `retrieveCountryData` over the decoded records, each overwriting what the previous one set. */
  method RetrieveCountryLoop(found: seq<CountryData>)
    returns (myPopulation: int, myCapital: string, myCurrency: string, myArea: real)
    ensures CountryPick(myPopulation, myCapital, myCurrency, myArea) == PickCountry(found)
  {
    myCurrency, myCapital := "", "";
    myPopulation := 0;
    myArea := 0.0;
    for i := 0 to |found|
      invariant CountryPick(myPopulation, myCapital, myCurrency, myArea) == PickCountry(found[..i])
    {
      var country := found[i];
      assert found[..i + 1][..i] == found[..i];
      myPopulation := country.population;
      myArea := country.area;
      // the capital loop stops after its first element
      if |country.capital| > 0 {
        myCapital := country.capital[0];
      }
      // so does the currency loop
      if |country.currencies| > 0 {
        myCurrency := country.currencies[0];
      }
    }
    assert found[..|found|] == found;
  }

  /** The URL `retrieveCountryData` builds: `apiURL + "name/"` and the escaped country. */
  function CountryDataUrlAsWritten(apiUrl: string, country: string): string {
    apiUrl + "name/" + QueryEscape(country)
  }

  /**
   * Called with the countries API root, which has no trailing slash, the
   * URL glues "name" onto the version segment: it is never the name lookup
   * the registration made, and not even under the name endpoint.
   */
  lemma CountryDataUrlMissesSlash(country: string)
    ensures CountryDataUrlAsWritten(CountriesApi, country) == "http://129.241.150.113:8080/v3.1name/" + QueryEscape(country)
    ensures !HasPrefix(CountryDataUrlAsWritten(CountriesApi, country), CountriesApiName)
    ensures CountryDataUrlAsWritten(CountriesApi, country) != Registration.NameUrl(country)
  {
    var u := CountryDataUrlAsWritten(CountriesApi, country);
    assert u[|CountriesApi|] == 'n';
    assert CountriesApiName[|CountriesApi|] == '/';
    assert Registration.NameUrl(country)[|CountriesApi|] == '/';
  }

  /** The intended URL: the name endpoint of the countries API. */
  function CountryDataUrl(country: string): (url: string)
    ensures HasPrefix(url, CountriesApiName)
    ensures '/' !in url[|CountriesApiName|..]
  {
    QueryEscapeSafe(country);
    var url := CountriesApiName + QueryEscape(country);
    assert url[|CountriesApiName|..] == QueryEscape(country);
    url
  }

  /** The dashboard then asks for its country the same URL the registration's name lookup asked. */
  lemma CountryDataUrlIsNameLookup(country: string)
    ensures CountryDataUrl(country) == Registration.NameUrl(country)
  {
  }

  // ---------------------------------------------------------------------------
  // The target currencies

  /** A rate read from the fetched map; a missing currency reads as zero. */
  function RateOrZero(rates: map<string, real>, currency: string): real {
    if currency in rates then rates[currency] else 0.0
  }

  /** The map of requested currencies: each to its rate. */
  function Projected(targets: seq<string>, rates: map<string, real>): map<string, real> {
    map t | t in targets :: RateOrZero(rates, t)
  }

  /** The loop filling `c`: one entry per requested currency, repeated ones only once. */
  method ProjectRates(targets: seq<string>, currencyRates: map<string, real>) returns (c: map<string, real>)
    ensures c.Keys == set t | t in targets
    ensures forall t :: t in c ==> c[t] == RateOrZero(currencyRates, t)
  {
    c := map[];
    for i := 0 to |targets|
      invariant c.Keys == set t | t in targets[..i]
      invariant forall t :: t in c ==> c[t] == RateOrZero(currencyRates, t)
    {
      assert targets[..i + 1] == targets[..i] + [targets[i]];
      c := c[targets[i] := RateOrZero(currencyRates, targets[i])];
    }
    assert targets[..|targets|] == targets;
  }

  /** A map with exactly the requested keys, each at its rate, is the projection. */
  lemma ProjectedUnique(targets: seq<string>, rates: map<string, real>, c: map<string, real>)
    requires c.Keys == set t | t in targets
    requires forall t :: t in c ==> c[t] == RateOrZero(rates, t)
    ensures c == Projected(targets, rates)
  {
    var p := Projected(targets, rates);
    assert c.Keys == p.Keys;
    forall t | t in c ensures c[t] == p[t] {
    }
  }

  /** Asking for currencies the rates lack gives zeros; a repeated request gives one key. */
  lemma ProjectedExamples(rates: map<string, real>)
    requires "NOK" in rates && "EUR" !in rates
    ensures Projected(["NOK", "EUR", "NOK"], rates) == map["NOK" := rates["NOK"], "EUR" := 0.0]
  {
    var p := Projected(["NOK", "EUR", "NOK"], rates);
    assert "NOK" in p && "EUR" in p;
    assert p.Keys == {"NOK", "EUR"};
  }

  // ---------------------------------------------------------------------------
  // OutputDashboardWithData

  datatype Coordinates = Coordinates(latitude: real, longitude: real)

  /** The hourly averages `retrieveWeather` computes. */
  datatype Weather = Weather(temperature: real, precipitation: real)

  datatype OutputFeatures = OutputFeatures(temperature: real, precipitation: real, capital: string,
                                           coordinates: Coordinates, population: int, area: real,
                                           targetCurrencies: map<string, real>)

  datatype OutputDashboard = OutputDashboard(country: string, isoCode: string, features: OutputFeatures,
                                             lastRetrieval: string)

  /** The zero value of the result struct. */
  const NoFeatures: OutputFeatures := OutputFeatures(0.0, 0.0, "", Coordinates(0.0, 0.0), 0, 0.0, map[])
  const Blank: OutputDashboard := OutputDashboard("", "", NoFeatures, "")

  /** A field that is shown when its switch is on and keeps its zero value otherwise. */
  function Gate<T>(on: bool, value: T, zero: T): T {
    if on then value else zero
  }

  /** The result `DashboardFunc` encodes, for the stored dashboard `d` and the data gathered for it. */
  function Shown(d: Stored, pick: CountryPick, coords: Coordinates, weather: Weather, c: map<string, real>,
                 format: real -> real, now: string): OutputDashboard
  {
    var f := d.features;
    OutputDashboard(d.country, d.isoCode,
      OutputFeatures(Gate(f.temperature, format(weather.temperature), 0.0),
                     Gate(f.precipitation, format(weather.precipitation), 0.0),
                     Gate(f.capital, pick.capital, ""),
                     Gate(f.coordinates, Coordinates(format(coords.latitude), format(coords.longitude)), Coordinates(0.0, 0.0)),
                     Gate(f.population, pick.population, 0),
                     Gate(f.area, format(pick.area), 0.0),
                     c),
      now)
  }

  /**
   * The assignments of `DashboardFunc` before the exchange rates: country and
   * ISO code copied, then each feature set only when its switch is on.
   */
  method AssembleGated(d: Stored, pick: CountryPick, coords: Coordinates, weather: Weather, format: real -> real)
    returns (result: OutputDashboard)
    ensures result == Shown(d, pick, coords, weather, map[], format, "")
  {
    result := Blank;
    result := result.(country := d.country);
    result := result.(isoCode := d.isoCode);
    if d.features.temperature {
      result := result.(features := result.features.(temperature := format(weather.temperature)));
    }
    if d.features.precipitation {
      result := result.(features := result.features.(precipitation := format(weather.precipitation)));
    }
    if d.features.capital {
      result := result.(features := result.features.(capital := pick.capital));
    }
    if d.features.coordinates {
      var longitude := format(coords.longitude);
      var latitude := format(coords.latitude);
      result := result.(features := result.features.(coordinates := Coordinates(latitude, longitude)));
    }
    if d.features.area {
      result := result.(features := result.features.(area := format(pick.area)));
    }
    if d.features.population {
      result := result.(features := result.features.(population := pick.population));
    }
  }

  /**
   * Country and ISO code are the stored ones, and the requested currencies are
   * the keys; each other feature is its gathered value when its switch is on
   * and keeps its zero value when it is off, so with every switch off only
   * the currencies remain.
   */
  lemma ShownCopiesAndGates(d: Stored, pick: CountryPick, coords: Coordinates, weather: Weather,
                            c: map<string, real>, format: real -> real, now: string)
    ensures var r := Shown(d, pick, coords, weather, c, format, now);
      r.country == d.country && r.isoCode == d.isoCode && r.lastRetrieval == now && r.features.targetCurrencies == c
    ensures var r := Shown(d, pick, coords, weather, c, format, now);
      && (r.features.capital == if d.features.capital then pick.capital else "")
      && (r.features.population == if d.features.population then pick.population else 0)
      && (r.features.temperature == if d.features.temperature then format(weather.temperature) else 0.0)
      && (r.features.precipitation == if d.features.precipitation then format(weather.precipitation) else 0.0)
      && (r.features.coordinates ==
            if d.features.coordinates then Coordinates(format(coords.latitude), format(coords.longitude))
            else Coordinates(0.0, 0.0))
      && (r.features.area == if d.features.area then format(pick.area) else 0.0)
    ensures var f := d.features;
      !f.temperature && !f.precipitation && !f.capital && !f.coordinates && !f.population && !f.area ==>
        Shown(d, pick, coords, weather, c, format, now).features == NoFeatures.(targetCurrencies := c)
  {
  }

  /**
   * Data behind a switched-off field never reaches the output: two sets of
   * gathered data that agree on every switched-on field give the same result.
   */
  lemma ShownIgnoresSwitchedOff(d: Stored, p1: CountryPick, p2: CountryPick, c1: Coordinates, c2: Coordinates,
                                w1: Weather, w2: Weather, c: map<string, real>, format: real -> real, now: string)
    requires d.features.temperature ==> w1.temperature == w2.temperature
    requires d.features.precipitation ==> w1.precipitation == w2.precipitation
    requires d.features.capital ==> p1.capital == p2.capital
    requires d.features.coordinates ==> c1 == c2
    requires d.features.population ==> p1.population == p2.population
    requires d.features.area ==> p1.area == p2.area
    ensures Shown(d, p1, c1, w1, c, format, now) == Shown(d, p2, c2, w2, c, format, now)
  {
  }

  // ---------------------------------------------------------------------------
  // DashboardFunc

  /**
   * The outside services: the countries, geocoding, forecast and currency
   * requests, each from URL to what was obtained. The geocoding root is not
   * part of this model and is a given string; the forecast URL is built from
   * formatted coordinates and is a given function of them.
   */
  datatype Services = Services(
    countries: string -> Fetch<seq<CountryData>>,
    geocodingApi: string,
    geocoding: string -> Fetch<seq<Coordinates>>,
    forecastUrl: Coordinates -> string,
    forecast: string -> Fetch<Weather>,
    rates: string -> Fetch<map<string, real>>,
    format: real -> real,
    now: string)

  /** How `DashboardFunc` ended: the result it encodes, a reply without one, or a panic. */
  datatype DashboardOutcome = Displayed(result: OutputDashboard) | Answered(w: Writer) | Crashed

  /** The coordinates `retrieveCoordinates` returns: those of its last result, or zeros. */
  function LastCoordinates(results: seq<Coordinates>): Coordinates {
    if |results| == 0 then Coordinates(0.0, 0.0) else results[|results| - 1]
  }

  function GeocodingUrl(s: Services, capital: string): string {
    s.geocodingApi + QueryEscape(capital) + "&count=1"
  }

  /**
   * `DashboardFunc` for the path `path` over the Dashboard collection
   * `store`: `queryFails` is a failing query, `dataFails` a document that
   * does not decode. `apiUrl` is the root handed to `retrieveCountryData`:
   * the handler passes `CountriesApi`; `DashboardFixed` passes it with the
   * missing slash.
   */
  function DashboardFor(apiUrl: string, path: string, store: seq<Stored>, queryFails: bool, dataFails: bool,
                        s: Services): DashboardOutcome {
    match DashboardId(path)
    case None => Crashed
    case Some(myId) =>
      if |myId| == 0 then Answered(Fresh)
      else if queryFails then Answered(Error(Fresh, "Error retrieving document", StatusInternalServerError))
      else if myId !in StoredIds(store) then Answered(Error(Fresh, "Document with ID " + myId + " not found", StatusNotFound))
      else if dataFails then Answered(Error(Fresh, "Error retrieving document data", StatusInternalServerError))
      else
        var d := store[FirstKeyed(store, StoredId, myId)];
        var url := CountryDataUrlAsWritten(apiUrl, d.country);
        match s.countries(url)
        case Failed(e) => Answered(FetchFailed(Fresh, url, e))
        case Fetched(found) =>
          var pick := PickCountry(found);
          var geoUrl := GeocodingUrl(s, pick.capital);
          match s.geocoding(geoUrl)
          case Failed(e) => Answered(Error(FetchFailed(Fresh, geoUrl, e), "Failed to retrieve coordinates", StatusInternalServerError))
          case Fetched(results) =>
            var coords := LastCoordinates(results);
            var weatherUrl := s.forecastUrl(coords);
            match s.forecast(weatherUrl)
            case Failed(e) => Answered(FetchFailed(Fresh, weatherUrl, e))
            case Fetched(weather) =>
              var ratesUrl := CurrencyApi + pick.currency;
              match s.rates(ratesUrl)
              case Failed(e) => Answered(FetchFailed(Fresh, ratesUrl, e))
              case Fetched(rates) =>
                Displayed(Shown(d, pick, coords, weather, Projected(d.features.targetCurrencies, rates), s.format, s.now))
  }

  /** The handler with the country URL corrected to the name endpoint. */
  function DashboardFixed(path: string, store: seq<Stored>, queryFails: bool, dataFails: bool, s: Services): DashboardOutcome {
    DashboardFor(CountriesApi + "/", path, store, queryFails, dataFails, s)
  }

  /** `DashboardFunc`, step by step, with the country URL it builds. */
  method DashboardFunc(path: string, store: seq<Stored>, queryFails: bool, dataFails: bool, s: Services)
    returns (out: DashboardOutcome)
    ensures out == DashboardFor(CountriesApi, path, store, queryFails, dataFails, s)
  {
    if |path| < |DashboardPath| {
      return Crashed;
    }
    var myId := path[|DashboardPath|..];
    if |myId| == 0 {
      return Answered(Fresh);
    }
    if queryFails {
      return Answered(Error(Fresh, "Error retrieving document", StatusInternalServerError));
    }
    if myId !in StoredIds(store) {
      return Answered(Error(Fresh, "Document with ID " + myId + " not found", StatusNotFound));
    }
    if dataFails {
      return Answered(Error(Fresh, "Error retrieving document data", StatusInternalServerError));
    }
    var myObject := store[FirstKeyed(store, StoredId, myId)];
    var url := CountryDataUrlAsWritten(CountriesApi, myObject.country);
    var chosenCountry := s.countries(url);
    if chosenCountry.Failed? {
      return Answered(FetchFailed(Fresh, url, chosenCountry.error));
    }
    var population, capital, countryCurrency, area := RetrieveCountryLoop(chosenCountry.value);
    var pick := CountryPick(population, capital, countryCurrency, area);
    var geoUrl := GeocodingUrl(s, capital);
    var located := s.geocoding(geoUrl);
    if located.Failed? {
      return Answered(Error(FetchFailed(Fresh, geoUrl, located.error), "Failed to retrieve coordinates", StatusInternalServerError));
    }
    var coords := LastCoordinates(located.value);
    var weatherUrl := s.forecastUrl(coords);
    var weather := s.forecast(weatherUrl);
    if weather.Failed? {
      return Answered(FetchFailed(Fresh, weatherUrl, weather.error));
    }
    var result := AssembleGated(myObject, pick, coords, weather.value, s.format);
    var ratesUrl := CurrencyApi + countryCurrency;
    var currencyRates := s.rates(ratesUrl);
    if currencyRates.Failed? {
      return Answered(FetchFailed(Fresh, ratesUrl, currencyRates.error));
    }
    var c := ProjectRates(myObject.features.targetCurrencies, currencyRates.value);
    ProjectedUnique(myObject.features.targetCurrencies, currencyRates.value, c);
    result := result.(features := result.features.(targetCurrencies := c));
    result := result.(lastRetrieval := s.now);
    out := Displayed(result);
  }

  /** A GET of the bare dashboards path writes nothing, so the client sees 200 and an empty body. */
  lemma DashboardWithoutId(apiUrl: string, store: seq<Stored>, queryFails: bool, dataFails: bool, s: Services)
    ensures DashboardFor(apiUrl, DashboardPath, store, queryFails, dataFails, s) == Answered(Writer(false, StatusOK, ""))
  {
    assert DashboardPath[|DashboardPath|..] == "";
  }

  /** A path shorter than the dashboards path panics on the slice. */
  lemma DashboardShortPath(apiUrl: string, path: string, store: seq<Stored>, queryFails: bool, dataFails: bool, s: Services)
    requires |path| < |DashboardPath|
    ensures DashboardFor(apiUrl, path, store, queryFails, dataFails, s) == Crashed
  {
  }

  /**
   * Under the dashboards path with an identifier, a working store that holds
   * no document carrying it answers 404 naming it; and a displayed dashboard
   * is the first stored document with that identifier, its requested
   * currencies exactly the keys of the output map.
   */
  lemma DashboardLooksUpId(apiUrl: string, id: string, store: seq<Stored>, dataFails: bool, s: Services)
    requires id != ""
    ensures id !in StoredIds(store) ==>
      DashboardFor(apiUrl, DashboardPath + id, store, false, dataFails, s) ==
        Answered(Writer(true, StatusNotFound, "Document with ID " + id + " not found\n"))
    ensures var out := DashboardFor(apiUrl, DashboardPath + id, store, false, dataFails, s);
      out.Displayed? ==>
        && id in StoredIds(store) && !dataFails
        && var d := store[FirstKeyed(store, StoredId, id)];
        && out.result.country == d.country && out.result.isoCode == d.isoCode
        && out.result.features.targetCurrencies.Keys == set t | t in d.features.targetCurrencies
        && out.result.lastRetrieval == s.now
  {
    DashboardIdUnderPath(id);
  }

  /**
   * The handler as written asks the countries service for ".../v3.1name/"
   * and the escaped country, and a failure of that request names this URL
   * in its 500.
   */
  lemma DashboardAsksGluedUrl(id: string, store: seq<Stored>, s: Services)
    requires id != "" && id in StoredIds(store)
    ensures var d := store[FirstKeyed(store, StoredId, id)];
      var url := "http://129.241.150.113:8080/v3.1name/" + QueryEscape(d.country);
      s.countries(url).Failed? ==>
        DashboardFor(CountriesApi, DashboardPath + id, store, false, false, s) ==
          Answered(FetchFailed(Fresh, url, s.countries(url).error))
  {
    DashboardIdUnderPath(id);
    CountryDataUrlMissesSlash(store[FirstKeyed(store, StoredId, id)].country);
  }

  /** The corrected root gives the corrected URL. */
  lemma FixedRootIsNameEndpoint(country: string)
    ensures CountryDataUrlAsWritten(CountriesApi + "/", country) == CountryDataUrl(country)
  {
    assert CountriesApi + "/" + "name/" == CountriesApiName;
  }

  /**
   * The corrected handler asks for the country the URL the registration's
   * name lookup asked, and a failure names that URL in its 500.
   */
  lemma DashboardFixedAsksNameLookup(id: string, store: seq<Stored>, s: Services)
    requires id != "" && id in StoredIds(store)
    ensures var url := Registration.NameUrl(store[FirstKeyed(store, StoredId, id)].country);
      s.countries(url).Failed? ==>
        DashboardFixed(DashboardPath + id, store, false, false, s) == Answered(FetchFailed(Fresh, url, s.countries(url).error))
  {
    DashboardIdUnderPath(id);
    var c := store[FirstKeyed(store, StoredId, id)].country;
    FixedRootIsNameEndpoint(c);
    CountryDataUrlIsNameLookup(c);
  }
}
