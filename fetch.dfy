/**
 * The request side of forecaster/forecast.py: the three query URLs and
 * `api_request`, whose HTTP exchange is taken as a parameter.
 */
module Fetch {
  import opened Wrappers
  import opened Text
  import opened UrlParse

  const BaseUrl := "https://api.data.gov.my/data-catalogue"
  const FailureMessage := "API request failed, see logs for more details."

  /** One flat JSON object of the response, each value as it is interpolated into text. */
  type Record = map<string, string>

  /** The body of a response: a JSON array of flat objects, or anything `response.json()` rejects. */
  datatype Body = JsonArray(rows: seq<Record>) | NotJson

  /** What the single GET ends in: a response, a refused connection, or another exception (a timeout, say). */
  datatype Exchange = Response(status: int, body: Body) | ConnectError | OtherError

  /** What `api_request` returns: the parsed array, or the dict `{ok: False, message, url}`. */
  datatype FetchResult = Records(rows: seq<Record>) | Failure(message: string, url: string)

  /** A status `response.raise_for_status()` lets through. */
  predicate IsSuccess(status: int) { 200 <= status < 300 }

  /**
   * `api_request(url)`: every raised error (status, connection, or any other,
   * such as a body that is not JSON) is caught and turned into the failure marker.
   */
  function ApiRequest(url: string, exchange: Exchange): (r: FetchResult)
    ensures r.Records? <==> exchange.Response? && IsSuccess(exchange.status) && exchange.body.JsonArray?
    ensures r.Records? ==> r.rows == exchange.body.rows
    ensures r.Failure? ==> r.message == FailureMessage && r.url == url
  {
    match exchange
    case Response(status, body) =>
      if !IsSuccess(status) then Failure(FailureMessage, url)
      else if body.NotJson? then Failure(FailureMessage, url)
      else Records(body.rows)
    case ConnectError => Failure(FailureMessage, url)
    case OtherError => Failure(FailureMessage, url)
  }

  /** The query of `population_by_state_and_district`. */
  function PopulationUrl(state: string, district: string): string
  {
    BaseUrl + "?id=population_district&icontains=" + Quote(Lower(state))
      + "@state&icontains=" + Quote(Lower(district)) + "@district"
  }

  /** The query of `household_income_by_state_and_district`. */
  function IncomeUrl(state: string, district: string): string
  {
    BaseUrl + "?id=hies_district&icontains=" + Quote(Lower(state))
      + "@state&icontains=" + Quote(Lower(district)) + "@district"
  }

  /** The query of `household_and_living_quarters_by_state`. */
  function HouseholdsUrl(state: string): string
  {
    BaseUrl + "?id=hh_profile_state&icontains=" + Quote(Lower(state)) + "@state"
  }

  /** One `icontains=<value>@<field>` parameter, with its value decoded. */
  datatype Filter = Filter(field: string, value: string)

  /** What a query names: the dataset id and its filters, in order. */
  datatype Request = Request(dataset: string, filters: seq<Filter>)

  /** Reads one `icontains=<value>@<field>` parameter back. */
  function ParseFilter(param: string): Option<Filter>
  {
    var kv := Split(param, '=');
    if |kv| != 2 || kv[0] != "icontains" then None
    else
      var vf := Split(kv[1], '@');
      if |vf| != 2 then None
      else match Unquote(vf[0])
        case None => None
        case Some(v) => Some(Filter(vf[1], v))
  }

  function ParseFilters(params: seq<string>): Option<seq<Filter>>
  {
    if |params| == 0 then Some([])
    else match ParseFilter(params[0])
      case None => None
      case Some(f) =>
        match ParseFilters(params[1..])
        case None => None
        case Some(fs) => Some([f] + fs)
  }

  /** Reads `id=<dataset>` followed by the filter parameters. */
  function ParseQueryString(query: string): Option<Request>
  {
    var params := Split(query, '&');
    var id := Split(params[0], '=');
    if |id| != 2 || id[0] != "id" then None
    else match ParseFilters(params[1..])
      case None => None
      case Some(fs) => Some(Request(id[1], fs))
  }

  /**
   * This model's own reader of a query URL, used to state what each URL
   * carries: it checks the base and `?`, splits the rest on `&`, reads the
   * first parameter as `id=<dataset>`, splits each later one on `=` and `@`,
   * and only then percent-decodes the value. It claims nothing about how the
   * upstream service parses its queries.
   */
  function ParseRequestUrl(url: string): Option<Request>
  {
    var n := |BaseUrl|;
    if |url| <= n || url[..n] != BaseUrl || url[n] != '?' then None
    else ParseQueryString(url[n + 1..])
  }

  /** A quoted value holds none of the delimiters of the query string. */
  lemma QuotedHasNoDelimiter(s: string)
    ensures '&' !in Quote(s) && '@' !in Quote(s) && '=' !in Quote(s)
  {
    EncodedAlphabet(Quote(s));
  }

  /** One filter parameter reads back as its field and its lower-cased value. */
  lemma ParseFilterParam(value: string, field: string)
    requires '@' !in field && '=' !in field && '&' !in field
    ensures var p := "icontains=" + Quote(Lower(value)) + "@" + field;
      '&' !in p && ParseFilter(p) == Some(Filter(field, Lower(value)))
  {
    var q := Quote(Lower(value));
    QuotedHasNoDelimiter(Lower(value));
    UnquoteQuote(Lower(value));
    var vf := q + ['@'] + field;
    var key := "icontains";
    assert '=' !in key && '&' !in key;
    var p := key + ['='] + vf;
    assert p == "icontains=" + q + "@" + field;
    assert '=' !in vf && '&' !in vf;
    SplitPair(key, '=', vf);
    SplitPair(q, '@', field);
  }

  /** A URL built from an id and filter parameters reads back as that id and those filters. */
  lemma ParseQuery(dataset: string, params: seq<string>, filters: seq<Filter>)
    requires '&' !in dataset && '=' !in dataset
    requires |params| == |filters|
    requires forall i :: 0 <= i < |params| ==> '&' !in params[i] && ParseFilter(params[i]) == Some(filters[i])
    ensures ParseRequestUrl(BaseUrl + "?" + Join(["id=" + dataset] + params, "&"))
      == Some(Request(dataset, filters))
  {
    var query := Join(["id=" + dataset] + params, "&");
    QueryString(dataset, params, filters);
    UrlPrefix(query);
  }

  lemma QueryString(dataset: string, params: seq<string>, filters: seq<Filter>)
    requires '&' !in dataset && '=' !in dataset
    requires |params| == |filters|
    requires forall i :: 0 <= i < |params| ==> '&' !in params[i] && ParseFilter(params[i]) == Some(filters[i])
    ensures ParseQueryString(Join(["id=" + dataset] + params, "&")) == Some(Request(dataset, filters))
  {
    var id := "id=" + dataset;
    var all := [id] + params;
    var query := Join(all, "&");
    IdParam(dataset);
    forall i | 0 <= i < |all| ensures '&' !in all[i] {
      if i > 0 { assert all[i] == params[i - 1]; }
    }
    SplitJoin(all, '&');
    ParseFiltersOf(params, filters);
    assert all[1..] == params;
    var ps := Split(query, '&');
    assert ps == all;
    assert ParseFilters(ps[1..]) == Some(filters);
  }

  /** The `id=<dataset>` parameter splits at its one `=`. */
  lemma IdParam(dataset: string)
    requires '&' !in dataset && '=' !in dataset
    ensures '&' !in "id=" + dataset
    ensures Split("id=" + dataset, '=') == ["id", dataset]
  {
    assert "id=" + dataset == "id" + ['='] + dataset;
    assert '&' !in "id" && '=' !in "id";
    SplitPair("id", '=', dataset);
  }

  lemma UrlPrefix(query: string)
    ensures ParseRequestUrl(BaseUrl + "?" + query) == ParseQueryString(query)
  {
    var url := BaseUrl + "?" + query;
    var n := |BaseUrl|;
    assert url[..n] == BaseUrl && url[n] == '?' && url[n + 1..] == query;
  }

  lemma {:induction false} ParseFiltersOf(params: seq<string>, filters: seq<Filter>)
    requires |params| == |filters|
    requires forall i :: 0 <= i < |params| ==> ParseFilter(params[i]) == Some(filters[i])
    ensures ParseFilters(params) == Some(filters)
  {
    if |params| > 0 {
      ParseFiltersOf(params[1..], filters[1..]);
      assert [filters[0]] + filters[1..] == filters;
    }
  }

  /** The population query names `population_district` and filters state, then district, both lower-cased. */
  lemma PopulationUrlRoundTrip(state: string, district: string)
    ensures ParseRequestUrl(PopulationUrl(state, district))
      == Some(Request("population_district", [Filter("state", Lower(state)), Filter("district", Lower(district))]))
  {
    NamesPlain();
    PopulationUrlLayout(Quote(Lower(state)), Quote(Lower(district)));
    TwoFilterRoundTrip("population_district", "state", state, "district", district);
  }

  /** The income query names `hies_district` and filters state, then district, both lower-cased. */
  lemma IncomeUrlRoundTrip(state: string, district: string)
    ensures ParseRequestUrl(IncomeUrl(state, district))
      == Some(Request("hies_district", [Filter("state", Lower(state)), Filter("district", Lower(district))]))
  {
    NamesPlain();
    IncomeUrlLayout(Quote(Lower(state)), Quote(Lower(district)));
    TwoFilterRoundTrip("hies_district", "state", state, "district", district);
  }

  /** The households query names `hh_profile_state` and has the one lower-cased state filter. */
  lemma HouseholdsUrlRoundTrip(state: string)
    ensures ParseRequestUrl(HouseholdsUrl(state))
      == Some(Request("hh_profile_state", [Filter("state", Lower(state))]))
  {
    NamesPlain();
    HouseholdsUrlLayout(Quote(Lower(state)));
    OneFilterRoundTrip("hh_profile_state", "state", state);
  }

  lemma OneFilterRoundTrip(dataset: string, field: string, value: string)
    requires PlainName(dataset) && PlainName(field)
    ensures ParseRequestUrl(BaseUrl + "?" + ("id=" + dataset + "&" + ("icontains=" + Quote(Lower(value)) + "@" + field)))
      == Some(Request(dataset, [Filter(field, Lower(value))]))
  {
    var p1 := "icontains=" + Quote(Lower(value)) + "@" + field;
    ParseFilterParam(value, field);
    assert Join(["id=" + dataset] + [p1], "&") == "id=" + dataset + "&" + p1;
    ParseQuery(dataset, [p1], [Filter(field, Lower(value))]);
  }

  /** A name with none of the query string's delimiters in it. */
  predicate PlainName(s: string) { '&' !in s && '=' !in s && '@' !in s }

  /** The dataset ids and field names the tools put in their queries. */
  lemma NamesPlain()
    ensures PlainName("population_district") && PlainName("hies_district") && PlainName("hh_profile_state")
    ensures PlainName("state") && PlainName("district")
  {
    assert PlainName("population_district");
    assert PlainName("hies_district");
    assert PlainName("hh_profile_state");
    assert PlainName("state") && PlainName("district");
  }

  lemma TwoFilterRoundTrip(dataset: string, field1: string, value1: string, field2: string, value2: string)
    requires PlainName(dataset) && PlainName(field1) && PlainName(field2)
    ensures ParseRequestUrl(BaseUrl + "?" + ("id=" + dataset + "&" + ("icontains=" + Quote(Lower(value1)) + "@" + field1)
      + "&" + ("icontains=" + Quote(Lower(value2)) + "@" + field2)))
      == Some(Request(dataset, [Filter(field1, Lower(value1)), Filter(field2, Lower(value2))]))
  {
    var p1 := "icontains=" + Quote(Lower(value1)) + "@" + field1;
    var p2 := "icontains=" + Quote(Lower(value2)) + "@" + field2;
    ParseFilterParam(value1, field1);
    ParseFilterParam(value2, field2);
    JoinThree("id=" + dataset, p1, p2, "&");
    ParseQuery(dataset, [p1, p2], [Filter(field1, Lower(value1)), Filter(field2, Lower(value2))]);
  }

  lemma JoinThree(a: string, b: string, c: string, sep: string)
    ensures Join([a] + [b, c], sep) == a + sep + b + sep + c
  {
    var parts := [a] + [b, c];
    assert parts[..2] == [a, b];
    assert [a, b][..1] == [a];
    assert Join([a], sep) == a;
    assert Join([a, b], sep) == a + sep + b;
  }

  lemma PopulationUrlLayout(q1: string, q2: string)
    ensures BaseUrl + "?id=population_district&icontains=" + q1 + "@state&icontains=" + q2 + "@district"
      == BaseUrl + "?" + ("id=" + "population_district" + "&" + ("icontains=" + q1 + "@" + "state") + "&"
           + ("icontains=" + q2 + "@" + "district"))
  {
    PopulationQueryHead();
    StateFilterTail();
    DistrictFilterTail();
  }

  lemma IncomeUrlLayout(q1: string, q2: string)
    ensures BaseUrl + "?id=hies_district&icontains=" + q1 + "@state&icontains=" + q2 + "@district"
      == BaseUrl + "?" + ("id=" + "hies_district" + "&" + ("icontains=" + q1 + "@" + "state") + "&"
           + ("icontains=" + q2 + "@" + "district"))
  {
    IncomeQueryHead();
    StateFilterTail();
    DistrictFilterTail();
  }

  lemma HouseholdsUrlLayout(q1: string)
    ensures BaseUrl + "?id=hh_profile_state&icontains=" + q1 + "@state"
      == BaseUrl + "?" + ("id=" + "hh_profile_state" + "&" + ("icontains=" + q1 + "@" + "state"))
  {
    HouseholdsQueryHead();
    LastStateFilterTail();
  }

  // How the literal pieces of the f-strings split at `?`, `&` and `@`. Each
  // identity is its own lemma: asserted inside the layout lemmas above, the
  // string literals share one proof context and exceed the verifier's resource
  // budget, where one literal per lemma stays small.

  lemma PopulationQueryHead()
    ensures "?id=population_district&icontains=" == "?" + ("id=" + "population_district") + "&" + "icontains="
  {
  }

  lemma IncomeQueryHead()
    ensures "?id=hies_district&icontains=" == "?" + ("id=" + "hies_district") + "&" + "icontains="
  {
  }

  lemma HouseholdsQueryHead()
    ensures "?id=hh_profile_state&icontains=" == "?" + ("id=" + "hh_profile_state") + "&" + "icontains="
  {
  }

  lemma StateFilterTail()
    ensures "@state&icontains=" == "@" + "state" + "&" + "icontains="
  {
  }

  lemma DistrictFilterTail()
    ensures "@district" == "@" + "district"
  {
  }

  lemma LastStateFilterTail()
    ensures "@state" == "@" + "state"
  {
  }
}
