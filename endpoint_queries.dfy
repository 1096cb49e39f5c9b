/** AlphaVantage request building from the endpoint parameter table
    (thales/scrapers/alphavantage/endpoints.py), as done by
    `AlphaVantageScraper` (thales/scrapers/alphavantage/__init__.py) and
    `_BaseScraper` (thales/scrapers/base_scraper.py), and the classification
    of the JSON body a request returns. */
module EndpointQueries {
  import opened Common

  /** A parameter value: what the table holds (None, a string, a list of
      choices) and what a keyword argument may be (also a number). */
  datatype Param = PNone | PStr(s: string) | PList(items: seq<Param>) | PNum(n: int)

  /** Python's `not v`. */
  predicate Falsy(v: Param) {
    v == PNone || v == PStr("") || v == PList([]) || v == PNum(0)
  }

  /** One endpoint's `required` and `optional` dicts, in their order. */
  datatype EndpointSpec = EndpointSpec(required: seq<(string, Param)>, optional: seq<(string, Param)>)

  const Choices := PList([PStr("full"), PStr("compact")])
  const Formats := PList([PStr("json"), PStr("csv")])

  function FxRequired(endpoint: string): seq<(string, Param)> {
    [("function", PStr(endpoint)), ("from_symbol", PNone), ("to_symbol", PNone), ("apikey", PNone)]
  }

  const DailyAdjusted := EndpointSpec(
    [("function", PStr("TIME_SERIES_DAILY_ADJUSTED")), ("symbol", PNone), ("apikey", PNone)],
    [("outputsize", Choices), ("datatype", Formats)])
  const ExchangeRate := EndpointSpec(
    [("function", PStr("CURRENCY_EXCHANGE_RATE")), ("from_currency", PNone), ("to_currency", PNone),
     ("apikey", PNone)],
    [])
  const Intervals := PList([PStr("1min"), PStr("5min"), PStr("15min"), PStr("30min"), PStr("60min")])
  const FxIntraday := EndpointSpec(
    [("function", PStr("FX_INTRADAY")), ("from_symbol", PNone), ("to_symbol", PNone),
     ("interval", Intervals), ("apikey", PNone)],
    [("outputsize", Choices), ("datatype", Formats)])
  const FxDaily := EndpointSpec(FxRequired("FX_DAILY"), [("outputsize", Choices), ("datatype", Formats)])
  const FxWeekly := EndpointSpec(FxRequired("FX_WEEKLY"), [("datatype", Formats)])
  const FxMonthly := EndpointSpec(FxRequired("FX_MONTHLY"), [("datatype", Formats)])

  /** The `endpoints` table. */
  const Endpoints: map<string, EndpointSpec> := map[
    "TIME_SERIES_DAILY_ADJUSTED" := DailyAdjusted,
    "CURRENCY_EXCHANGE_RATE" := ExchangeRate,
    "FX_INTRADAY" := FxIntraday,
    "FX_DAILY" := FxDaily,
    "FX_WEEKLY" := FxWeekly,
    "FX_MONTHLY" := FxMonthly
  ]

  /** The shape every entry of the table has: the `function` entry comes
      first and names the endpoint; every other required parameter has no
      default, except FX_INTRADAY's `interval`, whose choices start with
      "1min"; and every optional default is a non-empty list of strings,
      named differently from every required parameter. */
  ghost predicate WellFormed(name: string, spec: EndpointSpec) {
    |spec.required| > 0 && spec.required[0] == ("function", PStr(name)) &&
    (forall i :: 1 <= i < |spec.required| ==>
      (spec.required[i].1 == PNone || (name == "FX_INTRADAY" && spec.required[i] == ("interval", Intervals)))) &&
    (forall i :: 0 <= i < |spec.optional| ==>
      (spec.optional[i].1.PList? && |spec.optional[i].1.items| > 0 && spec.optional[i].1.items[0].PStr?)) &&
    (forall i, j :: 0 <= i < |spec.optional| && 0 <= j < |spec.required| ==>
      spec.optional[i].0 != spec.required[j].0)
  }

  lemma DailyAdjustedWellFormed()
    ensures WellFormed("TIME_SERIES_DAILY_ADJUSTED", DailyAdjusted)
  {
  }

  lemma ExchangeRateWellFormed()
    ensures WellFormed("CURRENCY_EXCHANGE_RATE", ExchangeRate)
  {
  }

  lemma FxIntradayWellFormed()
    ensures WellFormed("FX_INTRADAY", FxIntraday)
  {
  }

  lemma FxWellFormed(name: string, optional: seq<(string, Param)>)
    requires optional == [("outputsize", Choices), ("datatype", Formats)] || optional == [("datatype", Formats)]
    ensures WellFormed(name, EndpointSpec(FxRequired(name), optional))
  {
  }

  lemma EndpointsWellFormed(name: string)
    requires name in Endpoints
    ensures WellFormed(name, Endpoints[name])
  {
    if name == "TIME_SERIES_DAILY_ADJUSTED" {
      DailyAdjustedWellFormed();
    } else if name == "CURRENCY_EXCHANGE_RATE" {
      ExchangeRateWellFormed();
    } else if name == "FX_INTRADAY" {
      FxIntradayWellFormed();
    } else {
      FxWellFormed(name, Endpoints[name].optional);
    }
  }

  /** CURRENCY_EXCHANGE_RATE has no optional parameter; FX_WEEKLY and
      FX_MONTHLY only `datatype`. */
  lemma EndpointsOptional()
    ensures Endpoints["CURRENCY_EXCHANGE_RATE"].optional == []
    ensures Keys(Endpoints["FX_WEEKLY"].optional) == ["datatype"]
    ensures Keys(Endpoints["FX_MONTHLY"].optional) == ["datatype"]
  {
  }

  /** `kwargs.get(k, v)` */
  function Chosen(p: (string, Param), kwargs: map<string, Param>): Param {
    if p.0 in kwargs then kwargs[p.0] else p.1
  }

  /** The string a required parameter contributes: a falsy value is a
      ValueError, a list contributes its first element, and what is then
      not a string fails the assertion. */
  function RequiredValue(v: Param): (r: Result<string>)
    ensures r.Ok? <==> !Falsy(v) && (v.PStr? || (v.PList? && v.items[0].PStr?))
    ensures Falsy(v) ==> r == Err(ValueError)
    ensures r.Err? && !Falsy(v) ==> r.error == AssertionError
  {
    if Falsy(v) then Err(ValueError)
    else
      var w := if v.PList? then v.items[0] else v;
      if w.PStr? then Ok(w.s) else Err(AssertionError)
  }

  /** The string an optional parameter contributes: there is no falsy
      check, so None fails the assertion and an empty list cannot be
      indexed. */
  function OptionalValue(v: Param): (r: Result<string>)
    ensures r.Ok? <==> v.PStr? || (v.PList? && |v.items| > 0 && v.items[0].PStr?)
    ensures v == PList([]) ==> r == Err(IndexError)
    ensures r.Err? && v != PList([]) ==> r.error == AssertionError
  {
    if v.PList? then
      if v.items == [] then Err(IndexError)
      else if v.items[0].PStr? then Ok(v.items[0].s) else Err(AssertionError)
    else if v.PStr? then Ok(v.s) else Err(AssertionError)
  }

  function ParamValue(p: (string, Param), kwargs: map<string, Param>, required: bool): Result<string> {
    if required then RequiredValue(Chosen(p, kwargs)) else OptionalValue(Chosen(p, kwargs))
  }

  /** The `(k, v)` pairs the loop over `params` appends, or the error of the
      first parameter that fails. */
  function Segments(params: seq<(string, Param)>, kwargs: map<string, Param>, required: bool)
    : Result<seq<(string, string)>>
  {
    if params == [] then Ok([])
    else
      var prev :- Segments(params[..|params| - 1], kwargs, required);
      var v :- ParamValue(params[|params| - 1], kwargs, required);
      Ok(prev + [(params[|params| - 1].0, v)])
  }

  /** The loop succeeds iff every parameter's value does; it then appends
      every parameter once, in order, with its value; otherwise it fails
      with the error of the first parameter that fails. */
  lemma {:induction false} SegmentsSpec(params: seq<(string, Param)>, kwargs: map<string, Param>, required: bool)
    ensures Segments(params, kwargs, required).Ok? <==>
      forall i :: 0 <= i < |params| ==> ParamValue(params[i], kwargs, required).Ok?
    ensures Segments(params, kwargs, required).Ok? ==> |Segments(params, kwargs, required).value| == |params|
    ensures Segments(params, kwargs, required).Ok? ==> forall i :: 0 <= i < |params| ==>
      (Segments(params, kwargs, required).value[i] == (params[i].0, ParamValue(params[i], kwargs, required).value))
    ensures Segments(params, kwargs, required).Err? ==> exists i :: (0 <= i < |params| &&
      FirstFailure(params, kwargs, required, i) &&
      Segments(params, kwargs, required).error == ParamValue(params[i], kwargs, required).error)
  {
    if params != [] {
      var init := params[..|params| - 1];
      SegmentsSpec(init, kwargs, required);
      assert forall i :: 0 <= i < |init| ==> init[i] == params[i];
      if Segments(init, kwargs, required).Err? {
        var i :| 0 <= i < |init| && FirstFailure(init, kwargs, required, i) &&
          Segments(init, kwargs, required).error == ParamValue(init[i], kwargs, required).error;
        assert FirstFailure(params, kwargs, required, i);
      } else if ParamValue(params[|params| - 1], kwargs, required).Err? {
        assert FirstFailure(params, kwargs, required, |params| - 1);
      }
    }
  }

  /** One turn of the loop. */
  lemma SegmentsStep(params: seq<(string, Param)>, kwargs: map<string, Param>, required: bool, i: nat)
    requires i < |params|
    requires Segments(params[..i], kwargs, required).Ok?
    ensures ParamValue(params[i], kwargs, required).Err? ==>
      Segments(params[..i + 1], kwargs, required) == Err(ParamValue(params[i], kwargs, required).error)
    ensures ParamValue(params[i], kwargs, required).Ok? ==>
      Segments(params[..i + 1], kwargs, required) ==
        Ok(Segments(params[..i], kwargs, required).value + [(params[i].0, ParamValue(params[i], kwargs, required).value)])
  {
    assert params[..i + 1][..i] == params[..i];
  }

  /** Parameter `i` is the first of `params` that fails. */
  predicate FirstFailure(params: seq<(string, Param)>, kwargs: map<string, Param>, required: bool, i: int)
    requires 0 <= i < |params|
  {
    ParamValue(params[i], kwargs, required).Err? &&
    forall j :: 0 <= j < i ==> ParamValue(params[j], kwargs, required).Ok?
  }

  /** Once a prefix of the parameters fails, the whole list fails the same
      way. */
  lemma {:induction false} SegmentsErrPrefix(params: seq<(string, Param)>, kwargs: map<string, Param>, required: bool, n: nat)
    requires n <= |params|
    requires Segments(params[..n], kwargs, required).Err?
    ensures Segments(params, kwargs, required) == Segments(params[..n], kwargs, required)
    decreases |params| - n
  {
    if n < |params| {
      var init := params[..|params| - 1];
      assert init[..n] == params[..n];
      SegmentsErrPrefix(init, kwargs, required, n);
    } else {
      assert params[..n] == params;
    }
  }

  /** `f"&{k}={v}"` */
  function Piece(k: string, v: string): string {
    "&" + k + "=" + v
  }

  /** `"".join(f"&{k}={v}" for k, v in items)` */
  function Encode(items: seq<(string, string)>): string {
    if items == [] then ""
    else
      var last := items[|items| - 1];
      Encode(items[..|items| - 1]) + Piece(last.0, last.1)
  }

  lemma EncodeSnoc(items: seq<(string, string)>, x: (string, string))
    ensures Encode(items + [x]) == Encode(items) + Piece(x.0, x.1)
  {
    assert (items + [x])[..|items|] == items;
  }

  lemma {:induction false} EncodeAppend(a: seq<(string, string)>, b: seq<(string, string)>)
    ensures Encode(a + b) == Encode(a) + Encode(b)
    decreases |b|
  {
    if b == [] {
      assert a + b == a;
    } else {
      var init := b[..|b| - 1];
      var last := b[|b| - 1];
      assert a + b == (a + init) + [last];
      EncodeAppend(a, init);
      EncodeSnoc(a + init, last);
      assert b == init + [last];
      EncodeSnoc(init, last);
    }
  }

  /** The two reserved keys, which the loop over the required parameters
      skips. */
  function Filtered(required: seq<(string, Param)>): (r: seq<(string, Param)>)
    ensures forall p :: p in r <==> p in required && p.0 != "function" && p.0 != "apikey"
  {
    if required == [] then []
    else if required[0].0 in {"function", "apikey"} then Filtered(required[1..])
    else [required[0]] + Filtered(required[1..])
  }

  /** The finished query: the prefix, the required parameters and then the
      optional ones, each as `&k=v`. */
  function QuerySpec(prefix: string, spec: EndpointSpec, kwargs: map<string, Param>): Result<string> {
    var req :- Segments(Filtered(spec.required), kwargs, true);
    var opt :- Segments(spec.optional, kwargs, false);
    Ok(prefix + Encode(req + opt))
  }

  /** One turn of the loop on the query built so far: a failing parameter
      fails the whole loop, any other appends its piece. */
  lemma AppendStep(query: string, q: string, params: seq<(string, Param)>, kwargs: map<string, Param>,
                   required: bool, i: nat)
    requires i < |params|
    requires Segments(params[..i], kwargs, required).Ok?
    requires q == query + Encode(Segments(params[..i], kwargs, required).value)
    ensures ParamValue(params[i], kwargs, required).Err? ==>
      Segments(params, kwargs, required) == Err(ParamValue(params[i], kwargs, required).error)
    ensures ParamValue(params[i], kwargs, required).Ok? ==>
      (Segments(params[..i + 1], kwargs, required).Ok? &&
       q + Piece(params[i].0, ParamValue(params[i], kwargs, required).value) ==
         query + Encode(Segments(params[..i + 1], kwargs, required).value))
  {
    var v := ParamValue(params[i], kwargs, required);
    SegmentsStep(params, kwargs, required, i);
    if v.Err? {
      SegmentsErrPrefix(params, kwargs, required, i + 1);
    } else {
      var done := Segments(params[..i], kwargs, required).value;
      EncodeSnoc(done, (params[i].0, v.value));
      assert (query + Encode(done)) + Piece(params[i].0, v.value) == query + (Encode(done) + Piece(params[i].0, v.value));
    }
  }

  /** One of the two `for k, v in ...: query += f"&{k}={v}"` loops. */
  method AppendSegments(query: string, params: seq<(string, Param)>, kwargs: map<string, Param>, required: bool)
    returns (r: Result<string>)
    ensures Segments(params, kwargs, required).Err? ==> r == Err(Segments(params, kwargs, required).error)
    ensures Segments(params, kwargs, required).Ok? ==> r == Ok(query + Encode(Segments(params, kwargs, required).value))
  {
    var q := query;
    var i := 0;
    while i < |params|
      invariant 0 <= i <= |params|
      invariant Segments(params[..i], kwargs, required).Ok?
      invariant q == query + Encode(Segments(params[..i], kwargs, required).value)
    {
      var v := ParamValue(params[i], kwargs, required);
      AppendStep(query, q, params, kwargs, required, i);
      if v.Err? {
        return Err(v.error);
      }
      q := q + Piece(params[i].0, v.value);
      i := i + 1;
    }
    assert params[..i] == params;
    r := Ok(q);
  }

  /** The query after the required loop and then the optional one. */
  lemma QuerySpecSteps(prefix: string, spec: EndpointSpec, kwargs: map<string, Param>)
    ensures Segments(Filtered(spec.required), kwargs, true).Err? ==>
      QuerySpec(prefix, spec, kwargs) == Err(Segments(Filtered(spec.required), kwargs, true).error)
    ensures Segments(Filtered(spec.required), kwargs, true).Ok? && Segments(spec.optional, kwargs, false).Err? ==>
      QuerySpec(prefix, spec, kwargs) == Err(Segments(spec.optional, kwargs, false).error)
    ensures Segments(Filtered(spec.required), kwargs, true).Ok? && Segments(spec.optional, kwargs, false).Ok? ==>
      QuerySpec(prefix, spec, kwargs) ==
        Ok((prefix + Encode(Segments(Filtered(spec.required), kwargs, true).value)) +
           Encode(Segments(spec.optional, kwargs, false).value))
  {
    var req := Segments(Filtered(spec.required), kwargs, true);
    var opt := Segments(spec.optional, kwargs, false);
    if req.Ok? && opt.Ok? {
      EncodeAppend(req.value, opt.value);
      assert (prefix + Encode(req.value)) + Encode(opt.value) == prefix + (Encode(req.value) + Encode(opt.value));
    }
  }

  /** The two loops of `construct_query` after its prefix. */
  method BuildQuery(prefix: string, spec: EndpointSpec, kwargs: map<string, Param>) returns (r: Result<string>)
    ensures r == QuerySpec(prefix, spec, kwargs)
  {
    QuerySpecSteps(prefix, spec, kwargs);
    var withRequired := AppendSegments(prefix, Filtered(spec.required), kwargs, true);
    if withRequired.Err? {
      return withRequired;
    }
    r := AppendSegments(withRequired.value, spec.optional, kwargs, false);
  }

  /** Keyword arguments that name no parameter of the table never reach the
      query. */
  lemma {:induction false} SegmentsIgnoreOthers(params: seq<(string, Param)>, kw1: map<string, Param>, kw2: map<string, Param>, required: bool)
    requires forall p :: p in params ==> (p.0 in kw1 <==> p.0 in kw2)
    requires forall p :: p in params && p.0 in kw1 ==> kw1[p.0] == kw2[p.0]
    ensures Segments(params, kw1, required) == Segments(params, kw2, required)
  {
    if params != [] {
      var init := params[..|params| - 1];
      assert forall p :: p in init ==> p in params;
      assert params[|params| - 1] in params;
      SegmentsIgnoreOthers(init, kw1, kw2, required);
    }
  }

  /** The keyword arguments restricted to the endpoint's own parameters. */
  function Relevant(spec: EndpointSpec, kwargs: map<string, Param>): map<string, Param> {
    map k | k in kwargs && (k in Keys(spec.required) || k in Keys(spec.optional)) :: kwargs[k]
  }

  lemma KwargsIgnored(prefix: string, spec: EndpointSpec, kwargs: map<string, Param>)
    ensures QuerySpec(prefix, spec, kwargs) == QuerySpec(prefix, spec, Relevant(spec, kwargs))
  {
    var rel := Relevant(spec, kwargs);
    forall p | p in Filtered(spec.required) ensures p.0 in Keys(spec.required) {
      var i :| 0 <= i < |spec.required| && spec.required[i] == p;
      assert Keys(spec.required)[i] == p.0;
    }
    forall p | p in spec.optional ensures p.0 in Keys(spec.optional) {
      var i :| 0 <= i < |spec.optional| && spec.optional[i] == p;
      assert Keys(spec.optional)[i] == p.0;
    }
    SegmentsIgnoreOthers(Filtered(spec.required), kwargs, rel, true);
    SegmentsIgnoreOthers(spec.optional, kwargs, rel, false);
  }

  /** `f"{base_url}query?function={endpoint}&apikey={api_key}"` */
  function Prefix(baseUrl: string, endpoint: string, apiKey: string): string {
    baseUrl + "query?function=" + endpoint + "&apikey=" + apiKey
  }

  const BaseUrl: string := "https://www.alphavantage.co/"

  /** `AlphaVantageScraper.construct_query(endpoint, api_key, **kwargs)`. A
      falsy `api_key` is replaced by the stored credential `storedKey`; an
      endpoint missing from the table is a NotImplementedError. */
  method ScraperQuery(endpoint: string, apiKey: Option<string>, storedKey: string, kwargs: map<string, Param>)
    returns (r: Result<string>)
    ensures endpoint !in Endpoints ==> r == Err(NotImplementedError)
    ensures endpoint in Endpoints ==>
      r == QuerySpec(Prefix(BaseUrl, endpoint, if Truthy(apiKey) then apiKey.value else storedKey),
                     Endpoints[endpoint], kwargs)
  {
    var key := if Truthy(apiKey) then apiKey.value else storedKey;
    var query := Prefix(BaseUrl, endpoint, key);
    if endpoint !in Endpoints {
      return Err(NotImplementedError);
    }
    r := BuildQuery(query, Endpoints[endpoint], kwargs);
  }

  /** A successful query starts with the prefix, and for the table's
      endpoints, supplying every parameter that has no default as a
      non-empty string is enough for it to succeed. */
  lemma QueryPrefix(prefix: string, spec: EndpointSpec, kwargs: map<string, Param>)
    requires QuerySpec(prefix, spec, kwargs).Ok?
    ensures StartsWith(QuerySpec(prefix, spec, kwargs).value, prefix)
  {
    var q := QuerySpec(prefix, spec, kwargs).value;
    var rest := Encode(Segments(Filtered(spec.required), kwargs, true).value + Segments(spec.optional, kwargs, false).value);
    assert q == prefix + rest;
    assert q[..|prefix|] == prefix;
  }

  /** Only the endpoint's own keyword arguments: each parameter without a
      default is given as a non-empty string and nothing else is given. */
  predicate Minimal(spec: EndpointSpec, kwargs: map<string, Param>) {
    forall k :: k in kwargs ==>
      kwargs[k].PStr? && kwargs[k].s != "" && (k, PNone) in Filtered(spec.required)
  }

  lemma KeysMember<V>(items: seq<(string, V)>, p: (string, V))
    requires p in items
    ensures p.0 in Keys(items)
  {
    var i :| 0 <= i < |items| && items[i] == p;
    assert Keys(items)[i] == p.0;
  }

  lemma WellFormedQueriesSucceed(name: string, spec: EndpointSpec, prefix: string, kwargs: map<string, Param>)
    requires WellFormed(name, spec)
    requires forall p :: p in Filtered(spec.required) && p.1 == PNone ==> p.0 in kwargs
    requires Minimal(spec, kwargs)
    ensures QuerySpec(prefix, spec, kwargs).Ok?
  {
    var req := Filtered(spec.required);
    forall i | 0 <= i < |req| ensures ParamValue(req[i], kwargs, true).Ok? {
      assert req[i] in req;
      var j :| 0 <= j < |spec.required| && spec.required[j] == req[i];
    }
    forall i | 0 <= i < |spec.optional| ensures ParamValue(spec.optional[i], kwargs, false).Ok? {
      forall k | k in kwargs ensures k != spec.optional[i].0 {
        assert (k, PNone) in req;
        var j :| 0 <= j < |spec.required| && spec.required[j] == (k, PNone);
      }
    }
    SegmentsSpec(req, kwargs, true);
    SegmentsSpec(spec.optional, kwargs, false);
  }

  lemma TableQueriesSucceed(name: string, prefix: string, kwargs: map<string, Param>)
    requires name in Endpoints
    requires forall p :: p in Filtered(Endpoints[name].required) && p.1 == PNone ==> p.0 in kwargs
    requires Minimal(Endpoints[name], kwargs)
    ensures QuerySpec(prefix, Endpoints[name], kwargs).Ok?
  {
    EndpointsWellFormed(name);
    WellFormedQueriesSucceed(name, Endpoints[name], prefix, kwargs);
  }

  // ---------------------------------------------------------------------------
  // Responses

  /** What `get` does with the JSON body: return the response, or fall
      through and return None. */
  datatype Reply = Response | NoReply

  /** The one-key body AlphaVantage sends when the rate limit is hit. */
  const RateLimitNote: string :=
    "Thank you for using Alpha Vantage! Our standard API call frequency is 5 calls per minute and 500 "
    + "calls per day. Please visit https://www.alphavantage.co/premium/ if you would like to target a "
    + "higher API call frequency."

  const RateLimitBody: map<string, Value> := map["Note" := VStr(RateLimitNote)]

  /** The classification in `get`: a body with other than one key is the
      response; a one-key body is the rate-limit error when it equals the
      rate-limit message, an InvalidApiCall when its key is "Error Message",
      and otherwise None. */
  function Classify(body: map<string, Value>, rateLimit: map<string, Value>): (r: Result<Reply>)
    ensures r == Ok(Response) <==> |body| != 1
    ensures r == Ok(NoReply) <==> |body| == 1 && body != rateLimit && "Error Message" !in body
    ensures r.Err? ==> |body| == 1
    ensures r == Err(RateLimitExceeded) <==> |body| == 1 && body == rateLimit
    ensures r == Err(InvalidApiCall) <==> |body| == 1 && body != rateLimit && "Error Message" in body
  {
    if |body| == 1 then
      if body == rateLimit then Err(RateLimitExceeded)
      else if "Error Message" in body then Err(InvalidApiCall)
      else Ok(NoReply)
    else Ok(Response)
  }

  /** `AlphaVantageScraper.get`: builds the query, then classifies the body
      `body` the request returned. */
  method ScraperGet(endpoint: string, apiKey: Option<string>, storedKey: string, kwargs: map<string, Param>,
                    body: map<string, Value>)
    returns (r: Result<Reply>)
    ensures endpoint !in Endpoints ==> r == Err(NotImplementedError)
    ensures endpoint in Endpoints ==>
      var q := QuerySpec(Prefix(BaseUrl, endpoint, if Truthy(apiKey) then apiKey.value else storedKey),
                         Endpoints[endpoint], kwargs);
      r == if q.Err? then Err(q.error) else Classify(body, RateLimitBody)
  {
    var key := if Truthy(apiKey) then apiKey.value else storedKey;
    var query := ScraperQuery(endpoint, Some(key), key, kwargs);
    if query.Err? {
      return Err(query.error);
    }
    r := Classify(body, RateLimitBody);
  }

  // ---------------------------------------------------------------------------
  // _BaseScraper

  /** `_BaseScraper` with its table of endpoints (`ENDPOINTS[name]`) and the
      cache of endpoint directories. `madeDirs` are the directories it has
      created. */
  class BaseScraper {
    const name: string
    const baseUrl: string
    const endpoints: map<string, EndpointSpec>
    const defaultEndpoint: string
    const dataDir: string
    const rateLimitMsg: map<string, Value>
    const apiKey: string
    var endpointDirs: map<string, string>
    var madeDirs: set<string>

    /** Every cached directory belongs to a known endpoint, is the endpoint's
        directory under `dataDir` and exists. */
    ghost predicate Valid()
      reads this
    {
      defaultEndpoint in endpoints && dataDir in madeDirs &&
      forall e :: e in endpointDirs ==>
        (e in endpoints && endpointDirs[e] == dataDir + "/" + e && endpointDirs[e] in madeDirs)
    }

    constructor(name: string, baseUrl: string, endpoints: map<string, EndpointSpec>, defaultEndpoint: string,
                rateLimitMsg: map<string, Value>, apiKey: string)
      requires defaultEndpoint in endpoints
      ensures Valid()
      ensures this.name == name && this.baseUrl == baseUrl && this.endpoints == endpoints
      ensures this.defaultEndpoint == defaultEndpoint && this.dataDir == "scraped_data/" + name
      ensures this.rateLimitMsg == rateLimitMsg && this.apiKey == apiKey
      ensures endpointDirs == map[] && madeDirs == {"scraped_data/" + name}
    {
      this.name := name;
      this.baseUrl := baseUrl;
      this.endpoints := endpoints;
      this.defaultEndpoint := defaultEndpoint;
      this.dataDir := "scraped_data/" + name;
      this.rateLimitMsg := rateLimitMsg;
      this.apiKey := apiKey;
      endpointDirs := map[];
      madeDirs := {"scraped_data/" + name};
    }

    /** `endpoint_data_dir(endpoint)`: None selects the default endpoint; the
        answer is cached, so every call for an endpoint returns the same
        directory, and an unknown endpoint fails the assertion. */
    method EndpointDataDir(endpoint: Option<string>) returns (r: Result<string>)
      requires Valid()
      modifies this
      ensures Valid()
      ensures var ep := if endpoint.None? then defaultEndpoint else endpoint.value;
        (r.Ok? <==> ep in endpoints) &&
        (r.Ok? ==> r.value == dataDir + "/" + ep && endpointDirs == old(endpointDirs)[ep := r.value] &&
                   madeDirs == old(madeDirs) + {r.value}) &&
        (r.Err? ==> r.error == AssertionError && endpointDirs == old(endpointDirs) && madeDirs == old(madeDirs))
    {
      var ep := if endpoint.None? then defaultEndpoint else endpoint.value;
      if ep in endpointDirs {
        return Ok(endpointDirs[ep]);
      }
      if ep !in endpoints {
        return Err(AssertionError);
      }
      var dir := dataDir + "/" + ep;
      madeDirs := madeDirs + {dir};
      endpointDirs := endpointDirs[ep := dir];
      r := Ok(dir);
    }

    /** `construct_query(endpoint, **kwargs)` */
    method ConstructQuery(endpoint: string, kwargs: map<string, Param>) returns (r: Result<string>)
      ensures endpoint !in endpoints ==> r == Err(AssertionError)
      ensures endpoint in endpoints ==> r == QuerySpec(Prefix(baseUrl, endpoint, apiKey), endpoints[endpoint], kwargs)
    {
      if endpoint !in endpoints {
        return Err(AssertionError);
      }
      r := BuildQuery(Prefix(baseUrl, endpoint, apiKey), endpoints[endpoint], kwargs);
    }

    /** `get(endpoint, **kwargs)` on the body `body` the request returned. */
    method Get(endpoint: string, kwargs: map<string, Param>, body: map<string, Value>) returns (r: Result<Reply>)
      ensures endpoint !in endpoints ==> r == Err(AssertionError)
      ensures endpoint in endpoints ==>
        var q := QuerySpec(Prefix(baseUrl, endpoint, apiKey), endpoints[endpoint], kwargs);
        r == if q.Err? then Err(q.error) else Classify(body, rateLimitMsg)
    {
      var query := ConstructQuery(endpoint, kwargs);
      if query.Err? {
        return Err(query.error);
      }
      r := Classify(body, rateLimitMsg);
    }
  }

  /** `_BaseScraper(name, base_url, default_endpoint, **kwargs)`: the
      rate-limit message and the key default to the AlphaVantage note and the
      stored credential; a default endpoint missing from the table fails the
      assertion. */
  method NewBaseScraper(name: string, baseUrl: string, endpoints: map<string, EndpointSpec>, defaultEndpoint: string,
                        rateLimitMsg: Option<map<string, Value>>, apiKey: Option<string>, storedKey: string)
    returns (r: Result<BaseScraper>)
    ensures r.Ok? <==> defaultEndpoint in endpoints
    ensures r.Err? ==> r.error == AssertionError
    ensures r.Ok? ==> (fresh(r.value) && r.value.Valid() && r.value.endpointDirs == map[] &&
      r.value.endpoints == endpoints && r.value.defaultEndpoint == defaultEndpoint &&
      r.value.rateLimitMsg == (if rateLimitMsg.Some? then rateLimitMsg.value else RateLimitBody) &&
      r.value.apiKey == (if apiKey.Some? then apiKey.value else storedKey))
  {
    if defaultEndpoint !in endpoints {
      return Err(AssertionError);
    }
    var s := new BaseScraper(name, baseUrl, endpoints, defaultEndpoint,
                             if rateLimitMsg.Some? then rateLimitMsg.value else RateLimitBody,
                             if apiKey.Some? then apiKey.value else storedKey);
    r := Ok(s);
  }
}
