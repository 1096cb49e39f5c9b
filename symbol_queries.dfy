/** The per-symbol AlphaVantage scrapers: `AlphaVantageStocks`
    (thales/scrapers/alphavantage/stocks.py), its twin `AlphaVantage`
    (thales/scrapers/alphavantage.py), `AlphaVantageFX`
    (thales/scrapers/alphavantage/fxpairs.py) and the two earlier
    `AlphaVantage` classes (scrapers/alphavantage.py,
    data_collection/alpha_vantage.py): query strings built from a default
    keyword dict overridden by the caller's, symbol normalisation, response
    classification and the order in which symbols are scraped. */
module SymbolQueries {
  import opened Common
  import opened Sorting
  import opened EndpointQueries

  /** A Python dict of keyword arguments, in insertion order, each value
      already formatted as the f-string formats it. */
  type Kw = seq<(string, string)>

  /** The keys of a dict are distinct. */
  predicate DistinctKeys(kw: Kw) {
    forall i, j :: 0 <= i < j < |kw| ==> kw[i].0 != kw[j].0
  }

  /** `kw.get(k)` */
  function Get(kw: Kw, k: string): (r: Option<string>)
    ensures r.Some? <==> k in Keys(kw)
  {
    if kw == [] then None
    else if kw[0].0 == k then Some(kw[0].1)
    else
      assert Keys(kw) == [kw[0].0] + Keys(kw[1..]);
      Get(kw[1..], k)
  }

  /** The defaults, each with the overriding value when `over` has its key. */
  function Override(base: Kw, over: Kw): (r: Kw)
    ensures Keys(r) == Keys(base)
  {
    if base == [] then []
    else
      var p := base[0];
      var v := if Get(over, p.0).Some? then Get(over, p.0).value else p.1;
      assert Keys(base) == [p.0] + Keys(base[1..]);
      [(p.0, v)] + Override(base[1..], over)
  }

  /** The entries of `over` whose key is not a default, in their order. */
  function Fresh(over: Kw, base: Kw): (r: Kw)
    ensures forall p :: p in r <==> p in over && p.0 !in Keys(base)
  {
    if over == [] then []
    else if over[0].0 in Keys(base) then Fresh(over[1..], base)
    else [over[0]] + Fresh(over[1..], base)
  }

  /** `{**base, **over}` */
  function Merge(base: Kw, over: Kw): Kw {
    Override(base, over) + Fresh(over, base)
  }

  lemma {:induction false} GetAppend(a: Kw, b: Kw, k: string)
    ensures Get(a + b, k) == if Get(a, k).Some? then Get(a, k) else Get(b, k)
  {
    if a == [] {
      assert a + b == b;
    } else {
      assert (a + b)[1..] == a[1..] + b;
      GetAppend(a[1..], b, k);
    }
  }

  lemma {:induction false} GetOverride(base: Kw, over: Kw, k: string)
    requires Get(base, k).Some?
    ensures Get(Override(base, over), k) == if Get(over, k).Some? then Get(over, k) else Get(base, k)
  {
    if base[0].0 != k {
      GetOverride(base[1..], over, k);
    }
  }

  lemma {:induction false} GetFresh(over: Kw, base: Kw, k: string)
    requires Get(base, k).None?
    ensures Get(Fresh(over, base), k) == Get(over, k)
  {
    if over != [] {
      GetFresh(over[1..], base, k);
    }
  }

  lemma {:induction false} FreshDistinct(over: Kw, base: Kw)
    requires DistinctKeys(over)
    ensures DistinctKeys(Fresh(over, base))
  {
    if over != [] {
      assert DistinctKeys(over[1..]) by {
        forall i, j | 0 <= i < j < |over[1..]| ensures over[1..][i].0 != over[1..][j].0 {
          assert over[1..][i] == over[i + 1] && over[1..][j] == over[j + 1];
        }
      }
      FreshDistinct(over[1..], base);
      var rest := Fresh(over[1..], base);
      forall p | p in rest ensures p.0 != over[0].0 {
        var j :| 0 <= j < |over[1..]| && over[1..][j] == p;
        assert over[j + 1] == p;
      }
    }
  }

  lemma KeysDistinct(kw: Kw)
    requires forall i, j :: 0 <= i < j < |Keys(kw)| ==> Keys(kw)[i] != Keys(kw)[j]
    ensures DistinctKeys(kw)
  {
    forall i, j | 0 <= i < j < |kw| ensures kw[i].0 != kw[j].0 {
      assert Keys(kw)[i] == kw[i].0 && Keys(kw)[j] == kw[j].0;
    }
  }

  lemma {:induction false} KeysAppend<V>(a: seq<(string, V)>, b: seq<(string, V)>)
    ensures Keys(a + b) == Keys(a) + Keys(b)
  {
  }

  /** `{**defaults, **kwargs}` with dict keys: the result is a dict; a key of
      `over` takes its value from `over`, any other key from `base`; the
      defaults keep their positions, and the new keys follow them in the
      caller's order. */
  lemma MergeSpec(base: Kw, over: Kw)
    requires DistinctKeys(base) && DistinctKeys(over)
    ensures DistinctKeys(Merge(base, over))
    ensures forall k :: Get(Merge(base, over), k) == if Get(over, k).Some? then Get(over, k) else Get(base, k)
    ensures Keys(Merge(base, over))[..|base|] == Keys(base)
    ensures Merge(base, over)[|base|..] == Fresh(over, base)
  {
    var o := Override(base, over);
    var f := Fresh(over, base);
    forall k ensures Get(Merge(base, over), k) == if Get(over, k).Some? then Get(over, k) else Get(base, k) {
      GetAppend(o, f, k);
      if Get(base, k).Some? {
        GetOverride(base, over, k);
      } else {
        GetFresh(over, base, k);
      }
    }
    FreshDistinct(over, base);
    KeysAppend(o, f);
    var ks := Keys(o + f);
    forall i, j | 0 <= i < j < |ks| ensures ks[i] != ks[j] {
      if j < |o| {
        assert ks[i] == Keys(base)[i] == base[i].0;
        assert ks[j] == Keys(base)[j] == base[j].0;
      } else if i >= |o| {
        assert ks[i] == f[i - |o|].0 && ks[j] == f[j - |o|].0;
      } else {
        assert ks[i] == Keys(base)[i];
        assert f[j - |o|] in f;
        assert ks[j] == f[j - |o|].0;
      }
    }
    KeysDistinct(o + f);
    assert Keys(o + f)[..|base|] == Keys(o);
    assert (o + f)[|base|..] == f;
  }

  /** The defaults of the AlphaVantage scrapers: `dict(interval=…,
      outputsize="full", datatype="json")`. */
  function DefaultKw(interval: string): Kw {
    [("interval", interval), ("outputsize", "full"), ("datatype", "json")]
  }

  lemma {:induction false} OverrideNothing(base: Kw)
    ensures Override(base, []) == base
  {
    if base != [] {
      OverrideNothing(base[1..]);
    }
  }

  /** Merging no keyword arguments gives the defaults. */
  lemma MergeNothing(base: Kw)
    ensures Merge(base, []) == base
  {
    OverrideNothing(base);
  }

  /** A keyword named like a default replaces its value in place: the three
      defaults stay first, and every keyword argument's value is the one
      the query carries. */
  lemma DefaultsFirst(interval: string, kwargs: Kw)
    requires DistinctKeys(kwargs)
    ensures Keys(Merge(DefaultKw(interval), kwargs))[..3] == ["interval", "outputsize", "datatype"]
    ensures forall k :: Get(kwargs, k).Some? ==> Get(Merge(DefaultKw(interval), kwargs), k) == Get(kwargs, k)
  {
    var d := DefaultKw(interval);
    assert Keys(d) == ["interval", "outputsize", "datatype"];
    MergeSpec(d, kwargs);
  }

  /** One turn of `for k, v in kw.items(): query += f"&{k}={v}"`. */
  lemma EncodeStep(query: string, q: string, kw: Kw, i: nat)
    requires i < |kw|
    requires q == query + Encode(kw[..i])
    ensures q + Piece(kw[i].0, kw[i].1) == query + Encode(kw[..i + 1])
  {
    assert kw[..i + 1] == kw[..i] + [kw[i]];
    EncodeSnoc(kw[..i], kw[i]);
    assert (query + Encode(kw[..i])) + Piece(kw[i].0, kw[i].1) ==
      query + (Encode(kw[..i]) + Piece(kw[i].0, kw[i].1));
  }

  /** The loop that appends every merged parameter to the query. */
  method AppendParams(query: string, kw: Kw) returns (q: string)
    ensures q == query + Encode(kw)
  {
    q := query;
    var i := 0;
    while i < |kw|
      invariant 0 <= i <= |kw|
      invariant q == query + Encode(kw[..i])
    {
      EncodeStep(query, q, kw, i);
      q := q + Piece(kw[i].0, kw[i].1);
      i := i + 1;
    }
    assert kw[..i] == kw;
  }

  /** Each parameter of an encoded dict is one `&k=v` piece, in order. */
  lemma {:induction false} EncodeCons(p: (string, string), kw: Kw)
    ensures Encode([p] + kw) == Piece(p.0, p.1) + Encode(kw)
  {
    EncodeAppend([p], kw);
    assert Encode([p]) == Encode([]) + Piece(p.0, p.1);
  }

  const DefaultFunction: string := "TIME_SERIES_DAILY_ADJUSTED"

  /** `if not function: function = default` */
  function OrIfFalsy(arg: Option<string>, dflt: string): (r: string)
    ensures Truthy(arg) ==> r == arg.value
    ensures !Truthy(arg) ==> r == dflt
  {
    if Truthy(arg) then arg.value else dflt
  }

  /** A keyword argument with a default value: the default applies only
      when the argument is not passed, so an explicit "" stays "". */
  function OrIfOmitted(arg: Option<string>, dflt: string): (r: string)
    ensures arg.Some? ==> r == arg.value
    ensures arg.None? ==> r == dflt
  {
    if arg.Some? then arg.value else dflt
  }

  /** `f"{base_url}query?function={function}&symbol={symbol}&apikey={api_key}"` */
  function SymbolPrefix(endpoint: string, symbol: string, apiKey: string): string {
    BaseUrl + "query?function=" + endpoint + "&symbol=" + symbol + "&apikey=" + apiKey
  }

  /** `construct_query(symbol, api_key, function, **kwargs)` of
      `AlphaVantageStocks` and of `AlphaVantage` in
      thales/scrapers/alphavantage.py. */
  method StocksQuery(symbol: string, apiKey: string, endpointArg: Option<string>, kwargs: Kw) returns (q: string)
    ensures q == SymbolPrefix(OrIfFalsy(endpointArg, DefaultFunction), symbol, apiKey) +
      Encode(Merge(DefaultKw("5min"), kwargs))
  {
    var kw := Merge(DefaultKw("5min"), kwargs);
    var endpoint := OrIfFalsy(endpointArg, DefaultFunction);
    q := AppendParams(SymbolPrefix(endpoint, symbol, apiKey), kw);
  }

  /** `construct_query` of scrapers/alphavantage.py and
      data_collection/alpha_vantage.py, whose `function` has a default
      value instead of a falsy check. */
  method LegacyQuery(symbol: string, apiKey: string, endpointArg: Option<string>, kwargs: Kw) returns (q: string)
    ensures q == SymbolPrefix(OrIfOmitted(endpointArg, DefaultFunction), symbol, apiKey) +
      Encode(Merge(DefaultKw("5min"), kwargs))
  {
    var kw := Merge(DefaultKw("5min"), kwargs);
    q := AppendParams(SymbolPrefix(OrIfOmitted(endpointArg, DefaultFunction), symbol, apiKey), kw);
  }

  /** Without keyword arguments, the three defaults follow the prefix in
      their order. */
  lemma DefaultsEncoded(interval: string)
    ensures Encode(Merge(DefaultKw(interval), [])) ==
      Piece("interval", interval) + Piece("outputsize", "full") + Piece("datatype", "json")
  {
    var d := DefaultKw(interval);
    MergeNothing(d);
    EncodeCons(d[2], []);
    assert [d[2]] + [] == d[2..];
    EncodeCons(d[1], d[2..]);
    assert [d[1]] + d[2..] == d[1..];
    EncodeCons(d[0], d[1..]);
    assert [d[0]] + d[1..] == d;
  }

  // ---------------------------------------------------------------------------
  // FX

  const FxDefaultFunction: string := "FX_INTRADAY"

  /** The part after `function=…`: the two currencies under the names the
      function expects, then the key; any other function is an
      InvalidApiCall. */
  function FxPairPart(endpoint: string, fromSymbol: string, toSymbol: string, apiKey: string): (r: Result<string>)
    ensures r.Ok? <==> endpoint in {"CURRENCY_EXCHANGE_RATE", "FX_INTRADAY", "FX_DAILY", "FX_WEEKLY", "FX_MONTHLY"}
    ensures r.Err? ==> r.error == InvalidApiCall
    ensures endpoint == "CURRENCY_EXCHANGE_RATE" ==>
      r == Ok("&from_currency=" + fromSymbol + "&to_currency=" + toSymbol + "&apikey=" + apiKey)
    ensures r.Ok? && endpoint != "CURRENCY_EXCHANGE_RATE" ==>
      r == Ok("&from_symbol=" + fromSymbol + "&to_symbol=" + toSymbol + "&apikey=" + apiKey)
  {
    if endpoint == "CURRENCY_EXCHANGE_RATE" then
      Ok("&from_currency=" + fromSymbol + "&to_currency=" + toSymbol + "&apikey=" + apiKey)
    else if endpoint in {"FX_INTRADAY", "FX_DAILY", "FX_WEEKLY", "FX_MONTHLY"} then
      Ok("&from_symbol=" + fromSymbol + "&to_symbol=" + toSymbol + "&apikey=" + apiKey)
    else Err(InvalidApiCall)
  }

  /** `AlphaVantageFX.construct_query`. A falsy `api_key` is replaced by the
      stored credential `storedKey`, a falsy `function` by FX_INTRADAY. */
  method FxQuery(fromSymbol: string, toSymbol: string, apiKey: Option<string>, storedKey: string,
                 endpointArg: Option<string>, kwargs: Kw)
    returns (r: Result<string>)
    ensures var endpoint := OrIfFalsy(endpointArg, FxDefaultFunction);
      var part := FxPairPart(endpoint, fromSymbol, toSymbol, OrIfFalsy(apiKey, storedKey));
      (part.Err? ==> r == Err(part.error)) &&
      (part.Ok? ==> r == Ok(BaseUrl + "query?function=" + endpoint + part.value +
                            Encode(Merge(DefaultKw("1min"), kwargs))))
  {
    var kw := Merge(DefaultKw("1min"), kwargs);
    var key := OrIfFalsy(apiKey, storedKey);
    var endpoint := OrIfFalsy(endpointArg, FxDefaultFunction);
    var part := FxPairPart(endpoint, fromSymbol, toSymbol, key);
    if part.Err? {
      return Err(part.error);
    }
    var q := AppendParams(BaseUrl + "query?function=" + endpoint + part.value, kw);
    r := Ok(q);
  }

  // ---------------------------------------------------------------------------
  // get

  /** `str.upper("".join(s.split()))` */
  function NormalizeSymbol(s: string): string {
    Upper(RemoveSpaces(s))
  }

  lemma {:induction false} RemoveSpacesNone(s: string)
    requires forall i :: 0 <= i < |s| ==> !IsSpace(s[i])
    ensures RemoveSpaces(s) == s
  {
    if s != [] {
      assert !IsSpace(s[0]);
      RemoveSpacesNone(s[1..]);
    }
  }

  /** A normalised symbol has no whitespace and no lower-case letter, and
      normalising it again changes nothing. */
  lemma NormalizeSymbolSpec(s: string)
    ensures forall i :: 0 <= i < |NormalizeSymbol(s)| ==>
      !IsSpace(NormalizeSymbol(s)[i]) && !IsAsciiLower(NormalizeSymbol(s)[i])
    ensures NormalizeSymbol(NormalizeSymbol(s)) == NormalizeSymbol(s)
  {
    var t := RemoveSpaces(s);
    var u := Upper(t);
    forall i | 0 <= i < |u| ensures !IsSpace(u[i]) && !IsAsciiLower(u[i]) {
      assert u[i] == UpperChar(t[i]);
      assert !IsSpace(t[i]);
    }
    RemoveSpacesNone(u);
    UpperIdempotent(t);
  }

  /** `get(symbol, api_key, function, **kwargs)` of `AlphaVantageStocks` and
      of `AlphaVantage` in thales/scrapers/alphavantage.py: the query it
      requests for the normalised symbol, and the classification of the
      body `body` the request returns. */
  method StocksGet(symbol: string, apiKey: Option<string>, storedKey: string, endpointArg: Option<string>,
                   kwargs: Kw, body: map<string, Value>)
    returns (query: string, r: Result<Reply>)
    ensures query == SymbolPrefix(OrIfFalsy(endpointArg, DefaultFunction), NormalizeSymbol(symbol),
                                  OrIfFalsy(apiKey, storedKey)) + Encode(Merge(DefaultKw("5min"), kwargs))
    ensures r == Classify(body, RateLimitBody)
  {
    var key := OrIfFalsy(apiKey, storedKey);
    var endpoint := OrIfFalsy(endpointArg, DefaultFunction);
    var sym := NormalizeSymbol(symbol);
    query := StocksQuery(sym, key, Some(endpoint), kwargs);
    r := Classify(body, RateLimitBody);
  }

  /** `AlphaVantageFX.get`: both symbols normalised; an invalid function
      fails before any request. */
  method FxGet(fromSymbol: string, toSymbol: string, apiKey: Option<string>, storedKey: string,
               endpointArg: Option<string>, kwargs: Kw, body: map<string, Value>)
    returns (query: Result<string>, r: Result<Reply>)
    ensures (OrIfFalsy(endpointArg, FxDefaultFunction) !in
      {"CURRENCY_EXCHANGE_RATE", "FX_INTRADAY", "FX_DAILY", "FX_WEEKLY", "FX_MONTHLY"}) ==>
      query == Err(InvalidApiCall) && r == Err(InvalidApiCall)
    ensures query.Ok? ==> (query.value ==
      BaseUrl + "query?function=" + OrIfFalsy(endpointArg, FxDefaultFunction) +
      FxPairPart(OrIfFalsy(endpointArg, FxDefaultFunction), NormalizeSymbol(fromSymbol), NormalizeSymbol(toSymbol),
                 OrIfFalsy(apiKey, storedKey)).value +
      Encode(Merge(DefaultKw("1min"), kwargs)))
    ensures query.Ok? ==> r == Classify(body, RateLimitBody)
  {
    query := FxQuery(NormalizeSymbol(fromSymbol), NormalizeSymbol(toSymbol), apiKey, storedKey, endpointArg, kwargs);
    if query.Err? {
      return query, Err(query.error);
    }
    r := Classify(body, RateLimitBody);
  }

  /** The check in `get` of scrapers/alphavantage.py: a one-key body whose
      key is "Note" returns None; every other body is the response. */
  function NoteCheck(body: map<string, Value>): (r: Reply)
    ensures r == NoReply <==> |body| == 1 && "Note" in body
  {
    if |body| == 1 && "Note" in body then NoReply else Response
  }

  /** The rate-limit note is an error for the later scrapers and a silent
      None for the earliest one. */
  lemma RateLimitClassified()
    ensures Classify(RateLimitBody, RateLimitBody) == Err(RateLimitExceeded)
    ensures NoteCheck(RateLimitBody) == NoReply
  {
    assert RateLimitBody.Keys == {"Note"};
  }

  /** `get` of scrapers/alphavantage.py: the symbol is uppercased but its
      whitespace kept. */
  method LegacyGet(symbol: string, apiKey: string, endpointArg: Option<string>, kwargs: Kw, body: map<string, Value>)
    returns (query: string, r: Reply)
    ensures query == SymbolPrefix(OrIfOmitted(endpointArg, DefaultFunction), Upper(symbol), apiKey) +
      Encode(Merge(DefaultKw("5min"), kwargs))
    ensures r == NoteCheck(body)
  {
    query := LegacyQuery(Upper(symbol), apiKey, endpointArg, kwargs);
    r := NoteCheck(body);
  }

  // ---------------------------------------------------------------------------
  // prioritize

  /** A scraped file: its stem and its modification time. The stems of a
      listing are its `Keys`. */
  type Scraped = (string, int)

  predicate ModLe(a: Scraped, b: Scraped) {
    a.1 <= b.1
  }

  lemma ModLeTotalPreorder()
    ensures TotalPreorder(ModLe)
  {
  }

  /** `scraped.loc[scraped["symbol"].isin(sym)]` */
  function ScrapedOf(listing: seq<Scraped>, syms: seq<string>): (r: seq<Scraped>)
    ensures forall p :: p in r <==> p in listing && p.0 in syms
  {
    if listing == [] then []
    else if listing[0].0 in syms then [listing[0]] + ScrapedOf(listing[1..], syms)
    else ScrapedOf(listing[1..], syms)
  }

  /** The scraped files of the chosen symbols, oldest first. */
  function ByAge(listing: seq<Scraped>, syms: seq<string>): seq<Scraped> {
    Sort(ScrapedOf(listing, syms), ModLe)
  }

  /** `prioritize(*sym)`: no symbols selects the stored master list; then
      `last` is the scraped ones by ascending modification time and `first`
      the others in input order. */
  function Prioritize(syms: seq<string>, master: seq<string>, listing: seq<Scraped>): seq<string> {
    var s := if syms == [] then master else syms;
    var last := Keys(ByAge(listing, s));
    Without(s, last) + last
  }

  lemma StemsIn(rs: seq<Scraped>, x: string)
    ensures x in Keys(rs) <==> exists p :: p in rs && p.0 == x
  {
    if x in Keys(rs) {
      var i :| 0 <= i < |rs| && Keys(rs)[i] == x;
      assert rs[i] in rs;
    }
  }

  /** Two exclusion lists that agree on the elements of `s` exclude the same
      elements. */
  lemma {:induction false} WithoutSame(s: seq<string>, a: seq<string>, b: seq<string>)
    requires forall x :: x in s ==> (x in a <==> x in b)
    ensures Without(s, a) == Without(s, b)
  {
    if s != [] {
      assert s[0] in s;
      WithoutSame(s[1..], a, b);
    }
  }

  /** A symbol of `s` has a file among the sorted records iff it has one in
      the directory listing. */
  lemma ByAgeStems(listing: seq<Scraped>, s: seq<string>)
    ensures forall x :: x in s ==> (x in Keys(ByAge(listing, s)) <==> x in Keys(listing))
  {
    var b := ByAge(listing, s);
    SameElements(b, ScrapedOf(listing, s));
    forall x | x in s ensures x in Keys(b) <==> x in Keys(listing) {
      StemsIn(b, x);
      StemsIn(listing, x);
    }
  }

  /** The never-scraped symbols come first, in input order; after them the
      scraped ones, each once per scraped file, from least to most recently
      modified. */
  lemma PrioritizeOrder(syms: seq<string>, master: seq<string>, listing: seq<Scraped>)
    ensures var s := if syms == [] then master else syms;
      Prioritize(syms, master, listing) == Without(s, Keys(listing)) + Keys(ByAge(listing, s)) &&
      SortedBy(ByAge(listing, s), ModLe) &&
      multiset(ByAge(listing, s)) == multiset(ScrapedOf(listing, s))
  {
    var s := if syms == [] then master else syms;
    ModLeTotalPreorder();
    SortSorted(ScrapedOf(listing, s), ModLe);
    ByAgeStems(listing, s);
    WithoutSame(s, Keys(ByAge(listing, s)), Keys(listing));
  }

  lemma {:induction false} StemsAppend(a: seq<Scraped>, b: seq<Scraped>)
    ensures Keys(a + b) == Keys(a) + Keys(b)
  {
  }

  /** Taking the same element out of two permutations leaves permutations. */
  lemma RemoveFromPermutation<T>(a: seq<T>, b: seq<T>, j: nat)
    requires multiset(a) == multiset(b)
    requires a != [] && j < |b| && b[j] == a[0]
    ensures multiset(a[1..]) == multiset(b[..j] + b[j + 1..])
  {
    assert a == [a[0]] + a[1..];
    assert b == b[..j] + [b[j]] + b[j + 1..];
    var rest := b[..j] + b[j + 1..];
    forall y ensures multiset(a[1..])[y] == multiset(rest)[y] {
      assert multiset(a)[y] == multiset{a[0]}[y] + multiset(a[1..])[y];
      assert multiset(b)[y] == multiset(b[..j])[y] + multiset{a[0]}[y] + multiset(b[j + 1..])[y];
    }
  }

  /** Reordering the records reorders their stems. */
  lemma {:induction false} StemsPermutation(a: seq<Scraped>, b: seq<Scraped>)
    requires multiset(a) == multiset(b)
    ensures multiset(Keys(a)) == multiset(Keys(b))
    decreases |a|
  {
    if a == [] {
      assert |b| == |multiset(b)| == 0;
    } else {
      var x := a[0];
      assert x in multiset(b);
      var j :| 0 <= j < |b| && b[j] == x;
      var rest := b[..j] + b[j + 1..];
      RemoveFromPermutation(a, b, j);
      StemsPermutation(a[1..], rest);
      StemsSplit(b, j);
      StemsAppend(b[..j], b[j + 1..]);
      assert a == [x] + a[1..];
      StemsAppend([x], a[1..]);
      MultisetMiddle(Keys(b[..j]), Keys(b[j + 1..]), Keys(a[1..]), x.0);
    }
  }

  lemma StemsSplit(b: seq<Scraped>, j: nat)
    requires j < |b|
    ensures Keys(b) == Keys(b[..j]) + [b[j].0] + Keys(b[j + 1..])
  {
    var r := Keys(b[..j]) + [b[j].0] + Keys(b[j + 1..]);
    forall i | 0 <= i < |b| ensures Keys(b)[i] == r[i] {
      if i < j {
        assert r[i] == Keys(b[..j])[i] == b[..j][i].0;
      } else if i > j {
        assert r[i] == Keys(b[j + 1..])[i - j - 1] == b[j + 1..][i - j - 1].0;
      }
    }
  }

  lemma MultisetMiddle(s1: seq<string>, s2: seq<string>, t: seq<string>, y: string)
    requires multiset(t) == multiset(s1 + s2)
    ensures multiset([y] + t) == multiset(s1 + [y] + s2)
  {
  }

  lemma {:induction false} ScrapedOfNoDups(listing: seq<Scraped>, s: seq<string>)
    requires NoDups(Keys(listing))
    ensures NoDups(Keys(ScrapedOf(listing, s)))
  {
    if listing != [] {
      assert NoDups(Keys(listing[1..])) by {
        forall i, j | 0 <= i < j < |listing[1..]| ensures Keys(listing[1..])[i] != Keys(listing[1..])[j] {
          assert Keys(listing)[i + 1] == listing[i + 1].0;
        }
      }
      ScrapedOfNoDups(listing[1..], s);
      if listing[0].0 in s {
        var rest := ScrapedOf(listing[1..], s);
        forall i | 0 <= i < |rest| ensures rest[i].0 != listing[0].0 {
          assert rest[i] in rest;
          var j :| 0 <= j < |listing[1..]| && listing[1..][j] == rest[i];
          assert Keys(listing)[j + 1] == rest[i].0;
        }
        StemsAppend([listing[0]], rest);
      }
    }
  }

  lemma {:induction false} WithoutNoDups(s: seq<string>, excl: seq<string>)
    requires NoDups(s)
    ensures NoDups(Without(s, excl))
  {
    if s != [] {
      assert NoDups(s[1..]) by {
        forall i, j | 0 <= i < j < |s[1..]| ensures s[1..][i] != s[1..][j] {
          assert s[1..][i] == s[i + 1] && s[1..][j] == s[j + 1];
        }
      }
      WithoutNoDups(s[1..], excl);
      if s[0] !in excl {
        assert s[0] !in s[1..];
        assert s[0] !in Without(s[1..], excl);
      }
    }
  }

  /** Two duplicate-free sequences with the same elements are permutations
      of each other. */
  lemma SameSetNoDups(a: seq<string>, b: seq<string>)
    requires NoDups(a) && NoDups(b)
    requires forall x :: x in a <==> x in b
    ensures multiset(a) == multiset(b)
  {
    forall x ensures multiset(a)[x] == multiset(b)[x] {
      if x in a {
        MultisetOfNoDups(a, x);
        MultisetOfNoDups(b, x);
      }
    }
  }

  /** For distinct input symbols and distinct file stems, the result is a
      permutation of the input. */
  lemma PrioritizePermutation(syms: seq<string>, master: seq<string>, listing: seq<Scraped>)
    requires NoDups(if syms == [] then master else syms)
    requires NoDups(Keys(listing))
    ensures multiset(Prioritize(syms, master, listing)) == multiset(if syms == [] then master else syms)
  {
    var s := if syms == [] then master else syms;
    var f := ScrapedOf(listing, s);
    var last := Keys(ByAge(listing, s));
    var first := Without(s, last);
    var r := first + last;
    ScrapedOfNoDups(listing, s);
    StemsPermutation(ByAge(listing, s), f);
    NoDupsOfPermutation(Keys(f), last);
    WithoutNoDups(s, last);
    forall i, j | 0 <= i < j < |r| ensures r[i] != r[j] {
      if j < |first| {
        assert r[i] == first[i] && r[j] == first[j];
      } else if i >= |first| {
        assert r[i] == last[i - |first|] && r[j] == last[j - |first|];
      } else {
        assert r[i] == first[i] && first[i] in first;
        assert r[j] == last[j - |first|] && last[j - |first|] in last;
      }
    }
    ByAgeStems(listing, s);
    forall x ensures x in r <==> x in s {
      if x in last {
        SameElements(Keys(f), last);
        StemsIn(f, x);
      }
    }
    SameSetNoDups(r, s);
  }
}
