/**
 * The bookkeeping the client does around one request: preparing the query parameters,
 * building the endpoint URL, deciding whether a response counts against the daily quota,
 * enforcing the quota, and refusing a non-cached page in cache-only mode.
 */
module Requests {
  import opened Outcomes
  import opened Text
  import opened Json
  import opened UsageCounter
  import opened SafeStorage

  // ---------------------------------------------------------------------------
  // Query parameters

  /** A query parameter value: a string, an integer, or Python's None. */
  datatype ParamValue = PStr(s: string) | PInt(i: int) | PNone

  type ParamMap = map<string, ParamValue>

  /** The value `params["apikey"]` is set to: the configured key, or None when there is none. */
  function ApikeyValue(apiKey: Option<string>): ParamValue {
    if apiKey.Some? then PStr(apiKey.value) else PNone
  }

  /**
   * `_prepare_params`: no parameters become an empty dict; otherwise every key in
   * `ignore` is removed; then `"apikey"` is set to the configured key.
   */
  function Prepared(params: Option<ParamMap>, ignore: set<string>, apiKey: Option<string>): (r: ParamMap)
    ensures "apikey" in r && r["apikey"] == ApikeyValue(apiKey)
    ensures forall k :: k in r && k != "apikey" ==> params.Some? && k in params.value && k !in ignore
    ensures forall k :: params.Some? && k in params.value && k !in ignore && k != "apikey" ==>
      k in r && r[k] == params.value[k]
    ensures params.None? ==> r == map["apikey" := ApikeyValue(apiKey)]
  {
    (if params.None? then map[] else params.value - ignore)["apikey" := ApikeyValue(apiKey)]
  }

  // ---------------------------------------------------------------------------
  // Endpoint URLs

  /** `_build_url`: the base URL, a slash, the endpoint without leading or trailing slashes, a slash. */
  function BuildUrl(baseUrl: string, endpoint: string): (url: string)
    ensures |url| >= |baseUrl| + 2
    ensures url[..|baseUrl| + 1] == baseUrl + "/" && url[|url| - 1] == '/'
    ensures url[|baseUrl| + 1..|url| - 1] == Strip(endpoint, {'/'})
  {
    baseUrl + "/" + Strip(endpoint, {'/'}) + "/"
  }

  /** The endpoint part of a built URL neither starts nor ends with a slash. */
  lemma BuildUrlTrimmed(endpoint: string)
    ensures var e := Strip(endpoint, {'/'}); e != [] ==> e[0] != '/' && e[|e| - 1] != '/'
  {
    var l := TrimLeft(endpoint, {'/'});
    var e := Strip(endpoint, {'/'});
    if e != [] {
      assert e[0] == l[0];
    }
  }

  /** Extra slashes around the endpoint, or stripping it first, do not change the URL. */
  lemma BuildUrlNormalises(baseUrl: string, endpoint: string)
    ensures BuildUrl(baseUrl, "/" + endpoint + "/") == BuildUrl(baseUrl, endpoint)
    ensures BuildUrl(baseUrl, Strip(endpoint, {'/'})) == BuildUrl(baseUrl, endpoint)
  {
    StripIdempotent(endpoint, {'/'});
    assert "/" + endpoint + "/" == "/" + (endpoint + "/");
    TrimLeftDropSlash(endpoint + "/");
    TrimLeftAppendSlash(endpoint);
    TrimRightSlash(TrimLeft(endpoint, {'/'}));
  }

  /** A leading slash is trimmed away. */
  lemma TrimLeftDropSlash(s: string)
    ensures TrimLeft("/" + s, {'/'}) == TrimLeft(s, {'/'})
  {
    var t := "/" + s;
    var m := FrontCut(s, {'/'}, 0);
    forall k | 0 <= k < m + 1 ensures t[k] in {'/'} {
      if k > 0 {
        assert t[k] == s[k - 1];
      }
    }
    FrontCutUnique(t, {'/'}, 0, m + 1);
    assert t[m + 1..] == s[m..];
  }

  /** Trimming leading slashes of `s + "/"` is trimming them from `s`, then appending the slash. */
  lemma TrimLeftAppendSlash(s: string)
    ensures TrimLeft(s + "/", {'/'}) == (if TrimLeft(s, {'/'}) == "" then "" else TrimLeft(s, {'/'}) + "/")
  {
    var t := s + "/";
    var n := FrontCut(s, {'/'}, 0);
    if n < |s| {
      FrontCutUnique(t, {'/'}, 0, n);
      assert t[n..] == s[n..] + "/";
    } else {
      FrontCutUnique(t, {'/'}, 0, |t|);
    }
  }

  /** A trailing slash added to a string is trimmed away again. */
  lemma TrimRightSlash(s: string)
    ensures TrimRight(s + "/", {'/'}) == TrimRight(s, {'/'})
  {
    var t := s + "/";
    var n := BackCut(s, {'/'}, 0, |s|);
    BackCutUnique(t, {'/'}, 0, |t|, n);
    assert t[..n] == s[..n];
  }

  // ---------------------------------------------------------------------------
  // Responses and errors

  /** The exceptions the client raises. */
  datatype Error =
    | DailyLimitExceeded                 // RuntimeError("Daily API request limit exceeded.")
    | CacheMiss(message: string)         // CacheMissError
    | MalformedPage(reason: string)      // AttributeError / TypeError on a page of unexpected shape

  /**
   * What the cache-aware transport returns for one GET: the body, the `from_cache` extension
   * (true, false, or absent) and the URL the request was actually sent to.
   */
  datatype Response = Response(body: Body, fromCache: Option<bool>, requestUrl: Url)

  // ---------------------------------------------------------------------------
  // API key validity

  /** `self.api_key` is set and not blank (`not api_key or not api_key.strip()` is false). */
  predicate KeyPresent(apiKey: Option<string>) {
    apiKey.Some? && apiKey.value != "" && !IsBlank(apiKey.value)
  }

  /** `dict(pairs).get(name)`: the value of the last pair with that exact name. */
  function LookupLast(q: Query, name: string): (r: Option<string>)
    ensures r.Some? <==> exists p :: p in q && p.name == name
    ensures r.Some? ==> QueryPair(name, r.value) in q
    ensures r.Some? ==> exists i :: 0 <= i < |q| && q[i] == QueryPair(name, r.value) && LastNamed(q, name, i)
  {
    if q == [] then None
    else if q[|q| - 1].name == name then
      assert LastNamed(q, name, |q| - 1);
      Some(q[|q| - 1].value)
    else
      var r := LookupLast(q[..|q| - 1], name);
      assert forall p :: p in q ==> p in q[..|q| - 1] || p == q[|q| - 1];
      if r.Some? then
        var i :| 0 <= i < |q| - 1 && q[..|q| - 1][i] == QueryPair(name, r.value) && LastNamed(q[..|q| - 1], name, i);
        assert LastNamed(q, name, i);
        r
      else r
  }

  /** No field after index `i` has the name `name`. */
  predicate LastNamed(q: Query, name: string, i: int) {
    forall j :: 0 <= j < |q| && i < j ==> q[j].name != name
  }

  /**
   * `_has_valid_apikey`: the configured key is present and not blank, and the request URL's
   * `apikey` value, looked up with exact case in `dict(parse_qsl(query))`, is not empty.
   */
  predicate HasValidApikey(apiKey: Option<string>, url: Url) {
    KeyPresent(apiKey) && LookupLast(ParseQsl(url.query), "apikey").GetOr("") != ""
  }

  /**
   * The key is valid exactly when the configured key has a non-whitespace character and the
   * URL carries some exact-case `apikey` field with a non-empty value. Because `parse_qsl`
   * drops blank values, an empty `apikey=` field is the same as no field at all.
   */
  lemma HasValidApikeyIff(apiKey: Option<string>, url: Url)
    ensures HasValidApikey(apiKey, url) <==>
      && apiKey.Some?
      && (exists i :: 0 <= i < |apiKey.value| && apiKey.value[i] !in PySpace)
      && (exists p :: p in url.query && p.name == "apikey" && p.value != "")
  {
    if apiKey.Some? {
      StripEmptyIff(apiKey.value, PySpace);
    }
    var parsed := ParseQsl(url.query);
    var v := LookupLast(parsed, "apikey");
    if v.Some? {
      assert QueryPair("apikey", v.value) in parsed;
    }
  }

  /** A None, empty or whitespace-only key is never valid, whatever the URL. */
  lemma BlankKeyNeverValid(url: Url, k: string)
    requires forall i :: 0 <= i < |k| ==> k[i] in PySpace
    ensures !HasValidApikey(None, url)
    ensures !HasValidApikey(Some(k), url)
  {
    StripEmptyIff(k, PySpace);
  }

  /** A URL whose `apikey` field is empty or missing is never valid, whatever the key. */
  lemma EmptyUrlKeyNeverValid(apiKey: Option<string>, url: Url)
    requires forall p :: p in url.query && p.name == "apikey" ==> p.value == ""
    ensures !HasValidApikey(apiKey, url)
  {
    HasValidApikeyIff(apiKey, url);
  }

  // ---------------------------------------------------------------------------
  // Quota accounting

  /** `_check_daily_limit` raises exactly when safe mode is on and the count has reached the limit. */
  predicate LimitReached(safeMode: bool, count: int, dailyLimit: int) {
    safeMode && count >= dailyLimit
  }

  /**
   * The guard of `_log_and_check_limits`: counting is not skipped, no pagination is in
   * progress, the response is exactly not from cache, and the key is valid.
   */
  predicate Counts(resp: Response, skipCounter: bool, inPagination: bool, apiKey: Option<string>) {
    !skipCounter && !inPagination && resp.fromCache == Some(false) && HasValidApikey(apiKey, resp.requestUrl)
  }

  /** The outcome of a quota step and the counter's map afterwards. */
  datatype Accounting = Accounting(outcome: Outcome<Error>, data: map<string, nat>)

  /** The counting part of `_log_and_check_limits`: check the limit, then increment. */
  function Account(data: map<string, nat>, day: string, resp: Response, skipCounter: bool,
                   inPagination: bool, apiKey: Option<string>, safeMode: bool, dailyLimit: int): Accounting
  {
    if Counts(resp, skipCounter, inPagination, apiKey) then
      if LimitReached(safeMode, Count(data, day), dailyLimit) then Accounting(Fail(DailyLimitExceeded), data)
      else Accounting(Pass, Bumped(data, day))
    else Accounting(Pass, data)
  }

  /**
   * The count goes up by exactly one when the response counts and the limit is not reached;
   * otherwise, including for a response from cache or of unknown provenance, it stays; other
   * days never change.
   */
  lemma AccountCountsOnce(data: map<string, nat>, day: string, resp: Response, skipCounter: bool,
                          inPagination: bool, apiKey: Option<string>, safeMode: bool, dailyLimit: int)
    ensures var a := Account(data, day, resp, skipCounter, inPagination, apiKey, safeMode, dailyLimit);
      && (Count(a.data, day) == Count(data, day) + 1 <==>
            Counts(resp, skipCounter, inPagination, apiKey) && !LimitReached(safeMode, Count(data, day), dailyLimit))
      && (Count(a.data, day) == Count(data, day) || Count(a.data, day) == Count(data, day) + 1)
      && (resp.fromCache != Some(false) ==> a.data == data && a.outcome == Pass)
      && (forall d :: d != day ==> Count(a.data, d) == Count(data, d))
  {
  }

  /** The step raises exactly when it would count and the limit is reached, and then leaves the counter alone. */
  lemma AccountRaisesIff(data: map<string, nat>, day: string, resp: Response, skipCounter: bool,
                         inPagination: bool, apiKey: Option<string>, safeMode: bool, dailyLimit: int)
    ensures var a := Account(data, day, resp, skipCounter, inPagination, apiKey, safeMode, dailyLimit);
      && (a.outcome.Fail? <==> Counts(resp, skipCounter, inPagination, apiKey) && safeMode && Count(data, day) >= dailyLimit)
      && (a.outcome.Fail? ==> a.outcome.error == DailyLimitExceeded && a.data == data)
  {
  }

  /** In safe mode, check-then-increment never takes a count at or below the limit above it. */
  lemma AccountKeepsBound(data: map<string, nat>, day: string, resp: Response, skipCounter: bool,
                          inPagination: bool, apiKey: Option<string>, dailyLimit: int)
    requires Count(data, day) <= dailyLimit
    ensures Count(Account(data, day, resp, skipCounter, inPagination, apiKey, true, dailyLimit).data, day) <= dailyLimit
  {
  }

  // ---------------------------------------------------------------------------
  // One page

  /** The text of the `CacheMissError` that `get_page` raises in cache-only mode. */
  function CacheMissMessage(endpoint: string): string {
    "Data " + "not found in cache" + " for endpoint '" + endpoint + "'. Set " + "cache_only=False" + " to allow API requests."
  }

  /** The message, lower-cased, says the data was not found in the cache. */
  lemma CacheMissSaysNotFound(endpoint: string)
    ensures Contains(Lower(CacheMissMessage(endpoint)), "not found in cache")
  {
    var b := "not found in cache";
    var m := CacheMissMessage(endpoint);
    assert m[5..23] == b;
    var l := Lower(m);
    LowerKeeps(b);
    forall k | 0 <= k < 18 ensures l[5 + k] == b[k] {
      assert m[5 + k] == b[k];
      assert Lower(b)[k] == LowerChar(b[k]);
    }
    assert l[5..23] == b;
    assert OccursAt(l, b, 5);
  }

  /** The message names the setting that allows API requests again. */
  lemma CacheMissSaysHowToAllow(endpoint: string)
    ensures Contains(CacheMissMessage(endpoint), "cache_only=False")
  {
    var a := "Data " + "not found in cache" + " for endpoint '" + endpoint + "'. Set ";
    var b := "cache_only=False";
    var c := " to allow API requests.";
    var m := CacheMissMessage(endpoint);
    assert m == a + b + c;
    assert m[|a|..|a| + |b|] == b;
    assert OccursAt(m, b, |a|);
  }

  /**
   * The rest of `get_page` after the quota step: in cache-only mode a response whose
   * provenance is not exactly true is a cache miss; otherwise the decoded body.
   */
  function PageData(resp: Response, cacheOnly: bool, endpoint: string): (r: Result<Json, Error>)
    ensures r.Failure? <==> cacheOnly && resp.fromCache != Some(true)
    ensures r.Failure? ==> r.error == CacheMiss(CacheMissMessage(endpoint))
    ensures r.Success? ==> r.value == DecodeBody(resp.body)
  {
    if cacheOnly && resp.fromCache != Some(true) then Failure(CacheMiss(CacheMissMessage(endpoint)))
    else Success(DecodeBody(resp.body))
  }

  /** The result of one request and the counter's map afterwards. */
  datatype Step<T> = Step(result: Result<T, Error>, data: map<string, nat>)

  /**
   * `get_page`: the quota step first (which may raise and otherwise may count), then the
   * cache-only check, then the decoded body.
   */
  function SinglePage(data: map<string, nat>, day: string, resp: Response, inPagination: bool,
                      apiKey: Option<string>, safeMode: bool, dailyLimit: int, cacheOnly: bool,
                      endpoint: string): Step<Json>
  {
    var a := Account(data, day, resp, false, inPagination, apiKey, safeMode, dailyLimit);
    if a.outcome.Fail? then Step(Failure(a.outcome.error), a.data)
    else Step(PageData(resp, cacheOnly, endpoint), a.data)
  }

  /** With safe mode on, a single page keeps the day's count at or below the daily limit. */
  lemma SinglePageKeepsBound(data: map<string, nat>, day: string, resp: Response, inPagination: bool,
                             apiKey: Option<string>, dailyLimit: int, cacheOnly: bool, endpoint: string)
    requires Count(data, day) <= dailyLimit
    ensures Count(SinglePage(data, day, resp, inPagination, apiKey, true, dailyLimit, cacheOnly, endpoint).data, day) <= dailyLimit
  {
    AccountKeepsBound(data, day, resp, false, inPagination, apiKey, dailyLimit);
  }

  /**
   * While the pagination flag is set, which a failed paginated call leaves behind, a single
   * page skips the quota step entirely: the counter never changes and the only possible
   * error is a cache miss.
   */
  lemma StuckFlagSkipsQuota(data: map<string, nat>, day: string, resp: Response, apiKey: Option<string>,
                            safeMode: bool, dailyLimit: int, cacheOnly: bool, endpoint: string)
    ensures var s := SinglePage(data, day, resp, true, apiKey, safeMode, dailyLimit, cacheOnly, endpoint);
      && s.data == data
      && (s.result.Failure? ==> s.result.error.CacheMiss?)
  {
  }

  /**
   * In cache-only mode a page whose provenance is false or unknown fails with a cache miss
   * (unless the quota check raised first), and the count can still have gone up for a live
   * response, since counting comes before the cache-only check.
   */
  lemma CacheOnlyRejectsUncached(data: map<string, nat>, day: string, resp: Response, inPagination: bool,
                                 apiKey: Option<string>, safeMode: bool, dailyLimit: int, endpoint: string)
    requires resp.fromCache != Some(true)
    ensures var s := SinglePage(data, day, resp, inPagination, apiKey, safeMode, dailyLimit, true, endpoint);
      && s.result.Failure?
      && (s.result.error == DailyLimitExceeded || s.result.error == CacheMiss(CacheMissMessage(endpoint)))
      && (resp.fromCache.None? ==> s.data == data && s.result.error.CacheMiss?)
  {
  }

  /** A page served from cache never counts and, in cache-only mode, is returned as decoded. */
  lemma CachedPageNotCounted(data: map<string, nat>, day: string, resp: Response, inPagination: bool,
                             apiKey: Option<string>, safeMode: bool, dailyLimit: int, cacheOnly: bool, endpoint: string)
    requires resp.fromCache == Some(true)
    ensures var s := SinglePage(data, day, resp, inPagination, apiKey, safeMode, dailyLimit, cacheOnly, endpoint);
      s.data == data && s.result == Success(DecodeBody(resp.body))
  {
  }
}
