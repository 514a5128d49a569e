/**
 * The synchronous client: one object whose quota and provenance fields change as requests
 * are made, over a usage counter, with the transport as an oracle `fetch`.
 */
module Client {
  import opened Outcomes
  import opened Json
  import opened UsageCounter
  import opened Settings
  import opened Requests
  import opened Pagination

  /** A Python dict of query parameters, shared by reference between the caller and the client. */
  class ParamDict {
    var items: ParamMap

    constructor (items: ParamMap)
      ensures this.items == items
    {
      this.items := items;
    }
  }

  /** `YaraspClient` with the fields of `_YaraspClientBase` that the request bookkeeping uses. */
  class YaraspClient {
    const baseUrl: string
    const ignoreParams: set<string>
    const safeMode: bool
    const dailyLimit: int
    const cacheOnly: bool
    const usageCounter: JsonUsageCounter
    var apiKey: Option<string>
    /** The `from_cache` flag of the last response: true, false, or None when unknown. */
    var lastResponseFromCache: Option<bool>
    /** Set while a paginated call is running, so that its pages are not counted one by one. */
    var inPagination: bool

    /** The dataclass constructor; `last_response_from_cache` starts as None and `_in_pagination` as False. */
    constructor (baseUrl: string, ignoreParams: set<string>, safeMode: bool, dailyLimit: int, cacheOnly: bool,
                 usageCounter: JsonUsageCounter, apiKey: Option<string>)
      ensures this.baseUrl == baseUrl && this.ignoreParams == ignoreParams && this.safeMode == safeMode
      ensures this.dailyLimit == dailyLimit && this.cacheOnly == cacheOnly
      ensures this.usageCounter == usageCounter && this.apiKey == apiKey
      ensures lastResponseFromCache == None && !inPagination
    {
      this.baseUrl := baseUrl;
      this.ignoreParams := ignoreParams;
      this.safeMode := safeMode;
      this.dailyLimit := dailyLimit;
      this.cacheOnly := cacheOnly;
      this.usageCounter := usageCounter;
      this.apiKey := apiKey;
      lastResponseFromCache := None;
      inPagination := false;
    }

    /** `is_from_cache`: only an exactly-true flag is a cache hit; false and unknown are not. */
    function IsFromCache(): (b: bool)
      reads this
      ensures b <==> lastResponseFromCache == Some(true)
    {
      lastResponseFromCache == Some(true)
    }

    /**
     * `_prepare_params`: a missing dict becomes a new one; otherwise the caller's own dict
     * loses its ignored keys. Then `"apikey"` is set to the configured key.
     */
    method PrepareParams(params: ParamDict?) returns (p: ParamDict)
      modifies params
      ensures params != null ==> p == params
      ensures params == null ==> fresh(p)
      ensures p.items == Prepared(if params == null then None else Some(old(params.items)), ignoreParams, apiKey)
    {
      if params == null {
        p := new ParamDict(map[]);
      } else {
        p := params;
        ghost var original := p.items;
        var keys := p.items.Keys;
        while keys != {}
          invariant keys <= original.Keys
          invariant p.items == original - (ignoreParams - keys)
          decreases keys
        {
          var key :| key in keys;
          if key in ignoreParams {
            p.items := p.items - {key};
          }
          keys := keys - {key};
        }
      }
      p.items := p.items["apikey" := ApikeyValue(apiKey)];
    }

    /** `_check_daily_limit`: raises exactly when safe mode is on and today's count has reached the limit. */
    method CheckDailyLimit(day: string) returns (o: Outcome<Error>)
      ensures o.Fail? <==> safeMode && usageCounter.GetCount(day) >= dailyLimit
      ensures o.Fail? ==> o.error == DailyLimitExceeded
    {
      var current := usageCounter.GetCount(day);
      if safeMode && current >= dailyLimit {
        o := Fail(DailyLimitExceeded);
      } else {
        o := Pass;
      }
    }

    /** `_increment_usage`. */
    method IncrementUsage(day: string)
      modifies usageCounter
      ensures usageCounter.data == Bumped(old(usageCounter.data), day)
    {
      var _ := usageCounter.Increment(day);
    }

    /**
     * `_log_and_check_limits`: records the response's provenance, then checks the limit and
     * increments only for a live response outside pagination with a valid key.
     */
    method LogAndCheckLimits(resp: Response, skipCounter: bool, day: string) returns (o: Outcome<Error>)
      modifies this, usageCounter
      ensures lastResponseFromCache == resp.fromCache
      ensures apiKey == old(apiKey) && inPagination == old(inPagination)
      ensures var a := Account(old(usageCounter.data), day, resp, skipCounter, old(inPagination), old(apiKey), safeMode, dailyLimit);
        o == a.outcome && usageCounter.data == a.data
    {
      lastResponseFromCache := resp.fromCache;
      o := Pass;
      if !skipCounter && !inPagination && lastResponseFromCache == Some(false) {
        if HasValidApikey(apiKey, resp.requestUrl) {
          o := CheckDailyLimit(day);
          if o.Pass? {
            IncrementUsage(day);
          }
        }
      }
    }

    /**
     * `get_page` inside `get`: fetch with the dict's current contents, do the quota step,
     * refuse a response not exactly from cache in cache-only mode, decode the body.
     */
    method GetPage(fetch: Fetcher, url: string, params: ParamDict, endpoint: string, day: string) returns (r: Result<Json, Error>)
      modifies this, usageCounter
      ensures lastResponseFromCache == fetch(url, params.items).fromCache
      ensures apiKey == old(apiKey) && inPagination == old(inPagination)
      ensures var s := SinglePage(old(usageCounter.data), day, fetch(url, params.items), old(inPagination), old(apiKey),
                                  safeMode, dailyLimit, cacheOnly, endpoint);
        r == s.result && usageCounter.data == s.data
    {
      var response := fetch(url, params.items);
      var o := LogAndCheckLimits(response, false, day);
      if o.Fail? {
        return Failure(o.error);
      }
      if cacheOnly && lastResponseFromCache != Some(true) {
        return Failure(CacheMiss(CacheMissMessage(endpoint)));
      }
      r := Success(DecodeBody(response.body));
    }

    /**
     * One page of the synchronous branch of `_get_paginated_results`: `get_page` with the
     * dict's current contents (never counted, as pagination is on), whether the response was
     * live, and what the page adds to the aggregate.
     */
    method AggregatePage(fetch: Fetcher, url: string, params: ParamDict, resultKey: Option<string>, endpoint: string, day: string)
      returns (items: Result<seq<Json>, Error>, data: Json, live: bool)
      requires inPagination
      modifies this, usageCounter
      ensures inPagination && apiKey == old(apiKey) && usageCounter.data == old(usageCounter.data)
      ensures var resp := fetch(url, params.items);
        && items == PageStep(resp, resultKey, cacheOnly, endpoint)
        && (items.Success? ==> data == DecodeBody(resp.body))
        && (live <==> resp.fromCache == Some(false))
        && lastResponseFromCache == resp.fromCache
    {
      PaginationPageUncounted(usageCounter.data, day, fetch(url, params.items), apiKey, safeMode, dailyLimit, cacheOnly, endpoint);
      var page := GetPage(fetch, url, params, endpoint, day);
      live := lastResponseFromCache == Some(false);
      if page.Failure? {
        return Failure(page.error), JNull, live;
      }
      data := page.value;
      items := PageItems(data, resultKey);
    }

    /** One turn of that loop: `params["offset"]` set to `offset`, then the page it selects. */
    method PageAtOffset(fetch: Fetcher, url: string, params: ParamDict, ghost base: ParamMap, resultKey: Option<string>,
                        limit: int, ghost prev: int, offset: int, endpoint: string, day: string)
      returns (items: Result<seq<Json>, Error>, live: bool)
      requires inPagination
      requires params.items == PageParams(base, limit, prev)
      modifies this, params, usageCounter
      ensures inPagination && apiKey == old(apiKey) && usageCounter.data == old(usageCounter.data)
      ensures params.items == PageParams(base, limit, offset)
      ensures var resp := fetch(url, PageParams(base, limit, offset));
        && items == PageStep(resp, resultKey, cacheOnly, endpoint)
        && (live <==> resp.fromCache == Some(false))
        && lastResponseFromCache == resp.fromCache
    {
      params.items := params.items["offset" := PInt(offset)];
      assert params.items == PageParams(base, limit, offset);
      var data;
      items, data, live := AggregatePage(fetch, url, params, resultKey, endpoint, day);
    }

    /**
     * The `while offset + limit < total` loop of the synchronous branch of
     * `_get_paginated_results`: the pages after the first, at `Offsets(offset0, limit, total)`,
     * fetched through the shared parameter dict and aggregated in order; the first error ends it.
     * The dict keeps the offset of the last page fetched, and the provenance is that page's.
     */
    method FetchLaterPages(fetch: Fetcher, url: string, params: ParamDict, ghost base: ParamMap, resultKey: Option<string>,
                           limit: int, offset0: int, total: int, endpoint: string, day: string)
      returns (r: Result<seq<Json>, Error>, anyLive: bool)
      requires limit > 0 && inPagination
      requires params.items == PageParams(base, limit, 0)
      modifies this, params, usageCounter
      ensures inPagination && apiKey == old(apiKey) && usageCounter.data == old(usageCounter.data)
      ensures r == CollectFrom(Remaining(fetch, url, base, limit, offset0, total), resultKey, cacheOnly, endpoint)
      ensures r.Success? ==> (anyLive <==> AnyLive(Remaining(fetch, url, base, limit, offset0, total)))
      ensures var fetched := Fetched(fetch, url, base, limit, Offsets(offset0, limit, total), resultKey, cacheOnly, endpoint);
        && params.items == PageParams(base, limit, LastOr(0, fetched))
        && lastResponseFromCache == FlagAfter(fetch, url, base, limit, fetched, old(lastResponseFromCache))
    {
      ghost var all := Remaining(fetch, url, base, limit, offset0, total);
      ghost var target := CollectFrom(all, resultKey, cacheOnly, endpoint);
      ghost var allLive := AnyLive(all);
      ghost var fetchedAll := Fetched(fetch, url, base, limit, Offsets(offset0, limit, total), resultKey, cacheOnly, endpoint);
      ghost var done: seq<int> := [];
      var offset := offset0;
      var aggregated: seq<Json> := [];
      anyLive := false;
      FirstState(fetch, url, base, limit, offset0, total, resultKey, cacheOnly, endpoint);
      while offset + limit < total
        invariant LoopState(fetch, url, base, limit, offset, total, resultKey, cacheOnly, endpoint,
                            aggregated, anyLive, done, target, allLive, fetchedAll)
        invariant params.items == PageParams(base, limit, LastOr(0, done))
        invariant lastResponseFromCache == FlagAfter(fetch, url, base, limit, done, old(lastResponseFromCache))
        invariant inPagination && apiKey == old(apiKey) && usageCounter.data == old(usageCounter.data)
        decreases total - offset
      {
        ghost var prev := offset;
        offset := offset + limit;
        var pageItems, live := PageAtOffset(fetch, url, params, base, resultKey, limit, LastOr(0, done), offset, endpoint, day);
        NextPage(fetch, url, base, limit, prev, offset, total, resultKey, cacheOnly, endpoint,
                 aggregated, anyLive, done, target, allLive, fetchedAll, pageItems, live);
        assert LastOr(0, done + [offset]) == offset;
        if pageItems.Failure? {
          return Failure(pageItems.error), anyLive;
        }
        anyLive := anyLive || live;
        aggregated := aggregated + pageItems.value;
        done := done + [offset];
      }
      LastPage(fetch, url, base, limit, offset, total, resultKey, cacheOnly, endpoint,
               aggregated, anyLive, done, target, allLive, fetchedAll);
      r := Success(aggregated);
    }

    /**
     * The page-fetching part of the synchronous branch of `_get_paginated_results`: `limit`
     * and `offset` written into the caller's dict, the first page, its bounds, then the later
     * pages; what `Paginated` computes, and whether some page was live. The dict and the
     * provenance are left as the last page fetched, at offset `LastFetched`, set them.
     */
    method CollectPages(fetch: Fetcher, url: string, params: ParamDict, resultKey: Option<string>,
                        limit: int, endpoint: string, day: string) returns (r: Result<seq<Json>, Error>, anyLive: bool)
      requires limit > 0 && inPagination
      modifies this, params, usageCounter
      ensures inPagination && apiKey == old(apiKey) && usageCounter.data == old(usageCounter.data)
      ensures var p := Paginated(fetch, url, old(params.items), resultKey, limit, cacheOnly, endpoint);
        && (p.Failure? ==> r == Failure(p.error))
        && (p.Success? ==> r == Success(p.value.items) && (anyLive <==> AnyLive(p.value.pages)))
      ensures var last := PageParams(old(params.items), limit,
                                     LastFetched(fetch, url, old(params.items), resultKey, limit, cacheOnly, endpoint));
        params.items == last && lastResponseFromCache == fetch(url, last).fromCache
    {
      ghost var base := params.items;
      ghost var first := fetch(url, PageParams(base, limit, 0));
      var aggregated: seq<Json> := [];
      params.items := params.items["limit" := PInt(limit)];
      params.items := params.items["offset" := PInt(0)];
      assert params.items == PageParams(base, limit, 0);
      var items, data, live := AggregatePage(fetch, url, params, resultKey, endpoint, day);
      assert items == PageStep(first, resultKey, cacheOnly, endpoint) && (live <==> first.fromCache == Some(false));
      if items.Failure? {
        FirstPageFails(fetch, url, base, resultKey, limit, cacheOnly, endpoint, items);
        return Failure(items.error), live;
      }
      aggregated := aggregated + items.value;
      assert aggregated == items.value;
      var bounds := PaginationOf(data);
      assert bounds == PaginationOf(DecodeBody(first.body));
      if bounds.Failure? {
        BoundsFail(fetch, url, base, resultKey, limit, cacheOnly, endpoint, bounds);
        return Failure(bounds.error), live;
      }
      var more, anyLaterLive := FetchLaterPages(fetch, url, params, base, resultKey, limit,
                                                bounds.value.offset, bounds.value.total, endpoint, day);
      LaterPages(fetch, url, base, resultKey, limit, cacheOnly, endpoint, items, bounds.value, more);
      LaterFlag(fetch, url, base, resultKey, limit, cacheOnly, endpoint, bounds.value);
      if more.Failure? {
        return Failure(more.error), live;
      }
      aggregated := aggregated + more.value;
      assert aggregated == items.value + more.value;
      r, anyLive := Success(aggregated), live || anyLaterLive;
    }

    /**
     * The synchronous branch of `_get_paginated_results`: pagination on, the pages, then one
     * quota check and increment for the whole call if a page was live and the key is present.
     * On normal exit the pagination flag is cleared and the provenance is "from cache" exactly
     * when no page was live; when an exception ends the call, the flag stays set.
     */
    method GetPaginatedResults(fetch: Fetcher, url: string, params: ParamDict, resultKey: Option<string>,
                               limit: int, endpoint: string, day: string) returns (r: Result<seq<Json>, Error>)
      requires limit > 0
      modifies this, params, usageCounter
      ensures apiKey == old(apiKey)
      ensures var s := PaginatedOutcome(old(usageCounter.data), day, fetch, url, old(params.items), resultKey, limit,
                                        old(apiKey), safeMode, dailyLimit, cacheOnly, endpoint);
        r == s.result && usageCounter.data == s.data
      ensures inPagination <==> r.Failure?
      ensures r.Success? ==> var p := Paginated(fetch, url, old(params.items), resultKey, limit, cacheOnly, endpoint);
        p.Success? && lastResponseFromCache == Some(!AnyLive(p.value.pages)) && (IsFromCache() <==> !AnyLive(p.value.pages))
      ensures var last := PageParams(old(params.items), limit,
                                     LastFetched(fetch, url, old(params.items), resultKey, limit, cacheOnly, endpoint));
        params.items == last && (r.Failure? ==> lastResponseFromCache == fetch(url, last).fromCache)
    {
      inPagination := true;
      var aggregated, anyRealRequest := CollectPages(fetch, url, params, resultKey, limit, endpoint, day);
      if aggregated.Failure? {
        return aggregated;
      }
      if anyRealRequest && KeyPresent(apiKey) {
        var o := CheckDailyLimit(day);
        if o.Fail? {
          return Failure(o.error);
        }
        IncrementUsage(day);
      }
      lastResponseFromCache := Some(!anyRealRequest);
      inPagination := false;
      r := aggregated;
    }

    /**
     * `get`: prepare the caller's parameters, build the endpoint URL, then fetch one page or
     * all pages (of `DefaultPageLimit` results each) aggregated into a list.
     */
    method Get(fetch: Fetcher, endpoint: string, params: ParamDict?, autoPaginate: bool, resultKey: Option<string>,
               day: string) returns (r: Result<Json, Error>)
      modifies this, usageCounter, params
      ensures apiKey == old(apiKey)
      ensures var prepared := Prepared(if params == null then None else Some(old(params.items)), ignoreParams, old(apiKey));
        var url := BuildUrl(baseUrl, endpoint);
        !autoPaginate ==>
          var s := SinglePage(old(usageCounter.data), day, fetch(url, prepared), old(inPagination), old(apiKey),
                              safeMode, dailyLimit, cacheOnly, endpoint);
          && r == s.result && usageCounter.data == s.data && (params != null ==> params.items == prepared)
          && lastResponseFromCache == fetch(url, prepared).fromCache && inPagination == old(inPagination)
      ensures var prepared := Prepared(if params == null then None else Some(old(params.items)), ignoreParams, old(apiKey));
        var url := BuildUrl(baseUrl, endpoint);
        autoPaginate ==>
          var s := PaginatedOutcome(old(usageCounter.data), day, fetch, url, prepared, resultKey, DefaultPageLimit,
                                    old(apiKey), safeMode, dailyLimit, cacheOnly, endpoint);
          && usageCounter.data == s.data
          && (s.result.Success? ==> r == Success(JArr(s.result.value)))
          && (s.result.Failure? ==> r == Failure(s.result.error))
      ensures var prepared := Prepared(if params == null then None else Some(old(params.items)), ignoreParams, old(apiKey));
        var url := BuildUrl(baseUrl, endpoint);
        var last := PageParams(prepared, DefaultPageLimit,
                               LastFetched(fetch, url, prepared, resultKey, DefaultPageLimit, cacheOnly, endpoint));
        var p := Paginated(fetch, url, prepared, resultKey, DefaultPageLimit, cacheOnly, endpoint);
        autoPaginate ==>
          && (inPagination <==> r.Failure?)
          && (r.Success? ==> p.Success? && lastResponseFromCache == Some(!AnyLive(p.value.pages)))
          && (r.Failure? ==> lastResponseFromCache == fetch(url, last).fromCache)
          && (params != null ==> params.items == last)
    {
      var p := PrepareParams(params);
      var url := BuildUrl(baseUrl, endpoint);
      if autoPaginate {
        var all := GetPaginatedResults(fetch, url, p, resultKey, DefaultPageLimit, endpoint, day);
        r := if all.Success? then Success(JArr(all.value)) else Failure(all.error);
      } else {
        r := GetPage(fetch, url, p, endpoint, day);
      }
    }
  }
}
