/**
 * The pure specification of the synchronous branch of `_get_paginated_results`: which pages
 * are fetched, how their results are aggregated, and how the whole call is counted.
 */
module Pagination {
  import opened Outcomes
  import opened Json
  import opened UsageCounter
  import opened Requests

  /** The cache-aware transport as an oracle: the response to a GET of a URL with parameters. */
  type Fetcher = (string, ParamMap) -> Response

  /** The parameters of the page at `offset`: `params["limit"] = limit` and `params["offset"] = offset`. */
  function PageParams(base: ParamMap, limit: int, offset: int): ParamMap {
    base["limit" := PInt(limit)]["offset" := PInt(offset)]
  }

  /**
   * The offsets the loop `while offset + limit < total: offset += limit` visits after the
   * first page, starting from the first page's reported offset `o0`: `o0 + limit`,
   * `o0 + 2 * limit`, ..., each below `total`, up to the first `k` with `o0 + (k + 1) * limit >= total`.
   */
  function Offsets(o0: int, limit: int, total: int): seq<int>
    requires limit > 0
    decreases total - o0
  {
    if o0 + limit < total then [o0 + limit] + Offsets(o0 + limit, limit, total) else []
  }

  /**
   * The loop visits the `i`-th later page at `o0 + (i + 1) * limit`, every one below `total`,
   * and stops at the first page that would reach `total`.
   */
  lemma {:induction false} OffsetsVisited(o0: int, limit: int, total: int)
    requires limit > 0
    ensures var r := Offsets(o0, limit, total);
      && (forall i :: 0 <= i < |r| ==> r[i] == o0 + (i + 1) * limit && r[i] < total)
      && o0 + (|r| + 1) * limit >= total
    decreases total - o0
  {
    if o0 + limit < total {
      OffsetsVisited(o0 + limit, limit, total);
      var r := Offsets(o0, limit, total);
      var rest := Offsets(o0 + limit, limit, total);
      assert r == [o0 + limit] + rest;
      forall i | 0 <= i < |r|
        ensures r[i] == o0 + (i + 1) * limit
      {
        if i > 0 {
          assert r[i] == rest[i - 1];
          assert o0 + limit + i * limit == o0 + (i + 1) * limit;
        }
      }
      assert o0 + limit + (|rest| + 1) * limit == o0 + (|r| + 1) * limit;
    }
  }

  /** When the first page already reaches the total, no further page is fetched. */
  lemma OffsetsNoMorePages(o0: int, limit: int, total: int)
    requires limit > 0 && total <= o0 + limit
    ensures Offsets(o0, limit, total) == []
  {
  }

  /** With 192 results and pages of 100 starting at 0, exactly one more page is fetched, at offset 100. */
  lemma OffsetsExample()
    ensures Offsets(0, 100, 192) == [100]
  {
  }

  /** The responses to the pages at the given offsets, in fetch order. */
  function PagesAt(fetch: Fetcher, url: string, base: ParamMap, limit: int, offsets: seq<int>): seq<Response>
  {
    if offsets == [] then [] else [fetch(url, PageParams(base, limit, offsets[0]))] + PagesAt(fetch, url, base, limit, offsets[1..])
  }

  /** One fetch per offset, in order, each with the page's parameters. */
  lemma {:induction false} PagesAtFetches(fetch: Fetcher, url: string, base: ParamMap, limit: int, offsets: seq<int>)
    ensures var r := PagesAt(fetch, url, base, limit, offsets);
      && |r| == |offsets|
      && forall i :: 0 <= i < |r| ==> r[i] == fetch(url, PageParams(base, limit, offsets[i]))
  {
    if offsets != [] {
      PagesAtFetches(fetch, url, base, limit, offsets[1..]);
      var r := PagesAt(fetch, url, base, limit, offsets);
      forall i | 1 <= i < |r|
        ensures r[i] == fetch(url, PageParams(base, limit, offsets[i]))
      {
        assert r[i] == PagesAt(fetch, url, base, limit, offsets[1..])[i - 1];
        assert offsets[1..][i - 1] == offsets[i];
      }
    }
  }

  /** Python's truthiness of `result_key`: given and not the empty string. */
  predicate HasResultKey(resultKey: Option<string>) {
    resultKey.Some? && resultKey.value != ""
  }

  /**
   * What one page adds to the aggregate: with a result key, the list `data.get(result_key, [])`
   * (extended into the aggregate); without one, the page itself (appended).
   */
  function PageItems(data: Json, resultKey: Option<string>): Result<seq<Json>, Error> {
    if !HasResultKey(resultKey) then Success([data])
    else if !data.JObj? then Failure(MalformedPage("page is not an object"))
    else if resultKey.value !in data.fields then Success([])
    else match data.fields[resultKey.value]
      case JArr(xs) => Success(xs)
      case _ => Failure(MalformedPage("result is not a list"))
  }

  /** The first page's `total` and `offset`. */
  datatype Bounds = Bounds(total: int, offset: int)

  /** A pagination field as Python arithmetic sees it: absent is 0, a boolean is 0 or 1. */
  function IntField(fields: map<string, Json>, name: string): Result<int, Error> {
    if name !in fields then Success(0)
    else match fields[name]
      case JInt(n) => Success(n)
      case JBool(b) => Success(if b then 1 else 0)
      case _ => Failure(MalformedPage(name + " is not a number"))
  }

  /**
   * `data.get("pagination", {})`, then its `total` and `offset` (both default 0). The offset is
   * checked first because `offset + limit` is evaluated before the comparison with `total`.
   */
  function PaginationOf(data: Json): Result<Bounds, Error> {
    if !data.JObj? then Failure(MalformedPage("page is not an object"))
    else
      var p := if "pagination" in data.fields then data.fields["pagination"] else JObj(map[]);
      if !p.JObj? then Failure(MalformedPage("pagination is not an object"))
      else
        var offset :- IntField(p.fields, "offset");
        var total :- IntField(p.fields, "total");
        Success(Bounds(total, offset))
  }

  /** A page without pagination metadata reports a total of 0 at offset 0, so it is the only page. */
  lemma MissingPaginationIsOnePage(fields: map<string, Json>, limit: int)
    requires "pagination" !in fields && limit > 0
    ensures PaginationOf(JObj(fields)) == Success(Bounds(0, 0))
    ensures Offsets(0, limit, 0) == []
  {
  }

  /** In pagination mode a page is never counted: what remains is the cache-only check and the decoded body. */
  lemma PaginationPageUncounted(data: map<string, nat>, day: string, resp: Response, apiKey: Option<string>,
                                safeMode: bool, dailyLimit: int, cacheOnly: bool, endpoint: string)
    ensures SinglePage(data, day, resp, true, apiKey, safeMode, dailyLimit, cacheOnly, endpoint)
      == Step(PageData(resp, cacheOnly, endpoint), data)
  {
  }

  /** One page through `get_page` (in pagination mode, so never counted) and into the aggregate. */
  function PageStep(resp: Response, resultKey: Option<string>, cacheOnly: bool, endpoint: string): Result<seq<Json>, Error> {
    var data :- PageData(resp, cacheOnly, endpoint);
    PageItems(data, resultKey)
  }

  /** The aggregate of the later pages, in fetch order; the first failing page's error stops it. */
  function CollectFrom(resps: seq<Response>, resultKey: Option<string>, cacheOnly: bool, endpoint: string): Result<seq<Json>, Error> {
    if resps == [] then Success([])
    else Then(PageStep(resps[0], resultKey, cacheOnly, endpoint), CollectFrom(resps[1..], resultKey, cacheOnly, endpoint))
  }

  /** Sequencing two aggregations: the first error wins, otherwise the results are concatenated. */
  function Then(a: Result<seq<Json>, Error>, b: Result<seq<Json>, Error>): Result<seq<Json>, Error> {
    if a.Failure? then a else if b.Failure? then b else Success(a.value + b.value)
  }

  /** Sequencing is associative: only the order of the parts matters. */
  lemma ThenAssoc(a: Result<seq<Json>, Error>, b: Result<seq<Json>, Error>, c: Result<seq<Json>, Error>)
    ensures Then(a, Then(b, c)) == Then(Then(a, b), c)
  {
    if a.Success? && b.Success? && c.Success? {
      assert a.value + (b.value + c.value) == (a.value + b.value) + c.value;
    }
  }

  /** Nothing aggregated in front changes nothing. */
  lemma ThenEmpty(a: Result<seq<Json>, Error>)
    ensures Then(Success([]), a) == a
  {
    if a.Success? {
      assert [] + a.value == a.value;
    }
  }

  /** Aggregation respects fetch order: the pages of `a` come first, then those of `b`. */
  lemma {:induction false} CollectFromAppend(a: seq<Response>, b: seq<Response>, resultKey: Option<string>, cacheOnly: bool, endpoint: string)
    ensures CollectFrom(a + b, resultKey, cacheOnly, endpoint)
      == Then(CollectFrom(a, resultKey, cacheOnly, endpoint), CollectFrom(b, resultKey, cacheOnly, endpoint))
  {
    var rb := CollectFrom(b, resultKey, cacheOnly, endpoint);
    if a == [] {
      assert a + b == b;
      ThenEmpty(rb);
    } else {
      assert (a + b)[0] == a[0];
      assert (a + b)[1..] == a[1..] + b;
      CollectFromAppend(a[1..], b, resultKey, cacheOnly, endpoint);
      ThenAssoc(PageStep(a[0], resultKey, cacheOnly, endpoint), CollectFrom(a[1..], resultKey, cacheOnly, endpoint), rb);
    }
  }


  /** The pages still to come when the loop is at offset `o`. */
  function Remaining(fetch: Fetcher, url: string, base: ParamMap, limit: int, o: int, total: int): seq<Response>
    requires limit > 0
  {
    PagesAt(fetch, url, base, limit, Offsets(o, limit, total))
  }

  /**
   * The offsets among `offsets` whose pages are fetched: all of them, up to and including the
   * first page whose items fail, since its exception ends the loop.
   */
  function Fetched(fetch: Fetcher, url: string, base: ParamMap, limit: int, offsets: seq<int>,
                   resultKey: Option<string>, cacheOnly: bool, endpoint: string): seq<int>
  {
    if offsets == [] then []
    else if PageStep(fetch(url, PageParams(base, limit, offsets[0])), resultKey, cacheOnly, endpoint).Failure? then [offsets[0]]
    else [offsets[0]] + Fetched(fetch, url, base, limit, offsets[1..], resultKey, cacheOnly, endpoint)
  }

  /** The last element of `s`, or `d` when `s` is empty. */
  function LastOr(d: int, s: seq<int>): int {
    if s == [] then d else s[|s| - 1]
  }

  /**
   * The `from_cache` flag after the pages at `offsets` are fetched in order: the last one's,
   * or `before` when none is fetched.
   */
  function FlagAfter(fetch: Fetcher, url: string, base: ParamMap, limit: int, offsets: seq<int>,
                     before: Option<bool>): Option<bool>
  {
    if offsets == [] then before else fetch(url, PageParams(base, limit, LastOr(0, offsets))).fromCache
  }

  /** The fetched offsets are a prefix of the scheduled ones. */
  lemma {:induction false} FetchedPrefix(fetch: Fetcher, url: string, base: ParamMap, limit: int, offsets: seq<int>,
                                         resultKey: Option<string>, cacheOnly: bool, endpoint: string)
    ensures Fetched(fetch, url, base, limit, offsets, resultKey, cacheOnly, endpoint) <= offsets
  {
    if offsets != [] {
      FetchedPrefix(fetch, url, base, limit, offsets[1..], resultKey, cacheOnly, endpoint);
      assert offsets == [offsets[0]] + offsets[1..];
    }
  }

  /** The aggregate over the pages at `offsets` is the first page's step followed by the rest. */
  lemma CollectAtCons(fetch: Fetcher, url: string, base: ParamMap, limit: int, offsets: seq<int>,
                      resultKey: Option<string>, cacheOnly: bool, endpoint: string)
    requires offsets != []
    ensures CollectFrom(PagesAt(fetch, url, base, limit, offsets), resultKey, cacheOnly, endpoint)
      == Then(PageStep(fetch(url, PageParams(base, limit, offsets[0])), resultKey, cacheOnly, endpoint),
              CollectFrom(PagesAt(fetch, url, base, limit, offsets[1..]), resultKey, cacheOnly, endpoint))
  {
    var pages := PagesAt(fetch, url, base, limit, offsets);
    assert pages[0] == fetch(url, PageParams(base, limit, offsets[0]));
    assert pages[1..] == PagesAt(fetch, url, base, limit, offsets[1..]);
  }

  /** When the aggregate of the scheduled pages succeeds, every scheduled page is fetched. */
  lemma {:induction false} FetchedAll(fetch: Fetcher, url: string, base: ParamMap, limit: int, offsets: seq<int>,
                                      resultKey: Option<string>, cacheOnly: bool, endpoint: string)
    requires CollectFrom(PagesAt(fetch, url, base, limit, offsets), resultKey, cacheOnly, endpoint).Success?
    ensures Fetched(fetch, url, base, limit, offsets, resultKey, cacheOnly, endpoint) == offsets
  {
    if offsets != [] {
      CollectAtCons(fetch, url, base, limit, offsets, resultKey, cacheOnly, endpoint);
      FetchedAll(fetch, url, base, limit, offsets[1..], resultKey, cacheOnly, endpoint);
      assert offsets == [offsets[0]] + offsets[1..];
    }
  }

  /** When the aggregate fails, the last page fetched is the one whose error it is. */
  lemma {:induction false} FetchedStop(fetch: Fetcher, url: string, base: ParamMap, limit: int, offsets: seq<int>,
                                       resultKey: Option<string>, cacheOnly: bool, endpoint: string)
    requires CollectFrom(PagesAt(fetch, url, base, limit, offsets), resultKey, cacheOnly, endpoint).Failure?
    ensures var f := Fetched(fetch, url, base, limit, offsets, resultKey, cacheOnly, endpoint);
      && f != []
      && PageStep(fetch(url, PageParams(base, limit, LastOr(0, f))), resultKey, cacheOnly, endpoint)
         == CollectFrom(PagesAt(fetch, url, base, limit, offsets), resultKey, cacheOnly, endpoint)
  {
    CollectAtCons(fetch, url, base, limit, offsets, resultKey, cacheOnly, endpoint);
    if PageStep(fetch(url, PageParams(base, limit, offsets[0])), resultKey, cacheOnly, endpoint).Success? {
      FetchedStop(fetch, url, base, limit, offsets[1..], resultKey, cacheOnly, endpoint);
      var rest := Fetched(fetch, url, base, limit, offsets[1..], resultKey, cacheOnly, endpoint);
      assert LastOr(0, [offsets[0]] + rest) == LastOr(0, rest);
    }
  }

  /**
   * The state of the page loop at offset `o`: the aggregate so far followed by the pages still
   * to come gives `target`; some page of the whole run is live (`anyLive`) exactly when one
   * seen so far was or one still to come will be; and the offsets fetched so far (`done`),
   * followed by those still to be fetched, are all those the run fetches (`fetched`).
   */
  predicate LoopState(fetch: Fetcher, url: string, base: ParamMap, limit: int, o: int, total: int,
                      resultKey: Option<string>, cacheOnly: bool, endpoint: string,
                      sofar: seq<Json>, liveSoFar: bool, done: seq<int>,
                      target: Result<seq<Json>, Error>, anyLive: bool, fetched: seq<int>)
    requires limit > 0
  {
    var rest := Remaining(fetch, url, base, limit, o, total);
    && Then(Success(sofar), CollectFrom(rest, resultKey, cacheOnly, endpoint)) == target
    && (anyLive <==> liveSoFar || AnyLive(rest))
    && fetched == done + Fetched(fetch, url, base, limit, Offsets(o, limit, total), resultKey, cacheOnly, endpoint)
  }

  /** Before the first later page, the loop state holds of the whole run. */
  lemma FirstState(fetch: Fetcher, url: string, base: ParamMap, limit: int, o: int, total: int,
                   resultKey: Option<string>, cacheOnly: bool, endpoint: string)
    requires limit > 0
    ensures var rest := Remaining(fetch, url, base, limit, o, total);
      LoopState(fetch, url, base, limit, o, total, resultKey, cacheOnly, endpoint,
                [], false, [], CollectFrom(rest, resultKey, cacheOnly, endpoint), AnyLive(rest),
                Fetched(fetch, url, base, limit, Offsets(o, limit, total), resultKey, cacheOnly, endpoint))
  {
    ThenEmpty(CollectFrom(Remaining(fetch, url, base, limit, o, total), resultKey, cacheOnly, endpoint));
    assert [] + Fetched(fetch, url, base, limit, Offsets(o, limit, total), resultKey, cacheOnly, endpoint)
      == Fetched(fetch, url, base, limit, Offsets(o, limit, total), resultKey, cacheOnly, endpoint);
  }

  /**
   * One turn of the page loop from offset `o` to `n`, which is `o + limit`: the page at `n`
   * either fails, and then `target` is its error and `n` is the last offset fetched, or its
   * items extend the aggregate and the loop state holds at `n`.
   */
  lemma NextPage(fetch: Fetcher, url: string, base: ParamMap, limit: int, o: int, n: int, total: int,
                 resultKey: Option<string>, cacheOnly: bool, endpoint: string,
                 sofar: seq<Json>, liveSoFar: bool, done: seq<int>,
                 target: Result<seq<Json>, Error>, anyLive: bool, fetched: seq<int>,
                 items: Result<seq<Json>, Error>, live: bool)
    requires limit > 0 && n == o + limit && n < total
    requires LoopState(fetch, url, base, limit, o, total, resultKey, cacheOnly, endpoint, sofar, liveSoFar, done, target, anyLive, fetched)
    requires items == PageStep(fetch(url, PageParams(base, limit, n)), resultKey, cacheOnly, endpoint)
    requires live <==> fetch(url, PageParams(base, limit, n)).fromCache == Some(false)
    ensures items.Failure? ==> target == Failure(items.error) && fetched == done + [n]
    ensures items.Success? ==>
      LoopState(fetch, url, base, limit, n, total, resultKey, cacheOnly, endpoint,
                sofar + items.value, liveSoFar || live, done + [n], target, anyLive, fetched)
  {
    var resp := fetch(url, PageParams(base, limit, n));
    var now := Remaining(fetch, url, base, limit, o, total);
    var next := Remaining(fetch, url, base, limit, n, total);
    assert now == [resp] + next;
    assert now[1..] == next;
    var rest := CollectFrom(next, resultKey, cacheOnly, endpoint);
    var offs := Offsets(o, limit, total);
    assert offs[0] == n && offs[1..] == Offsets(n, limit, total);
    if items.Success? {
      ThenAssoc(Success(sofar), Success(items.value), rest);
      var later := Fetched(fetch, url, base, limit, Offsets(n, limit, total), resultKey, cacheOnly, endpoint);
      assert done + ([n] + later) == (done + [n]) + later;
    }
    LiveBefore(resp, next);
  }

  /**
   * When the loop stops, nothing remains: the aggregate so far is `target`, the liveness seen
   * is all there is, and every offset the run fetches has been fetched.
   */
  lemma LastPage(fetch: Fetcher, url: string, base: ParamMap, limit: int, o: int, total: int,
                 resultKey: Option<string>, cacheOnly: bool, endpoint: string,
                 sofar: seq<Json>, liveSoFar: bool, done: seq<int>,
                 target: Result<seq<Json>, Error>, anyLive: bool, fetched: seq<int>)
    requires limit > 0 && o + limit >= total
    requires LoopState(fetch, url, base, limit, o, total, resultKey, cacheOnly, endpoint, sofar, liveSoFar, done, target, anyLive, fetched)
    ensures target == Success(sofar)
    ensures anyLive == liveSoFar
    ensures fetched == done
  {
    assert sofar + [] == sofar;
    assert done + [] == done;
  }

  /** Without a result key and outside cache-only mode, the aggregate is the list of decoded pages. */
  lemma {:induction false} CollectWholePages(resps: seq<Response>, resultKey: Option<string>, endpoint: string)
    requires !HasResultKey(resultKey)
    ensures CollectFrom(resps, resultKey, false, endpoint).Success?
    ensures var items := CollectFrom(resps, resultKey, false, endpoint).value;
      |items| == |resps| && forall i :: 0 <= i < |resps| ==> items[i] == DecodeBody(resps[i].body)
  {
    if resps != [] {
      CollectWholePages(resps[1..], resultKey, endpoint);
    }
  }

  /** The aggregated result and every response fetched for it, in fetch order. */
  datatype Aggregate = Aggregate(items: seq<Json>, pages: seq<Response>)

  /**
   * The loop of `_get_paginated_results`: the first page at offset 0, its items, its
   * pagination bounds, then the pages at `Offsets(offset, limit, total)`.
   */
  function Paginated(fetch: Fetcher, url: string, base: ParamMap, resultKey: Option<string>, limit: int,
                     cacheOnly: bool, endpoint: string): Result<Aggregate, Error>
    requires limit > 0
  {
    var first := fetch(url, PageParams(base, limit, 0));
    var items :- PageStep(first, resultKey, cacheOnly, endpoint);
    var bounds :- PaginationOf(DecodeBody(first.body));
    var later := PagesAt(fetch, url, base, limit, Offsets(bounds.offset, limit, bounds.total));
    var more :- CollectFrom(later, resultKey, cacheOnly, endpoint);
    Success(Aggregate(items + more, [first] + later))
  }

  /** Some fetched page was a live request (`from_cache` exactly false). */
  predicate AnyLive(pages: seq<Response>) {
    pages != [] && (pages[0].fromCache == Some(false) || AnyLive(pages[1..]))
  }

  /** `AnyLive` is Python's `any`: some page, at some position, was a live request. */
  lemma {:induction false} AnyLiveIff(pages: seq<Response>)
    ensures AnyLive(pages) <==> exists i :: 0 <= i < |pages| && pages[i].fromCache == Some(false)
  {
    if pages != [] {
      AnyLiveIff(pages[1..]);
      if exists i :: 0 <= i < |pages| && pages[i].fromCache == Some(false) {
        var i :| 0 <= i < |pages| && pages[i].fromCache == Some(false);
        if i > 0 {
          assert pages[1..][i - 1] == pages[i];
        }
      }
      if AnyLive(pages[1..]) {
        var j :| 0 <= j < |pages[1..]| && pages[1..][j].fromCache == Some(false);
        assert pages[j + 1] == pages[1..][j];
      }
    }
  }

  /** A page followed by others was live exactly when it or one of them was. */
  lemma LiveBefore(p: Response, pages: seq<Response>)
    ensures AnyLive([p] + pages) <==> p.fromCache == Some(false) || AnyLive(pages)
  {
    assert ([p] + pages)[1..] == pages;
  }

  /** The first page's error is the error of the whole call. */
  lemma FirstPageFails(fetch: Fetcher, url: string, base: ParamMap, resultKey: Option<string>, limit: int,
                       cacheOnly: bool, endpoint: string, items: Result<seq<Json>, Error>)
    requires limit > 0 && items.Failure?
    requires items == PageStep(fetch(url, PageParams(base, limit, 0)), resultKey, cacheOnly, endpoint)
    ensures Paginated(fetch, url, base, resultKey, limit, cacheOnly, endpoint) == Failure(items.error)
    ensures LastFetched(fetch, url, base, resultKey, limit, cacheOnly, endpoint) == 0
  {
  }

  /** A first page without readable pagination bounds fails the whole call with that error. */
  lemma BoundsFail(fetch: Fetcher, url: string, base: ParamMap, resultKey: Option<string>, limit: int,
                   cacheOnly: bool, endpoint: string, bounds: Result<Bounds, Error>)
    requires limit > 0 && bounds.Failure?
    requires PageStep(fetch(url, PageParams(base, limit, 0)), resultKey, cacheOnly, endpoint).Success?
    requires bounds == PaginationOf(DecodeBody(fetch(url, PageParams(base, limit, 0)).body))
    ensures Paginated(fetch, url, base, resultKey, limit, cacheOnly, endpoint) == Failure(bounds.error)
    ensures LastFetched(fetch, url, base, resultKey, limit, cacheOnly, endpoint) == 0
  {
  }

  /**
   * Once the first page and its bounds are in, the call fails with the first error among the
   * later pages, or aggregates the first page's items then the later ones; some page is live
   * exactly when the first one or a later one is.
   */
  lemma LaterPages(fetch: Fetcher, url: string, base: ParamMap, resultKey: Option<string>, limit: int,
                   cacheOnly: bool, endpoint: string, items: Result<seq<Json>, Error>, bounds: Bounds,
                   more: Result<seq<Json>, Error>)
    requires limit > 0 && items.Success?
    requires items == PageStep(fetch(url, PageParams(base, limit, 0)), resultKey, cacheOnly, endpoint)
    requires Success(bounds) == PaginationOf(DecodeBody(fetch(url, PageParams(base, limit, 0)).body))
    requires more == CollectFrom(Remaining(fetch, url, base, limit, bounds.offset, bounds.total), resultKey, cacheOnly, endpoint)
    ensures var p := Paginated(fetch, url, base, resultKey, limit, cacheOnly, endpoint);
      && (more.Failure? ==> p == Failure(more.error))
      && (more.Success? ==> p.Success? && p.value.items == items.value + more.value)
      && (more.Success? ==> (AnyLive(p.value.pages) <==>
            fetch(url, PageParams(base, limit, 0)).fromCache == Some(false)
            || AnyLive(Remaining(fetch, url, base, limit, bounds.offset, bounds.total))))
  {
    LiveBefore(fetch(url, PageParams(base, limit, 0)), Remaining(fetch, url, base, limit, bounds.offset, bounds.total));
  }


  /**
   * The offset of the last page the call fetches, which `params["offset"]` holds afterwards:
   * 0 when the first page's items or bounds fail, otherwise the last later offset fetched, or
   * 0 when no later page is fetched.
   */
  function LastFetched(fetch: Fetcher, url: string, base: ParamMap, resultKey: Option<string>, limit: int,
                       cacheOnly: bool, endpoint: string): int
    requires limit > 0
  {
    var first := fetch(url, PageParams(base, limit, 0));
    var bounds := PaginationOf(DecodeBody(first.body));
    if PageStep(first, resultKey, cacheOnly, endpoint).Failure? || bounds.Failure? then 0
    else LastOr(0, Fetched(fetch, url, base, limit, Offsets(bounds.value.offset, limit, bounds.value.total),
                           resultKey, cacheOnly, endpoint))
  }

  /**
   * Once the first page and its bounds are in, the last offset fetched is the last later one
   * fetched, and the provenance left is that page's, or the first page's when none is fetched.
   */
  lemma LaterFlag(fetch: Fetcher, url: string, base: ParamMap, resultKey: Option<string>, limit: int,
                  cacheOnly: bool, endpoint: string, bounds: Bounds)
    requires limit > 0
    requires PageStep(fetch(url, PageParams(base, limit, 0)), resultKey, cacheOnly, endpoint).Success?
    requires Success(bounds) == PaginationOf(DecodeBody(fetch(url, PageParams(base, limit, 0)).body))
    ensures var fetched := Fetched(fetch, url, base, limit, Offsets(bounds.offset, limit, bounds.total), resultKey, cacheOnly, endpoint);
      var last := LastFetched(fetch, url, base, resultKey, limit, cacheOnly, endpoint);
      && LastOr(0, fetched) == last
      && FlagAfter(fetch, url, base, limit, fetched, fetch(url, PageParams(base, limit, 0)).fromCache)
         == fetch(url, PageParams(base, limit, last)).fromCache
  {
  }

  /**
   * A completed call fetched last the last page it aggregated: the one at the last scheduled
   * offset, or at offset 0 when no later page was scheduled.
   */
  lemma LastFetchedOnSuccess(fetch: Fetcher, url: string, base: ParamMap, resultKey: Option<string>, limit: int,
                             cacheOnly: bool, endpoint: string)
    requires limit > 0
    ensures var p := Paginated(fetch, url, base, resultKey, limit, cacheOnly, endpoint);
      var bounds := PaginationOf(DecodeBody(fetch(url, PageParams(base, limit, 0)).body));
      var last := LastFetched(fetch, url, base, resultKey, limit, cacheOnly, endpoint);
      p.Success? ==>
        && bounds.Success?
        && last == LastOr(0, Offsets(bounds.value.offset, limit, bounds.value.total))
        && p.value.pages != []
        && fetch(url, PageParams(base, limit, last)) == p.value.pages[|p.value.pages| - 1]
  {
    var p := Paginated(fetch, url, base, resultKey, limit, cacheOnly, endpoint);
    if p.Success? {
      var first := fetch(url, PageParams(base, limit, 0));
      var b := PaginationOf(DecodeBody(first.body)).value;
      var offs := Offsets(b.offset, limit, b.total);
      FetchedAll(fetch, url, base, limit, offs, resultKey, cacheOnly, endpoint);
      PagesAtFetches(fetch, url, base, limit, offs);
      var later := PagesAt(fetch, url, base, limit, offs);
      assert p.value.pages == [first] + later;
    }
  }

  /**
   * A failed call's error comes from the last page it fetched: from that page's items, or, when
   * it is the first page, possibly from its pagination bounds.
   */
  lemma LastFetchedOnFailure(fetch: Fetcher, url: string, base: ParamMap, resultKey: Option<string>, limit: int,
                             cacheOnly: bool, endpoint: string)
    requires limit > 0
    ensures var p := Paginated(fetch, url, base, resultKey, limit, cacheOnly, endpoint);
      var at := LastFetched(fetch, url, base, resultKey, limit, cacheOnly, endpoint);
      var last := fetch(url, PageParams(base, limit, at));
      p.Failure? ==>
        || PageStep(last, resultKey, cacheOnly, endpoint) == Failure(p.error)
        || (at == 0 && PaginationOf(DecodeBody(last.body)) == Failure(p.error))
  {
    var first := fetch(url, PageParams(base, limit, 0));
    var bounds := PaginationOf(DecodeBody(first.body));
    if PageStep(first, resultKey, cacheOnly, endpoint).Success? && bounds.Success? {
      var offs := Offsets(bounds.value.offset, limit, bounds.value.total);
      if CollectFrom(PagesAt(fetch, url, base, limit, offs), resultKey, cacheOnly, endpoint).Failure? {
        FetchedStop(fetch, url, base, limit, offs, resultKey, cacheOnly, endpoint);
      }
    }
  }

  /**
   * The whole paginated call: the loop, then a single quota check and increment if any page
   * was live and the key is present, for the call as a whole.
   */
  function PaginatedOutcome(data: map<string, nat>, day: string, fetch: Fetcher, url: string, base: ParamMap,
                            resultKey: Option<string>, limit: int, apiKey: Option<string>, safeMode: bool,
                            dailyLimit: int, cacheOnly: bool, endpoint: string): Step<seq<Json>>
    requires limit > 0
  {
    match Paginated(fetch, url, base, resultKey, limit, cacheOnly, endpoint)
    case Failure(e) => Step(Failure(e), data)
    case Success(agg) =>
      if AnyLive(agg.pages) && KeyPresent(apiKey) then
        if LimitReached(safeMode, Count(data, day), dailyLimit) then Step(Failure(DailyLimitExceeded), data)
        else Step(Success(agg.items), Bumped(data, day))
      else Step(Success(agg.items), data)
  }

  /**
   * A paginated call raises the day's count by at most one, and by one exactly when it completes,
   * some page was live and the key is present; no other day changes.
   */
  lemma PaginatedCountsAtMostOnce(data: map<string, nat>, day: string, fetch: Fetcher, url: string, base: ParamMap,
                                  resultKey: Option<string>, limit: int, apiKey: Option<string>, safeMode: bool,
                                  dailyLimit: int, cacheOnly: bool, endpoint: string)
    requires limit > 0
    ensures var s := PaginatedOutcome(data, day, fetch, url, base, resultKey, limit, apiKey, safeMode, dailyLimit, cacheOnly, endpoint);
      var p := Paginated(fetch, url, base, resultKey, limit, cacheOnly, endpoint);
      && (Count(s.data, day) == Count(data, day) || Count(s.data, day) == Count(data, day) + 1)
      && (Count(s.data, day) == Count(data, day) + 1 <==> s.result.Success? && p.Success? && AnyLive(p.value.pages) && KeyPresent(apiKey))
      && (forall d :: d != day ==> Count(s.data, d) == Count(data, d))
  {
  }

  /**
   * With safe mode on, the paginated call's own check-then-increment keeps the day's count at
   * or below the daily limit.
   */
  lemma PaginatedKeepsBound(data: map<string, nat>, day: string, fetch: Fetcher, url: string, base: ParamMap,
                            resultKey: Option<string>, limit: int, apiKey: Option<string>, dailyLimit: int,
                            cacheOnly: bool, endpoint: string)
    requires limit > 0
    requires Count(data, day) <= dailyLimit
    ensures Count(PaginatedOutcome(data, day, fetch, url, base, resultKey, limit, apiKey, true, dailyLimit, cacheOnly, endpoint).data, day)
      <= dailyLimit
  {
  }

  /**
   * The example of a search with 192 results: pages of 100 at offsets 0 and 100, the first
   * reporting `total` 192 at offset 0, give exactly two fetches and 192 aggregated results.
   */
  lemma Example192(fetch: Fetcher, url: string, base: ParamMap, key: string, xs: seq<Json>, ys: seq<Json>, endpoint: string)
    requires key != "" && key != "pagination" && |xs| == 100 && |ys| == 92
    requires fetch(url, PageParams(base, 100, 0)).body == Decodable(JObj(map[
      key := JArr(xs), "pagination" := JObj(map["total" := JInt(192), "limit" := JInt(100), "offset" := JInt(0)])]))
    requires fetch(url, PageParams(base, 100, 100)).body == Decodable(JObj(map[key := JArr(ys)]))
    ensures Paginated(fetch, url, base, Some(key), 100, false, endpoint) == Success(Aggregate(xs + ys,
      [fetch(url, PageParams(base, 100, 0)), fetch(url, PageParams(base, 100, 100))]))
    ensures |xs + ys| == 192
  {
    var first := fetch(url, PageParams(base, 100, 0));
    var d := DecodeBody(first.body);
    assert PageStep(first, Some(key), false, endpoint) == Success(xs);
    var p := d.fields["pagination"];
    assert IntField(p.fields, "offset") == Success(0);
    assert IntField(p.fields, "total") == Success(192);
    assert PaginationOf(d) == Success(Bounds(192, 0));
    OffsetsExample();
    var later := PagesAt(fetch, url, base, 100, [100]);
    assert [100][1..] == [] && [100][0] == 100;
    assert PagesAt(fetch, url, base, 100, []) == [];
    assert later == [fetch(url, PageParams(base, 100, 100))];
    assert CollectFrom(later, Some(key), false, endpoint) == Success(ys + []) by {
      assert later[1..] == [];
    }
    assert ys + [] == ys;
    assert later == PagesAt(fetch, url, base, 100, Offsets(0, 100, 192));
    assert CollectFrom(later, Some(key), false, endpoint) == Success(ys);
    assert [first] + later == [first, fetch(url, PageParams(base, 100, 100))];
    assert Paginated(fetch, url, base, Some(key), 100, false, endpoint) == Success(Aggregate(xs + ys, [first] + later));
  }
}
