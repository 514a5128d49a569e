# yarasp request bookkeeping in Dafny

yarasp is a caching client for the Yandex transit-schedule API ("Yandex.Rasp"). This
project models the logic the client wraps around each request, and proves properties of
that model:

- **Usage counter** (`usage_counter.dfy`). `JSONUsageCounter` is a class whose state is
  a map from an ISO day string to a count. The day is passed in.
- **Credential scrubbing** (`safe_storage.dfy`). `SafeStorageWrapper` removes every
  `apikey` query field from a request URL before the request is stored in the cache.
  `retrieve` and `delete` forward unchanged.
- **Per-request rules** (`requests.dfy`):
  - `_prepare_params` and `_build_url`;
  - the API-key validity check;
  - the quota rule: check the limit first, then increment, and only for a live response
    with a valid key outside pagination;
  - the cache-only refusal in `get_page`.
- **Pagination** (`pagination.dfy`). A pure specification of the synchronous branch of
  `_get_paginated_results`. It fixes:
  - which offsets are fetched;
  - how the pages' results are aggregated, in fetch order;
  - how the whole call is counted: at most once.
- **The client object** (`client.dfy`). `YaraspClient` is a class whose methods update its
  provenance and pagination fields and the shared counter. They also write into the
  caller's parameter dict (`ParamDict`). The pagination loop is a `while` loop proved
  equal to the specification above.
- **Settings** (`settings.dfy`). The environment-flag parsers and the endpoint table.
  Python's `int()` on decimal text is modelled with its own round-trip partner.
- **Helpers** (`text.dfy`, `json.dfy`, `outcomes.dfy`):
  - Python's `str.lower()`, `strip()`, `lstrip`/`rstrip` and `in` on strings;
  - the JSON values of a response body;
  - `Option`/`Result`.

The transport is an oracle. `fetch(url, params)` returns a `Response`. A response holds:

- the body, either decodable or not;
- the `from_cache` extension: `Some(true)`, `Some(false)`, or `None` when unknown;
- the URL the request was sent to, as its six `urlparse` components.

Its query is the sequence of `name=value` fields of section 3.4 of RFC 3986, already
split and percent-decoded. Exceptions become `Failure(...)` values of the `Error`
datatype:

- the quota `RuntimeError` becomes `DailyLimitExceeded`;
- `CacheMissError` becomes `CacheMiss`;
- an `AttributeError` or `TypeError` on a page of unexpected shape becomes `MalformedPage`.

Behaviour of the code worth knowing:

- `get` (src/yarasp/yarasp.py:708-733) does not check that the endpoint is one of the
  configured ones; any endpoint string is accepted.
- Although the module docstring (src/yarasp/yarasp.py:15-17) says the module will not
  start without `YARASP_API_KEY`, a missing key is not an error. The parameter dict then
  holds `apikey: None`, and such a request never counts against the quota.
- `_in_pagination` is set at src/yarasp/yarasp.py:609 and cleared only at line 653, which
  an exception in between skips. A paginated call that fails therefore leaves it set
  (`GetPaginatedResults` states `inPagination <==> r.Failure?`). From then on every
  single-page `get` on that client skips both the quota check and the increment
  (line 496): `Requests.StuckFlagSkipsQuota` states that such a page never changes the
  counter and can fail only with a cache miss.

## Model

| member | source | states |
|---|---|---|
| Text.LowerMatchesWord | src/yarasp/yarasp.py:58-61 | `s.lower()` equals an ASCII lower-case word `w` exactly when `s` has `w`'s length and each character is `w`'s, its capital, or the Kelvin sign for `k` |
| Text.TrimLeft | src/yarasp/yarasp.py:291 | `lstrip(chars)` is the longest suffix whose dropped prefix is all in `chars` and which does not start with one |
| Text.TrimRight | src/yarasp/yarasp.py:291 | `rstrip(chars)` is the longest prefix whose dropped suffix is all in `chars` and which does not end with one |
| Text.FrontCutUnique | src/yarasp/yarasp.py:291 | the front cut of `lstrip` is the only index with all stripped characters before it and a kept one at it |
| Text.BackCutUnique | src/yarasp/yarasp.py:291 | the back cut of `rstrip` is the only index with all stripped characters after it and a kept one just before it |
| Text.StripEmptyIff | src/yarasp/yarasp.py:449-451 | `strip()` gives the empty string exactly when every character is whitespace |
| Text.StripIsMiddle | src/yarasp/yarasp.py:291 | stripping yields the middle slice between a cut prefix and a cut suffix, both made only of stripped characters |
| Text.StripIdempotent | src/yarasp/yarasp.py:291 | stripping twice strips nothing more |
| Json.DecodeBody | src/yarasp/yarasp.py:522-527 | a decodable body yields its JSON; an undecodable one yields `{"error": "Failed to decode JSON", "raw": text}` |
| Settings.PyInt | src/yarasp/yarasp.py:52-53 | `int()` on text: optional sign and decimal digits between skipped whitespace; its meaning is stated by `PyIntRoundTrip`, `PyIntRoundTripNegative`, `DailyLimitEmpty`, `DailyLimitDoubleUnderscore` and `DailyLimitSeparators` |
| Settings.PyIntRoundTrip | src/yarasp/yarasp.py:52-53 | `int()` reads back every decimal spelling of a natural number |
| Settings.PyIntRoundTripNegative | src/yarasp/yarasp.py:52-53 | `int()` reads `-` followed by a decimal spelling as the negative number |
| Settings.DecimalStringValue | src/yarasp/yarasp.py:52-53 | the digits of a decimal spelling have the spelled value |
| Settings.ParseDailyLimit | src/yarasp/yarasp.py:52-55 | the daily limit is the integer the value spells between the whitespace `int()` skips, or 500 when it spells none |
| Settings.DailyLimitDefault | src/yarasp/yarasp.py:52-55 | an unset limit variable gives 500 |
| Settings.DailyLimitFlag | src/yarasp/yarasp.py:52-55 | a value spelling `n` or `-n` gives that limit |
| Settings.DailyLimitEmpty | src/yarasp/yarasp.py:52-55 | an empty value is a `ValueError`, so the limit falls back to 500 |
| Settings.DailyLimitDoubleUnderscore | src/yarasp/yarasp.py:52-55 | a doubled underscore is a `ValueError`, so the limit falls back to 500 |
| Settings.PyIntRejects | src/yarasp/yarasp.py:52-55 | any value holding a character that is not a digit, `_`, a sign or skipped whitespace is a `ValueError`, so the limit falls back to 500 |
| Settings.DailyLimitSeparators | src/yarasp/yarasp.py:52-55 | spaces and a newline around the digits are skipped, but an ASCII information separator (U+001C) is not, so that value falls back to 500 |
| Settings.ParseSafeMode | src/yarasp/yarasp.py:57-58 | the safe-mode flag; `SafeModeFlag` states which values turn it off |
| Settings.ParseVerbose | src/yarasp/yarasp.py:60-61 | the verbose flag; `VerboseFlag` states which values turn it on |
| Settings.SafeModeFlag | src/yarasp/yarasp.py:57-58 | safe mode is off exactly when the lower-cased value is "0" or "false", and on when unset |
| Settings.VerboseFlag | src/yarasp/yarasp.py:60-61 | verbose is on exactly when the lower-cased value is "1", "true" or "yes", and off when unset |
| Settings.EndpointsConfig | src/yarasp/yarasp.py:667-683 | the endpoint table; `EndpointTable` states its entries |
| Settings.EndpointTable | src/yarasp/yarasp.py:667-683 | eight endpoints; exactly search, schedule and nearest_stations paginate; a result key is given exactly for those |
| UsageCounter.Bumped | src/yarasp/utils.py:64-68 | one increment raises that day's count by one, adds the day if needed and changes no other day |
| UsageCounter.BumpedTimesCount | src/yarasp/utils.py:61-68 | `n` increments on one day raise its count by exactly `n` and leave other days alone |
| UsageCounter.FreshCounterCountsIncrements | src/yarasp/utils.py:61-68 | from an empty counter, `n` increments on a day give a count of `n` |
| UsageCounter.JsonUsageCounter.constructor | src/yarasp/utils.py:43-52 | the counter starts with the loaded map |
| UsageCounter.JsonUsageCounter.GetCount | src/yarasp/utils.py:61-62 | the stored count, and 0 when the day has no entry |
| UsageCounter.JsonUsageCounter.Increment | src/yarasp/utils.py:64-68 | returns the old count plus one, which `GetCount` then returns; every other day is unchanged |
| SafeStorage.ParseQsl | src/yarasp/utils.py:118 | `parse_qsl` keeps exactly the fields with a non-empty value |
| SafeStorage.DropApikey | src/yarasp/utils.py:118 | keeps exactly the fields whose lower-cased name is not `apikey` |
| SafeStorage.ParseQslAppend | src/yarasp/utils.py:118 | parsing distributes over concatenation, so order is kept |
| SafeStorage.DropApikeyAppend | src/yarasp/utils.py:118 | dropping distributes over concatenation, so the kept fields stay in order |
| SafeStorage.CleanQuery | src/yarasp/utils.py:117-119 | the cleaned query has no `apikey` field in any letter case and keeps exactly the other non-blank fields |
| SafeStorage.CleanQueryAppend | src/yarasp/utils.py:117-119 | cleaning works field by field in order: the clean of a concatenation is the concatenation of the cleans |
| SafeStorage.CleanQuerySingle | src/yarasp/utils.py:117-119 | one field is dropped exactly when its value is blank or its name is `apikey` |
| SafeStorage.CleanQueryKeepsCleanQuery | src/yarasp/utils.py:117-119 | a parsed, credential-free query is left exactly as it is |
| SafeStorage.CleanQueryIdempotent | src/yarasp/utils.py:117-119 | cleaning twice is cleaning once |
| SafeStorage.CleanUrl | src/yarasp/utils.py:114-124 | scheme, netloc, path, params and fragment are unchanged; the query is `CleanQuery` of the old one, so it has no credential |
| SafeStorage.CleanUrlIdempotent | src/yarasp/utils.py:114-124 | cleaning a URL twice is cleaning it once |
| SafeStorage.CleanRequest | src/yarasp/utils.py:126-149 | a request without URL is returned as is; otherwise only the URL changes, to the cleaned one |
| SafeStorage.CacheStorage.Store | src/yarasp/utils.py:165 | the wrapped backend maps the key to the new entry and keeps every other key's entry |
| SafeStorage.CacheStorage.Retrieve | src/yarasp/utils.py:169 | the wrapped backend returns the key's entry, or None when it has none |
| SafeStorage.CacheStorage.Delete | src/yarasp/utils.py:173 | the wrapped backend loses exactly that key |
| SafeStorage.SafeStorageWrapper.constructor | src/yarasp/utils.py:100-101 | the wrapper forwards to the given storage |
| SafeStorage.SafeStorageWrapper.Store | src/yarasp/utils.py:151-165 | stores the same key, response and metadata with the cleaned request; a credential-free store stays credential-free |
| SafeStorage.SafeStorageWrapper.Retrieve | src/yarasp/utils.py:167-169 | returns the wrapped storage's entry for the same key |
| SafeStorage.SafeStorageWrapper.Delete | src/yarasp/utils.py:171-173 | the wrapped storage loses exactly that key |
| Requests.Prepared | src/yarasp/yarasp.py:280-288 | `apikey` maps to the configured key; every other kept key is a caller key not ignored, with its value; `None` gives exactly `{"apikey": key}` |
| Requests.BuildUrl | src/yarasp/yarasp.py:290-291 | the URL is the base, `/`, the endpoint with slashes stripped at both ends, and a final `/` |
| Requests.BuildUrlTrimmed | src/yarasp/yarasp.py:290-291 | the endpoint part of the URL neither starts nor ends with `/` |
| Requests.BuildUrlNormalises | src/yarasp/yarasp.py:290-291 | extra slashes around the endpoint, or stripping it first, give the same URL |
| Requests.TrimLeftDropSlash | src/yarasp/yarasp.py:291 | a leading slash is removed by `lstrip('/')` |
| Requests.TrimLeftAppendSlash | src/yarasp/yarasp.py:291 | `lstrip('/')` of `s + "/"` is that of `s` with the slash appended, unless nothing is left |
| Requests.TrimRightSlash | src/yarasp/yarasp.py:291 | a trailing slash is removed by `rstrip('/')` |
| Requests.LookupLast | src/yarasp/yarasp.py:464-465 | `dict(pairs).get(name)` is present exactly when some field has that exact name, and then it is the value of the last such field |
| Requests.KeyPresent | src/yarasp/yarasp.py:449-452 | the configured key is set and has a non-whitespace character; used by `HasValidApikeyIff`, `BlankKeyNeverValid` and `PaginatedCountsAtMostOnce` |
| Requests.HasValidApikey | src/yarasp/yarasp.py:438-474 | the key-validity check; `HasValidApikeyIff` states it field by field, and `BlankKeyNeverValid` and `EmptyUrlKeyNeverValid` state its refusals |
| Requests.HasValidApikeyIff | src/yarasp/yarasp.py:438-474 | valid exactly when the key has a non-whitespace character and the URL has an exact-case `apikey` field with a non-empty value |
| Requests.BlankKeyNeverValid | src/yarasp/yarasp.py:449-452 | a None, empty or whitespace-only key is never valid |
| Requests.EmptyUrlKeyNeverValid | src/yarasp/yarasp.py:466-469 | an empty or missing `apikey` in the URL is never valid, whatever the key |
| Requests.Account | src/yarasp/yarasp.py:485-501 | the quota step of one response; `AccountCountsOnce`, `AccountRaisesIff` and `AccountKeepsBound` state what it does, and `LogAndCheckLimits` computes it |
| Requests.AccountCountsOnce | src/yarasp/yarasp.py:485-501 | the count rises by exactly one iff the response counts and the limit is not reached; a cached or unknown response changes nothing; other days never change |
| Requests.AccountRaisesIff | src/yarasp/yarasp.py:423-433 | the step raises exactly when it would count with safe mode on and the count at the limit, and then leaves the counter alone |
| Requests.AccountKeepsBound | src/yarasp/yarasp.py:423-436 | with safe mode on, check-then-increment keeps `count <= daily_limit` |
| Requests.CacheMissSaysNotFound | src/yarasp/yarasp.py:721-723 | the cache-miss message, lower-cased, contains "not found in cache" |
| Requests.CacheMissSaysHowToAllow | src/yarasp/yarasp.py:721-723 | the cache-miss message contains "cache_only=False" |
| Requests.PageData | src/yarasp/yarasp.py:720-726 | in cache-only mode, a response not exactly from cache is a cache miss; otherwise the decoded body |
| Requests.SinglePage | src/yarasp/yarasp.py:712-726 | one unpaginated request: the quota step, then `PageData`; `CacheOnlyRejectsUncached` and `CachedPageNotCounted` state its cases, and `GetPage` computes it |
| Requests.SinglePageKeepsBound | src/yarasp/yarasp.py:712-726 | with safe mode on, an unpaginated `get` keeps `count <= daily_limit` for the day |
| Requests.StuckFlagSkipsQuota | src/yarasp/yarasp.py:493-501 | with `_in_pagination` left set, a single page never changes the counter, and its only possible error is a cache miss |
| Requests.CacheOnlyRejectsUncached | src/yarasp/yarasp.py:712-726 | in cache-only mode a page of false or unknown provenance fails; an unknown one is never counted |
| Requests.CachedPageNotCounted | src/yarasp/yarasp.py:712-726 | a page from cache never counts and is returned decoded |
| Pagination.Offsets | src/yarasp/yarasp.py:627-631 | the later offsets the loop visits; `OffsetsVisited`, `OffsetsNoMorePages` and `OffsetsExample` state them |
| Pagination.OffsetsVisited | src/yarasp/yarasp.py:627-631 | the `i`-th later page is at `o0 + (i + 1) * limit`, below `total`, and the loop stops at the first offset that would reach it |
| Pagination.OffsetsNoMorePages | src/yarasp/yarasp.py:625-629 | when `total <= o0 + limit` (a missing total is 0) no later page is fetched |
| Pagination.OffsetsExample | src/yarasp/yarasp.py:625-631 | with 192 results, offset 0 and pages of 100, exactly one more page is fetched, at offset 100 |
| Pagination.PagesAt | src/yarasp/yarasp.py:629-632 | the responses fetched at those offsets; `PagesAtFetches` states them |
| Pagination.PagesAtFetches | src/yarasp/yarasp.py:629-632 | one fetch per offset, in order, with `limit` and that offset set |
| Pagination.PageItems | src/yarasp/yarasp.py:620-623 | what one page adds: its `result_key` list, or the page itself; `CollectWholePages` and `Example192` state both cases |
| Pagination.IntField | src/yarasp/yarasp.py:626-627 | one pagination bound, 0 when absent; `MissingPaginationIsOnePage` and `BoundsFail` state its use |
| Pagination.PaginationOf | src/yarasp/yarasp.py:625-627 | the `total` and `offset` of a page; `MissingPaginationIsOnePage` and `BoundsFail` state its use |
| Pagination.MissingPaginationIsOnePage | src/yarasp/yarasp.py:625-629 | a page without pagination data reports total 0 at offset 0, so no more pages follow |
| Pagination.PaginationPageUncounted | src/yarasp/yarasp.py:609 | in pagination mode `get_page` never counts: only the cache-only check and the decoded body remain |
| Pagination.CollectFrom | src/yarasp/yarasp.py:629-640 | the aggregate of a run of pages; `CollectFromAppend`, `CollectWholePages`, `FetchedAll` and `FetchedStop` state it, and `FetchLaterPages` computes it |
| Pagination.ThenAssoc | src/yarasp/yarasp.py:620-640 | aggregating in parts gives the same result however the parts are grouped |
| Pagination.ThenEmpty | src/yarasp/yarasp.py:610 | the aggregate starts empty, and an empty start changes nothing |
| Pagination.CollectFromAppend | src/yarasp/yarasp.py:629-640 | the aggregate of two runs of pages is the first run's items followed by the second's, or the first error |
| Pagination.CollectWholePages | src/yarasp/yarasp.py:622-623 | without a result key the aggregate is the list of decoded pages, one per page, in order |
| Pagination.CollectAtCons | src/yarasp/yarasp.py:629-640 | the aggregate over the pages at some offsets is the first page's items followed by the rest's, or the first error |
| Pagination.FetchedPrefix | src/yarasp/yarasp.py:629-640 | the offsets actually fetched are a prefix of those scheduled |
| Pagination.FetchedAll | src/yarasp/yarasp.py:629-640 | when the later pages aggregate without error, every scheduled offset was fetched |
| Pagination.FetchedStop | src/yarasp/yarasp.py:629-640 | when they fail, the loop stopped at the page whose error it is, the last one fetched |
| Pagination.FirstState | src/yarasp/yarasp.py:610-614 | before the loop, nothing aggregated and no live page seen describe the whole run |
| Pagination.NextPage | src/yarasp/yarasp.py:629-640 | one loop turn either fails with the page's error, its offset being the last fetched, or extends the aggregate and keeps the loop state |
| Pagination.LastPage | src/yarasp/yarasp.py:629 | when the loop stops, the aggregate so far is the whole result, the liveness seen is the whole run's, and every offset to fetch was fetched |
| Pagination.AnyLiveIff | src/yarasp/yarasp.py:617-618 | `any_real_request` holds exactly when some fetched page had `from_cache` exactly false |
| Pagination.LiveBefore | src/yarasp/yarasp.py:633-635 | a page followed by others was live exactly when it or one of them was |
| Pagination.FirstPageFails | src/yarasp/yarasp.py:615 | the first page's error is the whole call's error |
| Pagination.BoundsFail | src/yarasp/yarasp.py:625-627 | a first page without readable `total`/`offset` fails the whole call |
| Pagination.LaterPages | src/yarasp/yarasp.py:629-640 | after the first page, the call fails with the first later error or aggregates the first page's items then the later ones, live iff any page was |
| Pagination.Paginated | src/yarasp/yarasp.py:609-640 | the pages of a paginated call and their aggregate; `FirstPageFails`, `BoundsFail`, `LaterPages`, `LastFetchedOnSuccess`, `LastFetchedOnFailure` and `Example192` state it, and `CollectPages` computes it |
| Pagination.LaterFlag | src/yarasp/yarasp.py:629-635 | after the first page, the last offset fetched is the last later one fetched, and the provenance left is that page's, or the first page's when there is none |
| Pagination.LastFetchedOnSuccess | src/yarasp/yarasp.py:629-632 | a completed call last fetched its last aggregated page, at the last scheduled offset (0 when none) |
| Pagination.LastFetchedOnFailure | src/yarasp/yarasp.py:615-640 | a failed call's error comes from the last page fetched: its items, or for the first page its bounds |
| Pagination.PaginatedOutcome | src/yarasp/yarasp.py:642-649 | the whole paginated call with its single quota step; `PaginatedCountsAtMostOnce` states it, and `GetPaginatedResults` computes it |
| Pagination.PaginatedCountsAtMostOnce | src/yarasp/yarasp.py:642-649 | the call raises the count by at most one, by one exactly when it completes with a live page and a non-blank key; no other day changes |
| Pagination.PaginatedKeepsBound | src/yarasp/yarasp.py:642-648 | with safe mode on, the paginated call's own check-then-increment keeps `count <= daily_limit` for the day |
| Pagination.Example192 | src/yarasp/yarasp.py:620-640 | 192 results in pages of 100: two fetches, at offsets 0 and 100, aggregating all 192 items in order |
| Client.YaraspClient.constructor | src/yarasp/yarasp.py:67-87 | provenance starts unknown and the pagination flag clear |
| Client.YaraspClient.IsFromCache | src/yarasp/yarasp.py:659-664 | true exactly when the last provenance is exactly true |
| Client.YaraspClient.PrepareParams | src/yarasp/yarasp.py:280-288 | the caller's own dict (or a new one for `None`) ends up as `Prepared` of its old contents |
| Client.YaraspClient.CheckDailyLimit | src/yarasp/yarasp.py:423-433 | raises exactly when safe mode is on and today's count has reached the limit |
| Client.YaraspClient.IncrementUsage | src/yarasp/yarasp.py:435-436 | the counter is bumped once on the day |
| Client.YaraspClient.LogAndCheckLimits | src/yarasp/yarasp.py:476-501 | provenance is recorded, and the outcome and counter are those of the quota rule `Account` |
| Client.YaraspClient.GetPage | src/yarasp/yarasp.py:712-726 | result and counter are those of `SinglePage` on the fetched response |
| Client.YaraspClient.AggregatePage | src/yarasp/yarasp.py:632-640 | in pagination mode one page adds `PageStep` of its response, uncounted, and reports whether it was live |
| Client.YaraspClient.PageAtOffset | src/yarasp/yarasp.py:630-635 | the dict's offset is set, and the page at that offset is fetched uncounted, with its items, liveness and provenance |
| Client.YaraspClient.FetchLaterPages | src/yarasp/yarasp.py:629-640 | the loop's result is the aggregate of the pages at `Offsets`, and its liveness their `any`; the dict holds the offset of the last page fetched, and the provenance is that page's |
| Client.YaraspClient.CollectPages | src/yarasp/yarasp.py:609-640 | the pages fetched through the caller's dict give exactly `Paginated`, with the liveness of its pages; the dict and the provenance are those of the last page fetched, at `LastFetched` |
| Client.YaraspClient.GetPaginatedResults | src/yarasp/yarasp.py:607-655 | result and counter are `PaginatedOutcome`; on success provenance is "not any live page" and the flag is cleared; on failure the flag stays set and provenance is the last fetched page's; the dict holds the last offset fetched |
| Client.YaraspClient.Get | src/yarasp/yarasp.py:708-733 | one page is `SinglePage` of the prepared request to the built URL, with its provenance and the flag unchanged; with pagination it is `PaginatedOutcome` with pages of 100, the flag set exactly on failure, provenance as for `GetPaginatedResults`, and the caller's dict left at the last offset fetched |

## Left out

- The asynchronous client and `_async_mode`: they repeat the synchronous logic, with concurrency plumbing on top.
- The network and the hishel/httpx clients: a fetch is the oracle `fetch`. The transport is a pure function, so the same request always gets the same response.
- Cache-key generation and `_check_cache_exists`: they call opaque library hashing and storage lookups.
- The cache backends themselves: `CacheStorage` stands for any of them as a key-to-entry map.
- `urlparse`, `urlencode` and percent-encoding: URLs are their six components, and queries are already split and decoded.
- JSON decoding: a body is given as decodable JSON or undecodable text. JSON numbers are integers only; floating point is not modelled.
- File I/O of `JSONUsageCounter` (`_load`, `_save`) and the clock (`date.today()`): the map is the state and the day is a parameter.
- `RedisUsageCounter` and `SQLiteUsageCounter`: their code is not part of this model.
- Counter-backend auto-selection in `__post_init__`: it depends on `isinstance` checks against library classes.
- Runtime reflection: the dynamic subclassing and attribute copying of the wrapper, `__getattr__` forwarding, and the `setattr`-generated endpoint methods.
- `format_size`, `human_readable_size` and verbose logging: floating point and output only.
- `Settings.PyInt`: only ASCII decimal digits are read, and only the whitespace of `str.isspace()` minus U+001C to U+001F is skipped (as `int()` does for ASCII); Python's `int()` also accepts other Unicode decimal digits.
- `Pagination.PageItems`: a `result_key` value that is not a list is a `MalformedPage` error. Python would `extend` by a string's characters or a dict's keys.
- `Pagination.IntField`: `total` or `offset` values other than integers and booleans are a `MalformedPage` error. This includes floats, which Python would compare.
- `SafeStorage.CleanRequest`: headers are kept as the given sequence, whereas Python rebuilds them through a dict, which drops repeated header names. An empty URL string is treated like any other URL, while Python returns the request unchanged. The fallback on a failing request constructor is not modelled.
- `Client.YaraspClient.GetPaginatedResults`: the page size must be positive (`limit > 0`), which `get` always satisfies with 100.
- `Client.YaraspClient.PrepareParams`: Python dict insertion order is not modelled; parameters are a map.
- `Requests.HasValidApikey`: the fallback that treats an unparsable URL as valid is not modelled, because URLs are always structured here.
