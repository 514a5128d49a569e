/**
 * The cache-storage wrapper of `utils.py`: before a request is persisted, every query
 * parameter named `apikey` (in any letter case) is removed from its URL, so that stored
 * cache entries never carry the credential. `retrieve` and `delete` pass straight through.
 *
 * A URL is the six components `urlparse` returns (scheme, netloc, path, params, query,
 * fragment), and its query is the sequence of `name=value` fields of section 3.4 of
 * RFC 3986, already split and percent-decoded.
 */
module SafeStorage {
  import opened Outcomes
  import opened Text

  datatype QueryPair = QueryPair(name: string, value: string)

  /** A query string as its `&`-separated fields; a field without `=` has the empty value. */
  type Query = seq<QueryPair>

  datatype Url = Url(scheme: string, netloc: string, path: string, params: string, query: Query, fragment: string)

  /** The credential parameter's name. */
  const ApikeyName: string := "apikey"

  /** `k.lower() == "apikey"`. */
  predicate IsApikeyName(k: string) {
    Lower(k) == ApikeyName
  }

  /**
   * `parse_qsl(query)` with its default `keep_blank_values=False`: fields whose value
   * is empty are dropped; the rest keep their order.
   */
  function ParseQsl(q: Query): (r: Query)
    ensures |r| <= |q|
    ensures forall p :: p in r <==> p in q && p.value != ""
  {
    if q == [] then []
    else (if q[0].value != "" then [q[0]] else []) + ParseQsl(q[1..])
  }

  /** The list comprehension `[(k, v) for k, v in pairs if k.lower() != "apikey"]`. */
  function DropApikey(q: Query): (r: Query)
    ensures |r| <= |q|
    ensures forall p :: p in r <==> p in q && !IsApikeyName(p.name)
  {
    if q == [] then []
    else (if IsApikeyName(q[0].name) then [] else [q[0]]) + DropApikey(q[1..])
  }

  /** No field of the query is the credential. */
  predicate CredentialFree(q: Query) {
    forall p :: p in q ==> !IsApikeyName(p.name)
  }

  /** The query of `_clean_url_from_apikey`: parse, then drop every `apikey` field. */
  function CleanQuery(q: Query): (r: Query)
    ensures CredentialFree(r)
    ensures forall p :: p in r <==> p in q && p.value != "" && !IsApikeyName(p.name)
  {
    DropApikey(ParseQsl(q))
  }

  /** `_clean_url_from_apikey`: every component but the query is kept as it was. */
  function CleanUrl(u: Url): (r: Url)
    ensures r.scheme == u.scheme && r.netloc == u.netloc && r.path == u.path
    ensures r.params == u.params && r.fragment == u.fragment
    ensures r.query == CleanQuery(u.query) && CredentialFree(r.query)
  {
    u.(query := CleanQuery(u.query))
  }

  /** Dropping distributes over concatenation, so the kept fields stay in their original order. */
  lemma {:induction false} DropApikeyAppend(a: Query, b: Query)
    ensures DropApikey(a + b) == DropApikey(a) + DropApikey(b)
  {
    if a == [] {
      assert a + b == b;
    } else {
      assert (a + b)[1..] == a[1..] + b;
      DropApikeyAppend(a[1..], b);
    }
  }

  /** Parsing distributes over concatenation as well. */
  lemma {:induction false} ParseQslAppend(a: Query, b: Query)
    ensures ParseQsl(a + b) == ParseQsl(a) + ParseQsl(b)
  {
    if a == [] {
      assert a + b == b;
    } else {
      assert (a + b)[1..] == a[1..] + b;
      ParseQslAppend(a[1..], b);
    }
  }

  /** Cleaning keeps, in order, exactly the non-blank fields whose name is not `apikey`. */
  lemma CleanQueryAppend(a: Query, b: Query)
    ensures CleanQuery(a + b) == CleanQuery(a) + CleanQuery(b)
    ensures CleanQuery([]) == []
  {
    ParseQslAppend(a, b);
    DropApikeyAppend(ParseQsl(a), ParseQsl(b));
  }

  /** What cleaning does with one field. */
  lemma CleanQuerySingle(p: QueryPair)
    ensures CleanQuery([p]) == if p.value == "" || IsApikeyName(p.name) then [] else [p]
  {
    assert [p][1..] == [];
  }

  /** A query that is already parsed and credential-free is left exactly as it is. */
  lemma {:induction false} CleanQueryKeepsCleanQuery(q: Query)
    requires CredentialFree(q)
    requires forall p :: p in q ==> p.value != ""
    ensures CleanQuery(q) == q
  {
    if q != [] {
      CleanQueryKeepsCleanQuery(q[1..]);
      assert q[0] in q;
      assert ParseQsl(q) == [q[0]] + ParseQsl(q[1..]);
    }
  }

  /** Cleaning is idempotent. */
  lemma CleanQueryIdempotent(q: Query)
    ensures CleanQuery(CleanQuery(q)) == CleanQuery(q)
  {
    CleanQueryKeepsCleanQuery(CleanQuery(q));
  }

  lemma CleanUrlIdempotent(u: Url)
    ensures CleanUrl(CleanUrl(u)) == CleanUrl(u)
  {
    CleanQueryIdempotent(u.query);
  }

  /** A request as handed to the storage; the URL is absent when the request has none. */
  datatype Request = Request(
    verb: string,
    url: Option<Url>,
    headers: seq<(string, string)>,
    content: seq<int>,
    extensions: map<string, string>)

  /** The request's URL, if any, carries no credential. */
  predicate RequestCredentialFree(r: Request) {
    r.url.Some? ==> CredentialFree(r.url.value.query)
  }

  /**
   * `_create_clean_request`: a request without a URL is returned as it is; otherwise a new
   * request with the same method, headers, content and extensions and the cleaned URL.
   */
  function CleanRequest(r: Request): (c: Request)
    ensures RequestCredentialFree(c)
    ensures c.verb == r.verb && c.headers == r.headers
    ensures c.content == r.content && c.extensions == r.extensions
    ensures r.url.None? ==> c == r
    ensures r.url.Some? ==> c.url == Some(CleanUrl(r.url.value))
  {
    if r.url.None? then r else r.(url := Some(CleanUrl(r.url.value)))
  }

  /** A cached HTTP response, opaque to the wrapper. */
  datatype CachedResponse = CachedResponse(status: int, headers: seq<(string, string)>, content: seq<int>)

  /** What a storage backend keeps under one cache key. */
  datatype Entry = Entry(response: CachedResponse, request: Request, metadata: Option<map<string, string>>)

  /** Every stored request representation is free of the credential. */
  predicate StoreCredentialFree(entries: map<string, Entry>) {
    forall k :: k in entries ==> RequestCredentialFree(entries[k].request)
  }

  /**
   * The wrapped cache-storage backend, seen as the key-to-entry map it persists. The
   * backends themselves (files, SQLite, Redis, memory) are outside this model.
   */
  class CacheStorage {
    var entries: map<string, Entry>

    constructor (initial: map<string, Entry>)
      ensures entries == initial
    {
      entries := initial;
    }

    method Store(key: string, response: CachedResponse, request: Request, metadata: Option<map<string, string>>)
      modifies this
      ensures entries == old(entries)[key := Entry(response, request, metadata)]
    {
      entries := entries[key := Entry(response, request, metadata)];
    }

    method Retrieve(key: string) returns (r: Option<Entry>)
      ensures key in entries ==> r == Some(entries[key])
      ensures key !in entries ==> r == None
    {
      r := if key in entries then Some(entries[key]) else None;
    }

    method Delete(key: string)
      modifies this
      ensures entries == old(entries) - {key}
    {
      entries := entries - {key};
    }
  }

  /** `SafeStorageWrapper`: forwards to the wrapped storage, cleaning the request on `store`. */
  class SafeStorageWrapper {
    const wrapped: CacheStorage

    constructor (storage: CacheStorage)
      ensures wrapped == storage
    {
      wrapped := storage;
    }

    /** `store`: the same key, response and metadata, with the request's URL cleaned. */
    method Store(key: string, response: CachedResponse, request: Request, metadata: Option<map<string, string>>)
      modifies wrapped
      ensures wrapped.entries == old(wrapped.entries)[key := Entry(response, CleanRequest(request), metadata)]
      ensures RequestCredentialFree(wrapped.entries[key].request)
      ensures StoreCredentialFree(old(wrapped.entries)) ==> StoreCredentialFree(wrapped.entries)
    {
      var clean := CleanRequest(request);
      wrapped.Store(key, response, clean, metadata);
    }

    /** `retrieve`: the wrapped storage's answer for the same key. */
    method Retrieve(key: string) returns (r: Option<Entry>)
      ensures key in wrapped.entries ==> r == Some(wrapped.entries[key])
      ensures key !in wrapped.entries ==> r == None
    {
      r := wrapped.Retrieve(key);
    }

    /** `delete`: the wrapped storage deletes the same key. */
    method Delete(key: string)
      modifies wrapped
      ensures wrapped.entries == old(wrapped.entries) - {key}
    {
      wrapped.Delete(key);
    }
  }
}
