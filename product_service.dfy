/**
 * The catalog's cache-aside layer over Redis. Redis is a key-value map held
 * by the service object, together with the client singleton; every Redis
 * call's failure, the Fake Store fetch and the SCAN replies are inputs.
 * JSON documents are held decoded: a cached value is blank, undecodable, or
 * a document (a list of products or one product object).
 */
module ProductService {
  import opened Wrappers
  import opened Text
  import opened Catalog

  /** A decoded JSON document: the product list, or a single product object. */
  datatype Json = JList(products: seq<Product>) | JObject(product: Product)

  /** Python truthiness of a decoded document; a product object is never empty. */
  predicate Truthy(d: Json) { d.JList? ==> d.products != [] }

  /** A Redis string value as `json.loads` sees it. */
  datatype Stored = Blank | Corrupt | Doc(doc: Json)

  /** A Redis key's value and the expiry it was set with (`None`: no expiry). */
  datatype Entry = Entry(value: Stored, ttl: Option<int>)

  /** How a Redis call can fail: a `RedisError`, or any other exception. */
  datatype Fault = RedisFault | OtherFault

  /** What the Fake Store request produced. */
  datatype FetchOutcome = Fetched(body: Json) | TimedOut | HttpStatusFailed | RequestFailed | Unexpected

  const CacheKey := "products:all"

  const DefaultCacheTtl := 31536000

  /** `int(os.getenv("PRODUCTS_CACHE_TTL", "31536000"))`, the variable already parsed. */
  function CacheTtlSetting(env: Option<int>): int {
    env.GetOr(DefaultCacheTtl)
  }

  /** `f"product:{product_id}"`. */
  function ProductKey(id: int): string { "product:" + IntToString(id) }

  /** The SCAN pattern `product:*`. */
  predicate MatchesProductPattern(key: string) { |key| >= 8 && key[..8] == "product:" }

  /** Per-product keys match the SCAN pattern; the list key does not, so it is deleted on its own. */
  lemma KeyNamespaces(id: int)
    ensures MatchesProductPattern(ProductKey(id))
    ensures !MatchesProductPattern(CacheKey)
    ensures ProductKey(id) != CacheKey
  {
    assert ProductKey(id)[..8] == "product:";
    assert CacheKey[7] == 's';
    assert ProductKey(id)[7] == ':';
  }

  const MissingUrl := "FAKE_STORE environment variable is not set"

  /** `_fetch_from_api`: raises only when the URL is unset; every request failure becomes `[]`. */
  function FetchFromApi(urlSet: bool, outcome: FetchOutcome): (r: Result<Json, string>)
    ensures r.Failure? <==> !urlSet
    ensures r.Failure? ==> r.error == MissingUrl
    ensures r.Success? && outcome.Fetched? ==> r.value == outcome.body
    ensures r.Success? && !outcome.Fetched? ==> r.value == JList([])
  {
    if !urlSet then Failure(MissingUrl)
    else match outcome
      case Fetched(body) => Success(body)
      case _ => Success(JList([]))
  }

  /** What `redis.get(key)` followed by `if cached: json.loads(cached)` yields: a document on a usable hit. */
  function CachedDoc(cache: map<string, Entry>, key: string): Option<Json> {
    if key in cache && cache[key].value.Doc? then Some(cache[key].value.doc) else None
  }

  /** The service's mutable state: the client singleton and the Redis keyspace. */
  datatype State = State(connected: bool, connections: nat, cache: map<string, Entry>)

  /** The client is created at most once: one connection exactly when it exists. */
  predicate Singleton(st: State) { st.connections == if st.connected then 1 else 0 }

  /** `get_redis_client`: reuse the client, or create it (counting the creation); a failed creation re-raises. */
  function ConnectSpec(st: State, fault: Option<Fault>): (Option<Fault>, State) {
    if st.connected then (None, st)
    else if fault.Some? then (fault, st)
    else (None, st.(connected := true, connections := st.connections + 1))
  }

  /** Faults and fetch outcome met by one `get_products` call. */
  datatype ProductsEnv = ProductsEnv(connect: Option<Fault>, read: Option<Fault>, fetch: FetchOutcome,
                                    write: Option<Fault>)

  /** `get_products` as a function of the state. */
  function GetProductsSpec(st: State, forceRefresh: bool, env: ProductsEnv, urlSet: bool, ttl: int)
    : (Result<Json, string>, State)
  {
    var (cf, st1) := ConnectSpec(st, env.connect);
    var readFault := if cf.Some? then cf else if !forceRefresh then env.read else None;
    if readFault == Some(RedisFault) then (FetchFromApi(urlSet, env.fetch), st1)
    else if readFault == Some(OtherFault) then (Success(JList([])), st1)
    else if !forceRefresh && CachedDoc(st1.cache, CacheKey).Some? then (Success(CachedDoc(st1.cache, CacheKey).value), st1)
    else match FetchFromApi(urlSet, env.fetch)
      case Failure(_) => (Success(JList([])), st1)
      case Success(doc) =>
        if Truthy(doc) && env.write.None? then
          (Success(doc), st1.(cache := st1.cache[CacheKey := Entry(Doc(doc), Some(ttl))]))
        else (Success(doc), st1)
  }

  /** Faults met by one `get_product_by_id` call, including those of the `get_products` it may run. */
  datatype ByIdEnv = ByIdEnv(connect: Option<Fault>, read: Option<Fault>, inner: ProductsEnv, write: Option<Fault>)

  const NotADictError := "'str' object has no attribute 'get'"

  /**
   * `next((p for p in products if p.get("id") == product_id), None)` over a
   * document: iterating a product object walks its string keys, where `.get`
   * raises.
   */
  function FindInDoc(doc: Json, id: int): (r: Result<Option<Product>, string>)
    ensures doc.JList? ==> r == Success(FindById(doc.products, id))
    ensures doc.JObject? ==> r.Failure?
  {
    match doc
    case JList(ps) => Success(FindById(ps, id))
    case JObject(_) => Failure(NotADictError)
  }

  /** The `except RedisError` branch of `get_product_by_id`: search `get_products()`; anything it raises escapes. */
  function ByIdFallback(st: State, id: int, env: ByIdEnv, urlSet: bool, ttl: int)
    : (Result<Option<Json>, string>, State)
  {
    var (r, st2) := GetProductsSpec(st, false, env.inner, urlSet, ttl);
    match r
    case Failure(e) => (Failure(e), st2)
    case Success(doc) =>
      match FindInDoc(doc, id)
      case Failure(e) => (Failure(e), st2)
      case Success(found) => (Success(if found.Some? then Some(JObject(found.value)) else None), st2)
  }

  /** `get_product_by_id` as a function of the state. */
  function GetProductByIdSpec(st: State, id: int, env: ByIdEnv, urlSet: bool, ttl: int)
    : (Result<Option<Json>, string>, State)
  {
    var (cf, st1) := ConnectSpec(st, env.connect);
    var readFault := if cf.Some? then cf else env.read;
    var key := ProductKey(id);
    if readFault == Some(RedisFault) then ByIdFallback(st1, id, env, urlSet, ttl)
    else if readFault == Some(OtherFault) then (Success(None), st1)
    else if CachedDoc(st1.cache, key).Some? then (Success(CachedDoc(st1.cache, key)), st1)
    else
      var (r, st2) := GetProductsSpec(st1, false, env.inner, urlSet, ttl);
      if r.Failure? || FindInDoc(r.value, id).Failure? || FindInDoc(r.value, id).value.None? then (Success(None), st2)
      else
        var p := FindInDoc(r.value, id).value.value;
        if env.write.None? then (Success(Some(JObject(p))), st2.(cache := st2.cache[key := Entry(Doc(JObject(p)), Some(ttl))]))
        else (Success(Some(JObject(p))), st2)
  }

  /** One SCAN reply: the next cursor and a batch of keys, or a failed call. */
  datatype ScanReply = Batch(cursor: int, keys: seq<string>) | ScanFailed

  /** The keys `clear_cache` deletes in the loop: every batch up to the one with cursor 0, or up to a failure. */
  function ScannedKeys(replies: seq<ScanReply>): set<string>
    decreases |replies|
  {
    if replies == [] || replies[0].ScanFailed? then {}
    else
      var b := KeySet(replies[0].keys);
      if replies[0].cursor == 0 then b else b + ScannedKeys(replies[1..])
  }

  function KeySet(keys: seq<string>): set<string> { set k | k in keys }

  /** One batch of the scan: its keys and size, then (unless its cursor is 0) the rest. */
  lemma ScanStep(replies: seq<ScanReply>)
    requires replies != [] && replies[0].Batch?
    ensures ScannedKeys(replies)
      == KeySet(replies[0].keys) + (if replies[0].cursor == 0 then {} else ScannedKeys(replies[1..]))
    ensures ScannedCount(replies)
      == |replies[0].keys| + (if replies[0].cursor == 0 then 0 else ScannedCount(replies[1..]))
  {
  }

  /** `deleted_count` at the end of the loop: the batch sizes summed. */
  function ScannedCount(replies: seq<ScanReply>): nat
    decreases |replies|
  {
    if replies == [] || replies[0].ScanFailed? then 0
    else |replies[0].keys| + (if replies[0].cursor == 0 then 0 else ScannedCount(replies[1..]))
  }

  /** The replies the loop consumes: through the first cursor-0 batch or the first failure. */
  function Consumed(replies: seq<ScanReply>): (n: nat)
    ensures n <= |replies|
    decreases |replies|
  {
    if replies == [] then 0
    else if replies[0].ScanFailed? || replies[0].cursor == 0 then 1
    else 1 + Consumed(replies[1..])
  }

  /** Removing a set of keys from the keyspace. */
  function Without(cache: map<string, Entry>, keys: set<string>): (r: map<string, Entry>)
    ensures r.Keys == cache.Keys - keys
  {
    map k | k in cache && k !in keys :: cache[k]
  }

  lemma WithoutTwice(cache: map<string, Entry>, a: set<string>, b: set<string>)
    ensures Without(Without(cache, a), b) == Without(cache, a + b)
    ensures b == {} ==> Without(cache, a) == Without(cache, a + b)
  {
  }

  /** `clear_cache` as a function of the keyspace, after a successful connection. */
  function ClearCacheSpec(cache: map<string, Entry>, deleteFault: bool, replies: seq<ScanReply>): map<string, Entry> {
    if deleteFault then cache else Without(cache, {CacheKey} + ScannedKeys(replies))
  }

  /**
   * When the SCAN replies cover every `product:*` key (what a full Redis
   * iteration guarantees for keys present throughout), no product key and no
   * list key survives, and every other key is kept.
   */
  lemma ClearCacheRemovesProductKeys(cache: map<string, Entry>, replies: seq<ScanReply>)
    requires forall k :: k in cache && MatchesProductPattern(k) ==> k in ScannedKeys(replies)
    requires forall k :: k in ScannedKeys(replies) ==> MatchesProductPattern(k)
    ensures var after := ClearCacheSpec(cache, false, replies);
      CacheKey !in after
      && (forall k :: k in after ==> !MatchesProductPattern(k))
      && (forall k :: k in cache && !MatchesProductPattern(k) && k != CacheKey ==> k in after && after[k] == cache[k])
  {
  }

  /** `get_cache_ttl` given Redis's TTL answer: the TTL when positive, otherwise (and on any failure) `None`. */
  function CacheTtlResult(fault: Option<Fault>, reply: int): (r: Option<int>)
    ensures r.Some? <==> fault.None? && reply > 0
    ensures r.Some? ==> r.value == reply
  {
    if fault.Some? || reply <= 0 then None else Some(reply)
  }

  /** Redis's TTL reply for a key right after it was written: -2 when absent, -1 without expiry. */
  function RedisTtl(cache: map<string, Entry>, key: string): int {
    if key !in cache then -2
    else match cache[key].ttl
      case None => -1
      case Some(t) => t
  }

  /** Without a stored TTL (absent key, or no expiry) `get_cache_ttl` answers `None`. */
  lemma CacheTtlOfMissingKey(cache: map<string, Entry>)
    requires CacheKey !in cache || cache[CacheKey].ttl.None?
    ensures CacheTtlResult(None, RedisTtl(cache, CacheKey)) == None
  {
  }

  /** `get_cache_ttl` as a function of the state: a failed connection or TTL call answers `None`. */
  function GetCacheTtlSpec(st: State, connect: Option<Fault>, ttlFault: Option<Fault>): (Option<int>, State) {
    var (cf, st1) := ConnectSpec(st, connect);
    (CacheTtlResult(if cf.Some? then cf else ttlFault, RedisTtl(st1.cache, CacheKey)), st1)
  }

  /** Once a client exists every later call reuses it, whatever it would have met, and nothing is counted. */
  lemma ClientCreatedOnce(st: State, first: Option<Fault>, later: Option<Fault>)
    requires ConnectSpec(st, first).0.None?
    ensures ConnectSpec(st, first).1.connected
    ensures ConnectSpec(ConnectSpec(st, first).1, later) == (None, ConnectSpec(st, first).1)
    ensures Singleton(st) ==> Singleton(ConnectSpec(st, first).1) && ConnectSpec(st, first).1.connections == 1
  {
  }

  /** `get_products` changes the client only through `get_redis_client`. */
  lemma GetProductsConnectsOnce(st: State, forceRefresh: bool, env: ProductsEnv, urlSet: bool, ttl: int)
    ensures GetProductsSpec(st, forceRefresh, env, urlSet, ttl).1.connected == ConnectSpec(st, env.connect).1.connected
    ensures GetProductsSpec(st, forceRefresh, env, urlSet, ttl).1.connections
      == ConnectSpec(st, env.connect).1.connections
  {
  }

  /** `get_products` creates no second client. */
  lemma GetProductsKeepsSingleton(st: State, forceRefresh: bool, env: ProductsEnv, urlSet: bool, ttl: int)
    requires Singleton(st)
    ensures Singleton(GetProductsSpec(st, forceRefresh, env, urlSet, ttl).1)
  {
    GetProductsConnectsOnce(st, forceRefresh, env, urlSet, ttl);
  }

  /** `get_product_by_id`, including the `get_products` it runs, creates no second client. */
  lemma GetProductByIdKeepsSingleton(st: State, id: int, env: ByIdEnv, urlSet: bool, ttl: int)
    requires Singleton(st)
    ensures Singleton(GetProductByIdSpec(st, id, env, urlSet, ttl).1)
  {
    var st1 := ConnectSpec(st, env.connect).1;
    assert Singleton(st1);
    GetProductsKeepsSingleton(st1, false, env.inner, urlSet, ttl);
  }

  /**
   * A usable cached list is returned as it is, without connecting anew, without
   * consulting the Fake Store, and without writing anything.
   */
  lemma CacheHitSkipsFetch(st: State, env: ProductsEnv, fetch: FetchOutcome, urlSet: bool, ttl: int)
    requires ConnectSpec(st, env.connect).0.None? && env.read.None?
    requires CachedDoc(st.cache, CacheKey).Some?
    ensures GetProductsSpec(st, false, env, urlSet, ttl)
      == (Success(st.cache[CacheKey].value.doc), ConnectSpec(st, env.connect).1)
    ensures GetProductsSpec(st, false, env.(fetch := fetch), urlSet, ttl) == GetProductsSpec(st, false, env, urlSet, ttl)
  {
  }

  /**
   * On a miss or a forced refresh the answer is what the Fake Store gave
   * (`[]` when the request failed), and it is stored with the configured TTL
   * exactly when it is non-empty and the write succeeds.
   */
  lemma MissFetchesAndCaches(st: State, forceRefresh: bool, env: ProductsEnv, doc: Json, ttl: int)
    requires ConnectSpec(st, env.connect).0.None?
    requires forceRefresh || (env.read.None? && CachedDoc(st.cache, CacheKey).None?)
    requires env.fetch == Fetched(doc)
    ensures var (r, after) := GetProductsSpec(st, forceRefresh, env, true, ttl);
      r == Success(doc)
      && after.connected == ConnectSpec(st, env.connect).1.connected
      && (Truthy(doc) && env.write.None? ==> after.cache == st.cache[CacheKey := Entry(Doc(doc), Some(ttl))])
      && (!Truthy(doc) || env.write.Some? ==> after.cache == st.cache)
  {
  }

  /**
   * `get_products` writes nothing but the list key, and what it writes there is
   * the non-empty document it returns, with the configured TTL: an empty
   * result is never cached.
   */
  lemma EmptyNeverCached(st: State, forceRefresh: bool, env: ProductsEnv, urlSet: bool, ttl: int)
    ensures var (r, after) := GetProductsSpec(st, forceRefresh, env, urlSet, ttl);
      after.cache == st.cache
      || (r.Success? && Truthy(r.value) && after.cache == st.cache[CacheKey := Entry(Doc(r.value), Some(ttl))])
  {
  }

  /**
   * `get_products` raises only on the `RedisError` fallback with `FAKE_STORE`
   * unset; every other failure is answered with a document.
   */
  lemma GetProductsRaisesOnlyOnFallback(st: State, forceRefresh: bool, env: ProductsEnv, urlSet: bool, ttl: int)
    ensures GetProductsSpec(st, forceRefresh, env, urlSet, ttl).0.Failure? <==>
      !urlSet
      && (ConnectSpec(st, env.connect).0 == Some(RedisFault)
          || (ConnectSpec(st, env.connect).0.None? && !forceRefresh && env.read == Some(RedisFault)))
  {
  }

  /** A usable `product:{id}` entry answers the lookup at once and leaves the keyspace alone. */
  lemma ByIdCacheFirst(st: State, id: int, env: ByIdEnv, urlSet: bool, ttl: int)
    requires ConnectSpec(st, env.connect).0.None? && env.read.None?
    requires CachedDoc(st.cache, ProductKey(id)).Some?
    ensures GetProductByIdSpec(st, id, env, urlSet, ttl)
      == (Success(Some(st.cache[ProductKey(id)].value.doc)), ConnectSpec(st, env.connect).1)
  {
  }

  /**
   * Without a per-product entry, the lookup answers with the first product of
   * the list carrying the id, or `None`; a found product is stored under its
   * own key unless the write fails.
   */
  lemma ByIdSearchesList(st: State, id: int, env: ByIdEnv, urlSet: bool, ttl: int, products: seq<Product>)
    requires ConnectSpec(st, env.connect).0.None? && env.read.None?
    requires CachedDoc(st.cache, ProductKey(id)).None?
    requires GetProductsSpec(ConnectSpec(st, env.connect).1, false, env.inner, urlSet, ttl).0 == Success(JList(products))
    ensures var (r, after) := GetProductByIdSpec(st, id, env, urlSet, ttl);
      var listed := GetProductsSpec(ConnectSpec(st, env.connect).1, false, env.inner, urlSet, ttl).1;
      (FindById(products, id).None? ==> r == Success(None) && after == listed)
      && (FindById(products, id).Some? ==>
            r == Success(Some(JObject(FindById(products, id).value)))
            && (env.write.None? ==>
                  after.cache == listed.cache[ProductKey(id) := Entry(Doc(JObject(FindById(products, id).value)), Some(ttl))])
            && (env.write.Some? ==> after == listed))
  {
  }

  /** A lookup on the main path never raises: a failing list fetch or a product object in the list key gives `None`. */
  lemma ByIdMainPathNeverRaises(st: State, id: int, env: ByIdEnv, urlSet: bool, ttl: int)
    requires ConnectSpec(st, env.connect).0.None? && env.read != Some(RedisFault)
    ensures GetProductByIdSpec(st, id, env, urlSet, ttl).0.Success?
  {
  }

  class Products {
    /** `_redis_client is not None`. */
    var connected: bool
    /** How many clients `get_redis_client` has created. */
    var connections: nat
    /** The Redis keyspace. */
    var cache: map<string, Entry>
    /** Whether `FAKE_STORE` is set. */
    const urlSet: bool
    /** `CACHE_TTL`. */
    const cacheTtl: int

    function Snapshot(): State
      reads this
    {
      State(connected, connections, cache)
    }

    constructor(urlSet: bool, cacheTtl: int, cache: map<string, Entry>)
      ensures Snapshot() == State(false, 0, cache) && Singleton(Snapshot())
      ensures this.urlSet == urlSet && this.cacheTtl == cacheTtl
    {
      this.urlSet := urlSet;
      this.cacheTtl := cacheTtl;
      this.cache := cache;
      connected := false;
      connections := 0;
    }

    method GetRedisClient(fault: Option<Fault>) returns (raised: Option<Fault>)
      modifies this
      ensures (raised, Snapshot()) == ConnectSpec(old(Snapshot()), fault)
      ensures Singleton(old(Snapshot())) ==> Singleton(Snapshot())
    {
      if !connected {
        if fault.Some? {
          return fault;
        }
        connected := true;
        connections := connections + 1;
      }
      return None;
    }

    /** `get_products`. */
    method GetProducts(forceRefresh: bool, env: ProductsEnv) returns (r: Result<Json, string>)
      modifies this
      ensures (r, Snapshot()) == GetProductsSpec(old(Snapshot()), forceRefresh, env, urlSet, cacheTtl)
    {
      var cf := GetRedisClient(env.connect);
      if cf.Some? {
        return if cf.value.RedisFault? then FetchFromApi(urlSet, env.fetch) else Success(JList([]));
      }
      if !forceRefresh {
        if env.read.Some? {
          return if env.read.value.RedisFault? then FetchFromApi(urlSet, env.fetch) else Success(JList([]));
        }
        var cached := CachedDoc(cache, CacheKey);
        if cached.Some? {
          return Success(cached.value);
        }
      }
      var fetched := FetchFromApi(urlSet, env.fetch);
      if fetched.Failure? {
        return Success(JList([]));
      }
      var products := fetched.value;
      if Truthy(products) && env.write.None? {
        cache := cache[CacheKey := Entry(Doc(products), Some(cacheTtl))];
      }
      return Success(products);
    }

    /** `get_product_by_id`. */
    method GetProductById(id: int, env: ByIdEnv) returns (r: Result<Option<Json>, string>)
      modifies this
      ensures (r, Snapshot()) == GetProductByIdSpec(old(Snapshot()), id, env, urlSet, cacheTtl)
    {
      var key := ProductKey(id);
      var cf := GetRedisClient(env.connect);
      var readFault := if cf.Some? then cf else env.read;
      if readFault == Some(OtherFault) {
        return Success(None);
      }
      if readFault == Some(RedisFault) {
        var all := GetProducts(false, env.inner);
        if all.Failure? {
          return Failure(all.error);
        }
        var found := FindInDoc(all.value, id);
        if found.Failure? {
          return Failure(found.error);
        }
        return Success(if found.value.Some? then Some(JObject(found.value.value)) else None);
      }
      var cached := CachedDoc(cache, key);
      if cached.Some? {
        return Success(cached);
      }
      var all := GetProducts(false, env.inner);
      if all.Failure? {
        return Success(None);
      }
      var found := FindInDoc(all.value, id);
      if found.Failure? || found.value.None? {
        return Success(None);
      }
      var product := found.value.value;
      if env.write.None? {
        cache := cache[key := Entry(Doc(JObject(product)), Some(cacheTtl))];
      }
      return Success(Some(JObject(product)));
    }

    /** `get_cache_ttl`. */
    method GetCacheTtl(connectFault: Option<Fault>, ttlFault: Option<Fault>) returns (r: Option<int>)
      modifies this
      ensures (r, Snapshot()) == GetCacheTtlSpec(old(Snapshot()), connectFault, ttlFault)
    {
      var cf := GetRedisClient(connectFault);
      if cf.Some? || ttlFault.Some? {
        return None;
      }
      var reply := RedisTtl(cache, CacheKey);
      return if reply > 0 then Some(reply) else None;
    }

    /**
     * `clear_cache`: delete the list key, then SCAN until the cursor comes
     * back 0, deleting each non-empty batch. A failure is logged and ends
     * the call; `deletedCount` is the logged count less one.
     */
    method ClearCache(connectFault: Option<Fault>, deleteFault: bool, replies: seq<ScanReply>)
      returns (deletedCount: nat)
      modifies this
      ensures connections == ConnectSpec(old(Snapshot()), connectFault).1.connections
      ensures connected == ConnectSpec(old(Snapshot()), connectFault).1.connected
      ensures ConnectSpec(old(Snapshot()), connectFault).0.Some? ==> cache == old(cache) && deletedCount == 0
      ensures ConnectSpec(old(Snapshot()), connectFault).0.None? ==>
        cache == ClearCacheSpec(old(cache), deleteFault, replies)
        && deletedCount == (if deleteFault then 0 else ScannedCount(replies))
    {
      var cf := GetRedisClient(connectFault);
      if cf.Some? {
        return 0;
      }
      if deleteFault {
        return 0;
      }
      cache := Without(cache, {CacheKey});
      deletedCount := DeleteScanned(replies);
      WithoutTwice(old(cache), {CacheKey}, ScannedKeys(replies));
    }

    /** The SCAN loop of `clear_cache`: each batch up to cursor 0 or a failure is deleted and counted. */
    method DeleteScanned(replies: seq<ScanReply>) returns (deletedCount: nat)
      modifies this
      ensures cache == Without(old(cache), ScannedKeys(replies))
      ensures deletedCount == ScannedCount(replies)
      ensures connected == old(connected) && connections == old(connections)
    {
      deletedCount := 0;
      ghost var collected: set<string> := {};
      var k := 0;
      var done := false;
      while !done && k < |replies|
        invariant 0 <= k <= |replies|
        invariant connected == old(connected) && connections == old(connections)
        invariant cache == Without(old(cache), collected)
        invariant ScannedKeys(replies) == collected + (if done then {} else ScannedKeys(replies[k..]))
        invariant ScannedCount(replies) == deletedCount + (if done then 0 else ScannedCount(replies[k..]))
        decreases |replies| - k
      {
        var reply := replies[k];
        if reply.ScanFailed? {
          done := true;
        } else {
          ScanStep(replies[k..]);
          assert replies[k..][1..] == replies[k + 1..];
          var batch := KeySet(reply.keys);
          WithoutTwice(old(cache), collected, batch);
          if reply.keys != [] {
            cache := Without(cache, batch);
            deletedCount := deletedCount + |reply.keys|;
          }
          collected := collected + batch;
          done := reply.cursor == 0;
        }
        k := k + 1;
      }
      if !done {
        assert replies[k..] == [];
      }
    }
  }
}
