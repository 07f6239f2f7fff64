/**
 * `PackagingTypesApiClient`: one cache pool, the `accessToken` property set
 * by logging in, and an HTTP transport whose responses arrive in order. Each
 * method is proved to leave exactly the state, and return exactly the result,
 * that the corresponding function of ClientSpec describes.
 */
module Client {

  import opened Wrappers
  import opened PhpValues
  import opened Entity
  import opened ClientSpec
  import SortFields

  class PackagingTypesApiClient {
    const apiUrl: string
    const tokenUrl: string
    const clientId: string
    const clientSecret: string
    /** Keys for which the cache adapter's `getItem` throws. */
    const cacheFaults: set<string>

    /** The contents of the cache pool. */
    var cache: map<string, Entry>
    var accessToken: Option<string>
    /** The responses the transport will return, in order. */
    var pending: seq<Response>
    /** The requests sent, in order. */
    var sent: seq<Request>
    /** The cache operations performed, in order. */
    var cacheLog: seq<CacheOp>

    constructor (apiUrl: string, tokenUrl: string, clientId: string, clientSecret: string,
                 cache: map<string, Entry>, cacheFaults: set<string>, responses: seq<Response>)
      ensures Cfg() == Config(apiUrl, tokenUrl, clientId, clientSecret, cacheFaults)
      ensures Current() == State(cache, None, responses, [], [])
    {
      this.apiUrl, this.tokenUrl := apiUrl, tokenUrl;
      this.clientId, this.clientSecret := clientId, clientSecret;
      this.cacheFaults := cacheFaults;
      this.cache, this.accessToken := cache, None;
      this.pending, this.sent, this.cacheLog := responses, [], [];
    }

    function Cfg(): Config
    {
      Config(apiUrl, tokenUrl, clientId, clientSecret, cacheFaults)
    }

    function Current(): State
      reads this
    {
      State(cache, accessToken, pending, sent, cacheLog)
    }

    /** `$this->cache->getItem($key)` and `isHit()`: None when the adapter throws. */
    method GetCacheItem(key: string) returns (item: Option<Option<Entry>>)
      modifies this
      ensures Current() == Looked(old(Current()), key)
      ensures item == if key in cacheFaults then None
                      else if key in cache then Some(Some(cache[key])) else Some(None)
    {
      cacheLog := cacheLog + [GetItem(key)];
      if key in cacheFaults {
        item := None;
      } else if key in cache {
        item := Some(Some(cache[key]));
      } else {
        item := Some(None);
      }
    }

    /** `$this->cache->save($item)` after the item was set to `e`. */
    method SaveItem(key: string, e: Entry)
      modifies this
      ensures Current() == Saved(old(Current()), key, e)
    {
      cache := cache[key := e];
      cacheLog := cacheLog + [Save(key)];
    }

    method SendRequest(req: Request) returns (response: Response)
      modifies this
      ensures Exchange(Current(), response) == Send(old(Current()), req)
    {
      sent := sent + [req];
      if |pending| == 0 {
        response := TransportFailure;
      } else {
        response := pending[0];
        pending := pending[1..];
      }
    }

    method LoginToAuthServer() returns (r: Result<()>)
      modifies this
      ensures Step(Current(), r) == Login(Cfg(), old(Current()))
    {
      var cachedToken := GetCacheItem(CacheKeyApiToken);
      if cachedToken.None? {
        return Err(ApiException(ConnectError));
      }
      if cachedToken.value.Some? {
        var t := CachedToken(cachedToken.value.value);
        if t.None? {
          return Err(ApiException(ConnectError));
        }
        accessToken := t.value;
      } else {
        var response := SendRequest(TokenRequest(Cfg()));
        if response.TransportFailure? {
          return Err(ApiException(ConnectError));
        }
        var token := Index(response.body, "access_token");
        var ttl := TokenTtl(response.body);
        if token.None? || ttl.None? {
          return Err(ApiException(ConnectError));
        }
        SaveItem(CacheKeyApiToken, Token(token.value, ttl.value));
        var t := NullableStringParam(token.value);
        if t.None? {
          return Err(ApiException(ConnectError));
        }
        accessToken := t.value;
      }
      r := Ok(());
    }

    method FetchPackagingTypesFromApi(sortBy: SortFields.PackagingTypeSortField, onlyActive: bool := false)
      returns (r: Result<seq<Json>>)
      modifies this
      ensures Step(Current(), r) == FetchList(Cfg(), old(Current()), sortBy, onlyActive)
    {
      var login := LoginToAuthServer();
      if login.Err? {
        return Err(login.error);
      }
      var response := SendRequest(ListRequest(apiUrl, accessToken, sortBy, onlyActive));
      if response.TransportFailure? {
        return Err(Throwable);
      }
      r := Members(response.body);
    }

    /**
     * Builds a new entity through its fluent setters, converting each record
     * value to the setter's parameter type first.
     */
    method HydratePackagingType(data: Json) returns (r: Result<PackagingType>)
      ensures r == Hydrate(data)
    {
      if !(data.JObject? || data.JArray?) {
        return Err(Throwable);
      }
      var packagingType := new PackagingTypeEntity();
      var id := IdParam(Field(data, "id"));
      if id.None? { return Err(Throwable); }
      var e := packagingType.SetId(id.value);
      var name := StringParam(Field(data, "name"));
      if name.None? { return Err(Throwable); }
      e := e.SetName(name.value);
      var shortName := NullableStringParam(Field(data, "shortName"));
      if shortName.None? { return Err(Throwable); }
      e := e.SetShortName(shortName.value);
      var transporeonId := StringParam(Field(data, "transporeonId"));
      if transporeonId.None? { return Err(Throwable); }
      e := e.SetTransporeonId(transporeonId.value);
      var category := CategoryParam(Field(data, "category"));
      if category.None? { return Err(Throwable); }
      e := e.SetCategory(category.value);
      var active := BoolParam(Field(data, "active"));
      if active.None? { return Err(Throwable); }
      e := e.SetActive(active.value);
      var length := NullableIntParam(Field(data, "length"));
      if length.None? { return Err(Throwable); }
      e := e.SetLength(length.value);
      var width := NullableIntParam(Field(data, "width"));
      if width.None? { return Err(Throwable); }
      e := e.SetWidth(width.value);
      var height := NullableIntParam(Field(data, "height"));
      if height.None? { return Err(Throwable); }
      e := e.SetHeight(height.value);
      var weight := NullableFloatParam(Field(data, "weight"));
      if weight.None? { return Err(Throwable); }
      e := e.SetWeight(weight.value);
      var maxNbStackable := NullableIntParam(Field(data, "maxNbStackable"));
      if maxNbStackable.None? { return Err(Throwable); }
      e := e.SetMaxNbStackable(maxNbStackable.value);
      r := Ok(packagingType.Snapshot().value);
    }

    method CachePackagingType(packagingType: PackagingType) returns (r: Result<()>)
      modifies this
      ensures Step(Current(), r) == CacheItem(Cfg(), old(Current()), packagingType)
    {
      var key := ItemKey(packagingType.id.text);
      var item := GetCacheItem(key);
      if item.None? {
        return Err(Throwable);
      }
      SaveItem(key, Item(packagingType, CacheTtl));
      r := Ok(());
    }

    /**
     * The `foreach` of `getPackagingTypes`: hydrate each record in order,
     * append it to the result and cache it under its own key.
     */
    method HydrateAndCacheAll(records: seq<Json>) returns (r: Result<seq<PackagingType>>)
      modifies this
      ensures Step(Current(), r) == StoreFrom(Cfg(), old(Current()), HydrateEach(records), 0, [])
    {
      ghost var outcome := StoreFrom(Cfg(), Current(), HydrateEach(records), 0, []);
      var packagingTypes: seq<PackagingType> := [];
      var i := 0;
      while i < |records|
        invariant 0 <= i <= |records|
        invariant StoreFrom(Cfg(), Current(), HydrateEach(records), i, packagingTypes) == outcome
      {
        var packagingType := HydratePackagingType(records[i]);
        if packagingType.Err? {
          return Err(packagingType.error);
        }
        packagingTypes := packagingTypes + [packagingType.value];
        var cached := CachePackagingType(packagingType.value);
        if cached.Err? {
          return Err(cached.error);
        }
        i := i + 1;
      }
      r := Ok(packagingTypes);
    }

    method GetPackagingTypes(sortBy: SortFields.PackagingTypeSortField, onlyActive: bool := false,
                             refreshCache: bool := false)
      returns (r: Result<seq<PackagingType>>)
      modifies this
      ensures Step(Current(), r) == ClientSpec.GetPackagingTypes(Cfg(), old(Current()), sortBy, onlyActive, refreshCache)
    {
      var cachedPackagingTypes := GetCacheItem(CacheKeyPackagingTypes);
      if cachedPackagingTypes.None? {
        return Err(ApiException(RetrieveError));
      }
      if !refreshCache && cachedPackagingTypes.value.Some? {
        match cachedPackagingTypes.value.value
        case List(items, _) => return Ok(items);
        case _ => return Err(ApiException(RetrieveError));
      }
      assert Current() == Looked(old(Current()), CacheKeyPackagingTypes);
      var apiResponse := FetchPackagingTypesFromApi(sortBy, onlyActive);
      if apiResponse.Err? {
        return Err(ApiException(RetrieveError));
      }
      var packagingTypes := HydrateAndCacheAll(apiResponse.value);
      if packagingTypes.Err? {
        return Err(ApiException(RetrieveError));
      }
      SaveItem(CacheKeyPackagingTypes, List(packagingTypes.value, CacheTtl));
      r := Ok(packagingTypes.value);
    }

    method GetPackagingType(id: string) returns (r: Result<Option<PackagingType>>)
      modifies this
      ensures Step(Current(), r) == ClientSpec.GetPackagingType(Cfg(), old(Current()), id)
    {
      var key := ItemKey(id);
      var cachedPackagingType := GetCacheItem(key);
      if cachedPackagingType.None? {
        return Err(ApiException(RetrieveError));
      }
      if cachedPackagingType.value.Some? {
        match cachedPackagingType.value.value
        case Item(pt, _) => return Ok(Some(pt));
        case _ => return Err(ApiException(RetrieveError));
      }
      var login := LoginToAuthServer();
      if login.Err? {
        return Err(ApiException(RetrieveError));
      }
      var response := SendRequest(ItemRequest(apiUrl, accessToken, id));
      if response.TransportFailure? {
        return Err(ApiException(RetrieveError));
      }
      if response.status >= 400 {
        if response.status == 404 {
          return Ok(None);
        }
        return Err(ApiException(RetrieveError));
      }
      var packagingType := HydratePackagingType(response.body);
      if packagingType.Err? {
        return Err(ApiException(RetrieveError));
      }
      SaveItem(key, Item(packagingType.value, CacheTtl));
      r := Ok(Some(packagingType.value));
    }
  }
}
