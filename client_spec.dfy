/**
 * The behaviour of `PackagingTypesApiClient` as functions of the client's
 * state: the single cache pool, the `accessToken` property, the stream of HTTP
 * responses still to come and the log of requests sent and cache operations
 * performed. Each public or protected operation of the client is one function
 * here returning the new state together with its result; the class in
 * client.dfy is proved to follow them.
 */
module ClientSpec {

  import opened Wrappers
  import opened PhpValues
  import opened Uuids
  import opened Entity
  import Categories
  import SortFields

  const CacheKeyPackagingTypes: string := "packagingTypes"
  const CacheKeyPackagingTypePrefix: string := "packagingType_"
  const CacheKeyApiToken: string := "packagingTypesApiToken"
  const CacheTtl: int := 0
  const PackagingTypesUri: string := "/packaging-types"

  /** The message of the exception `loginToAuthServer` throws. */
  const ConnectError: string := "Couldn't connect to Packaging Types API."
  /** The message of the exception both public read operations throw. */
  const RetrieveError: string := "Couldn't retrieve the list of Packaging Types."

  // ---------------------------------------------------------------------------
  // Cache keys, URLs and requests

  /** `sprintf(CACHE_KEY_PACKAGING_TYPE, $id)`: never one of the two fixed keys. */
  function ItemKey(id: string): (k: string)
    ensures k != CacheKeyPackagingTypes && k != CacheKeyApiToken
    ensures |k| == |CacheKeyPackagingTypePrefix| + |id| && k[|CacheKeyPackagingTypePrefix|..] == id
  {
    var k := CacheKeyPackagingTypePrefix + id;
    assert k[13] == '_' && CacheKeyPackagingTypes[13] == 's' && CacheKeyApiToken[13] == 's';
    k
  }

  /** `rtrim($s, '/')`. */
  function RTrimSlashes(s: string): (r: string)
    ensures r <= s
    ensures |r| == 0 || r[|r| - 1] != '/'
    ensures forall i :: |r| <= i < |s| ==> s[i] == '/'
    decreases |s|
  {
    if |s| > 0 && s[|s| - 1] == '/' then RTrimSlashes(s[..|s| - 1]) else s
  }

  /** `rtrim($this->apiUrl, '/') . PACKAGING_TYPES_URI`. */
  function ListUrl(apiUrl: string): string
  {
    RTrimSlashes(apiUrl) + PackagingTypesUri
  }

  /** `rtrim($this->apiUrl, '/') . PACKAGING_TYPES_URI . '/' . $id`. */
  function ItemUrl(apiUrl: string, id: string): string
  {
    ListUrl(apiUrl) + "/" + id
  }

  /** A query parameter, form field or header, in the order it is sent. */
  type Param = (string, string)

  /** The query of the list request: `sortBy` first, then `active=true` only for active records. */
  function ListQuery(sortBy: SortFields.PackagingTypeSortField, onlyActive: bool): (q: seq<Param>)
    ensures |q| == if onlyActive then 2 else 1
    ensures q[0] == ("sortBy", SortFields.Value(sortBy))
    ensures ("active", "true") in q <==> onlyActive
    ensures ("active", "false") !in q
  {
    [("sortBy", SortFields.Value(sortBy))] + if onlyActive then [("active", "true")] else []
  }

  datatype HttpMethod = GET | POST

  datatype Request = Request(
    verb: HttpMethod,
    url: string,
    query: seq<Param>,
    headers: seq<Param>,
    form: seq<Param>)

  /** `sprintf("Bearer %s", $this->accessToken)`: null prints as the empty string. */
  function Bearer(accessToken: Option<string>): string
  {
    "Bearer " + match accessToken case Some(t) => t case None => ""
  }

  function ApiHeaders(accessToken: Option<string>): seq<Param>
  {
    [("Authorization", Bearer(accessToken)), ("Accept", "application/ld+json")]
  }

  /** The client-credentials exchange sent to the token endpoint. */
  function TokenRequest(cfg: Config): Request
  {
    Request(POST, cfg.tokenUrl, [],
      [("Accept", "application/json"), ("Content-Type", "application/x-www-form-urlencoded")],
      [("grant_type", "client_credentials"), ("client_id", cfg.clientId), ("client_secret", cfg.clientSecret)])
  }

  function ListRequest(apiUrl: string, accessToken: Option<string>,
                       sortBy: SortFields.PackagingTypeSortField, onlyActive: bool): Request
  {
    Request(GET, ListUrl(apiUrl), ListQuery(sortBy, onlyActive), ApiHeaders(accessToken), [])
  }

  function ItemRequest(apiUrl: string, accessToken: Option<string>, id: string): Request
  {
    Request(GET, ItemUrl(apiUrl, id), [], ApiHeaders(accessToken), [])
  }

  // ---------------------------------------------------------------------------
  // State

  /** The construction parameters that the operations read. */
  datatype Config = Config(
    apiUrl: string,
    tokenUrl: string,
    clientId: string,
    clientSecret: string,
    cacheFaults: set<string>)  // keys for which the cache adapter's getItem throws

  /** A cache entry: the stored value and the TTL given to `expiresAfter`. */
  datatype Entry =
    | Token(token: Json, ttl: int)
    | List(items: seq<PackagingType>, ttl: int)
    | Item(item: PackagingType, ttl: int)

  datatype CacheOp = GetItem(key: string) | Save(key: string)

  /** What `sendRequest` yields: a response, or an exception from the transport. */
  datatype Response = Reply(status: int, body: Json) | TransportFailure

  datatype State = State(
    cache: map<string, Entry>,
    accessToken: Option<string>,
    pending: seq<Response>,   // responses the transport will return, in order
    sent: seq<Request>,       // requests sent so far
    log: seq<CacheOp>)        // cache operations performed so far

  /** `Throwable` is any exception raised inside an operation before it is wrapped. */
  datatype Error = ApiException(message: string) | Throwable

  datatype Result<T> = Ok(value: T) | Err(error: Error)

  /** The state after an operation, with what it returned or threw. */
  datatype Step<T> = Step(state: State, result: Result<T>)

  datatype Exchange = Exchange(state: State, response: Response)

  /** `$cache->getItem($key)`, recorded in the log. */
  function Looked(s: State, key: string): State
  {
    s.(log := s.log + [GetItem(key)])
  }

  /** Setting a cache item to `e` and `$cache->save($item)`. */
  function Saved(s: State, key: string, e: Entry): State
  {
    s.(cache := s.cache[key := e], log := s.log + [Save(key)])
  }

  /** `$this->httpClient->sendRequest($req)`; an exhausted stream is a transport failure. */
  function Send(s: State, req: Request): Exchange
  {
    var s' := s.(sent := s.sent + [req]);
    if |s.pending| == 0 then Exchange(s', TransportFailure)
    else Exchange(s'.(pending := s.pending[1..]), s.pending[0])
  }

  // ---------------------------------------------------------------------------
  // loginToAuthServer

  /** A cached token assigned to the `?string` property; an array or an object throws. */
  function CachedToken(e: Entry): Option<Option<string>>
  {
    match e
    case Token(v, _) => NullableStringParam(v)
    case _ => None
  }

  /**
   * `$body['expires_in'] - 10`, the TTL given to the token entry: the integer
   * value of `expires_in` minus ten seconds, a null one counting as zero.
   */
  function TokenTtl(body: Json): (r: Option<int>)
    ensures Index(body, "expires_in").None? ==> r.None?
    ensures Index(body, "expires_in") == Some(JNull) ==> r == Some(-10)
    ensures Index(body, "expires_in").Some? && Index(body, "expires_in").value.JFloat? ==> r.None?
    ensures var v := Index(body, "expires_in");
      v.Some? && !v.value.JNull? && !v.value.JFloat? ==>
        (r.Some? <==> IntParam(v.value).Some?) && (r.Some? ==> r.value == IntParam(v.value).value - 10)
  {
    match Index(body, "expires_in")
    case Some(JNull) => Some(-10)
    case Some(JInt(i)) => Some(i - 10)
    case Some(JBool(b)) => Some((if b then 1 else 0) - 10)
    case Some(JString(s)) =>
      (match ParseInt(s)
       case Some(i) => Some(i - 10)
       case None => None)
    case _ => None
  }

  /**
   * `loginToAuthServer`: on a token hit the cached value becomes the access
   * token; on a miss the credentials are exchanged and the token is cached
   * with TTL `expires_in - 10`. The response status is not inspected.
   */
  function Login(cfg: Config, s: State): (step: Step<()>)
    ensures step.result.Err? ==> step.result.error == ApiException(ConnectError)
    ensures step.result.Err? ==> step.state.accessToken == s.accessToken
    ensures step.state.cache - {CacheKeyApiToken} == s.cache - {CacheKeyApiToken}
    ensures step.result.Err? && step.state.cache != s.cache ==>
      CacheKeyApiToken in step.state.cache && step.state.cache[CacheKeyApiToken].Token? &&
      NullableStringParam(step.state.cache[CacheKeyApiToken].token).None?
    ensures s.log + [GetItem(CacheKeyApiToken)] <= step.state.log
    ensures s.sent <= step.state.sent
  {
    var s1 := Looked(s, CacheKeyApiToken);
    var failure := ApiException(ConnectError);
    if CacheKeyApiToken in cfg.cacheFaults then Step(s1, Err(failure))
    else if CacheKeyApiToken in s.cache then
      match CachedToken(s.cache[CacheKeyApiToken])
      case Some(t) => Step(s1.(accessToken := t), Ok(()))
      case None => Step(s1, Err(failure))
    else
      var x := Send(s1, TokenRequest(cfg));
      match x.response
      case TransportFailure => Step(x.state, Err(failure))
      case Reply(_, body) =>
        match (Index(body, "access_token"), TokenTtl(body))
        case (Some(token), Some(ttl)) =>
          var s2 := Saved(x.state, CacheKeyApiToken, Token(token, ttl));
          (match NullableStringParam(token)
           case Some(t) => Step(s2.(accessToken := t), Ok(()))
           case None => Step(s2, Err(failure)))
        case _ => Step(x.state, Err(failure))
  }

  // ---------------------------------------------------------------------------
  // fetchPackagingTypesFromApi

  /** `$response['member']`, which must be a list of records. */
  function Members(body: Json): Result<seq<Json>>
  {
    match Index(body, "member")
    case Some(JArray(records)) => Ok(records)
    case _ => Err(Throwable)
  }

  /** `fetchPackagingTypesFromApi`: log in, then GET the list; the status is not inspected. */
  function FetchList(cfg: Config, s: State, sortBy: SortFields.PackagingTypeSortField,
                     onlyActive: bool): (step: Step<seq<Json>>)
    ensures step.state.cache == Login(cfg, s).state.cache
    ensures Login(cfg, s).state.log == step.state.log
  {
    var login := Login(cfg, s);
    if login.result.Err? then Step(login.state, Err(login.result.error))
    else
      var x := Send(login.state, ListRequest(cfg.apiUrl, login.state.accessToken, sortBy, onlyActive));
      match x.response
      case TransportFailure => Step(x.state, Err(Throwable))
      case Reply(_, body) => Step(x.state, Members(body))
  }

  // ---------------------------------------------------------------------------
  // hydratePackagingType

  /** `$data[$key]` on an array record: a missing key reads as null. */
  function Field(data: Json, key: string): Json
  {
    if data.JObject? && key in data.fields then data.fields[key] else JNull
  }

  /**
   * `Uuid::fromString($v)`. Only a string can succeed: null is a TypeError,
   * and the string forms of numbers and booleans are never UUIDs.
   */
  function IdParam(v: Json): Option<Uuid>
  {
    match v
    case JString(s) => Uuids.FromString(s)
    case _ => None
  }

  /** `Category::from($v)`: only a string equal to a backing value succeeds. */
  function CategoryParam(v: Json): Option<Categories.Category>
  {
    match v
    case JString(s) => Categories.From(s)
    case _ => None
  }

  /**
   * `hydratePackagingType`: the eleven record keys mapped to the entity's
   * properties through its setters; any conversion that throws fails the
   * whole record.
   */
  function Hydrate(data: Json): (r: Result<PackagingType>)
    ensures r.Ok? ==> data.JObject?
    ensures r.Ok? ==> Field(data, "id").JString? && Uuids.FromString(Field(data, "id").s) == Some(r.value.id)
    ensures r.Ok? ==> Field(data, "category") == JString(Categories.Value(r.value.category))
    ensures r.Err? ==> r.error == Throwable
  {
    if !(data.JObject? || data.JArray?) then Err(Throwable)
    else
      match (IdParam(Field(data, "id")), StringParam(Field(data, "name")),
             NullableStringParam(Field(data, "shortName")), StringParam(Field(data, "transporeonId")),
             CategoryParam(Field(data, "category")), BoolParam(Field(data, "active")))
      case (Some(id), Some(name), Some(shortName), Some(transporeonId), Some(category), Some(active)) =>
        (match (NullableIntParam(Field(data, "length")), NullableIntParam(Field(data, "width")),
                NullableIntParam(Field(data, "height")), NullableFloatParam(Field(data, "weight")),
                NullableIntParam(Field(data, "maxNbStackable")))
         case (Some(length), Some(width), Some(height), Some(weight), Some(maxNbStackable)) =>
           Ok(PackagingType(id, name, shortName, transporeonId, category, active,
                            length, width, height, weight, maxNbStackable))
         case _ => Err(Throwable))
      case _ => Err(Throwable)
  }

  // ---------------------------------------------------------------------------
  // cachePackagingType and getPackagingTypes

  /**
   * `cachePackagingType`: the record under its own key, keyed by the canonical
   * id; only a throwing lookup of that key fails it, and then nothing is written.
   */
  function CacheItem(cfg: Config, s: State, pt: PackagingType): (step: Step<()>)
    ensures step.result.Ok? <==> ItemKey(pt.id.text) !in cfg.cacheFaults
    ensures step.result.Err? ==> step.result.error == Throwable && step.state.cache == s.cache
    ensures step.result.Ok? ==> step.state.cache == s.cache[ItemKey(pt.id.text) := Item(pt, CacheTtl)]
    ensures s.log + [GetItem(ItemKey(pt.id.text))] <= step.state.log
    ensures step.state.accessToken == s.accessToken
    ensures step.state.pending == s.pending && step.state.sent == s.sent
  {
    var key := ItemKey(pt.id.text);
    var s1 := Looked(s, key);
    if key in cfg.cacheFaults then Step(s1, Err(Throwable))
    else Step(Saved(s1, key, Item(pt, CacheTtl)), Ok(()))
  }

  /**
   * The hydration of each fetched record, in `member` order. Hydrating reads
   * nothing but its record, so its outcome does not depend on when it runs.
   */
  function HydrateEach(records: seq<Json>): (hs: seq<Result<PackagingType>>)
    ensures |hs| == |records|
    ensures forall i :: 0 <= i < |records| ==> hs[i] == Hydrate(records[i])
  {
    seq(|records|, i requires 0 <= i < |records| => Hydrate(records[i]))
  }

  /**
   * The `foreach` of `getPackagingTypes` from record `i` on, `hs` holding the
   * hydration of each record and `acc` the entities built so far: take a
   * hydrated record, append it, cache it, go on; the first failure stops.
   */
  function StoreFrom(cfg: Config, s: State, hs: seq<Result<PackagingType>>, i: nat,
                     acc: seq<PackagingType>): (step: Step<seq<PackagingType>>)
    requires i <= |hs|
    ensures step.state.accessToken == s.accessToken
    ensures step.state.pending == s.pending && step.state.sent == s.sent
    ensures s.log <= step.state.log
    ensures step.result.Ok? ==>
      |step.result.value| == |acc| + |hs| - i && step.result.value[..|acc|] == acc
    decreases |hs| - i
  {
    if i == |hs| then Step(s, Ok(acc))
    else
      match hs[i]
      case Err(e) => Step(s, Err(e))
      case Ok(pt) =>
        var c := CacheItem(cfg, s, pt);
        if c.result.Err? then Step(c.state, Err(c.result.error))
        else StoreFrom(cfg, c.state, hs, i + 1, acc + [pt])
  }

  /**
   * `getPackagingTypes`: a hit on the list key is returned as it is unless a
   * refresh is forced; otherwise the list is fetched, each record is hydrated
   * and cached under its own key, and last the whole list is cached.
   */
  function GetPackagingTypes(cfg: Config, s: State, sortBy: SortFields.PackagingTypeSortField,
                             onlyActive: bool, refreshCache: bool): (step: Step<seq<PackagingType>>)
    ensures step.result.Err? ==> step.result.error == ApiException(RetrieveError)
  {
    var s1 := Looked(s, CacheKeyPackagingTypes);
    var failure := Err(ApiException(RetrieveError));
    if CacheKeyPackagingTypes in cfg.cacheFaults then Step(s1, failure)
    else if !refreshCache && CacheKeyPackagingTypes in s.cache then
      match s.cache[CacheKeyPackagingTypes]
      case List(items, _) => Step(s1, Ok(items))
      case _ => Step(s1, failure)
    else
      var fetched := FetchList(cfg, s1, sortBy, onlyActive);
      if fetched.result.Err? then Step(fetched.state, failure)
      else
        var stored := StoreFrom(cfg, fetched.state, HydrateEach(fetched.result.value), 0, []);
        if stored.result.Err? then Step(stored.state, failure)
        else
          var pts := stored.result.value;
          Step(Saved(stored.state, CacheKeyPackagingTypes, List(pts, CacheTtl)), Ok(pts))
  }

  // ---------------------------------------------------------------------------
  // getPackagingType

  /**
   * `getPackagingType($id)`: a hit on the item key is returned; otherwise log
   * in and GET the record. 404 is null, any other status from 400 on fails,
   * and a record is hydrated and cached under the item key.
   */
  function GetPackagingType(cfg: Config, s: State, id: string): (step: Step<Option<PackagingType>>)
    ensures step.result.Err? ==> step.result.error == ApiException(RetrieveError)
  {
    var key := ItemKey(id);
    var s1 := Looked(s, key);
    var failure := Err(ApiException(RetrieveError));
    if key in cfg.cacheFaults then Step(s1, failure)
    else if key in s.cache then
      match s.cache[key]
      case Item(pt, _) => Step(s1, Ok(Some(pt)))
      case _ => Step(s1, failure)
    else
      var login := Login(cfg, s1);
      if login.result.Err? then Step(login.state, failure)
      else
        var x := Send(login.state, ItemRequest(cfg.apiUrl, login.state.accessToken, id));
        match x.response
        case TransportFailure => Step(x.state, failure)
        case Reply(status, body) =>
          if status >= 400 then
            if status == 404 then Step(x.state, Ok(None)) else Step(x.state, failure)
          else
            match Hydrate(body)
            case Err(_) => Step(x.state, failure)
            case Ok(pt) => Step(Saved(x.state, key, Item(pt, CacheTtl)), Ok(Some(pt)))
  }
}
