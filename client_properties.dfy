/**
 * What `PackagingTypesApiClient` promises about its cache entries, its token
 * and the requests it sends, stated over the functions of ClientSpec, with
 * reference definitions of what a list refresh is meant to produce.
 */
module ClientProperties {

  import opened Wrappers
  import opened PhpValues
  import opened Uuids
  import opened Entity
  import Categories
  import SortFields
  import opened ClientSpec

  // ---------------------------------------------------------------------------
  // Reference definitions

  /** The values of `hs` when every one of them is a success; otherwise a failure. */
  function AllOk(hs: seq<Result<PackagingType>>): (r: Result<seq<PackagingType>>)
    ensures r.Ok? <==> forall i :: 0 <= i < |hs| ==> hs[i].Ok?
    ensures r.Ok? ==> |r.value| == |hs|
    ensures r.Ok? ==> forall i :: 0 <= i < |hs| ==> hs[i] == Ok(r.value[i])
    decreases |hs|
  {
    if |hs| == 0 then Ok([])
    else
      match (hs[0], AllOk(hs[1..]))
      case (Ok(pt), Ok(rest)) => Ok([pt] + rest)
      case _ => Err(Throwable)
  }

  /** Every record hydrated, in order; one record that fails fails them all. */
  function HydrateAll(records: seq<Json>): (r: Result<seq<PackagingType>>)
    ensures r.Ok? <==> forall i :: 0 <= i < |records| ==> Hydrate(records[i]).Ok?
    ensures r.Ok? ==> |r.value| == |records|
    ensures r.Ok? ==> forall i :: 0 <= i < |records| ==> Hydrate(records[i]) == Ok(r.value[i])
  {
    AllOk(HydrateEach(records))
  }

  /** The item entries written for `pts`, first to last: a later record with the same id wins. */
  function WriteItems(cache: map<string, Entry>, pts: seq<PackagingType>): map<string, Entry>
    decreases |pts|
  {
    if |pts| == 0 then cache
    else WriteItems(cache[ItemKey(pts[0].id.text) := Item(pts[0], CacheTtl)], pts[1..])
  }

  /** The cache operations of caching `pts` one by one: a lookup, then a save, per record. */
  function ItemOps(pts: seq<PackagingType>): seq<CacheOp>
    decreases |pts|
  {
    if |pts| == 0 then []
    else [GetItem(ItemKey(pts[0].id.text)), Save(ItemKey(pts[0].id.text))] + ItemOps(pts[1..])
  }

  /** No item key of `pts` is one whose lookup throws. */
  predicate ItemKeysUsable(cfg: Config, pts: seq<PackagingType>)
  {
    forall i :: 0 <= i < |pts| ==> ItemKey(pts[i].id.text) !in cfg.cacheFaults
  }

  /** `getPackagingTypes` goes to the API: the lookup succeeds and is a miss, or a refresh is forced. */
  predicate Refreshes(cfg: Config, s: State, refreshCache: bool)
  {
    CacheKeyPackagingTypes !in cfg.cacheFaults && (refreshCache || CacheKeyPackagingTypes !in s.cache)
  }

  /** The fetch a list refresh performs, from the state after the list-key lookup. */
  function Fetched(cfg: Config, s: State, sortBy: SortFields.PackagingTypeSortField,
                   onlyActive: bool): Step<seq<Json>>
  {
    FetchList(cfg, Looked(s, CacheKeyPackagingTypes), sortBy, onlyActive)
  }

  /** Two states that differ at most in the cache entry under `key`. */
  predicate AgreeExcept(a: State, b: State, key: string)
  {
    a.cache - {key} == b.cache - {key} &&
    a.accessToken == b.accessToken && a.pending == b.pending && a.sent == b.sent && a.log == b.log
  }

  lemma ConsAfterPrefix<T>(v: seq<T>, acc: seq<T>, x: T)
    requires |acc| < |v| && v[..|acc| + 1] == acc + [x]
    ensures v[|acc|..] == [x] + v[|acc| + 1..]
  {
    assert v[|acc|] == v[..|acc| + 1][|acc|];
  }

  // ---------------------------------------------------------------------------
  // Cache keys and URLs

  /** Distinct ids give distinct item keys. */
  lemma ItemKeyInjective(a: string, b: string)
    ensures ItemKey(a) == ItemKey(b) ==> a == b
  {
    if ItemKey(a) == ItemKey(b) {
      assert a == ItemKey(a)[|CacheKeyPackagingTypePrefix|..];
    }
  }

  /** Two records with different ids never share an item key. */
  lemma DistinctIdsDistinctKeys(p: PackagingType, q: PackagingType)
    requires p.id != q.id
    ensures ItemKey(p.id.text) != ItemKey(q.id.text)
  {
    ItemKeyInjective(p.id.text, q.id.text);
  }

  /** Slashes at the end of the configured API URL do not change the URL requested. */
  lemma {:induction false} TrailingSlashesIgnored(apiUrl: string, slashes: string)
    requires forall i :: 0 <= i < |slashes| ==> slashes[i] == '/'
    ensures RTrimSlashes(apiUrl + slashes) == RTrimSlashes(apiUrl)
    ensures ListUrl(apiUrl + slashes) == ListUrl(apiUrl)
    decreases |slashes|
  {
    if |slashes| > 0 {
      var shorter := slashes[..|slashes| - 1];
      assert (apiUrl + slashes)[..|apiUrl + slashes| - 1] == apiUrl + shorter;
      TrailingSlashesIgnored(apiUrl, shorter);
    } else {
      assert apiUrl + slashes == apiUrl;
    }
  }

  /** The item URL is the list URL followed by `/` and the id as given. */
  lemma ItemUrlUnderListUrl(apiUrl: string, id: string)
    ensures ListUrl(apiUrl) <= ItemUrl(apiUrl, id)
    ensures ItemUrl(apiUrl, id)[|ListUrl(apiUrl)|] == '/'
    ensures ItemUrl(apiUrl, id)[|ListUrl(apiUrl)| + 1..] == id
  {
  }

  // ---------------------------------------------------------------------------
  // The item entries written by a refresh

  /** A key that no record of `pts` maps to keeps whatever the cache held under it. */
  lemma {:induction false} WriteItemsKeepsOthers(cache: map<string, Entry>, pts: seq<PackagingType>, key: string)
    requires forall i :: 0 <= i < |pts| ==> ItemKey(pts[i].id.text) != key
    ensures key in WriteItems(cache, pts) <==> key in cache
    ensures key in cache ==> WriteItems(cache, pts)[key] == cache[key]
    decreases |pts|
  {
    if |pts| > 0 {
      WriteItemsKeepsOthers(cache[ItemKey(pts[0].id.text) := Item(pts[0], CacheTtl)], pts[1..], key);
    }
  }

  /** Writing item entries never touches the list entry or the token entry. */
  lemma WriteItemsKeepsFixedKeys(cache: map<string, Entry>, pts: seq<PackagingType>)
    ensures CacheKeyPackagingTypes in WriteItems(cache, pts) <==> CacheKeyPackagingTypes in cache
    ensures CacheKeyPackagingTypes in cache ==>
      WriteItems(cache, pts)[CacheKeyPackagingTypes] == cache[CacheKeyPackagingTypes]
    ensures CacheKeyApiToken in WriteItems(cache, pts) <==> CacheKeyApiToken in cache
    ensures CacheKeyApiToken in cache ==> WriteItems(cache, pts)[CacheKeyApiToken] == cache[CacheKeyApiToken]
  {
    WriteItemsKeepsOthers(cache, pts, CacheKeyPackagingTypes);
    WriteItemsKeepsOthers(cache, pts, CacheKeyApiToken);
  }

  /** A record that no later record shares its id with is what its item key holds. */
  lemma {:induction false} WriteItemsLastWins(cache: map<string, Entry>, pts: seq<PackagingType>, j: nat)
    requires j < |pts|
    requires forall i :: j < i < |pts| ==> pts[i].id != pts[j].id
    ensures ItemKey(pts[j].id.text) in WriteItems(cache, pts)
    ensures WriteItems(cache, pts)[ItemKey(pts[j].id.text)] == Item(pts[j], CacheTtl)
    decreases |pts|
  {
    var next := cache[ItemKey(pts[0].id.text) := Item(pts[0], CacheTtl)];
    if j == 0 {
      var key := ItemKey(pts[0].id.text);
      forall i | 0 <= i < |pts[1..]|
        ensures ItemKey(pts[1..][i].id.text) != key
      {
        DistinctIdsDistinctKeys(pts[1..][i], pts[0]);
      }
      WriteItemsKeepsOthers(next, pts[1..], key);
    } else {
      WriteItemsLastWins(next, pts[1..], j - 1);
    }
  }

  // ---------------------------------------------------------------------------
  // The loop of getPackagingTypes

  /** The loop succeeds exactly when every record hydrated and no item lookup throws. */
  lemma {:induction false} StoreFromSucceedsIff(cfg: Config, s: State, hs: seq<Result<PackagingType>>, i: nat,
                                                acc: seq<PackagingType>)
    requires i <= |hs|
    ensures StoreFrom(cfg, s, hs, i, acc).result.Ok? <==>
      AllOk(hs[i..]).Ok? && ItemKeysUsable(cfg, AllOk(hs[i..]).value)
    decreases |hs| - i
  {
    if i < |hs| {
      assert hs[i..][0] == hs[i];
      assert hs[i..][1..] == hs[i + 1..];
      match hs[i]
      case Err(_) =>
      case Ok(pt) =>
        var c := CacheItem(cfg, s, pt);
        StoreFromSucceedsIff(cfg, c.state, hs, i + 1, acc + [pt]);
        if AllOk(hs[i + 1..]).Ok? {
          var rest := AllOk(hs[i + 1..]).value;
          assert AllOk(hs[i..]).value == [pt] + rest;
          assert ItemKeysUsable(cfg, [pt] + rest) <==>
            ItemKey(pt.id.text) !in cfg.cacheFaults && ItemKeysUsable(cfg, rest)
          by {
            assert forall k :: 0 < k < |[pt] + rest| ==> ([pt] + rest)[k] == rest[k - 1];
          }
        }
    }
  }

  /** After `acc`, a successful loop returns the records hydrated in `member` order. */
  lemma {:induction false} StoreFromResult(cfg: Config, s: State, hs: seq<Result<PackagingType>>, i: nat,
                                           acc: seq<PackagingType>)
    requires i <= |hs|
    requires StoreFrom(cfg, s, hs, i, acc).result.Ok?
    ensures AllOk(hs[i..]) == Ok(StoreFrom(cfg, s, hs, i, acc).result.value[|acc|..])
    decreases |hs| - i
  {
    var v := StoreFrom(cfg, s, hs, i, acc).result.value;
    if i == |hs| {
      assert v[|acc|..] == [];
    } else {
      var pt := hs[i].value;
      var c := CacheItem(cfg, s, pt);
      StoreFromResult(cfg, c.state, hs, i + 1, acc + [pt]);
      ConsAfterPrefix(v, acc, pt);
      assert hs[i..][0] == hs[i];
      assert hs[i..][1..] == hs[i + 1..];
    }
  }

  /** A successful loop wrote one item entry per record, first to last. */
  lemma {:induction false} StoreFromCache(cfg: Config, s: State, hs: seq<Result<PackagingType>>, i: nat,
                                          acc: seq<PackagingType>)
    requires i <= |hs|
    requires StoreFrom(cfg, s, hs, i, acc).result.Ok?
    ensures var step := StoreFrom(cfg, s, hs, i, acc);
      step.state.cache == WriteItems(s.cache, step.result.value[|acc|..])
    decreases |hs| - i
  {
    var v := StoreFrom(cfg, s, hs, i, acc).result.value;
    if i == |hs| {
      assert v[|acc|..] == [];
    } else {
      var pt := hs[i].value;
      var c := CacheItem(cfg, s, pt);
      StoreFromCache(cfg, c.state, hs, i + 1, acc + [pt]);
      ConsAfterPrefix(v, acc, pt);
      assert ([pt] + v[|acc| + 1..])[1..] == v[|acc| + 1..];
    }
  }

  /** A successful loop looked up and then saved each record's key, first to last. */
  lemma {:induction false} StoreFromLog(cfg: Config, s: State, hs: seq<Result<PackagingType>>, i: nat,
                                        acc: seq<PackagingType>)
    requires i <= |hs|
    requires StoreFrom(cfg, s, hs, i, acc).result.Ok?
    ensures var step := StoreFrom(cfg, s, hs, i, acc);
      step.state.log == s.log + ItemOps(step.result.value[|acc|..])
    decreases |hs| - i
  {
    var v := StoreFrom(cfg, s, hs, i, acc).result.value;
    if i == |hs| {
      assert v[|acc|..] == [];
      assert s.log + [] == s.log;
    } else {
      var pt := hs[i].value;
      var c := CacheItem(cfg, s, pt);
      StoreFromLog(cfg, c.state, hs, i + 1, acc + [pt]);
      ConsAfterPrefix(v, acc, pt);
      var rest := v[|acc| + 1..];
      var ops := [GetItem(ItemKey(pt.id.text)), Save(ItemKey(pt.id.text))];
      assert ([pt] + rest)[1..] == rest;
      assert ItemOps([pt] + rest) == ops + ItemOps(rest);
      assert c.state.log == s.log + ops;
      assert s.log + (ops + ItemOps(rest)) == (s.log + ops) + ItemOps(rest);
    }
  }

  /**
   * A loop whose record `k` fails to hydrate, the records before it being
   * fine, fails after writing exactly the item entries of those records.
   */
  lemma {:induction false} StoreFromFailsAt(cfg: Config, s: State, hs: seq<Result<PackagingType>>, i: nat,
                                            acc: seq<PackagingType>, k: nat)
    requires i <= k < |hs|
    requires AllOk(hs[i..k]).Ok? && ItemKeysUsable(cfg, AllOk(hs[i..k]).value)
    requires hs[k] == Err(Throwable)
    ensures StoreFrom(cfg, s, hs, i, acc).result == Err(Throwable)
    ensures StoreFrom(cfg, s, hs, i, acc).state.cache == WriteItems(s.cache, AllOk(hs[i..k]).value)
    decreases k - i
  {
    var done := AllOk(hs[i..k]).value;
    if i == k {
      assert done == [];
    } else {
      assert hs[i..k][0] == hs[i];
      assert hs[i..k][1..] == hs[i + 1..k];
      var pt := done[0];
      var c := CacheItem(cfg, s, pt);
      assert ItemKey(pt.id.text) !in cfg.cacheFaults;
      assert ItemKeysUsable(cfg, done[1..]) by {
        assert forall j :: 0 <= j < |done[1..]| ==> done[1..][j] == done[j + 1];
      }
      StoreFromFailsAt(cfg, c.state, hs, i + 1, acc + [pt], k);
    }
  }

  // ---------------------------------------------------------------------------
  // getPackagingTypes

  /** Without a forced refresh, a hit on the list key returns it: no token lookup, request or save. */
  lemma ListHitReturnsCachedList(cfg: Config, s: State, sortBy: SortFields.PackagingTypeSortField,
                                 onlyActive: bool)
    requires CacheKeyPackagingTypes !in cfg.cacheFaults
    requires CacheKeyPackagingTypes in s.cache && s.cache[CacheKeyPackagingTypes].List?
    ensures GetPackagingTypes(cfg, s, sortBy, onlyActive, false) ==
      Step(s.(log := s.log + [GetItem(CacheKeyPackagingTypes)]), Ok(s.cache[CacheKeyPackagingTypes].items))
  {
  }

  /**
   * A successful refresh returned the fetched records hydrated in `member`
   * order, wrote their item entries first to last and then the list entry.
   */
  lemma RefreshWritesThrough(cfg: Config, s: State, sortBy: SortFields.PackagingTypeSortField,
                             onlyActive: bool, refreshCache: bool)
    requires Refreshes(cfg, s, refreshCache)
    requires GetPackagingTypes(cfg, s, sortBy, onlyActive, refreshCache).result.Ok?
    ensures var step := GetPackagingTypes(cfg, s, sortBy, onlyActive, refreshCache);
      var f := Fetched(cfg, s, sortBy, onlyActive);
      var pts := step.result.value;
      f.result.Ok? && HydrateAll(f.result.value) == Ok(pts) &&
      step.state.cache == WriteItems(f.state.cache, pts)[CacheKeyPackagingTypes := List(pts, CacheTtl)] &&
      step.state.log == f.state.log + ItemOps(pts) + [Save(CacheKeyPackagingTypes)] &&
      step.state.sent == f.state.sent && step.state.accessToken == f.state.accessToken
  {
    var f := Fetched(cfg, s, sortBy, onlyActive);
    var hs := HydrateEach(f.result.value);
    StoreFromResult(cfg, f.state, hs, 0, []);
    StoreFromCache(cfg, f.state, hs, 0, []);
    StoreFromLog(cfg, f.state, hs, 0, []);
    assert hs[0..] == hs;
  }

  /** After a successful refresh the list entry holds the whole list, with TTL 0. */
  lemma RefreshedListEntry(cfg: Config, s: State, sortBy: SortFields.PackagingTypeSortField,
                           onlyActive: bool, refreshCache: bool)
    requires Refreshes(cfg, s, refreshCache)
    requires GetPackagingTypes(cfg, s, sortBy, onlyActive, refreshCache).result.Ok?
    ensures var step := GetPackagingTypes(cfg, s, sortBy, onlyActive, refreshCache);
      CacheKeyPackagingTypes in step.state.cache &&
      step.state.cache[CacheKeyPackagingTypes] == List(step.result.value, CacheTtl)
  {
    RefreshWritesThrough(cfg, s, sortBy, onlyActive, refreshCache);
  }

  /**
   * After a successful refresh, record `j` of `member` is entry `j` of the
   * result and, unless a later record has the same id, what its item key
   * holds, with TTL 0.
   */
  lemma RefreshedItemEntry(cfg: Config, s: State, sortBy: SortFields.PackagingTypeSortField,
                           onlyActive: bool, refreshCache: bool, j: nat)
    requires Refreshes(cfg, s, refreshCache)
    requires GetPackagingTypes(cfg, s, sortBy, onlyActive, refreshCache).result.Ok?
    requires var pts := GetPackagingTypes(cfg, s, sortBy, onlyActive, refreshCache).result.value;
      j < |pts| && forall i :: j < i < |pts| ==> pts[i].id != pts[j].id
    ensures var step := GetPackagingTypes(cfg, s, sortBy, onlyActive, refreshCache);
      var f := Fetched(cfg, s, sortBy, onlyActive);
      var pt := step.result.value[j];
      f.result.Ok? && j < |f.result.value| && Hydrate(f.result.value[j]) == Ok(pt) &&
      ItemKey(pt.id.text) in step.state.cache && step.state.cache[ItemKey(pt.id.text)] == Item(pt, CacheTtl)
  {
    var step := GetPackagingTypes(cfg, s, sortBy, onlyActive, refreshCache);
    var f := Fetched(cfg, s, sortBy, onlyActive);
    RefreshWritesThrough(cfg, s, sortBy, onlyActive, refreshCache);
    WriteItemsLastWins(f.state.cache, step.result.value, j);
  }

  /** A refresh whose login or list fetch fails writes no catalog entry. */
  lemma FetchFailureWritesNoCatalogEntry(cfg: Config, s: State, sortBy: SortFields.PackagingTypeSortField,
                                         onlyActive: bool, refreshCache: bool)
    requires Refreshes(cfg, s, refreshCache)
    requires Fetched(cfg, s, sortBy, onlyActive).result.Err?
    ensures var step := GetPackagingTypes(cfg, s, sortBy, onlyActive, refreshCache);
      step.result == Err(ApiException(RetrieveError)) &&
      step.state.cache - {CacheKeyApiToken} == s.cache - {CacheKeyApiToken}
  {
  }

  /**
   * A refresh in which record `k` of `member` fails to hydrate fails, with
   * the item entries of records 0 to k-1 written.
   */
  lemma HydrationFailureAtRecord(cfg: Config, s: State, sortBy: SortFields.PackagingTypeSortField,
                                 onlyActive: bool, refreshCache: bool, k: nat)
    requires Refreshes(cfg, s, refreshCache)
    requires Fetched(cfg, s, sortBy, onlyActive).result.Ok?
    requires var records := Fetched(cfg, s, sortBy, onlyActive).result.value;
      k < |records| && HydrateAll(records[..k]).Ok? &&
      ItemKeysUsable(cfg, HydrateAll(records[..k]).value) && Hydrate(records[k]).Err?
    ensures var step := GetPackagingTypes(cfg, s, sortBy, onlyActive, refreshCache);
      var f := Fetched(cfg, s, sortBy, onlyActive);
      step.result == Err(ApiException(RetrieveError)) &&
      step.state.cache == WriteItems(f.state.cache, HydrateAll(f.result.value[..k]).value)
  {
    var f := Fetched(cfg, s, sortBy, onlyActive);
    var records := f.result.value;
    var hs := HydrateEach(records);
    assert hs[0..k] == HydrateEach(records[..k]);
    StoreFromFailsAt(cfg, f.state, hs, 0, [], k);
  }

  /** ... and the list entry is left as it was. */
  lemma HydrationFailureKeepsListEntry(cfg: Config, s: State, sortBy: SortFields.PackagingTypeSortField,
                                       onlyActive: bool, refreshCache: bool, k: nat)
    requires Refreshes(cfg, s, refreshCache)
    requires Fetched(cfg, s, sortBy, onlyActive).result.Ok?
    requires var records := Fetched(cfg, s, sortBy, onlyActive).result.value;
      k < |records| && HydrateAll(records[..k]).Ok? &&
      ItemKeysUsable(cfg, HydrateAll(records[..k]).value) && Hydrate(records[k]).Err?
    ensures var after := GetPackagingTypes(cfg, s, sortBy, onlyActive, refreshCache).state.cache;
      (CacheKeyPackagingTypes in after <==> CacheKeyPackagingTypes in s.cache) &&
      (CacheKeyPackagingTypes in s.cache ==> after[CacheKeyPackagingTypes] == s.cache[CacheKeyPackagingTypes])
  {
    var f := Fetched(cfg, s, sortBy, onlyActive);
    HydrationFailureAtRecord(cfg, s, sortBy, onlyActive, refreshCache, k);
    WriteItemsKeepsFixedKeys(f.state.cache, HydrateAll(f.result.value[..k]).value);
    KeepsKey(f.state.cache, s.cache, CacheKeyPackagingTypes, CacheKeyApiToken);
  }

  /** One record whose category is no backing value of Category fails the whole refresh. */
  lemma UnknownCategoryFailsRefresh(cfg: Config, s: State, sortBy: SortFields.PackagingTypeSortField,
                                    onlyActive: bool, refreshCache: bool, k: nat)
    requires Refreshes(cfg, s, refreshCache)
    requires Fetched(cfg, s, sortBy, onlyActive).result.Ok?
    requires var records := Fetched(cfg, s, sortBy, onlyActive).result.value;
      k < |records| && Field(records[k], "category").JString? &&
      Categories.From(Field(records[k], "category").s).None?
    ensures GetPackagingTypes(cfg, s, sortBy, onlyActive, refreshCache).result ==
      Err(ApiException(RetrieveError))
  {
    var f := Fetched(cfg, s, sortBy, onlyActive);
    var hs := HydrateEach(f.result.value);
    HydrateRejectsUnknownCategory(f.result.value[k]);
    StoreFromSucceedsIff(cfg, f.state, hs, 0, []);
    assert hs[0..] == hs;
  }

  /** A forced refresh sends the list request even on a hit, with the token found in the cache. */
  lemma RefreshFetchesEvenOnHit(cfg: Config, s: State, sortBy: SortFields.PackagingTypeSortField,
                                onlyActive: bool, t: Option<string>)
    requires CacheKeyPackagingTypes !in cfg.cacheFaults && CacheKeyApiToken !in cfg.cacheFaults
    requires CacheKeyApiToken in s.cache && CachedToken(s.cache[CacheKeyApiToken]) == Some(t)
    ensures GetPackagingTypes(cfg, s, sortBy, onlyActive, true).state.sent ==
      s.sent + [ListRequest(cfg.apiUrl, t, sortBy, onlyActive)]
  {
  }

  /**
   * `fetchPackagingTypesFromApi` after a successful login: one list request
   * with the token, and the result is the `member` array of the reply whatever
   * its status.
   */
  lemma FetchListIgnoresStatus(cfg: Config, s: State, sortBy: SortFields.PackagingTypeSortField,
                               onlyActive: bool)
    requires Login(cfg, s).result.Ok?
    requires var l := Login(cfg, s).state; |l.pending| > 0 && l.pending[0].Reply?
    ensures var l := Login(cfg, s).state;
      var f := FetchList(cfg, s, sortBy, onlyActive);
      f.result == Members(l.pending[0].body) &&
      f.state.sent == l.sent + [ListRequest(cfg.apiUrl, l.accessToken, sortBy, onlyActive)] &&
      f.state.pending == l.pending[1..] && f.state.accessToken == l.accessToken
  {
  }

  /** A server error whose body still carries an empty `member` array fetches an empty list. */
  lemma ServerErrorWithMembersSucceeds(cfg: Config, s: State, sortBy: SortFields.PackagingTypeSortField,
                                       onlyActive: bool)
    requires Login(cfg, s).result.Ok?
    requires var l := Login(cfg, s).state;
      |l.pending| > 0 && l.pending[0] == Reply(500, JObject(map["member" := JArray([])]))
    ensures FetchList(cfg, s, sortBy, onlyActive).result == Ok([])
  {
    FetchListIgnoresStatus(cfg, s, sortBy, onlyActive);
  }

  /**
   * The failures of `fetchPackagingTypesFromApi`: a failed login is passed on
   * with nothing sent after it; a transport failure or a body without a
   * `member` array is a plain exception.
   */
  lemma FetchListFailures(cfg: Config, s: State, sortBy: SortFields.PackagingTypeSortField,
                          onlyActive: bool)
    ensures var l := Login(cfg, s);
      l.result.Err? ==>
        FetchList(cfg, s, sortBy, onlyActive) == Step(l.state, Err(ApiException(ConnectError)))
    ensures var l := Login(cfg, s);
      l.result.Ok? && (|l.state.pending| == 0 || l.state.pending[0].TransportFailure?) ==>
        FetchList(cfg, s, sortBy, onlyActive).result == Err(Throwable)
    ensures var l := Login(cfg, s);
      l.result.Ok? && |l.state.pending| > 0 && l.state.pending[0].Reply? &&
      Members(l.state.pending[0].body).Err? ==>
        FetchList(cfg, s, sortBy, onlyActive).result == Err(Throwable)
  {
  }

  /** Updating a key other than `key` keeps two maps equal apart from `key`. */
  lemma UpdateKeepsDifference<K, V>(m1: map<K, V>, m2: map<K, V>, key: K, k: K, v: V)
    requires m1 - {key} == m2 - {key} && k != key
    ensures m1[k := v] - {key} == m2[k := v] - {key}
  {
    assert m1[k := v] - {key} == (m1 - {key})[k := v];
    assert m2[k := v] - {key} == (m2 - {key})[k := v];
  }

  /** Writing `key` makes two maps that differ only at `key` equal. */
  lemma UpdateOverridesDifference<K, V>(m1: map<K, V>, m2: map<K, V>, key: K, v: V)
    requires m1 - {key} == m2 - {key}
    ensures m1[key := v] == m2[key := v]
  {
    assert m1[key := v] == (m1 - {key})[key := v];
    assert m2[key := v] == (m2 - {key})[key := v];
  }

  /** Two maps equal apart from `removed` agree on every other key. */
  lemma KeepsKey<K, V>(m1: map<K, V>, m2: map<K, V>, key: K, removed: K)
    requires m1 - {removed} == m2 - {removed} && key != removed
    ensures key in m1 <==> key in m2
    ensures key in m1 ==> m1[key] == m2[key]
  {
    assert key in m1 <==> key in m1 - {removed};
    assert key in m2 <==> key in m2 - {removed};
    if key in m1 {
      assert m1[key] == (m1 - {removed})[key];
      assert m2[key] == (m2 - {removed})[key];
    }
  }

  /** Login agrees on two states that differ only in an entry other than the token's. */
  lemma LoginAgrees(cfg: Config, a: State, b: State, key: string)
    requires key != CacheKeyApiToken && AgreeExcept(a, b, key)
    ensures Login(cfg, a).result == Login(cfg, b).result
    ensures AgreeExcept(Login(cfg, a).state, Login(cfg, b).state, key)
  {
    var t := CacheKeyApiToken;
    KeepsKey(a.cache, b.cache, t, key);
    if t !in cfg.cacheFaults && t !in a.cache {
      var xa := Send(Looked(a, t), TokenRequest(cfg));
      var xb := Send(Looked(b, t), TokenRequest(cfg));
      if xa.response.Reply? {
        var body := xa.response.body;
        if Index(body, "access_token").Some? && TokenTtl(body).Some? {
          UpdateKeepsDifference(xa.state.cache, xb.state.cache, key, t,
                                Token(Index(body, "access_token").value, TokenTtl(body).value));
        }
      }
    }
  }

  /** So does the list fetch. */
  lemma FetchAgrees(cfg: Config, a: State, b: State, key: string, sortBy: SortFields.PackagingTypeSortField,
                    onlyActive: bool)
    requires key != CacheKeyApiToken && AgreeExcept(a, b, key)
    ensures FetchList(cfg, a, sortBy, onlyActive).result == FetchList(cfg, b, sortBy, onlyActive).result
    ensures AgreeExcept(FetchList(cfg, a, sortBy, onlyActive).state, FetchList(cfg, b, sortBy, onlyActive).state, key)
  {
    LoginAgrees(cfg, a, b, key);
  }

  /** The loop agrees on two states that differ only in an entry that is no item key. */
  lemma {:induction false} StoreFromAgrees(cfg: Config, a: State, b: State, key: string, hs: seq<Result<PackagingType>>,
                                           i: nat, acc: seq<PackagingType>)
    requires i <= |hs|
    requires !(CacheKeyPackagingTypePrefix <= key) && AgreeExcept(a, b, key)
    ensures StoreFrom(cfg, a, hs, i, acc).result == StoreFrom(cfg, b, hs, i, acc).result
    ensures AgreeExcept(StoreFrom(cfg, a, hs, i, acc).state, StoreFrom(cfg, b, hs, i, acc).state, key)
    decreases |hs| - i
  {
    if i < |hs| {
      match hs[i]
      case Err(_) =>
      case Ok(pt) =>
        var k := ItemKey(pt.id.text);
        assert k[..|CacheKeyPackagingTypePrefix|] == CacheKeyPackagingTypePrefix;
        var ca := CacheItem(cfg, a, pt);
        var cb := CacheItem(cfg, b, pt);
        UpdateKeepsDifference(a.cache, b.cache, key, k, Item(pt, CacheTtl));
        assert AgreeExcept(ca.state, cb.state, key);
        StoreFromAgrees(cfg, ca.state, cb.state, key, hs, i + 1, acc + [pt]);
    }
  }

  /**
   * A forced refresh never consults the list entry: whatever it held, the
   * result is the same, and so is the new state, apart from the list entry of
   * a refresh that fails.
   */
  lemma RefreshIgnoresCachedList(cfg: Config, a: State, b: State, sortBy: SortFields.PackagingTypeSortField,
                                 onlyActive: bool)
    requires CacheKeyPackagingTypes !in cfg.cacheFaults
    requires AgreeExcept(a, b, CacheKeyPackagingTypes)
    ensures GetPackagingTypes(cfg, a, sortBy, onlyActive, true).result ==
      GetPackagingTypes(cfg, b, sortBy, onlyActive, true).result
    ensures AgreeExcept(GetPackagingTypes(cfg, a, sortBy, onlyActive, true).state,
                        GetPackagingTypes(cfg, b, sortBy, onlyActive, true).state, CacheKeyPackagingTypes)
    ensures GetPackagingTypes(cfg, a, sortBy, onlyActive, true).result.Ok? ==>
      GetPackagingTypes(cfg, a, sortBy, onlyActive, true).state ==
      GetPackagingTypes(cfg, b, sortBy, onlyActive, true).state
  {
    var key := CacheKeyPackagingTypes;
    var a1 := Looked(a, key);
    var b1 := Looked(b, key);
    FetchAgrees(cfg, a1, b1, key, sortBy, onlyActive);
    var fa := FetchList(cfg, a1, sortBy, onlyActive);
    var fb := FetchList(cfg, b1, sortBy, onlyActive);
    if fa.result.Ok? {
      assert key[13] != CacheKeyPackagingTypePrefix[13];
      var hs := HydrateEach(fa.result.value);
      StoreFromAgrees(cfg, fa.state, fb.state, key, hs, 0, []);
      var sa := StoreFrom(cfg, fa.state, hs, 0, []);
      var sb := StoreFrom(cfg, fb.state, hs, 0, []);
      if sa.result.Ok? {
        var e := List(sa.result.value, CacheTtl);
        UpdateOverridesDifference(sa.state.cache, sb.state.cache, key, e);
      }
    }
  }

  // ---------------------------------------------------------------------------
  // loginToAuthServer

  /** On a token hit the cached token becomes the access token; nothing is sent or saved. */
  lemma LoginTokenHit(cfg: Config, s: State, t: Option<string>)
    requires CacheKeyApiToken !in cfg.cacheFaults && CacheKeyApiToken in s.cache
    requires CachedToken(s.cache[CacheKeyApiToken]) == Some(t)
    ensures Login(cfg, s) == Step(s.(accessToken := t, log := s.log + [GetItem(CacheKeyApiToken)]), Ok(()))
  {
  }

  /**
   * On a token miss the credentials are posted to the token URL, whatever the
   * status of the reply; its `access_token` becomes the access token and is
   * cached with TTL `expires_in - 10`, `expires_in` being an integer or its
   * decimal string.
   */
  lemma LoginTokenMiss(cfg: Config, s: State, t: string, expiresIn: int, asString: bool)
    requires CacheKeyApiToken !in cfg.cacheFaults && CacheKeyApiToken !in s.cache
    requires |s.pending| > 0 && s.pending[0].Reply?
    requires Index(s.pending[0].body, "access_token") == Some(JString(t))
    requires Index(s.pending[0].body, "expires_in") ==
      Some(if asString then JString(IntToString(expiresIn)) else JInt(expiresIn))
    ensures Login(cfg, s) == Step(
      s.(cache := s.cache[CacheKeyApiToken := Token(JString(t), expiresIn - 10)],
         accessToken := Some(t),
         pending := s.pending[1..],
         sent := s.sent + [TokenRequest(cfg)],
         log := s.log + [GetItem(CacheKeyApiToken), Save(CacheKeyApiToken)]),
      Ok(()))
  {
    IntToStringRoundTrip(expiresIn);
  }

  /** The documented token reply, `expires_in` being the string "60", gives the token TTL 50. */
  lemma DocumentedTokenTtl()
    ensures TokenTtl(JObject(map["access_token" := JString("access-token"), "expires_in" := JString("60")])) ==
      Some(50)
  {
    IntToStringRoundTrip(60);
    assert IntToString(60) == "60";
  }

  /**
   * A token response without `expires_in` reads it as null: the login
   * succeeds and the token is cached for -10 seconds.
   */
  lemma MissingExpiresInCountsAsZero(cfg: Config, s: State, t: string)
    requires CacheKeyApiToken !in cfg.cacheFaults && CacheKeyApiToken !in s.cache
    requires |s.pending| > 0 && s.pending[0] == Reply(200, JObject(map["access_token" := JString(t)]))
    ensures TokenTtl(s.pending[0].body) == Some(-10)
    ensures Login(cfg, s).result == Ok(())
    ensures Login(cfg, s).state.accessToken == Some(t)
    ensures Login(cfg, s).state.cache == s.cache[CacheKeyApiToken := Token(JString(t), -10)]
  {
  }

  /**
   * A token exchange that throws before the token is cached (no reply, or a
   * reply without a usable `expires_in`) fails and leaves the cache and the
   * access token as they were.
   */
  lemma FailedExchangeWritesNoToken(cfg: Config, s: State)
    requires CacheKeyApiToken !in cfg.cacheFaults && CacheKeyApiToken !in s.cache
    requires |s.pending| == 0 || s.pending[0].TransportFailure? ||
             Index(s.pending[0].body, "access_token").None? || TokenTtl(s.pending[0].body).None?
    ensures Login(cfg, s).result == Err(ApiException(ConnectError))
    ensures Login(cfg, s).state.cache == s.cache
    ensures Login(cfg, s).state.accessToken == s.accessToken
  {
  }

  // ---------------------------------------------------------------------------
  // getPackagingType

  /** A hit on the item key is returned without login, request or save. */
  lemma ItemHitSkipsLogin(cfg: Config, s: State, id: string)
    requires ItemKey(id) !in cfg.cacheFaults && ItemKey(id) in s.cache && s.cache[ItemKey(id)].Item?
    ensures GetPackagingType(cfg, s, id) ==
      Step(s.(log := s.log + [GetItem(ItemKey(id))]), Ok(Some(s.cache[ItemKey(id)].item)))
  {
  }

  /**
   * On a miss, after a successful login the record is requested by the id as
   * given; its item entry is written, with TTL 0, exactly when the status is
   * below 400 and the record hydrates; 404 is null and any other status from
   * 400 on is an error.
   */
  lemma ItemMissOutcome(cfg: Config, s: State, id: string)
    requires ItemKey(id) !in cfg.cacheFaults && ItemKey(id) !in s.cache
    requires Login(cfg, Looked(s, ItemKey(id))).result.Ok?
    requires var l := Login(cfg, Looked(s, ItemKey(id))).state; |l.pending| > 0 && l.pending[0].Reply?
    ensures var l := Login(cfg, Looked(s, ItemKey(id))).state;
      var reply := l.pending[0];
      var step := GetPackagingType(cfg, s, id);
      step.state.sent == l.sent + [ItemRequest(cfg.apiUrl, l.accessToken, id)] &&
      (ItemKey(id) in step.state.cache <==> reply.status < 400 && Hydrate(reply.body).Ok?) &&
      (reply.status < 400 && Hydrate(reply.body).Ok? ==>
         step.state.cache[ItemKey(id)] == Item(Hydrate(reply.body).value, CacheTtl) &&
         step.result == Ok(Some(Hydrate(reply.body).value))) &&
      (reply.status == 404 ==> step.result == Ok(None)) &&
      (reply.status >= 400 && reply.status != 404 ==> step.result == Err(ApiException(RetrieveError)))
  {
    var l := Login(cfg, Looked(s, ItemKey(id))).state;
    assert ItemKey(id) !in s.cache - {CacheKeyApiToken};
    assert ItemKey(id) !in l.cache - {CacheKeyApiToken};
  }

  /**
   * `getPackagingType` changes no cache entry but that of its own key and the
   * token's; in particular it never touches the list entry.
   */
  lemma ItemLookupKeepsOtherEntries(cfg: Config, s: State, id: string, other: string)
    requires other != CacheKeyApiToken && other != ItemKey(id)
    ensures var after := GetPackagingType(cfg, s, id).state.cache;
      (other in after <==> other in s.cache) && (other in s.cache ==> after[other] == s.cache[other])
  {
    var key := ItemKey(id);
    var s1 := Looked(s, key);
    if key !in cfg.cacheFaults && key !in s.cache {
      var login := Login(cfg, s1);
      KeepsKey(login.state.cache, s.cache, other, CacheKeyApiToken);
    }
  }

  /** In particular, `getPackagingType` never touches the list entry. */
  lemma ItemLookupKeepsListEntry(cfg: Config, s: State, id: string)
    ensures var after := GetPackagingType(cfg, s, id).state.cache;
      (CacheKeyPackagingTypes in after <==> CacheKeyPackagingTypes in s.cache) &&
      (CacheKeyPackagingTypes in s.cache ==> after[CacheKeyPackagingTypes] == s.cache[CacheKeyPackagingTypes])
  {
    ItemLookupKeepsOtherEntries(cfg, s, id, CacheKeyPackagingTypes);
  }

  // ---------------------------------------------------------------------------
  // hydratePackagingType

  /** A `?string` value in a record. */
  function NullableString(o: Option<string>): (v: Json)
    ensures NullableStringParam(v) == Some(o)
  {
    match o case None => JNull case Some(x) => JString(x)
  }

  /** A `?int` value in a record. */
  function NullableInt(o: Option<int>): (v: Json)
    ensures NullableIntParam(v) == Some(o)
  {
    match o case None => JNull case Some(x) => JInt(x)
  }

  /** A `?float` value in a record. */
  function NullableFloat(o: Option<real>): (v: Json)
    ensures NullableFloatParam(v) == Some(o)
  {
    match o case None => JNull case Some(x) => JFloat(x)
  }

  /** The API record of a packaging type, as the `member` list carries it. */
  function ToRecord(pt: PackagingType): Json
  {
    JObject(map[
      "id" := JString(pt.id.text),
      "name" := JString(pt.name),
      "shortName" := NullableString(pt.shortName),
      "transporeonId" := JString(pt.transporeonId),
      "category" := JString(Categories.Value(pt.category)),
      "active" := JBool(pt.active),
      "length" := NullableInt(pt.length),
      "width" := NullableInt(pt.width),
      "height" := NullableInt(pt.height),
      "weight" := NullableFloat(pt.weight),
      "maxNbStackable" := NullableInt(pt.maxNbStackable)])
  }

  /** The keys of the record of `pt` that hold its identity. */
  lemma RecordIdentityFields(pt: PackagingType)
    ensures ToRecord(pt).JObject?
    ensures Field(ToRecord(pt), "id") == JString(pt.id.text)
    ensures Field(ToRecord(pt), "name") == JString(pt.name)
    ensures Field(ToRecord(pt), "transporeonId") == JString(pt.transporeonId)
  {
  }

  /** The keys of the record of `pt` that hold its category and its active flag. */
  lemma RecordClassFields(pt: PackagingType)
    ensures Field(ToRecord(pt), "category") == JString(Categories.Value(pt.category))
    ensures Field(ToRecord(pt), "active") == JBool(pt.active)
  {
  }

  /** The keys of the record of `pt` that hold its nullable properties. */
  lemma RecordNullableFields(pt: PackagingType)
    ensures Field(ToRecord(pt), "shortName") == NullableString(pt.shortName)
    ensures Field(ToRecord(pt), "length") == NullableInt(pt.length)
    ensures Field(ToRecord(pt), "width") == NullableInt(pt.width)
    ensures Field(ToRecord(pt), "height") == NullableInt(pt.height)
    ensures Field(ToRecord(pt), "weight") == NullableFloat(pt.weight)
    ensures Field(ToRecord(pt), "maxNbStackable") == NullableInt(pt.maxNbStackable)
  {
  }

  /** Hydrating the record of a packaging type whose id is in canonical form gives it back. */
  lemma HydrateRoundTrip(pt: PackagingType)
    requires Canonical(pt.id.text)
    ensures Hydrate(ToRecord(pt)) == Ok(pt)
  {
    RecordIdentityFields(pt);
    RecordClassFields(pt);
    RecordNullableFields(pt);
    FromStringOfCanonical(pt.id.text);
    Categories.FromValue(pt.category);
  }

  /** A record whose category is a string that is no backing value of Category does not hydrate. */
  lemma HydrateRejectsUnknownCategory(data: Json)
    requires Field(data, "category").JString? && Categories.From(Field(data, "category").s).None?
    ensures Hydrate(data) == Err(Throwable)
  {
    if Hydrate(data).Ok? {
      Categories.FromValue(Hydrate(data).value.category);
    }
  }

  /** The id of the documented example record. */
  const DocumentedId: string := "c84056a1-8d36-46c4-ae15-e3cb3db18ed2"

  lemma DocumentedIdWellFormed()
    ensures WellFormed(DocumentedId)
  {
  }

  lemma DocumentedIdIsCanonical()
    ensures Canonical(DocumentedId)
  {
    DocumentedIdWellFormed();
  }

  /** The example record whose hydration the client's tests check, its weight written as an integer. */
  function DocumentedRecord(): Json
  {
    JObject(map[
      "id" := JString(DocumentedId),
      "name" := JString("Module Pallet 240cm"),
      "shortName" := JString("MPal 240"),
      "transporeonId" := JString("MODULE_PALLET_240"),
      "category" := JString("pallet"),
      "active" := JBool(true),
      "length" := JInt(240),
      "width" := JInt(115),
      "height" := JInt(125),
      "weight" := JInt(50),
      "maxNbStackable" := JNull])
  }

  /** The fields of the example record, one by one. */
  lemma DocumentedRecordFields()
    ensures var r := DocumentedRecord();
      r.JObject? && Field(r, "id") == JString(DocumentedId) &&
      Field(r, "name") == JString("Module Pallet 240cm") && Field(r, "shortName") == JString("MPal 240") &&
      Field(r, "transporeonId") == JString("MODULE_PALLET_240") && Field(r, "category") == JString("pallet") &&
      Field(r, "active") == JBool(true) && Field(r, "length") == JInt(240) &&
      Field(r, "width") == JInt(115) && Field(r, "height") == JInt(125) &&
      Field(r, "weight") == JInt(50) && Field(r, "maxNbStackable") == JNull
  {
  }

  /** The documented example record hydrates, its integer weight read as a float. */
  lemma HydrateDocumentedRecord()
    ensures Hydrate(DocumentedRecord()) ==
      Ok(PackagingType(Uuid(DocumentedId), "Module Pallet 240cm", Some("MPal 240"),
                       "MODULE_PALLET_240", Categories.PALLET, true, Some(240), Some(115), Some(125),
                       Some(50.0), None))
  {
    DocumentedRecordFields();
    DocumentedIdIsCanonical();
    FromStringOfCanonical(DocumentedId);
    assert Categories.From("pallet") == Some(Categories.PALLET) by {
      Categories.FromValue(Categories.PALLET);
    }
  }
}
