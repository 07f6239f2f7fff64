# Packaging Types API client — a Dafny model

This project models the PHP SDK `baywa-re-lusy/packaging-types-api-sdk`. Its
`PackagingTypesApiClient` does the following:

- It logs in to an OAuth authorisation server using client credentials and
  caches the access token.
- It fetches the catalogue of packaging types from the Packaging Types API.
- It turns each record into a `PackagingTypeEntity`.
- It keeps the list, and every single packaging type, in a PSR-6 cache pool.
- It answers later lookups from that cache.

The model has four layers.

- **Values and enumerations**:
  - `Categories`: the string-backed `Category` enumeration and `Category::from`.
  - `SortFields`: the `PackagingTypeSortField` enumeration.
  - `Uuids`: the part of `Ramsey\Uuid` the client relies on.
  - `PhpValues`: decoded JSON, and the coercions PHP applies when a decoded
    value is passed to a typed setter of the entity without strict types.
- **The entity**: `Entity` holds the class `PackagingTypeEntity`.
  - Its typed properties start out uninitialised; `shortName` is the
    exception and defaults to null.
  - It has fluent setters that return the object itself, and getters.
  - The category is stored as its backing string and decoded again on every
    read.
- **The client as functions**: `ClientSpec` describes every operation as a
  function from a `State` to a `Step` (the new state and a result). The
  state holds:
  - the cache pool;
  - the `accessToken` property;
  - the HTTP responses still to come;
  - the requests sent so far;
  - the cache operations performed so far.

  Exceptions are the `Err` side of the result:
  - `ApiException(msg)` is a `PackagingTypesApiException`;
  - `Throwable` is any other exception.
- **The client as an object**: `Client.PackagingTypesApiClient` is a class
  with those fields. Its methods are the client's methods. Each method
  ensures that the new state and the returned result are exactly what the
  corresponding `ClientSpec` function gives for the old state.

`ClientProperties` proves what the client promises about these functions:
- cache hits are served without a request;
- a refresh writes the whole list through to the cache;
- which entries a failure leaves behind;
- the token lifetime is ten seconds shorter than the server's `expires_in`;
- the list a refresh returns does not depend on the list entry it replaces;
- hydration round-trips every well-formed packaging type.

The code checks no response status, and several of its edge cases are easy to miss; the model follows the code:

- The status of the token response is never checked. A body without
  `access_token` logs in with a null token. A body that is not JSON also
  gives a null token, and that token is cached for `-10` seconds.
- A token of array or object type is saved to the cache before the
  assignment to the typed `accessToken` property throws.
- The status of the list response is never checked either. Only a missing
  `member` array makes the fetch fail.
- A refresh re-fetches the list even when it is already cached. It writes
  every packaging type to its own cache entry before it writes the list.
- Every failure of `getPackagingType` is reported with the message of the
  list operation, "Couldn't retrieve the list of Packaging Types.".

## Model

| member | source | states |
|---|---|---|
| Categories.From | src/SDK/PackagingTypeEntity/Category.php:5-10 | `from` finds the case whose backing value is the string, and fails exactly when no case has that value |
| Categories.Value | src/SDK/PackagingTypeEntity/Category.php:7-9 | the backing values are "parcel", "pallet" and "shelter", each naming exactly one case |
| Categories.FromValue | src/SDK/PackagingTypeEntity/Category.php:7-9 | decoding the backing value of any case gives that case back |
| Categories.ValueInjective | src/SDK/PackagingTypeEntity/Category.php:7-9 | distinct cases have distinct backing values |
| SortFields.ValueInjective | src/SDK/PackagingTypeSortField.php:7-9 | distinct sort fields send distinct `sortBy` values |
| SortFields.Value | src/SDK/PackagingTypeSortField.php:7-9 | the backing values are "id", "name" and "sortOrder", each naming exactly one sort field |
| PhpValues.DigitsValueOfNatDigits | src/SDK/PackagingTypesApiClient.php:83 | the decimal digits of a natural number read back as that number |
| PhpValues.IntToStringRoundTrip | src/SDK/PackagingTypesApiClient.php:83 | an integer `expires_in` sent as a numeric string coerces back to the same integer |
| Uuids.FromString | src/SDK/PackagingTypesApiClient.php:251 | `Uuid::fromString` accepts exactly the 8-4-4-4-12 hexadecimal strings; its result is canonical and lower-cases each character |
| Uuids.FromStringOfCanonical | src/SDK/PackagingTypesApiClient.php:251 | parsing a UUID's own string form gives the same UUID |
| Entity.PackagingTypeEntity.constructor | src/SDK/PackagingTypeEntity.php:10-20 | a new entity has every typed property uninitialised and `shortName` null |
| Entity.NewEntityReads | src/SDK/PackagingTypeEntity.php:10-25 | on a new entity every getter fails except `getShortName`, which returns null |
| Entity.PackagingTypeEntity.Snapshot | src/SDK/PackagingTypeEntity.php:22-169 | a complete value exists exactly when every getter succeeds, and it agrees with every getter |
| Entity.PackagingTypeEntity.SetId | src/SDK/PackagingTypeEntity.php:27-31 | sets `id` and nothing else, returns the same object, and `getId` gives the new value |
| Entity.PackagingTypeEntity.SetName | src/SDK/PackagingTypeEntity.php:38-42 | sets `name` and nothing else, returns the same object, and `getName` gives the new value |
| Entity.PackagingTypeEntity.SetShortName | src/SDK/PackagingTypeEntity.php:49-53 | sets `shortName` and nothing else, returns the same object, and `getShortName` gives the new value |
| Entity.PackagingTypeEntity.SetTransporeonId | src/SDK/PackagingTypeEntity.php:60-64 | sets `transporeonId` and nothing else, returns the same object, and `getTransporeonId` gives the new value |
| Entity.PackagingTypeEntity.SetCategory | src/SDK/PackagingTypeEntity.php:66-75 | stores the backing string and nothing else, returns the same object, and `getCategory` decodes the same case |
| Entity.PackagingTypeEntity.SetActive | src/SDK/PackagingTypeEntity.php:82-86 | sets `active` and nothing else, returns the same object, and `getActive` gives the new value |
| Entity.PackagingTypeEntity.SetLength | src/SDK/PackagingTypeEntity.php:100-104 | sets `length` and nothing else, returns the same object, and `getLength` gives the new value |
| Entity.PackagingTypeEntity.SetWidth | src/SDK/PackagingTypeEntity.php:118-122 | sets `width` and nothing else, returns the same object, and `getWidth` gives the new value |
| Entity.PackagingTypeEntity.SetHeight | src/SDK/PackagingTypeEntity.php:136-140 | sets `height` and nothing else, returns the same object, and `getHeight` gives the new value |
| Entity.PackagingTypeEntity.SetWeight | src/SDK/PackagingTypeEntity.php:154-158 | sets `weight` and nothing else, returns the same object, and `getWeight` gives the new value |
| Entity.PackagingTypeEntity.SetMaxNbStackable | src/SDK/PackagingTypeEntity.php:165-169 | sets `maxNbStackable` and nothing else, returns the same object, and `getMaxNbStackable` gives the new value |
| ClientSpec.ItemKey | src/SDK/PackagingTypesApiClient.php:19 | the key of a single packaging type is the prefix followed by the id, and never collides with the list key or the token key |
| ClientSpec.RTrimSlashes | src/SDK/PackagingTypesApiClient.php:233-235 | the trimmed base URL is a prefix of the configured one, does not end in `/`, and only slashes were cut |
| ClientSpec.ListQuery | src/SDK/PackagingTypesApiClient.php:227-231 | the query always sends `sortBy` first, sends `active=true` exactly when only active types are wanted, and never sends `active=false` |
| ClientSpec.Login | src/SDK/PackagingTypesApiClient.php:55-93 | every failure is the "Couldn't connect" exception and leaves the access token unchanged; only the token entry can change, and a failure changes it only by caching a token that is not a string; the token lookup is logged first |
| ClientSpec.TokenTtl | src/SDK/PackagingTypesApiClient.php:83 | the token TTL is the integer value of `expires_in` minus ten seconds; a missing or null `expires_in` counts as zero; a float `expires_in`, or a body that is a JSON string, fails |
| ClientSpec.FetchList | src/SDK/PackagingTypesApiClient.php:221-245 | fetching the list touches the cache only through logging in |
| ClientSpec.Hydrate | src/SDK/PackagingTypesApiClient.php:247-264 | a hydrated entity's id is the parsed `id` field and its category the `category` field; hydration succeeds only on an object and fails with a plain exception |
| ClientSpec.CacheItem | src/SDK/PackagingTypesApiClient.php:273-290 | the packaging type is saved under its own key with TTL 0 and no other entry changes; only a throwing lookup of that key fails it, and then nothing is written; token and transport are untouched |
| ClientSpec.StoreFrom | src/SDK/PackagingTypesApiClient.php:135-141 | the hydrate-and-cache loop leaves the token, the transport and the sent requests untouched, only appends to the log, and on success returns one entity per record after those collected so far |
| ClientSpec.GetPackagingTypes | src/SDK/PackagingTypesApiClient.php:104-161 | every failure of the list operation is the "Couldn't retrieve" exception |
| ClientSpec.GetPackagingType | src/SDK/PackagingTypesApiClient.php:170-219 | every failure of the single lookup is the "Couldn't retrieve" exception |
| Client.PackagingTypesApiClient.constructor | src/SDK/PackagingTypesApiClient.php:27-38 | a new client keeps its configuration, has no access token, and has sent nothing |
| Client.PackagingTypesApiClient.GetCacheItem | src/SDK/PackagingTypesApiClient.php:59-62 | `getItem` is logged, throws exactly for a faulty key, and otherwise reports the stored entry or a miss |
| Client.PackagingTypesApiClient.SaveItem | src/SDK/PackagingTypesApiClient.php:81-85 | setting and saving an item stores the entry under its key and logs the save |
| Client.PackagingTypesApiClient.SendRequest | src/SDK/PackagingTypesApiClient.php:76 | the request is recorded as sent and the next queued response is returned, an empty queue being a transport failure |
| Client.PackagingTypesApiClient.LoginToAuthServer | src/SDK/PackagingTypesApiClient.php:55-93 | new state and result are those of `ClientSpec.Login` |
| Client.PackagingTypesApiClient.FetchPackagingTypesFromApi | src/SDK/PackagingTypesApiClient.php:221-245 | new state and result are those of `ClientSpec.FetchList` |
| Client.PackagingTypesApiClient.HydratePackagingType | src/SDK/PackagingTypesApiClient.php:247-264 | building the entity through its setters gives exactly `ClientSpec.Hydrate` of the record, including its failures |
| Client.PackagingTypesApiClient.CachePackagingType | src/SDK/PackagingTypesApiClient.php:273-290 | new state and result are those of `ClientSpec.CacheItem` |
| Client.PackagingTypesApiClient.HydrateAndCacheAll | src/SDK/PackagingTypesApiClient.php:135-141 | the loop leaves the state and result of `ClientSpec.StoreFrom` over all records |
| Client.PackagingTypesApiClient.GetPackagingTypes | src/SDK/PackagingTypesApiClient.php:104-161 | new state and result are those of `ClientSpec.GetPackagingTypes` |
| Client.PackagingTypesApiClient.GetPackagingType | src/SDK/PackagingTypesApiClient.php:170-219 | new state and result are those of `ClientSpec.GetPackagingType` |
| ClientProperties.AllOk | src/SDK/PackagingTypesApiClient.php:135-141 | the collected list exists exactly when every hydration succeeded, and it holds their results in order |
| ClientProperties.HydrateAll | src/SDK/PackagingTypesApiClient.php:135-141 | the list of hydrated records exists exactly when every record hydrates, and holds them in record order |
| ClientProperties.ItemKeyInjective | src/SDK/PackagingTypesApiClient.php:275-277 | different ids never share a cache key |
| ClientProperties.DistinctIdsDistinctKeys | src/SDK/PackagingTypesApiClient.php:275-277 | packaging types with different ids are cached under different keys |
| ClientProperties.TrailingSlashesIgnored | src/SDK/PackagingTypesApiClient.php:233-235 | trailing slashes on the configured API URL do not change the list URL |
| ClientProperties.ItemUrlUnderListUrl | src/SDK/PackagingTypesApiClient.php:184-189 | a single packaging type is requested at the list URL followed by `/` and its id |
| ClientProperties.WriteItemsKeepsOthers | src/SDK/PackagingTypesApiClient.php:273-290 | writing packaging types leaves every other key as it was |
| ClientProperties.WriteItemsKeepsFixedKeys | src/SDK/PackagingTypesApiClient.php:273-290 | writing packaging types never touches the list entry or the token entry |
| ClientProperties.WriteItemsLastWins | src/SDK/PackagingTypesApiClient.php:273-290 | after writing, each id's entry holds the last packaging type with that id |
| ClientProperties.StoreFromSucceedsIff | src/SDK/PackagingTypesApiClient.php:135-141 | the loop succeeds exactly when every remaining record hydrates and no lookup of their cache keys throws |
| ClientProperties.StoreFromResult | src/SDK/PackagingTypesApiClient.php:135-141 | on success the loop returns the hydrated records in order |
| ClientProperties.StoreFromCache | src/SDK/PackagingTypesApiClient.php:135-141 | on success the loop has written every hydrated record under its own key |
| ClientProperties.StoreFromLog | src/SDK/PackagingTypesApiClient.php:135-141 | on success the loop has logged one save per record, in order |
| ClientProperties.StoreFromFailsAt | src/SDK/PackagingTypesApiClient.php:135-141 | when a record fails to hydrate, the loop fails and keeps exactly the entries written for the records before it |
| ClientProperties.ListHitReturnsCachedList | src/SDK/PackagingTypesApiClient.php:116-128 | without a refresh, a cached list is returned as it is, with no login and no request |
| ClientProperties.RefreshWritesThrough | src/SDK/PackagingTypesApiClient.php:131-148 | a successful refresh returns the hydrated records, writes each one and then the list, logs exactly those saves, and sends nothing beyond the fetch |
| ClientProperties.RefreshedListEntry | src/SDK/PackagingTypesApiClient.php:144-148 | after a successful refresh the list entry holds the returned list |
| ClientProperties.RefreshedItemEntry | src/SDK/PackagingTypesApiClient.php:135-141 | after a successful refresh each returned packaging type is cached under its id |
| ClientProperties.FetchFailureWritesNoCatalogEntry | src/SDK/PackagingTypesApiClient.php:131-160 | when the fetch fails, the refresh fails with the "Couldn't retrieve" exception and changes no catalogue entry |
| ClientProperties.HydrationFailureAtRecord | src/SDK/PackagingTypesApiClient.php:135-160 | when a record fails to hydrate, the refresh fails and keeps exactly the entries written for the earlier records |
| ClientProperties.HydrationFailureKeepsListEntry | src/SDK/PackagingTypesApiClient.php:135-160 | a refresh that fails on a record leaves the old list entry in place |
| ClientProperties.UnknownCategoryFailsRefresh | src/SDK/PackagingTypesApiClient.php:135-160 | a record with an unknown category makes the whole refresh fail with the "Couldn't retrieve" exception |
| ClientProperties.RefreshFetchesEvenOnHit | src/SDK/PackagingTypesApiClient.php:116-131 | with a refresh and a cached token, exactly one list request is sent, even when the list is cached |
| ClientProperties.FetchListIgnoresStatus | src/SDK/PackagingTypesApiClient.php:221-245 | after a successful login one list request with the token is sent, and the result is the `member` array of the reply whatever its status |
| ClientProperties.ServerErrorWithMembersSucceeds | src/SDK/PackagingTypesApiClient.php:241-244 | a 500 reply whose body carries an empty `member` array fetches an empty list rather than failing |
| ClientProperties.FetchListFailures | src/SDK/PackagingTypesApiClient.php:221-245 | a failed login is passed on with no list request; a transport failure or a body without a `member` array is a plain exception |
| ClientProperties.LoginAgrees | src/SDK/PackagingTypesApiClient.php:55-93 | logging in reads no cache entry but the token |
| ClientProperties.FetchAgrees | src/SDK/PackagingTypesApiClient.php:221-245 | fetching the list reads no cache entry but the token |
| ClientProperties.StoreFromAgrees | src/SDK/PackagingTypesApiClient.php:135-141 | the hydrate-and-cache loop reads no cache entry outside the packaging-type keys |
| ClientProperties.RefreshIgnoresCachedList | src/SDK/PackagingTypesApiClient.php:116-148 | a refresh returns the same result whatever the old list entry was, and on success leaves the same state |
| ClientProperties.LoginTokenHit | src/SDK/PackagingTypesApiClient.php:59-63 | a cached token is taken as the access token, with no request and no write |
| ClientProperties.LoginTokenMiss | src/SDK/PackagingTypesApiClient.php:66-88 | without a cached token, one token request is sent, the token is cached for `expires_in` minus ten seconds, and it becomes the access token |
| ClientProperties.DocumentedTokenTtl | tests/PackagingTypesApiClientTest.php:225 | a token response with `"expires_in": "60"` caches the token for 50 seconds |
| ClientProperties.MissingExpiresInCountsAsZero | src/SDK/PackagingTypesApiClient.php:76-88 | a token response without `expires_in` still logs in, and the token is cached for -10 seconds |
| ClientProperties.FailedExchangeWritesNoToken | src/SDK/PackagingTypesApiClient.php:76-92 | when the token request gets no usable response, login fails with the "Couldn't connect" exception and changes neither the cache nor the token |
| ClientProperties.ItemHitSkipsLogin | src/SDK/PackagingTypesApiClient.php:174-179 | a cached packaging type is returned with no login and no request |
| ClientProperties.ItemMissOutcome | src/SDK/PackagingTypesApiClient.php:182-212 | on a miss one request is sent; a 404 gives null; other error statuses fail; a good record is cached exactly when the status is below 400 and hydration succeeds |
| ClientProperties.ItemLookupKeepsOtherEntries | src/SDK/PackagingTypesApiClient.php:170-219 | a single lookup changes no cache entry but its own and the token |
| ClientProperties.ItemLookupKeepsListEntry | src/SDK/PackagingTypesApiClient.php:170-219 | a single lookup never changes the list entry |
| ClientProperties.NullableString | src/SDK/PackagingTypeEntity.php:49 | every optional string has a JSON form that the nullable string parameter accepts as itself |
| ClientProperties.NullableInt | src/SDK/PackagingTypeEntity.php:100 | every optional integer has a JSON form that the nullable integer parameter accepts as itself |
| ClientProperties.NullableFloat | src/SDK/PackagingTypeEntity.php:154 | every optional float has a JSON form that the nullable float parameter accepts as itself |
| ClientProperties.HydrateRoundTrip | src/SDK/PackagingTypesApiClient.php:247-264 | hydrating the record of any packaging type with a canonical id gives that packaging type back |
| ClientProperties.HydrateRejectsUnknownCategory | src/SDK/PackagingTypesApiClient.php:255 | a record whose category is not a known backing value fails to hydrate |
| ClientProperties.HydrateDocumentedRecord | tests/PackagingTypesApiClientTest.php:710-720 | the example record hydrates to the asserted entity, its integer weight read as the float 50.0 |

## Left out

- Console and logger output are not modelled: `setConsole`, the optional console with its `writeln` calls and the optional logger are side channels that do not affect results.
- The `RefreshPackagingTypesCache` console command is not part of this model. It calls `getPackagingTypes` with the sort field `ID` and leaves `refreshCache` at its default `false`, so when the list is already cached it returns that list and refreshes nothing (the case of `ClientProperties.ListHitReturnsCachedList`).
- The HTTP stack is abstracted. Guzzle and PSR-7 plumbing, header and form encoding, and `http_build_query` are below the model. Requests are values, and responses come from a queue given in advance; an empty queue behaves as a transport failure.
- JSON is modelled already decoded. `json_decode` itself is not modelled; a body that is not JSON is the value `JNull`.
- Cache expiry by wall-clock time is not modelled: a TTL is recorded in the entry but never expires it. The cache adapter's own behaviour is not modelled either. Its `getItem` can throw only for a chosen set of keys, and `save` always succeeds; its return value is ignored, as the client ignores it.
- Concurrent use of the cache by several clients is not modelled.
- Entity object identity is not modelled: the cache and the results hold packaging-type values, not shared objects.
- Integers are unbounded, so PHP's 64-bit integer overflow, for example `expires_in - 10` near the minimum, is not modelled.
- Uuids.FromString: accepts only the 8-4-4-4-12 spelling. It leaves out the other spellings `Ramsey\Uuid` tolerates (braces, the `urn:uuid:` prefix) and its version checks.
- PhpValues.IntParam: any numeric string other than an optionally signed run of decimal digits is a coercion failure. So `"240.0"`, `"1e3"` and strings with surrounding whitespace or trailing text fail, where PHP's `int` and `?int` parameters accept or truncate some of them.
- PhpValues.FloatParam: the same holds for float parameters. A decimal or exponent string such as `"weight": "50.5"` fails, where PHP's `?float` parameter accepts it. Such a record fails to hydrate, and with it the whole refresh.
- PhpValues.StringParam: a float passed to a string parameter is a failure, where PHP would convert it to its decimal text.
- ClientSpec.TokenTtl: a float `expires_in`, and any string other than an optionally signed digit run, makes the login fail. That includes leading-numeric strings such as `"60s"` and strings with surrounding whitespace, for which PHP computes the TTL (50 for `"60s"`, with a warning). For a float PHP would compute a float TTL, which a PSR-6 adapter may or may not accept.
- ClientSpec.Members: a `member` that is a JSON object rather than an array is treated as a failure. PHP's `foreach` would iterate its values.
- ClientSpec.GetPackagingTypes: an entry under the list key that is not a list is treated as a failure. So is an entry under an item key that is not a packaging type, in `ClientSpec.GetPackagingType`. The client never writes such entries.
