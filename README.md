# Business-area people map: a verified model of its core logic

This project is a Dafny model of the non-visual logic in a React/Mapbox web application. The application shows the people who live around a business on a map. The model covers the following parts:

- **Pin clustering** (`src/utils/pinClustering.ts`). The zoom gate, the radius policy, the greedy order-driven grouping pass with its `processed` set, the mean-coordinate centroid, the final "unclustered" filter, and `isCluster`. Files: `pin_clustering.dfy` (the operations, including the imperative pass `ClusterPins`) and `pin_clustering_facts.dfy` (what the pass guarantees).
- **Person-record to pin extraction** (`src/components/map/MapContainer.tsx`, lines 80-129). The probing of latitude and longitude field names with JavaScript `||`, the one nested fallback level, the validity test, the pin construction, and `map(...).filter(...)`. It also covers the zoom targets of the two click handlers. File: `pin_extraction.dfy`.
- **The TTL cache** (`src/services/cache.ts`). `ApiCache` is a class over a `map` with expiry-on-read, overwrite-on-set, a default TTL and an insertion-order-insensitive key generator. File: `cache.dfy`.
- **The L2 API client** (`src/services/l2Api.ts`). The application-id check in the constructor, the decoding of the estimate total, the decoding of the record array, and the estimate-then-search flow. That flow has cache short-circuits, a zero-estimate short-circuit and a limit cap. File: `l2_api.dfy`.
- **The onboarding state machine** (`src/contexts/OnboardingContext.tsx`). File: `onboarding.dfy`.
- **The map store** (`src/store/mapStore.ts`). File: `map_store.dfy`.

Shared pieces:

- `json.dfy` holds JavaScript values as the code sees them, with truthiness, `||` chains and `??` chains. A missing property and `null` are the same `Null`, because every test the modelled code applies treats them alike, except the cache-hit check `cached !== null` (see `L2Api.CacheHit` under "Left out").
- `geo.dfy` holds coordinates and pins.
- `wrappers.dfy` holds `Option` and `Result`. A thrown exception is a `Failure`.

Outside influences are parameters of the model:

- The haversine distance is `dist: (Coord, Coord) -> real`, so every clustering fact holds for any distance function.
- The decimal-string part of `parseFloat` is `parseText`.
- The `Math.random()` id for a record without `LALVOTERID` is `randomId(index)`.
- `Date.now()` is `now`.
- `JSON.stringify` is `stringify`.
- The flow functions `EstimateFlow` and `SearchFlow` take the cache keys as parameters. The client methods pass `EstimateKey` and `SearchKey`, which are built with `generateKey`. The flow facts therefore hold for any keys.
- The HTTP server (axios) is `server: Request -> Reply`.
- The module-level `apiCache` singleton is the client's `cache` field.
- `localStorage` is the field `storedFlag`.

Two behaviours of the code are worth stating plainly:

- The code has no client-side radius filter. The 30 km radius is only sent to the search API (`src/components/map/MapContainer.tsx:36-44`), and `PinExtraction.ExtractPins` keeps every record with parseable coordinates.
- The comment at `src/utils/pinClustering.ts:89` reads "Return clusters and unclustered pins", but the code marks lone pins as processed (`src/utils/pinClustering.ts:85`). The final filter therefore always returns nothing, and isolated pins vanish at zoom ≤ 14. See "Findings".

## Model

| member | source | states |
|---|---|---|
| PinClustering.IsCluster | src/utils/pinClustering.ts:97-99 | An item is a cluster exactly when it carries both `count` and `pins`, i.e. exactly the cluster variant. |
| PinClustering.EffectiveRadius | src/utils/pinClustering.ts:37 | The radius is three times the base radius below zoom 10 and the base radius otherwise. |
| PinClustering.Neighbours | src/utils/pinClustering.ts:62-67 | The neighbours are exactly the pins of the whole list whose id is unprocessed, differs from the seed's id, and lies strictly within the radius. The list is never longer than the input and keeps ids distinct. |
| PinClustering.Unclustered | src/utils/pinClustering.ts:90 | The filter keeps exactly the pins whose id is not processed, and keeps ids distinct. |
| PinClustering.Singles | src/utils/pinClustering.ts:32-34 | Every pin becomes a bare item, in order. |
| PinClustering.Visit | src/utils/pinClustering.ts:58-86 | One iteration of the `forEach` body. A pin already processed leaves the state as it was. Otherwise `processed` only grows, the visited pin is processed afterwards when lone pins are marked, and at most one cluster is pushed. `VisitKeepsWellFormed`, `VisitKeepsDisjoint` and `FixedVisitKeepsInvariant` prove what one iteration preserves. |
| PinClustering.Pass | src/utils/pinClustering.ts:58-87 | The state after the first `k` iterations. `ClustersWellFormed`, `ClustersDisjoint`, `PassMarksEveryVisitedPin`, `ClustersHeadedBySeeds` and `FixedPassInvariant` state what it guarantees. |
| PinClustering.Aggregate | src/utils/pinClustering.ts:29-91 | The whole of `clusterPins` under a given lone-pin policy. `EmptyInputEmptyOutput` and `HighZoomPassesThrough` state its early returns, and `LonePinsDropped` and `FixedKeepsEveryPinOnce` state its result under each policy. |
| PinClustering.Clustered | src/utils/pinClustering.ts:24-92 | `clusterPins` as written, with lone pins marked processed. `LonePinsDropped` and `SinglePinVanishes` state that isolated pins are dropped at zoom ≤ 14, and `ClusterPins` computes it imperatively. |
| PinClustering.ClusteredFixed | src/utils/pinClustering.ts:85-91 | The corrected `clusterPins`, with lone pins left unprocessed. `FixedKeepsEveryPinOnce` and `SinglePinKept` state that every input pin comes out exactly once. |
| PinClustering.MarkProcessed | src/utils/pinClustering.ts:83 | The marking loop ends with `processed` grown by exactly the ids of the group. |
| PinClustering.ClusterPins | src/utils/pinClustering.ts:24-92 | The imperative `forEach` pass, which mutates `clusters` and `processed`, returns exactly the specification `Clustered`. The loop invariant equates its state with `Pass` after `i` iterations. |
| ClusteringFacts.EmptyInputEmptyOutput | src/utils/pinClustering.ts:29 | An empty input gives an empty output at every zoom and radius. |
| ClusteringFacts.HighZoomPassesThrough | src/utils/pinClustering.ts:32-34 | Above zoom 14 the output is the input pins in the same order, with no clusters. |
| ClusteringFacts.ClustersWellFormed | src/utils/pinClustering.ts:69-80 | Every emitted cluster satisfies the following: the seed comes first; it has at least 2 members; `count` equals the number of members; its id is `"cluster-"` plus the seed's id; its coordinates are the mean longitude and latitude of its members; every member is an input pin; every other member has a different id and lies strictly within the radius of the seed. |
| ClusteringFacts.VisitKeepsWellFormed | src/utils/pinClustering.ts:69-80 | One iteration only ever pushes a well-formed cluster. |
| ClusteringFacts.PassMarksEveryVisitedPin | src/utils/pinClustering.ts:83-85 | After `k` iterations the id of every one of the first `k` pins is in `processed`, whether it headed a cluster or was alone. |
| ClusteringFacts.GroupIdsUnprocessed | src/utils/pinClustering.ts:59-71 | A new group's ids are all still unprocessed. |
| ClusteringFacts.DisjointClustersStep | src/utils/pinClustering.ts:75-83 | Pushing a cluster of unprocessed pins and marking them processed keeps clusters disjoint and covered by `processed`. |
| ClusteringFacts.VisitKeepsDisjoint | src/utils/pinClustering.ts:59-86 | One iteration keeps the clusters pairwise disjoint and their ids processed. |
| ClusteringFacts.ClustersDisjoint | src/utils/pinClustering.ts:58-87 | No pin id belongs to two clusters, and every clustered id is processed, under either lone-pin policy. |
| ClusteringFacts.UnclusteredEmpty | src/utils/pinClustering.ts:90 | When every pin id is processed, the unclustered list is empty. |
| ClusteringFacts.SeedIndicesIncrease | src/utils/pinClustering.ts:58 | The input positions of the pins that headed a cluster increase strictly and lie below the number of pins visited. |
| ClusteringFacts.ClustersHeadedBySeeds | src/utils/pinClustering.ts:71-80 | There is one cluster per seed, and the `i`-th cluster is headed by, and named after, the `i`-th seed. |
| ClusteringFacts.ClustersFollowSeedOrder | src/utils/pinClustering.ts:58-87 | Clusters come out in strictly increasing input order of their seeds. Each is headed by its seed and named after it. |
| ClusteringFacts.LonePinsDropped | src/utils/pinClustering.ts:83-91 | At zoom ≤ 14 the source's result holds clusters only. It equals the clusters of the pass, so pins without a neighbour are dropped. |
| ClusteringFacts.SinglePinVanishes | src/utils/pinClustering.ts:85-91 | At zoom ≤ 14 a single pin gives an empty result (the defect, as written). |
| ClusteringFacts.SinglePinKept | src/utils/pinClustering.ts:85-91 | With lone pins left unprocessed, a single pin comes out as a single. |
| ClusteringFacts.FixedPassInvariant | src/utils/pinClustering.ts:58-87 | With lone pins left unprocessed and distinct input ids, cluster members are distinct input pins whose ids are exactly `processed`. |
| ClusteringFacts.FixedVisitKeepsInvariant | src/utils/pinClustering.ts:58-86 | With lone pins left unprocessed, one iteration keeps the cluster members distinct input pins whose ids are exactly `processed`. |
| ClusteringFacts.GroupStep | src/utils/pinClustering.ts:71-83 | Appending a seed and its distinct, unprocessed neighbours keeps the members distinct, and their ids grow by exactly the group's ids. |
| ClusteringFacts.FixedMembersCoverIds | src/utils/pinClustering.ts:58-91 | After the corrected pass, the output's members are distinct input pins carrying every input id. |
| ClusteringFacts.FixedKeepsEveryPinOnce | src/utils/pinClustering.ts:58-91 | With lone pins left unprocessed and distinct input ids, the output items hold every input pin exactly once, and nothing else. |
| ClusteringFacts.SumAtLeast | src/utils/pinClustering.ts:72-73 | When every member's coordinate is at least `lo`, their sum is at least `n` times `lo`. |
| ClusteringFacts.SumAtMost | src/utils/pinClustering.ts:72-73 | When every member's coordinate is at most `hi`, their sum is at most `n` times `hi`. |
| ClusteringFacts.AxisMeanWithin | src/utils/pinClustering.ts:72-73 | The mean of one coordinate lies between any bounds of the members' values. |
| ClusteringFacts.CentroidWithinMemberBounds | src/utils/pinClustering.ts:72-77 | A cluster's mean coordinates lie inside any longitude/latitude box that contains all its members. |
| PinExtraction.Fields | src/components/map/MapContainer.tsx:83-96 | The probed values are the record's values for the listed names, in order. |
| PinExtraction.Probe | src/components/map/MapContainer.tsx:83-96 | A `\|\|` chain of property reads answers with the first truthy field, or else the last one, and is falsy only when every field is. |
| PinExtraction.Coordinate | src/components/map/MapContainer.tsx:83-104 | The value is the first truthy flat field. When none is truthy and there is no truthy `Residence_Addresses`, it is the last flat field (the last `\|\|` operand). When none is truthy and `Residence_Addresses` is truthy, it is the first truthy nested field, or else the last nested field. |
| PinExtraction.FirstTruthyField | src/components/map/MapContainer.tsx:83-96 | When a field is the first truthy one, the probe answers with it. |
| PinExtraction.NoTruthyField | src/components/map/MapContainer.tsx:83-104 | When no field is truthy and there is no truthy nested object, the probe answers with the last field. |
| PinExtraction.ParseFloat | src/components/map/MapContainer.tsx:106-108 | A number parses as itself, and null, booleans and objects do not parse. |
| PinExtraction.PinId | src/components/map/MapContainer.tsx:121 | The id is `LALVOTERID` when that is a non-empty string, and the fallback id when it is falsy. |
| PinExtraction.HasValidCoords | src/components/map/MapContainer.tsx:106-108 | Both probed values are non-null and both parse as numbers. `ExtractionKeepsValidRecordsInOrder` states that exactly these records are kept. |
| PinExtraction.MakePin | src/components/map/MapContainer.tsx:120-127 | A kept pin has the id `PinId` gives the record, longitude first, then latitude, both as parsed, and carries the unmodified record. |
| PinExtraction.ToPin | src/components/map/MapContainer.tsx:81-127 | One record's `map` step: its pin when it has valid coordinates, otherwise nothing. `ExtractionKeepsValidRecordsInOrder` states its effect on the whole list. |
| PinExtraction.MapFilter | src/components/map/MapContainer.tsx:80-129 | `map` then `filter` never yields more pins than records. |
| PinExtraction.KeptIndicesIncrease | src/components/map/MapContainer.tsx:80-129 | The positions of the kept records increase strictly and lie inside the input. |
| PinExtraction.KeptIndicesExact | src/components/map/MapContainer.tsx:80-129 | A position is kept exactly when its record yields a pin, and kept plus dropped make up the input. |
| PinExtraction.MapFilterPins | src/components/map/MapContainer.tsx:80-129 | With no null record the pass succeeds, and its `k`-th pin is the pin of the `k`-th kept record. |
| PinExtraction.MapFilterKeepsInOrder | src/components/map/MapContainer.tsx:80-129 | With no null record the result succeeds. The kept indices increase strictly and are exactly those whose step yields a pin. Each output pin is that pin. The output length is the input length minus the dropped count. |
| PinExtraction.MapFilterThrowsOnFirstNull | src/components/map/MapContainer.tsx:80-84 | A null record makes the whole transformation throw, at the first null record. |
| PinExtraction.ExtractionKeepsValidRecordsInOrder | src/components/map/MapContainer.tsx:80-129 | Without null records, the extracted pins are, in input order, exactly the records with valid coordinates, each turned into its pin. The length is the input length minus the dropped records, and dropping never fails. |
| PinExtraction.ExtractPins | src/components/map/MapContainer.tsx:80-129 | The whole transformation. `ExtractionKeepsValidRecordsInOrder` states that without null records it keeps exactly the valid records, in order, and `ExtractionThrowsOnFirstNull` states that a null record makes it throw. |
| PinExtraction.ExtractionThrowsOnFirstNull | src/components/map/MapContainer.tsx:80-84 | A null person record makes the extraction throw. |
| PinExtraction.ZeroLatitudeDropped | src/components/map/MapContainer.tsx:83-88 | A latitude of 0 in `Latitude` reads as missing, because of `\|\|`, and the record is dropped. |
| PinExtraction.ZeroInLastLatitudeFieldKept | src/components/map/MapContainer.tsx:83-88 | A 0 in the last latitude field survives `\|\|` and is kept, giving coordinates `[lng, 0]`. |
| PinExtraction.ZeroLatitudeSkipped | src/components/map/MapContainer.tsx:83-88 | A falsy earlier field gives way to the next truthy one. |
| PinExtraction.ClusterClickZoom | src/components/map/MapContainer.tsx:211 | The cluster click targets `min(zoom + 2, 18)`: at most both bounds and equal to one of them. |
| PinExtraction.BusinessClickZoom | src/components/map/MapContainer.tsx:318 | The business click targets `max(zoom, 15)`: at least both bounds and equal to one of them. |
| Cache.EffectiveTtl | src/services/cache.ts:40 | An absent or zero TTL becomes the 5-minute default. Any other TTL is used as given. |
| Cache.Lookup | src/services/cache.ts:19-33 | The answer `get` gives: the data of a present entry not past its expiry time. `StoredVisibleUntilExpiry` and `SetThenGet` state when a stored entry is visible, and `ApiCache.Get` returns it. |
| Cache.AfterGet | src/services/cache.ts:27-30 | The store after `get`, with an expired entry for the key dropped. `ExpiryOnReadUnobservable` states that this changes no answer, and `OtherKeysUntouched` that no other key is affected. |
| Cache.Stored | src/services/cache.ts:38-47 | The store after `set`. `SetThenGet`, `StoredVisibleUntilExpiry` and `OtherKeysUntouched` state what a later `get` answers, and `ApiCache.Set` produces it. |
| Cache.ApiCache.constructor | src/services/cache.ts:13-14 | A new cache is empty. |
| Cache.ApiCache.Get | src/services/cache.ts:19-33 | If the key is absent, the result is null and the cache is unchanged. If the entry is expired (`now > expiresAt`), the result is null and the key is removed. Otherwise, including `now == expiresAt`, the result is the stored data and the cache is unchanged. |
| Cache.ApiCache.Set | src/services/cache.ts:38-47 | The key is overwritten with the data, timestamp `now` and expiry `now + (ttl \|\| 300000)`. No other key changes. |
| Cache.ApiCache.Delete | src/services/cache.ts:52-54 | Only the given key is removed. |
| Cache.ApiCache.Clear | src/services/cache.ts:59-61 | The cache becomes empty. |
| Cache.SetThenGet | src/services/cache.ts:38-46 | Right after `set`, `get` at the same time returns the new data. The exception is a negative TTL, which expires the entry at once. |
| Cache.StoredVisibleUntilExpiry | src/services/cache.ts:27-46 | A stored entry is returned exactly up to and including `now + ttl`. |
| Cache.OtherKeysUntouched | src/services/cache.ts:27-54 | `set`, `delete` and the expiry inside `get` change no other key's answer. |
| Cache.ExpiryOnReadUnobservable | src/services/cache.ts:27-30 | Removing an expired entry on read changes no answer at that time or later. |
| Cache.StrLessIrreflexive | src/services/cache.ts:68 | The default string order of `sort()` is irreflexive. |
| Cache.StrLessTransitive | src/services/cache.ts:68 | The default string order is transitive. |
| Cache.StrLessTotal | src/services/cache.ts:68 | Any two different strings are ordered one way or the other. |
| Cache.Insert | src/services/cache.ts:68 | Inserting adds exactly the one element, as a multiset. |
| Cache.SortStrings | src/services/cache.ts:67-68 | Sorting permutes the keys, as a multiset. |
| Cache.InsertSorted | src/services/cache.ts:68 | Inserting a new key into a strictly sorted list keeps it strictly sorted. |
| Cache.SortedWhenDistinct | src/services/cache.ts:67-68 | Distinct keys come out strictly sorted. |
| Cache.SortedUnique | src/services/cache.ts:67-72 | Two strictly sorted key lists with the same elements are identical. |
| Cache.KeysOf | src/services/cache.ts:67 | `Object.keys` lists the parameter names in insertion order. |
| Cache.KeyParts | src/services/cache.ts:69 | There is one `name:value` part per name, in the order of the names. |
| Cache.ParamValueOfMember | src/services/cache.ts:69 | With distinct names, `params[key]` is the value stored under that name. |
| Cache.SameKeys | src/services/cache.ts:67 | Parameter objects with the same properties have the same names. |
| Cache.SortedKeysAgree | src/services/cache.ts:67-68 | Parameter objects with the same properties have the same sorted names. |
| Cache.SameParamValue | src/services/cache.ts:69 | Parameter objects with the same properties and no repeated name give every name the same value. |
| Cache.GenerateKey | src/services/cache.ts:66-72 | The prefix, then the sorted `name:value` parts joined by `\|`. `GenerateKeyOrderInsensitive` states that insertion order does not matter. |
| Cache.GenerateKeyOrderInsensitive | src/services/cache.ts:66-72 | Two parameter objects with the same properties give the same key, whatever their insertion order. |
| L2Api.IncludesIffOccurs | src/services/l2Api.ts:19 | `includes` holds exactly when the substring occurs at some offset. |
| L2Api.TooLongNotIncluded | src/services/l2Api.ts:19 | A string never includes a longer one. |
| L2Api.EnvOr | src/services/l2Api.ts:16 | An unset or empty environment variable gives the fallback. Any other value is used as is. |
| L2Api.LoadConfig | src/services/l2Api.ts:15-30 | Construction fails exactly when the app id (COM_US if unset) contains `http://`, `https://` or `api.l2datamapping.com`. On success the customer and key are the environment values or `""`, and the app is the checked id. |
| L2Api.DefaultAppAccepted | src/services/l2Api.ts:16-24 | With no or an empty app id the client is built with app COM_US. |
| L2Api.UrlAppRejected | src/services/l2Api.ts:19-24 | Any app id containing the API base URL is refused. |
| L2Api.EstimateTotal | src/services/l2Api.ts:96-111 | The `total` the source assigns. `NumericBodyIsTotal`, `ResultsCountTakesPrecedence`, `FirstPresentTotalDecides` and `NoTotalRefused` characterise it. |
| L2Api.DecodeEstimate | src/services/l2Api.ts:80-121 | A `fail` body throws the API error. Otherwise a result without a numeric total has the format error. On success the decoded total is a number. |
| L2Api.NumericBodyIsTotal | src/services/l2Api.ts:99-101 | A body that is a number is the total, and a NaN body is refused. |
| L2Api.ResultsCountTakesPrecedence | src/services/l2Api.ts:105-106 | A numeric `results.count` is the total, whatever the other fields hold. |
| L2Api.FirstPresentTotalDecides | src/services/l2Api.ts:108-121 | Otherwise the first non-nullish field among total, count, estimated and estimate decides. A number there is the total. Anything else is refused, even when a later field is numeric. |
| L2Api.NoTotalRefused | src/services/l2Api.ts:109-121 | An object body with none of these fields is refused. |
| L2Api.FirstArrayField | src/services/l2Api.ts:244-246 | A result is the items of an array-valued property with no array-valued property before it. No result is found exactly when no property holds an array. |
| L2Api.SearchRecords | src/services/l2Api.ts:208-255 | The records decoded from a search body. `OkBodyRecords` and `PlainBodyRecords` characterise its two branches, and `OkBodyElsewhereIsEmpty` its empty case. |
| L2Api.OkBodyRecords | src/services/l2Api.ts:213-229 | For a `result: "ok"` body, the records are the first array along `results`, `results.data`, `results.records`, `data`, or none. |
| L2Api.PlainBodyRecords | src/services/l2Api.ts:230-255 | For any other body, the records come from the first array among the body itself, `data`, `records` and `results`. Failing that, an object body uses its first array-valued property, and anything else gives none. |
| L2Api.OkBodyElsewhereIsEmpty | src/services/l2Api.ts:213-229 | An `ok` body whose array sits under another name gives no records. |
| L2Api.CappedLimit | src/services/l2Api.ts:183 | The limit sent is `min(limit, 500)`: at most both and equal to one of them. |
| L2Api.ReplyError | src/services/l2Api.ts:127-137 | The error a `catch` block throws. `EstimateCachedOnlyOnSuccess` states that a failed reply adds no cache entry. |
| L2Api.CacheHit | src/services/l2Api.ts:54-55 | A live cache entry whose data is not null. `EstimateCacheHit` and `SearchCacheHit` state that a hit skips the configuration check and every request. |
| L2Api.EstimateFlow | src/services/l2Api.ts:47-138 | `estimateSearch` over a snapshot of the cache. `EstimateCacheHit`, `EstimateNeedsConfig`, `EstimateCachedOnlyOnSuccess` and `EstimateSendsOneEstimate` characterise it. |
| L2Api.SearchFlow | src/services/l2Api.ts:143-280 | `searchPeople` over a snapshot of the cache. `SearchCacheHit`, `SearchNeedsConfig`, `FalsyEstimateShortCircuits`, `SearchRequestShape`, `SearchRequestLimit` and `SearchSentCases` characterise it. |
| L2Api.L2ApiClient.constructor | src/services/l2Api.ts:26-30 | The client holds the checked configuration and the shared cache. |
| L2Api.L2ApiClient.Create | src/services/l2Api.ts:15-30 | Building a client fails exactly when `LoadConfig` does, with its error. Otherwise the client holds that configuration. |
| L2Api.L2ApiClient.EstimateSearch | src/services/l2Api.ts:47-138 | The result, the requests sent and the new cache are exactly `EstimateFlow` of the old cache under the key `EstimateKey`. |
| L2Api.L2ApiClient.SearchPeople | src/services/l2Api.ts:143-280 | The result, the requests sent and the new cache are exactly `SearchFlow` of the old cache under the keys `SearchKey` and `EstimateKey`. |
| L2Api.EstimateCacheHit | src/services/l2Api.ts:53-58 | A cached estimate is returned without checking the configuration, sending a request or adding a cache entry. |
| L2Api.SearchCacheHit | src/services/l2Api.ts:153-158 | Cached search results are returned without checking the configuration, sending a request or adding a cache entry. |
| L2Api.EstimateNeedsConfig | src/services/l2Api.ts:60-64 | With an incomplete configuration no request is sent, and a miss throws the configuration error. |
| L2Api.SearchNeedsConfig | src/services/l2Api.ts:160-164 | With an incomplete configuration no request is sent, and a miss throws the configuration error. |
| L2Api.EstimateCachedOnlyOnSuccess | src/services/l2Api.ts:113-126 | A fetched estimate is a number, cached for 10 minutes and readable at once. A failed one adds no entry. |
| L2Api.FalsyEstimateShortCircuits | src/services/l2Api.ts:166-174 | A zero or falsy estimate returns `[]` and caches `[]`, and no search request is sent. |
| L2Api.SearchRequestShape | src/services/l2Api.ts:166-189 | At most two requests go out. A search request is sent only after a truthy estimate, is the last request, and carries the limit `min(limit, 500)`. |
| L2Api.EstimateSendsOneEstimate | src/services/l2Api.ts:60-78 | The estimate sends nothing or exactly its one estimate request. |
| L2Api.SearchRequestLimit | src/services/l2Api.ts:178-184 | The search body's `limit` property is the capped limit. |
| L2Api.SearchSentCases | src/services/l2Api.ts:160-189 | The search sends nothing, or what the estimate sent, or that followed by its search request after a truthy estimate. |
| L2Api.LookupFirstMatch | src/services/l2Api.ts:183 | A property lookup answers with the first property of that name. |
| JsonValue.Truthy | src/services/l2Api.ts:105 | JavaScript truthiness: `false`, `0`, NaN, `""`, `null` and `undefined` are falsy. `OrChain` and `Probe` build on it. |
| JsonValue.OrChain | src/components/map/MapContainer.tsx:83-88 | `a \|\| b \|\| ...` answers with the first truthy operand, or else the last one, and is falsy only when every operand is. |
| JsonValue.Coalesce | src/services/l2Api.ts:109 | `a ?? b ?? ...` answers with the first operand that is not null or undefined, or else null. |
| Onboarding.FirstVisit | src/contexts/OnboardingContext.tsx:20-23 | `isFirstTime` holds exactly when no flag or an empty flag is stored. |
| Onboarding.CompletionPersists | src/contexts/OnboardingContext.tsx:53 | After the flag `"true"` is written, a later visit is not a first visit. |
| Onboarding.OnboardingProvider.constructor | src/contexts/OnboardingContext.tsx:20-27 | The provider starts at step 1 with no completed steps and no achievements. `isFirstTime` is the negation of the stored flag. |
| Onboarding.OnboardingProvider.StartOnboarding | src/contexts/OnboardingContext.tsx:31-35 | The step goes back to 1, and the completed set and achievements are emptied. Nothing else changes. |
| Onboarding.OnboardingProvider.NextStep | src/contexts/OnboardingContext.tsx:37-41 | The step advances by one while it is below 4 and stays at 4 otherwise, so it never exceeds 4. Nothing else changes. |
| Onboarding.OnboardingProvider.CompleteStep | src/contexts/OnboardingContext.tsx:43-45 | The step is added to the completed set. Completing a step twice changes nothing more. |
| Onboarding.OnboardingProvider.UnlockAchievement | src/contexts/OnboardingContext.tsx:47-49 | The achievement is appended at the end, and duplicates are kept. |
| Onboarding.OnboardingProvider.CompleteOnboarding | src/contexts/OnboardingContext.tsx:51-55 | `isFirstTime` becomes false, the flag is stored and the step becomes 4. Achievements and completed steps stay. |
| Onboarding.OnboardingProvider.SkipOnboarding | src/contexts/OnboardingContext.tsx:57-62 | With no completed step nothing changes. Otherwise `isFirstTime` is cleared and the flag is stored, and the step is untouched either way. |
| MapStore.MapState.constructor | src/store/mapStore.ts:34-40 | The initial state has no business location, no pins, no selection, no map, no loading and no error. |
| MapStore.MapState.SetBusinessLocation | src/store/mapStore.ts:42 | Only `businessLocation` changes. |
| MapStore.MapState.SetPersonPins | src/store/mapStore.ts:43 | The pin list is replaced, and nothing else changes. |
| MapStore.MapState.AddPersonPin | src/store/mapStore.ts:44 | The pin is appended after the unchanged earlier pins, and nothing else changes. |
| MapStore.MapState.SetSelectedPin | src/store/mapStore.ts:45 | Only `selectedPin` changes. |
| MapStore.MapState.SetMapInstance | src/store/mapStore.ts:46 | Only `mapInstance` changes. |
| MapStore.MapState.SetLoading | src/store/mapStore.ts:47 | Only `isLoading` changes. |
| MapStore.MapState.SetError | src/store/mapStore.ts:48 | Only `error` changes. |
| MapStore.MapState.ClearPins | src/store/mapStore.ts:49 | The pins are emptied and the selection is cleared. The business location, map, loading and error stay. |

## Left out

- The haversine distance (`src/utils/pinClustering.ts:43-56`) is floating-point trigonometry. It is the parameter `dist`, and no symmetry or zero-distance fact is assumed.
- Floating-point rounding is not modelled. Coordinates, the centroid division and zoom levels are exact `real`s.
- `Infinity` and `-Infinity` are not modelled. JavaScript numbers are finite reals plus NaN.
- `Object.keys` puts integer-like keys first. The model keeps properties in insertion order, which affects `FirstArrayField` and `Cache.KeysOf` for such keys.
- A JSON object with duplicate keys is not modelled. Property lookup takes the first of that name.
- The default `sort()` compares UTF-16 code units. The model compares characters, which agree outside the astral planes.
- `PinExtraction.ParseFloat`: a string is parsed by the abstract `parseText`. An array value, which `parseFloat` would coerce to text, gives no number.
- `PinExtraction.PinId`: a truthy `LALVOTERID` that is not a string (a number, say) is treated like a missing one and gets the fallback id.
- `Math.random()` ids are the parameter `randomId(index)`. Nothing is assumed about them, including uniqueness.
- `Date.now()` is the parameter `now`. `set` and `get` inside one API call read the same time.
- `JSON.stringify` is the parameter `stringify`. Key collisions between different parameter values are not studied.
- `L2Api.L2ApiClient.SearchPeople`: the final `!Array.isArray(results)` check (`src/services/l2Api.ts:260-263`) cannot fail once the records are decoded as an array, so it is not modelled.
- `L2Api.L2ApiClient.SearchPeople` and `L2Api.L2ApiClient.EstimateSearch` are modelled as if each call runs alone. In the source, `await this.estimateSearch(...)` (`src/services/l2Api.ts:167`) and the axios requests let another call on the shared `apiCache` run in between, for example an overlapping `searchPeople` when the map effect runs again. The model does not capture the cache changes such a call makes in the middle of another.
- The default arguments `clusterRadiusMeters = 100` of `clusterPins` (`src/utils/pinClustering.ts:27`) and `limit = 500` of `searchPeople` (`src/services/l2Api.ts:150`) are required parameters of `PinClustering.Clustered`, `PinClustering.ClusterPins`, `L2Api.SearchFlow` and `L2Api.L2ApiClient.SearchPeople`. A caller that omits them corresponds to passing 100 and 500.
- `L2Api.CacheHit`: a cached `undefined`, like a cached `null`, counts as a miss, because the two are the same `Null`.
- Error message texts, URL building, query strings, headers and logging in `l2Api.ts` are not modelled. The errors carry the values that go into their messages (`message`/`code` chosen with `||`).
- `getAvailableColumns` (`src/services/l2Api.ts:285-299`) and the Mapbox geocoding service (`src/services/mapboxApi.ts`) are not part of this model: they are plain HTTP calls.
- In `OnboardingContext.tsx`, React's batching and stale closures are not modelled. Each operation reads the current state, and `localStorage` is one field. `useOnboarding`'s missing-provider error is React wiring.
- In `mapStore.ts`, zustand's subscriptions are not modelled. The Mapbox map object is an opaque `MapHandle`.
- The marker and DOM construction, `fitBounds`/`flyTo` animation, hover and click listeners, and the loading/error wiring of the `MapContainer` effect are not modelled. Only the zoom targets of the two click handlers are.
- Three.js, framer-motion, Tailwind and the page components are rendering only.

## Findings

| source | as written | input that shows it | evidently intended | confidence | as-written member | corrected member |
|---|---|---|---|---|---|---|
| src/utils/pinClustering.ts:85 | A pin with no unprocessed neighbour is added to `processed`, so the final `pins.filter(p => !processed.has(p.id))` at line 90 is always empty. At zoom ≤ 14 isolated pins are dropped from the map. | One pin `[p]` at zoom 12: `clusterPins` returns `[]`. | Lone pins stay unprocessed and come back as single pins ("Return clusters and unclustered pins", line 89), so every input pin is drawn exactly once. | not executed | ClusteringFacts.SinglePinVanishes | ClusteringFacts.FixedKeepsEveryPinOnce |
