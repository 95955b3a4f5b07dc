# HiveBox temperature service — a Dafny model

HiveBox reports the average outdoor temperature in Berlin from openSenseMap
sensor boxes. This project models its core in Dafny and proves properties of it:

- **`Temperature`** (`scr/endpoints/temperature.py`) is the pipeline behind
  `get_avg_temp`. `get_boxes` keeps the listing only on a 200 answer.
  `check_boxs` keeps the ids of boxes measured at most three hours ago.
  `get_boxes_temp` collects the raw `lastMeasurement.value` strings of the
  sensors titled exactly `"Temperature"`. The average is `(0.1 + Σ values) / n`.
  The loops of the source are methods with loop invariants. Each is proved
  equal to a recursive specification function, and the properties are lemmas
  about those functions.
- **`Legacy`** (`scr/main.py`) is the first `/temperature` endpoint. It labels
  the average "Too Cold", "Hoo Hot" or "Good".
- **`Cache`** (`scr/endpoints/cache.py`) is the Valkey wrapper. The client is
  an optional key-value map, and a client error is a parameter of each call.
  It covers the read and write of key `temperature:current`, the no-client
  branches, `get_storage_status` and the hit-rate formula.
- **`Store`** (`scr/endpoints/store.py`) is the MinIO writer. The bucket is a
  map from object name to record. It covers the data quality from the sensor
  count, the source tag from the storage type, the object name
  `{storage_type}-{timestamp}.json`, and a failed put reported as `false`.
- **`Service`** (`src/main.py`) holds the service's decision rules. The
  outcome of `get_avg_temp` is abstract: a value, or an exception. The code
  treats 503 as "insufficient data" and 0.0 as "fallback / no data". The
  module covers:
  - the read-through cache, which never caches either sentinel. This is an
    invariant (`SentinelFree`) that every state-changing method keeps.
  - the five-way status of `/temperature`;
  - `/readyz`;
  - `/store/status`;
  - `/store`;
  - one pass of the scheduled store loop.

Quirks of the code that the contracts pin down:

- the 0.1 offset in the average. The test at `testing/test_temperature.py:77`
  asserts 20.5 where the code yields 20.6 (`AvgTempTestScenario`).
- a failed listing, or no fresh box, ends in a division by zero, never in a
  sentinel value.
- the 503 sentinel reaches `/temperature` as a 200 answer with status "Hot".
- `scheduled_fallback` records are tagged `opensensemap`.
- `/temperature` reports source "cache" for a live value it has just cached.
- `/store` answers `cache_updated: true` for a `manual_fallback` store, which
  leaves the cache alone.
- `/store` answers data quality "normal" while the record it wrote says "high".

scr/endpoints/temperature.py has no fallback weather API, no minimum or
maximum box count, no [-20, 40] range filter and no keyword sensor matching,
and it accepts one timestamp format; the model has none of these either. In
src/main.py:236-239 the hot band begins above 30, so 30 is "Warm".

## Model

| member | source | states |
|---|---|---|
| `Temperature.GetBoxes` | scr/endpoints/temperature.py:30-34 | a 200 answer yields its body, any other status yields no boxes |
| `Temperature.ReadClock` | scr/endpoints/temperature.py:47-48 | the clock as the test reads it is `now` truncated to a whole millisecond, never later than `now` and less than 1 ms earlier |
| `Temperature.CheckBoxes` | scr/endpoints/temperature.py:37-51 | the loop returns exactly `FreshIds`: the ids of fresh boxes in listing order, or the error of the first unparseable timestamp |
| `Temperature.FreshIdsOkIff` | scr/endpoints/temperature.py:43-46 | the filter fails if and only if some box has a `lastMeasurementAt` that does not parse; a missing key is never an error |
| `Temperature.FreshIdsMembers` | scr/endpoints/temperature.py:42-50 | an id is kept if and only if a box with that id has a parseable timestamp at most 3 hours before the clock reading |
| `Temperature.FreshIdsSubsequence` | scr/endpoints/temperature.py:41-51 | the kept ids are an order-preserving subsequence of the listing's ids, so there are at most as many |
| `Temperature.FreshnessBoundaries` | scr/endpoints/temperature.py:43-50 | exactly 3 h before `now` or before the clock as read is kept, 1 µs beyond the latter is dropped, 4 h and 5 h are dropped, 1 h and future stamps are kept, a missing key is skipped, unparseable text is an error |
| `Temperature.GetBoxesTemp` | scr/endpoints/temperature.py:54-65 | the nested loops return exactly `BoxesTemps`: each box's "Temperature" values, box after box and in sensor order, or the first error |
| `Temperature.BoxesTempsOkIff` | scr/endpoints/temperature.py:59-64 | collecting fails if and only if some box has no sensor list, or one of its "Temperature" sensors has no value |
| `Temperature.ReadingsCount` | scr/endpoints/temperature.py:62-64 | a box contributes exactly one entry per sensor titled "Temperature", with no per-box averaging |
| `Temperature.BoxesTempsCount` | scr/endpoints/temperature.py:58-65 | the collected list has as many entries as all listed boxes have "Temperature" sensors |
| `Temperature.ReadingsMembers` | scr/endpoints/temperature.py:62-64 | a string is collected from a box if and only if a sensor titled exactly "Temperature" holds it unchanged |
| `Temperature.BoxesTempsMembers` | scr/endpoints/temperature.py:59-65 | a string is collected if and only if some listed box has a "Temperature" sensor holding it |
| `Temperature.CollectExamples` | scr/endpoints/temperature.py:58-65 | no ids collect nothing; a "Humidity" sensor contributes nothing |
| `Temperature.ParseAll` | scr/endpoints/temperature.py:16-18 | float() of every string succeeds if and only if each string parses, and then the values are the parsed strings in order |
| `Temperature.AverageTemp` | scr/endpoints/temperature.py:15-19 | the loop from 0.1 returns `(0.1 + Σ values) / n`, an error for an unparseable string, and a division by zero for no strings |
| `Temperature.OffsetMeanBounds` | scr/endpoints/temperature.py:15-19 | n values within [lo, hi] average within [lo + 0.1/n, hi + 0.1/n], so the offset biases the result upwards |
| `Temperature.GetAvgTemp` | scr/endpoints/temperature.py:7-20 | the pipeline is the composition listing, freshness filter, collection, average; the first error wins |
| `Temperature.NoFreshBoxDividesByZero` | scr/endpoints/temperature.py:12-19 | a non-200 listing, or one with no fresh box, ends in a division by zero |
| `Temperature.AvgTempTestScenario` | scr/endpoints/temperature.py:11-19 | of boxes measured 1 h and 4 h ago, each reading "20.5", only the first counts, and the result is 20.6 |
| `Legacy.Classify` | scr/main.py:24-30 | the reply carries the average unchanged |
| `Legacy.ClassifyBands` | scr/main.py:25-30 | "Too Cold" if and only if below 10, "Hoo Hot" if and only if above 37, "Good" if and only if in [10, 37] with both ends; exactly one label |
| `Legacy.ClassifyMonotone` | scr/main.py:25-30 | a warmer average never gets a colder label |
| `Legacy.GetTemprature` | scr/main.py:22-30 | the endpoint labels the pipeline's average rounded to two decimals (the rounding is a parameter), and a pipeline error escapes unchanged |
| `Cache.WriteThenRead` | scr/endpoints/cache.py:45-97 | a write succeeds if and only if there is a client and no client error, and a successful write is read back from `temperature:current` |
| `Cache.WriteFrame` | scr/endpoints/cache.py:82-91 | a write changes only key `temperature:current`, and a failed write changes nothing |
| `Cache.NoClientOrError` | scr/endpoints/cache.py:52-97 | with no client, a read is None and a write is false; a client error makes a read None and a write false, without a change; a missing key reads as None |
| `Cache.HitRate` | scr/endpoints/cache.py:124-129 | 0 when there were no lookups; otherwise hits × 100 / (hits + misses), always within [0, 100] |
| `Cache.HitRateExtremes` | scr/endpoints/cache.py:126-129 | the rate is 100 if and only if every lookup hit, and 0 if and only if none did |
| `Cache.ValkeyCache.constructor` | scr/endpoints/cache.py:27-43 | the wrapper starts with the client it connected, or with none |
| `Cache.ValkeyCache.GetTemperature` | scr/endpoints/cache.py:45-65 | None without a client, on a client error or for a missing key; otherwise the cached temperature |
| `Cache.ValkeyCache.SetTemperature` | scr/endpoints/cache.py:67-97 | false and no change without a client or on an error; otherwise stores the temperature, timestamp, source and TTL under `temperature:current` and returns true |
| `Cache.ValkeyCache.GetStorageStatus` | scr/endpoints/cache.py:99-122 | unavailable with "Not connected" without a client, unavailable with the message on an error, otherwise available with the hit rate |
| `Store.DataQualityBands` | scr/endpoints/store.py:71-76 | "high" if and only if more than 3 sensors, "medium" if and only if 1 to 3, "low" otherwise, with those spellings |
| `Store.DataQualityMonotone` | scr/endpoints/store.py:71-76 | more sensors never lower the data quality |
| `Store.SourceTagCases` | scr/endpoints/store.py:85 | the tag is "fallback_api" if and only if the storage type is "manual_fallback", so "scheduled_fallback" is tagged "opensensemap" |
| `Store.ObjectName` | scr/endpoints/store.py:89-90 | the name is the storage type, a '-', the timestamp and ".json", each at its place |
| `Store.ObjectNameRoundTrip` | scr/endpoints/store.py:89-90 | for a storage type without '-', the name splits back into storage type and timestamp |
| `Store.StoredNamesRoundTrip` | scr/endpoints/store.py:89-90 | every name the service writes, for its four storage types, splits back into storage type and timestamp |
| `Store.MakeRecord` | scr/endpoints/store.py:79-86 | the record carries timestamp, temperature, sensor count and storage type unchanged, with derived quality and source |
| `Store.MinIOStorage.constructor` | scr/endpoints/store.py:36 | the writer uses bucket "temperature-data" |
| `Store.MinIOStorage.StoreTemperatureData` | scr/endpoints/store.py:55-111 | returns true if and only if the put succeeds; then exactly the built record is put under the built name; on failure the bucket is unchanged |
| `Service.HitSkipsFetch` | src/main.py:36-39 | on a cache hit the cached value is returned, the cache is unchanged, and the fetched outcome plays no part |
| `Service.MissCachesOnlyValues` | src/main.py:42-50 | on a miss the fetched outcome is returned; the cache is written only for a value that is neither 503 nor 0.0, and then holds it |
| `Service.ReadThroughKeepsSentinelFree` | src/main.py:36-50 | the rule never caches a sentinel, so a sentinel it returns comes from the fetch |
| `Service.GetTemperatureWithCache` | src/main.py:28-50 | the method follows the read-through rule and keeps the cache free of sentinels |
| `Service.StatusBands` | src/main.py:232-241 | the five bands, each in both directions: <5, [5,10), [10,25], (25,30], >30; 25 is Moderate and 30 is Warm; the status strings are the five of the source |
| `Service.StatusMonotone` | src/main.py:232-241 | a warmer value never gets a colder status |
| `Service.SentinelReplies` | src/main.py:215-241 | 0.0 is answered 503 with no status; 503 is answered 200 with status "Hot"; an exception is answered 500 |
| `Service.FreshValueReportedAsCache` | src/main.py:243-246 | a live value that the rule has just cached is reported with source "cache" |
| `Service.GetTemperature` | src/main.py:212-258 | the reply is built from the read-through outcome and a second cache read, which names the source |
| `Service.ReadyCodeCases` | src/main.py:187-203 | readiness is 503 if and only if the value is 503, and 200 otherwise, including for 0.0 |
| `Service.GetReadyz` | src/main.py:183-203 | `/readyz` answers the readiness code of the read-through outcome |
| `Service.StoreStatusCases` | src/main.py:375-390 | data quality is "unavailable" if and only if 503, "fallback" if and only if 0.0, and "normal" otherwise; 503 hides the current temperature |
| `Service.GetStoreStatus` | src/main.py:348-398 | `/store/status` reports the read-through outcome; a raising bucket check counts as unavailable, and an exception gives 500 |
| `Service.ManualStoreOutcome` | src/main.py:277-338 | 503 stores and caches nothing; otherwise the answer is 200 if and only if the put succeeded, and else 500 with the bucket unchanged |
| `Service.ManualPlanCases` | src/main.py:289-300 | 0.0 is stored as ("manual_fallback", 0, "low"); anything else as ("manual", 6, "normal") |
| `Service.ManualStoreCacheRule` | src/main.py:309-312 | the cache changes only after a successful store of a value that is neither sentinel, and then holds that value |
| `Service.ManualStoreLabels` | src/main.py:288-328 | a normal store writes a "high" record while answering "normal"; a 0.0 store writes a "low" record tagged "fallback_api", answers `cache_updated` and leaves the cache alone |
| `Service.TriggerImmediateStore` | src/main.py:261-345 | `/store` bypasses the cache read and follows `ManualStore` for the answer, cache and bucket; it keeps the cache free of sentinels |
| `Service.ScheduledStoreCases` | src/main.py:66-80 | a pass stores nothing on 503 or an exception; 0.0 stores a ("scheduled_fallback", 0) record, low quality, tagged "opensensemap"; other values store a ("scheduled", 5) record, high quality |
| `Service.ScheduledStoreOnce` | src/main.py:58-95 | one pass of the loop reads through the cache and then stores as `ScheduledStore` says; it keeps the cache free of sentinels |

## Left out

- HTTP: the requests session, the URLs, the bounding box and the timeouts are not modelled. The box listing is given by its status and body, and each box's detail record by a map from box id to sensor list.
- FastAPI routing and the response objects are not modelled. Answers are datatypes carrying the status code's meaning and the fields decided by the code. The `utcnow()` timestamps in response bodies are left out.
- Temperature.CheckBoxes: the source reads the clock once per box; the model reads one `now` for the whole pass.
- Temperature.CheckBoxes: `datetime.now()` is local time while the stamps end in `Z`. The model compares instants as given, with no time-zone offset.
- Temperature.AverageTemp: Python's `float()` is the parameter `parse`. Binary floating point is left out; values are reals.
- Temperature.GetAvgTemp: returns the mean before the `round(…, 2)` at scr/endpoints/temperature.py:20; the rounding appears only as the parameter `roundTo2` of `Legacy.GetTemprature`. Cache.HitRate likewise omits the rounding at scr/endpoints/cache.py:129.
- Temperature.CheckBoxes: a `Box` always has an id, so the KeyError that scr/endpoints/temperature.py:50 raises for a fresh box without `_id` is not modelled.
- Temperature.GetBoxesTemp: a `Sensor` always has a title, so the KeyError that scr/endpoints/temperature.py:63 raises for a sensor without `title` is not modelled.
- Temperature.GetBoxesTemp: a box's detail record is the sensor list, or absent when the record has no "sensors" list. Other ways the fetch can fail become the same `NoSensorList` error.
- Service: the outcome of `get_avg_temp` is abstract. src/main.py imports a temperature module of its own that is not part of this model. Any exception there is one `Raised` outcome.
- Service: concurrency is not modelled. The scheduled store task started at src/main.py:108 runs beside the request handlers and shares `valkey_cache` with them; each handler is modelled running alone, so for example `Service.GetTemperature` assumes its second cache read sees the state its own read-through left.
- Service.ScheduledStoreOnce: models one pass. The `while True` loop, the `asyncio.sleep(300)` and the `create_task` at start-up are left out.
- Cache: entries never expire in the model. A TTL expiry acts like a missing key, which `Read` already covers.
- Cache: JSON encoding is abstract. Only a ValkeyError is modelled as a client error; a corrupt JSON payload would raise, and that is left out. So is a falsy `setex` reply.
- Store.MinIOStorage.StoreTemperatureData: the length passed to `put_object` is that of the compact JSON, while the payload is indented. This needs a model of JSON and is left out.
- The MinIO and Valkey constructors read the environment and connect. `_ensure_bucket_exists` runs at start-up. The model only keeps the resulting client (or none) and the bucket name.
- Metrics and instrumentation are left out: scr/main_monitoring.py, the middleware and the Instrumentator. So are the pass-through endpoints `/`, `/healthz`, `/version`, `/store/test`, `/storage/info`, `/valkey/status`, `/valkey/info` and `/cache/clear`, and `get_cache_stats`.
- The version files are left out. src/endpoints/version.py returns a constant, and scr/endpoints/version.py reads a file.
