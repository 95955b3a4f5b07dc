/**
 * The decision rules of the service in src/main.py around the cache, the
 * bucket and one outcome of `temperature.get_avg_temp`.
 *
 * What get_avg_temp produces here is abstract: a value, or an exception. The
 * code gives two values a meaning: 503 is "not enough valid data" and 0.0 is
 * "fallback / no data". The cache and the bucket are the module-level
 * `valkey_cache` and `storage_client`, passed in as objects; the clock reads
 * and the failures of the external calls are parameters.
 */
module Service {
  import opened Wrappers
  import Cache
  import Store

  /** The "insufficient data" sentinel. */
  const Insufficient: real := 503.0

  /** The "fallback / no data" sentinel. */
  const NoData: real := 0.0

  /** Seconds a fetched value stays cached. */
  const CacheTtl: int := 300

  /** The sensor counts the service records for normal values. */
  const ScheduledSensorCount: int := 5
  const ManualSensorCount: int := 6

  /** One outcome of get_avg_temp: a value, or a raised exception. */
  datatype Fetched = Value(t: real) | Raised

  /** A value the read-through rule is willing to cache: neither sentinel. */
  predicate Cacheable(t: real)
  {
    t != Insufficient && t != NoData
  }

  /** The invariant the service keeps: the cached temperature is never a sentinel. */
  predicate SentinelFree(client: Option<Cache.KeyValues>)
  {
    client.Some? && Cache.CacheKey in client.value ==> Cacheable(client.value[Cache.CacheKey].temperature)
  }

  // ---------------------------------------------------------------------------
  // get_temperature_with_cache

  /**
   * The read-through rule: a cached value is returned as it is; on a miss the
   * fetched outcome is returned, and written to the cache only when it is a
   * value that is neither sentinel. Gives the outcome and the new client state.
   */
  function ReadThrough(client: Option<Cache.KeyValues>, fetched: Fetched, readError: bool, writeError: bool,
                       stamp: string): (Fetched, Option<Cache.KeyValues>)
  {
    var hit := Cache.Read(client, readError);
    if hit.Some? then (Value(hit.value), client)
    else if fetched.Value? && Cacheable(fetched.t) then (fetched, Cache.Write(client, fetched.t, CacheTtl, stamp, writeError).0)
    else (fetched, client)
  }

  /** On a hit the cached value is returned and what a fetch would give plays no part. */
  lemma HitSkipsFetch(client: Option<Cache.KeyValues>, fetched1: Fetched, fetched2: Fetched, readError: bool,
                      writeError: bool, stamp: string)
    requires Cache.Read(client, readError).Some?
    ensures ReadThrough(client, fetched1, readError, writeError, stamp) == ReadThrough(client, fetched2, readError, writeError, stamp)
    ensures ReadThrough(client, fetched1, readError, writeError, stamp) == (Value(Cache.Read(client, readError).value), client)
  {
  }

  /** On a miss the fetched outcome is returned; the cache changes only for a non-sentinel value, and then holds it. */
  lemma MissCachesOnlyValues(client: Option<Cache.KeyValues>, fetched: Fetched, readError: bool, writeError: bool,
                             stamp: string)
    requires Cache.Read(client, readError).None?
    ensures ReadThrough(client, fetched, readError, writeError, stamp).0 == fetched
    ensures !(fetched.Value? && Cacheable(fetched.t)) ==> ReadThrough(client, fetched, readError, writeError, stamp).1 == client
    ensures fetched.Value? && Cacheable(fetched.t) && client.Some? && !writeError ==>
            Cache.Read(ReadThrough(client, fetched, readError, writeError, stamp).1, false) == Some(fetched.t)
  {
  }

  /** The rule keeps sentinels out of the cache, so a sentinel it returns always comes from the fetch. */
  lemma ReadThroughKeepsSentinelFree(client: Option<Cache.KeyValues>, fetched: Fetched, readError: bool, writeError: bool,
                                     stamp: string)
    requires SentinelFree(client)
    ensures SentinelFree(ReadThrough(client, fetched, readError, writeError, stamp).1)
    ensures var r := ReadThrough(client, fetched, readError, writeError, stamp).0;
            r.Value? && !Cacheable(r.t) ==> r == fetched
  {
  }

  method GetTemperatureWithCache(cache: Cache.ValkeyCache, fetched: Fetched, readError: bool, writeError: bool,
                                 stamp: string) returns (r: Fetched)
    modifies cache
    ensures (r, cache.client) == ReadThrough(old(cache.client), fetched, readError, writeError, stamp)
    ensures old(SentinelFree(cache.client)) ==> SentinelFree(cache.client)
  {
    ghost var before := cache.client;
    var cached := cache.GetTemperature(readError);
    if cached.Some? {
      return Value(cached.value);
    }
    r := fetched;
    if fetched.Value? && fetched.t != Insufficient && fetched.t != NoData {
      var written := cache.SetTemperature(fetched.t, CacheTtl, stamp, writeError);
    }
    if SentinelFree(before) {
      ReadThroughKeepsSentinelFree(before, fetched, readError, writeError, stamp);
    }
  }

  // ---------------------------------------------------------------------------
  // get_temperature

  datatype Status = VeryCold | Cold | Moderate | Warm | Hot

  /** The five-way classifier of `/temperature`. */
  function StatusOf(t: real): Status
  {
    if t < 5.0 then VeryCold
    else if t < 10.0 then Cold
    else if t > 30.0 then Hot
    else if t > 25.0 then Warm
    else Moderate
  }

  function StatusText(s: Status): string
  {
    match s
    case VeryCold => "Very Cold"
    case Cold => "Cold"
    case Moderate => "Moderate"
    case Warm => "Warm"
    case Hot => "Hot"
  }

  function StatusRank(s: Status): nat
  {
    match s
    case VeryCold => 0
    case Cold => 1
    case Moderate => 2
    case Warm => 3
    case Hot => 4
  }

  /** The bands, each one both ways: below 5, [5, 10), [10, 25], (25, 30], above 30. */
  lemma StatusBands(t: real)
    ensures StatusOf(t) == VeryCold <==> t < 5.0
    ensures StatusOf(t) == Cold <==> 5.0 <= t < 10.0
    ensures StatusOf(t) == Moderate <==> 10.0 <= t <= 25.0
    ensures StatusOf(t) == Warm <==> 25.0 < t <= 30.0
    ensures StatusOf(t) == Hot <==> t > 30.0
    ensures StatusOf(25.0) == Moderate && StatusOf(30.0) == Warm
    ensures StatusText(StatusOf(t)) in {"Very Cold", "Cold", "Moderate", "Warm", "Hot"}
  {
  }

  /** A warmer value never gets a colder status. */
  lemma StatusMonotone(t1: real, t2: real)
    requires t1 <= t2
    ensures StatusRank(StatusOf(t1)) <= StatusRank(StatusOf(t2))
  {
  }

  /** The answers of `/temperature`. */
  datatype TemperatureReply =
    | FallbackUnavailable(temperature: real)                  // 503, source "fallback"
    | Reading(temperature: real, status: Status, source: string)  // 200
    | ServerError                                              // 500

  function TemperatureCode(reply: TemperatureReply): int
  {
    match reply
    case FallbackUnavailable(_) => 503
    case Reading(_, _, _) => 200
    case ServerError => 500
  }

  /**
   * The answer for an outcome of the read-through rule; `recheck` is what a
   * second cache read, made only to name the source, returns.
   */
  function TemperatureReplyOf(r: Fetched, recheck: Option<real>): TemperatureReply
  {
    match r
    case Raised => ServerError
    case Value(t) =>
      if t == NoData then FallbackUnavailable(t)
      else Reading(t, StatusOf(t), if recheck.Some? then "cache" else "live")
  }

  /** 0.0 is answered with 503 and no status; 503 is not intercepted and is answered 200 "Hot". */
  lemma SentinelReplies(recheck: Option<real>)
    ensures TemperatureReplyOf(Value(NoData), recheck) == FallbackUnavailable(0.0)
    ensures TemperatureCode(TemperatureReplyOf(Value(NoData), recheck)) == 503
    ensures TemperatureReplyOf(Value(Insufficient), recheck).Reading?
    ensures TemperatureReplyOf(Value(Insufficient), recheck).status == Hot
    ensures TemperatureCode(TemperatureReplyOf(Value(Insufficient), recheck)) == 200
    ensures TemperatureCode(TemperatureReplyOf(Raised, recheck)) == 500
  {
  }

  /**
   * The source is named by reading the cache again after the read-through
   * rule: a live value the rule has just cached is reported as "cache".
   */
  lemma FreshValueReportedAsCache(client: Option<Cache.KeyValues>, t: real, readError: bool, stamp: string)
    requires Cache.Read(client, readError).None? && client.Some? && Cacheable(t)
    ensures var (r, after) := ReadThrough(client, Value(t), readError, false, stamp);
            r == Value(t) && TemperatureReplyOf(r, Cache.Read(after, false)) == Reading(t, StatusOf(t), "cache")
  {
  }

  method GetTemperature(cache: Cache.ValkeyCache, fetched: Fetched, readError: bool, writeError: bool, stamp: string,
                        recheckError: bool) returns (reply: TemperatureReply)
    modifies cache
    ensures var (r, after) := ReadThrough(old(cache.client), fetched, readError, writeError, stamp);
            cache.client == after && reply == TemperatureReplyOf(r, Cache.Read(after, recheckError))
    ensures old(SentinelFree(cache.client)) ==> SentinelFree(cache.client)
  {
    var temp := GetTemperatureWithCache(cache, fetched, readError, writeError, stamp);
    if temp.Raised? {
      return ServerError;
    }
    if temp.t == NoData {
      return FallbackUnavailable(temp.t);
    }
    var status := StatusOf(temp.t);
    var again := cache.GetTemperature(recheckError);
    var source := if again.Some? then "cache" else "live";
    reply := Reading(temp.t, status, source);
  }

  // ---------------------------------------------------------------------------
  // get_readyz

  /** Readiness: 503 only for the insufficient-data sentinel; an exception escapes as a 500. */
  function ReadyCode(r: Fetched): int
  {
    match r
    case Raised => 500
    case Value(t) => if t == Insufficient then 503 else 200
  }

  lemma ReadyCodeCases(t: real)
    ensures ReadyCode(Value(t)) == 503 <==> t == Insufficient
    ensures ReadyCode(Value(t)) != 503 ==> ReadyCode(Value(t)) == 200
    ensures ReadyCode(Value(NoData)) == 200
  {
  }

  method GetReadyz(cache: Cache.ValkeyCache, fetched: Fetched, readError: bool, writeError: bool, stamp: string)
    returns (code: int)
    modifies cache
    ensures var (r, after) := ReadThrough(old(cache.client), fetched, readError, writeError, stamp);
            cache.client == after && code == ReadyCode(r)
    ensures old(SentinelFree(cache.client)) ==> SentinelFree(cache.client)
  {
    var ready := GetTemperatureWithCache(cache, fetched, readError, writeError, stamp);
    if ready.Raised? {
      return 500;
    }
    if ready.t == Insufficient {
      return 503;
    }
    code := 200;
  }

  // ---------------------------------------------------------------------------
  // get_store_status

  /** The fields of the `/store/status` body that depend on the temperature and the two stores. */
  datatype StoreStatusInfo = StoreStatusInfo(temperatureService: string, minioStorage: string, valkeyCache: bool,
                                             currentTemperature: Option<real>, dataQuality: string)

  function StoreStatusOf(t: real, minioAvailable: bool, valkeyAvailable: bool): StoreStatusInfo
  {
    var quality := if t == NoData then "fallback" else "normal";
    StoreStatusInfo(
      if t != Insufficient then "available" else "unavailable",
      if minioAvailable then "available" else "unavailable",
      valkeyAvailable,
      if t != Insufficient then Some(t) else None,
      if t == Insufficient then "unavailable" else quality)
  }

  /** Data quality is "unavailable" for 503, "fallback" for 0.0 and "normal" otherwise; 503 hides the value. */
  lemma StoreStatusCases(t: real, minioAvailable: bool, valkeyAvailable: bool)
    ensures var info := StoreStatusOf(t, minioAvailable, valkeyAvailable);
            (info.dataQuality == "unavailable" <==> t == Insufficient)
            && (info.dataQuality == "fallback" <==> t == NoData)
            && (info.dataQuality == "normal" <==> Cacheable(t))
            && (info.currentTemperature.None? <==> t == Insufficient)
            && (info.currentTemperature.Some? ==> info.currentTemperature.value == t)
            && (info.temperatureService == "available" <==> t != Insufficient)
  {
  }

  /**
   * get_store_status: `bucketExists` is what bucket_exists returned, or None
   * when it raised; the answer None stands for the 500 of an exception.
   */
  method GetStoreStatus(cache: Cache.ValkeyCache, fetched: Fetched, readError: bool, writeError: bool, stamp: string,
                        bucketExists: Option<bool>, info: Cache.InfoReply) returns (reply: Option<StoreStatusInfo>)
    modifies cache
    ensures var (r, after) := ReadThrough(old(cache.client), fetched, readError, writeError, stamp);
            cache.client == after
            && reply == (if r.Raised? then None
                         else Some(StoreStatusOf(r.t, bucketExists == Some(true), after.Some? && info.Info?)))
    ensures old(SentinelFree(cache.client)) ==> SentinelFree(cache.client)
  {
    var temperatureData := GetTemperatureWithCache(cache, fetched, readError, writeError, stamp);
    if temperatureData.Raised? {
      return None;
    }
    var minioAvailable := false;
    if bucketExists.Some? {
      minioAvailable := bucketExists.value;
    }
    var cacheStatus := cache.GetStorageStatus(info);
    reply := Some(StoreStatusOf(temperatureData.t, minioAvailable, cacheStatus.Available?));
  }

  // ---------------------------------------------------------------------------
  // trigger_immediate_store

  /** Storage type, sensor count and the quality label of the `/store` answer. */
  datatype Plan = Plan(storageType: string, sensorCount: int, quality: string)

  function ManualPlan(t: real): Plan
  {
    if t == NoData then Plan(Store.ManualFallback, 0, "low")
    else Plan(Store.Manual, ManualSensorCount, "normal")
  }

  /** The answers of `/store`. */
  datatype StoreReply =
    | StoreUnavailable                                            // 503
    | StoreSucceeded(temperature: real, sensorCount: int, storageType: string,
                     dataQuality: string, cacheUpdated: bool)       // 200
    | StoreFailed                                                 // 500, the put failed
    | StoreRaised                                                 // 500, an exception

  function StoreCode(reply: StoreReply): int
  {
    match reply
    case StoreUnavailable => 503
    case StoreSucceeded(_, _, _, _, _) => 200
    case StoreFailed => 500
    case StoreRaised => 500
  }

  /**
   * What `/store` does, bypassing the cache: the answer, the new client state
   * and the new bucket contents.
   */
  function ManualStore(client: Option<Cache.KeyValues>, objects: map<string, Store.Record>, fetched: Fetched,
                       putFails: bool, writeError: bool, cacheStamp: string, isoNow: string, fileStamp: string)
    : (StoreReply, Option<Cache.KeyValues>, map<string, Store.Record>)
  {
    match fetched
    case Raised => (StoreRaised, client, objects)
    case Value(t) =>
      if t == Insufficient then (StoreUnavailable, client, objects)
      else
        var plan := ManualPlan(t);
        if putFails then (StoreFailed, client, objects)
        else
          var name := Store.ObjectName(plan.storageType, fileStamp);
          var stored := objects[name := Store.MakeRecord(isoNow, t, plan.sensorCount, plan.storageType)];
          var cached := if t != NoData then Cache.Write(client, t, CacheTtl, cacheStamp, writeError).0 else client;
          (StoreSucceeded(t, plan.sensorCount, plan.storageType, plan.quality, true), cached, stored)
  }

  /** 503 stores nothing and caches nothing; otherwise the answer is 200 exactly when the put succeeded. */
  lemma ManualStoreOutcome(client: Option<Cache.KeyValues>, objects: map<string, Store.Record>, t: real,
                           putFails: bool, writeError: bool, cacheStamp: string, isoNow: string, fileStamp: string)
    ensures ManualStore(client, objects, Value(Insufficient), putFails, writeError, cacheStamp, isoNow, fileStamp)
            == (StoreUnavailable, client, objects)
    ensures t != Insufficient ==>
            var (reply, _, stored) := ManualStore(client, objects, Value(t), putFails, writeError, cacheStamp, isoNow, fileStamp);
            (StoreCode(reply) == 200 <==> !putFails)
            && (StoreCode(reply) != 200 ==> StoreCode(reply) == 500 && stored == objects)
  {
  }

  /** 0.0 is stored as ("manual_fallback", 0, "low"), anything else as ("manual", 6, "normal"). */
  lemma ManualPlanCases(t: real)
    ensures t == NoData ==> ManualPlan(t) == Plan("manual_fallback", 0, "low")
    ensures t != NoData ==> ManualPlan(t) == Plan("manual", 6, "normal")
  {
  }

  /**
   * The cache changes only after a successful store of a value other than 0.0;
   * such a store, with a client and no client error, leaves the value cached.
   */
  lemma ManualStoreCacheRule(client: Option<Cache.KeyValues>, objects: map<string, Store.Record>, fetched: Fetched,
                             putFails: bool, writeError: bool, cacheStamp: string, isoNow: string, fileStamp: string)
    ensures var (_, after, _) := ManualStore(client, objects, fetched, putFails, writeError, cacheStamp, isoNow, fileStamp);
            (after != client ==> !putFails && fetched.Value? && Cacheable(fetched.t))
            && (!putFails && fetched.Value? && Cacheable(fetched.t) && client.Some? && !writeError ==>
                  Cache.Read(after, false) == Some(fetched.t))
  {
  }

  /**
   * The stored record and the answer disagree: a normal value is recorded as
   * "high" quality from 6 sensors while the answer says "normal", and a 0.0
   * answer says the cache was updated although it was left alone.
   */
  lemma ManualStoreLabels(client: Option<Cache.KeyValues>, objects: map<string, Store.Record>, t: real,
                          writeError: bool, cacheStamp: string, isoNow: string, fileStamp: string)
    requires t != Insufficient
    ensures var (reply, after, stored) := ManualStore(client, objects, Value(t), false, writeError, cacheStamp, isoNow, fileStamp);
            var plan := ManualPlan(t);
            var name := Store.ObjectName(plan.storageType, fileStamp);
            name in stored
            && (t != NoData ==> stored[name].dataQuality == Store.High && reply.dataQuality == "normal"
                                && stored[name].source == "opensensemap")
            && (t == NoData ==> stored[name].dataQuality == Store.Low && stored[name].source == "fallback_api"
                                && reply.cacheUpdated && after == client)
  {
  }

  method TriggerImmediateStore(cache: Cache.ValkeyCache, storage: Store.MinIOStorage, fetched: Fetched,
                               putFails: bool, writeError: bool, cacheStamp: string, isoNow: string,
                               fileStamp: string) returns (reply: StoreReply)
    modifies cache, storage
    ensures (reply, cache.client, storage.objects)
            == ManualStore(old(cache.client), old(storage.objects), fetched, putFails, writeError, cacheStamp, isoNow, fileStamp)
    ensures old(SentinelFree(cache.client)) ==> SentinelFree(cache.client)
  {
    if fetched.Raised? {
      return StoreRaised;
    }
    var temperatureData := fetched.t;
    if temperatureData == Insufficient {
      return StoreUnavailable;
    }
    var storageType, sensorCount, dataQuality;
    if temperatureData == NoData {
      storageType, sensorCount, dataQuality := Store.ManualFallback, 0, "low";
    } else {
      storageType, sensorCount, dataQuality := Store.Manual, ManualSensorCount, "normal";
    }
    var success := storage.StoreTemperatureData(temperatureData, sensorCount, storageType, isoNow, fileStamp, putFails);
    if success && temperatureData != NoData {
      var written := cache.SetTemperature(temperatureData, CacheTtl, cacheStamp, writeError);
    }
    if success {
      return StoreSucceeded(temperatureData, sensorCount, storageType, dataQuality, true);
    }
    reply := StoreFailed;
  }

  // ---------------------------------------------------------------------------
  // one iteration of scheduled_temperature_store

  datatype Placement = Placement(storageType: string, sensorCount: int)

  /** 503 is not stored; 0.0 is stored as ("scheduled_fallback", 0); anything else as ("scheduled", 5). */
  function ScheduledPlacement(t: real): Option<Placement>
  {
    if t == Insufficient then None
    else if t == NoData then Some(Placement(Store.ScheduledFallback, 0))
    else Some(Placement(Store.Scheduled, ScheduledSensorCount))
  }

  /** One pass of the loop: the new client state and the new bucket contents. */
  function ScheduledStore(client: Option<Cache.KeyValues>, objects: map<string, Store.Record>, fetched: Fetched,
                          readError: bool, writeError: bool, cacheStamp: string, isoNow: string, fileStamp: string,
                          putFails: bool): (Option<Cache.KeyValues>, map<string, Store.Record>)
  {
    var (r, after) := ReadThrough(client, fetched, readError, writeError, cacheStamp);
    if r.Raised? || ScheduledPlacement(r.t).None? || putFails then (after, objects)
    else
      var p := ScheduledPlacement(r.t).value;
      (after, objects[Store.ObjectName(p.storageType, fileStamp) := Store.MakeRecord(isoNow, r.t, p.sensorCount, p.storageType)])
  }

  /**
   * A pass stores nothing on 503 or an exception; a 0.0 is stored as a
   * "scheduled_fallback" record from 0 sensors, of low quality, tagged
   * "opensensemap"; any other value as a "scheduled" record from 5 sensors,
   * of high quality.
   */
  lemma ScheduledStoreCases(client: Option<Cache.KeyValues>, objects: map<string, Store.Record>, fetched: Fetched,
                            readError: bool, writeError: bool, cacheStamp: string, isoNow: string, fileStamp: string)
    ensures var (r, _) := ReadThrough(client, fetched, readError, writeError, cacheStamp);
            var (_, stored) := ScheduledStore(client, objects, fetched, readError, writeError, cacheStamp, isoNow, fileStamp, false);
            (r.Raised? || r == Value(Insufficient) ==> stored == objects)
            && (r == Value(NoData) ==>
                  var name := Store.ObjectName("scheduled_fallback", fileStamp);
                  name in stored && stored[name].sensorCount == 0 && stored[name].dataQuality == Store.Low
                  && stored[name].source == "opensensemap")
            && (r.Value? && Cacheable(r.t) ==>
                  var name := Store.ObjectName("scheduled", fileStamp);
                  name in stored && stored[name].temperature == r.t && stored[name].sensorCount == 5
                  && stored[name].dataQuality == Store.High)
  {
  }

  method ScheduledStoreOnce(cache: Cache.ValkeyCache, storage: Store.MinIOStorage, fetched: Fetched,
                            readError: bool, writeError: bool, cacheStamp: string, isoNow: string,
                            fileStamp: string, putFails: bool)
    modifies cache, storage
    ensures (cache.client, storage.objects)
            == ScheduledStore(old(cache.client), old(storage.objects), fetched, readError, writeError, cacheStamp,
                              isoNow, fileStamp, putFails)
    ensures old(SentinelFree(cache.client)) ==> SentinelFree(cache.client)
  {
    var temperatureData := GetTemperatureWithCache(cache, fetched, readError, writeError, cacheStamp);
    if temperatureData.Raised? {
      return;
    }
    if temperatureData.t != Insufficient {
      var storageType, sensorCount;
      if temperatureData.t == NoData {
        storageType, sensorCount := Store.ScheduledFallback, 0;
      } else {
        storageType, sensorCount := Store.Scheduled, ScheduledSensorCount;
      }
      var success := storage.StoreTemperatureData(temperatureData.t, sensorCount, storageType, isoNow, fileStamp,
                                                  putFails);
    }
  }
}
