/**
 * The Valkey wrapper of scr/endpoints/cache.py. The Valkey client is an
 * optional key-value store (`None` when the connection failed at start-up);
 * whether a client call raises a ValkeyError is a parameter of each call.
 * JSON encoding is abstract: an entry is the record the source serialises.
 */
module Cache {
  import opened Wrappers

  /** The one key the wrapper reads and writes. */
  const CacheKey: string := "temperature:current"

  /** The default time to live of an entry, in seconds. */
  const DefaultTtl: int := 300

  const CacheSource: string := "valkey_cache"

  /** What set_temperature stores: the temperature, a timestamp, the source tag, and the TTL it was given. */
  datatype Entry = Entry(temperature: real, timestamp: string, source: string, ttl: int)

  type KeyValues = map<string, Entry>

  /**
   * What get_temperature returns for a client state: nothing without a
   * client or on a client error, the stored temperature under CacheKey, and
   * nothing when the key is missing (or has expired).
   */
  function Read(client: Option<KeyValues>, clientError: bool): Option<real>
  {
    if client.None? || clientError then None
    else if CacheKey in client.value then Some(client.value[CacheKey].temperature)
    else None
  }

  /** What set_temperature does to a client state, and what it returns. */
  function Write(client: Option<KeyValues>, temperature: real, ttl: int, stamp: string, clientError: bool): (Option<KeyValues>, bool)
  {
    if client.None? || clientError then (client, false)
    else (Some(client.value[CacheKey := Entry(temperature, stamp, CacheSource, ttl)]), true)
  }

  /** A successful write is read back, with nothing expiring in between. */
  lemma WriteThenRead(client: Option<KeyValues>, temperature: real, ttl: int, stamp: string, clientError: bool)
    ensures Write(client, temperature, ttl, stamp, clientError).1 <==> client.Some? && !clientError
    ensures Write(client, temperature, ttl, stamp, clientError).1 ==>
            Read(Write(client, temperature, ttl, stamp, clientError).0, false) == Some(temperature)
  {
  }

  /** A write touches CacheKey only, and a failed write touches nothing. */
  lemma WriteFrame(client: Option<KeyValues>, temperature: real, ttl: int, stamp: string, clientError: bool)
    ensures var (after, ok) := Write(client, temperature, ttl, stamp, clientError);
            (!ok ==> after == client)
            && (ok ==> after.Some? && after.value.Keys == client.value.Keys + {CacheKey}
                       && forall k :: k in client.value && k != CacheKey ==> after.value[k] == client.value[k])
  {
  }

  /** Without a client nothing is read and nothing is written; errors and a missing key become None and false. */
  lemma NoClientOrError(store: KeyValues, temperature: real, ttl: int, stamp: string, clientError: bool)
    ensures Read(None, clientError) == None
    ensures Write(None, temperature, ttl, stamp, clientError) == (None, false)
    ensures Read(Some(store), true) == None
    ensures CacheKey !in store ==> Read(Some(store), false) == None
    ensures Write(Some(store), temperature, ttl, stamp, true) == (Some(store), false)
  {
  }

  /** `_calculate_hit_rate`, before rounding: hits as a percentage of all lookups, 0 when there were none. */
  function HitRate(hits: nat, misses: nat): (rate: real)
    ensures 0.0 <= rate <= 100.0
    ensures hits + misses == 0 ==> rate == 0.0
    ensures hits + misses > 0 ==> rate * (hits + misses) as real == hits as real * 100.0
  {
    var total := hits + misses;
    if total > 0 then
      PercentageBounds(hits as real, total as real);
      hits as real / total as real * 100.0
    else 0.0
  }

  lemma PercentageBounds(part: real, whole: real)
    requires 0.0 <= part <= whole && whole > 0.0
    ensures 0.0 <= part / whole * 100.0 <= 100.0
    ensures part / whole * 100.0 * whole == part * 100.0
  {
  }

  /** The rate is 100 exactly when every lookup hit, and 0 exactly when none did. */
  lemma HitRateExtremes(hits: nat, misses: nat)
    ensures HitRate(hits, misses) == 100.0 <==> hits > 0 && misses == 0
    ensures HitRate(hits, misses) == 0.0 <==> hits == 0
  {
    var total := (hits + misses) as real;
    if hits + misses > 0 {
      var rate := HitRate(hits, misses);
      assert rate * total == hits as real * 100.0;
      if rate == 100.0 {
        assert 100.0 * total == hits as real * 100.0;
      }
    }
  }

  /** The answer of `info()`: the keyspace counters, or a ValkeyError message. */
  datatype InfoReply = Info(hits: nat, misses: nat) | InfoFailed(message: string)

  /** The part of get_storage_status the service reads: availability, and the hit rate when available. */
  datatype StorageStatus = Unavailable(error: string) | Available(hits: nat, misses: nat, hitRate: real)

  class ValkeyCache {
    var client: Option<KeyValues>

    constructor (client: Option<KeyValues>)
      ensures this.client == client
    {
      this.client := client;
    }

    method GetTemperature(clientError: bool) returns (t: Option<real>)
      ensures t == Read(client, clientError)
    {
      if client.None? {
        return None;
      }
      if clientError {
        return None;
      }
      var store := client.value;
      if CacheKey in store {
        t := Some(store[CacheKey].temperature);
      } else {
        t := None;
      }
    }

    method SetTemperature(temperature: real, ttl: int, stamp: string, clientError: bool) returns (ok: bool)
      modifies this
      ensures (client, ok) == Write(old(client), temperature, ttl, stamp, clientError)
    {
      if client.None? {
        return false;
      }
      if clientError {
        return false;
      }
      var entry := Entry(temperature, stamp, CacheSource, ttl);
      client := Some(client.value[CacheKey := entry]);
      ok := true;
    }

    method GetStorageStatus(info: InfoReply) returns (s: StorageStatus)
      ensures client.None? ==> s == Unavailable("Not connected")
      ensures client.Some? && info.InfoFailed? ==> s == Unavailable(info.message)
      ensures client.Some? && info.Info? ==> s == Available(info.hits, info.misses, HitRate(info.hits, info.misses))
      ensures s.Available? <==> client.Some? && info.Info?
    {
      if client.None? {
        return Unavailable("Not connected");
      }
      match info
      case InfoFailed(message) =>
        s := Unavailable(message);
      case Info(hits, misses) =>
        s := Available(hits, misses, HitRate(hits, misses));
    }
  }
}
