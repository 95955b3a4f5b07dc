/**
 * The MinIO writer of scr/endpoints/store.py. The bucket is a map from object
 * name to the record stored under it (a second put under the same name
 * replaces the first); whether `put_object` raises is a parameter. The two
 * clock reads of store_temperature_data (the ISO timestamp in the record and
 * the compact one in the object name) are parameters too.
 */
module Store {
  import opened Wrappers

  const BucketName: string := "temperature-data"

  const Manual: string := "manual"
  const Scheduled: string := "scheduled"
  const ManualFallback: string := "manual_fallback"
  const ScheduledFallback: string := "scheduled_fallback"

  datatype Quality = High | Medium | Low

  function QualityText(q: Quality): string
  {
    match q
    case High => "high"
    case Medium => "medium"
    case Low => "low"
  }

  /** The stored JSON document. */
  datatype Record = Record(timestamp: string, temperature: real, sensorCount: int, storageType: string,
                           dataQuality: Quality, source: string)

  /** Data quality from the number of sensors the value came from. */
  function DataQuality(sensorCount: int): Quality
  {
    if sensorCount > 3 then High
    else if sensorCount > 0 then Medium
    else Low
  }

  function Rank(q: Quality): nat
  {
    match q
    case Low => 0
    case Medium => 1
    case High => 2
  }

  /** High above 3 sensors, medium for 1 to 3, low for none (or a negative count). */
  lemma DataQualityBands(sensorCount: int)
    ensures DataQuality(sensorCount) == High <==> sensorCount > 3
    ensures DataQuality(sensorCount) == Medium <==> 0 < sensorCount <= 3
    ensures DataQuality(sensorCount) == Low <==> sensorCount <= 0
    ensures QualityText(DataQuality(sensorCount)) == (if sensorCount > 3 then "high" else if sensorCount > 0 then "medium" else "low")
  {
  }

  /** More sensors never lower the quality. */
  lemma DataQualityMonotone(c1: int, c2: int)
    requires c1 <= c2
    ensures Rank(DataQuality(c1)) <= Rank(DataQuality(c2))
  {
  }

  /** The source tag: only "manual_fallback" records are tagged as coming from the fallback API. */
  function SourceTag(storageType: string): string
  {
    if storageType != ManualFallback then "opensensemap" else "fallback_api"
  }

  lemma SourceTagCases(storageType: string)
    ensures SourceTag(storageType) == "fallback_api" <==> storageType == ManualFallback
    ensures SourceTag(storageType) != "fallback_api" ==> SourceTag(storageType) == "opensensemap"
    ensures SourceTag(ScheduledFallback) == "opensensemap"
  {
  }

  /** The object name `{storage_type}-{timestamp}.json`. */
  function ObjectName(storageType: string, stamp: string): (name: string)
    ensures |name| == |storageType| + |stamp| + 6
    ensures name[..|storageType|] == storageType && name[|storageType|] == '-'
    ensures name[|storageType| + 1..|name| - 5] == stamp
    ensures name[|name| - 5..] == ".json"
  {
    storageType + "-" + stamp + ".json"
  }

  /** The record store_temperature_data builds; the given values are carried unchanged. */
  function MakeRecord(timestamp: string, temperature: real, sensorCount: int, storageType: string): (r: Record)
    ensures r.timestamp == timestamp && r.temperature == temperature
    ensures r.sensorCount == sensorCount && r.storageType == storageType
    ensures r.dataQuality == DataQuality(sensorCount) && r.source == SourceTag(storageType)
  {
    Record(timestamp, temperature, sensorCount, storageType, DataQuality(sensorCount), SourceTag(storageType))
  }

  /** The position of the first '-' in `s`, or |s| when there is none. */
  function FirstDash(s: string): (i: nat)
    ensures i <= |s|
    ensures i < |s| ==> s[i] == '-'
    ensures forall k :: 0 <= k < i ==> s[k] != '-'
    decreases |s|
  {
    if s == [] then 0
    else if s[0] == '-' then 0
    else 1 + FirstDash(s[1..])
  }

  /** Reads an object name back into its storage type and timestamp. */
  function SplitObjectName(name: string): Option<(string, string)>
  {
    if |name| < 5 || name[|name| - 5..] != ".json" then None
    else
      var stem := name[..|name| - 5];
      var i := FirstDash(stem);
      if i == |stem| then None else Some((stem[..i], stem[i + 1..]))
  }

  /** None of the four storage types the service uses contains a '-'. */
  predicate DashFree(s: string)
  {
    forall k :: 0 <= k < |s| ==> s[k] != '-'
  }

  /** The object name determines storage type and timestamp, for a storage type without '-'. */
  lemma ObjectNameRoundTrip(storageType: string, stamp: string)
    requires DashFree(storageType)
    ensures SplitObjectName(ObjectName(storageType, stamp)) == Some((storageType, stamp))
  {
    var name := ObjectName(storageType, stamp);
    var stem := storageType + "-" + stamp;
    assert name == stem + ".json";
    assert name[..|name| - 5] == stem;
    var i := FirstDash(stem);
    assert stem[|storageType|] == '-';
    assert i == |storageType|;
    assert stem[..i] == storageType;
    assert stem[i + 1..] == stamp;
  }

  lemma StorageTypesDashFree()
    ensures DashFree(Manual) && DashFree(Scheduled) && DashFree(ManualFallback) && DashFree(ScheduledFallback)
  {
  }

  /** Every object the service writes names its storage type and timestamp recoverably. */
  lemma StoredNamesRoundTrip(storageType: string, stamp: string)
    requires storageType in {Manual, Scheduled, ManualFallback, ScheduledFallback}
    ensures SplitObjectName(ObjectName(storageType, stamp)) == Some((storageType, stamp))
  {
    StorageTypesDashFree();
    ObjectNameRoundTrip(storageType, stamp);
  }

  class MinIOStorage {
    const bucketName: string
    var objects: map<string, Record>

    /** The client bound to bucket "temperature-data", holding whatever the bucket already held. */
    constructor (existing: map<string, Record>)
      ensures bucketName == BucketName && objects == existing
    {
      bucketName := BucketName;
      objects := existing;
    }

    /**
     * store_temperature_data: builds the record and its name and puts it into
     * the bucket; a failing put is reported as false and leaves the bucket as
     * it was.
     */
    method StoreTemperatureData(temperature: real, sensorCount: int, storageType: string,
                                isoNow: string, fileStamp: string, putFails: bool) returns (success: bool)
      modifies this
      ensures success == !putFails
      ensures success ==> objects == old(objects)[ObjectName(storageType, fileStamp) :=
                                                  MakeRecord(isoNow, temperature, sensorCount, storageType)]
      ensures !success ==> objects == old(objects)
    {
      var quality := if sensorCount > 3 then High else if sensorCount > 0 then Medium else Low;
      var source := if storageType != ManualFallback then "opensensemap" else "fallback_api";
      var data := Record(isoNow, temperature, sensorCount, storageType, quality, source);
      var filename := storageType + "-" + fileStamp + ".json";
      if putFails {
        return false;
      }
      objects := objects[filename := data];
      success := true;
    }
  }
}
