/** The file-backed cache of `ApphudDataActor`: one file per key in the
    caches directory, whose creation date is the reference point of a
    time-to-live. The directory is a map from file name to contents and
    creation date; times are whole seconds. */
module FileCache {
  import opened Wrappers
  import opened Json

  /** `86_400*7`: the timeout, in seconds, of the three typed cached fields. */
  const CacheTimeout: int := 86_400 * 7

  /** A file in the caches directory. */
  datatype CacheFile = CacheFile(data: Bytes, created: int)

  type CacheDirectory = map<string, CacheFile>

  /** The `(objectsData, expired)` pair of `apphudDataFromCache`. */
  datatype CacheRead = CacheRead(objectsData: Option<Bytes>, expired: bool)

  /** `apphudDataFromCache(key:cacheTimeout:)` read at time `now`. */
  function DataFromCache(files: CacheDirectory, key: string, cacheTimeout: int, now: int): (r: CacheRead)
    ensures r.objectsData.Some? <==> key in files
    ensures r.objectsData.None? ==> r.expired
  {
    if key in files then
      CacheRead(Some(files[key].data), now - files[key].created > cacheTimeout)
    else
      CacheRead(None, true)
  }

  /** A present file is always returned, stale or not; it is expired exactly
      when it is strictly older than the timeout. A missing one reads as
      `(nil, true)`. */
  lemma DataFromCacheMeaning(files: CacheDirectory, key: string, cacheTimeout: int, now: int)
    ensures key !in files ==> DataFromCache(files, key, cacheTimeout, now) == CacheRead(None, true)
    ensures key in files ==>
      DataFromCache(files, key, cacheTimeout, now).objectsData == Some(files[key].data)
    ensures key in files ==>
      (DataFromCache(files, key, cacheTimeout, now).expired <==> now - files[key].created > cacheTimeout)
  {
  }

  /** After `apphudDataToCache(data, key)` at time `t`, a read within the
      timeout returns that data, fresh; a later read still returns it, expired. */
  lemma ReadAfterWrite(files: CacheDirectory, key: string, data: Bytes, t: int, cacheTimeout: int, now: int)
    ensures now - t <= cacheTimeout ==>
      DataFromCache(files[key := CacheFile(data, t)], key, cacheTimeout, now) == CacheRead(Some(data), false)
    ensures now - t > cacheTimeout ==>
      DataFromCache(files[key := CacheFile(data, t)], key, cacheTimeout, now) == CacheRead(Some(data), true)
  {
  }

  /** After `apphudDataClearCache(key)` the key reads as missing. */
  lemma ReadAfterClear(files: CacheDirectory, key: string, cacheTimeout: int, now: int)
    ensures DataFromCache(files - {key}, key, cacheTimeout, now) == CacheRead(None, true)
  {
  }

  /** Writing or deleting one file does not change what another key reads. */
  lemma OtherKeysUnaffected(files: CacheDirectory, key: string, other: string, f: CacheFile, cacheTimeout: int, now: int)
    requires other != key
    ensures DataFromCache(files[key := f], other, cacheTimeout, now) == DataFromCache(files, other, cacheTimeout, now)
    ensures DataFromCache(files - {key}, other, cacheTimeout, now) == DataFromCache(files, other, cacheTimeout, now)
  {
  }

  /** The getter of `submittedAFData` and `submittedAdjustData`: a present,
      unexpired file that decodes to a JSON object, else nil. */
  function CachedObject(files: CacheDirectory, json: Serializer, key: string, now: int): (r: Option<JsonObject>)
    ensures r.Some? <==>
      && key in files
      && now - files[key].created <= CacheTimeout
      && json.decode(files[key].data).Some?
      && json.decode(files[key].data).value.JObject?
    ensures r.Some? ==> json.decode(files[key].data) == Some(JObject(r.value))
  {
    var cache := DataFromCache(files, key, CacheTimeout, now);
    if cache.objectsData.Some? && !cache.expired then
      match json.decode(cache.objectsData.value)
      case Some(j) => AsObject(j)
      case None => None
    else
      None
  }

  /** The getter of `userPropertiesCache`: a present, unexpired file that
      decodes to an array of JSON objects, else nil. */
  function CachedObjectArray(files: CacheDirectory, json: Serializer, key: string, now: int): (r: Option<seq<JsonObject>>)
    ensures r.Some? <==>
      && key in files
      && now - files[key].created <= CacheTimeout
      && json.decode(files[key].data).Some?
      && AsObjectArray(json.decode(files[key].data).value).Some?
    ensures r.Some? ==> json.decode(files[key].data) == Some(ObjectArray(r.value))
  {
    var cache := DataFromCache(files, key, CacheTimeout, now);
    if cache.objectsData.Some? && !cache.expired then
      match json.decode(cache.objectsData.value)
      case Some(j) => AsObjectArray(j)
      case None => None
    else
      None
  }

  /** An object stored at time `t` reads back unchanged for seven days. */
  lemma CachedObjectAfterWrite(files: CacheDirectory, json: Serializer, key: string, m: JsonObject, t: int, now: int)
    requires RoundTrips(json)
    requires json.encode(JObject(m)).Some?
    requires now - t <= CacheTimeout
    ensures CachedObject(files[key := CacheFile(json.encode(JObject(m)).value, t)], json, key, now) == Some(m)
  {
    assert json.decode(json.encode(JObject(m)).value) == Some(JObject(m));
  }

  /** An array of objects stored at time `t` reads back unchanged for seven days. */
  lemma CachedObjectArrayAfterWrite(files: CacheDirectory, json: Serializer, key: string, l: seq<JsonObject>, t: int, now: int)
    requires RoundTrips(json)
    requires json.encode(ObjectArray(l)).Some?
    requires now - t <= CacheTimeout
    ensures CachedObjectArray(files[key := CacheFile(json.encode(ObjectArray(l)).value, t)], json, key, now) == Some(l)
  {
    assert json.decode(json.encode(ObjectArray(l)).value) == Some(ObjectArray(l));
    AsObjectArrayOfObjectArray(l);
  }

  /** Past the seven days both getters give nil, although the file is still there. */
  lemma ExpiredReadsAsNil(files: CacheDirectory, json: Serializer, key: string, now: int)
    requires key in files && now - files[key].created > CacheTimeout
    ensures CachedObject(files, json, key, now) == None
    ensures CachedObjectArray(files, json, key, now) == None
    ensures DataFromCache(files, key, CacheTimeout, now).objectsData == Some(files[key].data)
  {
  }
}
