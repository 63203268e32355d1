/** `ApphudDataActor`: the single owner of the SDK's cached state. The actor
    runs one call at a time, so it is modelled as an object whose methods are
    called one after another. `UserDefaults.standard` and the caches
    directory are maps held by the object; the clock is the `now` argument
    of every call that reads or writes a creation date. */
module DataActor {
  import opened Wrappers
  import opened Json
  import opened FileCache
  import opened PendingProperties

  /** `ApphudProductType`, the closed set of product types the actor knows. */
  datatype ProductType = Consumable | NonConsumable | AutoRenewable | NonRenewable

  /** The `String` raw value of a product type (its case name); each of the
      four strings belongs to one type only. */
  function ProductTypeRawValue(t: ProductType): (s: string)
    ensures s == "consumable" <==> t == Consumable
    ensures s == "nonConsumable" <==> t == NonConsumable
    ensures s == "autoRenewable" <==> t == AutoRenewable
    ensures s == "nonRenewable" <==> t == NonRenewable
  {
    match t
    case Consumable => "consumable"
    case NonConsumable => "nonConsumable"
    case AutoRenewable => "autoRenewable"
    case NonRenewable => "nonRenewable"
  }

  /** The `switch` of `knownProductType(for:)`: a stored string names a type
      exactly when it is one of the four raw values. */
  function ProductTypeFromRaw(s: string): (r: Option<ProductType>)
    ensures r.Some? ==> ProductTypeRawValue(r.value) == s
    ensures r.None? ==> forall t :: ProductTypeRawValue(t) != s
  {
    if s == ProductTypeRawValue(Consumable) then Some(Consumable)
    else if s == ProductTypeRawValue(NonConsumable) then Some(NonConsumable)
    else if s == ProductTypeRawValue(AutoRenewable) then Some(AutoRenewable)
    else if s == ProductTypeRawValue(NonRenewable) then Some(NonRenewable)
    else None
  }

  /** The raw values are distinct, so a stored raw value reads back as its type. */
  lemma ProductTypeRawValueRoundTrip(t: ProductType)
    ensures ProductTypeFromRaw(ProductTypeRawValue(t)) == Some(t)
  {
    assert ProductTypeRawValue(Consumable)[..2] == "co";
    assert ProductTypeRawValue(NonConsumable)[..4] == "nonC";
    assert ProductTypeRawValue(AutoRenewable)[..2] == "au";
    assert ProductTypeRawValue(NonRenewable)[..4] == "nonR";
  }

  /** `knownProductType(for:)` over the in-memory map: nil for an unknown
      product id and for a stored string that names no type. */
  function ProductTypeFor(types: map<string, string>, productId: string): (r: Option<ProductType>)
    ensures r.Some? ==> productId in types && types[productId] == ProductTypeRawValue(r.value)
    ensures r.None? <==> productId !in types || forall t :: ProductTypeRawValue(t) != types[productId]
  {
    if productId in types then ProductTypeFromRaw(types[productId]) else None
  }

  /** Recording a type for one product makes it known and changes no other product. */
  lemma ProductTypeForAfterSet(types: map<string, string>, productId: string, t: ProductType, other: string)
    ensures ProductTypeFor(types[productId := ProductTypeRawValue(t)], productId) == Some(t)
    ensures other != productId ==>
      ProductTypeFor(types[productId := ProductTypeRawValue(t)], other) == ProductTypeFor(types, other)
  {
    ProductTypeRawValueRoundTrip(t);
  }

  /** A `UserDefaults` value: a dictionary of strings, or anything else. */
  datatype DefaultsValue = StringDictionary(entries: map<string, string>) | OtherValue

  type Defaults = map<string, DefaultsValue>

  /** `knownProductTypesKey`. */
  const KnownProductTypesKey: string := "ApphudKnownProductTypes"

  /** The cache file names of the three typed cached fields. Their strings are
      declared outside `ApphudDataActor.swift`; only their distinctness matters. */
  const SubmittedAFDataKey: string := "submittedAFDataKey"
  const SubmittedAdjustDataKey: string := "submittedAdjustDataKey"
  const UserPropertiesCacheKey: string := "ApphudUserPropertiesCacheKey"

  /** `defaults.dictionary(forKey: knownProductTypesKey) as? [String: String]`. */
  function SavedProductTypes(defaults: Defaults): (r: Option<map<string, string>>)
    ensures r.Some? <==> KnownProductTypesKey in defaults && defaults[KnownProductTypesKey].StringDictionary?
  {
    if KnownProductTypesKey in defaults && defaults[KnownProductTypesKey].StringDictionary? then
      Some(defaults[KnownProductTypesKey].entries)
    else
      None
  }

  class ApphudDataActor {
    /** The JSON serializer used for the cached fields. */
    const json: Serializer
    /** `UserDefaults.standard`. */
    var defaults: Defaults
    /** The files of the caches directory. */
    var files: CacheDirectory
    /** `_knownProductTypes`. */
    var knownProductTypes: map<string, string>
    /** `pendingUserProps`. */
    var pendingUserProps: seq<UserProperty>

    /** The persisted product-type map, once readable, equals the in-memory
        one; while it is not readable the in-memory map is empty. */
    ghost predicate Valid()
      reads this
    {
      && RoundTrips(json)
      && (SavedProductTypes(defaults).Some? ==> SavedProductTypes(defaults).value == knownProductTypes)
      && (SavedProductTypes(defaults).None? ==> knownProductTypes == map[])
    }

    /** `init()`: hydrates the known product types from `UserDefaults`, or
        starts empty if none are saved. */
    constructor (defaults: Defaults, files: CacheDirectory, json: Serializer)
      requires RoundTrips(json)
      ensures Valid()
      ensures this.defaults == defaults && this.files == files && this.json == json
      ensures knownProductTypes == SavedProductTypes(defaults).GetOr(map[])
      ensures pendingUserProps == []
    {
      this.json := json;
      this.defaults := defaults;
      this.files := files;
      knownProductTypes := SavedProductTypes(defaults).GetOr(map[]);
      pendingUserProps := [];
    }

    /** `knownProductType(for:)`. While the object is valid, a product with
        a known type is also recorded in the persisted map. */
    function KnownProductType(productId: string): (r: Option<ProductType>)
      reads this
      ensures r.Some? ==>
        productId in knownProductTypes && knownProductTypes[productId] == ProductTypeRawValue(r.value)
      ensures r.None? <==>
        productId !in knownProductTypes || forall t :: ProductTypeRawValue(t) != knownProductTypes[productId]
      ensures Valid() && r.Some? ==>
        SavedProductTypes(defaults).Some? && productId in SavedProductTypes(defaults).value
    {
      ProductTypeFor(knownProductTypes, productId)
    }

    /** `setProductType(_:for:)`. `converted` is the result of
        `ApphudProductType.from(type)`; nil leaves everything as it was. */
    method SetProductType(converted: Option<ProductType>, productId: string)
      requires Valid()
      modifies this
      ensures Valid()
      ensures converted.None? ==> knownProductTypes == old(knownProductTypes) && defaults == old(defaults)
      ensures converted.Some? ==>
        && knownProductTypes == old(knownProductTypes)[productId := ProductTypeRawValue(converted.value)]
        && defaults == old(defaults)[KnownProductTypesKey := StringDictionary(knownProductTypes)]
      ensures converted.Some? ==> KnownProductType(productId) == converted
      ensures forall other :: other != productId ==> KnownProductType(other) == old(KnownProductType(other))
      ensures SavedProductTypes(defaults) == if converted.Some? then Some(knownProductTypes) else old(SavedProductTypes(defaults))
      ensures files == old(files) && pendingUserProps == old(pendingUserProps)
    {
      if converted.Some? {
        ghost var before := knownProductTypes;
        knownProductTypes := knownProductTypes[productId := ProductTypeRawValue(converted.value)];
        defaults := defaults[KnownProductTypesKey := StringDictionary(knownProductTypes)];
        forall other | true
          ensures ProductTypeFor(knownProductTypes, productId) == converted
          ensures other != productId ==> ProductTypeFor(knownProductTypes, other) == ProductTypeFor(before, other)
        {
          ProductTypeForAfterSet(before, productId, converted.value, other);
        }
      }
    }

    /** `apphudDataToCache(data:key:)` at time `now`: the file is replaced,
        so its creation date becomes `now`. */
    method DataToCache(data: Bytes, key: string, now: int)
      requires Valid()
      modifies this
      ensures Valid()
      ensures files == old(files)[key := CacheFile(data, now)]
      ensures DataFromCache(files, key, CacheTimeout, now) == CacheRead(Some(data), false)
      ensures defaults == old(defaults) && knownProductTypes == old(knownProductTypes)
      ensures pendingUserProps == old(pendingUserProps)
    {
      files := files[key := CacheFile(data, now)];
    }

    /** `apphudDataClearCache(key:)`: deletes the file if it exists. */
    method DataClearCache(key: string)
      requires Valid()
      modifies this
      ensures Valid()
      ensures files == old(files) - {key}
      ensures key !in old(files) ==> files == old(files)
      ensures defaults == old(defaults) && knownProductTypes == old(knownProductTypes)
      ensures pendingUserProps == old(pendingUserProps)
    {
      if key in files {
        files := files - {key};
      }
    }

    /** The getter of `submittedAFData` at time `now`. */
    function SubmittedAFData(now: int): (r: Option<JsonObject>)
      reads this
      ensures r.Some? ==>
        && SubmittedAFDataKey in files
        && now - files[SubmittedAFDataKey].created <= CacheTimeout
        && json.decode(files[SubmittedAFDataKey].data) == Some(JObject(r.value))
      ensures SubmittedAFDataKey !in files ==> r.None?
      ensures SubmittedAFDataKey in files && now - files[SubmittedAFDataKey].created > CacheTimeout ==> r.None?
    {
      CachedObject(files, json, SubmittedAFDataKey, now)
    }

    /** The getter of `submittedAdjustData` at time `now`. */
    function SubmittedAdjustData(now: int): (r: Option<JsonObject>)
      reads this
      ensures r.Some? ==>
        && SubmittedAdjustDataKey in files
        && now - files[SubmittedAdjustDataKey].created <= CacheTimeout
        && json.decode(files[SubmittedAdjustDataKey].data) == Some(JObject(r.value))
      ensures SubmittedAdjustDataKey !in files ==> r.None?
      ensures SubmittedAdjustDataKey in files && now - files[SubmittedAdjustDataKey].created > CacheTimeout ==> r.None?
    {
      CachedObject(files, json, SubmittedAdjustDataKey, now)
    }

    /** The getter of `userPropertiesCache` at time `now`. */
    function UserPropertiesCache(now: int): (r: Option<seq<JsonObject>>)
      reads this
      ensures r.Some? ==>
        && UserPropertiesCacheKey in files
        && now - files[UserPropertiesCacheKey].created <= CacheTimeout
        && json.decode(files[UserPropertiesCacheKey].data) == Some(ObjectArray(r.value))
      ensures UserPropertiesCacheKey !in files ==> r.None?
      ensures UserPropertiesCacheKey in files && now - files[UserPropertiesCacheKey].created > CacheTimeout ==> r.None?
    {
      CachedObjectArray(files, json, UserPropertiesCacheKey, now)
    }

    /** `setAFData(_:)`, i.e. the setter of `submittedAFData`: a value that
        serializes is cached at time `now`; nil, or an encoding error the
        serializer throws, changes nothing. */
    method SetAFData(newValue: Option<JsonObject>, now: int)
      requires Valid()
      modifies this
      ensures Valid()
      ensures files ==
        if newValue.Some? && json.encode(JObject(newValue.value)).Some? then
          old(files)[SubmittedAFDataKey := CacheFile(json.encode(JObject(newValue.value)).value, now)]
        else old(files)
      ensures newValue.Some? && json.encode(JObject(newValue.value)).Some? ==>
        forall t :: t - now <= CacheTimeout ==> SubmittedAFData(t) == newValue
      ensures defaults == old(defaults) && knownProductTypes == old(knownProductTypes)
      ensures pendingUserProps == old(pendingUserProps)
    {
      if newValue.Some? {
        var data := json.encode(JObject(newValue.value));
        if data.Some? {
          DataToCache(data.value, SubmittedAFDataKey, now);
          forall t | t - now <= CacheTimeout ensures SubmittedAFData(t) == newValue {
            CachedObjectAfterWrite(old(files), json, SubmittedAFDataKey, newValue.value, now, t);
          }
        }
      }
    }

    /** `setAdjustData(_:)`, i.e. the setter of `submittedAdjustData`, which
        behaves as the AppsFlyer one on its own file. */
    method SetAdjustData(newValue: Option<JsonObject>, now: int)
      requires Valid()
      modifies this
      ensures Valid()
      ensures files ==
        if newValue.Some? && json.encode(JObject(newValue.value)).Some? then
          old(files)[SubmittedAdjustDataKey := CacheFile(json.encode(JObject(newValue.value)).value, now)]
        else old(files)
      ensures newValue.Some? && json.encode(JObject(newValue.value)).Some? ==>
        forall t :: t - now <= CacheTimeout ==> SubmittedAdjustData(t) == newValue
      ensures defaults == old(defaults) && knownProductTypes == old(knownProductTypes)
      ensures pendingUserProps == old(pendingUserProps)
    {
      if newValue.Some? {
        var data := json.encode(JObject(newValue.value));
        if data.Some? {
          DataToCache(data.value, SubmittedAdjustDataKey, now);
          forall t | t - now <= CacheTimeout ensures SubmittedAdjustData(t) == newValue {
            CachedObjectAfterWrite(old(files), json, SubmittedAdjustDataKey, newValue.value, now, t);
          }
        }
      }
    }

    /** `setUserPropertiesCache(_:)`, i.e. the setter of `userPropertiesCache`:
        a value that serializes is cached at time `now`, nil deletes the file,
        an encoding error the serializer throws changes nothing. */
    method SetUserPropertiesCache(newValue: Option<seq<JsonObject>>, now: int)
      requires Valid()
      modifies this
      ensures Valid()
      ensures files ==
        if newValue.None? then old(files) - {UserPropertiesCacheKey}
        else if json.encode(ObjectArray(newValue.value)).Some? then
          old(files)[UserPropertiesCacheKey := CacheFile(json.encode(ObjectArray(newValue.value)).value, now)]
        else old(files)
      ensures newValue.None? ==> forall t :: UserPropertiesCache(t) == None
      ensures newValue.Some? && json.encode(ObjectArray(newValue.value)).Some? ==>
        forall t :: t - now <= CacheTimeout ==> UserPropertiesCache(t) == newValue
      ensures defaults == old(defaults) && knownProductTypes == old(knownProductTypes)
      ensures pendingUserProps == old(pendingUserProps)
    {
      if newValue.Some? {
        var data := json.encode(ObjectArray(newValue.value));
        if data.Some? {
          DataToCache(data.value, UserPropertiesCacheKey, now);
          forall t | t - now <= CacheTimeout ensures UserPropertiesCache(t) == newValue {
            CachedObjectArrayAfterWrite(old(files), json, UserPropertiesCacheKey, newValue.value, now, t);
          }
        }
      } else {
        DataClearCache(UserPropertiesCacheKey);
      }
    }

    /** `clear()`: assigns nil to the three cached fields. Only the
        user-properties setter acts on nil, so only that file is deleted; the
        attribution data stay readable and the product types and pending
        properties are untouched. `clear()` takes no clock: `now` is only
        handed on to the three setters, and none of them reads it for nil. */
    method Clear(now: int)
      requires Valid()
      modifies this
      ensures Valid()
      ensures files == old(files) - {UserPropertiesCacheKey}
      ensures forall t :: UserPropertiesCache(t) == None
      ensures forall t :: SubmittedAFData(t) == old(SubmittedAFData(t))
      ensures forall t :: SubmittedAdjustData(t) == old(SubmittedAdjustData(t))
      ensures defaults == old(defaults) && knownProductTypes == old(knownProductTypes)
      ensures pendingUserProps == old(pendingUserProps)
    {
      SetAFData(None, now);
      SetAdjustData(None, now);
      SetUserPropertiesCache(None, now);
    }

    /** `addPendingUserProperty(_:)`: removes every pending entry with the
        same key, then appends the new one. */
    method AddPendingUserProperty(newValue: UserProperty)
      requires Valid()
      modifies this
      ensures Valid()
      ensures pendingUserProps == WithoutKey(old(pendingUserProps), newValue.key) + [newValue]
      ensures KeyCount(pendingUserProps, newValue.key) == 1
      ensures pendingUserProps[|pendingUserProps| - 1] == newValue
      ensures WithoutKey(pendingUserProps, newValue.key) == WithoutKey(old(pendingUserProps), newValue.key)
      ensures UniqueKeys(old(pendingUserProps)) ==> UniqueKeys(pendingUserProps)
      ensures defaults == old(defaults) && knownProductTypes == old(knownProductTypes)
      ensures files == old(files)
    {
      var props := pendingUserProps;
      var kept: seq<UserProperty> := [];
      var i := 0;
      while i < |props|
        invariant 0 <= i <= |props|
        invariant kept == WithoutKey(props[..i], newValue.key)
      {
        assert props[..i + 1][..i] == props[..i];
        assert WithoutKey(props[..i + 1], newValue.key)
            == kept + (if props[i].key == newValue.key then [] else [props[i]]);
        if props[i].key != newValue.key {
          kept := kept + [props[i]];
        }
        i := i + 1;
      }
      assert props[..i] == props;
      var added := kept + [newValue];
      assert KeyCount(added, newValue.key) == 1 by {
        AddLeavesOneEntryForKey(props, newValue);
      }
      assert WithoutKey(added, newValue.key) == WithoutKey(props, newValue.key) by {
        AddKeepsOtherEntriesInOrder(props, newValue);
      }
      assert UniqueKeys(props) ==> UniqueKeys(added) by {
        if UniqueKeys(props) {
          AddKeepsKeysUnique(props, newValue);
        }
      }
      pendingUserProps := added;
    }

    /** `setPendingUserProperties(_:)`: replaces the whole list. */
    method SetPendingUserProperties(newValue: seq<UserProperty>)
      requires Valid()
      modifies this
      ensures Valid()
      ensures pendingUserProps == newValue
      ensures defaults == old(defaults) && knownProductTypes == old(knownProductTypes)
      ensures files == old(files)
    {
      pendingUserProps := newValue;
    }
  }

  /** Fresh install, then restart: a product unknown at first, recorded as
      auto-renewable, is known as auto-renewable to an actor rebuilt from
      the same `UserDefaults` and caches directory. */
  method RestartRemembersProductType(defaults: Defaults, json: Serializer, productId: string)
    returns (before: Option<ProductType>, after: Option<ProductType>)
    requires RoundTrips(json)
    requires KnownProductTypesKey !in defaults
    ensures before == None
    ensures after == Some(AutoRenewable)
  {
    var actor := new ApphudDataActor(defaults, map[], json);
    before := actor.KnownProductType(productId);
    actor.SetProductType(Some(AutoRenewable), productId);
    var restarted := new ApphudDataActor(actor.defaults, actor.files, json);
    after := restarted.KnownProductType(productId);
  }
}
