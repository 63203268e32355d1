# Apphud SDK state core, modelled in Dafny

This project models three parts of the Apphud iOS SDK.

- **`ApphudDataActor`** owns the SDK's cached state. It keeps:
  - a map from product id to product-type string. The map is loaded from `UserDefaults` once, at construction, and every update is written back to it.
  - an ordered list of pending user properties. Adding a property first removes any entry with the same key, then appends the new one.
  - a file cache in the caches directory. Each file is read together with an `expired` flag, computed from its creation date and a timeout.
  - three typed cached fields: AppsFlyer data, Adjust data and the user-properties snapshot. Each is stored as JSON with a 7-day timeout.
- **`ApphudNonRenewingPurchase`** is a purchase record. The model covers its JSON decoding and encoding, the refund rule of `isActive`, the memo of `isConsumablePurchase` and the `stateDescription` fingerprint.
- **`ApphudEnums`** holds the attribution providers and their wire strings, and the purchase kind, environment and coding-key raw values.

The actor runs one call at a time. It is therefore modelled as a class (`DataActor.ApphudDataActor`) whose methods are called one after another. Its fields are:

- `defaults`, a map standing for `UserDefaults.standard`;
- `files`, a map from file name to contents and creation date, standing for the caches directory;
- the in-memory product-type map;
- the pending list.

Time is whole seconds, passed as `now` to every operation that reads the clock. `JSONSerialization` is an abstract `Serializer`, a pair of functions that may fail. The model assumes only that the decoder reads back whatever the encoder writes. The ISO-8601 date conversions are another abstract pair, with the same assumption.

Modules: `Wrappers` (Option, Result), `Json` (JSON values, the serializer and the two casts the getters make), `Enums`, `FileCache` (the cache files and the typed getters), `PendingProperties` (the pending list), `DataActor` (the actor class), and `NonRenewingPurchases`.

Two behaviours of the code are worth stating outright:

- **`clear()` deletes only the user-properties file.** `clear()` assigns nil to all three cached fields, but the setters of `submittedAFData` and `submittedAdjustData` ignore nil. So `Clear` leaves both attribution entries readable. Its contract and the `SetAFData` and `SetAdjustData` contracts say so.
- **A record without `startedAt` fails to decode.** `startedAt` is decoded with `try`, so a record without it fails to decode. Only a `startedAt` that is present but does not parse as a date falls back to `now`.

## Model

| member | source | states |
|---|---|---|
| `Enums.RawValue` | Sources/Public/ApphudEnums.swift:22-38 | each provider's Int raw value is at most 10 and is its index in the declaration-order list |
| `Enums.FromRawValue` | Sources/Public/ApphudEnums.swift:22-38 | an Int raw value names a provider exactly when it lies in 0...10, and that provider's raw value is the Int |
| `Enums.RawValuesInDeclarationOrder` | Sources/Public/ApphudEnums.swift:22-38 | there are 11 providers with raw values 0..10 in declaration order, and raw value then back gives the same provider |
| `Enums.ToString` | Sources/Public/ApphudEnums.swift:40-63 | no declared provider's string is "Unavailable" |
| `Enums.RawToString` | Sources/Public/ApphudEnums.swift:40-66 | for any Int raw value, the result is "Unavailable" exactly when no case declares that value; otherwise it is the case's string |
| `Enums.ToStringInjective` | Sources/Public/ApphudEnums.swift:40-63 | distinct providers give distinct strings |
| `Enums.KindRawValue` | Sources/Public/ApphudEnums.swift:74-77 | the raw value of each kind is its case name, and "autorenewable" and "nonrenewable" each belong to one kind only |
| `Enums.EnvironmentRawValue` | Sources/Public/ApphudEnums.swift:79-82 | the raw value of each environment is its case name, and "sandbox" and "production" each belong to one environment only |
| `Enums.KeyName` | Sources/Public/ApphudEnums.swift:70-72 | the JSON name of a coding key is read back to that key by `init?(stringValue:)` |
| `Enums.KeyNamesDistinct` | Sources/Public/ApphudEnums.swift:70-72 | distinct coding keys have distinct JSON names |
| `Enums.RawValuesDistinct` | Sources/Public/ApphudEnums.swift:74-82 | "autorenewable" and "nonrenewable" are distinct, and "sandbox" and "production" are distinct, so each string identifies its case |
| `Json.AsObject` | Sources/Internal/ApphudDataActor.swift:91 | the cast to `[String: any Sendable]` succeeds exactly on JSON objects and returns the object's fields |
| `Json.AsObjectArray` | Sources/Internal/ApphudDataActor.swift:125 | the cast to `[[String: Any?]]` succeeds exactly on arrays whose elements are all objects |
| `Json.AsObjectArrayOfObjectArray` | Sources/Internal/ApphudDataActor.swift:121-137 | the JSON of an array of objects casts back to the same array |
| `FileCache.DataFromCache` | Sources/Internal/ApphudDataActor.swift:159-171 | data is returned exactly when the file exists; a missing file is always reported expired |
| `FileCache.DataFromCacheMeaning` | Sources/Internal/ApphudDataActor.swift:159-171 | a missing file reads `(nil, true)`; a present file always returns its data, even when stale; `expired` holds iff `now - creation > timeout`, strictly |
| `FileCache.ReadAfterWrite` | Sources/Internal/ApphudDataActor.swift:149-157 | after writing `d` at time t, a read within the timeout gives `(d, false)` and a later read gives `(d, true)` |
| `FileCache.ReadAfterClear` | Sources/Internal/ApphudDataActor.swift:140-147 | after the file is cleared, a read gives `(nil, true)` |
| `FileCache.OtherKeysUnaffected` | Sources/Internal/ApphudDataActor.swift:140-157 | writing or clearing one key does not change what any other key reads |
| `FileCache.CachedObject` | Sources/Internal/ApphudDataActor.swift:87-96 | the AppsFlyer/Adjust getter returns a value iff the file exists, is at most 7 days old and decodes to a JSON object; that object is the value |
| `FileCache.CachedObjectArray` | Sources/Internal/ApphudDataActor.swift:121-130 | the user-properties getter returns a value iff the file exists, is at most 7 days old and decodes to an array of objects; that array is the value |
| `FileCache.CachedObjectAfterWrite` | Sources/Internal/ApphudDataActor.swift:87-101 | an object that serializes and is written at time t reads back unchanged at every time up to 7 days later |
| `FileCache.CachedObjectArrayAfterWrite` | Sources/Internal/ApphudDataActor.swift:121-137 | an array of objects that serializes and is written at time t reads back unchanged up to 7 days later |
| `FileCache.ExpiredReadsAsNil` | Sources/Internal/ApphudDataActor.swift:87-130 | a file older than 7 days makes both getters return nil, although its data is still there to read |
| `PendingProperties.WithoutKey` | Sources/Internal/ApphudDataActor.swift:79 | after `removeAll` no entry carries the key, and the list never grows |
| `PendingProperties.WithoutKeyMembers` | Sources/Internal/ApphudDataActor.swift:79 | an entry survives `removeAll` if and only if it was there and its key differs |
| `PendingProperties.KeyCountWithoutKey` | Sources/Internal/ApphudDataActor.swift:79 | after removing a key, no entry has it, and every other key occurs as often as before |
| `PendingProperties.WithoutKeyIdempotent` | Sources/Internal/ApphudDataActor.swift:79 | removing the same key a second time changes nothing |
| `PendingProperties.AddLeavesOneEntryForKey` | Sources/Internal/ApphudDataActor.swift:78-81 | after an add, exactly one entry has the added key, and that entry is the added property, last |
| `PendingProperties.AddKeepsOtherEntriesInOrder` | Sources/Internal/ApphudDataActor.swift:78-81 | the entries with other keys are kept with their values and relative order, and none is lost |
| `PendingProperties.AddKeepsKeysUnique` | Sources/Internal/ApphudDataActor.swift:78-81 | a list with no repeated key still has none after an add |
| `PendingProperties.UpdateMovesKeyToEnd` | Sources/Internal/ApphudDataActor.swift:78-81 | adding a new `a` to `[a, b]` gives `[b, a']`: the updated key moves to the end |
| `DataActor.ProductTypeRawValue` | Sources/Internal/ApphudDataActor.swift:35-43 | each of "consumable", "nonConsumable", "autoRenewable" and "nonRenewable" is the raw value of exactly one type |
| `DataActor.ProductTypeFromRaw` | Sources/Internal/ApphudDataActor.swift:35-46 | a stored string maps to a type only if it is that type's raw value, and to nil when it matches none of the four |
| `DataActor.ProductTypeRawValueRoundTrip` | Sources/Internal/ApphudDataActor.swift:35-43 | each type's raw value maps back to that type |
| `DataActor.ProductTypeFor` | Sources/Internal/ApphudDataActor.swift:30-47 | the lookup gives a type only for a known id whose stored string is that type's raw value, and nil for an unknown id or an unrecognised string |
| `DataActor.ProductTypeForAfterSet` | Sources/Internal/ApphudDataActor.swift:51-56 | after a type is recorded for an id, the lookup gives that type, and every other id's lookup is unchanged |
| `DataActor.SavedProductTypes` | Sources/Internal/ApphudDataActor.swift:21 | the saved map is readable exactly when the defaults hold a string dictionary under "ApphudKnownProductTypes" |
| `DataActor.ApphudDataActor.constructor` | Sources/Internal/ApphudDataActor.swift:20-26 | the in-memory product types equal the saved map, or are empty if none is saved; the pending list is empty; the invariant holds |
| `DataActor.ApphudDataActor.KnownProductType` | Sources/Internal/ApphudDataActor.swift:30-47 | a type is reported only for an id whose stored string is that type's raw value, nil exactly for an unknown id or an unrecognised string; while the object is valid, every id with a known type is also in the persisted map |
| `DataActor.ApphudDataActor.SubmittedAFData` | Sources/Internal/ApphudDataActor.swift:87-96 | a value is returned only from a file at most 7 days old whose JSON is that object; a missing or older file gives nil |
| `DataActor.ApphudDataActor.SubmittedAdjustData` | Sources/Internal/ApphudDataActor.swift:104-113 | the same rule on the Adjust file |
| `DataActor.ApphudDataActor.UserPropertiesCache` | Sources/Internal/ApphudDataActor.swift:121-130 | a list is returned only from a file at most 7 days old whose JSON is the array of those objects; a missing or older file gives nil |
| `DataActor.ApphudDataActor.SetProductType` | Sources/Internal/ApphudDataActor.swift:50-56 | with a mapped type, the id reads back as that type, other ids are unchanged, and the persisted map equals the in-memory one; a nil conversion changes nothing |
| `DataActor.ApphudDataActor.DataToCache` | Sources/Internal/ApphudDataActor.swift:149-157 | the file is replaced with creation date `now`, so reading it right away gives `(data, false)`; nothing else changes |
| `DataActor.ApphudDataActor.DataClearCache` | Sources/Internal/ApphudDataActor.swift:140-147 | the file is deleted; clearing a missing file changes nothing |
| `DataActor.ApphudDataActor.SetAFData` | Sources/Internal/ApphudDataActor.swift:97-101 | a JSON value that serializes is cached and reads back for 7 days; nil, or an encoding error thrown by the serializer, leaves the cache untouched |
| `DataActor.ApphudDataActor.SetAdjustData` | Sources/Internal/ApphudDataActor.swift:114-118 | same rule as AppsFlyer, on the Adjust file |
| `DataActor.ApphudDataActor.SetUserPropertiesCache` | Sources/Internal/ApphudDataActor.swift:131-137 | a value that serializes is cached and reads back for 7 days; nil deletes the file, so the getter gives nil; an encoding error thrown by the serializer changes nothing |
| `DataActor.ApphudDataActor.Clear` | Sources/Internal/ApphudDataActor.swift:58-62 | only the user-properties file is deleted; both attribution getters read as before; product types, defaults and pending properties are untouched |
| `DataActor.ApphudDataActor.AddPendingUserProperty` | Sources/Internal/ApphudDataActor.swift:78-81 | the new list is the old one without the key, plus the new entry; exactly one entry has the key and it is last; other entries keep their order; unique keys stay unique |
| `DataActor.ApphudDataActor.SetPendingUserProperties` | Sources/Internal/ApphudDataActor.swift:83-85 | the pending list becomes exactly the given list; nothing else changes |
| `DataActor.RestartRemembersProductType` | Sources/Internal/ApphudDataActor.swift:20-56 | on a fresh install an id is unknown; once it is recorded as auto-renewable, an actor rebuilt from the same storage reports it as auto-renewable |
| `NonRenewingPurchases.ContainerOf` | Sources/Public/ApphudNonRenewingPurchase.swift:75 | the keyed container holds a coding key exactly when the JSON object has a field of that key's name, with that field's value |
| `NonRenewingPurchases.ObjectOf` | Sources/Public/ApphudNonRenewingPurchase.swift:101 | the written object has a field named after each key of the container, holding that key's value, and no other field |
| `NonRenewingPurchases.ContainerOfObjectOf` | Sources/Public/ApphudNonRenewingPurchase.swift:75-101 | reading back a written container under the coding keys gives the same container |
| `NonRenewingPurchases.DecodeBool` | Sources/Public/ApphudNonRenewingPurchase.swift:93-95 | decoding a Bool succeeds exactly when the key is present and holds a JSON boolean, and gives that boolean |
| `NonRenewingPurchases.DecodeString` | Sources/Public/ApphudNonRenewingPurchase.swift:89 | decoding a String succeeds exactly when the key is present and holds a JSON string |
| `NonRenewingPurchases.DecodeValues` | Sources/Public/ApphudNonRenewingPurchase.swift:83-98 | succeeds iff kind is "nonrenewable" and productId, startedAt, environment and local decode; any other kind string fails with "not a nonrenewing purchase"; `isSandbox` iff the environment is "sandbox"; productId and local are copied; purchasedAt is the parsed startedAt, or `now` when it does not parse; canceledAt is the parsed cancelledAt, nil when missing, mistyped or unparseable; transactionId and isConsumable are decoded with `try?`, so a missing or mistyped one gives nil |
| `NonRenewingPurchases.DecodeDateDefaults` | Sources/Public/ApphudNonRenewingPurchase.swift:90-91 | an unparseable startedAt gives `purchasedAt = now`; a missing or unparseable cancelledAt gives nil |
| `NonRenewingPurchases.MissingStartedAtFails` | Sources/Public/ApphudNonRenewingPurchase.swift:91 | a record without startedAt fails to decode |
| `NonRenewingPurchases.EncodeValues` | Sources/Public/ApphudNonRenewingPurchase.swift:100-110 | the encoding always holds kind "nonrenewable", and holds environment "sandbox" when `isSandbox` and "production" otherwise |
| `NonRenewingPurchases.DecodeEncodeRoundTrip` | Sources/Public/ApphudNonRenewingPurchase.swift:83-110 | decoding an encoded purchase succeeds and restores every field, including isSandbox, isLocal, transactionId and isConsumable |
| `NonRenewingPurchases.SecondsToString` | Sources/Public/ApphudNonRenewingPurchase.swift:132 | the text of a seconds value never contains the bar separator |
| `NonRenewingPurchases.SecondsToStringInjective` | Sources/Public/ApphudNonRenewingPurchase.swift:132 | distinct seconds values give distinct texts |
| `NonRenewingPurchases.NonRenewingPurchase.StateDescription` | Sources/Public/ApphudNonRenewingPurchase.swift:131-133 | the description holds exactly two more bar characters than the product id: the two separators |
| `NonRenewingPurchases.StateDescriptionDeterminesState` | Sources/Public/ApphudNonRenewingPurchase.swift:131-133 | for any product ids, bar characters included, equal descriptions mean equal productId, equal purchasedAt and equal canceledAt, where nil counts as 0 |
| `NonRenewingPurchases.NonRenewingPurchase.FromValues` | Sources/Public/ApphudNonRenewingPurchase.swift:74-81 | the new purchase holds exactly the decoded values |
| `NonRenewingPurchases.NonRenewingPurchase.FromProduct` | Sources/Public/ApphudNonRenewingPurchase.swift:122-129 | purchasedAt is now and canceledAt is now + 3600, with not local, transaction "0" and no memo; the purchase is active exactly before now + 3600 |
| `NonRenewingPurchases.NonRenewingPurchase.IsActive` | Sources/Public/ApphudNonRenewingPurchase.swift:115-120 | active iff there is no cancellation, or now < canceledAt < purchasedAt + 3700; a later cancellation is a refund and never active |
| `NonRenewingPurchases.InactiveStaysInactive` | Sources/Public/ApphudNonRenewingPurchase.swift:115-120 | once a purchase is inactive it stays inactive at every later time |
| `NonRenewingPurchases.NonRenewingPurchase.IsConsumablePurchase` | Sources/Public/ApphudNonRenewingPurchase.swift:49-58 | a memoized answer is returned unchanged and the lookup is ignored; otherwise the lookup's answer is returned and memoized |
| `NonRenewingPurchases.MemoAnswersAgain` | Sources/Public/ApphudNonRenewingPurchase.swift:49-58 | two calls in a row give the same answer, whatever the second lookup would say |
| `NonRenewingPurchases.DecodeJson` | Sources/Public/ApphudNonRenewingPurchase.swift:74-77 | a payload that is not a JSON object fails as not a keyed container, and only then; otherwise decoding succeeds exactly when `decodeValues` succeeds on the object's keyed container |
| `NonRenewingPurchases.DecodeJsonOfEncoding` | Sources/Public/ApphudNonRenewingPurchase.swift:74-110 | an encoded purchase written out as a JSON object decodes back to the same values |
| `NonRenewingPurchases.Decode` | Sources/Public/ApphudNonRenewingPurchase.swift:74-77 | `init(from:)` fails on a payload that is not a keyed container; otherwise it succeeds exactly when `decodeValues` does and then holds its values, or fails with the same error |
| `NonRenewingPurchases.FromContainer` | Sources/Public/ApphudNonRenewingPurchase.swift:79-81 | `init(with:)` succeeds exactly when `decodeValues` does on the given container and then holds its values; otherwise it fails with the same error |

## Left out

- Actor isolation (`@globalActor`) and the singleton: calls are sequential method calls on one object.
- File-system and `UserDefaults` failures: the caches directory is always found. Writes, attribute reads and data reads always succeed.
- The internals of `JSONSerialization`, including the `.prettyPrinted` layout. JSON numbers are integers only.
- `Date` and `TimeInterval` are floating point; the model uses whole seconds. `apphudIsoDate` and `apphudIsoString` are not part of this model; they are an abstract codec that round-trips.
- `NonRenewingPurchases.SecondsToString`: writes whole seconds as decimal text plus ".0". Fractional seconds and Swift's exponent notation for values of 1e16 and above are not modelled.
- `ApphudProductType.from` is not part of this model. `SetProductType` takes its result, which may be nil.
- The raw strings of `ApphudProductType` are not part of this model; they are taken to be the case names. Only their distinctness matters.
- The cache file names behind `submittedAFDataKey`, `submittedAdjustDataKey` and `ApphudUserPropertiesCacheKey` are not part of this model. The model gives them distinct placeholder strings.
- StoreKit: `productType()` (`Product.products`) and `apphudIsSandbox()`. Their answers are parameters: `fetchedIsConsumable` of `IsConsumablePurchase` and `sandbox` of `FromProduct`.
- `NonRenewingPurchases.NonRenewingPurchase.IsConsumablePurchase`: "returns without fetching" appears only as "the lookup parameter is ignored". The model has no lookup to skip. Calls are modelled as sequential, but `isConsumablePurchase()` is an `async` method of a plain class. It reads the memo, suspends at `await productType()`, and only then writes the memo. Two overlapping calls on one purchase can therefore both miss the memo, both fetch and return different answers, and the memo keeps the answer written last. `MemoAnswersAgain` holds only for calls that do not overlap.
- `NonRenewingPurchases.MemoAnswersAgain`: states the memo's effect for two calls made one after the other. Overlapping calls, which the code allows, are outside the model; see the `IsConsumablePurchase` line above.
- `DataActor.ApphudDataActor.SetAFData` takes only JSON values, so the model's failed-encoding branch stands only for an error that `JSONSerialization` throws. In the code, a value it cannot write at all (a `Date`, a Swift struct, a NaN number) raises an Objective-C exception. `try?` does not catch that exception, so the app stops. The model does not cover that case.
- `DataActor.ApphudDataActor.SetAdjustData`: the same gap as `SetAFData`. A value `JSONSerialization` cannot write raises an uncaught exception in the code and is outside the model.
- `DataActor.ApphudDataActor.SetUserPropertiesCache`: the same gap as `SetAFData`. A value `JSONSerialization` cannot write raises an uncaught exception in the code and is outside the model.
- `PendingProperties.WithoutKey`: property keys are compared as sequences of Unicode scalars. Swift's `==` on `String` treats canonically equivalent strings as equal. So two keys that differ only in Unicode normalization (such as a precomposed "é" and "e" followed by a combining accent) are one key in `addPendingUserProperty` but two in the model. String normalization is outside this model.
- `DataActor.ProductTypeFor`: product ids are compared as sequences of Unicode scalars, both in this lookup and in the map update of `SetProductType`. A Swift `[String: String]` dictionary treats canonically equivalent ids as the same key. So ids that differ only in Unicode normalization share one entry in the code but have separate entries in the model.
- `ApphudUserProperty` is not part of this model. A pending property is a key and a JSON value. Only the key affects the list.
- Logging (`apphudLog`), `ApphudUtils`, the location manager and the paywall UI.
