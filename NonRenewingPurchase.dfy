/** `ApphudNonRenewingPurchase`: a non-renewing purchase record, its
    `Codable` conformance, the refund rule of `isActive` and the memo of
    `isConsumablePurchase`. Dates are whole seconds since 1970; the ISO-8601
    conversions `apphudIsoString` / `apphudIsoDate` are an abstract codec. */
module NonRenewingPurchases {
  import opened Wrappers
  import opened Json
  import opened Enums

  /** A cancellation less than this many seconds after the purchase is a
      provisional one that keeps the purchase active until it is reached. */
  const RefundWindow: int := 3700

  /** `init(product:)` sets the cancellation date this many seconds ahead. */
  const ProvisionalPeriod: int := 3600

  /** The keyed container of a purchase record
      (`KeyedDecodingContainer<ApphudIAPCodingKeys>`): JSON values by coding
      key, each standing for the field named `KeyName(key)`. */
  type Container = map<IAPCodingKey, Json>

  /** `decoder.container(keyedBy: ApphudIAPCodingKeys.self)` over a JSON
      object: each field whose name is a coding key's name, by that key;
      fields with other names are not visible. */
  function ContainerOf(o: JsonObject): (c: Container)
    ensures forall k :: k in c <==> KeyName(k) in o
    ensures forall k :: k in c ==> c[k] == o[KeyName(k)]
  {
    AllCodingKeysComplete();
    map k | k in AllCodingKeys && KeyName(k) in o :: o[KeyName(k)]
  }

  /** `encoder.container(keyedBy: ApphudIAPCodingKeys.self)` written out as
      a JSON object: each entry under its key's name. */
  function ObjectOf(c: Container): (o: JsonObject)
    ensures forall k :: k in c <==> KeyName(k) in o
    ensures forall k :: k in c ==> o[KeyName(k)] == c[k]
    ensures forall n :: n in o ==> KeyFromName(n).Some?
  {
    map n | n in KeyNamesOf(c) :: c[KeyFromName(n).value]
  }

  function KeyNamesOf(c: Container): (names: set<string>)
    ensures forall n :: n in names ==> KeyFromName(n).Some? && KeyFromName(n).value in c
    ensures forall k :: k in c <==> KeyName(k) in names
  {
    set k | k in c :: KeyName(k)
  }

  /** Writing a container out as a JSON object and reading it back under the
      coding keys gives the same container: no two keys share a name. */
  lemma ContainerOfObjectOf(c: Container)
    ensures ContainerOf(ObjectOf(c)) == c
  {
    var o := ObjectOf(c);
    forall k | k in c ensures ContainerOf(o)[k] == c[k] {
      assert KeyFromName(KeyName(k)) == Some(k);
    }
  }

  /** `apphudIsoString` (date to string) and `apphudIsoDate` (string to
      date, may fail). */
  datatype IsoCodec = IsoCodec(format: int -> string, parse: string -> Option<int>)

  ghost predicate IsoRoundTrips(iso: IsoCodec) {
    forall t :: iso.parse(iso.format(t)) == Some(t)
  }

  /** Why decoding throws: the payload is not a keyed container (a JSON
      array, string, number, boolean or null), a required key is missing or
      of the wrong type, or the record is not a non-renewing purchase. */
  datatype DecodeError = NotKeyedContainer | KeyNotDecodable(key: IAPCodingKey) | NotNonRenewing

  /** `values.decode(String.self, forKey: key)`; `None` where it throws. */
  function DecodeString(c: Container, key: IAPCodingKey): (r: Option<string>)
    ensures r.Some? <==> key in c && c[key].JString?
    ensures r.Some? ==> c[key] == JString(r.value)
  {
    if key in c && c[key].JString? then Some(c[key].s) else None
  }

  /** `values.decode(Bool.self, forKey: key)`; `None` where it throws. */
  function DecodeBool(c: Container, key: IAPCodingKey): (r: Option<bool>)
    ensures r.Some? <==> key in c && c[key].JBool?
    ensures r.Some? ==> c[key] == JBool(r.value)
  {
    if key in c && c[key].JBool? then Some(c[key].b) else None
  }

  /** The tuple `decodeValues` returns, in its order. */
  datatype PurchaseValues = PurchaseValues(
    productId: string,
    canceledAt: Option<int>,
    purchasedAt: int,
    isSandbox: bool,
    isLocal: bool,
    transactionId: Option<string>,
    isConsumable: Option<bool>)

  /** `decodeValues(from:)` at time `now` (the `Date()` an unparseable
      `startedAt` falls back to). */
  function DecodeValues(c: Container, iso: IsoCodec, now: int): (r: Result<PurchaseValues, DecodeError>)
    ensures r.Success? <==>
      && DecodeString(c, Kind) == Some(KindRawValue(Nonrenewable))
      && DecodeString(c, ProductId).Some?
      && DecodeString(c, StartedAt).Some?
      && DecodeString(c, EnvironmentKey).Some?
      && DecodeBool(c, Local).Some?
    ensures DecodeString(c, Kind).Some? && DecodeString(c, Kind) != Some(KindRawValue(Nonrenewable)) ==>
      r == Failure(NotNonRenewing)
    ensures r.Failure? ==> r.error != NotKeyedContainer
    ensures r.Success? ==> (r.value.isSandbox <==> DecodeString(c, EnvironmentKey) == Some(EnvironmentRawValue(Sandbox)))
    ensures r.Success? ==> r.value.productId == DecodeString(c, ProductId).value
    ensures r.Success? ==> r.value.isLocal == DecodeBool(c, Local).value
    ensures r.Success? ==> r.value.purchasedAt == iso.parse(DecodeString(c, StartedAt).value).GetOr(now)
    ensures r.Success? ==>
      r.value.canceledAt ==
        (if DecodeString(c, CancelledAt).Some? then iso.parse(DecodeString(c, CancelledAt).value) else None)
    ensures r.Success? ==> r.value.transactionId == DecodeString(c, TransactionId)
    ensures r.Success? ==> r.value.isConsumable == DecodeBool(c, IsConsumable)
  {
    match DecodeString(c, Kind)
    case None => Failure(KeyNotDecodable(Kind))
    case Some(kind) =>
      if kind != KindRawValue(Nonrenewable) then Failure(NotNonRenewing)
      else match DecodeString(c, ProductId)
      case None => Failure(KeyNotDecodable(ProductId))
      case Some(productId) =>
        var canceledAt := match DecodeString(c, CancelledAt)
          case Some(s) => iso.parse(s)
          case None => None;
        match DecodeString(c, StartedAt)
        case None => Failure(KeyNotDecodable(StartedAt))
        case Some(started) =>
          var purchasedAt := iso.parse(started).GetOr(now);
          match DecodeString(c, EnvironmentKey)
          case None => Failure(KeyNotDecodable(EnvironmentKey))
          case Some(environment) =>
            var isSandbox := environment == EnvironmentRawValue(Sandbox);
            match DecodeBool(c, Local)
            case None => Failure(KeyNotDecodable(Local))
            case Some(isLocal) =>
              Success(PurchaseValues(productId, canceledAt, purchasedAt, isSandbox, isLocal,
                                     DecodeString(c, TransactionId), DecodeBool(c, IsConsumable)))
  }

  /** A `startedAt` that does not parse as a date becomes `now`; a missing or
      unparseable `cancelledAt` becomes nil. */
  lemma DecodeDateDefaults(c: Container, iso: IsoCodec, now: int)
    requires DecodeValues(c, iso, now).Success?
    ensures iso.parse(DecodeString(c, StartedAt).value).None? ==> DecodeValues(c, iso, now).value.purchasedAt == now
    ensures CancelledAt !in c ==> DecodeValues(c, iso, now).value.canceledAt == None
    ensures DecodeString(c, CancelledAt).Some? && iso.parse(DecodeString(c, CancelledAt).value).None? ==>
      DecodeValues(c, iso, now).value.canceledAt == None
  {
  }

  /** A record without `startedAt` is rejected: that key is decoded with
      `try`, not `try?`. */
  lemma MissingStartedAtFails(c: Container, iso: IsoCodec, now: int)
    requires StartedAt !in c
    ensures DecodeValues(c, iso, now).Failure?
  {
  }

  /** `encode(to:)`: the fixed kind `"nonrenewable"`, the environment string
      chosen by `isSandbox`, and JSON null for each absent optional. */
  function EncodeValues(v: PurchaseValues, iso: IsoCodec): (c: Container)
    ensures DecodeString(c, Kind) == Some(KindRawValue(Nonrenewable))
    ensures DecodeString(c, EnvironmentKey) ==
      Some(if v.isSandbox then EnvironmentRawValue(Sandbox) else EnvironmentRawValue(Production))
  {
    map[
      ProductId := JString(v.productId),
      CancelledAt := (match v.canceledAt case Some(t) => JString(iso.format(t)) case None => JNull),
      StartedAt := JString(iso.format(v.purchasedAt)),
      EnvironmentKey :=
        JString(if v.isSandbox then EnvironmentRawValue(Sandbox) else EnvironmentRawValue(Production)),
      Local := JBool(v.isLocal),
      Kind := JString(KindRawValue(Nonrenewable)),
      TransactionId := (match v.transactionId case Some(s) => JString(s) case None => JNull),
      IsConsumable := (match v.isConsumable case Some(b) => JBool(b) case None => JNull)
    ]
  }

  /** Decoding what was encoded succeeds and gives back every field, at any
      decoding time. */
  lemma DecodeEncodeRoundTrip(v: PurchaseValues, iso: IsoCodec, now: int)
    requires IsoRoundTrips(iso)
    ensures DecodeValues(EncodeValues(v, iso), iso, now) == Success(v)
  {
    var c := EncodeValues(v, iso);
    assert DecodeString(c, ProductId) == Some(v.productId);
    assert DecodeString(c, StartedAt) == Some(iso.format(v.purchasedAt));
    assert iso.parse(iso.format(v.purchasedAt)) == Some(v.purchasedAt);
    assert v.canceledAt == match DecodeString(c, CancelledAt) case Some(s) => iso.parse(s) case None => None by {
      if v.canceledAt.Some? {
        assert iso.parse(iso.format(v.canceledAt.value)) == Some(v.canceledAt.value);
      }
    }
    assert (DecodeString(c, EnvironmentKey) == Some(EnvironmentRawValue(Sandbox))) == v.isSandbox by {
      RawValuesDistinct();
    }
    assert DecodeBool(c, Local) == Some(v.isLocal);
    assert DecodeString(c, TransactionId) == v.transactionId;
    assert DecodeBool(c, IsConsumable) == v.isConsumable;
  }

  /** Decimal digits of a natural number. */
  function NatToString(n: nat): (s: string)
    ensures |s| >= 1 && (n >= 10 ==> |s| >= 2)
  {
    if n < 10 then [(n + 48) as char] else NatToString(n / 10) + [(n % 10 + 48) as char]
  }

  /** Decimal text of an integer, with a leading `-` when negative. */
  function IntToString(i: int): string
  {
    if i < 0 then "-" + NatToString(-i) else NatToString(i)
  }

  /** `String(t)` of a `TimeInterval` holding whole seconds, e.g. `"0.0"`. */
  function SecondsToString(t: int): (s: string)
    ensures '|' !in s
  {
    IntToStringHasNoBar(t);
    IntToString(t) + ".0"
  }

  lemma {:induction false} NatToStringDigit(n: nat, k: int)
    requires 0 <= k < |NatToString(n)|
    ensures '0' <= NatToString(n)[k] <= '9'
    decreases n
  {
    if n >= 10 && k < |NatToString(n)| - 1 {
      assert NatToString(n)[k] == NatToString(n / 10)[k];
      NatToStringDigit(n / 10, k);
    }
  }

  lemma IntToStringHasNoBar(i: int)
    ensures '|' !in IntToString(i)
  {
    var s := IntToString(i);
    forall k | 0 <= k < |s| ensures s[k] != '|' {
      if i < 0 {
        if k > 0 {
          assert s[k] == NatToString(-i)[k - 1];
          NatToStringDigit(-i, k - 1);
        }
      } else {
        NatToStringDigit(i, k);
      }
    }
  }

  lemma {:induction false} NatToStringInjective(a: nat, b: nat)
    requires NatToString(a) == NatToString(b)
    ensures a == b
    decreases a
  {
    if a >= 10 && b >= 10 {
      var sa, sb := NatToString(a), NatToString(b);
      assert sa[|sa| - 1] == sb[|sb| - 1];
      assert a % 10 == b % 10;
      assert sa[..|sa| - 1] == NatToString(a / 10);
      assert sb[..|sb| - 1] == NatToString(b / 10);
      NatToStringInjective(a / 10, b / 10);
    } else if a < 10 && b < 10 {
      assert NatToString(a)[0] == NatToString(b)[0];
    }
  }

  lemma IntToStringInjective(a: int, b: int)
    requires IntToString(a) == IntToString(b)
    ensures a == b
  {
    if a < 0 && b >= 0 {
      NatToStringDigit(b, 0);
    } else if b < 0 && a >= 0 {
      NatToStringDigit(a, 0);
    } else if a < 0 {
      assert NatToString(-a) == IntToString(a)[1..] == IntToString(b)[1..] == NatToString(-b);
      NatToStringInjective(-a, -b);
    } else {
      NatToStringInjective(a, b);
    }
  }

  lemma SecondsToStringInjective(a: int, b: int)
    requires SecondsToString(a) == SecondsToString(b)
    ensures a == b
  {
    var sa, sb := SecondsToString(a), SecondsToString(b);
    assert IntToString(a) == sa[..|sa| - 2] == sb[..|sb| - 2] == IntToString(b);
    IntToStringInjective(a, b);
  }

  /** In `x + "|" + r` with no `|` in `x`, the first `|` is at `|x|`. */
  lemma FirstBarAt(x: string, r: string)
    requires '|' !in x
    ensures (x + "|" + r)[|x|] == '|'
    ensures forall i :: 0 <= i < |x| ==> (x + "|" + r)[i] != '|'
  {
    forall i | 0 <= i < |x| ensures (x + "|" + r)[i] != '|' {
      assert (x + "|" + r)[i] == x[i];
    }
  }

  /** Cutting at the first `|` is unambiguous. */
  lemma SplitAtFirstBar(x1: string, r1: string, x2: string, r2: string)
    requires '|' !in x1 && '|' !in x2
    requires x1 + "|" + r1 == x2 + "|" + r2
    ensures x1 == x2 && r1 == r2
  {
    var s := x1 + "|" + r1;
    FirstBarAt(x1, r1);
    FirstBarAt(x2, r2);
    assert |x1| == |x2|;
    assert x1 == s[..|x1|] == x2;
    assert r1 == s[|x1| + 1..] == r2;
  }

  /** In `l + "|" + y` with no `|` in `y`, the last `|` is at `|l|`. */
  lemma LastBarAt(l: string, y: string)
    requires '|' !in y
    ensures (l + "|" + y)[|l|] == '|'
    ensures forall i :: |l| < i < |l| + 1 + |y| ==> (l + "|" + y)[i] != '|'
  {
    forall i | |l| < i < |l| + 1 + |y| ensures (l + "|" + y)[i] != '|' {
      assert (l + "|" + y)[i] == y[i - |l| - 1];
    }
  }

  /** Cutting at the last `|` is unambiguous. */
  lemma SplitAtLastBar(l1: string, y1: string, l2: string, y2: string)
    requires '|' !in y1 && '|' !in y2
    requires l1 + "|" + y1 == l2 + "|" + y2
    ensures l1 == l2 && y1 == y2
  {
    var s := l1 + "|" + y1;
    LastBarAt(l1, y1);
    LastBarAt(l2, y2);
    assert |l1| == |l2|;
    assert l1 == s[..|l1|] == l2;
    assert y1 == s[|l1| + 1..] == y2;
  }

  /** `c|id|t`, with `c` and `t` written as seconds, gives back its three
      parts, whatever `id` holds: `c` ends at the first `|`, `t` starts
      after the last one. */
  lemma JoinedPartsDetermined(c1: int, id1: string, t1: int, c2: int, id2: string, t2: int)
    requires SecondsToString(c1) + "|" + id1 + "|" + SecondsToString(t1)
          == SecondsToString(c2) + "|" + id2 + "|" + SecondsToString(t2)
    ensures c1 == c2 && id1 == id2 && t1 == t2
  {
    var a1, b1 := SecondsToString(c1), SecondsToString(t1);
    var a2, b2 := SecondsToString(c2), SecondsToString(t2);
    assert a1 + "|" + id1 == a2 + "|" + id2 && b1 == b2 by {
      SplitAtLastBar(a1 + "|" + id1, b1, a2 + "|" + id2, b2);
    }
    assert a1 == a2 && id1 == id2 by {
      SplitAtFirstBar(a1, id1, a2, id2);
    }
    SecondsToStringInjective(c1, c2);
    SecondsToStringInjective(t1, t2);
  }

  class NonRenewingPurchase {
    const productId: string
    const purchasedAt: int
    const canceledAt: Option<int>
    const isSandbox: bool
    const transactionId: Option<string>
    const isLocal: bool
    /** The memo of `isConsumablePurchase()`. */
    var isConsumable: Option<bool>

    function Values(): PurchaseValues
      reads this
    {
      PurchaseValues(productId, canceledAt, purchasedAt, isSandbox, isLocal, transactionId, isConsumable)
    }

    /** `init(from:)` and `init(with:)` once `decodeValues` has succeeded. */
    constructor FromValues(v: PurchaseValues)
      ensures Values() == v
    {
      productId := v.productId;
      canceledAt := v.canceledAt;
      purchasedAt := v.purchasedAt;
      isSandbox := v.isSandbox;
      isLocal := v.isLocal;
      transactionId := v.transactionId;
      isConsumable := v.isConsumable;
    }

    /** `init(product:)` at time `now`: a local placeholder cancelled one hour
        ahead, so active for that hour only. `sandbox` is `apphudIsSandbox()`. */
    constructor FromProduct(productIdentifier: string, sandbox: bool, now: int)
      ensures productId == productIdentifier && purchasedAt == now
      ensures canceledAt == Some(now + ProvisionalPeriod)
      ensures isSandbox == sandbox && !isLocal && transactionId == Some("0") && isConsumable == None
      ensures forall t :: IsActive(t) <==> t < now + ProvisionalPeriod
    {
      productId := productIdentifier;
      purchasedAt := now;
      canceledAt := Some(now + ProvisionalPeriod);
      isSandbox := sandbox;
      isLocal := false;
      transactionId := Some("0");
      isConsumable := None;
    }

    /** `isActive()` at time `now`: not refunded. A cancellation less than
        3700 seconds after the purchase keeps it active until that moment;
        any later cancellation is a refund. */
    function IsActive(now: int): (r: bool)
      ensures r <==> canceledAt.None? || now < canceledAt.value < purchasedAt + RefundWindow
    {
      if canceledAt.Some? && canceledAt.value - purchasedAt < RefundWindow then
        canceledAt.value > now
      else
        canceledAt.None?
    }

    /** `stateDescription`: cancellation seconds (0 if none), product id and
        purchase seconds, joined by `|`. */
    function StateDescription(): (s: string)
      ensures multiset(s)['|'] == multiset(productId)['|'] + 2
    {
      SecondsToString(canceledAt.GetOr(0)) + "|" + productId + "|" + SecondsToString(purchasedAt)
    }

    /** `isConsumablePurchase()`. `fetchedIsConsumable` is what the StoreKit
        lookup `productType() == .consumable` answers; it is consulted only
        when nothing is memoized, and its answer is then memoized. */
    method IsConsumablePurchase(fetchedIsConsumable: bool) returns (r: bool)
      modifies this
      ensures old(isConsumable).Some? ==> r == old(isConsumable).value && isConsumable == old(isConsumable)
      ensures old(isConsumable).None? ==> r == fetchedIsConsumable
      ensures isConsumable == Some(r)
    {
      if isConsumable.Some? {
        return isConsumable.value;
      }
      r := fetchedIsConsumable;
      isConsumable := Some(r);
    }
  }

  /** Once inactive, a purchase stays inactive. */
  lemma InactiveStaysInactive(p: NonRenewingPurchase, t1: int, t2: int)
    requires t1 <= t2
    ensures !p.IsActive(t1) ==> !p.IsActive(t2)
  {
  }

  /** The state description determines the product id, the purchase date
      and the cancellation date (nil reading as 0), even for product ids
      that contain `|`. */
  lemma StateDescriptionDeterminesState(p: NonRenewingPurchase, q: NonRenewingPurchase)
    ensures p.StateDescription() == q.StateDescription() ==>
      && p.productId == q.productId
      && p.purchasedAt == q.purchasedAt
      && p.canceledAt.GetOr(0) == q.canceledAt.GetOr(0)
  {
    if p.StateDescription() == q.StateDescription() {
      JoinedPartsDetermined(p.canceledAt.GetOr(0), p.productId, p.purchasedAt,
                            q.canceledAt.GetOr(0), q.productId, q.purchasedAt);
    }
  }

  /** `decoder.container(keyedBy:)` followed by `decodeValues(from:)`: a
      payload that is not a JSON object throws before any key is read. */
  function DecodeJson(j: Json, iso: IsoCodec, now: int): (r: Result<PurchaseValues, DecodeError>)
    ensures r == Failure(NotKeyedContainer) <==> !j.JObject?
    ensures r.Success? <==> j.JObject? && DecodeValues(ContainerOf(j.fields), iso, now).Success?
    ensures j.JObject? && DecodeString(ContainerOf(j.fields), Kind).None? ==> r == Failure(KeyNotDecodable(Kind))
  {
    if j.JObject? then DecodeValues(ContainerOf(j.fields), iso, now) else Failure(NotKeyedContainer)
  }

  /** An encoded purchase, written out as a JSON object, decodes back to its
      values at any decoding time. */
  lemma DecodeJsonOfEncoding(v: PurchaseValues, iso: IsoCodec, now: int)
    requires IsoRoundTrips(iso)
    ensures DecodeJson(JObject(ObjectOf(EncodeValues(v, iso))), iso, now) == Success(v)
  {
    ContainerOfObjectOf(EncodeValues(v, iso));
    DecodeEncodeRoundTrip(v, iso, now);
  }

  /** `init(from:)`: decodes a JSON payload at time `now` into a new
      purchase, or fails as `DecodeJson` does. */
  method Decode(j: Json, iso: IsoCodec, now: int) returns (r: Result<NonRenewingPurchase, DecodeError>)
    ensures r.Success? <==> DecodeJson(j, iso, now).Success?
    ensures r.Success? ==> fresh(r.value) && r.value.Values() == DecodeJson(j, iso, now).value
    ensures r.Failure? ==> r.error == DecodeJson(j, iso, now).error
    ensures !j.JObject? ==> r == Failure(NotKeyedContainer)
  {
    var values := DecodeJson(j, iso, now);
    if values.Success? {
      var p := new NonRenewingPurchase.FromValues(values.value);
      r := Success(p);
    } else {
      r := Failure(values.error);
    }
  }

  /** `init(with:)`: decodes a keyed container the caller already holds at
      time `now` into a new purchase, or fails as `decodeValues` does. */
  method FromContainer(c: Container, iso: IsoCodec, now: int) returns (r: Result<NonRenewingPurchase, DecodeError>)
    ensures r.Success? <==> DecodeValues(c, iso, now).Success?
    ensures r.Success? ==> fresh(r.value) && r.value.Values() == DecodeValues(c, iso, now).value
    ensures r.Failure? ==> r.error == DecodeValues(c, iso, now).error
  {
    var values := DecodeValues(c, iso, now);
    if values.Success? {
      var p := new NonRenewingPurchase.FromValues(values.value);
      r := Success(p);
    } else {
      r := Failure(values.error);
    }
  }

  /** A purchase whose consumability is not yet known answers the second
      question as it answered the first, whatever a second lookup would say. */
  method MemoAnswersAgain(p: NonRenewingPurchase, firstLookup: bool, secondLookup: bool)
    returns (first: bool, second: bool)
    modifies p
    ensures first == second
    ensures old(p.isConsumable).None? ==> first == firstLookup
  {
    first := p.IsConsumablePurchase(firstLookup);
    second := p.IsConsumablePurchase(secondLookup);
  }
}
