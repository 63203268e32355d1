/** The enumerations of `ApphudEnums.swift` and the wire strings the purchase
    codec and the attribution calls rely on. */
module Enums {
  import opened Wrappers

  /** `ApphudAttributionProvider`, an `Int`-backed enum, in declaration order. */
  datatype AttributionProvider =
    | AppsFlyer
    | Adjust
    | AppleAdsAttribution
    | Branch
    | Firebase
    | Facebook
    | Singular
    | Tenjin
    | Tiktok
    | Voluum
    | Custom

  /** Every declared provider, in declaration order. */
  const AllProviders: seq<AttributionProvider> :=
    [AppsFlyer, Adjust, AppleAdsAttribution, Branch, Firebase, Facebook,
     Singular, Tenjin, Tiktok, Voluum, Custom]

  /** The string `toString` falls back to in its `default` branch. */
  const Unavailable: string := "Unavailable"

  /** The implicit `Int` raw value: the position of the case in the declaration. */
  function RawValue(p: AttributionProvider): (n: nat)
    ensures n <= 10
    ensures n < |AllProviders| && AllProviders[n] == p
  {
    match p
    case AppsFlyer => 0
    case Adjust => 1
    case AppleAdsAttribution => 2
    case Branch => 3
    case Firebase => 4
    case Facebook => 5
    case Singular => 6
    case Tenjin => 7
    case Tiktok => 8
    case Voluum => 9
    case Custom => 10
  }

  /** `ApphudAttributionProvider(rawValue:)`: defined exactly on 0...10. */
  function FromRawValue(n: int): (r: Option<AttributionProvider>)
    ensures r.Some? <==> 0 <= n <= 10
    ensures r.Some? ==> RawValue(r.value) == n
  {
    if 0 <= n < |AllProviders| then Some(AllProviders[n]) else None
  }

  /** `toString()` on a declared provider. */
  function ToString(p: AttributionProvider): (s: string)
    ensures s != Unavailable
  {
    match p
    case AppsFlyer => "appsflyer"
    case Adjust => "adjust"
    case Branch => "branch"
    case Facebook => "facebook"
    case AppleAdsAttribution => "search_ads"
    case Firebase => "firebase"
    case Custom => "custom"
    case Singular => "singular"
    case Tenjin => "tenjin"
    case Tiktok => "tiktok"
    case Voluum => "voluum"
  }

  /** `toString()` on an `@objc` enum value that may carry any `Int` raw value
      (Objective-C callers can pass one no case declares): the declared raw
      values get their case's string, every other one the `default` branch. */
  function RawToString(n: int): (s: string)
    ensures s == Unavailable <==> !(0 <= n <= 10)
    ensures 0 <= n <= 10 ==> s == ToString(AllProviders[n])
  {
    match FromRawValue(n)
    case Some(p) => ToString(p)
    case None => Unavailable
  }

  /** Raw values run 0...10 in declaration order and every provider is listed once. */
  lemma RawValuesInDeclarationOrder()
    ensures |AllProviders| == 11
    ensures forall i :: 0 <= i < |AllProviders| ==> RawValue(AllProviders[i]) == i
    ensures forall p: AttributionProvider :: FromRawValue(RawValue(p)) == Some(p)
  {
    forall p: AttributionProvider ensures FromRawValue(RawValue(p)) == Some(p) {
      assert AllProviders[RawValue(p)] == p;
    }
  }

  /** Distinct providers get distinct strings. */
  lemma ToStringInjective(p: AttributionProvider, q: AttributionProvider)
    ensures ToString(p) == ToString(q) ==> p == q
  {
    if p != q {
      match p
      case AppsFlyer => assert ToString(p)[0] == 'a' && ToString(p)[1] == 'p';
      case Adjust => assert ToString(p)[0] == 'a' && ToString(p)[1] == 'd';
      case AppleAdsAttribution => assert ToString(p)[0] == 's' && ToString(p)[1] == 'e';
      case Branch => assert ToString(p)[0] == 'b';
      case Firebase => assert ToString(p)[0] == 'f' && ToString(p)[1] == 'i';
      case Facebook => assert ToString(p)[0] == 'f' && ToString(p)[1] == 'a';
      case Singular => assert ToString(p)[0] == 's' && ToString(p)[1] == 'i';
      case Tenjin => assert ToString(p)[0] == 't' && ToString(p)[1] == 'e';
      case Tiktok => assert ToString(p)[0] == 't' && ToString(p)[1] == 'i';
      case Voluum => assert ToString(p)[0] == 'v';
      case Custom => assert ToString(p)[0] == 'c';
    }
  }

  /** `ApphudIAPKind`, a `String`-backed enum. */
  datatype IAPKind = Autorenewable | Nonrenewable

  function KindRawValue(k: IAPKind): (s: string)
    ensures s == "autorenewable" <==> k == Autorenewable
    ensures s == "nonrenewable" <==> k == Nonrenewable
  {
    match k
    case Autorenewable => "autorenewable"
    case Nonrenewable => "nonrenewable"
  }

  /** `ApphudEnvironment`, a `String`-backed enum. */
  datatype Environment = Sandbox | Production

  function EnvironmentRawValue(e: Environment): (s: string)
    ensures s == "sandbox" <==> e == Sandbox
    ensures s == "production" <==> e == Production
  {
    match e
    case Sandbox => "sandbox"
    case Production => "production"
  }

  /** The two kinds, and the two environments, have distinct wire strings,
      so each string identifies its case. */
  lemma RawValuesDistinct()
    ensures forall k, k' :: KindRawValue(k) == KindRawValue(k') ==> k == k'
    ensures forall e, e' :: EnvironmentRawValue(e) == EnvironmentRawValue(e') ==> e == e'
  {
    assert KindRawValue(Autorenewable)[0] != KindRawValue(Nonrenewable)[0];
    assert EnvironmentRawValue(Sandbox)[0] != EnvironmentRawValue(Production)[0];
  }

  /** `ApphudIAPCodingKeys`: the JSON keys of a purchase record. */
  datatype IAPCodingKey =
    | Id | ExpiresAt | ProductId | CancelledAt | StartedAt | InRetryBilling
    | AutorenewEnabled | IntroductoryActivated | EnvironmentKey | Local | GroupId
    | Status | Kind | OriginalTransactionId | TransactionId | IsConsumable

  const AllCodingKeys: set<IAPCodingKey> := {
    Id, ExpiresAt, ProductId, CancelledAt, StartedAt, InRetryBilling,
    AutorenewEnabled, IntroductoryActivated, EnvironmentKey, Local, GroupId,
    Status, Kind, OriginalTransactionId, TransactionId, IsConsumable }

  /** Every coding key is listed in `AllCodingKeys`. */
  lemma AllCodingKeysComplete()
    ensures forall k: IAPCodingKey :: k in AllCodingKeys
  {
    forall k: IAPCodingKey ensures k in AllCodingKeys {
      match k
      case Id => case ExpiresAt => case ProductId => case CancelledAt =>
      case StartedAt => case InRetryBilling => case AutorenewEnabled =>
      case IntroductoryActivated => case EnvironmentKey => case Local =>
      case GroupId => case Status => case Kind => case OriginalTransactionId =>
      case TransactionId => case IsConsumable =>
    }
  }

  /** `init?(stringValue:)` of a coding key: the case whose name is `s`, if any. */
  function KeyFromName(s: string): Option<IAPCodingKey>
  {
    if s == "id" then Some(Id)
    else if s == "expiresAt" then Some(ExpiresAt)
    else if s == "productId" then Some(ProductId)
    else if s == "cancelledAt" then Some(CancelledAt)
    else if s == "startedAt" then Some(StartedAt)
    else if s == "inRetryBilling" then Some(InRetryBilling)
    else if s == "autorenewEnabled" then Some(AutorenewEnabled)
    else if s == "introductoryActivated" then Some(IntroductoryActivated)
    else if s == "environment" then Some(EnvironmentKey)
    else if s == "local" then Some(Local)
    else if s == "groupId" then Some(GroupId)
    else if s == "status" then Some(Status)
    else if s == "kind" then Some(Kind)
    else if s == "originalTransactionId" then Some(OriginalTransactionId)
    else if s == "transactionId" then Some(TransactionId)
    else if s == "isConsumable" then Some(IsConsumable)
    else None
  }

  /** The implicit `String` raw value of a coding key: its case name, which
      `init?(stringValue:)` maps back to the case. */
  function KeyName(k: IAPCodingKey): (s: string)
    ensures KeyFromName(s) == Some(k)
  {
    match k
    case Id => "id"
    case ExpiresAt => "expiresAt"
    case ProductId => "productId"
    case CancelledAt => "cancelledAt"
    case StartedAt => "startedAt"
    case InRetryBilling => "inRetryBilling"
    case AutorenewEnabled => "autorenewEnabled"
    case IntroductoryActivated => "introductoryActivated"
    case EnvironmentKey => "environment"
    case Local => "local"
    case GroupId => "groupId"
    case Status => "status"
    case Kind => "kind"
    case OriginalTransactionId => "originalTransactionId"
    case TransactionId => "transactionId"
    case IsConsumable => "isConsumable"
  }

  /** Distinct coding keys have distinct JSON names. */
  lemma KeyNamesDistinct(k: IAPCodingKey, k': IAPCodingKey)
    requires KeyName(k) == KeyName(k')
    ensures k == k'
  {
    assert KeyFromName(KeyName(k)) == Some(k);
  }
}
