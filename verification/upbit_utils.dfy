/**
 * The Upbit connector's helpers: the default trading fees and the check that
 * decides whether a trading pair, described by the exchange's information
 * record, may be traded.
 */
module UpbitUtils {
  import opened PyJson

  /** A decimal number `coefficient * 10^exponent`, as Python's `Decimal` stores it. */
  datatype Decimal = Decimal(coefficient: int, exponent: int)

  ghost function Pow10(e: int): real
    decreases if e < 0 then -e else e
  {
    if e == 0 then 1.0 else if e > 0 then 10.0 * Pow10(e - 1) else Pow10(e + 1) / 10.0
  }

  ghost function Value(d: Decimal): real
  {
    d.coefficient as real * Pow10(d.exponent)
  }

  datatype TradeFeeSchema = TradeFeeSchema(
    makerPercentFeeDecimal: Decimal,
    takerPercentFeeDecimal: Decimal,
    buyPercentFeeDeductedFromReturns: bool)

  /** `Decimal("0.001")` for both sides, buy fees taken out of what is received. */
  const DEFAULT_FEES: TradeFeeSchema := TradeFeeSchema(Decimal(1, -3), Decimal(1, -3), true)

  /** Maker and taker pay one tenth of a percent, and the buy fee is deducted from the returns. */
  lemma DefaultFeesAreOneTenthPercent()
    ensures Value(DEFAULT_FEES.makerPercentFeeDecimal) == 0.001
    ensures Value(DEFAULT_FEES.takerPercentFeeDecimal) == 0.001
    ensures DEFAULT_FEES.buyPercentFeeDeductedFromReturns
  {
  }

  const STATUS_TRADING: string := "TRADING"
  const PERMISSION_SPOT: string := "SPOT"

  /**
   * `is_exchange_information_valid`: the pair is enabled when its status is
   * "TRADING" and "SPOT" is in its permissions. A missing status reads as
   * None and missing permissions as an empty list. Python's `and` stops at a
   * status other than "TRADING"; past it, `in` raises TypeError when the
   * permissions are None, a bool or a number.
   */
  function IsExchangeInformationValid(info: map<string, JsonValue>): (r: Result<bool>)
    ensures Get(info, "status", JNull) != JStr(STATUS_TRADING) ==> r == Ok(false)
    ensures "permissions" !in info ==> r == Ok(false)
    ensures r.Err? <==> Get(info, "status", JNull) == JStr(STATUS_TRADING) && "permissions" in info
                        && (info["permissions"].JNull? || info["permissions"].JBool? || info["permissions"].JNum?)
    ensures r.Err? ==> r.error == TypeError
  {
    if Get(info, "status", JNull) != JStr(STATUS_TRADING) then Ok(false)
    else Contains(Get(info, "permissions", JList([])), PERMISSION_SPOT)
  }

  /** The permission value lists, is keyed by, or spells out "SPOT". */
  ghost predicate GrantsSpot(permissions: JsonValue)
  {
    match permissions
    case JList(xs) => exists i :: 0 <= i < |xs| && xs[i] == JStr(PERMISSION_SPOT)
    case JObject(m) => PERMISSION_SPOT in m
    case JStr(s) => exists i :: OccursAt(PERMISSION_SPOT, s, i)
    case _ => false
  }

  /** A pair is tradable when the record has status "TRADING" and permissions that grant "SPOT". */
  ghost predicate Tradable(info: map<string, JsonValue>)
  {
    "status" in info && info["status"] == JStr(STATUS_TRADING)
    && "permissions" in info && GrantsSpot(info["permissions"])
  }

  /** The check answers true exactly for tradable pairs. */
  lemma IsExchangeInformationValidIff(info: map<string, JsonValue>)
    ensures IsExchangeInformationValid(info) == Ok(true) <==> Tradable(info)
  {
    if "permissions" in info && info["permissions"].JStr? {
      ContainsInStr(info["permissions"].s, PERMISSION_SPOT);
    }
  }

  /** A record without a status, or with status None, is never valid, whatever its permissions. */
  lemma MissingStatusNeverValid(info: map<string, JsonValue>)
    requires "status" !in info || info["status"] == JNull
    ensures IsExchangeInformationValid(info) == Ok(false)
  {
  }

  /** Keys other than "status" and "permissions" do not affect the answer. */
  lemma OtherKeysIrrelevant(info: map<string, JsonValue>, key: string, v: JsonValue)
    requires key != "status" && key != "permissions"
    ensures IsExchangeInformationValid(info[key := v]) == IsExchangeInformationValid(info)
    ensures IsExchangeInformationValid(info - {key}) == IsExchangeInformationValid(info)
  {
    assert Get(info[key := v], "status", JNull) == Get(info, "status", JNull);
    assert Get(info - {key}, "status", JNull) == Get(info, "status", JNull);
  }

  /**
   * For a list of permissions only the presence of "SPOT" matters: where it
   * stands and what else is listed do not change the answer.
   */
  lemma OnlySpotPresenceMatters(info: map<string, JsonValue>, xs: seq<JsonValue>, ys: seq<JsonValue>)
    requires JStr(PERMISSION_SPOT) in xs <==> JStr(PERMISSION_SPOT) in ys
    ensures IsExchangeInformationValid(info["permissions" := JList(xs)])
         == IsExchangeInformationValid(info["permissions" := JList(ys)])
  {
  }

  /** In particular, reordering the permission list never changes the answer. */
  lemma PermissionOrderIrrelevant(info: map<string, JsonValue>, xs: seq<JsonValue>, ys: seq<JsonValue>)
    requires multiset(xs) == multiset(ys)
    ensures IsExchangeInformationValid(info["permissions" := JList(xs)])
         == IsExchangeInformationValid(info["permissions" := JList(ys)])
  {
    assert JStr(PERMISSION_SPOT) in xs <==> JStr(PERMISSION_SPOT) in multiset(xs);
    OnlySpotPresenceMatters(info, xs, ys);
  }
}
