/**
 * `BitmexBrokerageModel`: margin accounts only, unit leverage for crypto,
 * the BitMEX fee model and BitMEX as the default crypto market.
 */
module BitmexBrokerageModel {
  import opened Wrappers
  import opened Orders
  import Fees = BitmexFeeModel

  datatype BrokerageModel = BitmexBrokerageModel(accountType: AccountType)

  /** What the model reads from a security: its type and its quote currency. */
  datatype SecurityInfo = SecurityInfo(securityType: SecurityType, quoteCurrency: string)

  /** `SecurityMarginModel` built from a leverage. */
  datatype BuyingPowerModel = SecurityMarginModel(leverage: real)

  /** The constructor: a cash account is refused with an exception. */
  function NewBitmexBrokerageModel(accountType: AccountType): (r: Result<BrokerageModel>)
    ensures r.Ok? <==> accountType != Cash
    ensures r.Ok? ==> r.value.accountType == accountType
    ensures r.Err? ==> r.error == GeneralException
  {
    if accountType == Cash then Err(GeneralException) else Ok(BitmexBrokerageModel(accountType))
  }

  /**
   * `GetLeverage`: an exception for a non-crypto security, otherwise 1 for every
   * quote currency; the XBT and ETH cases fall through to the default.
   */
  function GetLeverage(security: SecurityInfo): (r: Result<real>)
    ensures r.Ok? <==> security.securityType == Crypto
    ensures r.Ok? ==> r.value == 1.0
    ensures r.Err? ==> r.error == GeneralException
  {
    if security.securityType != Crypto then Err(GeneralException)
    else match security.quoteCurrency
      case "XBT" => Ok(1.0)
      case "ETH" => Ok(1.0)
      case _ => Ok(1.0)
  }

  /** `GetBuyingPowerModel`: a margin model at the security's leverage. */
  function GetBuyingPowerModel(security: SecurityInfo): (r: Result<BuyingPowerModel>)
    ensures r.Ok? <==> security.securityType == Crypto
    ensures r.Ok? ==> r.value == SecurityMarginModel(1.0)
    ensures r.Err? ==> r.error == GeneralException
  {
    var leverage :- GetLeverage(security);
    Ok(SecurityMarginModel(leverage))
  }

  /** `GetFeeModel`: the BitMEX fee model, for every security. */
  function GetFeeModel(security: SecurityInfo): (feeModel: (Fees.FeeOrder, Fees.FeeSecurity) -> Fees.CashAmount)
    ensures forall o, s :: feeModel(o, s) == Fees.GetOrderFee(o, s)
  {
    (o, s) => Fees.GetOrderFee(o, s)
  }

  /** `GetDefaultMarkets`: the host's default market map with BitMEX for crypto. */
  function GetDefaultMarkets(defaultMarketMap: map<SecurityType, string>): (markets: map<SecurityType, string>)
    ensures markets.Keys == defaultMarketMap.Keys + {Crypto}
    ensures markets[Crypto] == BitmexMarket
    ensures forall t :: t in defaultMarketMap && t != Crypto ==> markets[t] == defaultMarketMap[t]
  {
    defaultMarketMap[Crypto := BitmexMarket]
  }
}
