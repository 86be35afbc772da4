/**
 * `BitmexSymbolMapper`: translation between host symbols and BitMEX ticker
 * strings, restricted to a fixed set of known crypto instruments.
 */
module BitmexSymbolMapper {
  import opened Wrappers
  import opened Text
  import opened Orders

  /** `KnownSymbolStrings`, a set compared with `OrdinalIgnoreCase`. */
  const KnownSymbolStrings: seq<string> := ["XBTUSD", "XBTJPY", "ETHXBT", "XBTKRW"]

  /** `KnownCurrencies`, a set compared with `OrdinalIgnoreCase`. */
  const KnownCurrencies: seq<string> := ["USD", "JPY"]

  /** Membership in a `HashSet` built with `StringComparer.OrdinalIgnoreCase`. */
  predicate ContainsIgnoreCaseIn(entries: seq<string>, s: string)
  {
    exists i :: 0 <= i < |entries| && EqualsIgnoreCase(entries[i], s)
  }

  lemma UpperFixed(s: string)
    requires forall i :: 0 <= i < |s| ==> !IsLowerAscii(s[i])
    ensures ToUpper(s) == s
  {
  }

  /** Every entry of both known sets is already capitalised. */
  lemma KnownCapitalised()
    ensures forall i :: 0 <= i < |KnownSymbolStrings| ==> ToUpper(KnownSymbolStrings[i]) == KnownSymbolStrings[i]
    ensures forall i :: 0 <= i < |KnownCurrencies| ==> ToUpper(KnownCurrencies[i]) == KnownCurrencies[i]
  {
    Capitalised();
  }

  lemma Capitalised()
    ensures ToUpper("XBTUSD") == "XBTUSD" && ToUpper("XBTJPY") == "XBTJPY"
    ensures ToUpper("ETHXBT") == "ETHXBT" && ToUpper("XBTKRW") == "XBTKRW"
    ensures ToUpper("USD") == "USD" && ToUpper("JPY") == "JPY"
  {
    CapitalisedXbtUsd();
    CapitalisedXbtJpy();
    CapitalisedEthXbt();
    CapitalisedXbtKrw();
    CapitalisedFiat();
  }

  lemma CapitalisedXbtUsd() ensures ToUpper("XBTUSD") == "XBTUSD" { UpperFixed("XBTUSD"); }
  lemma CapitalisedXbtJpy() ensures ToUpper("XBTJPY") == "XBTJPY" { UpperFixed("XBTJPY"); }
  lemma CapitalisedEthXbt() ensures ToUpper("ETHXBT") == "ETHXBT" { UpperFixed("ETHXBT"); }
  lemma CapitalisedXbtKrw() ensures ToUpper("XBTKRW") == "XBTKRW" { UpperFixed("XBTKRW"); }
  lemma CapitalisedFiat() ensures ToUpper("USD") == "USD" && ToUpper("JPY") == "JPY" { UpperFixed("USD"); UpperFixed("JPY"); }

  /** Against a set of capitalised entries, ignore-case membership is membership of the capitalised probe. */
  lemma ContainsUpper(entries: seq<string>, s: string)
    requires forall i :: 0 <= i < |entries| ==> ToUpper(entries[i]) == entries[i]
    ensures ContainsIgnoreCaseIn(entries, s) <==> ToUpper(s) in entries
  {
  }

  /** The capitalised known symbols contain no white space, so none of them is blank. */
  lemma KnownNotBlank(s: string)
    ensures ToUpper(s) in KnownSymbolStrings + KnownCurrencies ==> !IsNullOrWhiteSpace(s)
  {
    BlankToUpper(s);
    var u := ToUpper(s);
    if u in KnownSymbolStrings + KnownCurrencies {
      assert |u| >= 3 && !IsWhiteSpace(u[0]);
    }
  }

  /** `IsKnownBrokerageSymbol`: false for blank input, otherwise case-insensitive membership in the known set. */
  function IsKnownBrokerageSymbol(brokerageSymbol: string): (known: bool)
    ensures known <==> ToUpper(brokerageSymbol) in {"XBTUSD", "XBTJPY", "ETHXBT", "XBTKRW"}
  {
    KnownCapitalised();
    ContainsUpper(KnownSymbolStrings, brokerageSymbol);
    KnownNotBlank(brokerageSymbol);
    if IsNullOrWhiteSpace(brokerageSymbol) then false
    else ContainsIgnoreCaseIn(KnownSymbolStrings, brokerageSymbol)
  }

  /** `IsKnownFiatCurrency`: false for blank input, otherwise case-insensitive membership in {USD, JPY}. */
  function IsKnownFiatCurrency(currency: string): (known: bool)
    ensures known <==> ToUpper(currency) in {"USD", "JPY"}
  {
    KnownCapitalised();
    ContainsUpper(KnownCurrencies, currency);
    KnownNotBlank(currency);
    if IsNullOrWhiteSpace(currency) then false
    else ContainsIgnoreCaseIn(KnownCurrencies, currency)
  }

  /**
   * `ConvertBitmexSymbolToLeanSymbol` and `ConvertLeanSymbolToBitmexSymbol`, which
   * share one body: both formats are the capitalised ticker.
   */
  function ConvertSymbol(symbol: string): (r: Result<string>)
    ensures r.Err? <==> IsNullOrWhiteSpace(symbol)
    ensures r.Err? ==> r.error == ArgumentException
    ensures r.Ok? ==> |r.value| == |symbol| && !IsNullOrWhiteSpace(r.value)
    ensures r.Ok? ==> forall i :: 0 <= i < |symbol| ==> !IsLowerAscii(r.value[i]) && EqualsIgnoreCase([r.value[i]], [symbol[i]])
  {
    BlankToUpper(symbol);
    if IsNullOrWhiteSpace(symbol) then Err(ArgumentException) else Ok(ToUpper(symbol))
  }

  /** Converting an already converted symbol changes nothing. */
  lemma ConvertSymbolIdempotent(symbol: string)
    requires ConvertSymbol(symbol).Ok?
    ensures ConvertSymbol(ConvertSymbol(symbol).value) == ConvertSymbol(symbol)
  {
    ToUpperIdempotent(symbol);
    BlankToUpper(symbol);
  }

  /** `GetBrokerageSecurityType`: Crypto for a known symbol, `ArgumentException` otherwise. */
  function GetBrokerageSecurityType(brokerageSymbol: string): (r: Result<SecurityType>)
    ensures r.Ok? <==> IsKnownBrokerageSymbol(brokerageSymbol)
    ensures r.Ok? ==> r.value == Crypto
    ensures r.Err? ==> r.error == ArgumentException
  {
    if IsNullOrWhiteSpace(brokerageSymbol) then Err(ArgumentException)
    else if !IsKnownBrokerageSymbol(brokerageSymbol) then Err(ArgumentException)
    else Ok(Crypto)
  }

  /** `GetLeanSecurityType`: the brokerage type of the converted symbol. */
  function GetLeanSecurityType(leanSymbol: string): (r: Result<SecurityType>)
    ensures r.Ok? <==> IsKnownBrokerageSymbol(leanSymbol)
    ensures r.Ok? ==> r.value == Crypto
    ensures r.Err? ==> r.error == ArgumentException
  {
    ToUpperIdempotent(leanSymbol);
    var bitmexSymbol :- ConvertSymbol(leanSymbol);
    GetBrokerageSecurityType(bitmexSymbol)
  }

  /**
   * `GetLeanSymbol(brokerageSymbol, securityType, market)`: a Crypto symbol on the
   * BitMEX market whose value is the capitalised ticker; `ArgumentException` for a
   * blank or unknown ticker, another security type or another market.
   */
  function GetLeanSymbol(brokerageSymbol: string, securityType: SecurityType, market: string): (r: Result<Symbol>)
    ensures r.Ok? <==> IsKnownBrokerageSymbol(brokerageSymbol) && securityType == Crypto && market == BitmexMarket
    ensures r.Ok? ==> r.value == Symbol(ToUpper(brokerageSymbol), Crypto, BitmexMarket)
    ensures r.Err? ==> r.error == ArgumentException
  {
    if IsNullOrWhiteSpace(brokerageSymbol) then Err(ArgumentException)
    else if !IsKnownBrokerageSymbol(brokerageSymbol) then Err(ArgumentException)
    else if securityType != Crypto then Err(ArgumentException)
    else if market != BitmexMarket then Err(ArgumentException)
    else
      var value := ConvertSymbol(brokerageSymbol).value;
      Ok(Symbol(value, GetBrokerageSecurityType(brokerageSymbol).value, BitmexMarket))
  }

  /** `GetLeanSymbol(brokerageSymbol)`: the security type is looked up and the market is BitMEX. */
  function GetLeanSymbolDefault(brokerageSymbol: string): (r: Result<Symbol>)
    ensures r.Ok? <==> IsKnownBrokerageSymbol(brokerageSymbol)
    ensures r.Ok? ==> r.value == Symbol(ToUpper(brokerageSymbol), Crypto, BitmexMarket)
    ensures r.Err? ==> r.error == ArgumentException
  {
    var securityType :- GetBrokerageSecurityType(brokerageSymbol);
    GetLeanSymbol(brokerageSymbol, securityType, BitmexMarket)
  }

  /**
   * `GetBrokerageSymbol`: the capitalised value of a known Crypto symbol on the
   * BitMEX market; `ArgumentException` otherwise.
   */
  function GetBrokerageSymbol(symbol: Symbol): (r: Result<string>)
    ensures r.Ok? <==> IsKnownBrokerageSymbol(symbol.value) && symbol.securityType == Crypto && symbol.market == BitmexMarket
    ensures r.Ok? ==> r.value == ToUpper(symbol.value)
    ensures r.Err? ==> r.error == ArgumentException
  {
    ToUpperIdempotent(symbol.value);
    if IsNullOrWhiteSpace(symbol.value) then Err(ArgumentException)
    else if symbol.securityType != Crypto then Err(ArgumentException)
    else if symbol.market != BitmexMarket then Err(ArgumentException)
    else
      var brokerageSymbol := ConvertSymbol(symbol.value).value;
      if !IsKnownBrokerageSymbol(brokerageSymbol) then Err(ArgumentException)
      else Ok(brokerageSymbol)
  }

  /**
   * `IsKnownLeanSymbol`: a symbol with a known ticker and the Crypto type. The
   * guard on values of three characters or fewer never decides the answer, since
   * every known ticker has six.
   */
  function IsKnownLeanSymbol(symbol: Symbol): (known: bool)
    ensures known <==> IsKnownBrokerageSymbol(symbol.value) && symbol.securityType == Crypto
  {
    ToUpperIdempotent(symbol.value);
    if IsNullOrWhiteSpace(symbol.value) || |symbol.value| <= 3 then false
    else
      var bitmexSymbol := ToUpper(symbol.value);
      IsKnownBrokerageSymbol(bitmexSymbol) && GetBrokerageSecurityType(bitmexSymbol) == Ok(symbol.securityType)
  }

  /** From a ticker to a host symbol and back yields the capitalised ticker. */
  lemma BrokerageRoundTrip(brokerageSymbol: string)
    requires IsKnownBrokerageSymbol(brokerageSymbol)
    ensures GetLeanSymbolDefault(brokerageSymbol).Ok?
    ensures GetBrokerageSymbol(GetLeanSymbolDefault(brokerageSymbol).value) == Ok(ToUpper(brokerageSymbol))
  {
    ToUpperIdempotent(brokerageSymbol);
  }

  /** From a host symbol with a capitalised value to a ticker and back yields the same symbol. */
  lemma LeanRoundTrip(symbol: Symbol)
    requires GetBrokerageSymbol(symbol).Ok?
    requires ToUpper(symbol.value) == symbol.value
    ensures GetLeanSymbolDefault(GetBrokerageSymbol(symbol).value) == Ok(symbol)
  {
    ToUpperIdempotent(symbol.value);
  }

  lemma KnownAt(i: int)
    requires 0 <= i < |KnownSymbolStrings|
    ensures ToUpper(KnownSymbolStrings[i]) == KnownSymbolStrings[i]
    ensures IsKnownBrokerageSymbol(KnownSymbolStrings[i])
  {
    KnownCapitalised();
  }

  /** The host symbol of a known ticker is a known host symbol. */
  lemma TickerIsKnownLean(ticker: string)
    requires IsKnownBrokerageSymbol(ticker)
    ensures IsKnownLeanSymbol(Symbol(ToUpper(ticker), Crypto, BitmexMarket))
  {
    ToUpperIdempotent(ticker);
  }

  /** `KnownSymbols`: one host symbol per known ticker, built in a loop. */
  method KnownSymbols() returns (symbols: seq<Symbol>)
    ensures |symbols| == |KnownSymbolStrings|
    ensures forall i :: 0 <= i < |symbols| ==>
      symbols[i] == Symbol(KnownSymbolStrings[i], Crypto, BitmexMarket) && IsKnownLeanSymbol(symbols[i])
  {
    forall i | 0 <= i < |KnownSymbolStrings|
      ensures IsKnownBrokerageSymbol(KnownSymbolStrings[i]) && ToUpper(KnownSymbolStrings[i]) == KnownSymbolStrings[i]
    {
      KnownAt(i);
    }
    symbols := LeanSymbolsOf(KnownSymbolStrings);
  }

  /** The loop of `KnownSymbols`: `GetLeanSymbol(tp, GetBrokerageSecurityType(tp), Market.Bitmex)` per ticker, in order. */
  method LeanSymbolsOf(tickers: seq<string>) returns (symbols: seq<Symbol>)
    requires forall i :: 0 <= i < |tickers| ==> IsKnownBrokerageSymbol(tickers[i])
    ensures |symbols| == |tickers|
    ensures forall i :: 0 <= i < |symbols| ==>
      symbols[i] == Symbol(ToUpper(tickers[i]), Crypto, BitmexMarket) && IsKnownLeanSymbol(symbols[i])
  {
    symbols := [];
    var i := 0;
    while i < |tickers|
      invariant 0 <= i <= |tickers|
      invariant |symbols| == i
      invariant forall k :: 0 <= k < i ==> symbols[k] == Symbol(ToUpper(tickers[k]), Crypto, BitmexMarket)
    {
      var tp := tickers[i];
      var securityType := GetBrokerageSecurityType(tp);
      var symbol := GetLeanSymbol(tp, securityType.value, BitmexMarket);
      symbols := symbols + [symbol.value];
      i := i + 1;
    }
    forall k | 0 <= k < |symbols|
      ensures IsKnownLeanSymbol(symbols[k])
    {
      TickerIsKnownLean(tickers[k]);
    }
  }
}
