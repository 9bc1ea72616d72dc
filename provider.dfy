/**
 * `PriceProvider`: builds the quote API's request URLs, reads the price out
 * of the parsed response, and dispatches on the item's `type`.
 *
 * The network, `parseFloat` and JavaScript's number-to-string conversion are
 * not modelled; they are the three functions of a `Host`.
 */
module Provider {
  import opened Wrappers
  import opened Text
  import opened Json
  import opened Config

  /** What `UrlFetchApp.fetch` followed by `JSON.parse` yields: a parsed body, or an exception. */
  datatype FetchResult = Body(data: Value) | Failed

  /** The runtime outside the model. */
  datatype Host = Host(fetch: string -> FetchResult, parseFloat: string -> real, show: real -> string)

  /** What `getPrice` does: return a number (0 meaning "unavailable"), or throw. */
  datatype PriceOutcome = Price(value: real) | Thrown(message: string)

  const TimeSeriesKey := "Time Series (5min)"
  const CloseKey := "4. close"
  const ExchangeKey := "Realtime Currency Exchange Rate"
  const RateKey := "5. Exchange Rate"

  /** `buildStockUrl`: the first `{symbol}`, then the first `{apiKey}`, of the stock template replaced. */
  function BuildStockUrl(config: Config, symbol: string): string
  {
    ReplaceFirst(ReplaceFirst(config.stockEndpoint, "{symbol}", symbol), "{apiKey}", config.alphaVantageApiKey)
  }

  /** `buildExchangeUrl`: the first `{from}`, `{to}` and `{apiKey}` of the exchange template replaced, in that order. */
  function BuildExchangeUrl(config: Config, from: string, to: string): string
  {
    ReplaceFirst(ReplaceFirst(ReplaceFirst(config.exchangeEndpoint, "{from}", from), "{to}", to), "{apiKey}", config.alphaVantageApiKey)
  }

  /**
   * `const [fromCurrency, toCurrency] = currencyPair.split("/")`: the missing
   * second piece is `undefined`, which `replace` inserts as "undefined".
   */
  function CurrencyOperands(pair: string): (string, string)
  {
    var parts := Split(pair, '/');
    (parts[0], if |parts| >= 2 then parts[1] else "undefined")
  }

  /**
   * The truthy `latestPrice` of a stock response: the "4. close" of the
   * series' entry under its first key, `Object.keys(timeSeries)[0]`.
   */
  function LatestClose(data: Value): Option<Value>
  {
    var series := Get(data, TimeSeriesKey);
    if !Truthy(series) then None
    else match series.value
      case Object(entries) =>
        if |entries| == 0 then None
        else
          var entry := Find(entries, entries[0].0);
          var close := if entry.Some? then Get(entry.value, CloseKey) else None;
          if Truthy(close) then close else None
      case _ => None
  }

  /** The truthy "5. Exchange Rate" of an exchange response. */
  function ExchangeRateField(data: Value): Option<Value>
  {
    var quote := Get(data, ExchangeKey);
    var rate := if quote.Some? then Get(quote.value, RateKey) else None;
    if Truthy(rate) then rate else None
  }

  /** `getStockPrice`: never throws; 0 for a failed request or a missing field. */
  function GetStockPrice(config: Config, host: Host, symbol: string): real
  {
    match host.fetch(BuildStockUrl(config, symbol))
    case Failed => 0.0
    case Body(data) =>
      match LatestClose(data)
      case None => 0.0
      case Some(close) => host.parseFloat(ToText(close))
  }

  /** `getExchangeRate`: never throws; 0 for a failed request or a missing field. */
  function GetExchangeRate(config: Config, host: Host, pair: string): real
  {
    var (from, to) := CurrencyOperands(pair);
    match host.fetch(BuildExchangeUrl(config, from, to))
    case Failed => 0.0
    case Body(data) =>
      match ExchangeRateField(data)
      case None => 0.0
      case Some(rate) => host.parseFloat(ToText(rate))
  }

  /** The URL `getPrice` requests for an item, if its type is supported. */
  function RequestUrl(config: Config, item: WatchItem): Option<string>
  {
    if item.kind == "stock" then Some(BuildStockUrl(config, item.symbol))
    else if item.kind == "exchange" then
      var (from, to) := CurrencyOperands(item.symbol);
      Some(BuildExchangeUrl(config, from, to))
    else None
  }

  /** `getPrice`: dispatch on `type`; any other type than "stock" or "exchange" throws. */
  function GetPrice(config: Config, host: Host, item: WatchItem): (r: PriceOutcome)
    ensures r.Thrown? <==> item.kind != "stock" && item.kind != "exchange"
    ensures r.Thrown? <==> RequestUrl(config, item).None?
    ensures r.Thrown? ==> r.message == "未対応のタイプ: " + item.kind
  {
    match item.kind
    case "stock" => Price(GetStockPrice(config, host, item.symbol))
    case "exchange" => Price(GetExchangeRate(config, host, item.symbol))
    case _ => Thrown("未対応のタイプ: " + item.kind)
  }

  /** Filling a two-slot template whose fixed parts hold no brace. */
  lemma FillTwoSlots(head: string, middle: string, symbol: string, key: string)
    requires '{' !in head && '{' !in middle && '{' !in symbol
    requires '$' !in symbol && '$' !in key
    ensures ReplaceFirst(ReplaceFirst(head + "{symbol}" + middle + "{apiKey}", "{symbol}", symbol), "{apiKey}", key)
         == head + symbol + middle + key
  {
    assert head + "{symbol}" + middle + "{apiKey}" == head + "{symbol}" + (middle + "{apiKey}");
    ReplacePlaceholder(head, "{symbol}", middle + "{apiKey}", symbol);
    var a := head + symbol + middle;
    assert head + symbol + (middle + "{apiKey}") == a + "{apiKey}" + "";
    ReplacePlaceholder(a, "{apiKey}", "", key);
    assert a + key + "" == a + key;
  }

  /** Filling a three-slot template whose fixed parts hold no brace. */
  lemma FillThreeSlots(head: string, middle: string, tail: string, from: string, to: string, key: string)
    requires '{' !in head && '{' !in middle && '{' !in tail && '{' !in from && '{' !in to
    requires '$' !in from && '$' !in to && '$' !in key
    ensures ReplaceFirst(ReplaceFirst(ReplaceFirst(head + "{from}" + middle + "{to}" + tail + "{apiKey}",
              "{from}", from), "{to}", to), "{apiKey}", key)
         == head + from + middle + to + tail + key
  {
    assert head + "{from}" + middle + "{to}" + tail + "{apiKey}" == head + "{from}" + (middle + "{to}" + tail + "{apiKey}");
    ReplacePlaceholder(head, "{from}", middle + "{to}" + tail + "{apiKey}", from);
    var a := head + from + middle;
    assert head + from + (middle + "{to}" + tail + "{apiKey}") == a + "{to}" + (tail + "{apiKey}");
    ReplacePlaceholder(a, "{to}", tail + "{apiKey}", to);
    var b := a + to + tail;
    assert a + to + (tail + "{apiKey}") == b + "{apiKey}" + "";
    ReplacePlaceholder(b, "{apiKey}", "", key);
    assert b + key + "" == head + from + middle + to + tail + key;
  }

  /**
   * With the shipped stock template, a symbol and key free of `{` and `$`
   * land in their two slots and the rest of the template is kept.
   */
  lemma StockUrlShape(config: Config, symbol: string)
    requires config.stockEndpoint == StockEndpoint
    requires '{' !in symbol && '$' !in symbol && '$' !in config.alphaVantageApiKey
    ensures BuildStockUrl(config, symbol)
         == StockEndpointHead + symbol + StockEndpointMiddle + config.alphaVantageApiKey
  {
    StockTemplateBraceFree();
    FillTwoSlots(StockEndpointHead, StockEndpointMiddle, symbol, config.alphaVantageApiKey);
  }

  /**
   * Only the first `{apiKey}` is replaced: a symbol that is itself the
   * placeholder receives the key, and the template's own `{apiKey}` stays.
   */
  lemma StockUrlPlaceholderInSymbol(config: Config)
    requires config.stockEndpoint == StockEndpoint
    requires '$' !in config.alphaVantageApiKey
    ensures BuildStockUrl(config, "{apiKey}")
         == StockEndpointHead + config.alphaVantageApiKey + StockEndpointMiddle + "{apiKey}"
  {
    var head, middle := StockEndpointHead, StockEndpointMiddle;
    StockTemplateBraceFree();
    assert StockEndpoint == head + "{symbol}" + (middle + "{apiKey}");
    ReplacePlaceholder(head, "{symbol}", middle + "{apiKey}", "{apiKey}");
    ReplacePlaceholder(head, "{apiKey}", middle + "{apiKey}", config.alphaVantageApiKey);
  }

  /**
   * With the shipped exchange template, currency codes and key free of `{`
   * and `$` land in their three slots.
   */
  lemma ExchangeUrlShape(config: Config, from: string, to: string)
    requires config.exchangeEndpoint == ExchangeEndpoint
    requires '{' !in from && '$' !in from && '{' !in to && '$' !in to
    requires '$' !in config.alphaVantageApiKey
    ensures BuildExchangeUrl(config, from, to)
         == ExchangeEndpointHead + from + ExchangeEndpointMiddle + to + ExchangeEndpointTail + config.alphaVantageApiKey
  {
    ExchangeTemplateBraceFree();
    FillThreeSlots(ExchangeEndpointHead, ExchangeEndpointMiddle, ExchangeEndpointTail, from, to, config.alphaVantageApiKey);
  }

  /** A "BASE/QUOTE" pair splits into its two codes. */
  lemma CurrencyOperandsOfPair(base: string, quote: string)
    requires '/' !in base && '/' !in quote
    ensures CurrencyOperands(base + "/" + quote) == (base, quote)
  {
    SplitJoin([base, quote], '/');
    assert Join([base, quote], '/') == base + "/" + quote;
  }

  /** A symbol without `/` leaves the quote currency `undefined`. */
  lemma CurrencyOperandsWithoutSlash(pair: string)
    requires '/' !in pair
    ensures CurrencyOperands(pair) == (pair, "undefined")
  {
    SplitJoin([pair], '/');
  }

  /** The request an exchange item makes: its two currency codes, split at `/`, in the template's slots. */
  lemma ExchangeRequestForPair(config: Config, item: WatchItem, base: string, quote: string)
    requires config.exchangeEndpoint == ExchangeEndpoint
    requires item.kind == "exchange" && item.symbol == base + "/" + quote
    requires '/' !in base && '{' !in base && '$' !in base
    requires '/' !in quote && '{' !in quote && '$' !in quote
    requires '$' !in config.alphaVantageApiKey
    ensures RequestUrl(config, item)
         == Some(ExchangeEndpointHead + base + ExchangeEndpointMiddle + quote + ExchangeEndpointTail + config.alphaVantageApiKey)
  {
    CurrencyOperandsOfPair(base, quote);
    ExchangeUrlShape(config, base, quote);
  }

  /** A failed request makes both fetchers report the 0 sentinel. */
  lemma FailedRequestIsZero(config: Config, host: Host, item: WatchItem)
    requires RequestUrl(config, item).Some?
    requires host.fetch(RequestUrl(config, item).value) == Failed
    ensures GetPrice(config, host, item) == Price(0.0)
  {
  }

  /** A stock response without "Time Series (5min)" gives 0. */
  lemma StockWithoutSeriesIsZero(config: Config, host: Host, symbol: string, data: Value)
    requires host.fetch(BuildStockUrl(config, symbol)) == Body(data)
    requires Get(data, TimeSeriesKey).None?
    ensures GetStockPrice(config, host, symbol) == 0.0
  {
  }

  /** Otherwise the price is the "4. close" of the entry under the series' first key, whatever the other entries hold. */
  lemma StockPriceFromFirstEntry(config: Config, host: Host, symbol: string, data: Value,
                                 entries: seq<(string, Value)>, entry: Value, close: string)
    requires host.fetch(BuildStockUrl(config, symbol)) == Body(data)
    requires Get(data, TimeSeriesKey) == Some(Object(entries))
    requires |entries| > 0 && Find(entries, entries[0].0) == Some(entry)
    requires Get(entry, CloseKey) == Some(Str(close)) && close != ""
    ensures GetStockPrice(config, host, symbol) == host.parseFloat(close)
  {
  }

  /** The first entry is taken even when a later entry carries the newer timestamp. */
  lemma StockPriceTakesFirstKey(config: Config, host: Host, symbol: string)
    requires host.fetch(BuildStockUrl(config, symbol)) == Body(Object([
      (TimeSeriesKey, Object([
        ("2024-01-05 15:55:00", Object([(CloseKey, Str("99.5"))])),
        ("2024-01-05 16:00:00", Object([(CloseKey, Str("101.25"))]))]))]))
    ensures GetStockPrice(config, host, symbol) == host.parseFloat("99.5")
  {
    var entries := [
      ("2024-01-05 15:55:00", Object([(CloseKey, Str("99.5"))])),
      ("2024-01-05 16:00:00", Object([(CloseKey, Str("101.25"))]))];
    var first := Object([(CloseKey, Str("99.5"))]);
    assert entries[1..][0].0 != entries[0].0;
    assert Find(entries[1..], entries[0].0) == None;
    StockPriceFromFirstEntry(config, host, symbol, Object([(TimeSeriesKey, Object(entries))]), entries, first, "99.5");
  }

  /** An exchange response without "5. Exchange Rate" under "Realtime Currency Exchange Rate" gives 0. */
  lemma ExchangeWithoutRateIsZero(config: Config, host: Host, pair: string, data: Value)
    requires host.fetch(BuildExchangeUrl(config, CurrencyOperands(pair).0, CurrencyOperands(pair).1)) == Body(data)
    requires Get(data, ExchangeKey).None? || Get(Get(data, ExchangeKey).value, RateKey).None?
    ensures GetExchangeRate(config, host, pair) == 0.0
  {
  }

  /** Otherwise the rate is the parsed "5. Exchange Rate". */
  lemma ExchangeRateFromField(config: Config, host: Host, pair: string, data: Value, quote: Value, rate: string)
    requires host.fetch(BuildExchangeUrl(config, CurrencyOperands(pair).0, CurrencyOperands(pair).1)) == Body(data)
    requires Get(data, ExchangeKey) == Some(quote) && Get(quote, RateKey) == Some(Str(rate)) && rate != ""
    ensures GetExchangeRate(config, host, pair) == host.parseFloat(rate)
  {
  }

  /**
   * The price depends on the network only through the one URL the item
   * requests: two runtimes that answer that URL alike, and parse numbers
   * alike, give the same outcome.
   */
  lemma GetPriceReadsRequestUrl(config: Config, h1: Host, h2: Host, item: WatchItem)
    requires RequestUrl(config, item).Some? ==> h1.fetch(RequestUrl(config, item).value) == h2.fetch(RequestUrl(config, item).value)
    requires h1.parseFloat == h2.parseFloat
    ensures GetPrice(config, h1, item) == GetPrice(config, h2, item)
  {
  }
}
