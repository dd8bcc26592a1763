/**
 * The market-data layer of bot.js: the two identifier tables, the two provider
 * adapters (Binance first, CoinGecko as fallback) and `getMarketData`, which tries
 * them in order. The network is not modelled: what each provider would answer is
 * an input (a Reply), and an adapter only looks at it when it would have sent its
 * requests.
 */
module Providers {
  import opened Wrappers
  import opened Series

  // ---- Identifier tables ---------------------------------------------------

  /** CoinGecko coin identifiers by ticker. */
  const SymbolMapping: map<string, string> := map[
    "BTC" := "bitcoin",
    "ETH" := "ethereum",
    "SOL" := "solana",
    "ADA" := "cardano",
    "DOT" := "polkadot",
    "MATIC" := "matic-network",
    "LINK" := "chainlink",
    "UNI" := "uniswap",
    "AVAX" := "avalanche-2",
    "ATOM" := "cosmos",
    "XRP" := "ripple",
    "DOGE" := "dogecoin",
    "LTC" := "litecoin",
    "BCH" := "bitcoin-cash"]

  /** Binance trading pairs against USDT by ticker. */
  const BinancePair: map<string, string> := map[
    "BTC" := "BTCUSDT", "ETH" := "ETHUSDT", "SOL" := "SOLUSDT", "ADA" := "ADAUSDT",
    "DOT" := "DOTUSDT", "MATIC" := "MATICUSDT", "LINK" := "LINKUSDT", "UNI" := "UNIUSDT",
    "AVAX" := "AVAXUSDT", "ATOM" := "ATOMUSDT", "XRP" := "XRPUSDT", "DOGE" := "DOGEUSDT",
    "LTC" := "LTCUSDT", "BCH" := "BCHUSDT"]

  /** Both tables know the same tickers, and every Binance pair is the ticker quoted in USDT. */
  lemma TablesAgree()
    ensures SymbolMapping.Keys == BinancePair.Keys
    ensures forall s :: s in BinancePair ==> BinancePair[s] == s + "USDT"
  {
  }

  // ---- Symbols --------------------------------------------------------------

  /** `toUpperCase` on one character, for the ASCII range. */
  function UpperChar(c: char): char
  {
    if 'a' <= c <= 'z' then (c as int - 32) as char else c
  }

  /** `String(...).toUpperCase()` for ASCII text. */
  function ToUpper(s: string): (r: string)
    ensures |r| == |s|
    ensures forall i :: 0 <= i < |s| ==> r[i] == UpperChar(s[i])
  {
    seq(|s|, i requires 0 <= i < |s| => UpperChar(s[i]))
  }

  /** Upper-casing leaves no lower-case ASCII letter and changes nothing else. */
  lemma ToUpperSpec(s: string)
    ensures forall i :: 0 <= i < |s| ==> !('a' <= ToUpper(s)[i] <= 'z')
    ensures forall i :: 0 <= i < |s| && !('a' <= s[i] <= 'z') ==> ToUpper(s)[i] == s[i]
  {
  }

  /** Upper-casing twice is upper-casing once. */
  lemma ToUpperIdempotent(s: string)
    ensures ToUpper(ToUpper(s)) == ToUpper(s)
  {
  }

  // ---- Provider payloads ------------------------------------------------------

  /** One kline as Binance returns it. In the API's array form `close` is column 4
      and `quoteVolume` (volume in USDT) is column 7. */
  datatype Kline = Kline(
    openTime: real, open: real, high: real, low: real, close: real,
    volume: real, closeTime: real, quoteVolume: real,
    trades: real, takerBuyBaseVolume: real, takerBuyQuoteVolume: real, ignore: real)

  /** The 24-hour ticker fields the adapter reads. */
  datatype Ticker = Ticker(lastPrice: real, priceChangePercent: real, quoteVolume: real)

  /** The answers to Binance's two requests (ticker and the last 168 hourly klines). */
  datatype BinancePayload = BinancePayload(ticker: Ticker, klines: seq<Kline>)

  /** CoinGecko's `simple/price` entry for the coin: the USD price, and the optional
      24-hour change and volume. */
  datatype SimplePrice = SimplePrice(usd: real, usd24hChange: Option<real>, usd24hVol: Option<real>)

  /** CoinGecko's `market_chart` answer: optional `[time, value]` series. */
  datatype MarketChart = MarketChart(prices: Option<seq<(real, real)>>, totalVolumes: Option<seq<(real, real)>>)

  datatype CoinGeckoPayload = CoinGeckoPayload(price: SimplePrice, chart: MarketChart)

  /** What a provider's pair of requests yields: both answers, or a failure of either
      (timeout, HTTP error, rejected promise). */
  datatype Reply<P> = Received(payload: P) | Failed

  // ---- Column projections ---------------------------------------------------

  /** `kl.map(k => k[4])`: the close prices. */
  function Closes(klines: seq<Kline>): (prices: seq<real>)
    ensures |prices| == |klines|
    ensures forall i :: 0 <= i < |klines| ==> prices[i] == klines[i].close
  {
    seq(|klines|, i requires 0 <= i < |klines| => klines[i].close)
  }

  /** `kl.map(k => k[7])`: the quote-asset volumes. */
  function QuoteVolumes(klines: seq<Kline>): (volumes: seq<real>)
    ensures |volumes| == |klines|
    ensures forall i :: 0 <= i < |klines| ==> volumes[i] == klines[i].quoteVolume
  {
    seq(|klines|, i requires 0 <= i < |klines| => klines[i].quoteVolume)
  }

  /** `(series || []).map(p => p[1])`: the values of a `[time, value]` series, none
      when the series is missing. */
  function Values(series: Option<seq<(real, real)>>): (values: seq<real>)
    ensures series.None? ==> values == []
    ensures series.Some? ==>
      && |values| == |series.value|
      && forall i :: 0 <= i < |series.value| ==> values[i] == series.value[i].1
  {
    match series
    case None => []
    case Some(s) => seq(|s|, i requires 0 <= i < |s| => s[i].1)
  }

  // ---- Adapters ---------------------------------------------------------------

  datatype AdapterError = PairNotSupported | CoinNotSupported | RequestFailed

  /** An adapter's result: a snapshot, `null` (an empty price series), or a thrown error. */
  datatype Outcome = Ok(snapshot: Metrics) | Null | Err(error: AdapterError)

  /** A settled adapter call never throws: an empty series is `null`, anything else a
      snapshot. */
  function FromMetrics(m: Option<Metrics>): (r: Outcome)
    ensures r.Null? <==> m.None?
    ensures r.Ok? <==> m.Some?
    ensures r.Ok? ==> r.snapshot == m.value
  {
    match m
    case None => Null
    case Some(m) => Ok(m)
  }

  /** What `fetchFromBinance(symbol)` settles to, given what Binance would answer. */
  function BinanceOutcome(symbol: string, reply: Reply<BinancePayload>): Outcome
  {
    if symbol !in BinancePair then Err(PairNotSupported)
    else match reply
      case Failed => Err(RequestFailed)
      case Received(p) =>
        FromMetrics(MetricsOf(Closes(p.klines), QuoteVolumes(p.klines),
                              p.ticker.lastPrice, p.ticker.priceChangePercent, p.ticker.quoteVolume))
  }

  /** What `fetchFromCoinGecko(symbol)` settles to, given what CoinGecko would answer. */
  function CoinGeckoOutcome(symbol: string, reply: Reply<CoinGeckoPayload>): Outcome
  {
    if symbol !in SymbolMapping then Err(CoinNotSupported)
    else match reply
      case Failed => Err(RequestFailed)
      case Received(p) =>
        FromMetrics(MetricsOf(Values(p.chart.prices), Values(p.chart.totalVolumes),
                              p.price.usd, p.price.usd24hChange.GetOr(0.0), p.price.usd24hVol.GetOr(0.0)))
  }

  /** `fetchFromBinance`: the table check, then (only for a known pair) the requests,
      the column projections and the series metrics. `requested` says whether the
      adapter went to the network. */
  method FetchFromBinance(symbol: string, reply: Reply<BinancePayload>) returns (o: Outcome, requested: bool)
    ensures o == BinanceOutcome(symbol, reply)
    ensures requested <==> symbol in BinancePair
  {
    if symbol !in BinancePair {
      return Err(PairNotSupported), false;
    }
    requested := true;
    match reply {
      case Failed =>
        o := Err(RequestFailed);
      case Received(p) =>
        var prices := Closes(p.klines);
        var volumes := QuoteVolumes(p.klines);
        var t := p.ticker;
        var m := ComputeMetricsFromSeries(prices, volumes, t.lastPrice, t.priceChangePercent, t.quoteVolume);
        o := FromMetrics(m);
    }
  }

  /** `fetchFromCoinGecko`: the table check, then (only for a known coin) the requests,
      the value projections and the series metrics; a missing 24-hour change or
      volume counts as 0. */
  method FetchFromCoinGecko(symbol: string, reply: Reply<CoinGeckoPayload>) returns (o: Outcome, requested: bool)
    ensures o == CoinGeckoOutcome(symbol, reply)
    ensures requested <==> symbol in SymbolMapping
  {
    if symbol !in SymbolMapping {
      return Err(CoinNotSupported), false;
    }
    requested := true;
    match reply {
      case Failed =>
        o := Err(RequestFailed);
      case Received(p) =>
        var prices := Values(p.chart.prices);
        var volumes := Values(p.chart.totalVolumes);
        var change24h := p.price.usd24hChange.GetOr(0.0);
        var volume24h := p.price.usd24hVol.GetOr(0.0);
        var m := ComputeMetricsFromSeries(prices, volumes, p.price.usd, change24h, volume24h);
        o := FromMetrics(m);
    }
  }

  /** Binance yields a snapshot exactly when the pair is known, both requests succeed
      and the klines are not empty; the snapshot passes the ticker through and brackets
      every close between its weekly low and high. */
  lemma BinanceOkIff(symbol: string, reply: Reply<BinancePayload>)
    ensures BinanceOutcome(symbol, reply).Ok? <==>
      symbol in BinancePair && reply.Received? && |reply.payload.klines| > 0
    ensures BinanceOutcome(symbol, reply).Ok? ==>
      var m, p := BinanceOutcome(symbol, reply).snapshot, reply.payload;
      && m.price == p.ticker.lastPrice
      && m.change24h == p.ticker.priceChangePercent
      && m.volume24h == p.ticker.quoteVolume
      && forall i :: 0 <= i < |p.klines| ==> m.low7d <= p.klines[i].close <= m.high7d
  {
    if BinanceOutcome(symbol, reply).Ok? {
      var p := reply.payload;
      var m := BinanceOutcome(symbol, reply).snapshot;
      assert MetricsOf(Closes(p.klines), QuoteVolumes(p.klines), p.ticker.lastPrice,
                       p.ticker.priceChangePercent, p.ticker.quoteVolume) == Some(m);
    }
  }

  /** CoinGecko yields a snapshot exactly when the coin is known, both requests succeed
      and the chart has a non-empty price series; missing 24-hour fields read as 0. */
  lemma CoinGeckoOkIff(symbol: string, reply: Reply<CoinGeckoPayload>)
    ensures CoinGeckoOutcome(symbol, reply).Ok? <==>
      && symbol in SymbolMapping && reply.Received?
      && reply.payload.chart.prices.Some? && |reply.payload.chart.prices.value| > 0
    ensures CoinGeckoOutcome(symbol, reply).Ok? ==>
      var m, p := CoinGeckoOutcome(symbol, reply).snapshot, reply.payload;
      && m.price == p.price.usd
      && (p.price.usd24hChange.None? ==> m.change24h == 0.0)
      && (p.price.usd24hVol.None? ==> m.volume24h == 0.0)
  {
  }

  /** A ticker missing from the tables makes both adapters fail before any request. */
  lemma UnknownSymbolRejected(symbol: string, b: Reply<BinancePayload>, c: Reply<CoinGeckoPayload>)
    requires symbol !in BinancePair
    ensures BinanceOutcome(symbol, b) == Err(PairNotSupported)
    ensures CoinGeckoOutcome(symbol, c) == Err(CoinNotSupported)
  {
    TablesAgree();
  }

  // ---- Resolver ---------------------------------------------------------------

  datatype Provider = Binance | CoinGecko

  /** The snapshot `getMarketData` returns: the provider tag, the upper-cased symbol
      and the adapter's fields. */
  datatype MarketData = MarketData(provider: Provider, symbol: string, metrics: Metrics)

  /** `getMarketData`: upper-case the symbol, try Binance, fall back to CoinGecko when
      Binance throws or returns null, and return null when both fail. `requested`
      lists the providers that were sent requests, in order. */
  method GetMarketData(inputSymbol: string, binance: Reply<BinancePayload>, coinGecko: Reply<CoinGeckoPayload>)
    returns (md: Option<MarketData>, requested: seq<Provider>)
    ensures var s := ToUpper(inputSymbol);
      var b, c := BinanceOutcome(s, binance), CoinGeckoOutcome(s, coinGecko);
      && (b.Ok? ==> md == Some(MarketData(Binance, s, b.snapshot)))
      && (!b.Ok? && c.Ok? ==> md == Some(MarketData(CoinGecko, s, c.snapshot)))
      && (!b.Ok? && !c.Ok? ==> md == None)
      && requested == (if s in BinancePair then [Binance] else [])
                      + (if !b.Ok? && s in SymbolMapping then [CoinGecko] else [])
    ensures ToUpper(inputSymbol) !in BinancePair ==> md == None && requested == []
  {
    var s := ToUpper(inputSymbol);
    requested := [];
    TablesAgree();

    var res, sent := FetchFromBinance(s, binance);
    if sent {
      requested := requested + [Binance];
    }
    if res.Ok? {
      return Some(MarketData(Binance, s, res.snapshot)), requested;
    }

    res, sent := FetchFromCoinGecko(s, coinGecko);
    if sent {
      requested := requested + [CoinGecko];
    }
    if res.Ok? {
      return Some(MarketData(CoinGecko, s, res.snapshot)), requested;
    }

    md := None;
  }
}
