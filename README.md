# AI Crypto Tracker bot: market-data core in Dafny

This project models the decision layer of the AI Crypto Tracker Telegram bot
(`bot.js`). The bot answers `/price`, `/signal` and bare-ticker messages with a
market snapshot. Three parts of it carry logic:

- **Series metrics** (`computeMetricsFromSeries`): weekly high and low, simple
  returns, a zero-centred variance, mean volume, and support and resistance.
- **Provider fallback** (`getMarketData`): the two identifier tables, the Binance
  and CoinGecko adapters with their table checks and column projections, and
  the ordered fallback from Binance to CoinGecko.
- **Display decisions**: `round`, the idea, stop and take levels of
  `formatSignal`, and the bare-ticker check on plain messages.

Prices and volumes are mathematical reals, not IEEE doubles. The network is not
modelled. What a provider would answer to its pair of requests is an input,
`Reply<P>`: either the received payload or a failure. An adapter looks at that
input only after its table check passes. `GetMarketData` also returns the list
of providers it sent requests to, so "no request for an unknown symbol" is a
postcondition.

Modules, one per section of `bot.js`:

- `Wrappers` (`wrappers.dfy`): `Option`, which stands for `null`/`undefined`.
- `Series` (`series.dfy`): the snapshot record `Metrics` and the series statistics.
  `ComputeMetricsFromSeries` keeps the source's push loop. It is specified by the
  function `MetricsOf`.
- `Providers` (`providers.dfy`): the tables, upper-casing, the payload shapes, the
  adapters, and the resolver.
- `Formatting` (`formatting.dfy`): `round` and the numeric part of `formatSignal`.
  `formatSignal` keeps its step-by-step reassignment of the idea.
- `Chat` (`chat.dfy`): the `/^[A-Za-z]{2,10}$/` check for plain messages.

Each adapter appears twice. The function (`BinanceOutcome`, `CoinGeckoOutcome`)
states what the adapter settles to, so lemmas and the resolver's contract can
speak about it. The method (`FetchFromBinance`, `FetchFromCoinGecko`) is what the
resolver runs: it calls the looping `ComputeMetricsFromSeries` and reports whether
it sent requests. Its postcondition ties it to the function.

The spec functions `Scale(x, d)` (`x * d`), `Unscale(n, d)` (`n / d`), `Square`
and `Quotient` wrap real products and quotients. The arithmetic facts about them
are then stated once, next to their definitions.

## Model

| member | source | states |
|---|---|---|
| `Series.Max` | bot.js:60 | The weekly high is one of the prices and no price exceeds it |
| `Series.Min` | bot.js:61 | The weekly low is one of the prices and no price is below it |
| `Series.StepReturn` | bot.js:68 | The simple return of a step from a positive price is zero exactly when the price did not move, and positive exactly when it rose |
| `Series.Returns` | bot.js:63-71 | No contract of its own; characterised by `ReturnsLength`, `ReturnsSound`, `ReturnsComplete` and `ReturnsEmptyIff` |
| `Series.SumSquares` | bot.js:72 | No contract of its own; characterised by `SumSquaresNonNegative` and `SumSquaresOfZeros` |
| `Series.Variance` | bot.js:72 | No contract of its own; characterised by `VarianceNonNegative`, `VarianceOfZeroReturns` and `SnapshotLevels` |
| `Series.Sum` | bot.js:76 | No contract of its own; characterised by `SumBounds` |
| `Series.Quotient` | bot.js:76 | No contract of its own; characterised by `MeanBetween` |
| `Series.AvgVolume` | bot.js:75-77 | No contract of its own; characterised by `AvgVolumeWithin`, `AvgVolumeBetweenExtremes` and `AvgVolumeNonNegative` |
| `Series.Square` | bot.js:72 | Each squared return is non-negative, and zero for a zero return |
| `Series.MetricsOf` | bot.js:57-89 | Result is null exactly when there are no prices; otherwise low7d and high7d are prices that bracket every price, price/change24h/volume24h are the arguments unchanged, and the variance is non-negative |
| `Series.ComputeMetricsFromSeries` | bot.js:57-89 | The looping implementation returns exactly `MetricsOf` of its arguments; the loop keeps the returns collected so far equal to the returns of the prefix read |
| `Series.ReturnsLength` | bot.js:63-71 | At most one return per step, so no more than `prices.length - 1` returns |
| `Series.ReturnsSound` | bot.js:63-71 | Every recorded return is `(cur - prev) / prev` of some step whose previous price is positive |
| `Series.ReturnsComplete` | bot.js:63-71 | Every step whose previous price is positive contributes its return |
| `Series.ReturnsEmptyIff` | bot.js:63-71 | No return is recorded exactly when no step starts at a positive price |
| `Series.ConstantSeriesReturnsZero` | bot.js:63-71 | A constant series records only zero returns |
| `Series.SumSquaresNonNegative` | bot.js:72 | The sum of squared returns is non-negative |
| `Series.SumSquaresOfZeros` | bot.js:72 | The sum of squares of zero returns is zero |
| `Series.VarianceNonNegative` | bot.js:72 | The variance (sum of squares over `max(1, count)`) is never negative |
| `Series.VarianceOfZeroReturns` | bot.js:72 | The variance is zero when all returns are zero, including when there are none |
| `Series.ConstantSeriesZeroVariance` | bot.js:63-73 | A constant price series has zero variance, hence zero volatility |
| `Series.NoPositiveStepZeroVariance` | bot.js:63-73 | A series with no step from a positive price has zero variance |
| `Series.SumBounds` | bot.js:76 | If every volume lies in [lo, hi], the sum lies in [n*lo, n*hi] |
| `Series.MeanBetween` | bot.js:76 | Dividing a sum bounded by n*lo and n*hi by a positive count gives a value in [lo, hi] |
| `Series.AvgVolumeWithin` | bot.js:75-77 | If every volume lies in [lo, hi], so does the mean volume |
| `Series.AvgVolumeBetweenExtremes` | bot.js:75-77 | The mean volume of a non-empty series lies between its smallest and largest volume |
| `Series.AvgVolumeNonNegative` | bot.js:75-77 | Non-negative volumes give a non-negative mean volume; no volumes give 0 |
| `Series.SnapshotLevels` | bot.js:79-88 | In a snapshot, low7d <= high7d, support = low7d * 1.02, resistance = high7d * 0.98, and avgVolume and variance are the mean volume and the variance of the returns |
| `Series.SupportMayExceedResistance` | bot.js:86-87 | Support can lie above resistance (a one-point series at 100 gives 102 and 98), so consumers must tolerate an inverted range |
| `Providers.TablesAgree` | bot.js:25-48 | The CoinGecko and Binance tables have the same tickers, and each Binance pair is the ticker followed by USDT |
| `Providers.UpperChar` | bot.js:153 | No contract of its own; characterised by `ToUpperSpec` and `ToUpperIdempotent` |
| `Providers.ToUpper` | bot.js:153 | Upper-casing keeps the length and maps each character through the ASCII upper-case mapping |
| `Providers.ToUpperSpec` | bot.js:153 | After upper-casing no lower-case ASCII letter remains and every other character is unchanged |
| `Providers.ToUpperIdempotent` | bot.js:153 | Upper-casing twice is the same as once |
| `Providers.Closes` | bot.js:105 | The Binance price series is the close column of every kline, in order |
| `Providers.QuoteVolumes` | bot.js:106 | The Binance volume series is the quote-volume column of every kline, in order |
| `Providers.Values` | bot.js:142-143 | The CoinGecko series is the value of every `[time, value]` pair, and empty when the series is missing |
| `Providers.FromMetrics` | bot.js:111 | A settled adapter call never throws: an empty series settles to null and any other series to its snapshot |
| `Providers.BinanceOutcome` | bot.js:92-112 | No contract of its own; characterised by `BinanceOkIff`, `UnknownSymbolRejected` and `FetchFromBinance` |
| `Providers.CoinGeckoOutcome` | bot.js:114-149 | No contract of its own; characterised by `CoinGeckoOkIff`, `UnknownSymbolRejected` and `FetchFromCoinGecko` |
| `Providers.FetchFromBinance` | bot.js:92-112 | Binance adapter: fails with PAIR_NOT_SUPPORTED, without requesting, for a ticker outside the table; otherwise requests, fails on a failed request, and returns the metrics of closes and quote volumes with the ticker fields passed through (null for no klines) |
| `Providers.FetchFromCoinGecko` | bot.js:114-149 | CoinGecko adapter: fails with COIN_NOT_SUPPORTED, without requesting, for a ticker outside the table; otherwise requests, fails on a failed request, and returns the metrics of the chart series, with a missing 24-hour change or volume read as 0 |
| `Providers.BinanceOkIff` | bot.js:92-112 | Binance yields a snapshot exactly when the pair is known, the requests succeed and there is at least one kline; the snapshot passes the ticker through and brackets every close |
| `Providers.CoinGeckoOkIff` | bot.js:114-149 | CoinGecko yields a snapshot exactly when the coin is known, the requests succeed and the chart has a non-empty price series; missing 24-hour fields read as 0 |
| `Providers.UnknownSymbolRejected` | bot.js:92-116 | A ticker missing from the tables makes both adapters throw before any request |
| `Providers.GetMarketData` | bot.js:152-180 | Returns the Binance snapshot tagged Binance whenever Binance yields one; otherwise the CoinGecko snapshot tagged CoinGecko; otherwise null. The symbol is the upper-cased input. CoinGecko is requested only after Binance failed or returned null. An unknown ticker yields null with no request sent |
| `Formatting.Pow10` | bot.js:53 | The scale factor 10^d is at least 1 |
| `Formatting.RoundHalfUp` | bot.js:54 | `Math.round` gives the integer within half a unit of its argument, halves going up |
| `Formatting.Unscale` | bot.js:54 | Dividing by the scale and multiplying back restores the value |
| `Formatting.Scale` | bot.js:54 | No contract of its own; characterised by `Unscale` |
| `Formatting.Round` | bot.js:51-55 | No contract of its own (decimals default to 2); characterised by `RoundIsNearest` and `RoundIdempotent` |
| `Formatting.RoundIsNearest` | bot.js:51-55 | `round` gives 0 for null or undefined; otherwise the result times 10^d is a whole number within half a unit of value times 10^d, halves rounded up |
| `Formatting.RoundIdempotent` | bot.js:51-55 | Rounding an already rounded value changes nothing |
| `Formatting.NearSupport` | bot.js:200 | No contract of its own; characterised by `FormatSignal` and `OnePointSeriesNearBoth` |
| `Formatting.NearResistance` | bot.js:201 | No contract of its own; characterised by `FormatSignal` and `OnePointSeriesNearBoth` |
| `Formatting.FormatSignal` | bot.js:199-208 | The idea is "resistance" exactly when the price is near resistance; it is "support" exactly when the price is near support and not near resistance (the later assignment wins); otherwise it is neutral. Stop and take are 0.96/1.06 times the price after a negative 24h change and 0.94/1.08 otherwise, so stop < price < take for a positive price |
| `Formatting.OnePointSeriesNearBoth` | bot.js:200-205 | Both tests can hold at once: on a one-point series at a positive price the price is near support and near resistance |
| `Chat.IsAsciiLetter` | bot.js:268 | No contract of its own; characterised by `LettersOnlyIff` |
| `Chat.LettersOnly` | bot.js:268 | No contract of its own; characterised by `LettersOnlyIff` |
| `Chat.IsBareTicker` | bot.js:268 | No contract of its own; characterised by `BareTickerSymbol`, `UpperCaseWordAccepted` and `SupportedTickersAccepted` |
| `Chat.LettersOnlyIff` | bot.js:268 | The left-to-right scan accepts exactly the strings made only of ASCII letters |
| `Chat.BareTickerSymbol` | bot.js:266-269 | A plain message is taken as a symbol exactly when it is 2 to 10 ASCII letters; the symbol is then the upper-cased text, of the same length and made of capital letters only |
| `Chat.UpperCaseWordAccepted` | bot.js:268 | A word of 2 to 10 upper-case letters is accepted and asks for itself |
| `Chat.SupportedTickersAccepted` | bot.js:268 | Every supported ticker passes the check unchanged |

## Left out

- Volatility: `Math.sqrt` has no counterpart over the reals here. The snapshot carries the variance the code computes before taking the square root. The annualised volatility is `sqrt(variance) * sqrt(365) * 100`, which is zero exactly when the variance is zero and grows with it. Every volatility property is stated on the variance.
- NaN and Infinity: `parseFloat`/`Number` conversion of the JSON payloads, the `Number.isFinite` filter on returns (bot.js:69) and the `isNaN` test in `round` (bot.js:52) are not modelled. Over the reals every return from a positive previous price is finite, so the filter never drops one. A CoinGecko answer with no entry for the coin gives a NaN price in the source; here the `usd` price is always present.
- Malformed payloads, such as klines that are not an array (a TypeError the resolver catches): payloads are typed, so they cannot occur.
- `computeMetricsFromSeries` with a non-array `prices`, or with `volumes` absent: both adapters always pass arrays, so the model takes sequences.
- `Providers.ToUpper`: covers the ASCII letters only. JavaScript's `toUpperCase` also maps other characters, for example U+017F to `S`. Callers in the bot pass only ASCII letters.
- `getMarketData` on a non-string input (`String(inputSymbol || '')`): the input is a string.
- Network I/O: the axios requests, `Promise.all`, the 8-second timeout, the User-Agent and the optional CoinGecko API-key header. An adapter's two requests are one `Reply`, which fails when either request fails.
- Logging, including the classification of HTTP 451 errors from CoinGecko.
- Presentation: `formatMarketMessage`, `toLocaleString`, the Markdown and emoji text, and the rounding of stop and take for display.
- Chat plumbing: the Telegram handlers, `sendMessage`, polling, the trimming of plain messages (bot.js:266), the `users` map, and the Express server with its health endpoint.
- `Formatting.Round`: the number of decimals is a natural number (the bot uses 0 and 2). Double-precision rounding artefacts, such as 1.005 rounding down, do not arise over the reals.
- Positions, position sizing, EMA/ATR, impulse and divergence signals, and the alert cooldown do not appear in `bot.js`, so they are not part of this model.
