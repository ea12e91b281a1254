# Crypto dashboard core, modelled in Dafny

The dashboard shows live quotes for five coins (BTC, ETH, ADA, SOL, USDT). For each coin it also draws a seven-day hourly chart. This project models the logic under the screen:

- **The chart normaliser and samplers** (`series.dfy`).
  - Sort the samples in place.
  - Pick the end hour.
  - Fill 168 hourly buckets by nearest sample.
  - Keep every sixth point.
  - Re-sample Binance candles with `max(1, ⌊n/28⌋)`.
  - Generate the synthetic week.
  - Nudge the live price, and decide whether the chart changed or must be refetched.
- **The chart source chain** (`chart_sources.dfy`).
  - A retry loop with backoff runs over abstract attempt outcomes (a body, an error, an abort).
  - The chain runs CryptoCompare, then CoinGecko, then Binance, then the synthetic chart.
  - It records which source drew the chart and whether the data is real.
- **The quote service** (`market_service.dfy`).
  - The merged primary quote list, then the CoinGecko-only list, then the built-in list.
  - The CoinGecko property lookup.
  - The polling fallback update list.
  - The history chain and its generator.
- **The ticker feed** (`ticker_feed.dfy`).
  - Pair-to-symbol mapping and market cap.
  - The fallback timer, which refills only zero-priced assets.
  - The ticker-message patches.
  - The construction-error fallback.
  - The store updates are abstract patches, against the keyed asset store this file assumes.
- **The three store slices** (`crypto_slice.dfy`, `chart_slice.dfy`, `currency_slice.dfy`). Each is a class whose methods are the reducers; the refresh machine of the chart slice is a second class.
- **The row display decisions** (`crypto_row.dfy`, `price_change.dfy`): decimal tiers, signs, 'N/A' cells, the coin amount, the logo choice, the flash direction and the change badge.

The shared helpers are in `support.dfy`: `Option`, the first-match search that `find` performs, ASCII upper-casing and `startsWith`.

Modelling choices:

- Prices are `real`.
- Timestamps are integer milliseconds, and an hour is 3,600,000 ms.
- Every random draw and every clock reading is a parameter.
- A network response is a value handed to the operation.

## Model

| member | source | states |
|---|---|---|
| Support.FindFirst | src/features/crypto/cryptoSlice.js:37 | the index found is the first whose element matches; it is absent exactly when nothing matches |
| Support.ToUpper | src/services/cryptoAPI.js:130 | same length, each letter upper-cased, no lower-case letter left |
| Series.FromSeconds | src/services/cryptoAPI.js:341-344 | same length; every time is multiplied by 1000 and every price is kept |
| Series.NearestUnique | src/components/PriceChart.jsx:673-686 | the nearest sample, the first at minimum distance as the strict comparison picks it, is unique |
| Series.SwapAdjacent | src/components/PriceChart.jsx:643 | one exchange of neighbours; the array stays a permutation of itself |
| Series.InsertIntoSorted | src/components/PriceChart.jsx:643 | one insertion step extends the sorted prefix by one and keeps a permutation |
| Series.SortByTime | src/components/PriceChart.jsx:643 | the array is sorted ascending by time and is a permutation of the input |
| Series.FindNearest | src/components/PriceChart.jsx:670-686 | none exactly when there are no samples; otherwise the first sample at minimum distance from the target |
| Series.FloorToHour | src/components/PriceChart.jsx:655 | a multiple of one hour, at most the input and within one hour of it |
| Series.EndHour | src/components/PriceChart.jsx:646-655 | the latest sample's hour, or now's hour when that sample is more than six hours old |
| Series.HourlyGrid | src/components/PriceChart.jsx:663-668 | 168 timestamps, one hour apart, strictly ascending, ending at the end hour |
| Series.StridedLength | src/components/PriceChart.jsx:716 | the stride sample has exactly ⌈n/step⌉ elements |
| Series.StridedIndex | src/components/PriceChart.jsx:716-720 | element k of the stride sample is element k·step of the input |
| Series.StridedAt | src/components/PriceChart.jsx:768-780 | the length bound and the element correspondence together, for every k |
| Series.StridedMember | src/components/PriceChart.jsx:768-780 | every sampled element comes from the input |
| Series.SampleEvery | src/components/PriceChart.jsx:716-720 | the push loop equals the stride sample |
| Series.CompactOfWeek | src/components/PriceChart.jsx:716-720 | of 168 hourly values the compact series keeps 28: indices 0, 6, …, 162, with the oldest kept and the newest dropped |
| Series.CompactGrid | src/components/PriceChart.jsx:716-720 | the compact timestamps are 28 values six hours apart, the last five hours before the end hour |
| Series.HourlyGridAt | src/components/PriceChart.jsx:663-668 | hourly timestamp k is the end hour minus (167−k) hours |
| Series.FillHourly | src/components/PriceChart.jsx:663-709 | the timestamps are the hourly grid; each of the 168 prices is the price of a nearest sample (the carry-forward branch is never taken) |
| Series.ProcessHourly | src/components/PriceChart.jsx:637-731 | none exactly for no samples; the input is sorted in place as a permutation; 168 hourly points on the grid ending at the chosen end hour, each a nearest sample's price; the compact series is every sixth hourly point |
| Series.BinancePair | src/components/PriceChart.jsx:738 | USDT trades as `USDTBUSD`, any other symbol as the symbol followed by `USDT`; the pair is four characters longer than the symbol |
| Series.BinanceStep | src/components/PriceChart.jsx:763 | step at least 1; for 28 or more candles 28·step ≤ n < 28·(step+1); under 56 candles the step is 1 |
| Series.BinanceSeries | src/components/PriceChart.jsx:760-780 | candles sorted in place as a permutation; the chart keeps every step-th candle from the first |
| Series.BinanceKeepsShort | src/components/PriceChart.jsx:763-768 | fewer than 56 candles are all kept |
| Series.BinanceCountBounds | src/components/PriceChart.jsx:763-768 | with 28 or more candles, between 28 and 55 are kept, and the oldest is always among them |
| Series.BinanceCountExact | src/components/PriceChart.jsx:763-768 | a multiple of 28 candles keeps exactly 28; a full week of 168 uses step 6 |
| Series.FallbackDaily | src/components/PriceChart.jsx:68-74 | the built-in daily closes exist for the five coins, seven positive values each |
| Series.Jitter | src/components/PriceChart.jsx:863 | the random factor lies in [0.995, 1.005) |
| Series.InterpolatedPrice | src/components/PriceChart.jsx:838-860 | an hour's base value lies between the day's start value and the next day's value, which defaults to the start value on the last day or when it is zero |
| Series.SyntheticHourly | src/components/PriceChart.jsx:837-866 | 168 points, point k at the current hour minus k hours, strictly descending; each price is the interpolated value times the jitter of its slot |
| Series.CompactSynthetic | src/components/PriceChart.jsx:869-879 | the synthetic compact series has 28 points six hours apart, the first at the current hour |
| Series.TickLatest | src/components/PriceChart.jsx:420-427 | same length, every price but the last unchanged, and the last moved by at most ±0.5% |
| Series.PricesChanged | src/components/PriceChart.jsx:953-956 | the prices changed exactly when there were none before or the new list differs |
| Series.TickGaps | src/components/PriceChart.jsx:322 | the first and last labels are shown, and every twelve consecutive indices contain a shown label |
| Series.DecideChartEffect | src/components/PriceChart.jsx:919-926 | fetch when a chart update is stamped and there is no chart or a refresh is due; synthesize when there is neither a chart nor a stamp; otherwise keep the chart |
| ChartSources.Retried | src/components/PriceChart.jsx:462-496 | a body returned is one an attempt brought, an abort comes from an attempt that was aborted, and the request fails exactly when every attempt errs |
| ChartSources.RetriedDecided | src/components/PriceChart.jsx:462-496 | the outcome is that of the first attempt that is not an error: a body is returned and an abort is rethrown; when every attempt errs, the last error is thrown |
| ChartSources.AttemptsMade | src/components/PriceChart.jsx:465 | at least one attempt and at most retries + 1 |
| ChartSources.Growth | src/components/PriceChart.jsx:489 | the backoff growth 1.5^attempt is at least 1 |
| ChartSources.Backoff | src/components/PriceChart.jsx:489 | the wait is the base delay times 1.5^attempt, within ±10% |
| ChartSources.FetchWithRetry | src/components/PriceChart.jsx:462-496 | the loop's result is the retry outcome; it makes that many attempts and waits once per retried attempt, with the backoff of that attempt |
| ChartSources.TablesAgree | src/components/PriceChart.jsx:30-36 | a symbol has a CoinGecko id exactly when it has built-in daily closes |
| ChartSources.CompareWins | src/components/PriceChart.jsx:505-519 | CryptoCompare wins only with an attempt that brought data of at least 24 points, and never when the request was aborted |
| ChartSources.GeckoStage | src/components/PriceChart.jsx:565-587 | CoinGecko wins only for a symbol with a coin id and an attempt that brought at least 24 points; it stops exactly on an abort for a known coin; without an id it is lost |
| ChartSources.BinanceStage | src/components/PriceChart.jsx:734-749 | Binance wins only with an attempt that brought at least 24 candles, and stops exactly on an abort |
| ChartSources.Judge | src/components/PriceChart.jsx:515-520 | a stage wins only with at least 24 points, and it stops exactly on an abort |
| ChartSources.Convert | src/components/PriceChart.jsx:527 | every price is multiplied by the exchange rate, and the length is kept |
| ChartSources.Normalize | src/components/PriceChart.jsx:525 | the stage's points go through the normaliser: sorted as a permutation; 28 compact timestamps, every sixth hour of the week ending at the newest sample's hour (or now's when stale); each compact price is that of the first sorted sample nearest its timestamp, and so a nearest price of the original points |
| ChartSources.CompareAttempt | src/components/PriceChart.jsx:503-562 | a CryptoCompare chart exists exactly when the stage wins; its hourly data are the converted reply, its compact prices nearest samples on the six-hour grid, and it is real data with no error; it reports whether the abort signal fired |
| ChartSources.GeckoAttempt | src/components/PriceChart.jsx:564-623 | a CoinGecko chart exists exactly when the stage wins; its hourly data are the sorted points, its compact prices nearest samples on the six-hour grid, and it is real data with no error |
| ChartSources.BinanceAttempt | src/components/PriceChart.jsx:733-820 | a Binance chart exists exactly when the stage wins; it keeps every step-th sorted candle, is not real data, and carries the earlier error |
| ChartSources.SyntheticChart | src/components/PriceChart.jsx:823-916 | a synthetic chart exists exactly when the symbol has built-in closes: 168 hourly and 28 compact points, descending from the current hour, with the estimate banner; the hourly data are the generated week (point k at the current hour less k hours, priced at its day's interpolation times its slot's jitter) and the compact prices and timestamps are every sixth point of it |
| ChartSources.FetchHourlyData | src/components/PriceChart.jsx:498-633 | first success wins, in the order CryptoCompare, CoinGecko, Binance, synthetic, each chart holding that source's data (the converted CryptoCompare reply, the CoinGecko or Binance points, or the generated week sampled every sixth point); an abort in any stage halts, one during CryptoCompare with no banner; the real-data flag is set exactly for the first two sources, whose charts hold nearest prices on the six-hour grid; every chart drawn is coherent |
| ChartSources.CompareAbortLoses | src/components/PriceChart.jsx:483-484 | an abort during the CryptoCompare stage does not win that stage and leaves the retried request aborted |
| ChartSources.HaltReasons | src/components/PriceChart.jsx:624-633 | when both later sources fail for a known coin, a synthetic chart is still available |
| MarketService.FindCoinGeckoInfo | src/services/cryptoAPI.js:151-154 | the property of the first coin with that id, and none when no coin has it |
| MarketService.OrReal | src/services/cryptoAPI.js:48 | a falsy (missing or zero) value is replaced by the fallback |
| MarketService.OrInt | src/services/cryptoAPI.js:73 | a falsy (missing or zero) rank is replaced by the fallback |
| MarketService.MergePrimary | src/services/cryptoAPI.js:37-108 | the merged list exists exactly when every tracked symbol is quoted |
| MarketService.MergeQuotes | src/services/cryptoAPI.js:37-108 | five records in tracked order, with the quoted price, cap, volume, 24-hour change and supply; each 7-day change is CoinGecko's first record for the coin's id, or 0 when missing or zero; BTC, ETH and USDT rank 1, 2 and 3, ADA and SOL take CoinGecko's rank or 8 and 5 when missing or zero; no rank is zero |
| MarketService.MergedWithoutGecko | src/services/cryptoAPI.js:48-104 | with no CoinGecko records position k gets rank 1, 2, 8, 5 or 3 and a zero 7-day change |
| MarketService.MergeWithoutGecko | src/services/cryptoAPI.js:48-104 | without CoinGecko data the ranks fall back to 1, 2, 8, 5, 3 and every 7-day change to 0 |
| MarketService.FromGecko | src/services/cryptoAPI.js:115-141 | one record per coin, in order, symbol upper-cased, every other field copied, and no one-hour change |
| MarketService.FallbackDataShape | src/services/cryptoAPI.js:157-229 | exactly BTC, ETH, ADA, SOL, USDT, each once, all priced above zero |
| MarketService.FetchCryptoData | src/services/cryptoAPI.js:13-148 | the merged list exactly when prices answer and all are quoted, even if CoinGecko is not OK; the merged list is the primary merge of the quotes with CoinGecko's records (none when CoinGecko is not OK); else the CoinGecko-only list when it answers; else the built-in list |
| MarketService.GeckoNotOkTolerated | src/services/cryptoAPI.js:27-34 | a non-OK CoinGecko reply merges as an empty list and does not trigger the fallback |
| MarketService.QuotesNeverEmpty | src/services/cryptoAPI.js:13-148 | whatever the replies, the chain answers, and the built-in answer has five records |
| MarketService.ReferencePrice | src/services/cryptoAPI.js:289-307 | a positive reference price; 1.0 for any untracked symbol |
| MarketService.RandomUpdate | src/services/cryptoAPI.js:289-307 | a random update is within ±1% of the reference price, its 24-hour change is in [−2, 2) and its hourly change is in [−0.6, 0.6) |
| MarketService.QuoteUpdate | src/services/cryptoAPI.js:251-282 | a quote update carries the quoted price and 24-hour change; a zero hourly change is replaced by a random one, narrower for USDT |
| MarketService.PollTickShape | src/services/cryptoAPI.js:251-307 | each poll yields five updates in tracked order, one per coin; when every symbol is quoted each update is that coin's quote update, with the quoted price and 24-hour change; otherwise (an error reply, or a reply missing a symbol, which throws into the catch) each price moves by at most ±1% from its reference |
| MarketService.GenerateHistory | src/services/cryptoAPI.js:382-403 | 168 points from now−167 h up to now, one hour apart, each price the reference price times one plus wave and noise |
| MarketService.HistoryBounds | src/services/cryptoAPI.js:382-403 | the generated points are one hour apart and within ±6% of the reference price |
| MarketService.GeckoIdOf | src/services/cryptoAPI.js:1-7 | a CoinGecko id exists exactly for the tracked symbols, and it is that symbol's id |
| MarketService.FetchHistoricalData | src/services/cryptoAPI.js:322-379 | CryptoCompare when it answers with points, converted to milliseconds; else CoinGecko when it answers with points; else the generated week, point by point an hour apart up to now at the reference price moved by the wave and random terms; never empty |
| TickerFeed.PairRoundTrip | src/features/crypto/cryptoAPI.js:4-10 | a coin's pair maps back to the coin; every coin but USDT has a stream in the subscription URL (line 67) |
| TickerFeed.FallbackAt | src/features/crypto/cryptoAPI.js:13-19 | every built-in fallback has a positive price and a positive volume |
| TickerFeed.MarketCapFactors | src/features/crypto/cryptoAPI.js:22-24 | zero exactly when a factor is zero; dividing by either factor gives back the other |
| TickerFeed.Refill | src/features/crypto/cryptoAPI.js:41-57 | a refill sets that symbol's fallback price, 24-hour change and volume, in that order, plus the market cap from price and supply when the supply is non-zero; every patch is about that symbol |
| TickerFeed.FallbackTimer | src/features/crypto/cryptoAPI.js:36-63 | the loop issues exactly the timer's patch list |
| TickerFeed.TimerAdvance | src/features/crypto/cryptoAPI.js:38-60 | one loop step appends that symbol's refill, or nothing when its price is not zero |
| TickerFeed.TimerOnlyZeroPriced | src/features/crypto/cryptoAPI.js:38-39 | no patch touches a symbol whose stored price is not zero |
| TickerFeed.TimerRefills | src/features/crypto/cryptoAPI.js:38-58 | when every symbol is in the store, every zero-priced one is refilled with its fallback price |
| TickerFeed.TimerClearsLoading | src/features/crypto/cryptoAPI.js:38-62 | when every symbol is in the store, the last patch the timer issues clears loading |
| TickerFeed.TimerStopsAtMissing | src/features/crypto/cryptoAPI.js:38-39 | a symbol missing from the store stops the loop before loading is cleared |
| TickerFeed.OnMessage | src/features/crypto/cryptoAPI.js:75-117 | nothing for an unparsed or unmapped message; otherwise price, 24-hour change and volume, plus the market cap when the snapshot supply is non-zero, then loading cleared |
| TickerFeed.ConstructionFallback | src/features/crypto/cryptoAPI.js:132-153 | the loop issues exactly the error path's patch list |
| TickerFeed.ErrorAdvance | src/features/crypto/cryptoAPI.js:137-148 | one loop step appends that symbol's refill, with the snapshot supply or none |
| TickerFeed.ErrorRefillsAll | src/features/crypto/cryptoAPI.js:137-148 | on a construction error every symbol is refilled with its fallback price, whatever the store holds |
| TickerFeed.ErrorClearsLoading | src/features/crypto/cryptoAPI.js:137-151 | the construction-error path always ends by clearing loading |
| CryptoSlice.ApplyUpdates | src/features/crypto/cryptoSlice.js:36-47 | length and order kept; a matched asset takes price, 24-hour and hourly change from its first update and keeps all else; an unmatched one is unchanged |
| CryptoSlice.ApplyIdempotent | src/features/crypto/cryptoSlice.js:36-47 | applying the same updates twice is applying them once |
| CryptoSlice.CryptoStore.constructor | src/features/crypto/cryptoSlice.js:5-12 | empty list, idle, no error, no stamp, socket off, price clock at load time |
| CryptoSlice.CryptoStore.UpdatePriceData | src/features/crypto/cryptoSlice.js:32-50 | the list is patched and the price clock stamped; nothing else changes |
| CryptoSlice.CryptoStore.SetSocketStatus | src/features/crypto/cryptoSlice.js:52-54 | only the socket flag changes |
| CryptoSlice.CryptoStore.ResetState | src/features/crypto/cryptoSlice.js:56 | the initial state again, load-time stamp included |
| CryptoSlice.CryptoStore.Pending | src/features/crypto/cryptoSlice.js:60-62 | loading, with the previous error left in place |
| CryptoSlice.CryptoStore.Fulfilled | src/features/crypto/cryptoSlice.js:63-68 | succeeded, the list replaced, stamped, the error cleared |
| CryptoSlice.CryptoStore.Rejected | src/features/crypto/cryptoSlice.js:69-72 | failed, with the payload as the error, or the default message when the payload is missing or empty |
| CryptoSlice.CryptoStore.FetchInitialData | src/features/crypto/cryptoSlice.js:15-25 | the thunk always ends succeeded with the quote chain's records |
| CryptoSlice.CryptoStore.OnPriceUpdates | src/features/crypto/cryptoSlice.js:94-98 | an empty update list dispatches nothing; any other is applied |
| CryptoSlice.CryptoStore.SelectCryptoBySymbol | src/features/crypto/cryptoSlice.js:85-86 | the first asset with that symbol, and none exactly when no asset has it |
| ChartSlice.WithInterval | src/features/chart/chartSlice.js:30-35 | only an existing key takes the new interval; the keys never change and other intervals are kept |
| ChartSlice.ChartStore.constructor | src/features/chart/chartSlice.js:3-12 | each clock at its own load-time reading, both flags down, intervals 1500 and 3600000 |
| ChartSlice.ChartStore.SetLastChartUpdate | src/features/chart/chartSlice.js:18-20 | only the chart clock changes |
| ChartSlice.ChartStore.SetShouldUpdateCharts | src/features/chart/chartSlice.js:21-23 | only the chart flag changes, to the payload |
| ChartSlice.ChartStore.SetLastPriceUpdate | src/features/chart/chartSlice.js:24-26 | only the price clock changes |
| ChartSlice.ChartStore.SetShouldUpdatePrices | src/features/chart/chartSlice.js:27-29 | only the price flag changes, to the payload |
| ChartSlice.ChartStore.SetRefreshInterval | src/features/chart/chartSlice.js:30-35 | the table is updated only at an existing key; the table keeps exactly its two keys |
| ChartSlice.ChartStore.TriggerChartUpdate | src/features/chart/chartSlice.js:36-39 | the chart clock is stamped and the chart flag raised; the price fields are unchanged |
| ChartSlice.ChartStore.TriggerPriceUpdate | src/features/chart/chartSlice.js:40-43 | the price clock is stamped and the price flag raised; the chart fields are unchanged |
| ChartSlice.ChartStore.ResetChartState | src/features/chart/chartSlice.js:44 | the initial state, load-time stamps included |
| ChartSlice.RefreshScheduler.constructor | src/features/chart/chartSlice.js:68-69 | the two periods are read from the store once, at setup |
| ChartSlice.RefreshScheduler.PriceTick | src/features/chart/chartSlice.js:72-73 | the price flag goes up and the chart side is untouched |
| ChartSlice.RefreshScheduler.PriceSettle | src/features/chart/chartSlice.js:76-78 | the price flag goes down and the chart side is untouched |
| ChartSlice.RefreshScheduler.ChartTick | src/features/chart/chartSlice.js:82-83 | the chart flag goes up and the price side is untouched |
| ChartSlice.RefreshScheduler.ChartSettle | src/features/chart/chartSlice.js:86-88 | the chart flag goes down and the price side is untouched |
| ChartSlice.RefreshScheduler.PriceCycle | src/features/chart/chartSlice.js:72-79 | after a price tick and its settle, the clock is stamped, the flag is down and the chart side never moved |
| ChartSlice.RefreshScheduler.ChartCycle | src/features/chart/chartSlice.js:82-89 | after a chart tick and its settle, the clock is stamped, the flag is down and the price side never moved |
| ChartSlice.RefreshScheduler.Cleanup | src/features/chart/chartSlice.js:92-95 | both intervals stop; a pending settle may still arrive |
| CurrencySlice.CodesDistinct | src/features/currency/currencySlice.js:17-27 | nine currencies with distinct codes |
| CurrencySlice.OfferedHaveRates | src/features/currency/currencySlice.js:4-27 | every offered code has a rate |
| CurrencySlice.RatesAreOffered | src/features/currency/currencySlice.js:4-27 | every rate belongs to an offered code |
| CurrencySlice.DollarIsUnit | src/features/currency/currencySlice.js:4-14 | the dollar's rate is 1 and every rate is positive |
| CurrencySlice.MergeRates | src/features/currency/currencySlice.js:42-47 | payload keys override, new keys are added, and every other key keeps its rate |
| CurrencySlice.MergeRatesTwice | src/features/currency/currencySlice.js:42-47 | two merges are one merge of the second payload spread over the first |
| CurrencySlice.SymbolFor | src/features/currency/currencySlice.js:63-67 | the symbol of the first currency with the selected code, else '$' |
| CurrencySlice.BuiltInSymbols | src/features/currency/currencySlice.js:63-67 | every offered code yields its own symbol; an unknown code yields '$', the same as the dollar |
| CurrencySlice.CurrencyStore.constructor | src/features/currency/currencySlice.js:29-33 | USD with the built-in tables |
| CurrencySlice.CurrencyStore.SetSelectedCurrency | src/features/currency/currencySlice.js:39-41 | any code is stored unvalidated; nothing else changes |
| CurrencySlice.CurrencyStore.UpdateExchangeRates | src/features/currency/currencySlice.js:42-47 | the rates become the merge with override; nothing else changes |
| CurrencySlice.CurrencyStore.ResetCurrency | src/features/currency/currencySlice.js:48 | USD with the built-in tables again |
| CurrencySlice.CurrencyStore.SelectCurrencySymbol | src/features/currency/currencySlice.js:63-67 | the symbol of the first currency with the selected code, else '$' |
| CryptoRow.MaxDecimals | src/components/CryptoRow.jsx:134-139 | six fraction digits below 1, four below 10, two from 10 up |
| CryptoRow.MaxDecimalsMonotone | src/components/CryptoRow.jsx:134-139 | a larger price never gets more fraction digits, and never fewer than two |
| CryptoRow.FormatNumber | src/components/CryptoRow.jsx:106-122 | 'N/A' exactly for a missing number; otherwise the converted value with at most two fraction digits |
| CryptoRow.FormatPrice | src/components/CryptoRow.jsx:125-147 | 'N/A' exactly for a missing price; otherwise the converted price with at least two fraction digits and at most the tier for the converted value |
| CryptoRow.FormatPercentage | src/components/CryptoRow.jsx:150-156 | 'N/A' exactly for a missing value; otherwise two fixed fraction digits and '%', with '+' exactly when the value is zero or more |
| CryptoRow.FormatSupply | src/components/CryptoRow.jsx:159-170 | 'N/A' exactly for a missing supply; otherwise the unconverted supply followed by the coin's symbol |
| CryptoRow.CoinAmount | src/components/CryptoRow.jsx:182 | volume over price when the price is positive, so amount × price = volume; zero otherwise |
| CryptoRow.FormatVolume | src/components/CryptoRow.jsx:173-206 | 'N/A' exactly for a missing volume; otherwise the converted volume over the coin amount |
| CryptoRow.FromJson | src/services/cryptoAPI.js:137-138 | a change missing from a CoinGecko record arrives as null; a present one as that number |
| CryptoRow.ChangeIsGreen | src/components/CryptoRow.jsx:268-274 | the 24-hour or 7-day column is green exactly when its figure is null or a number of zero or more (JavaScript's `null >= 0`) and red when it is absent or negative |
| CryptoRow.ChangeCell | src/components/CryptoRow.jsx:275-278 | 'N/A' exactly when the figure is absent or null; otherwise the figure as formatted percentage |
| CryptoRow.ColourMatchesSign | src/components/CryptoRow.jsx:268-278 | a column with a number is green exactly when it shows '+'; a null figure gives a green 'N/A', an absent one a red 'N/A' |
| CryptoRow.MissingGeckoChangeIsGreen | src/components/CryptoRow.jsx:274-278 | a CoinGecko record without a 7-day change shows it as a green 'N/A' |
| CryptoRow.GetLogo | src/components/CryptoRow.jsx:209-240 | the image exactly when it starts with 'http', else the built-in logo exactly when the symbol has one, else the symbol's first letter |
| CryptoRow.NextDirection | src/components/CryptoRow.jsx:88-93 | up exactly when the price rose, down exactly when it fell, unchanged when it is equal |
| CryptoRow.SecondObservationKeeps | src/components/CryptoRow.jsx:88-103 | the effect's re-run after it stores the previous price keeps the flash |
| CryptoRow.PriceFlash.Observe | src/components/CryptoRow.jsx:88-95 | the direction is judged against the previous price, which then becomes the current price |
| CryptoRow.PriceFlash.Expire | src/components/CryptoRow.jsx:98-100 | the flash ends and the previous price is kept |
| PriceChange.Classify | src/components/PriceChange.jsx:3-6 | `price-up` with '+' exactly above zero, `price-down` exactly below, the neutral grey exactly at zero; there is a sign exactly on `price-up` |
| PriceChange.ZeroSignDiffers | src/components/PriceChange.jsx:4-6 | the badge and the row's percentage agree on the '+' for every non-zero value; at zero the row writes '+' and the badge does not |

## Left out

- The text of the cells and labels is not modelled: the output of `Intl.NumberFormat`, `toFixed`, `toLocaleString` and the date labels. A cell is described by its number, prefix, suffix and digit bounds.
- Floating point, `NaN` and `undefined` arithmetic are not modelled. A missing exchange rate, for example, would give `NaN`. Prices are exact reals.
- Local-time `Date` arithmetic is simplified: `setHours`, `setDate` and daylight saving are not modelled. The hour floor is `t − t mod 3,600,000`, and a day is 24 such hours.
- The socket's error handler (src/features/crypto/cryptoAPI.js:119-122) is left out: it dispatches one fixed error message, and no state of the feed depends on it.
- Real I/O is left out: `fetch`, `WebSocket`, JSON parsing, the 5 s reconnect and the AbortController wiring. A source is the sequence of outcomes its attempts would have, and a socket message is an already parsed value.
- The wait before a retry is computed but not slept: timers are not modelled.
- The schedule of `setInterval` and `setTimeout` is not modelled, nor the order of interleaved events. The refresh machine is modelled only as tick, settle and cleanup events.
- The `isMounted` checks are left out, except that an abort, which only unmounting fires, ends the chart chain. So is PriceChart's 3 s fallback timer with its stale closure (src/components/PriceChart.jsx:929-933). These are interleavings with unmounting and slow fetches.
- The memo comparator of the detail modal (src/components/PriceChart.jsx:243-253) is left out. It compares props by reference to skip a re-render, which is rendering, not state.
- Random mock percentages are left out, in the row (src/components/CryptoRow.jsx:243-244, so the one-hour column, which always holds a number, is outside `ChangeIsGreen` and `ChangeCell`) and in the ticker feed (src/features/crypto/cryptoAPI.js:158-176). The random values of the polling fallback and of the synthetic chart are kept, as parameters.
- React rendering, Chart.js options and colours, the modal portal, the image `onError` swap and the SVG markup are left out. So are Header.jsx, CryptoTable.jsx, App.jsx and store.js.
- Sort stability is not modelled. The in-place sort is proved sorted and a permutation, but the order among equal timestamps is not pinned.
- Support.ToUpper: only ASCII letters are upper-cased, where `toUpperCase` (src/services/cryptoAPI.js:130) maps every Unicode letter; the symbols CoinGecko returns are ASCII.
- Series.TickLatest: it requires a non-empty price list. Every chart source yields at least one price, so the `[NaN]` the source would build from an empty list cannot arise.
- ChartSlice.ChartStore.SetRefreshInterval: intervals are integers. Keys inherited from the object prototype, and storing `undefined` as an interval, are not modelled.
- ChartSources.FetchHourlyData: a stage result that is not an array, or that lacks the expected fields, is not modelled. A reply is either points or an error.
- The keyed asset store that src/features/crypto/cryptoAPI.js reads and patches is not part of this model. That store does not match the slice; patches are values, and the asset snapshot is a map from symbol to price and supply.

## Where the code and its description differ

The model follows the code in each case below.

- An abort raised while CryptoCompare is tried is caught by that stage's own handler (src/components/PriceChart.jsx:559-562). The abort signal is shared by the whole chain and fires only at cleanup, which also marks the component unmounted (src/components/PriceChart.jsx:935-937). So the CoinGecko request rejects with the abort at once, or the missing coin id is caught after unmounting (src/components/PriceChart.jsx:625-626). Either way an abort in any stage ends the chain without a chart and without a banner.
- A change figure that is JSON null compares `>= 0` as true, so its column is painted green while it reads 'N/A' (src/components/CryptoRow.jsx:274-278); an absent figure is painted red.
- The CoinGecko stage stores the same array that the normaliser sorted in place, so its hourly data are sorted. The CryptoCompare stage stores a converted copy made before the sort, so its hourly data keep the reply's order.
- An empty sample list makes the normaliser read past the end and throw (src/components/PriceChart.jsx:646). The model returns no result there, and the chart stages never pass fewer than 24 points.
- The fallback timer reads `crypto.assets[symbol].price` (src/features/crypto/cryptoAPI.js:39), which the asset snapshot models as `price`. For a symbol missing from the store this throws, which ends the loop before loading is cleared; the model stops there too.
- The slice's reset reuses the initial state object built at module load, so it restores the module-load timestamps rather than the current time.
- The rejected reducer writes `payload || default`, so an empty message also becomes the default.
