/** The price chart's data sources: the retrying request helper and the chain
    CryptoCompare, then CoinGecko, then Binance, then the synthetic chart.
    Network replies are abstract attempt outcomes supplied by the caller. */
module ChartSources {
  import opened Support
  import opened Series

  // ---------------------------------------------------------------------
  // fetchWithRetry
  // ---------------------------------------------------------------------

  /** What one request attempt gives: a parsed body, an error (network
      failure, non-ok status or unparsable JSON, with its message), or the
      abort signal. */
  datatype Attempt<T> = Ok(body: T) | Err(message: string) | Abort

  /** How a retried request ends: the first body, the last error, or the abort. */
  datatype Fetched<T> = Body(body: T) | Failed(error: string) | Aborted

  /** An outcome that ends the retry loop. */
  predicate Decisive<T>(a: Attempt<T>) {
    !a.Err?
  }

  /** The result of retrying over the outcomes the successive attempts would
      meet (one per allowed attempt). */
  function Retried<T>(outcomes: seq<Attempt<T>>): (r: Fetched<T>)
    requires |outcomes| > 0
    ensures r.Body? ==> Ok(r.body) in outcomes
    ensures r.Aborted? ==> Abort in outcomes
    ensures r.Failed? <==> forall i :: 0 <= i < |outcomes| ==> outcomes[i].Err?
    decreases |outcomes|
  {
    match outcomes[0]
    case Ok(b) => Body(b)
    case Abort => Aborted
    case Err(m) => if |outcomes| == 1 then Failed(m) else Retried(outcomes[1..])
  }

  /** The first decisive outcome decides the request (a body is returned, an
      abort is rethrown at once); when every attempt errs the last error is
      thrown. */
  lemma {:induction false} RetriedDecided<T>(outcomes: seq<Attempt<T>>)
    requires |outcomes| > 0
    ensures match FindFirst(outcomes, Decisive)
      case Some(i) => Retried(outcomes) == (if outcomes[i].Ok? then Body(outcomes[i].body) else Aborted)
      case None => Retried(outcomes) == Failed(outcomes[|outcomes| - 1].message)
    decreases |outcomes|
  {
    if |outcomes| > 1 && outcomes[0].Err? {
      RetriedDecided(outcomes[1..]);
      match FindFirst(outcomes[1..], Decisive)
      case Some(i) =>
        assert outcomes[1..][i] == outcomes[i + 1];
      case None =>
        assert outcomes[1..][|outcomes| - 2] == outcomes[|outcomes| - 1];
    }
  }

  /** How many attempts the loop makes before it stops. */
  function AttemptsMade<T>(outcomes: seq<Attempt<T>>): (n: nat)
    requires |outcomes| > 0
    ensures 1 <= n <= |outcomes|
  {
    match FindFirst(outcomes, Decisive)
    case Some(i) => i + 1
    case None => |outcomes|
  }

  /** `1.5` to the power `attempt`. */
  function Growth(attempt: nat): (g: real)
    ensures g >= 1.0
  {
    if attempt == 0 then 1.0 else 1.5 * Growth(attempt - 1)
  }

  /** The wait after failed attempt `attempt`: the base delay grown by half
      per attempt, with a random factor in [0.9, 1.1). */
  function Backoff(delay: real, attempt: nat, draw: real): (wait: real)
    requires delay >= 0.0 && 0.0 <= draw < 1.0
    ensures 0.9 * (delay * Growth(attempt)) <= wait <= 1.1 * (delay * Growth(attempt))
  {
    var grown := delay * Growth(attempt);
    NonNegativeProduct(delay, Growth(attempt));
    ScaledBetween(grown, 0.9 + draw * 0.2, 0.9, 1.1);
    grown * (0.9 + draw * 0.2)
  }

  /** Random draws, each in [0, 1). */
  predicate Draws(draws: seq<real>) {
    forall i :: 0 <= i < |draws| ==> 0.0 <= draws[i] < 1.0
  }

  /** The retry loop. It makes at most `retries + 1` attempts, returns the
      first body, stops at once on an abort, and otherwise throws the last
      error; it waits after every failed attempt except the last allowed one. */
  method FetchWithRetry<T>(outcomes: seq<Attempt<T>>, retries: nat, delay: real, draws: seq<real>)
    returns (r: Fetched<T>, attempts: nat, waits: seq<real>)
    requires |outcomes| == retries + 1
    requires delay >= 0.0 && |draws| == retries && Draws(draws)
    ensures r == Retried(outcomes)
    ensures attempts == AttemptsMade(outcomes)
    ensures |waits| == (if r.Failed? then retries else attempts - 1)
    ensures forall i :: 0 <= i < |waits| ==> waits[i] == Backoff(delay, i, draws[i])
  {
    var lastError := "";
    waits := [];
    var attempt := 0;
    while attempt <= retries
      invariant 0 <= attempt <= retries + 1
      invariant forall k :: 0 <= k < attempt ==> outcomes[k].Err?
      invariant |waits| == (if attempt <= retries then attempt else retries)
      invariant attempt > 0 ==> lastError == outcomes[attempt - 1].message
      invariant forall i :: 0 <= i < |waits| ==> waits[i] == Backoff(delay, i, draws[i])
    {
      match outcomes[attempt]
      case Ok(b) =>
        assert FindFirst(outcomes, Decisive) == Some(attempt);
        RetriedDecided(outcomes);
        return Body(b), attempt + 1, waits;
      case Abort =>
        assert FindFirst(outcomes, Decisive) == Some(attempt);
        RetriedDecided(outcomes);
        return Aborted, attempt + 1, waits;
      case Err(m) =>
        lastError := m;
        if attempt < retries {
          waits := waits + [Backoff(delay, attempt, draws[attempt])];
        }
      attempt := attempt + 1;
    }
    assert FindFirst(outcomes, Decisive) == None;
    RetriedDecided(outcomes);
    r, attempts := Failed(lastError), retries + 1;
  }

  // ---------------------------------------------------------------------
  // The chart chain
  // ---------------------------------------------------------------------

  /** The fewest points a source must deliver. */
  const MinPoints := 24

  /** The CoinGecko coin id of a tracked symbol. */
  function CoinGeckoId(symbol: string): Option<string> {
    if symbol == "BTC" then Some("bitcoin")
    else if symbol == "ETH" then Some("ethereum")
    else if symbol == "ADA" then Some("cardano")
    else if symbol == "SOL" then Some("solana")
    else if symbol == "USDT" then Some("tether")
    else None
  }

  /** The CoinGecko id table and the synthetic table cover the same symbols. */
  lemma TablesAgree(symbol: string)
    ensures CoinGeckoId(symbol).Some? <==> FallbackDaily(symbol).Some?
  {
  }

  /** A CryptoCompare reply: an error response, or its data points with
      times in seconds (a reply without data is an empty list). */
  datatype CompareReply = CompareError(message: string) | CompareData(points: seq<Sample>)

  /** CryptoCompare wins when the retried request brings data with at least
      24 points. */
  predicate CompareWins(compare: seq<Attempt<CompareReply>>)
    requires |compare| > 0
    ensures CompareWins(compare) ==>
      exists i :: 0 <= i < |compare| && compare[i].Ok? && compare[i].body.CompareData?
        && |compare[i].body.points| >= MinPoints
    ensures CompareWins(compare) ==> !Retried(compare).Aborted?
  {
    var fetched := Retried(compare);
    fetched.Body? && fetched.body.CompareData? && |fetched.body.points| >= MinPoints
  }

  /** How a CoinGecko or Binance stage ends. */
  datatype StageEnd = Won(points: seq<Sample>) | Lost(message: string) | Stopped

  /** A retried request judged against the 24-point minimum. */
  function Judge(fetched: Fetched<seq<Sample>>, insufficient: string): (e: StageEnd)
    ensures e.Won? ==> |e.points| >= MinPoints && fetched == Body(e.points)
    ensures e.Stopped? <==> fetched.Aborted?
  {
    match fetched
    case Body(points) => if |points| < MinPoints then Lost(insufficient) else Won(points)
    case Failed(error) => Lost(error)
    case Aborted => Stopped
  }

  /** The CoinGecko stage: a symbol without a coin id fails before any request. */
  function GeckoStage(symbol: string, gecko: seq<Attempt<seq<Sample>>>): (e: StageEnd)
    requires |gecko| > 0
    ensures e.Won? ==> CoinGeckoId(symbol).Some? && Ok(e.points) in gecko && |e.points| >= MinPoints
    ensures e.Stopped? <==> CoinGeckoId(symbol).Some? && Retried(gecko).Aborted?
    ensures CoinGeckoId(symbol).None? ==> e.Lost?
  {
    if CoinGeckoId(symbol).None? then Lost("No CoinGecko ID found for " + symbol)
    else Judge(Retried(gecko), "Insufficient data points from CoinGecko")
  }

  /** The Binance stage. */
  function BinanceStage(binance: seq<Attempt<seq<Sample>>>): (e: StageEnd)
    requires |binance| > 0
    ensures e.Won? ==> Ok(e.points) in binance && |e.points| >= MinPoints
    ensures e.Stopped? <==> Retried(binance).Aborted?
  {
    Judge(Retried(binance), "Insufficient data points from Binance")
  }

  /** Where a chart came from. */
  datatype Source = CryptoCompare | CoinGecko | Binance | Synthetic

  /** The component state a successful stage leaves: the detailed hourly
      data, the compact series in US dollars and converted, the provenance
      flag and the error banner. */
  datatype Chart = Chart(source: Source, hourly: seq<Sample>, basePrices: seq<real>,
                         timestamps: seq<int>, prices: seq<real>, useRealData: bool,
                         fetchError: Option<string>)

  /** How the chain ends: a drawn chart, or halted with the chart still
      loading and the given error banner. */
  datatype Outcome = Drawn(chart: Chart) | Halted(fetchError: Option<string>)

  /** Base prices converted at the selected currency's rate. */
  function Convert(basePrices: seq<real>, rate: real): (prices: seq<real>)
    ensures |prices| == |basePrices|
    ensures forall k :: 0 <= k < |prices| ==> prices[k] == basePrices[k] * rate
  {
    seq(|basePrices|, k requires 0 <= k < |basePrices| => basePrices[k] * rate)
  }

  /** What every drawn chart satisfies: a non-empty compact series with one
      timestamp per price, displayed prices converted from the base prices,
      every base price taken from the hourly data, and the provenance flag
      set exactly for CryptoCompare and CoinGecko. */
  ghost predicate Coherent(c: Chart, rate: real) {
    && |c.basePrices| == |c.timestamps| > 0
    && c.prices == Convert(c.basePrices, rate)
    && (forall x :: x in c.basePrices ==> x in Prices(c.hourly))
    && (c.useRealData <==> c.source == CryptoCompare || c.source == CoinGecko)
  }

  /** What a chart normalized from real data satisfies besides: its compact
      timestamps are every sixth hour of a week's hourly grid, and each base
      price is the price of a sample of the detailed data nearest to its
      timestamp. */
  ghost predicate Bucketed(c: Chart) {
    && (exists end :: c.timestamps == Strided(HourlyGrid(end), CompactStride))
    && |c.basePrices| == |c.timestamps|
    && forall k :: 0 <= k < |c.timestamps| ==> NearestPrice(c.hourly, c.timestamps[k], c.basePrices[k])
  }

  /** The synthetic chart for a symbol with built-in daily closes: the
      generated week, point `k` at now's hour less `k` hours and priced at
      the interpolation of its day and hour times that slot's jitter, and
      the compact series every sixth point of it. */
  ghost predicate SyntheticOf(c: Chart, symbol: string, now: int, jitters: seq<real>)
    requires |jitters| == HoursInWeek && Draws(jitters)
  {
    && FallbackDaily(symbol).Some?
    && GeneratedWeek(c.hourly, FallbackDaily(symbol).value, now, jitters)
    && c.basePrices == Prices(Strided(c.hourly, CompactStride))
    && c.timestamps == Times(Strided(c.hourly, CompactStride))
  }

  /** A fresh array holding `s`. */
  method ToArray(s: seq<Sample>) returns (a: array<Sample>)
    ensures fresh(a) && a[..] == s
  {
    a := new Sample[|s|](i requires 0 <= i < |s| => s[i]);
  }

  /** `processHourlyDataPoints` over a copy of the points: the sorted copy,
      and the 28-point compact series on the hourly grid that ends at the
      newest sample's hour (or now's, when that sample is stale), each price
      that of the first sorted sample nearest to its timestamp. */
  method Normalize(points: seq<Sample>, now: int) returns (sorted: seq<Sample>, basePrices: seq<real>, timestamps: seq<int>)
    requires |points| >= MinPoints
    ensures SortedByTime(sorted) && multiset(sorted) == multiset(points)
    ensures |sorted| == |points|
    ensures timestamps == Strided(HourlyGrid(EndHour(sorted[|sorted| - 1].time, now)), CompactStride)
    ensures |basePrices| == |timestamps| == CompactPoints
    ensures forall k :: 0 <= k < CompactPoints ==>
      exists j :: IsNearest(sorted, j, timestamps[k]) && basePrices[k] == sorted[j].price
    ensures forall k :: 0 <= k < CompactPoints ==> NearestPrice(points, timestamps[k], basePrices[k])
    ensures forall x :: x in basePrices ==> x in Prices(points)
  {
    var a := ToArray(points);
    var r := ProcessHourly(a, now);
    sorted := a[..];
    assert |sorted| == |multiset(sorted)| == |points|;
    var p := r.value;
    assert sorted[|sorted| - 1] == a[a.Length - 1];
    assert p.hourlyTimestamps == HourlyGrid(EndHour(sorted[|sorted| - 1].time, now));
    basePrices, timestamps := p.prices, p.timestamps;
    CompactNearest(sorted, p.hourlyPrices, p.hourlyTimestamps);
    BucketsOfPermutation(sorted, points, basePrices, timestamps);
  }

  /** The CryptoCompare stage, retried twice with a one-second base delay.
      The detailed data is an unsorted millisecond copy of the reply. The
      stage's catch swallows every failure, the abort included; `aborted`
      reports that the shared abort signal has fired. */
  method CompareAttempt(compare: seq<Attempt<CompareReply>>, draws: seq<real>, now: int, rate: real)
    returns (chart: Option<Chart>, aborted: bool)
    requires |compare| == 3 && |draws| == 2 && Draws(draws)
    ensures chart.Some? <==> CompareWins(compare)
    ensures aborted <==> Retried(compare).Aborted?
    ensures chart.Some? ==> Coherent(chart.value, rate) && Bucketed(chart.value) && chart.value.source == CryptoCompare
    ensures chart.Some? ==> chart.value.hourly == FromSeconds(Retried(compare).body.points)
    ensures chart.Some? ==> chart.value.fetchError.None? && |chart.value.basePrices| == CompactPoints
  {
    var fetched, _, _ := FetchWithRetry(compare, 2, 1000.0, draws);
    aborted := fetched.Aborted?;
    if !fetched.Body? || fetched.body.CompareError? || |fetched.body.points| < MinPoints {
      return None, aborted;
    }
    var hourly := FromSeconds(fetched.body.points);
    var sorted, basePrices, timestamps := Normalize(hourly, now);
    chart := Some(Chart(CryptoCompare, hourly, basePrices, timestamps, Convert(basePrices, rate), true, None));
  }

  /** The CoinGecko stage, retried three times with a two-second base delay.
      The detailed data is the reply itself, which the normalizer sorts. */
  method GeckoAttempt(symbol: string, gecko: seq<Attempt<seq<Sample>>>, draws: seq<real>, now: int, rate: real)
    returns (end: StageEnd, chart: Option<Chart>)
    requires |gecko| == 4 && |draws| == 3 && Draws(draws)
    ensures end == GeckoStage(symbol, gecko)
    ensures chart.Some? <==> end.Won?
    ensures chart.Some? ==> Coherent(chart.value, rate) && Bucketed(chart.value) && chart.value.source == CoinGecko
    ensures chart.Some? ==> SortedByTime(chart.value.hourly) && multiset(chart.value.hourly) == multiset(end.points)
    ensures chart.Some? ==> chart.value.fetchError.None? && |chart.value.basePrices| == CompactPoints
  {
    if CoinGeckoId(symbol).None? {
      return Lost("No CoinGecko ID found for " + symbol), None;
    }
    var fetched, _, _ := FetchWithRetry(gecko, 3, 2000.0, draws);
    end := Judge(fetched, "Insufficient data points from CoinGecko");
    if !end.Won? {
      return end, None;
    }
    var hourly, basePrices, timestamps := Normalize(end.points, now);
    forall k | 0 <= k < |timestamps|
      ensures NearestPrice(hourly, timestamps[k], basePrices[k])
    {
      var j :| IsNearest(hourly, j, timestamps[k]) && basePrices[k] == hourly[j].price;
    }
    forall x | x in basePrices
      ensures x in Prices(hourly)
    {
      var i :| 0 <= i < |end.points| && end.points[i].price == x;
      assert end.points[i] in multiset(hourly);
      PriceOfMember(end.points[i], hourly);
    }
    chart := Some(Chart(CoinGecko, hourly, basePrices, timestamps, Convert(basePrices, rate), true, None));
  }

  /** The Binance stage, retried three times with a two-second base delay:
      the candles are sorted and sampled every `BinanceStep` points; the
      provenance flag is cleared and the earlier error banner stays. */
  method BinanceAttempt(binance: seq<Attempt<seq<Sample>>>, draws: seq<real>, rate: real, banner: Option<string>)
    returns (end: StageEnd, chart: Option<Chart>)
    requires |binance| == 4 && |draws| == 3 && Draws(draws)
    ensures end == BinanceStage(binance)
    ensures chart.Some? <==> end.Won?
    ensures chart.Some? ==> Coherent(chart.value, rate) && chart.value.source == Binance
    ensures chart.Some? ==> SortedByTime(chart.value.hourly) && multiset(chart.value.hourly) == multiset(end.points)
    ensures chart.Some? ==> chart.value.basePrices == Prices(Strided(chart.value.hourly, BinanceStep(|end.points|)))
    ensures chart.Some? ==> chart.value.fetchError == banner
  {
    var fetched, _, _ := FetchWithRetry(binance, 3, 2000.0, draws);
    end := Judge(fetched, "Insufficient data points from Binance");
    if !end.Won? {
      return end, None;
    }
    var a := ToArray(end.points);
    var basePrices, timestamps := BinanceSeries(a);
    var hourly := a[..];
    assert |hourly| == |multiset(hourly)| == |end.points|;
    var picked := Strided(hourly, BinanceStep(|hourly|));
    StridedAt(hourly, BinanceStep(|hourly|));
    forall x | x in basePrices
      ensures x in Prices(hourly)
    {
      var k :| 0 <= k < |picked| && Prices(picked)[k] == x;
      assert picked[k] in picked;
      StridedMember(hourly, BinanceStep(|hourly|), picked[k]);
      PriceOfMember(picked[k], hourly);
    }
    chart := Some(Chart(Binance, hourly, basePrices, timestamps, Convert(basePrices, rate), false, banner));
  }

  /** The banner the synthetic chart shows. */
  const EstimatedBanner := "API data unavailable, showing estimated values"

  /** Every price of a sampled series is a price of the series. */
  lemma SampledPricesAmong(hourly: seq<Sample>, step: nat)
    requires step > 0
    ensures forall x :: x in Prices(Strided(hourly, step)) ==> x in Prices(hourly)
  {
    var picked := Strided(hourly, step);
    forall x | x in Prices(picked)
      ensures x in Prices(hourly)
    {
      var k :| 0 <= k < |picked| && Prices(picked)[k] == x;
      assert picked[k] in picked;
      StridedMember(hourly, step, picked[k]);
      PriceOfMember(picked[k], hourly);
    }
  }

  /** `generateFallbackChart`: 168 interpolated points newest first, sampled
      every sixth; `None` for a symbol without a table (the table lookup
      throws there). */
  method SyntheticChart(symbol: string, now: int, jitters: seq<real>, rate: real) returns (chart: Option<Chart>)
    requires |jitters| == HoursInWeek && Draws(jitters)
    ensures chart.Some? <==> FallbackDaily(symbol).Some?
    ensures chart.Some? ==> Coherent(chart.value, rate) && chart.value.source == Synthetic
    ensures chart.Some? ==> |chart.value.hourly| == HoursInWeek && |chart.value.basePrices| == CompactPoints
    ensures chart.Some? ==> chart.value.timestamps[0] == FloorToHour(now)
    ensures chart.Some? ==> forall j, k :: 0 <= j < k < |chart.value.timestamps| ==> chart.value.timestamps[j] > chart.value.timestamps[k]
    ensures chart.Some? ==> chart.value.fetchError == Some(EstimatedBanner)
    ensures chart.Some? ==> SyntheticOf(chart.value, symbol, now, jitters)
  {
    var daily := FallbackDaily(symbol);
    if daily.None? {
      return None;
    }
    var hourly := SyntheticHourly(daily.value, now, jitters);
    var picked := SampleEvery(hourly, CompactStride);
    CompactSynthetic(hourly, FloorToHour(now));
    var basePrices, timestamps := Prices(picked), Times(picked);
    SampledPricesAmong(hourly, CompactStride);
    chart := Some(Chart(Synthetic, hourly, basePrices, timestamps, Convert(basePrices, rate), false, Some(EstimatedBanner)));
  }

  /** The whole chart chain. CryptoCompare wins when it delivers; any other
      failure there falls through to CoinGecko. An abort there is caught too,
      but the abort signal is shared by every request of the chain and fires
      only when the component unmounts, so the chain then ends without a
      chart and without a banner (the CoinGecko request rejects at once, or
      the missing coin id is caught after the component has gone). CoinGecko wins
      when it delivers; an abort there halts the chain, any other failure sets
      the error banner and passes to Binance. Binance wins when it delivers;
      an abort halts; any other failure draws the synthetic chart, which a
      symbol without a table cannot do. */
  method FetchHourlyData(symbol: string, now: int, rate: real,
                         compare: seq<Attempt<CompareReply>>, gecko: seq<Attempt<seq<Sample>>>,
                         binance: seq<Attempt<seq<Sample>>>, compareDraws: seq<real>, geckoDraws: seq<real>,
                         binanceDraws: seq<real>, jitters: seq<real>)
    returns (out: Outcome)
    requires |compare| == 3 && |gecko| == 4 && |binance| == 4
    requires |compareDraws| == 2 && Draws(compareDraws) && |geckoDraws| == 3 && Draws(geckoDraws)
    requires |binanceDraws| == 3 && Draws(binanceDraws) && |jitters| == HoursInWeek && Draws(jitters)
    ensures out.Drawn? ==> Coherent(out.chart, rate)
    ensures out.Drawn? && out.chart.useRealData ==> Bucketed(out.chart)
    ensures CompareWins(compare) ==>
      out.Drawn? && out.chart.source == CryptoCompare && out.chart.fetchError.None?
      && out.chart.hourly == FromSeconds(Retried(compare).body.points)
    ensures Retried(compare).Aborted? ==> out == Halted(None)
    ensures !CompareWins(compare) && !Retried(compare).Aborted? ==> match GeckoStage(symbol, gecko)
      case Won(points) =>
        out.Drawn? && out.chart.source == CoinGecko && out.chart.fetchError.None?
        && multiset(out.chart.hourly) == multiset(points)
      case Stopped => out == Halted(None)
      case Lost(e) => match BinanceStage(binance)
        case Won(points) =>
          out.Drawn? && out.chart.source == Binance && out.chart.fetchError == Some(e)
          && multiset(out.chart.hourly) == multiset(points)
        case Stopped => out == Halted(Some(e))
        case Lost(_) =>
          if FallbackDaily(symbol).Some? then
            out.Drawn? && out.chart.source == Synthetic && out.chart.fetchError == Some(EstimatedBanner)
            && SyntheticOf(out.chart, symbol, now, jitters)
          else out == Halted(Some(e))
  {
    var fromCompare, aborted := CompareAttempt(compare, compareDraws, now, rate);
    if fromCompare.Some? {
      return Drawn(fromCompare.value);
    }
    if aborted {
      return Halted(None);
    }
    var geckoEnd, fromGecko := GeckoAttempt(symbol, gecko, geckoDraws, now, rate);
    if fromGecko.Some? {
      return Drawn(fromGecko.value);
    }
    if geckoEnd.Stopped? {
      return Halted(None);
    }
    var banner := Some(geckoEnd.message);
    var binanceEnd, fromBinance := BinanceAttempt(binance, binanceDraws, rate, banner);
    if fromBinance.Some? {
      return Drawn(fromBinance.value);
    }
    if binanceEnd.Stopped? {
      return Halted(banner);
    }
    var synthetic := SyntheticChart(symbol, now, jitters, rate);
    if synthetic.Some? {
      return Drawn(synthetic.value);
    }
    return Halted(banner);
  }

  /** An abort during the CryptoCompare stage does not win that stage; the
      chain then ends as `FetchHourlyData` states. */
  lemma CompareAbortLoses(compare: seq<Attempt<CompareReply>>)
    requires |compare| > 0 && compare[0].Abort?
    ensures !CompareWins(compare) && Retried(compare).Aborted?
  {
  }

  /** When no stage is aborted and both CoinGecko and Binance fail outright,
      both stages are lost, and a symbol with a coin id also has a synthetic
      table, so the chain cannot halt there. */
  lemma HaltReasons(symbol: string, compare: seq<Attempt<CompareReply>>, gecko: seq<Attempt<seq<Sample>>>,
                    binance: seq<Attempt<seq<Sample>>>)
    requires |compare| == 3 && |gecko| == 4 && |binance| == 4
    requires !CompareWins(compare)
    requires Retried(gecko).Failed? && Retried(binance).Failed? && CoinGeckoId(symbol).Some?
    ensures GeckoStage(symbol, gecko).Lost? && BinanceStage(binance).Lost? && FallbackDaily(symbol).Some?
  {
    TablesAgree(symbol);
  }
}
