/** The market-data service: the quote chain (CryptoCompare merged with
    CoinGecko, then CoinGecko alone, then a built-in table), the polled price
    tick and its random fallback, and the history chain ending in a generated
    week. Responses are abstract values supplied by the caller; random draws
    and the clock are parameters. */
module MarketService {
  import opened Support
  import opened Series

  /** A network response: the request rejected (or its body failed to parse),
      a non-ok status, or a parsed body. */
  datatype Response<T> = Rejected | NotOk | Ok(body: T)

  /** One market record as the table shows it. Nullable fields are options;
      `change1h` is absent from fetched records and set by live updates. */
  datatype Asset = Asset(id: string, symbol: string, name: string, image: string,
                         currentPrice: real, marketCap: real, marketCapRank: Option<int>,
                         totalVolume: real, change24h: real, change7d: Option<real>,
                         change1h: Option<real>, circulatingSupply: real, maxSupply: Option<real>)

  /** The USD quote CryptoCompare gives for one symbol. */
  datatype RawQuote = RawQuote(price: real, marketCap: real, totalVolume24h: real,
                               changePct24h: real, changePctHour: real, supply: real)

  /** One CoinGecko market record. */
  datatype GeckoCoin = GeckoCoin(id: string, symbol: string, name: string, image: string,
                                 currentPrice: real, marketCap: real, marketCapRank: Option<int>,
                                 totalVolume: real, change24h: real, change7d: Option<real>,
                                 circulatingSupply: real, maxSupply: Option<real>)

  /** A live price update for one symbol. */
  datatype PriceUpdate = PriceUpdate(symbol: string, price: real, change24h: real, change1h: real)

  /** The tracked symbols, in the order of the CoinGecko id table. */
  const Tracked: seq<string> := ["BTC", "ETH", "ADA", "SOL", "USDT"]

  /** The CoinGecko ids of the tracked symbols, position by position. */
  const TrackedIds: seq<string> := ["bitcoin", "ethereum", "cardano", "solana", "tether"]

  /** `findCoinGeckoInfo`: the chosen property of the first record with the
      given id, and null when no record has it. */
  function FindCoinGeckoInfo<P>(data: seq<GeckoCoin>, id: string, property: GeckoCoin -> Option<P>): (r: Option<P>)
    ensures (forall k :: 0 <= k < |data| ==> data[k].id != id) ==> r.None?
    ensures forall i :: 0 <= i < |data| && data[i].id == id && (forall k :: 0 <= k < i ==> data[k].id != id) ==>
      r == property(data[i])
    decreases |data|
  {
    if |data| == 0 then None
    else if data[0].id == id then property(data[0])
    else FindCoinGeckoInfo(data[1..], id, property)
  }

  /** JavaScript's `value || fallback` on a nullable number: null and 0 give the fallback. */
  function OrReal(value: Option<real>, fallback: real): (r: real)
    ensures value.Some? && value.value != 0.0 ==> r == value.value
    ensures value.None? || value.value == 0.0 ==> r == fallback
  {
    if value.Some? && value.value != 0.0 then value.value else fallback
  }

  /** `value || fallback` on a nullable integer. */
  function OrInt(value: Option<int>, fallback: int): (r: int)
    ensures value.Some? && value.value != 0 ==> r == value.value
    ensures value.None? || value.value == 0 ==> r == fallback
  {
    if value.Some? && value.value != 0 then value.value else fallback
  }

  /** The name, image and maximum supply the merge writes for position `k`. */
  function Name(k: nat): string
    requires k < 5
  {
    ["Bitcoin", "Ethereum", "Cardano", "Solana", "Tether"][k]
  }

  /** Where CoinGecko serves the coin images. */
  const ImageHost := "https://assets.coingecko.com/coins/images/"

  function Image(k: nat): string
    requires k < 5
  {
    ImageHost + ["1/large/bitcoin.png", "279/large/ethereum.png", "975/large/cardano.png",
                 "4128/large/solana.png", "325/large/Tether.png"][k]
  }

  function MaxSupply(k: nat): Option<real>
    requires k < 5
  {
    [Some(21000000.0), None, Some(45000000000.0), None, None][k]
  }

  /** The record properties the merge looks up. */
  function RankOf(c: GeckoCoin): Option<int> { c.marketCapRank }

  function Change7dOf(c: GeckoCoin): Option<real> { c.change7d }

  /** The rank the merge writes: fixed for BTC, ETH and USDT; for ADA and SOL
      CoinGecko's rank, or 8 and 5 when it is missing or zero. */
  function MergedRank(k: nat, gecko: seq<GeckoCoin>): int
    requires k < 5
  {
    if k == 0 then 1
    else if k == 1 then 2
    else if k == 2 then OrInt(FindCoinGeckoInfo(gecko, "cardano", RankOf), 8)
    else if k == 3 then OrInt(FindCoinGeckoInfo(gecko, "solana", RankOf), 5)
    else 3
  }

  /** The seven-day change the merge writes: CoinGecko's, or 0 when it is
      missing or zero. */
  function Merged7d(k: nat, gecko: seq<GeckoCoin>): real
    requires k < 5
  {
    OrReal(FindCoinGeckoInfo(gecko, TrackedIds[k], Change7dOf), 0.0)
  }

  /** The merged record at position `k`. */
  function MergedAsset(k: nat, raw: RawQuote, gecko: seq<GeckoCoin>): Asset
    requires k < 5
  {
    Asset(TrackedIds[k], Tracked[k], Name(k), Image(k), raw.price, raw.marketCap,
          Some(MergedRank(k, gecko)), raw.totalVolume24h, raw.changePct24h,
          Some(Merged7d(k, gecko)), None, raw.supply, MaxSupply(k))
  }

  /** The primary merge. A symbol missing from CryptoCompare's reply makes
      the property access throw, which `None` stands for. */
  function MergePrimary(raw: map<string, RawQuote>, gecko: seq<GeckoCoin>): (r: Option<seq<Asset>>)
    ensures r.Some? <==> forall s :: s in Tracked ==> s in raw
  {
    if forall s :: s in Tracked ==> s in raw then Some(MergeAll(raw, gecko)) else None
  }

  /** The merged records of the five tracked coins, in table order. */
  function MergeAll(raw: map<string, RawQuote>, gecko: seq<GeckoCoin>): (r: seq<Asset>)
    requires forall s :: s in Tracked ==> s in raw
    ensures |r| == 5 && forall k :: 0 <= k < 5 ==> r[k] == MergedAsset(k, raw[Tracked[k]], gecko)
  {
    seq(5, k requires 0 <= k < 5 => MergedAsset(k, raw[Tracked[k]], gecko))
  }

  /** The primary merge lists the five tracked coins in order, each with the
      quote CryptoCompare gave for its own symbol, and never leaves the rank
      or the seven-day change null: the seven-day change is CoinGecko's first
      record for the coin's id, or 0 when that is missing or zero; BTC, ETH
      and USDT rank 1, 2 and 3, and ADA and SOL take CoinGecko's rank, or 8
      and 5 when it is missing or zero. */
  lemma MergeQuotes(raw: map<string, RawQuote>, gecko: seq<GeckoCoin>)
    requires forall s :: s in Tracked ==> s in raw
    ensures var r := MergePrimary(raw, gecko).value;
      && |r| == 5
      && (forall k :: 0 <= k < 5 ==> r[k].symbol == Tracked[k] && r[k].id == TrackedIds[k])
      && (forall k :: 0 <= k < 5 ==>
            var q := raw[r[k].symbol];
            && r[k].currentPrice == q.price && r[k].marketCap == q.marketCap && r[k].totalVolume == q.totalVolume24h
            && r[k].change24h == q.changePct24h && r[k].circulatingSupply == q.supply)
      && (forall k :: 0 <= k < 5 ==>
            r[k].marketCapRank.Some? && r[k].marketCapRank.value != 0 && r[k].change7d.Some?)
      && (forall k :: 0 <= k < 5 ==>
            r[k].change7d == Some(OrReal(FindCoinGeckoInfo(gecko, TrackedIds[k], Change7dOf), 0.0)))
      && r[0].marketCapRank == Some(1) && r[1].marketCapRank == Some(2) && r[4].marketCapRank == Some(3)
      && r[2].marketCapRank == Some(OrInt(FindCoinGeckoInfo(gecko, "cardano", RankOf), 8))
      && r[3].marketCapRank == Some(OrInt(FindCoinGeckoInfo(gecko, "solana", RankOf), 5))
  {
    var r := MergePrimary(raw, gecko).value;
    forall k | 0 <= k < 5
      ensures r[k].marketCapRank.Some? && r[k].marketCapRank.value != 0
    {
      assert r[k] == MergedAsset(k, raw[Tracked[k]], gecko);
    }
  }

  /** Without CoinGecko records (a non-ok reply) the merge still succeeds:
      every seven-day change is 0 and ADA and SOL rank 8 and 5. */
  lemma MergeWithoutGecko(raw: map<string, RawQuote>)
    requires forall s :: s in Tracked ==> s in raw
    ensures var r := MergePrimary(raw, []).value;
      && (forall k :: 0 <= k < 5 ==> r[k].change7d == Some(0.0))
      && Ranks(r) == [1, 2, 8, 5, 3]
  {
    var r := MergePrimary(raw, []).value;
    forall k | 0 <= k < 5
      ensures r[k].change7d == Some(0.0) && r[k].marketCapRank == Some([1, 2, 8, 5, 3][k])
    {
      assert r[k] == MergedAsset(k, raw[Tracked[k]], []);
      MergedWithoutGecko(k);
    }
  }

  /** With no CoinGecko records, position `k` gets the default rank and a
      zero seven-day change. */
  lemma MergedWithoutGecko(k: nat)
    requires k < 5
    ensures MergedRank(k, []) == [1, 2, 8, 5, 3][k] && Merged7d(k, []) == 0.0
  {
    assert FindCoinGeckoInfo([], TrackedIds[k], Change7dOf) == None;
    assert FindCoinGeckoInfo([], TrackedIds[k], RankOf) == None;
  }

  /** The ranks of a list, missing ones as 0. */
  function Ranks(assets: seq<Asset>): (r: seq<int>)
    ensures |r| == |assets|
  {
    seq(|assets|, k requires 0 <= k < |assets| => assets[k].marketCapRank.GetOr(0))
  }

  /** The CoinGecko-only mapping: each coin kept in order, its symbol
      upper-cased. */
  function FromGecko(coins: seq<GeckoCoin>): (r: seq<Asset>)
    ensures |r| == |coins|
    ensures forall k :: 0 <= k < |r| ==>
      && r[k].symbol == ToUpper(coins[k].symbol) && r[k].id == coins[k].id && r[k].name == coins[k].name
      && r[k].image == coins[k].image && r[k].currentPrice == coins[k].currentPrice
      && r[k].marketCap == coins[k].marketCap && r[k].marketCapRank == coins[k].marketCapRank
      && r[k].totalVolume == coins[k].totalVolume && r[k].change24h == coins[k].change24h
      && r[k].change7d == coins[k].change7d && r[k].change1h.None?
      && r[k].circulatingSupply == coins[k].circulatingSupply && r[k].maxSupply == coins[k].maxSupply
  {
    seq(|coins|, k requires 0 <= k < |coins| =>
      var c := coins[k];
      Asset(c.id, ToUpper(c.symbol), c.name, c.image, c.currentPrice, c.marketCap, c.marketCapRank,
            c.totalVolume, c.change24h, c.change7d, None, c.circulatingSupply, c.maxSupply))
  }

  /** `getFallbackData`: five built-in records. */
  function FallbackData(): seq<Asset> {
    [ Asset("bitcoin", "BTC", "Bitcoin", Image(0), 64789.0, 1272231669550.0, Some(1), 32586618681.0,
            1.2, Some(2.5), None, 19687531.0, Some(21000000.0)),
      Asset("ethereum", "ETH", "Ethereum", Image(1), 3457.49, 415546291176.0, Some(2), 15854771431.0,
            0.8, Some(1.2), None, 120232683.0, None),
      Asset("cardano", "ADA", "Cardano", Image(2), 0.45, 15930599764.0, Some(9), 431559821.0,
            -0.7, Some(-2.1), None, 35045020830.0, Some(45000000000.0)),
      Asset("solana", "SOL", "Solana", Image(3), 148.52, 64772389741.0, Some(5), 2879023342.0,
            -1.5, Some(-3.8), None, 437489571.0, None),
      Asset("tether", "USDT", "Tether", Image(4), 1.0, 100625419631.0, Some(3), 63221144810.0,
            0.1, Some(0.05), None, 100635868015.0, None) ]
  }

  /** The symbols of a list of records. */
  function Symbols(assets: seq<Asset>): (r: seq<string>)
    ensures |r| == |assets| && forall k :: 0 <= k < |r| ==> r[k] == assets[k].symbol
  {
    seq(|assets|, k requires 0 <= k < |assets| => assets[k].symbol)
  }

  /** The built-in table holds the five tracked coins, each once, each with a
      positive price. */
  lemma FallbackDataShape()
    ensures Symbols(FallbackData()) == Tracked
    ensures forall i, j :: 0 <= i < j < 5 ==> FallbackData()[i].symbol != FallbackData()[j].symbol
    ensures forall k :: 0 <= k < 5 ==> FallbackData()[k].currentPrice > 0.0
  {
    assert Symbols(FallbackData()) == Tracked;
  }

  /** Which step of the quote chain produced the list. */
  datatype QuoteSource = Merged | GeckoOnly | BuiltIn

  datatype Quotes = Quotes(from: QuoteSource, assets: seq<Asset>)

  /** `fetchCryptoData`: the merged quotes when CryptoCompare answers with
      every symbol and the CoinGecko request is not rejected (a non-ok
      CoinGecko status counts as no records); otherwise the CoinGecko list
      when that request succeeds; otherwise the built-in table. It has no
      failure result: the chain never rejects. */
  function FetchCryptoData(price: Response<map<string, RawQuote>>, gecko: Response<seq<GeckoCoin>>,
                           secondary: Response<seq<GeckoCoin>>): (q: Quotes)
    ensures q.from == Merged <==> price.Ok? && !gecko.Rejected? && forall s :: s in Tracked ==> s in price.body
    ensures q.from == Merged ==>
      price.Ok? && q.assets == MergePrimary(price.body, if gecko.Ok? then gecko.body else []).value
    ensures q.from == GeckoOnly ==> secondary.Ok? && q.assets == FromGecko(secondary.body)
    ensures q.from == BuiltIn <==> q.from != Merged && !secondary.Ok?
    ensures q.from == BuiltIn ==> q.assets == FallbackData()
  {
    var primary :=
      if !price.Ok? || gecko.Rejected? then None
      else MergePrimary(price.body, if gecko.Ok? then gecko.body else []);
    if primary.Some? then Quotes(Merged, primary.value)
    else if secondary.Ok? then Quotes(GeckoOnly, FromGecko(secondary.body))
    else Quotes(BuiltIn, FallbackData())
  }

  /** A non-ok CoinGecko status in the primary path does not send the chain
      to its next step: the merge goes ahead without CoinGecko records. */
  lemma GeckoNotOkTolerated(raw: map<string, RawQuote>, secondary: Response<seq<GeckoCoin>>)
    requires forall s :: s in Tracked ==> s in raw
    ensures FetchCryptoData(Ok(raw), NotOk, secondary) == Quotes(Merged, MergePrimary(raw, []).value)
  {
  }

  /** The chain always yields records: five of them unless the CoinGecko-only
      step answered. */
  lemma QuotesNeverEmpty(price: Response<map<string, RawQuote>>, gecko: Response<seq<GeckoCoin>>,
                         secondary: Response<seq<GeckoCoin>>)
    ensures var q := FetchCryptoData(price, gecko, secondary);
      q.from != GeckoOnly ==> |q.assets| == 5 && Symbols(q.assets) == Tracked
  {
    var q := FetchCryptoData(price, gecko, secondary);
    if q.from == Merged {
      MergeQuotes(price.body, if gecko.Ok? then gecko.body else []);
    } else if q.from == BuiltIn {
      FallbackDataShape();
    }
  }

  // ---------------------------------------------------------------------
  // The polled price tick
  // ---------------------------------------------------------------------

  /** The reference price the random tick and the generated history start from. */
  function ReferencePrice(symbol: string): (p: real)
    ensures p > 0.0
    ensures symbol != "BTC" && symbol != "ETH" && symbol != "ADA" && symbol != "SOL" ==> p == 1.0
  {
    if symbol == "BTC" then 65000.0
    else if symbol == "ETH" then 3400.0
    else if symbol == "ADA" then 0.45
    else if symbol == "SOL" then 150.0
    else 1.0
  }

  /** Three random draws for one symbol's fallback update, in the order they
      are made: the 24-hour change, the one-hour change, the price factor. */
  datatype TickDraws = TickDraws(change24h: real, change1h: real, price: real)

  predicate ValidTickDraws(d: TickDraws) {
    0.0 <= d.change24h < 1.0 && 0.0 <= d.change1h < 1.0 && 0.0 <= d.price < 1.0
  }

  /** The fallback update for one symbol: the reference price moved by up to
      one percent, a 24-hour change in [-2, 2) and a one-hour change in
      [-0.6, 0.6). */
  function RandomUpdate(symbol: string, d: TickDraws): (u: PriceUpdate)
    requires ValidTickDraws(d)
    ensures u.symbol == symbol
    ensures 0.99 * ReferencePrice(symbol) <= u.price <= 1.01 * ReferencePrice(symbol)
    ensures -2.0 <= u.change24h < 2.0 && -0.6 <= u.change1h < 0.6
  {
    var factor := 1.0 + (d.price * 0.02 - 0.01);
    ScaledBetween(ReferencePrice(symbol), factor, 0.99, 1.01);
    PriceUpdate(symbol, ReferencePrice(symbol) * factor, d.change24h * 4.0 - 2.0, d.change1h * 1.2 - 0.6)
  }

  /** The update built from a CryptoCompare quote; a zero hourly change is
      replaced by a random one (narrower for USDT). */
  function QuoteUpdate(symbol: string, raw: RawQuote, draw: real): (u: PriceUpdate)
    requires 0.0 <= draw < 1.0
    ensures u.symbol == symbol && u.price == raw.price && u.change24h == raw.changePct24h
    ensures raw.changePctHour != 0.0 ==> u.change1h == raw.changePctHour
    ensures raw.changePctHour == 0.0 && symbol != "USDT" ==> -0.75 <= u.change1h < 0.75
    ensures raw.changePctHour == 0.0 && symbol == "USDT" ==> -0.1 <= u.change1h < 0.1
  {
    var random := if symbol == "USDT" then draw * 0.2 - 0.1 else draw * 1.5 - 0.75;
    PriceUpdate(symbol, raw.price, raw.changePct24h, if raw.changePctHour != 0.0 then raw.changePctHour else random)
  }

  /** CryptoCompare answered and quoted every tracked symbol; otherwise the
      property access of the poll throws and its catch takes over. */
  predicate AllQuoted(response: Response<map<string, RawQuote>>) {
    response.Ok? && forall s :: s in Tracked ==> s in response.body
  }

  /** One poll of the price tick: quotes for the five symbols when
      CryptoCompare answers with all of them, random updates otherwise. */
  function PollTick(response: Response<map<string, RawQuote>>, hourDraws: seq<real>, draws: seq<TickDraws>): (updates: seq<PriceUpdate>)
    requires |hourDraws| == 5 && Draws(hourDraws)
    requires |draws| == 5 && forall k :: 0 <= k < 5 ==> ValidTickDraws(draws[k])
  {
    if AllQuoted(response) then
      seq(5, k requires 0 <= k < 5 => QuoteUpdate(Tracked[k], response.body[Tracked[k]], hourDraws[k]))
    else
      seq(5, k requires 0 <= k < 5 => RandomUpdate(Tracked[k], draws[k]))
  }

  /** Random draws, each in [0, 1). */
  predicate Draws(draws: seq<real>) {
    forall i :: 0 <= i < |draws| ==> 0.0 <= draws[i] < 1.0
  }

  /** Every poll yields exactly one update per tracked symbol, in table
      order; on failure each price stays within one percent of its
      reference. */
  lemma PollTickShape(response: Response<map<string, RawQuote>>, hourDraws: seq<real>, draws: seq<TickDraws>)
    requires |hourDraws| == 5 && Draws(hourDraws)
    requires |draws| == 5 && forall k :: 0 <= k < 5 ==> ValidTickDraws(draws[k])
    ensures var u := PollTick(response, hourDraws, draws);
      && |u| == 5
      && (forall k :: 0 <= k < 5 ==> u[k].symbol == Tracked[k])
      && (AllQuoted(response) ==> forall k :: 0 <= k < 5 ==>
            && u[k] == QuoteUpdate(Tracked[k], response.body[Tracked[k]], hourDraws[k])
            && u[k].price == response.body[Tracked[k]].price
            && u[k].change24h == response.body[Tracked[k]].changePct24h)
      && (!AllQuoted(response) ==> forall k :: 0 <= k < 5 ==>
            0.99 * ReferencePrice(Tracked[k]) <= u[k].price <= 1.01 * ReferencePrice(Tracked[k]))
  {
    var u := PollTick(response, hourDraws, draws);
    forall k | 0 <= k < 5
      ensures u[k].symbol == Tracked[k]
    {
      if AllQuoted(response) {
        assert u[k] == QuoteUpdate(Tracked[k], response.body[Tracked[k]], hourDraws[k]);
      } else {
        assert u[k] == RandomUpdate(Tracked[k], draws[k]);
      }
    }
  }

  // ---------------------------------------------------------------------
  // The history chain
  // ---------------------------------------------------------------------

  /** `generateFallbackHistoricalData`: a countdown from 167 to 0 pushing the
      point `i` hours before now, priced at the reference price times one plus
      a wave term (`waves[i]` stands for the sine, in [-1, 1]) and a random
      term. */
  method GenerateHistory(symbol: string, now: int, waves: seq<real>, draws: seq<real>) returns (points: seq<Sample>)
    requires |waves| == HoursInWeek && forall i :: 0 <= i < |waves| ==> -1.0 <= waves[i] <= 1.0
    requires |draws| == HoursInWeek && Draws(draws)
    ensures |points| == HoursInWeek
    ensures forall k :: 0 <= k < HoursInWeek ==> points[k].time == now - (HoursInWeek - 1 - k) * HourMs
    ensures points[HoursInWeek - 1].time == now
    ensures forall k :: 0 <= k < HoursInWeek ==>
      points[k].price == ReferencePrice(symbol) * (1.0 + (waves[HoursInWeek - 1 - k] * 0.05 + (draws[k] * 0.02 - 0.01)))
  {
    var base := ReferencePrice(symbol);
    points := [];
    var i := HoursInWeek - 1;
    while i >= 0
      invariant -1 <= i <= HoursInWeek - 1
      invariant |points| == HoursInWeek - 1 - i
      invariant forall k :: 0 <= k < |points| ==> points[k].time == now - (HoursInWeek - 1 - k) * HourMs
      invariant forall k :: 0 <= k < |points| ==>
        points[k].price == base * (1.0 + (waves[HoursInWeek - 1 - k] * 0.05 + (draws[k] * 0.02 - 0.01)))
    {
      var noise := waves[i] * 0.05 + (draws[|points|] * 0.02 - 0.01);
      points := points + [Sample(now - i * HourMs, base * (1.0 + noise))];
      i := i - 1;
    }
  }

  /** The generated history is ascending, an hour apart, and every price is
      within six percent of the reference price. */
  lemma HistoryBounds(symbol: string, now: int, waves: seq<real>, draws: seq<real>, points: seq<Sample>)
    requires |waves| == HoursInWeek && forall i :: 0 <= i < |waves| ==> -1.0 <= waves[i] <= 1.0
    requires |draws| == HoursInWeek && Draws(draws)
    requires |points| == HoursInWeek
    requires forall k :: 0 <= k < HoursInWeek ==> points[k].time == now - (HoursInWeek - 1 - k) * HourMs
    requires forall k :: 0 <= k < HoursInWeek ==>
      points[k].price == ReferencePrice(symbol) * (1.0 + (waves[HoursInWeek - 1 - k] * 0.05 + (draws[k] * 0.02 - 0.01)))
    ensures forall k :: 0 < k < HoursInWeek ==> points[k].time == points[k - 1].time + HourMs
    ensures forall k :: 0 <= k < HoursInWeek ==>
      0.94 * ReferencePrice(symbol) <= points[k].price <= 1.06 * ReferencePrice(symbol)
  {
    forall k | 0 <= k < HoursInWeek
      ensures 0.94 * ReferencePrice(symbol) <= points[k].price <= 1.06 * ReferencePrice(symbol)
    {
      var factor := 1.0 + (waves[HoursInWeek - 1 - k] * 0.05 + (draws[k] * 0.02 - 0.01));
      ScaledBetween(ReferencePrice(symbol), factor, 0.94, 1.06);
    }
  }

  /** Which step of the history chain produced the points. */
  datatype HistorySource = FromCryptoCompare | FromCoinGecko | Generated

  /** The CoinGecko id of a tracked symbol. */
  function GeckoIdOf(symbol: string): (id: Option<string>)
    ensures id.Some? <==> symbol in Tracked
    ensures forall k :: 0 <= k < 5 && symbol == Tracked[k] ==> id == Some(TrackedIds[k])
  {
    match FindFirst(Tracked, (s: string) => s == symbol)
    case Some(k) => Some(TrackedIds[k])
    case None => None
  }

  /** `fetchHistoricalData`: CryptoCompare's points (seconds turned into
      milliseconds) when it answers with at least one; otherwise CoinGecko's
      when the symbol has an id and CoinGecko answers with at least one;
      otherwise the generated week. Empty answers count as failures. */
  method FetchHistoricalData(symbol: string, now: int, compare: Response<seq<Sample>>, gecko: Response<seq<Sample>>,
                             waves: seq<real>, draws: seq<real>)
    returns (from: HistorySource, points: seq<Sample>)
    requires |waves| == HoursInWeek && forall i :: 0 <= i < |waves| ==> -1.0 <= waves[i] <= 1.0
    requires |draws| == HoursInWeek && Draws(draws)
    ensures |points| > 0
    ensures from == FromCryptoCompare <==> compare.Ok? && |compare.body| > 0
    ensures from == FromCryptoCompare ==> points == FromSeconds(compare.body)
    ensures from == FromCoinGecko <==>
      !(compare.Ok? && |compare.body| > 0) && symbol in Tracked && gecko.Ok? && |gecko.body| > 0
    ensures from == FromCoinGecko ==> points == gecko.body
    ensures from == Generated ==> |points| == HoursInWeek && points[HoursInWeek - 1].time == now
    ensures from == Generated ==> forall k :: 0 <= k < HoursInWeek ==>
      && points[k].time == now - (HoursInWeek - 1 - k) * HourMs
      && points[k].price == ReferencePrice(symbol) * (1.0 + (waves[HoursInWeek - 1 - k] * 0.05 + (draws[k] * 0.02 - 0.01)))
  {
    if compare.Ok? && |compare.body| > 0 {
      return FromCryptoCompare, FromSeconds(compare.body);
    }
    if GeckoIdOf(symbol).Some? && gecko.Ok? && |gecko.body| > 0 {
      return FromCoinGecko, gecko.body;
    }
    from := Generated;
    points := GenerateHistory(symbol, now, waves, draws);
  }
}
