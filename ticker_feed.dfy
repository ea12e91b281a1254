/** The Binance ticker feed written against an older store shape: assets
    keyed by symbol, each with a price and a circulating supply. Its
    dispatched actions are modelled as abstract patches, in dispatch order. */
module TickerFeed {
  import opened Support
  import opened Series

  /** A dispatched store action. */
  datatype Patch =
    | SetPrice(symbol: string, price: real)
    | SetChange(symbol: string, period: string, value: real)
    | SetVolume(symbol: string, volume: real)
    | SetMarketCap(symbol: string, marketCap: real)
    | SetLoading(on: bool)
    | SetError(message: string)

  /** The period the feed's change patches are for. */
  const Day := "24h"

  /** A patch that names `symbol`. */
  predicate About(p: Patch, symbol: string) {
    !p.SetLoading? && !p.SetError? && p.symbol == symbol
  }

  /** What the feed reads of one asset; a supply of 0 is JavaScript-falsy. */
  datatype AssetState = AssetState(price: real, circulatingSupply: real)

  /** Binance pair to tracked symbol. */
  function SymbolMapping(pair: string): Option<string> {
    if pair == "BTCUSDT" then Some("BTC")
    else if pair == "ETHUSDT" then Some("ETH")
    else if pair == "ADAUSDT" then Some("ADA")
    else if pair == "SOLUSDT" then Some("SOL")
    else if pair == "USDTBUSD" then Some("USDT")
    else None
  }

  /** The symbols with fallback values, in table order. */
  const FallbackSymbols: seq<string> := ["BTC", "ETH", "ADA", "SOL", "USDT"]

  /** The pairs the stream subscribes to. */
  const Streams: seq<string> := ["BTCUSDT", "ETHUSDT", "ADAUSDT", "SOLUSDT"]

  /** The mapping inverts the pair the chart requests, for every tracked
      symbol; the subscribed streams map to every tracked symbol but USDT,
      whose pair is never subscribed. */
  lemma PairRoundTrip(symbol: string)
    requires symbol in FallbackSymbols
    ensures SymbolMapping(BinancePair(symbol)) == Some(symbol)
    ensures symbol != "USDT" <==> BinancePair(symbol) in Streams
  {
    assert symbol == "BTC" || symbol == "ETH" || symbol == "ADA" || symbol == "SOL" || symbol == "USDT";
  }

  /** Fallback price, 24-hour change and volume. */
  datatype Reference = Reference(price: real, change24h: real, volume: real)

  /** The fallback values of the symbol at position `i` of the table. */
  function FallbackAt(i: nat): (r: Reference)
    requires i < |FallbackSymbols|
    ensures r.price > 0.0 && r.volume > 0.0
  {
    [ Reference(97148.0, 1.5, 25000000000.0),
      Reference(1805.0, 2.3, 15000000000.0),
      Reference(0.66, 3.1, 500000000.0),
      Reference(150.0, -2.1, 3000000000.0),
      Reference(1.0, 0.01, 50000000000.0) ][i]
  }

  /** `calculateMarketCap`: price times supply, unrounded. */
  function CalculateMarketCap(price: real, supply: real): real {
    price * supply
  }

  /** The market cap is zero exactly when one factor is, and dividing it by
      a non-zero factor gives back the other. */
  lemma MarketCapFactors(price: real, supply: real)
    ensures CalculateMarketCap(price, supply) == 0.0 <==> price == 0.0 || supply == 0.0
    ensures supply != 0.0 ==> CalculateMarketCap(price, supply) / supply == price
    ensures price != 0.0 ==> CalculateMarketCap(price, supply) / price == supply
  {
  }

  /** The patches that refill one symbol from its fallback values: price,
      24-hour change and volume, then the market cap when a supply is known. */
  function Refill(symbol: string, ref: Reference, supply: real): (ps: seq<Patch>)
    ensures |ps| == (if supply != 0.0 then 4 else 3)
    ensures ps[0] == SetPrice(symbol, ref.price)
    ensures ps[1] == SetChange(symbol, Day, ref.change24h) && ps[2] == SetVolume(symbol, ref.volume)
    ensures forall i :: 0 <= i < |ps| ==> About(ps[i], symbol)
    ensures supply != 0.0 ==> ps[3] == SetMarketCap(symbol, CalculateMarketCap(ref.price, supply))
  {
    [SetPrice(symbol, ref.price), SetChange(symbol, Day, ref.change24h), SetVolume(symbol, ref.volume)]
    + (if supply != 0.0 then [SetMarketCap(symbol, CalculateMarketCap(ref.price, supply))] else [])
  }

  // ---------------------------------------------------------------------
  // The fallback timer
  // ---------------------------------------------------------------------

  /** What the timer dispatches from table position `i` on: a refill for each
      zero-priced asset, then loading off. An asset missing from the store
      makes the lookup throw, which ends the callback there. */
  function TimerPatches(current: map<string, AssetState>, i: nat): seq<Patch>
    requires i <= |FallbackSymbols|
    decreases |FallbackSymbols| - i
  {
    if i == |FallbackSymbols| then [SetLoading(false)]
    else if FallbackSymbols[i] !in current then []
    else TimerStep(current, i) + TimerPatches(current, i + 1)
  }

  /** What the timer dispatches for the present symbol at position `i`: its
      refill when its price is zero, nothing otherwise. */
  function TimerStep(current: map<string, AssetState>, i: nat): seq<Patch>
    requires i < |FallbackSymbols| && FallbackSymbols[i] in current
  {
    var a := current[FallbackSymbols[i]];
    if a.price == 0.0 then Refill(FallbackSymbols[i], FallbackAt(i), a.circulatingSupply) else []
  }

  /** The timer callback's loop over the fallback table. */
  method FallbackTimer(current: map<string, AssetState>) returns (patches: seq<Patch>)
    ensures patches == TimerPatches(current, 0)
  {
    patches := [];
    var i := 0;
    while i < |FallbackSymbols|
      invariant 0 <= i <= |FallbackSymbols|
      invariant patches + TimerPatches(current, i) == TimerPatches(current, 0)
    {
      var symbol := FallbackSymbols[i];
      if symbol !in current {
        return;
      }
      var step := TimerStep(current, i);
      TimerAdvance(current, i, patches, step);
      patches := patches + step;
      i := i + 1;
    }
    patches := patches + [SetLoading(false)];
  }

  /** An element of the tail of a concatenation is an element of the whole. */
  lemma InSuffix<T>(x: T, a: seq<T>, b: seq<T>)
    requires x in b
    ensures x in a + b
  {
    var j :| 0 <= j < |b| && b[j] == x;
    assert (a + b)[|a| + j] == x;
  }

  /** Concatenation is associative. */
  lemma AppendAssoc<T>(a: seq<T>, b: seq<T>, c: seq<T>)
    ensures a + (b + c) == (a + b) + c
  {
  }

  /** A patch list whose last patch clears loading. */
  predicate EndsClearing(ps: seq<Patch>) {
    |ps| > 0 && ps[|ps| - 1] == SetLoading(false)
  }

  /** Patches put in front keep a list ending by clearing loading. */
  lemma ClearingSuffix(whole: seq<Patch>, a: seq<Patch>, b: seq<Patch>)
    requires whole == a + b && EndsClearing(b)
    ensures EndsClearing(whole)
  {
    assert whole[|whole| - 1] == b[|b| - 1];
  }

  /** The timer loop's invariant survives one present symbol. */
  lemma TimerAdvance(current: map<string, AssetState>, i: nat, patches: seq<Patch>, step: seq<Patch>)
    requires i < |FallbackSymbols| && FallbackSymbols[i] in current
    requires step == TimerStep(current, i)
    ensures patches + TimerPatches(current, i) == (patches + step) + TimerPatches(current, i + 1)
  {
    assert TimerPatches(current, i) == step + TimerPatches(current, i + 1);
    AppendAssoc(patches, step, TimerPatches(current, i + 1));
  }

  /** The timer only touches zero-priced assets present in the store. */
  lemma {:induction false} TimerOnlyZeroPriced(current: map<string, AssetState>, i: nat, symbol: string)
    requires i <= |FallbackSymbols|
    requires !(symbol in current && current[symbol].price == 0.0)
    ensures forall p :: p in TimerPatches(current, i) ==> !About(p, symbol)
    decreases |FallbackSymbols| - i
  {
    if i < |FallbackSymbols| && FallbackSymbols[i] in current {
      TimerOnlyZeroPriced(current, i + 1, symbol);
    }
  }

  /** When every symbol from position `i` on is in the store, the timer
      ends by clearing loading. */
  lemma {:induction false} TimerClearsLoading(current: map<string, AssetState>, i: nat)
    requires i <= |FallbackSymbols|
    requires forall k :: i <= k < |FallbackSymbols| ==> FallbackSymbols[k] in current
    ensures EndsClearing(TimerPatches(current, i))
    decreases |FallbackSymbols| - i
  {
    if i < |FallbackSymbols| {
      TimerClearsLoading(current, i + 1);
      ClearingSuffix(TimerPatches(current, i), TimerStep(current, i), TimerPatches(current, i + 1));
    } else {
      assert TimerPatches(current, i) == [SetLoading(false)];
    }
  }

  /** When every symbol from position `i` on is in the store, the timer
      refills each zero-priced one with its fallback price. */
  lemma {:induction false} TimerRefills(current: map<string, AssetState>, i: nat)
    requires i <= |FallbackSymbols|
    requires forall k :: i <= k < |FallbackSymbols| ==> FallbackSymbols[k] in current
    ensures forall k :: i <= k < |FallbackSymbols| && current[FallbackSymbols[k]].price == 0.0 ==>
      SetPrice(FallbackSymbols[k], FallbackAt(k).price) in TimerPatches(current, i)
    decreases |FallbackSymbols| - i
  {
    if i < |FallbackSymbols| {
      TimerRefills(current, i + 1);
      var head := TimerStep(current, i);
      var rest := TimerPatches(current, i + 1);
      forall k | i <= k < |FallbackSymbols| && current[FallbackSymbols[k]].price == 0.0
        ensures SetPrice(FallbackSymbols[k], FallbackAt(k).price) in head + rest
      {
        if k == i {
          assert (head + rest)[0] == head[0];
        } else {
          InSuffix(SetPrice(FallbackSymbols[k], FallbackAt(k).price), head, rest);
        }
      }
    }
  }

  /** When a symbol from position `i` on is missing from the store, loading
      is never cleared. */
  lemma {:induction false} TimerStopsAtMissing(current: map<string, AssetState>, i: nat, missing: nat)
    requires i <= missing < |FallbackSymbols| && FallbackSymbols[missing] !in current
    ensures SetLoading(false) !in TimerPatches(current, i)
    decreases |FallbackSymbols| - i
  {
    if i < missing && FallbackSymbols[i] in current {
      TimerStopsAtMissing(current, i + 1, missing);
      assert SetLoading(false) !in TimerStep(current, i);
    }
  }

  // ---------------------------------------------------------------------
  // Stream messages and the construction-error path
  // ---------------------------------------------------------------------

  /** A decoded ticker message: pair, last price, 24-hour percent change,
      quote volume. */
  datatype Ticker = Ticker(pair: string, lastPrice: real, changePercent: real, quoteVolume: real)

  /** `onmessage`: nothing for an undecodable message or an unmapped pair;
      otherwise price, 24-hour change and quote volume, the market cap when the
      snapshot taken at connection time knows a supply, and loading off. */
  function OnMessage(snapshot: map<string, AssetState>, message: Option<Ticker>): (ps: seq<Patch>)
    ensures message.None? || SymbolMapping(message.value.pair).None? ==> ps == []
    ensures message.Some? && SymbolMapping(message.value.pair).Some? ==>
      var t := message.value;
      var symbol := SymbolMapping(t.pair).value;
      var capped := symbol in snapshot && snapshot[symbol].circulatingSupply != 0.0;
      && |ps| == (if capped then 5 else 4)
      && ps[..3] == [SetPrice(symbol, t.lastPrice), SetChange(symbol, Day, t.changePercent), SetVolume(symbol, t.quoteVolume)]
      && (capped ==> ps[3] == SetMarketCap(symbol, CalculateMarketCap(t.lastPrice, snapshot[symbol].circulatingSupply)))
      && ps[|ps| - 1] == SetLoading(false)
  {
    if message.None? then []
    else
      var t := message.value;
      match SymbolMapping(t.pair)
      case None => []
      case Some(symbol) =>
        [SetPrice(symbol, t.lastPrice), SetChange(symbol, Day, t.changePercent), SetVolume(symbol, t.quoteVolume)]
        + (if symbol in snapshot && snapshot[symbol].circulatingSupply != 0.0
           then [SetMarketCap(symbol, CalculateMarketCap(t.lastPrice, snapshot[symbol].circulatingSupply))]
           else [])
        + [SetLoading(false)]
  }

  /** What the construction-error path dispatches from table position `i`
      on: every symbol refilled regardless of its price (market cap from the
      snapshot when it knows a supply), then loading off. */
  function ErrorPatches(snapshot: map<string, AssetState>, i: nat): seq<Patch>
    requires i <= |FallbackSymbols|
    decreases |FallbackSymbols| - i
  {
    if i == |FallbackSymbols| then [SetLoading(false)]
    else ErrorStep(snapshot, i) + ErrorPatches(snapshot, i + 1)
  }

  /** The refill the construction-error path dispatches for position `i`,
      with the snapshot's supply or none. */
  function ErrorStep(snapshot: map<string, AssetState>, i: nat): seq<Patch>
    requires i < |FallbackSymbols|
  {
    var symbol := FallbackSymbols[i];
    Refill(symbol, FallbackAt(i), if symbol in snapshot then snapshot[symbol].circulatingSupply else 0.0)
  }

  /** The construction-error loop over the fallback table. */
  method ConstructionFallback(snapshot: map<string, AssetState>) returns (patches: seq<Patch>)
    ensures patches == ErrorPatches(snapshot, 0)
  {
    patches := [];
    var i := 0;
    while i < |FallbackSymbols|
      invariant 0 <= i <= |FallbackSymbols|
      invariant patches + ErrorPatches(snapshot, i) == ErrorPatches(snapshot, 0)
    {
      var step := ErrorStep(snapshot, i);
      ErrorAdvance(snapshot, i, patches, step);
      patches := patches + step;
      i := i + 1;
    }
    patches := patches + [SetLoading(false)];
  }

  /** The error loop's invariant survives one symbol. */
  lemma ErrorAdvance(snapshot: map<string, AssetState>, i: nat, patches: seq<Patch>, step: seq<Patch>)
    requires i < |FallbackSymbols|
    requires step == ErrorStep(snapshot, i)
    ensures patches + ErrorPatches(snapshot, i) == (patches + step) + ErrorPatches(snapshot, i + 1)
  {
    assert ErrorPatches(snapshot, i) == step + ErrorPatches(snapshot, i + 1);
    AppendAssoc(patches, step, ErrorPatches(snapshot, i + 1));
  }

  /** The construction-error path always ends by clearing loading. */
  lemma {:induction false} ErrorClearsLoading(snapshot: map<string, AssetState>, i: nat)
    requires i <= |FallbackSymbols|
    ensures EndsClearing(ErrorPatches(snapshot, i))
    decreases |FallbackSymbols| - i
  {
    if i < |FallbackSymbols| {
      ErrorClearsLoading(snapshot, i + 1);
      ClearingSuffix(ErrorPatches(snapshot, i), ErrorStep(snapshot, i), ErrorPatches(snapshot, i + 1));
    } else {
      assert ErrorPatches(snapshot, i) == [SetLoading(false)];
    }
  }

  /** The construction-error path refills every symbol with its fallback
      price, whatever the store holds. */
  lemma {:induction false} ErrorRefillsAll(snapshot: map<string, AssetState>, i: nat)
    requires i <= |FallbackSymbols|
    ensures forall k :: i <= k < |FallbackSymbols| ==>
      SetPrice(FallbackSymbols[k], FallbackAt(k).price) in ErrorPatches(snapshot, i)
    decreases |FallbackSymbols| - i
  {
    if i < |FallbackSymbols| {
      ErrorRefillsAll(snapshot, i + 1);
      var head := ErrorStep(snapshot, i);
      var rest := ErrorPatches(snapshot, i + 1);
      forall k | i <= k < |FallbackSymbols|
        ensures SetPrice(FallbackSymbols[k], FallbackAt(k).price) in head + rest
      {
        if k == i {
          assert (head + rest)[0] == head[0];
        } else {
          InSuffix(SetPrice(FallbackSymbols[k], FallbackAt(k).price), head, rest);
        }
      }
    }
  }
}
