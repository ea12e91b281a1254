/** The crypto slice of the store: the market list, the loading lifecycle of
    the initial fetch, live price patches and the socket flag. */
module CryptoSlice {
  import opened Support
  import opened MarketService

  /** The lifecycle of the initial fetch. */
  datatype Status = Idle | Loading | Succeeded | Failed

  /** The first update for `symbol`, as `updates.find` returns it. */
  function UpdateFor(updates: seq<PriceUpdate>, symbol: string): Option<nat> {
    FindFirst(updates, (u: PriceUpdate) => u.symbol == symbol)
  }

  /** One asset after the updates: the three live fields from the first
      update for its symbol, or the asset untouched when there is none. */
  function Patched(a: Asset, updates: seq<PriceUpdate>): Asset {
    match UpdateFor(updates, a.symbol)
    case None => a
    case Some(j) =>
      a.(currentPrice := updates[j].price, change24h := updates[j].change24h, change1h := Some(updates[j].change1h))
  }

  /** `updatePriceData`'s transform of the list. It keeps the length and the
      order; an asset with an update takes price, 24-hour change and one-hour
      change from the first update for its symbol and keeps every other field;
      an asset without one is unchanged; updates for unknown symbols add
      nothing. */
  function ApplyUpdates(data: seq<Asset>, updates: seq<PriceUpdate>): (r: seq<Asset>)
    ensures |r| == |data|
    ensures forall i :: 0 <= i < |r| ==>
      r[i].(currentPrice := data[i].currentPrice, change24h := data[i].change24h, change1h := data[i].change1h) == data[i]
    ensures forall i, j ::
      (0 <= i < |r| && 0 <= j < |updates| && updates[j].symbol == data[i].symbol
       && forall k :: 0 <= k < j ==> updates[k].symbol != data[i].symbol) ==>
      (r[i].currentPrice == updates[j].price && r[i].change24h == updates[j].change24h
       && r[i].change1h == Some(updates[j].change1h))
    ensures forall i :: 0 <= i < |r| && (forall k :: 0 <= k < |updates| ==> updates[k].symbol != data[i].symbol) ==>
      r[i] == data[i]
  {
    seq(|data|, i requires 0 <= i < |data| => Patched(data[i], updates))
  }

  /** Applying the same updates twice is applying them once. */
  lemma ApplyIdempotent(data: seq<Asset>, updates: seq<PriceUpdate>)
    ensures ApplyUpdates(ApplyUpdates(data, updates), updates) == ApplyUpdates(data, updates)
  {
    var once := ApplyUpdates(data, updates);
    forall i | 0 <= i < |data|
      ensures ApplyUpdates(once, updates)[i] == once[i]
    {
      assert once[i].symbol == data[i].symbol;
      assert Patched(once[i], updates) == once[i];
    }
  }

  /** The state of the slice. `loadTime` is the clock reading when the module
      was loaded, which the initial state (and so every reset) carries. */
  class CryptoStore {
    var data: seq<Asset>
    var status: Status
    var error: Option<string>
    var lastUpdated: Option<int>
    var socketConnected: bool
    var lastPriceUpdate: int
    const loadTime: int

    /** The initial state. */
    constructor(loadTime: int)
      ensures this.loadTime == loadTime
      ensures data == [] && status == Idle && error.None? && lastUpdated.None?
      ensures !socketConnected && lastPriceUpdate == loadTime
    {
      this.loadTime := loadTime;
      data, status, error, lastUpdated := [], Idle, None, None;
      socketConnected, lastPriceUpdate := false, loadTime;
    }

    /** `updatePriceData`: the list is patched and the price clock stamped;
        nothing else changes. */
    method UpdatePriceData(updates: seq<PriceUpdate>, now: int)
      modifies this
      ensures data == ApplyUpdates(old(data), updates) && lastPriceUpdate == now
      ensures status == old(status) && error == old(error) && lastUpdated == old(lastUpdated)
      ensures socketConnected == old(socketConnected)
    {
      data := ApplyUpdates(data, updates);
      lastPriceUpdate := now;
    }

    /** `setSocketStatus`. */
    method SetSocketStatus(connected: bool)
      modifies this
      ensures socketConnected == connected
      ensures data == old(data) && status == old(status) && error == old(error)
      ensures lastUpdated == old(lastUpdated) && lastPriceUpdate == old(lastPriceUpdate)
    {
      socketConnected := connected;
    }

    /** `resetState`: back to the initial state, module-load stamp included. */
    method ResetState()
      modifies this
      ensures data == [] && status == Idle && error.None? && lastUpdated.None?
      ensures !socketConnected && lastPriceUpdate == loadTime
    {
      data, status, error, lastUpdated := [], Idle, None, None;
      socketConnected, lastPriceUpdate := false, loadTime;
    }

    /** The fetch started: loading, with the previous error left in place. */
    method Pending()
      modifies this
      ensures status == Loading
      ensures data == old(data) && error == old(error) && lastUpdated == old(lastUpdated)
      ensures socketConnected == old(socketConnected) && lastPriceUpdate == old(lastPriceUpdate)
    {
      status := Loading;
    }

    /** The fetch succeeded: the list replaced, stamped, the error cleared. */
    method Fulfilled(payload: seq<Asset>, now: int)
      modifies this
      ensures status == Succeeded && data == payload && lastUpdated == Some(now) && error.None?
      ensures socketConnected == old(socketConnected) && lastPriceUpdate == old(lastPriceUpdate)
    {
      status, data, lastUpdated, error := Succeeded, payload, Some(now), None;
    }

    /** The fetch failed: the payload as error, or the default message when
        the payload is missing or empty; the list is kept. */
    method Rejected(payload: Option<string>)
      modifies this
      ensures status == Failed
      ensures error == Some(if payload.Some? && payload.value != "" then payload.value else "Failed to fetch data")
      ensures data == old(data) && lastUpdated == old(lastUpdated)
      ensures socketConnected == old(socketConnected) && lastPriceUpdate == old(lastPriceUpdate)
    {
      status := Failed;
      error := Some(if payload.Some? && payload.value != "" then payload.value else "Failed to fetch data");
    }

    /** The initial-fetch thunk run to completion. The quote chain never
        rejects, so it always ends in the succeeded state with the chain's
        records. */
    method FetchInitialData(price: Response<map<string, RawQuote>>, gecko: Response<seq<GeckoCoin>>,
                            secondary: Response<seq<GeckoCoin>>, now: int)
      modifies this
      ensures status == Succeeded && error.None? && lastUpdated == Some(now)
      ensures data == FetchCryptoData(price, gecko, secondary).assets
      ensures socketConnected == old(socketConnected) && lastPriceUpdate == old(lastPriceUpdate)
    {
      Pending();
      var quotes := FetchCryptoData(price, gecko, secondary);
      Fulfilled(quotes.assets, now);
    }

    /** The socket thunk's update callback: an empty update list dispatches
        nothing; any other is applied. */
    method OnPriceUpdates(updates: seq<PriceUpdate>, now: int)
      modifies this
      ensures |updates| == 0 ==> data == old(data) && lastPriceUpdate == old(lastPriceUpdate)
      ensures |updates| > 0 ==> data == ApplyUpdates(old(data), updates) && lastPriceUpdate == now
      ensures status == old(status) && error == old(error) && lastUpdated == old(lastUpdated)
      ensures socketConnected == old(socketConnected)
    {
      if |updates| > 0 {
        UpdatePriceData(updates, now);
      }
    }

    /** `selectCryptoBySymbol`: the first asset with that symbol, if any. */
    function SelectCryptoBySymbol(symbol: string): (r: Option<Asset>)
      reads this
      ensures r.None? <==> forall i :: 0 <= i < |data| ==> data[i].symbol != symbol
      ensures r.Some? ==> exists i ::
        (0 <= i < |data| && data[i] == r.value && data[i].symbol == symbol
         && forall k :: 0 <= k < i ==> data[k].symbol != symbol)
    {
      match FindFirst(data, (a: Asset) => a.symbol == symbol)
      case Some(i) => Some(data[i])
      case None => None
    }
  }
}
