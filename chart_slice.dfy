/** The chart slice of the store: two refresh clocks, two refresh flags and
    the table of refresh intervals, plus the scheduler that drives the flags. */
module ChartSlice {

  const PriceKey := "price"
  const ChartKey := "chart"
  /** The initial refresh intervals in milliseconds. */
  const InitialPriceInterval := 1500
  const InitialChartInterval := 3600000

  /** The interval table after `setRefreshInterval`: only a key already in the
      table takes the new interval; an unknown key leaves the table as it is,
      and no key is ever added or removed. */
  function WithInterval(intervals: map<string, int>, key: string, interval: int): (r: map<string, int>)
    ensures r.Keys == intervals.Keys
    ensures key in intervals ==> r[key] == interval
    ensures forall k :: k in intervals && k != key ==> r[k] == intervals[k]
  {
    if key in intervals then intervals[key := interval] else intervals
  }

  /** The slice's state. `chartLoadTime` and `priceLoadTime` are the two
      clock readings taken when the module was loaded: the initial state, and
      so every reset, carries them. */
  class ChartStore {
    var lastChartUpdate: int
    var shouldUpdateCharts: bool
    var lastPriceUpdate: int
    var shouldUpdatePrices: bool
    var refreshIntervals: map<string, int>
    const chartLoadTime: int
    const priceLoadTime: int

    /** The interval table has exactly the two keys it starts with. */
    predicate Valid()
      reads this
    {
      refreshIntervals.Keys == {PriceKey, ChartKey}
    }

    constructor(chartLoadTime: int, priceLoadTime: int)
      ensures Valid() && this.chartLoadTime == chartLoadTime && this.priceLoadTime == priceLoadTime
      ensures lastChartUpdate == chartLoadTime && lastPriceUpdate == priceLoadTime
      ensures !shouldUpdateCharts && !shouldUpdatePrices
      ensures refreshIntervals == map[PriceKey := InitialPriceInterval, ChartKey := InitialChartInterval]
    {
      this.chartLoadTime, this.priceLoadTime := chartLoadTime, priceLoadTime;
      lastChartUpdate, lastPriceUpdate := chartLoadTime, priceLoadTime;
      shouldUpdateCharts, shouldUpdatePrices := false, false;
      refreshIntervals := map[PriceKey := InitialPriceInterval, ChartKey := InitialChartInterval];
    }

    /** `setLastChartUpdate`: stamps the chart clock only. */
    method SetLastChartUpdate(now: int)
      modifies this
      ensures lastChartUpdate == now
      ensures shouldUpdateCharts == old(shouldUpdateCharts) && lastPriceUpdate == old(lastPriceUpdate)
      ensures shouldUpdatePrices == old(shouldUpdatePrices) && refreshIntervals == old(refreshIntervals)
    {
      lastChartUpdate := now;
    }

    /** `setShouldUpdateCharts`: sets the chart flag only. */
    method SetShouldUpdateCharts(flag: bool)
      modifies this
      ensures shouldUpdateCharts == flag
      ensures lastChartUpdate == old(lastChartUpdate) && lastPriceUpdate == old(lastPriceUpdate)
      ensures shouldUpdatePrices == old(shouldUpdatePrices) && refreshIntervals == old(refreshIntervals)
    {
      shouldUpdateCharts := flag;
    }

    /** `setLastPriceUpdate`: stamps the price clock only. */
    method SetLastPriceUpdate(now: int)
      modifies this
      ensures lastPriceUpdate == now
      ensures lastChartUpdate == old(lastChartUpdate) && shouldUpdateCharts == old(shouldUpdateCharts)
      ensures shouldUpdatePrices == old(shouldUpdatePrices) && refreshIntervals == old(refreshIntervals)
    {
      lastPriceUpdate := now;
    }

    /** `setShouldUpdatePrices`: sets the price flag only. */
    method SetShouldUpdatePrices(flag: bool)
      modifies this
      ensures shouldUpdatePrices == flag
      ensures lastChartUpdate == old(lastChartUpdate) && shouldUpdateCharts == old(shouldUpdateCharts)
      ensures lastPriceUpdate == old(lastPriceUpdate) && refreshIntervals == old(refreshIntervals)
    {
      shouldUpdatePrices := flag;
    }

    /** `setRefreshInterval`: an existing key takes the interval, an unknown
        one is ignored; the table keeps its two keys. */
    method SetRefreshInterval(key: string, interval: int)
      requires Valid()
      modifies this
      ensures Valid()
      ensures refreshIntervals == WithInterval(old(refreshIntervals), key, interval)
      ensures lastChartUpdate == old(lastChartUpdate) && shouldUpdateCharts == old(shouldUpdateCharts)
      ensures lastPriceUpdate == old(lastPriceUpdate) && shouldUpdatePrices == old(shouldUpdatePrices)
    {
      refreshIntervals := WithInterval(refreshIntervals, key, interval);
    }

    /** `triggerChartUpdate`: stamps the chart clock and raises the chart
        flag; the price fields and the intervals are untouched. */
    method TriggerChartUpdate(now: int)
      modifies this
      ensures lastChartUpdate == now && shouldUpdateCharts
      ensures lastPriceUpdate == old(lastPriceUpdate) && shouldUpdatePrices == old(shouldUpdatePrices)
      ensures refreshIntervals == old(refreshIntervals)
    {
      lastChartUpdate := now;
      shouldUpdateCharts := true;
    }

    /** `triggerPriceUpdate`: stamps the price clock and raises the price
        flag; the chart fields and the intervals are untouched. */
    method TriggerPriceUpdate(now: int)
      modifies this
      ensures lastPriceUpdate == now && shouldUpdatePrices
      ensures lastChartUpdate == old(lastChartUpdate) && shouldUpdateCharts == old(shouldUpdateCharts)
      ensures refreshIntervals == old(refreshIntervals)
    {
      lastPriceUpdate := now;
      shouldUpdatePrices := true;
    }

    /** `resetChartState`: the initial state, load-time stamps included. */
    method ResetChartState()
      modifies this
      ensures Valid()
      ensures lastChartUpdate == chartLoadTime && lastPriceUpdate == priceLoadTime
      ensures !shouldUpdateCharts && !shouldUpdatePrices
      ensures refreshIntervals == map[PriceKey := InitialPriceInterval, ChartKey := InitialChartInterval]
    {
      lastChartUpdate, lastPriceUpdate := chartLoadTime, priceLoadTime;
      shouldUpdateCharts, shouldUpdatePrices := false, false;
      refreshIntervals := map[PriceKey := InitialPriceInterval, ChartKey := InitialChartInterval];
    }
  }

  /** `setupRefreshIntervals` as a machine of discrete events. The two
      periods are read from the store once, at setup; a later
      `setRefreshInterval` does not change them. Each interval firing is a
      tick (trigger) and the short timeout it starts is a settle (flag
      back to false). Cleanup stops the ticks but not a pending settle. */
  class RefreshScheduler {
    const store: ChartStore
    const pricePeriod: int
    const chartPeriod: int
    var running: bool

    constructor(store: ChartStore)
      requires store.Valid()
      ensures this.store == store && running
      ensures pricePeriod == store.refreshIntervals[PriceKey]
      ensures chartPeriod == store.refreshIntervals[ChartKey]
    {
      this.store := store;
      pricePeriod := store.refreshIntervals[PriceKey];
      chartPeriod := store.refreshIntervals[ChartKey];
      running := true;
    }

    /** The price interval fires: the price flag goes up, the chart side is
        untouched. */
    method PriceTick(now: int)
      requires running
      modifies store
      ensures store.shouldUpdatePrices && store.lastPriceUpdate == now
      ensures store.shouldUpdateCharts == old(store.shouldUpdateCharts)
      ensures store.lastChartUpdate == old(store.lastChartUpdate)
      ensures store.refreshIntervals == old(store.refreshIntervals)
    {
      store.TriggerPriceUpdate(now);
    }

    /** The price timeout fires: the price flag goes down. */
    method PriceSettle()
      modifies store
      ensures !store.shouldUpdatePrices && store.lastPriceUpdate == old(store.lastPriceUpdate)
      ensures store.shouldUpdateCharts == old(store.shouldUpdateCharts)
      ensures store.lastChartUpdate == old(store.lastChartUpdate)
      ensures store.refreshIntervals == old(store.refreshIntervals)
    {
      store.SetShouldUpdatePrices(false);
    }

    /** The chart interval fires: the chart flag goes up, the price side is
        untouched. */
    method ChartTick(now: int)
      requires running
      modifies store
      ensures store.shouldUpdateCharts && store.lastChartUpdate == now
      ensures store.shouldUpdatePrices == old(store.shouldUpdatePrices)
      ensures store.lastPriceUpdate == old(store.lastPriceUpdate)
      ensures store.refreshIntervals == old(store.refreshIntervals)
    {
      store.TriggerChartUpdate(now);
    }

    /** The chart timeout fires: the chart flag goes down. */
    method ChartSettle()
      modifies store
      ensures !store.shouldUpdateCharts && store.lastChartUpdate == old(store.lastChartUpdate)
      ensures store.shouldUpdatePrices == old(store.shouldUpdatePrices)
      ensures store.lastPriceUpdate == old(store.lastPriceUpdate)
      ensures store.refreshIntervals == old(store.refreshIntervals)
    {
      store.SetShouldUpdateCharts(false);
    }

    /** A whole price cycle, tick then settle: the clock is stamped and the
        flag is back down; the chart side never moved. */
    method PriceCycle(now: int)
      requires running
      modifies store
      ensures !store.shouldUpdatePrices && store.lastPriceUpdate == now
      ensures store.shouldUpdateCharts == old(store.shouldUpdateCharts)
      ensures store.lastChartUpdate == old(store.lastChartUpdate)
      ensures store.refreshIntervals == old(store.refreshIntervals)
    {
      PriceTick(now);
      PriceSettle();
    }

    /** A whole chart cycle, tick then settle. */
    method ChartCycle(now: int)
      requires running
      modifies store
      ensures !store.shouldUpdateCharts && store.lastChartUpdate == now
      ensures store.shouldUpdatePrices == old(store.shouldUpdatePrices)
      ensures store.lastPriceUpdate == old(store.lastPriceUpdate)
      ensures store.refreshIntervals == old(store.refreshIntervals)
    {
      ChartTick(now);
      ChartSettle();
    }

    /** The cleanup function: both intervals are cleared; the store is not
        touched, and settles already scheduled may still arrive. */
    method Cleanup()
      modifies this
      ensures !running
    {
      running := false;
    }
  }
}
