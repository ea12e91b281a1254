/** The time-series side of the price chart: the hourly normalizer, the
    every-n-th samplers, the Binance and synthetic series, the per-tick
    replacement of the newest price, and the small decisions the chart makes
    about re-fetching, redrawing and labelling. Timestamps are integer
    milliseconds; an hour is 3,600,000 of them. */
module Series {
  import opened Support

  /** One price sample: a millisecond timestamp and a USD price. */
  datatype Sample = Sample(time: int, price: real)

  /** What the normalizer hands to the chart: the compact series, and the full hourly one. */
  datatype Processed = Processed(prices: seq<real>, timestamps: seq<int>,
                                 hourlyPrices: seq<real>, hourlyTimestamps: seq<int>)

  const HourMs: int := 3600000
  /** Seven days of hourly buckets. */
  const HoursInWeek: nat := 168
  /** A latest sample older than this is treated as a stale feed. */
  const StaleMs: int := 6 * HourMs
  /** The compact series keeps every sixth hourly point. */
  const CompactStride: nat := 6
  /** Points in the compact series of a full week. */
  const CompactPoints: nat := 28

  function Dist(a: int, b: int): nat {
    if a >= b then a - b else b - a
  }

  function Times(s: seq<Sample>): (r: seq<int>)
    ensures |r| == |s| && forall i :: 0 <= i < |s| ==> r[i] == s[i].time
  {
    seq(|s|, i requires 0 <= i < |s| => s[i].time)
  }

  function Prices(s: seq<Sample>): (r: seq<real>)
    ensures |r| == |s| && forall i :: 0 <= i < |s| ==> r[i] == s[i].price
  {
    seq(|s|, i requires 0 <= i < |s| => s[i].price)
  }

  /** Points with their times turned from seconds into milliseconds. */
  function FromSeconds(points: seq<Sample>): (r: seq<Sample>)
    ensures |r| == |points|
    ensures forall i :: 0 <= i < |r| ==> r[i].time == points[i].time * 1000 && r[i].price == points[i].price
  {
    seq(|points|, i requires 0 <= i < |points| => Sample(points[i].time * 1000, points[i].price))
  }

  ghost predicate SortedByTime(s: seq<Sample>) {
    forall i, j :: 0 <= i < j < |s| ==> s[i].time <= s[j].time
  }

  /** `j` is the first sample of `s` whose distance to `target` is minimal. */
  ghost predicate IsNearest(s: seq<Sample>, j: int, target: int) {
    && 0 <= j < |s|
    && (forall k :: 0 <= k < |s| ==> Dist(s[j].time, target) <= Dist(s[k].time, target))
    && (forall k :: 0 <= k < j ==> Dist(s[k].time, target) > Dist(s[j].time, target))
  }

  /** `p` is the price of some sample at minimal distance from `target`; unlike
      `IsNearest`, this does not depend on the order of the samples. */
  ghost predicate NearestPrice(s: seq<Sample>, target: int, p: real) {
    exists j :: 0 <= j < |s| && s[j].price == p
      && forall m :: 0 <= m < |s| ==> Dist(s[j].time, target) <= Dist(s[m].time, target)
  }

  /** The nearest sample is unique: the bucket a target hour gets does not
      depend on anything but the sorted samples. */
  lemma NearestUnique(s: seq<Sample>, target: int, j1: int, j2: int)
    requires IsNearest(s, j1, target) && IsNearest(s, j2, target)
    ensures j1 == j2
  {
    assert Dist(s[j1].time, target) <= Dist(s[j2].time, target);
    assert Dist(s[j2].time, target) <= Dist(s[j1].time, target);
  }

  // ---------------------------------------------------------------------
  // Sorting the samples in place (`priceData.sort((a, b) => a[0] - b[0])`)
  // ---------------------------------------------------------------------

  /** Exchanges two neighbouring samples. */
  method SwapAdjacent(a: array<Sample>, j: int)
    requires 0 < j < a.Length
    modifies a
    ensures a[j - 1] == old(a[j]) && a[j] == old(a[j - 1])
    ensures forall m :: 0 <= m < a.Length && m != j - 1 && m != j ==> a[m] == old(a[m])
    ensures multiset(a[..]) == multiset(old(a[..]))
  {
    a[j - 1], a[j] := a[j], a[j - 1];
  }

  /** One step of insertion sort: moves `a[i]` down into the sorted prefix `a[..i]`. */
  method InsertIntoSorted(a: array<Sample>, i: int)
    requires 0 <= i < a.Length
    requires SortedByTime(a[..i])
    modifies a
    ensures SortedByTime(a[..i + 1])
    ensures forall m :: i < m < a.Length ==> a[m] == old(a[m])
    ensures multiset(a[..]) == multiset(old(a[..]))
  {
    var j := i;
    while j > 0 && a[j - 1].time > a[j].time
      invariant 0 <= j <= i
      invariant forall p, q :: 0 <= p < q <= i && p != j && q != j ==> a[p].time <= a[q].time
      invariant forall q :: j < q <= i ==> a[j].time < a[q].time
      invariant forall m :: i < m < a.Length ==> a[m] == old(a[m])
      invariant multiset(a[..]) == multiset(old(a[..]))
    {
      SwapAdjacent(a, j);
      j := j - 1;
    }
  }

  /** Sorts the samples ascending by timestamp, in place. */
  method SortByTime(a: array<Sample>)
    modifies a
    ensures SortedByTime(a[..])
    ensures multiset(a[..]) == multiset(old(a[..]))
  {
    var i := 0;
    while i < a.Length
      invariant 0 <= i <= a.Length
      invariant SortedByTime(a[..i])
      invariant multiset(a[..]) == multiset(old(a[..]))
    {
      InsertIntoSorted(a, i);
      i := i + 1;
    }
    assert a[..a.Length] == a[..];
  }

  // ---------------------------------------------------------------------
  // Nearest-sample selection and the hourly grid
  // ---------------------------------------------------------------------

  /** The inner loop of the normalizer: scans the samples in order and keeps
      the one whose timestamp is strictly closer to `target` than any before
      it. `None` plays the role of the `null` left by an empty scan. */
  method FindNearest(data: array<Sample>, target: int) returns (closest: Option<nat>)
    ensures closest.None? <==> data.Length == 0
    ensures closest.Some? ==> IsNearest(data[..], closest.value, target)
  {
    closest := None;
    var minDiff := 0; // read only once `closest` is set; before that it stands for Infinity
    var k := 0;
    while k < data.Length
      invariant 0 <= k <= data.Length
      invariant closest.None? <==> k == 0
      invariant closest.Some? ==> IsNearest(data[..k], closest.value, target)
      invariant closest.Some? ==> minDiff == Dist(data[closest.value].time, target)
    {
      var diff := Dist(data[k].time, target);
      if closest.None? || diff < minDiff {
        minDiff := diff;
        closest := Some(k);
      }
      k := k + 1;
    }
    assert data[..data.Length] == data[..];
  }

  /** Truncation to the start of the hour (`setMinutes(0, 0, 0)`). */
  function FloorToHour(t: int): (r: int)
    ensures r % HourMs == 0
    ensures r <= t < r + HourMs
  {
    t - t % HourMs
  }

  /** The hour the normalized week ends at: the latest sample's hour, unless
      that sample is older than six hours, in which case the current hour. */
  function EndHour(latest: int, now: int): (r: int)
    ensures r % HourMs == 0
    ensures r + HourMs > now - StaleMs
    ensures latest >= now - StaleMs ==> r <= latest < r + HourMs
    ensures latest < now - StaleMs ==> r <= now < r + HourMs
  {
    FloorToHour(if latest < now - StaleMs then now else latest)
  }

  /** The 168 target hours of a week ending at `end`, oldest first. */
  function HourlyGrid(end: int): (r: seq<int>)
    ensures |r| == HoursInWeek
    ensures r[0] == end - (HoursInWeek - 1) * HourMs
    ensures r[HoursInWeek - 1] == end
    ensures forall k :: 0 < k < HoursInWeek ==> r[k] == r[k - 1] + HourMs
    ensures forall j, k :: 0 <= j < k < HoursInWeek ==> r[j] < r[k]
  {
    seq(HoursInWeek, k requires 0 <= k < HoursInWeek => end - (HoursInWeek - 1 - k) * HourMs)
  }

  // ---------------------------------------------------------------------
  // Every n-th point
  // ---------------------------------------------------------------------

  /** The points of `s` at indices 0, step, 2 * step, ... */
  function Strided<T>(s: seq<T>, step: nat): seq<T>
    requires step > 0
    decreases |s|
  {
    if |s| == 0 then []
    else if |s| <= step then [s[0]]
    else [s[0]] + Strided(s[step..], step)
  }

  lemma MulMonotone(x: nat, y: nat, step: nat)
    requires x <= y
    ensures x * step <= y * step
  {
    var d := y - x;
    assert y * step == x * step + d * step;
  }

  /** The number of points a stride keeps is determined by the length. */
  lemma StrideCountUnique(len: nat, step: nat, a: nat, b: nat)
    requires step > 0
    requires a * step >= len && (a > 0 ==> (a - 1) * step < len)
    requires b * step >= len && (b > 0 ==> (b - 1) * step < len)
    ensures a == b
  {
    if a < b {
      MulMonotone(a, b - 1, step);
    } else if b < a {
      MulMonotone(b, a - 1, step);
    }
  }

  lemma MulSucc(k: nat, step: nat)
    ensures (k + 1) * step == k * step + step
  {
  }

  /** How many points `Strided` keeps: the least count whose multiple of
      `step` reaches the length. */
  lemma {:induction false} StridedLength<T>(s: seq<T>, step: nat)
    requires step > 0
    ensures |Strided(s, step)| * step >= |s|
    ensures |s| > 0 ==> (|Strided(s, step)| - 1) * step < |s|
    decreases |s|
  {
    if |s| > step {
      var n := |Strided(s[step..], step)|;
      StridedLength(s[step..], step);
      assert |Strided(s, step)| == n + 1;
      MulSucc(n, step);
      if n > 0 {
        MulSucc(n - 1, step);
      }
    }
  }

  /** The `k`-th point `Strided` keeps is the sample at index `k * step`. */
  lemma {:induction false} StridedIndex<T>(s: seq<T>, step: nat, k: nat)
    requires step > 0
    requires k < |Strided(s, step)|
    ensures k * step < |s| && Strided(s, step)[k] == s[k * step]
    decreases |s|
  {
    if k > 0 {
      var t := s[step..];
      assert Strided(s, step) == [s[0]] + Strided(t, step);
      StridedIndex(t, step, k - 1);
      MulSucc(k - 1, step);
      assert Strided(s, step)[k] == t[(k - 1) * step];
    }
  }

  /** `Strided` keeps exactly the indices that are multiples of `step`. */
  lemma StridedAt<T>(s: seq<T>, step: nat)
    requires step > 0
    ensures |Strided(s, step)| * step >= |s|
    ensures |s| > 0 ==> (|Strided(s, step)| - 1) * step < |s|
    ensures forall k :: 0 <= k < |Strided(s, step)| ==> k * step < |s| && Strided(s, step)[k] == s[k * step]
  {
    StridedLength(s, step);
    forall k | 0 <= k < |Strided(s, step)|
      ensures k * step < |s| && Strided(s, step)[k] == s[k * step]
    {
      StridedIndex(s, step, k);
    }
  }

  /** Every kept point is a point of the input. */
  lemma StridedMember<T>(s: seq<T>, step: nat, x: T)
    requires step > 0 && x in Strided(s, step)
    ensures x in s
  {
    StridedAt(s, step);
    var k :| 0 <= k < |Strided(s, step)| && Strided(s, step)[k] == x;
    assert s[k * step] == x;
  }

  /** A sample's price appears among the prices of a list holding it. */
  lemma PriceOfMember(x: Sample, samples: seq<Sample>)
    requires x in samples
    ensures x.price in Prices(samples)
  {
    var i :| 0 <= i < |samples| && samples[i] == x;
    assert Prices(samples)[i] == x.price;
  }

  /** Every compact bucket of a filled week holds the price of the first
      nearest sample to its compact timestamp. */
  lemma CompactNearest(samples: seq<Sample>, hourlyPrices: seq<real>, hourlyTimestamps: seq<int>)
    requires |hourlyPrices| == |hourlyTimestamps| == HoursInWeek
    requires forall k :: 0 <= k < HoursInWeek ==>
      exists j :: IsNearest(samples, j, hourlyTimestamps[k]) && hourlyPrices[k] == samples[j].price
    ensures |Strided(hourlyPrices, CompactStride)| == |Strided(hourlyTimestamps, CompactStride)| == CompactPoints
    ensures forall k :: 0 <= k < CompactPoints ==>
      exists j :: IsNearest(samples, j, Strided(hourlyTimestamps, CompactStride)[k])
               && Strided(hourlyPrices, CompactStride)[k] == samples[j].price
  {
    CompactOfWeek(hourlyPrices);
    CompactOfWeek(hourlyTimestamps);
    forall k | 0 <= k < CompactPoints
      ensures exists j :: IsNearest(samples, j, Strided(hourlyTimestamps, CompactStride)[k])
                        && Strided(hourlyPrices, CompactStride)[k] == samples[j].price
    {
      var j :| IsNearest(samples, j, hourlyTimestamps[CompactStride * k]) && hourlyPrices[CompactStride * k] == samples[j].price;
      assert IsNearest(samples, j, Strided(hourlyTimestamps, CompactStride)[k]);
    }
  }

  /** The price of the first nearest sample stays a nearest price when the
      samples are reordered. */
  lemma NearestOfPermutation(a: seq<Sample>, b: seq<Sample>, j: int, target: int)
    requires multiset(a) == multiset(b) && IsNearest(a, j, target)
    ensures NearestPrice(b, target, a[j].price)
  {
    assert a[j] in multiset(b);
    var i :| 0 <= i < |b| && b[i] == a[j];
    forall m | 0 <= m < |b|
      ensures Dist(b[i].time, target) <= Dist(b[m].time, target)
    {
      assert b[m] in multiset(a);
      var m' :| 0 <= m' < |a| && a[m'] == b[m];
    }
  }

  /** A price nearest to some target is one of the series' prices. */
  lemma NearestIsPrice(s: seq<Sample>, target: int, p: real)
    requires NearestPrice(s, target, p)
    ensures p in Prices(s)
  {
    var j :| 0 <= j < |s| && s[j].price == p
      && forall m :: 0 <= m < |s| ==> Dist(s[j].time, target) <= Dist(s[m].time, target);
    PriceOfMember(s[j], s);
  }

  /** Buckets drawn from a sorted copy are nearest prices of the original
      samples too, and so are among their prices. */
  lemma BucketsOfPermutation(sorted: seq<Sample>, points: seq<Sample>, prices: seq<real>, times: seq<int>)
    requires multiset(sorted) == multiset(points) && |prices| == |times|
    requires forall k :: 0 <= k < |times| ==>
      exists j :: IsNearest(sorted, j, times[k]) && prices[k] == sorted[j].price
    ensures forall k :: 0 <= k < |times| ==> NearestPrice(points, times[k], prices[k])
    ensures forall x :: x in prices ==> x in Prices(points)
  {
    forall k | 0 <= k < |times|
      ensures NearestPrice(points, times[k], prices[k])
    {
      var j :| IsNearest(sorted, j, times[k]) && prices[k] == sorted[j].price;
      NearestOfPermutation(sorted, points, j, times[k]);
    }
    forall x | x in prices
      ensures x in Prices(points)
    {
      var k :| 0 <= k < |prices| && prices[k] == x;
      NearestIsPrice(points, times[k], x);
    }
  }

  /** The sampling loop shared by the normalizer, the Binance path and the
      synthetic chart: `for (i = 0; i < n; i += step) out.push(s[i])`. */
  method SampleEvery<T>(s: seq<T>, step: nat) returns (r: seq<T>)
    requires step > 0
    ensures r == Strided(s, step)
  {
    r := [];
    var i := 0;
    while i < |s|
      invariant i == |r| * step
      invariant forall k :: 0 <= k < |r| ==> k * step < |s| && r[k] == s[k * step]
      decreases |s| - i
    {
      r := r + [s[i]];
      i := i + step;
    }
    StridedAt(s, step);
    var expected := Strided(s, step);
    StrideCountUnique(|s|, step, |r|, |expected|);
  }

  /** A week of hourly points shrinks to 28: indices 0, 6, ..., 162, so the
      oldest point is kept and the newest (index 167) is not. */
  lemma CompactOfWeek<T>(h: seq<T>)
    requires |h| == HoursInWeek
    ensures |Strided(h, CompactStride)| == CompactPoints
    ensures forall k :: 0 <= k < CompactPoints ==> Strided(h, CompactStride)[k] == h[CompactStride * k]
    ensures Strided(h, CompactStride)[0] == h[0]
    ensures Strided(h, CompactStride)[CompactPoints - 1] == h[HoursInWeek - 6]
  {
    StridedAt(h, CompactStride);
    StrideCountUnique(HoursInWeek, CompactStride, |Strided(h, CompactStride)|, CompactPoints);
  }

  /** The compact timestamps of a normalized week: 28 points six hours apart,
      from the oldest hour up to five hours before the end hour. */
  lemma CompactGrid(end: int)
    ensures |Strided(HourlyGrid(end), CompactStride)| == CompactPoints
    ensures forall k :: 0 <= k < CompactPoints ==>
      Strided(HourlyGrid(end), CompactStride)[k] == end - (HoursInWeek - 1 - CompactStride * k) * HourMs
    ensures Strided(HourlyGrid(end), CompactStride)[CompactPoints - 1] == end - 5 * HourMs
  {
    CompactOfWeek(HourlyGrid(end));
    var g := HourlyGrid(end);
    forall k | 0 <= k < CompactPoints
      ensures g[CompactStride * k] == end - (HoursInWeek - 1 - CompactStride * k) * HourMs
    {
      HourlyGridAt(end, CompactStride * k);
    }
  }

  lemma HourlyGridAt(end: int, k: nat)
    requires k < HoursInWeek
    ensures HourlyGrid(end)[k] == end - (HoursInWeek - 1 - k) * HourMs
  {
  }

  // ---------------------------------------------------------------------
  // processHourlyDataPoints
  // ---------------------------------------------------------------------

  /** The bucket loop of the normalizer: for each of the 168 hours before
      and including `end` (walking backwards and inserting at the front) it
      takes the price of the nearest sample. */
  method FillHourly(data: array<Sample>, end: int) returns (hourlyPrices: seq<real>, hourlyTimestamps: seq<int>)
    requires data.Length > 0
    ensures hourlyTimestamps == HourlyGrid(end)
    ensures |hourlyPrices| == HoursInWeek
    ensures forall k :: 0 <= k < HoursInWeek ==>
      exists j :: IsNearest(data[..], j, hourlyTimestamps[k]) && hourlyPrices[k] == data[j].price
  {
    hourlyPrices, hourlyTimestamps := [], [];
    ghost var picks: seq<nat> := [];
    var i := 0;
    while i < HoursInWeek
      invariant 0 <= i <= HoursInWeek
      invariant |hourlyPrices| == |hourlyTimestamps| == |picks| == i
      invariant forall k :: 0 <= k < i ==> hourlyTimestamps[k] == end - (i - 1 - k) * HourMs
      invariant forall k :: 0 <= k < i ==>
        IsNearest(data[..], picks[k], hourlyTimestamps[k]) && hourlyPrices[k] == data[picks[k]].price
    {
      var target := end - i * HourMs;
      var closest := FindNearest(data, target);
      match closest {
        case Some(j) =>
          // unshift: the bucket `i` hours before the end goes in front
          hourlyPrices := [data[j].price] + hourlyPrices;
          hourlyTimestamps := [target] + hourlyTimestamps;
          picks := [j] + picks;
        case None =>
          // the source's carry-forward branch: unreachable, the samples are not empty
          assert false;
      }
      i := i + 1;
    }
    forall k | 0 <= k < HoursInWeek
      ensures exists j :: IsNearest(data[..], j, hourlyTimestamps[k]) && hourlyPrices[k] == data[j].price
    {
      assert IsNearest(data[..], picks[k], hourlyTimestamps[k]);
    }
  }

  /** Normalizes irregular samples into a week of hourly buckets. The samples
      are sorted in place first; an empty input makes the source throw (it
      reads the last sample of an empty list), which is `None` here. */
  method ProcessHourly(data: array<Sample>, now: int) returns (r: Option<Processed>)
    modifies data
    ensures SortedByTime(data[..])
    ensures multiset(data[..]) == multiset(old(data[..]))
    ensures r.None? <==> data.Length == 0
    ensures r.Some? ==> r.value.hourlyTimestamps == HourlyGrid(EndHour(data[data.Length - 1].time, now))
    ensures r.Some? ==> |r.value.hourlyPrices| == HoursInWeek
    ensures r.Some? ==> forall k :: 0 <= k < HoursInWeek ==>
      exists j :: IsNearest(data[..], j, r.value.hourlyTimestamps[k]) && r.value.hourlyPrices[k] == data[j].price
    ensures r.Some? ==> r.value.prices == Strided(r.value.hourlyPrices, CompactStride)
    ensures r.Some? ==> r.value.timestamps == Strided(r.value.hourlyTimestamps, CompactStride)
  {
    SortByTime(data);
    if data.Length == 0 {
      return None;
    }
    var end := EndHour(data[data.Length - 1].time, now);
    var hourlyPrices, hourlyTimestamps := FillHourly(data, end);
    var prices := SampleEvery(hourlyPrices, CompactStride);
    var timestamps := SampleEvery(hourlyTimestamps, CompactStride);
    r := Some(Processed(prices, timestamps, hourlyPrices, hourlyTimestamps));
  }

  // ---------------------------------------------------------------------
  // The Binance series
  // ---------------------------------------------------------------------

  /** The Binance pair the chart requests: USDT is quoted against BUSD,
      everything else against USDT. */
  function BinancePair(symbol: string): (pair: string)
    ensures |pair| == |symbol| + 4
    ensures symbol == "USDT" ==> pair == "USDTBUSD"
    ensures symbol != "USDT" ==> pair[..|symbol|] == symbol && pair[|symbol|..] == "USDT"
  {
    if symbol == "USDT" then "USDTBUSD" else symbol + "USDT"
  }

  /** `Math.max(1, Math.floor(n / 28))`. */
  function BinanceStep(n: nat): (step: nat)
    ensures step >= 1
    ensures n >= CompactPoints ==> step * CompactPoints <= n < (step + 1) * CompactPoints
    ensures n < 2 * CompactPoints ==> step == 1
  {
    var q := n / CompactPoints;
    if q >= 1 then q else 1
  }

  /** The Binance path: sorts the candles in place, then keeps the indices
      that are multiples of the step, so the oldest candle is always kept. */
  method BinanceSeries(data: array<Sample>) returns (prices: seq<real>, timestamps: seq<int>)
    modifies data
    ensures SortedByTime(data[..])
    ensures multiset(data[..]) == multiset(old(data[..]))
    ensures prices == Prices(Strided(data[..], BinanceStep(data.Length)))
    ensures timestamps == Times(Strided(data[..], BinanceStep(data.Length)))
  {
    SortByTime(data);
    var picked := SampleEvery(data[..], BinanceStep(data.Length));
    prices, timestamps := Prices(picked), Times(picked);
  }

  /** With fewer than 56 candles the step is 1 and every candle is kept. */
  lemma BinanceKeepsShort<T>(s: seq<T>)
    requires |s| < 2 * CompactPoints
    ensures Strided(s, BinanceStep(|s|)) == s
  {
    var step := BinanceStep(|s|);
    StridedAt(s, step);
    var r := Strided(s, step);
    StrideCountUnique(|s|, step, |r|, |s|);
    assert forall k :: 0 <= k < |r| ==> r[k] == s[k * step];
  }

  /** From 28 candles on, the Binance compact series has between 28 and 55
      points and starts at the oldest candle. */
  lemma BinanceCountBounds<T>(s: seq<T>)
    requires |s| >= CompactPoints
    ensures CompactPoints <= |Strided(s, BinanceStep(|s|))| <= 2 * CompactPoints - 1
    ensures Strided(s, BinanceStep(|s|))[0] == s[0]
  {
    var step := BinanceStep(|s|);
    var c := |Strided(s, step)|;
    StridedAt(s, step);
    if c < CompactPoints {
      MulMonotone(c, CompactPoints - 1, step);
      assert false;
    }
    if c > 2 * CompactPoints - 1 {
      MulMonotone(2 * CompactPoints - 1, c - 1, step);
      assert false;
    }
  }

  /** When the candle count is a multiple of 28 (a full week of 168 hours,
      say) the Binance compact series has exactly 28 points. */
  lemma BinanceCountExact<T>(s: seq<T>)
    requires |s| >= CompactPoints && |s| % CompactPoints == 0
    ensures |Strided(s, BinanceStep(|s|))| == CompactPoints
    ensures |s| == HoursInWeek ==> BinanceStep(|s|) == CompactStride
  {
    var step := BinanceStep(|s|);
    var c := |Strided(s, step)|;
    StridedAt(s, step);
    assert step * CompactPoints == |s|;
    StrideCountUnique(|s|, step, c, CompactPoints);
  }

  // ---------------------------------------------------------------------
  // The synthetic chart
  // ---------------------------------------------------------------------

  /** Seven daily reference prices per symbol for the synthetic chart, oldest
      day first; `None` for a symbol without a table. */
  function FallbackDaily(symbol: string): (daily: Option<seq<real>>)
    ensures daily.Some? ==> |daily.value| == 7 && forall d :: 0 <= d < 7 ==> daily.value[d] > 0.0
  {
    if symbol == "BTC" then Some([64500.0, 65200.0, 66700.0, 66300.0, 67100.0, 68000.0, 67000.0])
    else if symbol == "ETH" then Some([3200.0, 3300.0, 3400.0, 3350.0, 3450.0, 3500.0, 3550.0])
    else if symbol == "ADA" then Some([0.42, 0.41, 0.43, 0.44, 0.46, 0.47, 0.45])
    else if symbol == "SOL" then Some([165.0, 160.0, 155.0, 158.0, 152.0, 148.0, 150.0])
    else if symbol == "USDT" then Some([0.998, 1.001, 0.999, 1.002, 1.0, 0.999, 1.0])
    else None
  }

  /** The random variation factor `1 + (Math.random() * 0.01 - 0.005)`, with
      the draw as a parameter: within half a percent of 1. */
  function Jitter(draw: real): (factor: real)
    requires 0.0 <= draw < 1.0
    ensures 0.995 <= factor < 1.005
  {
    1.0 + (draw * 0.01 - 0.005)
  }

  /** The product of two non-negative reals is non-negative. */
  lemma NonNegativeProduct(a: real, b: real)
    requires a >= 0.0 && b >= 0.0
    ensures a * b >= 0.0
  {
  }

  /** A weighted mean of two values lies between them. */
  lemma BetweenEnds(start: real, end: real, progress: real)
    requires 0.0 <= progress <= 1.0
    ensures var p := start * (1.0 - progress) + end * progress;
            (start <= end ==> start <= p <= end) && (end <= start ==> end <= p <= start)
  {
    assert start * (1.0 - progress) + end * progress == start + (end - start) * progress;
    if end >= start {
      NonNegativeProduct(end - start, progress);
      NonNegativeProduct(end - start, 1.0 - progress);
    } else {
      NonNegativeProduct(start - end, progress);
      NonNegativeProduct(start - end, 1.0 - progress);
    }
  }

  /** Scaling a non-negative value by a factor in [lo, hi] lands in
      [lo * value, hi * value]. */
  lemma ScaledBetween(value: real, factor: real, lo: real, hi: real)
    requires lo <= factor <= hi
    ensures value >= 0.0 ==> lo * value <= value * factor <= hi * value
  {
    if value >= 0.0 {
      NonNegativeProduct(value, factor - lo);
      NonNegativeProduct(value, hi - factor);
    }
  }

  /** The fraction of the day `hour` hours in. */
  function DayProgress(hour: nat): (progress: real)
    requires hour < 24
    ensures 0.0 <= progress < 1.0
  {
    hour as real / 24.0
  }

  /** The interpolated price `hour` hours back into day `day` (counted from
      the most recent day): it lies between that day's reference price and the
      previous day's, which the oldest day lacks and replaces by its own. */
  function InterpolatedPrice(daily: seq<real>, day: nat, hour: nat): (p: real)
    requires |daily| == 7 && day < 7 && hour < 24
    ensures var start := daily[6 - day];
            var end := if day < 6 && daily[5 - day] != 0.0 then daily[5 - day] else start;
            (start <= end ==> start <= p <= end) && (end <= start ==> end <= p <= start)
  {
    var start := daily[6 - day];
    var end := if day < 6 && daily[5 - day] != 0.0 then daily[5 - day] else start;
    var progress := DayProgress(hour);
    BetweenEnds(start, end, progress);
    start * (1.0 - progress) + end * progress
  }

  /** The position of (`day`, `hour`) in the generated list. */
  function Slot(day: nat, hour: nat): nat {
    day * 24 + hour
  }

  /** The week the synthetic chart generates: 168 points, the k-th `k` hours
      before the current hour, each priced at its day's interpolation times
      its slot's jitter. */
  ghost predicate GeneratedWeek(hourly: seq<Sample>, daily: seq<real>, now: int, draws: seq<real>)
    requires |daily| == 7
    requires |draws| == HoursInWeek && forall k :: 0 <= k < |draws| ==> 0.0 <= draws[k] < 1.0
  {
    && |hourly| == HoursInWeek
    && (forall k :: 0 <= k < HoursInWeek ==> hourly[k].time == FloorToHour(now) - k * HourMs)
    && (forall day: nat, hour: nat :: day < 7 && hour < 24 ==>
          hourly[Slot(day, hour)].price == InterpolatedPrice(daily, day, hour) * Jitter(draws[Slot(day, hour)]))
  }

  /** `generateFallbackChart`'s nested loops: seven days of 24 hours, newest
      first, the k-th point `k` hours before the current hour. */
  method SyntheticHourly(daily: seq<real>, now: int, draws: seq<real>) returns (hourly: seq<Sample>)
    requires |daily| == 7
    requires |draws| == HoursInWeek && forall k :: 0 <= k < |draws| ==> 0.0 <= draws[k] < 1.0
    ensures GeneratedWeek(hourly, daily, now, draws)
    ensures forall j, k :: 0 <= j < k < HoursInWeek ==> hourly[j].time > hourly[k].time
  {
    var nowHour := FloorToHour(now);
    hourly := [];
    for day := 0 to 7
      invariant |hourly| == day * 24
      invariant forall k :: 0 <= k < |hourly| ==> hourly[k].time == nowHour - k * HourMs
      invariant forall d: nat, h: nat :: d < day && h < 24 ==>
        hourly[Slot(d, h)].price == InterpolatedPrice(daily, d, h) * Jitter(draws[Slot(d, h)])
    {
      for hour := 0 to 24
        invariant |hourly| == day * 24 + hour
        invariant forall k :: 0 <= k < |hourly| ==> hourly[k].time == nowHour - k * HourMs
        invariant forall d: nat, h: nat :: (d < day && h < 24) || (d == day && h < hour) ==>
          hourly[Slot(d, h)].price == InterpolatedPrice(daily, d, h) * Jitter(draws[Slot(d, h)])
      {
        var timestamp := nowHour - day * 24 * HourMs - hour * HourMs;
        var price := InterpolatedPrice(daily, day, hour) * Jitter(draws[Slot(day, hour)]);
        hourly := hourly + [Sample(timestamp, price)];
      }
    }
  }

  /** The synthetic compact series: 28 points, newest first, six hours apart
      starting at the current hour. */
  lemma CompactSynthetic(hourly: seq<Sample>, nowHour: int)
    requires |hourly| == HoursInWeek
    requires forall k :: 0 <= k < HoursInWeek ==> hourly[k].time == nowHour - k * HourMs
    ensures |Strided(hourly, CompactStride)| == CompactPoints
    ensures forall k :: 0 <= k < CompactPoints ==> Strided(hourly, CompactStride)[k].time == nowHour - CompactStride * k * HourMs
    ensures Strided(hourly, CompactStride)[0].time == nowHour
  {
    CompactOfWeek(hourly);
  }

  // ---------------------------------------------------------------------
  // Per-tick price replacement, redraw check, labels, fetch decision
  // ---------------------------------------------------------------------

  /** The fast refresh tick: the newest base price is replaced by itself times
      a random factor within half a percent; every other point is kept. */
  function TickLatest(basePrices: seq<real>, draw: real): (r: seq<real>)
    requires |basePrices| > 0
    requires 0.0 <= draw < 1.0
    ensures |r| == |basePrices|
    ensures forall i :: 0 <= i < |r| - 1 ==> r[i] == basePrices[i]
    ensures basePrices[|basePrices| - 1] >= 0.0 ==>
      0.995 * basePrices[|basePrices| - 1] <= r[|r| - 1] <= 1.005 * basePrices[|basePrices| - 1]
  {
    var latest := basePrices[|basePrices| - 1];
    var factor := Jitter(draw);
    ScaledBetween(latest, factor, 0.995, 1.005);
    var r := basePrices[..|basePrices| - 1] + [latest * factor];
    assert r[|r| - 1] == latest * factor;
    assert latest >= 0.0 ==> latest * factor <= 1.005 * latest;
    r
  }

  /** The check before a currency redraw: no previous prices, a different
      length, or some differing point. It holds exactly when the converted
      prices differ from the previous ones. */
  function PricesChanged(previous: Option<seq<real>>, converted: seq<real>): (changed: bool)
    ensures changed <==> previous.None? || previous.value != converted
  {
    previous.None?
    || |previous.value| != |converted|
    || exists i :: 0 <= i < |converted| && previous.value[i] != converted[i]
  }

  /** The detail chart's x-axis keeps a label every 12 points and the last one. */
  predicate ShowTick(index: nat, count: nat) {
    index % 12 == 0 || index == count - 1
  }

  /** The first and last labels are always shown, and no run of hidden labels
      is longer than eleven. */
  lemma TickGaps(count: nat, i: nat)
    requires i < count
    ensures ShowTick(0, count) && ShowTick(count - 1, count)
    ensures exists j :: i <= j < count && j < i + 12 && ShowTick(j, count)
  {
    var next := i + (12 - i % 12) % 12;
    if next < count {
      assert ShowTick(next, count);
    } else {
      assert ShowTick(count - 1, count);
    }
  }

  /** What the chart effect does when its inputs change. */
  datatype ChartEffect = Fetch | Synthesize | Keep

  /** `lastChartUpdate && (!chartData || shouldUpdateCharts)` decides a fetch;
      otherwise a missing chart is synthesized and an existing one kept. */
  function DecideChartEffect(lastChartUpdate: int, hasChart: bool, shouldUpdateCharts: bool): (e: ChartEffect)
    ensures e == Keep <==> hasChart && (lastChartUpdate == 0 || !shouldUpdateCharts)
    ensures e == Synthesize <==> !hasChart && lastChartUpdate == 0
    ensures e == Fetch <==> lastChartUpdate != 0 && (!hasChart || shouldUpdateCharts)
  {
    if lastChartUpdate != 0 && (!hasChart || shouldUpdateCharts) then Fetch
    else if !hasChart then Synthesize
    else Keep
  }
}
