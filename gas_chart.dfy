/**
 * The chart panel's data: candlestick aggregation of the selected chain's history into
 * fixed-width time buckets, the price change between the last two samples, and the
 * current price shown above the chart.
 */
module GasChart {
  import opened Wrappers
  import opened GasStore
  import GasPriceWidget

  /** Bucket widths in milliseconds for '15m', '1h', '4h' and '1d'. */
  function IntervalMs(tf: Timeframe): (ms: int)
    ensures ms > 0 && ms % 1000 == 0
  {
    match tf
    case M15 => 15 * 60 * 1000
    case H1 => 60 * 60 * 1000
    case H4 => 4 * 60 * 60 * 1000
    case D1 => 24 * 60 * 60 * 1000
  }

  /** `Math.floor(ts / intervalMs) * intervalMs` (Dafny's `/` floors for a positive divisor). */
  function BucketStart(ts: int, intervalMs: int): int
    requires intervalMs > 0
  {
    (ts / intervalMs) * intervalMs
  }

  /** A timestamp lies in the bucket that starts at its bucket start and spans one width. */
  lemma BucketStartBounds(ts: int, intervalMs: int)
    requires intervalMs > 0
    ensures BucketStart(ts, intervalMs) <= ts < BucketStart(ts, intervalMs) + intervalMs
  {
    assert ts == (ts / intervalMs) * intervalMs + ts % intervalMs;
  }

  /** With a width of whole seconds, every bucket start falls on a whole second. */
  lemma BucketOnWholeSecond(ts: int, intervalMs: int)
    requires intervalMs > 0 && intervalMs % 1000 == 0
    ensures BucketStart(ts, intervalMs) % 1000 == 0
  {
    var q := ts / intervalMs;
    assert intervalMs == 1000 * (intervalMs / 1000);
    assert BucketStart(ts, intervalMs) == 1000 * (q * (intervalMs / 1000));
  }

  /** One bar: `time` in seconds, and the open, high, low and close total fees. */
  datatype Candle = Candle(time: int, open: real, high: real, low: real, close: real)

  /** The distinct buckets the samples of `h` fall in. */
  function Buckets(h: seq<GasPoint>, intervalMs: int): set<int>
    requires intervalMs > 0
    decreases |h|
  {
    if h == [] then {}
    else Buckets(h[..|h| - 1], intervalMs) + {BucketStart(h[|h| - 1].timestamp, intervalMs)}
  }

  /** There are never more buckets than samples. */
  lemma {:induction false} BucketsAtMostSamples(h: seq<GasPoint>, intervalMs: int)
    requires intervalMs > 0
    ensures |Buckets(h, intervalMs)| <= |h|
    decreases |h|
  {
    if h != [] {
      BucketsAtMostSamples(h[..|h| - 1], intervalMs);
    }
  }

  /** Keys listed without repetition number exactly as many as the set they list. */
  lemma {:induction false} DistinctKeysCount(keys: seq<int>, ks: set<int>)
    requires forall m, n :: 0 <= m < n < |keys| ==> keys[m] != keys[n]
    requires forall k :: k in ks <==> k in keys
    ensures |keys| == |ks|
    decreases |keys|
  {
    if keys == [] {
      assert forall k :: k !in ks;
      assert ks == {};
    } else {
      var last := keys[|keys| - 1];
      var prefix := keys[..|keys| - 1];
      forall k
        ensures k in ks - {last} <==> k in prefix
      {
        if k in prefix {
          var m :| 0 <= m < |prefix| && prefix[m] == k;
          assert keys[m] == k;
        }
        if k in keys && k != last {
          var m :| 0 <= m < |keys| && keys[m] == k;
          assert m < |prefix| && prefix[m] == k;
        }
      }
      DistinctKeysCount(prefix, ks - {last});
      assert ks == (ks - {last}) + {last};
    }
  }

  /** The samples of `h` that fall in bucket `k`, in history order. */
  function Group(h: seq<GasPoint>, intervalMs: int, k: int): (g: seq<GasPoint>)
    requires intervalMs > 0
    ensures |g| <= |h|
    decreases |h|
  {
    if h == [] then []
    else
      var p := h[|h| - 1];
      Group(h[..|h| - 1], intervalMs, k) + (if BucketStart(p.timestamp, intervalMs) == k then [p] else [])
  }

  /** One more sample adds its bucket to the buckets and joins the end of that bucket's group. */
  lemma GroupSnoc(h: seq<GasPoint>, p: GasPoint, intervalMs: int)
    requires intervalMs > 0
    ensures Buckets(h + [p], intervalMs) == Buckets(h, intervalMs) + {BucketStart(p.timestamp, intervalMs)}
    ensures forall k ::
      Group(h + [p], intervalMs, k) == Group(h, intervalMs, k) + (if BucketStart(p.timestamp, intervalMs) == k then [p] else [])
  {
    assert (h + [p])[..|h|] == h;
  }

  /** A group holds exactly the samples of the history that fall in its bucket. */
  lemma {:induction false} GroupMembers(h: seq<GasPoint>, intervalMs: int, k: int)
    requires intervalMs > 0
    ensures forall p :: p in Group(h, intervalMs, k) <==> p in h && BucketStart(p.timestamp, intervalMs) == k
    decreases |h|
  {
    if h != [] {
      var prefix := h[..|h| - 1];
      GroupMembers(prefix, intervalMs, k);
      assert h == prefix + [h[|h| - 1]];
    }
  }

  /** Every sample's bucket is among the buckets, and every bucket has a non-empty group. */
  lemma {:induction false} BucketsAreOccupied(h: seq<GasPoint>, intervalMs: int)
    requires intervalMs > 0
    ensures forall p :: p in h ==> BucketStart(p.timestamp, intervalMs) in Buckets(h, intervalMs)
    ensures forall k :: k in Buckets(h, intervalMs) <==> |Group(h, intervalMs, k)| > 0
    decreases |h|
  {
    if h != [] {
      var prefix := h[..|h| - 1];
      BucketsAreOccupied(prefix, intervalMs);
      assert h == prefix + [h[|h| - 1]];
    }
  }

  /** A bucket no sample falls in has an empty group. */
  lemma {:induction false} GroupOfAbsentBucket(h: seq<GasPoint>, intervalMs: int, k: int)
    requires intervalMs > 0
    requires forall j :: 0 <= j < |h| ==> BucketStart(h[j].timestamp, intervalMs) != k
    ensures Group(h, intervalMs, k) == []
    decreases |h|
  {
    if h != [] {
      GroupOfAbsentBucket(h[..|h| - 1], intervalMs, k);
    }
  }

  /** The first sample of the history that falls in a bucket opens that bucket's group. */
  lemma {:induction false} GroupStartsWithFirst(h: seq<GasPoint>, intervalMs: int, i: int)
    requires intervalMs > 0 && 0 <= i < |h|
    requires forall j :: 0 <= j < i ==> BucketStart(h[j].timestamp, intervalMs) != BucketStart(h[i].timestamp, intervalMs)
    ensures var g := Group(h, intervalMs, BucketStart(h[i].timestamp, intervalMs)); |g| > 0 && g[0] == h[i]
    decreases |h|
  {
    var prefix := h[..|h| - 1];
    if i < |h| - 1 {
      GroupStartsWithFirst(prefix, intervalMs, i);
    } else {
      GroupOfAbsentBucket(prefix, intervalMs, BucketStart(h[i].timestamp, intervalMs));
    }
  }

  /** The last sample of the history that falls in a bucket closes that bucket's group. */
  lemma {:induction false} GroupEndsWithLast(h: seq<GasPoint>, intervalMs: int, i: int)
    requires intervalMs > 0 && 0 <= i < |h|
    requires forall j :: i < j < |h| ==> BucketStart(h[j].timestamp, intervalMs) != BucketStart(h[i].timestamp, intervalMs)
    ensures var g := Group(h, intervalMs, BucketStart(h[i].timestamp, intervalMs)); |g| > 0 && g[|g| - 1] == h[i]
    decreases |h|
  {
    var prefix := h[..|h| - 1];
    if i < |h| - 1 {
      GroupEndsWithLast(prefix, intervalMs, i);
    }
  }

  /** `Math.max(...fees)` over the total fees. */
  function MaxFee(g: seq<GasPoint>): (m: real)
    requires |g| > 0
    ensures forall p :: p in g ==> p.totalFee <= m
    ensures exists p :: p in g && p.totalFee == m
    decreases |g|
  {
    if |g| == 1 then g[0].totalFee
    else
      var rest := MaxFee(g[1..]);
      assert forall p :: p in g[1..] ==> p in g;
      if g[0].totalFee > rest then g[0].totalFee else rest
  }

  /** `Math.min(...fees)` over the total fees. */
  function MinFee(g: seq<GasPoint>): (m: real)
    requires |g| > 0
    ensures forall p :: p in g ==> m <= p.totalFee
    ensures exists p :: p in g && p.totalFee == m
    decreases |g|
  {
    if |g| == 1 then g[0].totalFee
    else
      var rest := MinFee(g[1..]);
      assert forall p :: p in g[1..] ==> p in g;
      if g[0].totalFee < rest then g[0].totalFee else rest
  }

  /**
   * The candle for bucket `k` holding samples `g`: opens at the first sample's total fee,
   * closes at the last's, and its high and low are the largest and smallest of them, so
   * the low is at most, and the high at least, both the open and the close.
   */
  function CandleOf(k: int, g: seq<GasPoint>): (c: Candle)
    requires |g| > 0
    ensures c.time == k / 1000
    ensures c.open == g[0].totalFee && c.close == g[|g| - 1].totalFee
    ensures forall p :: p in g ==> c.low <= p.totalFee <= c.high
    ensures (exists p :: p in g && p.totalFee == c.high) && (exists p :: p in g && p.totalFee == c.low)
    ensures c.low <= c.open <= c.high && c.low <= c.close <= c.high
  {
    Candle(k / 1000, g[0].totalFee, MaxFee(g), MinFee(g), g[|g| - 1].totalFee)
  }

  /** `c` is the candle of the bucket starting at `c.time` seconds, over all of `h`. */
  ghost predicate IsBucketCandle(h: seq<GasPoint>, intervalMs: int, c: Candle)
    requires intervalMs > 0
  {
    var k := c.time * 1000;
    |Group(h, intervalMs, k)| > 0 && c == CandleOf(k, Group(h, intervalMs, k))
  }

  predicate Ascending(cs: seq<Candle>) {
    forall i, j :: 0 <= i < j < |cs| ==> cs[i].time <= cs[j].time
  }

  predicate StrictlyAscending(cs: seq<Candle>) {
    forall i, j :: 0 <= i < j < |cs| ==> cs[i].time < cs[j].time
  }

  predicate DistinctTimes(cs: seq<Candle>) {
    forall i, j :: 0 <= i < j < |cs| ==> cs[i].time != cs[j].time
  }

  /** Inserts `c` before the first candle strictly later than it. */
  function InsertByTime(sorted: seq<Candle>, c: Candle): (r: seq<Candle>)
    ensures |r| == |sorted| + 1 && multiset(r) == multiset(sorted) + multiset{c}
    decreases |sorted|
  {
    if sorted == [] then [c]
    else if c.time < sorted[0].time then [c] + sorted
    else
      assert sorted == [sorted[0]] + sorted[1..];
      [sorted[0]] + InsertByTime(sorted[1..], c)
  }

  /** No candle of `cs` has the time of `c`. */
  predicate NewTime(cs: seq<Candle>, c: Candle) {
    forall k :: 0 <= k < |cs| ==> cs[k].time != c.time
  }

  /** Inserting a candle no earlier than `lo` into candles no earlier than `lo` keeps them so. */
  lemma {:induction false} InsertKeepsLowerBound(sorted: seq<Candle>, c: Candle, lo: int)
    requires forall k :: 0 <= k < |sorted| ==> lo <= sorted[k].time
    requires lo <= c.time
    ensures forall k :: 0 <= k < |InsertByTime(sorted, c)| ==> lo <= InsertByTime(sorted, c)[k].time
    decreases |sorted|
  {
    if sorted != [] && c.time >= sorted[0].time {
      var rest := InsertByTime(sorted[1..], c);
      InsertKeepsLowerBound(sorted[1..], c, lo);
      assert InsertByTime(sorted, c) == [sorted[0]] + rest;
    }
  }

  /** A candle no later than every candle of an ascending sequence can lead it. */
  lemma ConsAscending(x: Candle, rest: seq<Candle>)
    requires Ascending(rest) && forall k :: 0 <= k < |rest| ==> x.time <= rest[k].time
    ensures Ascending([x] + rest)
  {
    var r := [x] + rest;
    forall i, j | 0 <= i < j < |r|
      ensures r[i].time <= r[j].time
    {
      assert r[j] == rest[j - 1];
      if i > 0 {
        assert r[i] == rest[i - 1];
      }
    }
  }

  /** A candle strictly earlier than every candle of a strictly ascending sequence can lead it. */
  lemma ConsStrictlyAscending(x: Candle, rest: seq<Candle>)
    requires StrictlyAscending(rest) && forall k :: 0 <= k < |rest| ==> x.time < rest[k].time
    ensures StrictlyAscending([x] + rest)
  {
    var r := [x] + rest;
    forall i, j | 0 <= i < j < |r|
      ensures r[i].time < r[j].time
    {
      assert r[j] == rest[j - 1];
      if i > 0 {
        assert r[i] == rest[i - 1];
      }
    }
  }

  /** Insertion keeps a sequence ascending. */
  lemma {:induction false} InsertKeepsAscending(sorted: seq<Candle>, c: Candle)
    requires Ascending(sorted)
    ensures Ascending(InsertByTime(sorted, c))
    decreases |sorted|
  {
    if sorted != [] && c.time >= sorted[0].time {
      var tail := sorted[1..];
      var rest := InsertByTime(tail, c);
      InsertKeepsAscending(tail, c);
      InsertKeepsLowerBound(tail, c, sorted[0].time);
      ConsAscending(sorted[0], rest);
      assert InsertByTime(sorted, c) == [sorted[0]] + rest;
    }
  }

  /** Insertion of a candle with a new time keeps a sequence strictly ascending. */
  lemma {:induction false} InsertKeepsStrictlyAscending(sorted: seq<Candle>, c: Candle)
    requires StrictlyAscending(sorted) && NewTime(sorted, c)
    ensures StrictlyAscending(InsertByTime(sorted, c))
    decreases |sorted|
  {
    if sorted != [] && c.time >= sorted[0].time {
      var tail := sorted[1..];
      var rest := InsertByTime(tail, c);
      InsertKeepsStrictlyAscending(tail, c);
      assert c.time != sorted[0].time;
      InsertKeepsLowerBound(tail, c, sorted[0].time + 1);
      ConsStrictlyAscending(sorted[0], rest);
      assert InsertByTime(sorted, c) == [sorted[0]] + rest;
    }
  }

  /** With distinct times, the last candle's time is new to any rearrangement of the others. */
  lemma LastHasNewTime(cs: seq<Candle>, others: seq<Candle>)
    requires |cs| > 0 && multiset(others) == multiset(cs[..|cs| - 1])
    ensures DistinctTimes(cs) ==> NewTime(others, cs[|cs| - 1])
  {
    if DistinctTimes(cs) {
      var prefix := cs[..|cs| - 1];
      forall k | 0 <= k < |others| ensures others[k].time != cs[|cs| - 1].time {
        assert others[k] in multiset(prefix);
        var j :| 0 <= j < |prefix| && prefix[j] == others[k];
        assert cs[j] == others[k];
      }
    }
  }

  /**
   * `candlesticks.sort((a, b) => a.time - b.time)`: an ascending permutation of `cs`,
   * strictly ascending when the times are distinct.
   */
  function SortByTime(cs: seq<Candle>): (r: seq<Candle>)
    ensures |r| == |cs| && multiset(r) == multiset(cs)
    ensures Ascending(r)
    ensures DistinctTimes(cs) ==> StrictlyAscending(r)
    decreases |cs|
  {
    if cs == [] then []
    else
      var prefix := cs[..|cs| - 1];
      var last := cs[|cs| - 1];
      var sortedPrefix := SortByTime(prefix);
      assert cs == prefix + [last];
      LastHasNewTime(cs, sortedPrefix);
      InsertKeepsAscending(sortedPrefix, last);
      if DistinctTimes(cs) then
        InsertKeepsStrictlyAscending(sortedPrefix, last);
        InsertByTime(sortedPrefix, last)
      else
        InsertByTime(sortedPrefix, last)
  }

  /**
   * `groups` and `keys` as the first loop of `generateCandlestickData` leaves them after
   * the samples `h`: one group per bucket of `h` holding that bucket's samples in history
   * order, and the keys, each a whole second, listed once each in creation order.
   */
  ghost predicate GroupsOf(groups: map<int, seq<GasPoint>>, keys: seq<int>, h: seq<GasPoint>, intervalMs: int)
    requires intervalMs > 0
  {
    && groups.Keys == Buckets(h, intervalMs)
    && (forall k :: k in groups ==> groups[k] == Group(h, intervalMs, k))
    && (forall k :: k in groups <==> k in keys)
    && (forall m, n :: 0 <= m < n < |keys| ==> keys[m] != keys[n])
    && (forall k :: k in keys ==> k % 1000 == 0)
  }

  /** One pass of the first loop: `point` joins the group of its bucket, created if new. */
  method AddToGroups(groups: map<int, seq<GasPoint>>, keys: seq<int>, ghost h: seq<GasPoint>, point: GasPoint, intervalMs: int)
    returns (groups': map<int, seq<GasPoint>>, keys': seq<int>)
    requires intervalMs > 0 && intervalMs % 1000 == 0
    requires GroupsOf(groups, keys, h, intervalMs)
    ensures GroupsOf(groups', keys', h + [point], intervalMs)
  {
    var intervalStart := BucketStart(point.timestamp, intervalMs);
    BucketOnWholeSecond(point.timestamp, intervalMs);
    GroupSnoc(h, point, intervalMs);
    groups', keys' := groups, keys;
    if intervalStart !in groups' {
      BucketsAreOccupied(h, intervalMs);
      groups' := groups'[intervalStart := []];
      keys' := keys' + [intervalStart];
    }
    groups' := groups'[intervalStart := groups'[intervalStart] + [point]];
  }

  /**
   * The first loop of `generateCandlestickData`: the groups object, keyed by bucket start,
   * each holding its bucket's samples in history order, and its keys in creation order.
   */
  method GroupByInterval(history: seq<GasPoint>, intervalMs: int)
    returns (groups: map<int, seq<GasPoint>>, keys: seq<int>)
    requires intervalMs > 0 && intervalMs % 1000 == 0
    ensures groups.Keys == Buckets(history, intervalMs)
    ensures forall k :: k in groups ==> groups[k] == Group(history, intervalMs, k)
    ensures forall k :: k in groups <==> k in keys
    ensures forall m, n :: 0 <= m < n < |keys| ==> keys[m] != keys[n]
    ensures forall k :: k in keys ==> k % 1000 == 0
  {
    groups := map[];
    keys := [];
    var i := 0;
    while i < |history|
      invariant 0 <= i <= |history|
      invariant GroupsOf(groups, keys, history[..i], intervalMs)
    {
      var point := history[i];
      assert history[..i + 1] == history[..i] + [point];
      groups, keys := AddToGroups(groups, keys, history[..i], point, intervalMs);
      i := i + 1;
    }
    assert history[..i] == history;
  }

  /**
   * The second loop: one candle per key, in key order (every group of the first loop is
   * non-empty, so the source's empty-group guard never skips one).
   */
  method CandlesOfGroups(groups: map<int, seq<GasPoint>>, keys: seq<int>) returns (candlesticks: seq<Candle>)
    requires forall m :: 0 <= m < |keys| ==> keys[m] in groups && |groups[keys[m]]| > 0
    requires forall m :: 0 <= m < |keys| ==> keys[m] % 1000 == 0
    requires forall m, n :: 0 <= m < n < |keys| ==> keys[m] != keys[n]
    ensures |candlesticks| == |keys|
    ensures forall m :: 0 <= m < |keys| ==> candlesticks[m] == CandleOf(keys[m], groups[keys[m]])
    ensures forall m :: 0 <= m < |keys| ==> candlesticks[m].time * 1000 == keys[m]
    ensures DistinctTimes(candlesticks)
  {
    candlesticks := [];
    var j := 0;
    while j < |keys|
      invariant 0 <= j <= |keys|
      invariant |candlesticks| == j
      invariant forall m :: 0 <= m < j ==> candlesticks[m] == CandleOf(keys[m], groups[keys[m]])
      invariant forall m :: 0 <= m < j ==> candlesticks[m].time * 1000 == keys[m]
    {
      var points := groups[keys[j]];
      if |points| > 0 {
        candlesticks := candlesticks + [CandleOf(keys[j], points)];
      }
      j := j + 1;
    }
  }

  /**
   * `generateCandlestickData`: groups the history by bucket, builds one candle per
   * group, and sorts the candles by time. The result is empty for an empty history, is
   * strictly ascending in time, has exactly the candle of its bucket at every time it
   * holds, and has a candle for the bucket of every sample: one candle per occupied
   * bucket, so never more candles than samples.
   */
  method GenerateCandlestickData(history: seq<GasPoint>, timeframe: Timeframe) returns (candles: seq<Candle>)
    ensures history == [] ==> candles == []
    ensures |candles| == |Buckets(history, IntervalMs(timeframe))|
    ensures |candles| <= |history|
    ensures StrictlyAscending(candles)
    ensures forall c :: c in candles ==> IsBucketCandle(history, IntervalMs(timeframe), c)
    ensures forall p :: p in history ==>
      exists c :: c in candles && c.time * 1000 == BucketStart(p.timestamp, IntervalMs(timeframe))
  {
    if |history| == 0 {
      return [];
    }
    var intervalMs := IntervalMs(timeframe);
    var groups, keys := GroupByInterval(history, intervalMs);
    BucketsAreOccupied(history, intervalMs);
    var unsorted := CandlesOfGroups(groups, keys);
    candles := SortByTime(unsorted);
    DistinctKeysCount(keys, groups.Keys);
    BucketsAtMostSamples(history, intervalMs);

    forall c | c in candles
      ensures IsBucketCandle(history, intervalMs, c)
    {
      assert c in multiset(unsorted);
      var m :| 0 <= m < |unsorted| && unsorted[m] == c;
      assert keys[m] in keys;
    }
    forall p | p in history
      ensures exists c :: c in candles && c.time * 1000 == BucketStart(p.timestamp, intervalMs)
    {
      var k := BucketStart(p.timestamp, intervalMs);
      var m :| 0 <= m < |keys| && keys[m] == k;
      assert unsorted[m] in multiset(candles);
    }
  }

  /** `{ change, percentage }`; the percentage is absent where JavaScript divides by zero. */
  datatype PriceChange = PriceChange(change: real, percentage: Option<real>)

  /**
   * `getPriceChange` for the selected chain: zero with fewer than two samples, otherwise
   * the last total fee minus the one before, and that change as a percentage of the
   * earlier fee when it is non-zero.
   */
  function GetPriceChange(s: GasState): (r: PriceChange)
    ensures var h := s.chains.Get(s.selectedChain).history;
      && (|h| < 2 ==> r == PriceChange(0.0, Some(0.0)))
      && (|h| >= 2 ==> r.change == h[|h| - 1].totalFee - h[|h| - 2].totalFee)
      && (|h| >= 2 ==> (r.percentage.Some? <==> h[|h| - 2].totalFee != 0.0))
      && (|h| >= 2 && r.percentage.Some? ==> r.percentage.value * h[|h| - 2].totalFee == r.change * 100.0)
  {
    var h := s.chains.Get(s.selectedChain).history;
    if |h| < 2 then PriceChange(0.0, Some(0.0))
    else
      var current := h[|h| - 1];
      var previous := h[|h| - 2];
      var change := current.totalFee - previous.totalFee;
      PriceChange(change, if previous.totalFee == 0.0 then None else Some((change / previous.totalFee) * 100.0))
  }

  /** The chart's trend figure and the selected chain's widget icon always agree in sign. */
  lemma ChangeAgreesWithTrend(s: GasState)
    ensures var t := GasPriceWidget.TrendOf(s.chains.Get(s.selectedChain).history);
      && (GetPriceChange(s).change > 0.0 <==> t == GasPriceWidget.Up)
      && (GetPriceChange(s).change < 0.0 <==> t == GasPriceWidget.Down)
      && (GetPriceChange(s).change == 0.0 <==> t == GasPriceWidget.Neutral)
  {
  }

  /**
   * `getCurrentPrice` (before formatting): the selected chain's base plus priority fee,
   * the same figure as that chain's widget shows.
   */
  function GetCurrentPrice(s: GasState): (r: real)
    ensures r == GasPriceWidget.DisplayedTotal(s.chains.Get(s.selectedChain))
  {
    var chainData := s.chains.Get(s.selectedChain);
    chainData.baseFee + chainData.priorityFee
  }
}
