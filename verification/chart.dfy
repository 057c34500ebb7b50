/** ChartManager (chartmanager.cpp): the price chart, shown either as a
    time-series line or as candlesticks, fed by realtime quotes (a sliding
    window of at most MAX_SAMPLES of them) or by a daily history.

    The Qt chart objects are modelled by their contents: the line series is
    `linePoints`, the candlestick series `seriesSets`, the axes' ranges
    `axisX` / `axisY` (None until first set) and the X axis tick count
    `tickCount`. QDateTime::toMSecsSinceEpoch is a pair of conversions given
    at construction. */
module Chart {
  import opened Text
  import opened Calendar
  import opened WireFormat

  const MAX_VISIBLE_POINTS: nat := 20
  const MAX_SAMPLES: nat := 50
  const MAX_TICKS: nat := 10

  datatype ChartType = TimeSeries | Candlestick

  /** A QCandlestickSet: open, high, low, close and its timestamp tag. */
  datatype Candle = Candle(open: real, high: real, low: real, close: real, tag: int)

  /** A point of the line series: milliseconds since the epoch, price. */
  datatype Point = Point(x: int, y: real)

  /** An axis range. */
  datatype Range<T> = Range(low: T, high: T)

  // ---------------------------------------------------------------------------
  // The realtime window

  /** One realtime sample added to a window: the oldest sample is dropped
      once the window holds MAX_SAMPLES or more. */
  function Slide<T>(window: seq<T>, x: T): seq<T>
  {
    if |window| >= MAX_SAMPLES then window[1..] + [x] else window + [x]
  }

  predicate IsSuffix<T(==)>(w: seq<T>, h: seq<T>)
  {
    |w| <= |h| && h[|h| - |w|..] == w
  }

  /** The window ends with the new sample, grows by one until it holds
      MAX_SAMPLES, then keeps its length; so a window of at most MAX_SAMPLES
      never exceeds it. */
  lemma SlideLength<T>(window: seq<T>, x: T)
    ensures |Slide(window, x)| == if |window| >= MAX_SAMPLES then |window| else |window| + 1
    ensures Slide(window, x)[|Slide(window, x)| - 1] == x
    ensures |window| <= MAX_SAMPLES ==> |Slide(window, x)| <= MAX_SAMPLES
  {
  }

  /** The window always holds the most recent samples, in arrival order. */
  lemma SlideSuffix<T>(window: seq<T>, history: seq<T>, x: T)
    requires IsSuffix(window, history)
    ensures IsSuffix(Slide(window, x), history + [x])
  {
    var h := history + [x];
    if |window| >= MAX_SAMPLES {
      assert h[|h| - |window|..] == history[|history| - |window| + 1..] + [x];
      assert history[|history| - |window| + 1..] == window[1..];
    } else {
      assert h[|h| - |window| - 1..] == history[|history| - |window|..] + [x];
    }
  }

  /** Sliding a window repeatedly over a run of samples. */
  function SlideAll<T>(window: seq<T>, xs: seq<T>): seq<T>
    decreases |xs|
  {
    if xs == [] then window else SlideAll(Slide(window, xs[0]), xs[1..])
  }

  /** A window longer than MAX_SAMPLES (after a history load) keeps its
      length under any number of realtime samples; it never shrinks back to
      MAX_SAMPLES. */
  lemma {:induction false} LongWindowKeepsLength<T>(window: seq<T>, xs: seq<T>)
    requires |window| >= MAX_SAMPLES
    ensures |SlideAll(window, xs)| == |window|
    decreases |xs|
  {
    if xs != [] {
      LongWindowKeepsLength(Slide(window, xs[0]), xs[1..]);
    }
  }

  /** A window that starts at or below MAX_SAMPLES stays at or below it. */
  lemma {:induction false} ShortWindowStaysBounded<T>(window: seq<T>, xs: seq<T>)
    requires |window| <= MAX_SAMPLES
    ensures |SlideAll(window, xs)| <= MAX_SAMPLES
    ensures |SlideAll(window, xs)| == if |window| + |xs| <= MAX_SAMPLES then |window| + |xs| else MAX_SAMPLES
    decreases |xs|
  {
    if xs != [] {
      SlideLength(window, xs[0]);
      ShortWindowStaysBounded(Slide(window, xs[0]), xs[1..]);
    }
  }

  /** The line series drawn from parallel times and prices. */
  function Zip(times: seq<int>, prices: seq<real>): (points: seq<Point>)
    requires |times| == |prices|
    ensures |points| == |prices|
  {
    seq(|prices|, i requires 0 <= i < |prices| => Point(times[i], prices[i]))
  }

  lemma ZipStep(times: seq<int>, prices: seq<real>, i: nat)
    requires |times| == |prices| && i < |prices|
    ensures Zip(times[..i + 1], prices[..i + 1]) == Zip(times[..i], prices[..i]) + [Point(times[i], prices[i])]
  {
    assert times[..i + 1][..i] == times[..i];
    assert prices[..i + 1][..i] == prices[..i];
  }

  // ---------------------------------------------------------------------------
  // Axis ranges

  /** The least element (std::min_element). */
  function SeqMin(s: seq<real>): (m: real)
    requires s != []
    ensures exists i :: 0 <= i < |s| && s[i] == m
    ensures forall i :: 0 <= i < |s| ==> m <= s[i]
  {
    if |s| == 1 then s[0]
    else
      var rest := SeqMin(s[1..]);
      assert forall i :: 1 <= i < |s| ==> s[i] == s[1..][i - 1];
      if s[0] <= rest then s[0] else rest
  }

  /** The greatest element (std::max_element). */
  function SeqMax(s: seq<real>): (m: real)
    requires s != []
    ensures exists i :: 0 <= i < |s| && s[i] == m
    ensures forall i :: 0 <= i < |s| ==> s[i] <= m
  {
    if |s| == 1 then s[0]
    else
      var rest := SeqMax(s[1..]);
      assert forall i :: 1 <= i < |s| ==> s[i] == s[1..][i - 1];
      if s[0] >= rest then s[0] else rest
  }

  /** [lo, hi] widened by a tenth of its width on each side. */
  function MarginRange(lo: real, hi: real): (r: Range<real>)
    ensures r.high - r.low == (hi - lo) * 1.2
    ensures lo <= hi ==> r.low <= lo && hi <= r.high
    ensures r.low <= r.high <==> lo <= hi
  {
    var margin := (hi - lo) * 0.1;
    Range(lo - margin, hi + margin)
  }

  /** The price axis of the line view (updateAxisRange). */
  function PriceRange(prices: seq<real>): Range<real>
    requires prices != []
  {
    MarginRange(SeqMin(prices), SeqMax(prices))
  }

  /** Every price lies within the price axis of the line view. */
  lemma PriceRangeCovers(prices: seq<real>)
    requires prices != []
    ensures forall i :: 0 <= i < |prices| ==> PriceRange(prices).low <= prices[i] <= PriceRange(prices).high
  {
    var lo, hi := SeqMin(prices), SeqMax(prices);
    assert lo <= prices[0] <= hi;
  }

  /** std::min(MAX_VISIBLE_POINTS, n). */
  function VisibleCount(n: nat): nat
  {
    if MAX_VISIBLE_POINTS < n then MAX_VISIBLE_POINTS else n
  }

  /** std::max(0, n - VisibleCount(n)). */
  function StartIndex(n: nat): nat
  {
    if n - VisibleCount(n) > 0 then n - VisibleCount(n) else 0
  }

  /** The candlestick view shows the last min(20, n) candles. */
  lemma VisibleWindow(n: nat)
    requires n > 0
    ensures StartIndex(n) < n && n - StartIndex(n) == VisibleCount(n)
    ensures n <= MAX_VISIBLE_POINTS ==> StartIndex(n) == 0
    ensures n > MAX_VISIBLE_POINTS ==> n - StartIndex(n) == MAX_VISIBLE_POINTS
  {
  }

  lemma VisibleWindowExamples()
    ensures StartIndex(5) == 0 && VisibleCount(5) == 5
    ensures StartIndex(37) == 17 && VisibleCount(37) == 20
  {
  }

  function Lows(cs: seq<Candle>): (r: seq<real>)
    ensures |r| == |cs|
  {
    seq(|cs|, k requires 0 <= k < |cs| => cs[k].low)
  }

  function Highs(cs: seq<Candle>): (r: seq<real>)
    ensures |r| == |cs|
  {
    seq(|cs|, k requires 0 <= k < |cs| => cs[k].high)
  }

  /** The candles on screen. */
  function Visible(cs: seq<Candle>): seq<Candle>
  {
    cs[StartIndex(|cs|)..]
  }

  /** The price axis of the candlestick view: lowest visible low to highest
      visible high, widened by a tenth on each side. */
  function CandleRange(cs: seq<Candle>): Range<real>
    requires cs != []
  {
    VisibleWindow(|cs|);
    MarginRange(SeqMin(Lows(Visible(cs))), SeqMax(Highs(Visible(cs))))
  }

  /** The time axis of the candlestick view: the tags of the first visible
      and the last series set. */
  function CandleTimeRange(sets: seq<Candle>): Range<int>
    requires sets != []
  {
    VisibleWindow(|sets|);
    Range(sets[StartIndex(|sets|)].tag, sets[|sets| - 1].tag)
  }

  /** When the lowest visible low does not exceed the highest visible high,
      every visible candle's low and high lie within the price axis; when it
      does, the axis is inverted. */
  lemma CandleRangeCovers(cs: seq<Candle>)
    requires cs != []
    ensures var v := Visible(cs);
      SeqMin(Lows(v)) <= SeqMax(Highs(v)) ==>
        forall k :: 0 <= k < |v| ==> CandleRange(cs).low <= v[k].low && v[k].high <= CandleRange(cs).high
    ensures CandleRange(cs).low <= CandleRange(cs).high <==> SeqMin(Lows(Visible(cs))) <= SeqMax(Highs(Visible(cs)))
  {
    VisibleWindow(|cs|);
    var v := Visible(cs);
    var lo, hi := SeqMin(Lows(v)), SeqMax(Highs(v));
    forall k | 0 <= k < |v|
      ensures lo <= v[k].low && v[k].high <= hi
    {
      assert Lows(v)[k] == v[k].low && Highs(v)[k] == v[k].high;
    }
  }

  /** A candle whose low is above another's high (a quote with swapped
      fields, say) makes the candlestick price axis inverted. */
  lemma InvertedCandleAxis()
    ensures var cs := [Candle(1.0, 2.0, 5.0, 1.0, 0)];
      CandleRange(cs).low > CandleRange(cs).high
  {
    var cs := [Candle(1.0, 2.0, 5.0, 1.0, 0)];
    assert Visible(cs) == cs;
    assert Lows(cs) == [5.0] && Highs(cs) == [2.0];
  }

  /** The candlestick sets built from a history: tagged by position. */
  function IndexedCandles(data: HistoricalData): (cs: seq<Candle>)
    requires Aligned(data)
    ensures |cs| == |data.timestamps|
  {
    seq(|data.timestamps|, i requires 0 <= i < |data.timestamps| =>
      Candle(data.openPrices[i], data.highPrices[i], data.lowPrices[i], data.closePrices[i], i))
  }

  /** The candlestick series built from a history: tagged by time. */
  function TimedCandles(data: HistoricalData, dayMsecs: Date -> int): (cs: seq<Candle>)
    requires Aligned(data)
    ensures |cs| == |data.timestamps|
  {
    seq(|data.timestamps|, i requires 0 <= i < |data.timestamps| =>
      Candle(data.openPrices[i], data.highPrices[i], data.lowPrices[i], data.closePrices[i], dayMsecs(data.timestamps[i])))
  }

  function DayTimes(days: seq<Date>, dayMsecs: Date -> int): (ts: seq<int>)
    ensures |ts| == |days|
  {
    seq(|days|, i requires 0 <= i < |days| => dayMsecs(days[i]))
  }

  class ChartManager {
    /** QDateTime::toMSecsSinceEpoch of a realtime quote's timestamp. */
    const quoteMsecs: Option<DateTime> -> int
    /** QDateTime::toMSecsSinceEpoch of a history day. */
    const dayMsecs: Date -> int

    var prices: seq<real>
    var times: seq<int>
    var sampleCount: int
    var candlestickData: seq<Candle>
    var seriesSets: seq<Candle>
    var linePoints: seq<Point>
    var currentType: ChartType
    var lineVisible: bool
    var candleVisible: bool
    var axisX: Option<Range<int>>
    var axisY: Option<Range<real>>
    var tickCount: Option<int>

    /** The sample count is the window length; the candle list and the
        candlestick series stay in step; the visible series is the one of
        the current type; the line view shows the window. */
    ghost predicate Valid()
      reads this
    {
      |times| == |prices| && sampleCount == |prices| && |seriesSets| == |candlestickData|
      && lineVisible == (currentType == TimeSeries) && candleVisible == (currentType == Candlestick)
      && (currentType == TimeSeries ==> linePoints == Zip(times, prices))
    }

    constructor(quoteMsecs: Option<DateTime> -> int, dayMsecs: Date -> int)
      ensures Valid()
      ensures this.quoteMsecs == quoteMsecs && this.dayMsecs == dayMsecs
      ensures prices == [] && times == [] && candlestickData == [] && seriesSets == [] && linePoints == []
      ensures currentType == TimeSeries && lineVisible && !candleVisible
      ensures axisX.None? && axisY.None? && tickCount.None?
    {
      this.quoteMsecs := quoteMsecs;
      this.dayMsecs := dayMsecs;
      prices := [];
      times := [];
      sampleCount := 0;
      candlestickData := [];
      seriesSets := [];
      linePoints := [];
      currentType := TimeSeries;
      lineVisible := true;
      candleVisible := false;
      axisX := None;
      axisY := None;
      tickCount := None;
    }

    /** clearData: every sample and candle is dropped. */
    method ClearData()
      requires Valid()
      modifies this`prices, this`times, this`sampleCount, this`linePoints, this`candlestickData, this`seriesSets
      ensures Valid()
      ensures prices == [] && times == [] && sampleCount == 0 && linePoints == []
      ensures candlestickData == [] && seriesSets == []
    {
      prices := [];
      times := [];
      sampleCount := 0;
      linePoints := [];
      candlestickData := [];
      seriesSets := [];
    }

    /** updateAxisRange: with samples present, the time axis runs from the
        first to the last sample time and the price axis covers every price. */
    method UpdateAxisRange()
      requires |times| == |prices|
      modifies this`axisX, this`axisY
      ensures prices == [] ==> axisX == old(axisX) && axisY == old(axisY)
      ensures prices != [] ==>
        axisX == Some(Range(times[0], times[|times| - 1])) && axisY == Some(PriceRange(prices))
    {
      if prices == [] {
        return;
      }
      axisX := Some(Range(times[0], times[|times| - 1]));
      var minPrice := SeqMin(prices);
      var maxPrice := SeqMax(prices);
      var margin := (maxPrice - minPrice) * 0.1;
      axisY := Some(Range(minPrice - margin, maxPrice + margin));
    }

    /** The loop that redraws the line series from the window. */
    method RebuildLine()
      requires |times| == |prices|
      modifies this`linePoints
      ensures linePoints == Zip(times, prices)
    {
      linePoints := [];
      var i := 0;
      while i < |prices|
        invariant 0 <= i <= |prices|
        invariant linePoints == Zip(times[..i], prices[..i])
      {
        ZipStep(times, prices, i);
        linePoints := linePoints + [Point(times[i], prices[i])];
        i := i + 1;
      }
      assert times[..i] == times && prices[..i] == prices;
    }

    /** updateTimeSeriesChart: the line is redrawn from the window and the
        axes follow it. */
    method UpdateTimeSeriesChart()
      requires |times| == |prices|
      modifies this`linePoints, this`axisX, this`axisY
      ensures linePoints == Zip(times, prices)
      ensures prices == [] ==> axisX == old(axisX) && axisY == old(axisY)
      ensures prices != [] ==>
        axisX == Some(Range(times[0], times[|times| - 1])) && axisY == Some(PriceRange(prices))
    {
      RebuildLine();
      UpdateAxisRange();
    }

    /** updateCandlestickChart: with candles present, the axes frame the
        last min(20, n) of them, with at most ten ticks. */
    method UpdateCandlestickChart()
      requires |seriesSets| == |candlestickData|
      modifies this`axisX, this`axisY, this`tickCount
      ensures candlestickData == [] ==> axisX == old(axisX) && axisY == old(axisY) && tickCount == old(tickCount)
      ensures candlestickData != [] ==>
        axisX == Some(CandleTimeRange(seriesSets)) && axisY == Some(CandleRange(candlestickData))
        && tickCount == Some(if VisibleCount(|candlestickData|) < MAX_TICKS then VisibleCount(|candlestickData|) else MAX_TICKS)
    {
      if candlestickData == [] {
        return;
      }
      var dataSize := |candlestickData|;
      var visiblePoints := VisibleCount(dataSize);
      var startPoint := StartIndex(dataSize);
      VisibleWindow(dataSize);
      axisX := Some(Range(seriesSets[startPoint].tag, seriesSets[dataSize - 1].tag));
      tickCount := Some(if visiblePoints < MAX_TICKS then visiblePoints else MAX_TICKS);

      var visibleHighPrices: seq<real> := [];
      var visibleLowPrices: seq<real> := [];
      var i := startPoint;
      while i < dataSize
        invariant startPoint <= i <= dataSize
        invariant visibleHighPrices == Highs(candlestickData[startPoint..i])
        invariant visibleLowPrices == Lows(candlestickData[startPoint..i])
      {
        visibleHighPrices := visibleHighPrices + [candlestickData[i].high];
        visibleLowPrices := visibleLowPrices + [candlestickData[i].low];
        i := i + 1;
      }
      assert candlestickData[startPoint..i] == Visible(candlestickData);
      assert visibleLowPrices == Lows(Visible(candlestickData));
      assert visibleHighPrices == Highs(Visible(candlestickData));
      var minPrice := SeqMin(visibleLowPrices);
      var maxPrice := SeqMax(visibleHighPrices);
      var margin := (maxPrice - minPrice) * 0.1;
      axisY := Some(Range(minPrice - margin, maxPrice + margin));
      assert axisY == Some(MarginRange(minPrice, maxPrice));
    }

    /** The view refresh shared by switchChartType and updateHistoricalData:
        the series of the current type is redrawn and framed. */
    method UpdateView()
      requires |times| == |prices| && |seriesSets| == |candlestickData|
      modifies this`linePoints, this`axisX, this`axisY, this`tickCount
      ensures currentType == TimeSeries ==> linePoints == Zip(times, prices) && tickCount == old(tickCount)
      ensures currentType == Candlestick ==> linePoints == old(linePoints)
      ensures currentType == TimeSeries && prices == [] ==> axisX == old(axisX) && axisY == old(axisY)
      ensures currentType == TimeSeries && prices != [] ==>
        axisX == Some(Range(times[0], times[|times| - 1])) && axisY == Some(PriceRange(prices))
      ensures currentType == Candlestick && candlestickData == [] ==>
        axisX == old(axisX) && axisY == old(axisY) && tickCount == old(tickCount)
      ensures currentType == Candlestick && candlestickData != [] ==>
        axisX == Some(CandleTimeRange(seriesSets)) && axisY == Some(CandleRange(candlestickData))
        && tickCount == Some(if VisibleCount(|candlestickData|) < MAX_TICKS then VisibleCount(|candlestickData|) else MAX_TICKS)
    {
      if currentType == TimeSeries {
        UpdateTimeSeriesChart();
      } else {
        UpdateCandlestickChart();
      }
    }

    /** switchChartType: switching to the other type shows its series and
        refreshes its view; switching to the current type does nothing. */
    method SwitchChartType(chartType: ChartType)
      requires Valid()
      modifies this`currentType, this`lineVisible, this`candleVisible, this`linePoints
      modifies this`axisX, this`axisY, this`tickCount
      ensures Valid()
      ensures chartType == old(currentType) ==> unchanged(this)
      ensures currentType == chartType && lineVisible == (chartType == TimeSeries) && candleVisible == (chartType == Candlestick)
      ensures chartType != old(currentType) && chartType == Candlestick ==> linePoints == old(linePoints)
      ensures chartType != old(currentType) && chartType == Candlestick && candlestickData == [] ==>
        axisX == old(axisX) && axisY == old(axisY) && tickCount == old(tickCount)
      ensures chartType != old(currentType) && chartType == Candlestick && candlestickData != [] ==>
        axisX == Some(CandleTimeRange(seriesSets)) && axisY == Some(CandleRange(candlestickData))
        && tickCount == Some(if VisibleCount(|candlestickData|) < MAX_TICKS then VisibleCount(|candlestickData|) else MAX_TICKS)
      ensures chartType != old(currentType) && chartType == TimeSeries ==>
        linePoints == Zip(times, prices) && tickCount == old(tickCount)
      ensures chartType != old(currentType) && chartType == TimeSeries && prices == [] ==>
        axisX == old(axisX) && axisY == old(axisY)
      ensures chartType != old(currentType) && chartType == TimeSeries && prices != [] ==>
        axisX == Some(Range(times[0], times[|times| - 1])) && axisY == Some(PriceRange(prices))
    {
      if currentType == chartType {
        return;
      }
      currentType := chartType;
      lineVisible := chartType == TimeSeries;
      candleVisible := chartType == Candlestick;
      UpdateView();
    }

    /** The first half of updateRealtimeData: a price and a time slide into
        the window, and the line view, when shown, draws the new point. */
    method AddSample(price: real, time: int)
      requires Valid()
      modifies this`prices, this`times, this`sampleCount, this`linePoints
      ensures Valid()
      ensures prices == Slide(old(prices), price) && times == Slide(old(times), time)
      ensures currentType == Candlestick ==> linePoints == old(linePoints)
    {
      if sampleCount >= MAX_SAMPLES {
        prices := prices[1..];
        times := times[1..];
        if currentType == TimeSeries {
          RebuildLine();
        }
      } else {
        sampleCount := sampleCount + 1;
      }
      prices := prices + [price];
      times := times + [time];
      if currentType == TimeSeries {
        ZipStep(times, prices, |prices| - 1);
        assert times[..|times| - 1] + [times[|times| - 1]] == times;
        assert prices[..|prices| - 1] + [prices[|prices| - 1]] == prices;
        linePoints := linePoints + [Point(time, price)];
      }
    }

    /** updateRealtimeData: the quote's price and time slide into the
        window; the line view draws it, the candlestick view adds a candle
        (whose close is the quote's previous close) tagged with the sample
        count, and the view's axes are refreshed. */
    method UpdateRealtimeData(data: StockData)
      requires Valid()
      modifies this`prices, this`times, this`sampleCount, this`linePoints, this`candlestickData, this`seriesSets
      modifies this`axisX, this`axisY, this`tickCount
      ensures Valid()
      ensures prices == Slide(old(prices), data.currentPrice)
      ensures times == Slide(old(times), quoteMsecs(data.timestamp))
      ensures currentType == TimeSeries ==>
        candlestickData == old(candlestickData) && seriesSets == old(seriesSets)
        && axisX == Some(Range(times[0], times[|times| - 1])) && axisY == Some(PriceRange(prices))
        && linePoints == Zip(times, prices) && tickCount == old(tickCount)
      ensures currentType == Candlestick ==>
        linePoints == old(linePoints)
        && tickCount == Some(if VisibleCount(|candlestickData|) < MAX_TICKS then VisibleCount(|candlestickData|) else MAX_TICKS)
      ensures currentType == Candlestick ==>
        candlestickData == old(candlestickData)
          + [Candle(data.openPrice, data.highPrice, data.lowPrice, data.closePrice, sampleCount)]
        && seriesSets == old(seriesSets)
          + [Candle(data.openPrice, data.highPrice, data.lowPrice, data.closePrice, quoteMsecs(data.timestamp))]
        && axisX == Some(CandleTimeRange(seriesSets)) && axisY == Some(CandleRange(candlestickData))
    {
      AddSample(data.currentPrice, quoteMsecs(data.timestamp));
      SlideLength(old(prices), data.currentPrice);
      if currentType == TimeSeries {
        UpdateAxisRange();
      } else {
        candlestickData := candlestickData
          + [Candle(data.openPrice, data.highPrice, data.lowPrice, data.closePrice, sampleCount)];
        seriesSets := seriesSets
          + [Candle(data.openPrice, data.highPrice, data.lowPrice, data.closePrice, quoteMsecs(data.timestamp))];
        UpdateCandlestickChart();
      }
    }

    /** The loop of updateHistoricalData: the cleared chart is filled with
        one sample, one candle and one series set per day. */
    method LoadHistory(data: HistoricalData)
      requires Aligned(data)
      modifies this`prices, this`times, this`sampleCount, this`candlestickData, this`seriesSets
      ensures prices == old(prices) + data.closePrices
      ensures times == old(times) + DayTimes(data.timestamps, dayMsecs)
      ensures sampleCount == old(sampleCount) + |data.timestamps|
      ensures candlestickData == old(candlestickData) + IndexedCandles(data)
      ensures seriesSets == old(seriesSets) + TimedCandles(data, dayMsecs)
    {
      var n := |data.timestamps|;
      var i := 0;
      while i < n
        invariant 0 <= i <= n
        invariant candlestickData == old(candlestickData) + IndexedCandles(data)[..i]
        invariant seriesSets == old(seriesSets) + TimedCandles(data, dayMsecs)[..i]
        invariant prices == old(prices) + data.closePrices[..i]
        invariant times == old(times) + DayTimes(data.timestamps, dayMsecs)[..i]
        invariant sampleCount == old(sampleCount) + i
      {
        AppendAssoc(old(candlestickData), IndexedCandles(data)[..i], [IndexedCandles(data)[i]]);
        assert IndexedCandles(data)[..i + 1] == IndexedCandles(data)[..i] + [IndexedCandles(data)[i]];
        AppendAssoc(old(seriesSets), TimedCandles(data, dayMsecs)[..i], [TimedCandles(data, dayMsecs)[i]]);
        assert TimedCandles(data, dayMsecs)[..i + 1] == TimedCandles(data, dayMsecs)[..i] + [TimedCandles(data, dayMsecs)[i]];
        AppendAssoc(old(prices), data.closePrices[..i], [data.closePrices[i]]);
        assert data.closePrices[..i + 1] == data.closePrices[..i] + [data.closePrices[i]];
        AppendAssoc(old(times), DayTimes(data.timestamps, dayMsecs)[..i], [DayTimes(data.timestamps, dayMsecs)[i]]);
        assert DayTimes(data.timestamps, dayMsecs)[..i + 1] == DayTimes(data.timestamps, dayMsecs)[..i] + [DayTimes(data.timestamps, dayMsecs)[i]];
        candlestickData := candlestickData
          + [Candle(data.openPrices[i], data.highPrices[i], data.lowPrices[i], data.closePrices[i], i)];
        seriesSets := seriesSets
          + [Candle(data.openPrices[i], data.highPrices[i], data.lowPrices[i], data.closePrices[i], dayMsecs(data.timestamps[i]))];
        prices := prices + [data.closePrices[i]];
        times := times + [dayMsecs(data.timestamps[i])];
        sampleCount := sampleCount + 1;
        i := i + 1;
      }
      assert IndexedCandles(data)[..n] == IndexedCandles(data);
      assert TimedCandles(data, dayMsecs)[..n] == TimedCandles(data, dayMsecs);
      assert data.closePrices[..n] == data.closePrices;
      assert DayTimes(data.timestamps, dayMsecs)[..n] == DayTimes(data.timestamps, dayMsecs);
    }

    /** updateHistoricalData: the chart is cleared and refilled from the
        history: closing prices and day times become the window, one candle
        per day (tagged by position) and one series set per day (tagged by
        time); then the current view is refreshed. The result depends only
        on the history and the chart type, so a repeated call changes
        nothing. */
    method UpdateHistoricalData(data: HistoricalData)
      requires Valid() && Aligned(data)
      modifies this`prices, this`times, this`sampleCount, this`linePoints, this`candlestickData, this`seriesSets
      modifies this`axisX, this`axisY, this`tickCount
      ensures Valid()
      ensures prices == data.closePrices && times == DayTimes(data.timestamps, dayMsecs)
      ensures sampleCount == |data.timestamps|
      ensures candlestickData == IndexedCandles(data) && seriesSets == TimedCandles(data, dayMsecs)
      ensures currentType == TimeSeries ==> linePoints == Zip(times, prices) && tickCount == old(tickCount)
      ensures currentType == Candlestick ==> linePoints == []
      ensures currentType == TimeSeries && prices == [] ==> axisX == old(axisX) && axisY == old(axisY)
      ensures currentType == TimeSeries && prices != [] ==>
        axisX == Some(Range(times[0], times[|times| - 1])) && axisY == Some(PriceRange(prices))
      ensures currentType == Candlestick && candlestickData == [] ==>
        axisX == old(axisX) && axisY == old(axisY) && tickCount == old(tickCount)
      ensures currentType == Candlestick && candlestickData != [] ==>
        axisX == Some(CandleTimeRange(seriesSets)) && axisY == Some(CandleRange(candlestickData))
        && tickCount == Some(if VisibleCount(|candlestickData|) < MAX_TICKS then VisibleCount(|candlestickData|) else MAX_TICKS)
    {
      Reload(data);
      UpdateView();
    }

    /** The first half of updateHistoricalData: clear, then load every day. */
    method Reload(data: HistoricalData)
      requires Valid() && Aligned(data)
      modifies this`prices, this`times, this`sampleCount, this`linePoints, this`candlestickData, this`seriesSets
      ensures prices == data.closePrices && times == DayTimes(data.timestamps, dayMsecs)
      ensures sampleCount == |data.timestamps|
      ensures candlestickData == IndexedCandles(data) && seriesSets == TimedCandles(data, dayMsecs)
      ensures linePoints == []
    {
      ClearData();
      LoadHistory(data);
      assert [] + data.closePrices == data.closePrices;
      assert [] + DayTimes(data.timestamps, dayMsecs) == DayTimes(data.timestamps, dayMsecs);
      assert [] + IndexedCandles(data) == IndexedCandles(data);
      assert [] + TimedCandles(data, dayMsecs) == TimedCandles(data, dayMsecs);
    }
  }

  /** After a history of more than MAX_SAMPLES days, realtime quotes slide
      through a window that keeps the history's length. */
  method LongHistoryThenQuote(data: HistoricalData, quote: StockData) returns (c: ChartManager)
    requires Aligned(data) && |data.timestamps| > MAX_SAMPLES
    ensures |c.prices| == |data.timestamps| && c.sampleCount == |data.timestamps|
    ensures c.prices == data.closePrices[1..] + [quote.currentPrice]
  {
    c := new ChartManager(t => 0, d => 0);
    c.UpdateHistoricalData(data);
    c.UpdateRealtimeData(quote);
  }
}
