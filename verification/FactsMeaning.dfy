/** What the daily facts of a bar say, in terms of the prices of the bars up to it. */
module FactsMeaning {
  import opened Numbers
  import opened Wrappers
  import opened Rounding
  import opened Bars
  import opened PaFacts

  // ----- what a rounded figure stands for

  predicate IsRounded(r: Option<real>, x: Option<real>) {
    (r.Some? <==> x.Some?) && (r.Some? ==> Near(r.value, x.value, 1))
  }

  predicate Divisible(x: Option<real>, y: Option<real>) {
    x.Some? && y.Some? && y.value != 0.0
  }

  /** q is x divided by y, exactly; g is how much x exceeds y, relative to y. */
  predicate IsQuotient(q: Option<real>, x: Option<real>, y: Option<real>) {
    (q.Some? <==> Divisible(x, y)) && (q.Some? ==> Times(q.value, y.value) == x.value)
  }

  predicate IsGrowth(g: Option<real>, x: Option<real>, y: Option<real>) {
    (g.Some? <==> Divisible(x, y)) && (g.Some? ==> Times(g.value + 1.0, y.value) == x.value)
  }

  /** The same, rounded, over a positive y. */
  predicate RoundedQuotient(q: Option<real>, x: Option<real>, y: Option<real>) {
    && (q.Some? <==> Divisible(x, y))
    && (q.Some? && y.value > 0.0 ==>
          x.value - Times(HALF_MICRO, y.value) <= Times(q.value, y.value) <= x.value + Times(HALF_MICRO, y.value))
  }

  predicate RoundedGrowth(g: Option<real>, x: Option<real>, y: Option<real>) {
    && (g.Some? <==> Divisible(x, y))
    && (g.Some? && y.value > 0.0 ==>
          x.value - Times(HALF_MICRO, y.value) <= Times(g.value + 1.0, y.value) <= x.value + Times(HALF_MICRO, y.value))
  }

  lemma QuotientIs(x: Option<real>, y: Option<real>)
    ensures IsQuotient(SafeDiv(x, y), x, y) && RoundedQuotient(Rounded(SafeDiv(x, y)), x, y)
  {
    if Divisible(x, y) && y.value > 0.0 {
      ErrorScales(Round6(x.value / y.value), x.value / y.value, y.value);
    }
    hide Round6;
  }

  lemma GrowthIs(x: Option<real>, y: Option<real>)
    ensures IsGrowth(PctDiff(x, y), x, y) && RoundedGrowth(Rounded(PctDiff(x, y)), x, y)
  {
    if Divisible(x, y) {
      var ratio := x.value / y.value;
      assert ratio * y.value == x.value;
      if y.value > 0.0 {
        ErrorScales(Round6(ratio - 1.0) + 1.0, ratio, y.value);
      }
    }
    hide Round6;
  }

  lemma ErrorScales(rounded: real, exact: real, y: real)
    requires Near(rounded, exact, 1) && y > 0.0
    ensures Times(exact, y) - Times(HALF_MICRO, y) <= Times(rounded, y) <= Times(exact, y) + Times(HALF_MICRO, y)
  {
    ProductNonNegative(rounded - exact + HALF_MICRO, y);
    ProductNonNegative(exact + HALF_MICRO - rounded, y);
  }

  lemma RoundedIs(x: Option<real>)
    ensures IsRounded(Rounded(x), x)
  {
  }

  // ----- means and extremes of the last values

  function SumFrom(values: Column, lo: nat, hi: nat): real
    requires hi <= |values|
  {
    if hi <= lo then 0.0 else SumFrom(values, lo, hi - 1) + values[hi - 1].GetOr(0.0)
  }

  /** m is the mean of the n values up to i, which must all be there. */
  predicate IsMean(m: Option<real>, values: Column, i: int, n: nat)
    requires -1 <= i < |values|
  {
    && (m.Some? <==> i + 1 >= n && forall j :: i - n < j <= i ==> values[j].Some?)
    && (m.Some? ==> Times(m.value, n as real) == SumFrom(values, i + 1 - n, i + 1))
  }

  /** m is the largest of the last n values up to i, as far as they are there. */
  predicate IsTop(m: Option<real>, values: Column, i: int, n: nat)
    requires -1 <= i < |values|
  {
    && (forall j :: 0 <= j <= i && j > i - n && values[j].Some? ==> m.Some? && values[j].value <= m.value)
    && (m.Some? ==> exists j :: 0 <= j <= i && j > i - n && values[j] == m)
  }

  predicate IsBottom(m: Option<real>, values: Column, i: int, n: nat)
    requires -1 <= i < |values|
  {
    && (forall j :: 0 <= j <= i && j > i - n && values[j].Some? ==> m.Some? && values[j].value >= m.value)
    && (m.Some? ==> exists j :: 0 <= j <= i && j > i - n && values[j] == m)
  }

  lemma {:induction false} SumOfSlice(values: Column, lo: nat, hi: nat)
    requires lo <= hi <= |values|
    ensures SumOf(values[lo..hi]) == SumFrom(values, lo, hi)
  {
    if lo < hi {
      SumOfSlice(values, lo, hi - 1);
      assert values[lo..hi][..hi - 1 - lo] == values[lo..hi - 1];
    }
  }

  lemma MeanBack(total: real, n: nat)
    requires n > 0
    ensures Times(total / n as real, n as real) == total
  {
  }

  lemma AverageIsMean(values: Column, i: int, n: nat)
    requires -1 <= i < |values| && n > 0
    ensures IsMean(Average(values, i, n), values, i, n)
  {
    if i + 1 >= n {
      var lo, window := i + 1 - n, WindowAt(values, i, n);
      assert window == values[lo..i + 1];
      assert forall j :: lo <= j <= i ==> values[j] == window[j - lo];
      SumOfSlice(values, lo, i + 1);
      MeanBack(SumOf(window), n);
    }
    hide Times;
  }

  lemma WindowIs(values: Column, i: int, n: nat)
    requires -1 <= i < |values| && n > 0
    ensures var lo := if i + 1 <= n then 0 else i + 1 - n;
      && WindowAt(values, i, n) == values[lo..i + 1]
      && forall j :: lo <= j <= i ==> WindowAt(values, i, n)[j - lo] == values[j]
  {
  }

  lemma RollingIsTop(values: Column, i: int, n: nat)
    requires -1 <= i < |values| && n > 0
    ensures IsTop(RollingMax(values, i, n), values, i, n)
  {
    if i >= 0 {
      var lo, window := if i + 1 <= n then 0 else i + 1 - n, WindowAt(values, i, n);
      WindowIs(values, i, n);
      MaxOfIsMax(window);
      hide MaxOf;
      hide WindowAt;
      if MaxOf(window).Some? {
        var k :| 0 <= k < |window| && window[k] == MaxOf(window);
        assert values[lo + k] == MaxOf(window);
      }
      forall j | lo <= j <= i && values[j].Some?
        ensures MaxOf(window).Some? && values[j].value <= MaxOf(window).value
      {
        assert window[j - lo] == values[j];
      }
    }
  }

  lemma RollingIsBottom(values: Column, i: int, n: nat)
    requires -1 <= i < |values| && n > 0
    ensures IsBottom(RollingMin(values, i, n), values, i, n)
  {
    if i >= 0 {
      var lo, window := if i + 1 <= n then 0 else i + 1 - n, WindowAt(values, i, n);
      WindowIs(values, i, n);
      MinOfIsMin(window);
      hide MinOf;
      hide WindowAt;
      if MinOf(window).Some? {
        var k :| 0 <= k < |window| && window[k] == MinOf(window);
        assert values[lo + k] == MinOf(window);
      }
      forall j | lo <= j <= i && values[j].Some?
        ensures MinOf(window).Some? && values[j].value >= MinOf(window).value
      {
        assert window[j - lo] == values[j];
      }
    }
  }

  /** The largest of the last n, provided they are all there. */
  predicate IsFullTop(m: Option<real>, values: Column, i: int, n: nat)
    requires -1 <= i < |values|
  {
    && (m.Some? <==> i + 1 >= n > 0 && forall j :: i - n < j <= i ==> values[j].Some?)
    && (m.Some? ==> IsTop(m, values, i, n))
  }

  lemma CompleteIsTop(values: Column, i: int, n: nat)
    requires 0 <= i < |values| && n > 0
    ensures IsFullTop(RollingMaxComplete(values, i, n), values, i, n)
  {
    RollingIsTop(values, i, n);
    WindowIs(values, i, n);
    if i + 1 >= n {
      var lo, window := i + 1 - n, WindowAt(values, i, n);
      assert forall j :: lo <= j <= i ==> window[j - lo] == values[j];
      if AllPresent(window) {
        assert window[0].Some?;
        MaxOfIsMax(window);
      }
    }
    hide MaxOf;
  }

  // ----- the percentile rank

  /** How many of the values in a stretch are at most the bound. */
  function AtMost(values: Column, lo: nat, hi: nat, bound: real): nat
    requires hi <= |values|
  {
    if hi <= lo then 0
    else
      AtMost(values, lo, hi - 1, bound) + (if values[hi - 1].Some? && values[hi - 1].value <= bound then 1 else 0)
  }

  /** r is the share of the last n values, all there, that are at most the latest. */
  predicate IsRank(r: Option<real>, values: Column, i: nat, n: nat)
    requires i < |values|
  {
    && (r.Some? <==> i + 1 >= n && forall j :: i - n < j <= i ==> values[j].Some?)
    && (r.Some? ==>
          && values[i].Some? && n > 0
          && Times(r.value, n as real) == AtMost(values, i + 1 - n, i + 1, values[i].value) as real)
  }

  lemma {:induction false} CountsOfSlice(values: Column, lo: nat, hi: nat, bound: real)
    requires lo <= hi <= |values|
    ensures CountAtMost(values[lo..hi], bound) == AtMost(values, lo, hi, bound)
    ensures CountPresent(values[lo..hi]) <= hi - lo
    ensures CountPresent(values[lo..hi]) == hi - lo <==> forall j :: lo <= j < hi ==> values[j].Some?
  {
    if lo < hi {
      CountsOfSlice(values, lo, hi - 1, bound);
      assert values[lo..hi][..hi - 1 - lo] == values[lo..hi - 1];
    }
  }

  lemma RankIs(values: Column, i: nat, n: nat)
    requires i < |values| && n > 0
    ensures IsRank(PercentileRank(values, i, n), values, i, n)
  {
    var lo := if i + 1 <= n then 0 else i + 1 - n;
    WindowIs(values, i, n);
    CountsOfSlice(values, lo, i + 1, values[i].GetOr(0.0));
    hide CountAtMost;
    hide CountPresent;
    hide WindowAt;
    MeanBack(AtMost(values, lo, i + 1, values[i].GetOr(0.0)) as real, n);
    hide Times;
    hide AtMost;
  }

  // ----- the derived columns

  /** The span of a bar and the close of the bar before it, if that is there. */
  predicate IsRange(r: Option<real>, bars: seq<Bar>, j: nat)
    requires j < |bars|
  {
    && (r.Some? <==> HasOhlc(bars[j]))
    && (r.Some? && bars[j].low.value <= bars[j].high.value ==>
          var high, low := bars[j].high.value, bars[j].low.value;
          if j == 0 || bars[j - 1].close.None? then r.value == high - low
          else
            var before := bars[j - 1].close.value;
            r.value == (if before > high then before else high) - (if before < low then before else low))
  }

  /** What a bar spans of its own prices. */
  function Difference(x: Option<real>, y: Option<real>): Option<real> {
    if x.Some? && y.Some? then Some(x.value - y.value) else None
  }

  /** The columns the facts are taken from: each value from its own bar, or it and the one before. */
  ghost predicate ColumnsTell(c: Columns, bars: seq<Bar>) {
    && |c.closes| == |c.highs| == |c.lows| == |c.volumes| == |c.daily| == |c.ranges| == |c.rangePcts| == |bars|
    && forall j :: 0 <= j < |bars| ==>
         && c.closes[j] == bars[j].close && c.highs[j] == bars[j].high && c.lows[j] == bars[j].low
         && c.volumes[j] == bars[j].volume
         && IsGrowth(c.daily[j], bars[j].close, if j == 0 then None else bars[j - 1].close)
         && IsRange(c.ranges[j], bars, j)
         && (if HasOhlc(bars[j])
             then IsQuotient(c.rangePcts[j], Difference(bars[j].high, bars[j].low), bars[j].close)
             else c.rangePcts[j].None?)
  }

  lemma DerivedAre(bars: seq<Bar>, j: nat)
    requires j < |bars|
    ensures IsGrowth(Return(Closes(bars), j, 1), bars[j].close, if j == 0 then None else bars[j - 1].close)
    ensures HasOhlc(bars[j]) ==> IsQuotient(RangePct(bars[j]), Difference(bars[j].high, bars[j].low), bars[j].close)
    ensures IsRange(RangeAt(bars, j), bars, j)
  {
    GrowthIs(bars[j].close, if j == 0 then None else bars[j - 1].close);
    QuotientIs(Difference(bars[j].high, bars[j].low), bars[j].close);
    hide IsGrowth;
    hide IsQuotient;
  }

  lemma ColumnsAre(bars: seq<Bar>)
    ensures ColumnsTell(ColumnsOf(bars), bars)
  {
    hide IsGrowth;
    hide IsQuotient;
    hide IsRange;
    hide RangeAt;
    hide Return;
    forall j | 0 <= j < |bars| {
      DerivedAre(bars, j);
    }
  }

  /** The column of average ranges relative to the close, which the volatility rank is taken in. */
  ghost predicate ShareColumnTells(shares: Column, bars: seq<Bar>, n: nat)
    requires n <= |bars|
  {
    |shares| == n && forall j :: 0 <= j < n ==>
      if HasOhlc(bars[j]) then
        var mean := Average(ColumnsOf(bars).ranges, j, 14);
        IsMean(mean, ColumnsOf(bars).ranges, j, 14) && IsQuotient(shares[j], mean, bars[j].close)
      else shares[j].None?
  }

  lemma SharesAre(bars: seq<Bar>, n: nat)
    requires n <= |bars|
    ensures ShareColumnTells(AtrPcts(bars, n), bars, n)
  {
    forall j | 0 <= j < n && HasOhlc(bars[j])
      ensures var mean := Average(ColumnsOf(bars).ranges, j, 14);
        IsMean(mean, ColumnsOf(bars).ranges, j, 14) && IsQuotient(AtrPcts(bars, n)[j], mean, bars[j].close)
    {
      AverageIsMean(ColumnsOf(bars).ranges, j, 14);
      QuotientIs(Average(ColumnsOf(bars).ranges, j, 14), bars[j].close);
    }
    hide Average;
    hide IsMean;
    hide IsQuotient;
  }

  // ----- the facts of a bar

  /** Its own prices, and where its close lies in its range. */
  predicate OwnTells(f: Facts, bar: Bar) {
    var range, rise := Difference(bar.high, bar.low), Difference(bar.close, bar.low);
    && IsRounded(f.open, bar.open) && IsRounded(f.high, bar.high) && IsRounded(f.low, bar.low)
    && IsRounded(f.close, bar.close) && IsRounded(f.volume, bar.volume) && IsRounded(f.range, range)
    && RoundedQuotient(f.rangePct, range, bar.close) && RoundedQuotient(f.closePositionInRange, rise, range)
    && (range.Some? && rise.Some? && range.value > 0.0 ==>
          && (f.closeNearHigh <==> rise.value >= Times(0.8, range.value))
          && (f.closeNearLow <==> rise.value <= Times(0.2, range.value)))
    && (range == Some(0.0) ==> !f.closeNearHigh && !f.closeNearLow)
  }

  /** An average of the closes, the distance from it, and the side of it. */
  predicate AverageTells(
    sma: Option<real>, distance: Option<real>, above: Option<bool>, mean: Option<real>, c: Columns, close: Option<real>,
    i: nat, n: nat)
    requires i < |c.closes|
  {
    && IsMean(mean, c.closes, i, n) && IsRounded(sma, mean) && RoundedGrowth(distance, close, mean)
    && (above.Some? <==> close.Some? && mean.Some?)
    && (above.Some? ==> (above.value <==> close.value > mean.value))
  }

  /** A return over so many bars. */
  predicate ReturnTells(r: Option<real>, c: Columns, i: nat, lookback: nat)
    requires i < |c.closes|
  {
    RoundedGrowth(r, c.closes[i], if i < lookback then None else c.closes[i - lookback])
  }

  predicate LotteryTells(risk: LotteryRisk, top: Option<real>) {
    && (risk.UnknownRisk? <==> top.None?)
    && (risk.HighRisk? <==> top.Some? && top.value >= 0.08)
    && (risk.MediumRisk? <==> top.Some? && 0.05 <= top.value < 0.08)
  }

  lemma OwnFields(bars: seq<Bar>, i: nat)
    requires i < |bars| && HasOhlc(bars[i])
    ensures var f, bar := FactsAt(bars, i), bars[i];
      var range, rise := Difference(bar.high, bar.low), Difference(bar.close, bar.low);
      && f.open == Rounded(bar.open) && f.high == Rounded(bar.high) && f.low == Rounded(bar.low)
      && f.close == Rounded(bar.close) && f.volume == Rounded(bar.volume) && f.range == Rounded(range)
      && f.rangePct == Rounded(SafeDiv(range, bar.close))
      && f.closePositionInRange == Rounded(SafeDiv(rise, range))
      && (f.closeNearHigh <==> SafeDiv(rise, range).Some? && SafeDiv(rise, range).value >= 0.8)
      && (f.closeNearLow <==> SafeDiv(rise, range).Some? && SafeDiv(rise, range).value <= 0.2)
  {
    hide Average;
    hide RollingMax;
    hide RollingMin;
    hide RollingMaxComplete;
    hide PercentileRank;
    hide SmaSlope;
    hide Return;
    hide Rounded;
    hide SafeDiv;
    hide PctDiff;
    hide ColumnsOf;
    assert Minus(bars[i].high, bars[i].low) == Difference(bars[i].high, bars[i].low);
    assert Minus(bars[i].close, bars[i].low) == Difference(bars[i].close, bars[i].low);
    hide Minus;
    hide Difference;
  }

  lemma OwnIs(bars: seq<Bar>, i: nat)
    requires i < |bars| && HasOhlc(bars[i])
    ensures OwnTells(FactsAt(bars, i), bars[i])
  {
    hide FactsAt;
    hide RoundedQuotient;
    hide Round6;
    hide Times;
    var bar := bars[i];
    var range, rise := Difference(bar.high, bar.low), Difference(bar.close, bar.low);
    OwnFields(bars, i);
    QuotientIs(range, bar.close);
    QuotientIs(rise, range);
    if range.value > 0.0 {
      ShareCompares(rise.value, range.value);
    }
  }

  lemma ShareCompares(part: real, whole: real)
    requires whole > 0.0
    ensures part / whole >= 0.8 <==> part >= Times(0.8, whole)
    ensures part / whole <= 0.2 <==> part <= Times(0.2, whole)
  {
    var share := part / whole;
    assert share * whole == part;
    if share >= 0.8 {
      ProductNonNegative(share - 0.8, whole);
    } else {
      assert (0.8 - share) * whole > 0.0;
    }
    if share <= 0.2 {
      ProductNonNegative(0.2 - share, whole);
    } else {
      assert (share - 0.2) * whole > 0.0;
    }
  }

  lemma AverageFields(bars: seq<Bar>, i: nat)
    requires i < |bars| && HasOhlc(bars[i])
    ensures var f, c, close := FactsAt(bars, i), ColumnsOf(bars), bars[i].close;
      var sma20, sma50, sma200 := Average(c.closes, i, 20), Average(c.closes, i, 50), Average(c.closes, i, 200);
      && f.sma20 == Rounded(sma20) && f.sma50 == Rounded(sma50) && f.sma200 == Rounded(sma200)
      && f.distanceToSma20 == Rounded(PctDiff(close, sma20)) && f.aboveSma20 == Above(close, sma20)
      && f.distanceToSma50 == Rounded(PctDiff(close, sma50)) && f.aboveSma50 == Above(close, sma50)
      && f.distanceToSma200 == Rounded(PctDiff(close, sma200)) && f.aboveSma200 == Above(close, sma200)
      && f.sma20Slope == Rounded(PctDiff(sma20, if i >= 5 then Average(c.closes, i - 5, 20) else None))
  {
    hide Average;
    hide RollingMax;
    hide RollingMin;
    hide RollingMaxComplete;
    hide PercentileRank;
    hide Return;
    hide Rounded;
    hide SafeDiv;
    hide PctDiff;
    hide Minus;
    hide Above;
  }

  lemma OneAverage(c: Columns, close: Option<real>, i: nat, n: nat)
    requires i < |c.closes| && n > 0
    ensures var mean := Average(c.closes, i, n);
      AverageTells(Rounded(mean), Rounded(PctDiff(close, mean)), Above(close, mean), mean, c, close, i, n)
  {
    AverageIsMean(c.closes, i, n);
    GrowthIs(close, Average(c.closes, i, n));
    hide IsMean;
    hide RoundedGrowth;
    hide Average;
    hide PctDiff;
    hide Round6;
  }

  /** The averages of 20, 50 and 200 closes, and how the shortest has moved in five bars. */
  lemma TrendTells(bars: seq<Bar>, i: nat)
    requires i < |bars| && HasOhlc(bars[i])
    ensures var f, c, close := FactsAt(bars, i), ColumnsOf(bars), bars[i].close;
      var sma20 := Average(c.closes, i, 20);
      && AverageTells(f.sma20, f.distanceToSma20, f.aboveSma20, sma20, c, close, i, 20)
      && AverageTells(f.sma50, f.distanceToSma50, f.aboveSma50, Average(c.closes, i, 50), c, close, i, 50)
      && AverageTells(f.sma200, f.distanceToSma200, f.aboveSma200, Average(c.closes, i, 200), c, close, i, 200)
      && (i < 5 ==> f.sma20Slope.None?)
      && (i >= 5 ==>
            && IsMean(Average(c.closes, i - 5, 20), c.closes, i - 5, 20)
            && RoundedGrowth(f.sma20Slope, sma20, Average(c.closes, i - 5, 20)))
  {
    hide FactsAt;
    hide AverageTells;
    hide Average;
    hide IsMean;
    hide RoundedGrowth;
    hide Rounded;
    hide Above;
    var c, close := ColumnsOf(bars), bars[i].close;
    AverageFields(bars, i);
    OneAverage(c, close, i, 20);
    OneAverage(c, close, i, 50);
    OneAverage(c, close, i, 200);
    if i >= 5 {
      AverageIsMean(c.closes, i - 5, 20);
      GrowthIs(Average(c.closes, i, 20), Average(c.closes, i - 5, 20));
    } else {
      NoSlope(Average(c.closes, i, 20));
    }
  }

  lemma NoSlope(x: Option<real>)
    ensures Rounded(PctDiff(x, None)).None?
  {
  }

  /** The extremes of 252 and 60 bars, how far they are, and whether a bar makes a new one. */
  lemma ExtremesTell(bars: seq<Bar>, i: nat)
    requires i < |bars| && HasOhlc(bars[i])
    ensures var f, c, bar := FactsAt(bars, i), ColumnsOf(bars), bars[i];
      var high, low := RollingMax(c.highs, i, 252), RollingMin(c.lows, i, 252);
      var top, bottom := RollingMax(c.highs, i - 1, 252), RollingMin(c.lows, i - 1, 252);
      var high60, low60 := RollingMax(c.highs, i, 60), RollingMin(c.lows, i, 60);
      && IsTop(high, c.highs, i, 252) && IsBottom(low, c.lows, i, 252)
      && IsTop(top, c.highs, i - 1, 252) && IsBottom(bottom, c.lows, i - 1, 252)
      && IsTop(high60, c.highs, i, 60) && IsBottom(low60, c.lows, i, 60)
      && IsRounded(f.high52w, high) && IsRounded(f.low52w, low)
      && RoundedGrowth(f.fromHigh52w, bar.close, high) && RoundedGrowth(f.aboveLow52w, bar.close, low)
      && (f.new52wHigh <==> top.Some? && bar.high.value >= top.value)
      && (f.new52wLow <==> bottom.Some? && bar.low.value <= bottom.value)
      && IsRounded(f.high60d, high60) && IsRounded(f.low60d, low60)
      && RoundedQuotient(f.baseDepth60d, Difference(high60, low60), high60)
  {
    var c, close := ColumnsOf(bars), bars[i].close;
    RollingIsTop(c.highs, i, 252);
    RollingIsBottom(c.lows, i, 252);
    RollingIsTop(c.highs, i - 1, 252);
    RollingIsBottom(c.lows, i - 1, 252);
    RollingIsTop(c.highs, i, 60);
    RollingIsBottom(c.lows, i, 60);
    GrowthIs(close, RollingMax(c.highs, i, 252));
    GrowthIs(close, RollingMin(c.lows, i, 252));
    QuotientIs(Difference(RollingMax(c.highs, i, 60), RollingMin(c.lows, i, 60)), RollingMax(c.highs, i, 60));
    hide IsTop;
    hide IsBottom;
    hide RoundedGrowth;
    hide RoundedQuotient;
    hide Average;
    hide RollingMax;
    hide RollingMin;
    hide RollingMaxComplete;
    hide PercentileRank;
    hide SmaSlope;
    hide Return;
    hide PctDiff;
    hide SafeDiv;
  }

  lemma ReturnFields(bars: seq<Bar>, i: nat)
    requires i < |bars| && HasOhlc(bars[i])
    ensures var f, c := FactsAt(bars, i), ColumnsOf(bars);
      var volume, top := Average(c.volumes, i, 20), RollingMaxComplete(c.daily, i, 20);
      && f.volumeSma20 == Rounded(volume) && f.relativeVolume == Rounded(SafeDiv(bars[i].volume, volume))
      && f.return1d == Rounded(Return(c.closes, i, 1)) && f.return1m == Rounded(Return(c.closes, i, 21))
      && f.return3m == Rounded(Return(c.closes, i, 63)) && f.return6m == Rounded(Return(c.closes, i, 126))
      && f.return12m == Rounded(Return(c.closes, i, 252))
      && f.max20dReturn == Rounded(top) && f.lotteryRisk == LotteryRiskOf(top)
  {
    hide Average;
    hide RollingMax;
    hide RollingMin;
    hide RollingMaxComplete;
    hide PercentileRank;
    hide SmaSlope;
    hide Return;
    hide Rounded;
    hide SafeDiv;
    hide PctDiff;
    hide Minus;
    hide Above;
    hide AtrPcts;
  }

  lemma OneReturn(c: Columns, i: nat, lookback: nat)
    requires i < |c.closes|
    ensures ReturnTells(Rounded(Return(c.closes, i, lookback)), c, i, lookback)
  {
    GrowthIs(c.closes[i], if i < lookback then None else c.closes[i - lookback]);
    hide RoundedGrowth;
    hide PctDiff;
    hide Round6;
  }

  /** Volume against its average, returns, and the largest daily return of a month. */
  lemma ReturnsTell(bars: seq<Bar>, i: nat)
    requires i < |bars| && HasOhlc(bars[i])
    ensures var f, c := FactsAt(bars, i), ColumnsOf(bars);
      var volume, top := Average(c.volumes, i, 20), RollingMaxComplete(c.daily, i, 20);
      && IsMean(volume, c.volumes, i, 20) && IsRounded(f.volumeSma20, volume)
      && RoundedQuotient(f.relativeVolume, bars[i].volume, volume)
      && ReturnTells(f.return1d, c, i, 1) && ReturnTells(f.return1m, c, i, 21) && ReturnTells(f.return3m, c, i, 63)
      && ReturnTells(f.return6m, c, i, 126) && ReturnTells(f.return12m, c, i, 252)
      && IsFullTop(top, c.daily, i, 20) && IsRounded(f.max20dReturn, top) && LotteryTells(f.lotteryRisk, top)
  {
    hide FactsAt;
    hide IsMean;
    hide IsFullTop;
    hide ReturnTells;
    hide RoundedQuotient;
    hide Average;
    hide RollingMaxComplete;
    hide Return;
    hide SafeDiv;
    hide Round6;
    var c := ColumnsOf(bars);
    ReturnFields(bars, i);
    AverageIsMean(c.volumes, i, 20);
    CompleteIsTop(c.daily, i, 20);
    QuotientIs(bars[i].volume, Average(c.volumes, i, 20));
    OneReturn(c, i, 1);
    OneReturn(c, i, 21);
    OneReturn(c, i, 63);
    OneReturn(c, i, 126);
    OneReturn(c, i, 252);
  }

  lemma VolatilityFields(bars: seq<Bar>, i: nat)
    requires i < |bars| && HasOhlc(bars[i])
    ensures var f, c, shares := FactsAt(bars, i), ColumnsOf(bars), AtrPcts(bars, i + 1);
      var few, many, range := Average(c.rangePcts, i, 5), Average(c.rangePcts, i, 20), Average(c.ranges, i, 14);
      && f.rangePct5d == Rounded(few) && f.rangePct20d == Rounded(many)
      && (f.volatilityContraction <==> few.Some? && many.Some? && few.value < many.value)
      && f.atr14 == Rounded(range) && f.atrPct == Rounded(SafeDiv(range, bars[i].close))
      && f.volRank == Rounded(PercentileRank(shares, i, 252))
  {
    hide Average;
    hide RollingMax;
    hide RollingMin;
    hide RollingMaxComplete;
    hide PercentileRank;
    hide SmaSlope;
    hide Return;
    hide Rounded;
    hide SafeDiv;
    hide PctDiff;
    hide Minus;
    hide Above;
  }

  /** How much the bars range, in price, relative to the close, and against the past year. */
  lemma VolatilityTells(bars: seq<Bar>, i: nat)
    requires i < |bars| && HasOhlc(bars[i])
    ensures var f, c, shares := FactsAt(bars, i), ColumnsOf(bars), AtrPcts(bars, i + 1);
      var few, many, range := Average(c.rangePcts, i, 5), Average(c.rangePcts, i, 20), Average(c.ranges, i, 14);
      var rank := PercentileRank(shares, i, 252);
      && IsMean(few, c.rangePcts, i, 5) && IsMean(many, c.rangePcts, i, 20) && IsMean(range, c.ranges, i, 14)
      && IsRounded(f.rangePct5d, few) && IsRounded(f.rangePct20d, many)
      && (f.volatilityContraction <==> few.Some? && many.Some? && few.value < many.value)
      && IsRounded(f.atr14, range) && RoundedQuotient(f.atrPct, range, bars[i].close)
      && IsRank(rank, shares, i, 252) && IsRounded(f.volRank, rank)
      && ShareColumnTells(shares, bars, i + 1)
  {
    hide FactsAt;
    hide IsMean;
    hide IsRank;
    hide ShareColumnTells;
    hide RoundedQuotient;
    hide Average;
    hide PercentileRank;
    hide SafeDiv;
    hide Round6;
    var c, shares := ColumnsOf(bars), AtrPcts(bars, i + 1);
    VolatilityFields(bars, i);
    AverageIsMean(c.rangePcts, i, 5);
    AverageIsMean(c.rangePcts, i, 20);
    AverageIsMean(c.ranges, i, 14);
    QuotientIs(Average(c.ranges, i, 14), bars[i].close);
    RankIs(shares, i, 252);
    SharesAre(bars, i + 1);
  }

  // ----- the list of facts

  /** The bars that have all their prices, in order. */
  function WholeIndices(bars: seq<Bar>, n: nat): seq<nat>
    requires n <= |bars|
  {
    if n == 0 then [] else WholeIndices(bars, n - 1) + (if HasOhlc(bars[n - 1]) then [n - 1] else [])
  }

  /** There is one fact for each of them, under its own time. */
  lemma {:induction false} FactsAreListed(bars: seq<Bar>, n: nat)
    requires n <= |bars|
    ensures var facts, at := FactsUpTo(bars, n), WholeIndices(bars, n);
      && |facts| == |at|
      && forall i :: 0 <= i < |at| ==>
           at[i] < n && HasOhlc(bars[at[i]]) && facts[i] == Fact(bars[at[i]].ts, FactsAt(bars, at[i]))
  {
    hide FactsAt;
    if n > 0 {
      FactsAreListed(bars, n - 1);
    }
  }
}
