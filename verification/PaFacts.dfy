/** Daily price-action facts: rolling helpers over columns, and the proof that no fact looks
    ahead of its bar. */
module PaFacts {
  import opened Numbers
  import opened Wrappers
  import opened Rounding
  import opened Bars

  type Column = seq<Option<real>>

  // ----- rolling helpers; each reads values up to its index only

  predicate AllPresent(values: Column) {
    forall i :: 0 <= i < |values| ==> values[i].Some?
  }

  function SumOf(values: Column): real {
    if values == [] then 0.0 else SumOf(values[..|values| - 1]) + values[|values| - 1].GetOr(0.0)
  }

  /** The last `window` values up to `index`, fewer at the start. */
  function WindowAt(values: Column, index: int, window: nat): Column
    requires -1 <= index < |values|
  {
    values[if index + 1 <= window then 0 else index + 1 - window..index + 1]
  }

  function SafeDiv(numerator: Option<real>, denominator: Option<real>): Option<real> {
    if numerator.None? || denominator.None? || denominator.value == 0.0 then None
    else Some(numerator.value / denominator.value)
  }

  function PctDiff(value: Option<real>, reference: Option<real>): Option<real> {
    if value.None? || reference.None? || reference.value == 0.0 then None
    else Some(value.value / reference.value - 1.0)
  }

  function Minus(x: Option<real>, y: Option<real>): Option<real> {
    if x.None? || y.None? then None else Some(x.value - y.value)
  }

  function Average(values: Column, index: int, window: nat): Option<real>
    requires -1 <= index < |values| && window > 0
  {
    if index < window - 1 || !AllPresent(WindowAt(values, index, window)) then None
    else Some(SumOf(WindowAt(values, index, window)) / window as real)
  }

  function RollingMax(values: Column, index: int, window: nat): Option<real>
    requires -1 <= index < |values|
  {
    if index < 0 then None else MaxOf(WindowAt(values, index, window))
  }

  function RollingMin(values: Column, index: int, window: nat): Option<real>
    requires -1 <= index < |values|
  {
    if index < 0 then None else MinOf(WindowAt(values, index, window))
  }

  function RollingMaxComplete(values: Column, index: int, window: nat): Option<real>
    requires -1 <= index < |values|
  {
    if index < window - 1 || !AllPresent(WindowAt(values, index, window)) then None
    else MaxOf(WindowAt(values, index, window))
  }

  function CountPresent(values: Column): nat {
    if values == [] then 0
    else CountPresent(values[..|values| - 1]) + (if values[|values| - 1].Some? then 1 else 0)
  }

  function CountAtMost(values: Column, bound: real): nat {
    if values == [] then 0
    else
      var last := values[|values| - 1];
      CountAtMost(values[..|values| - 1], bound) + (if last.Some? && last.value <= bound then 1 else 0)
  }

  function PercentileRank(values: Column, index: int, window: nat): Option<real>
    requires 0 <= index < |values| && window > 0
  {
    var sample := WindowAt(values, index, window);
    if values[index].None? || CountPresent(sample) < window then None
    else Some(CountAtMost(sample, values[index].value) as real / CountPresent(sample) as real)
  }

  function Return(values: Column, index: int, lookback: nat): Option<real>
    requires 0 <= index < |values|
  {
    if index < lookback then None else PctDiff(values[index], values[index - lookback])
  }

  function SmaSlope(values: Column, index: int, window: nat, lookback: nat): Option<real>
    requires 0 <= index < |values| && window > 0
  {
    PctDiff(Average(values, index, window),
            if index >= lookback then Average(values, index - lookback, window) else None)
  }

  function Above(value: Option<real>, reference: Option<real>): Option<bool> {
    if value.None? || reference.None? then None else Some(value.value > reference.value)
  }

  function Rounded(value: Option<real>): Option<real> {
    if value.None? then None else Some(Round6(value.value))
  }

  // ----- derived columns

  function DailyReturns(bars: seq<Bar>): Column {
    var closes := Closes(bars);
    seq(|bars|, i requires 0 <= i < |bars| => Return(closes, i, 1))
  }

  function RangeAt(bars: seq<Bar>, i: nat): Option<real>
    requires i < |bars|
  {
    var bar := bars[i];
    if !HasOhlc(bar) then None
    else Some(TrueRange(bar.high.value, bar.low.value, if i > 0 then bars[i - 1].close else None))
  }

  function TrueRangeColumn(bars: seq<Bar>): Column {
    seq(|bars|, i requires 0 <= i < |bars| => RangeAt(bars, i))
  }

  function RangePct(bar: Bar): Option<real> {
    if HasOhlc(bar) then SafeDiv(Minus(bar.high, bar.low), bar.close) else None
  }

  function RangePcts(bars: seq<Bar>): Column {
    seq(|bars|, i requires 0 <= i < |bars| => RangePct(bars[i]))
  }

  function AtrPctAt(bars: seq<Bar>, i: nat): Option<real>
    requires i < |bars|
  {
    if HasOhlc(bars[i]) then SafeDiv(Average(TrueRangeColumn(bars), i, 14), bars[i].close) else None
  }

  /** The column the loop builds as it goes. */
  function AtrPcts(bars: seq<Bar>, n: nat): Column
    requires n <= |bars|
  {
    seq(n, i requires 0 <= i < n => AtrPctAt(bars, i))
  }

  datatype LotteryRisk = UnknownRisk | LowRisk | MediumRisk | HighRisk

  function LotteryRiskOf(maxReturn: Option<real>): LotteryRisk {
    if maxReturn.None? then UnknownRisk
    else if maxReturn.value >= 0.08 then HighRisk
    else if maxReturn.value >= 0.05 then MediumRisk
    else LowRisk
  }

  datatype Facts = Facts(
    open: Option<real>, high: Option<real>, low: Option<real>, close: Option<real>, volume: Option<real>,
    range: Option<real>, rangePct: Option<real>, closePositionInRange: Option<real>,
    closeNearHigh: bool, closeNearLow: bool,
    sma20: Option<real>, sma50: Option<real>, sma200: Option<real>,
    distanceToSma20: Option<real>, distanceToSma50: Option<real>, distanceToSma200: Option<real>,
    aboveSma20: Option<bool>, aboveSma50: Option<bool>, aboveSma200: Option<bool>,
    sma20Slope: Option<real>,
    high52w: Option<real>, low52w: Option<real>, new52wHigh: bool, new52wLow: bool,
    fromHigh52w: Option<real>, aboveLow52w: Option<real>,
    volumeSma20: Option<real>, relativeVolume: Option<real>,
    return1d: Option<real>, return1m: Option<real>, return3m: Option<real>, return6m: Option<real>,
    return12m: Option<real>,
    max20dReturn: Option<real>, lotteryRisk: LotteryRisk,
    high60d: Option<real>, low60d: Option<real>, baseDepth60d: Option<real>,
    rangePct5d: Option<real>, rangePct20d: Option<real>,
    atr14: Option<real>, atrPct: Option<real>, volRank: Option<real>, volatilityContraction: bool)

  datatype Columns = Columns(
    closes: Column, highs: Column, lows: Column, volumes: Column, daily: Column, ranges: Column, rangePcts: Column)

  predicate LongerThan(c: Columns, i: nat) {
    && i < |c.closes| && i < |c.highs| && i < |c.lows| && i < |c.volumes|
    && i < |c.daily| && i < |c.ranges| && i < |c.rangePcts|
  }

  /** The facts of bar i, from the columns and the range percentages up to i. */
  function FactsFrom(bar: Bar, c: Columns, atrPcts: Column, i: nat): Facts
    requires HasOhlc(bar) && LongerThan(c, i) && i < |atrPcts|
  {
    var position := SafeDiv(Minus(bar.close, bar.low), Minus(bar.high, bar.low));
    var sma20, sma50, sma200 := Average(c.closes, i, 20), Average(c.closes, i, 50), Average(c.closes, i, 200);
    var volumeSma20 := Average(c.volumes, i, 20);
    var rangePct5d, rangePct20d := Average(c.rangePcts, i, 5), Average(c.rangePcts, i, 20);
    var max20d := RollingMaxComplete(c.daily, i, 20);
    var atr14 := Average(c.ranges, i, 14);
    var high52w, low52w := RollingMax(c.highs, i, 252), RollingMin(c.lows, i, 252);
    var high60d, low60d := RollingMax(c.highs, i, 60), RollingMin(c.lows, i, 60);
    var previousHigh, previousLow := RollingMax(c.highs, i - 1, 252), RollingMin(c.lows, i - 1, 252);
    Facts(
      Rounded(bar.open), Rounded(bar.high), Rounded(bar.low), Rounded(bar.close), Rounded(bar.volume),
      Rounded(Minus(bar.high, bar.low)), Rounded(SafeDiv(Minus(bar.high, bar.low), bar.close)), Rounded(position),
      position.Some? && position.value >= 0.8, position.Some? && position.value <= 0.2,
      Rounded(sma20), Rounded(sma50), Rounded(sma200),
      Rounded(PctDiff(bar.close, sma20)), Rounded(PctDiff(bar.close, sma50)), Rounded(PctDiff(bar.close, sma200)),
      Above(bar.close, sma20), Above(bar.close, sma50), Above(bar.close, sma200),
      Rounded(SmaSlope(c.closes, i, 20, 5)),
      Rounded(high52w), Rounded(low52w),
      previousHigh.Some? && bar.high.value >= previousHigh.value,
      previousLow.Some? && bar.low.value <= previousLow.value,
      Rounded(PctDiff(bar.close, high52w)), Rounded(PctDiff(bar.close, low52w)),
      Rounded(volumeSma20), Rounded(SafeDiv(bar.volume, volumeSma20)),
      Rounded(Return(c.closes, i, 1)), Rounded(Return(c.closes, i, 21)), Rounded(Return(c.closes, i, 63)),
      Rounded(Return(c.closes, i, 126)), Rounded(Return(c.closes, i, 252)),
      Rounded(max20d), LotteryRiskOf(max20d),
      Rounded(high60d), Rounded(low60d),
      Rounded(SafeDiv(Minus(high60d, low60d), high60d)),
      Rounded(rangePct5d), Rounded(rangePct20d),
      Rounded(atr14), Rounded(SafeDiv(atr14, bar.close)),
      Rounded(PercentileRank(atrPcts, i, 252)),
      rangePct5d.Some? && rangePct20d.Some? && rangePct5d.value < rangePct20d.value)
  }

  function ColumnsOf(bars: seq<Bar>): Columns {
    Columns(Closes(bars), Highs(bars), Lows(bars), Volumes(bars), DailyReturns(bars), TrueRangeColumn(bars),
            RangePcts(bars))
  }

  function FactsAt(bars: seq<Bar>, i: nat): Facts
    requires i < |bars| && HasOhlc(bars[i])
  {
    FactsFrom(bars[i], ColumnsOf(bars), AtrPcts(bars, i + 1), i)
  }

  datatype Fact = Fact(ts: int, facts: Facts)

  /** The facts of the first n bars of an ordered history, skipping incomplete ones. */
  function FactsUpTo(bars: seq<Bar>, n: nat): seq<Fact>
    requires n <= |bars|
  {
    if n == 0 then []
    else FactsUpTo(bars, n - 1) + (if HasOhlc(bars[n - 1]) then [Fact(bars[n - 1].ts, FactsAt(bars, n - 1))] else [])
  }

  // ----- sorting by time

  function InsertByTs(bars: seq<Bar>, bar: Bar): seq<Bar> {
    if bars == [] then [bar]
    else if bar.ts < bars[|bars| - 1].ts then InsertByTs(bars[..|bars| - 1], bar) + [bars[|bars| - 1]]
    else bars + [bar]
  }

  /** `sorted(bars, key=ts)`: stable, as each bar goes behind those of its own time. */
  function SortByTs(bars: seq<Bar>): seq<Bar> {
    if bars == [] then [] else InsertByTs(SortByTs(bars[..|bars| - 1]), bars[|bars| - 1])
  }

  ghost predicate Ascending(bars: seq<Bar>) {
    forall i, j :: 0 <= i < j < |bars| ==> bars[i].ts <= bars[j].ts
  }

  lemma {:induction false} InsertAddsOne(bars: seq<Bar>, bar: Bar)
    ensures multiset(InsertByTs(bars, bar)) == multiset(bars) + multiset{bar}
    ensures forall b :: b in InsertByTs(bars, bar) ==> b in bars || b == bar
  {
    if bars != [] && bar.ts < bars[|bars| - 1].ts {
      var front, last := bars[..|bars| - 1], bars[|bars| - 1];
      InsertAddsOne(front, bar);
      assert bars == front + [last];
    }
  }

  lemma {:induction false} InsertSorts(bars: seq<Bar>, bar: Bar)
    requires Ascending(bars)
    ensures Ascending(InsertByTs(bars, bar))
  {
    if bars != [] && bar.ts < bars[|bars| - 1].ts {
      var front, last := bars[..|bars| - 1], bars[|bars| - 1];
      InsertSorts(front, bar);
      InsertAddsOne(front, bar);
      var placed := InsertByTs(front, bar);
      forall i | 0 <= i < |placed|
        ensures placed[i].ts <= last.ts
      {
        assert placed[i] in placed;
      }
    }
  }

  lemma {:induction false} SortAscends(bars: seq<Bar>)
    ensures Ascending(SortByTs(bars))
  {
    hide InsertByTs;
    if bars != [] {
      SortAscends(bars[..|bars| - 1]);
      InsertSorts(SortByTs(bars[..|bars| - 1]), bars[|bars| - 1]);
    }
  }

  /** Sorting keeps every bar. */
  lemma {:induction false} SortKeepsAll(bars: seq<Bar>)
    ensures multiset(SortByTs(bars)) == multiset(bars)
    ensures forall b :: b in SortByTs(bars) ==> b in bars
  {
    hide InsertByTs;
    if bars != [] {
      var front, last := bars[..|bars| - 1], bars[|bars| - 1];
      SortKeepsAll(front);
      InsertAddsOne(SortByTs(front), last);
      assert bars == front + [last];
    }
  }

  function AllFacts(bars: seq<Bar>): seq<Fact> {
    FactsUpTo(SortByTs(bars), |SortByTs(bars)|)
  }

  /** `DailyPAFactsCalculator.calculate`: the loop builds its range percentages as it goes. */
  method Calculate(bars: seq<Bar>) returns (calculated: seq<Fact>)
    ensures calculated == AllFacts(bars)
  {
    hide FactsFrom;
    hide SortByTs;
    var ordered := SortByTs(bars);
    var columns := ColumnsOf(ordered);
    var atrPcts: Column := [];
    calculated := [];
    for index := 0 to |ordered|
      invariant atrPcts == AtrPcts(ordered, index)
      invariant calculated == FactsUpTo(ordered, index)
    {
      var bar := ordered[index];
      if !HasOhlc(bar) {
        atrPcts := atrPcts + [None];
      } else {
        atrPcts := atrPcts + [SafeDiv(Average(columns.ranges, index, 14), bar.close)];
        calculated := calculated + [Fact(bar.ts, FactsFrom(bar, columns, atrPcts, index))];
      }
    }
  }

  // ----- no look-ahead

  /** The columns agree up to index i. */
  ghost predicate AgreeUpTo(v: Column, w: Column, i: int) {
    -1 <= i < |v| && i < |w| && v[..i + 1] == w[..i + 1]
  }

  lemma WindowsAgree(v: Column, w: Column, i: int, index: int, window: nat)
    requires AgreeUpTo(v, w, i) && -1 <= index <= i
    ensures WindowAt(v, index, window) == WindowAt(w, index, window)
  {
    var lo := if index + 1 <= window then 0 else index + 1 - window;
    assert v[lo..index + 1] == v[..i + 1][lo..index + 1];
    assert w[lo..index + 1] == w[..i + 1][lo..index + 1];
  }

  lemma ReturnsAgree(v: Column, w: Column, i: nat, lookback: nat)
    requires AgreeUpTo(v, w, i)
    ensures Return(v, i, lookback) == Return(w, i, lookback)
  {
    assert v[i] == v[..i + 1][i] && w[i] == w[..i + 1][i];
    if i >= lookback {
      assert v[i - lookback] == v[..i + 1][i - lookback] && w[i - lookback] == w[..i + 1][i - lookback];
    }
  }

  ghost predicate ColumnsAgree(c: Columns, d: Columns, i: nat) {
    && AgreeUpTo(c.closes, d.closes, i) && AgreeUpTo(c.highs, d.highs, i) && AgreeUpTo(c.lows, d.lows, i)
    && AgreeUpTo(c.volumes, d.volumes, i) && AgreeUpTo(c.daily, d.daily, i)
    && AgreeUpTo(c.ranges, d.ranges, i) && AgreeUpTo(c.rangePcts, d.rangePcts, i)
  }

  lemma ColumnsOfPrefix(bars: seq<Bar>, more: seq<Bar>, i: nat)
    requires i < |bars|
    ensures ColumnsAgree(ColumnsOf(bars), ColumnsOf(bars + more), i)
  {
    var all := bars + more;
    assert forall k :: 0 <= k <= i ==> all[k] == bars[k];
    forall k | 0 <= k <= i
      ensures DailyReturns(bars)[k] == DailyReturns(all)[k]
      ensures RangeAt(bars, k) == RangeAt(all, k)
    {
    }
  }

  lemma RollingsAgree(v: Column, w: Column, i: int, index: int, window: nat)
    requires AgreeUpTo(v, w, i) && -1 <= index <= i && window > 0
    ensures Average(v, index, window) == Average(w, index, window)
    ensures RollingMax(v, index, window) == RollingMax(w, index, window)
    ensures RollingMin(v, index, window) == RollingMin(w, index, window)
    ensures RollingMaxComplete(v, index, window) == RollingMaxComplete(w, index, window)
  {
    hide WindowAt;
    WindowsAgree(v, w, i, index, window);
  }

  lemma SlopesAgree(v: Column, w: Column, i: nat)
    requires AgreeUpTo(v, w, i)
    ensures SmaSlope(v, i, 20, 5) == SmaSlope(w, i, 20, 5)
  {
    hide Average;
    RollingsAgree(v, w, i, i, 20);
    if i >= 5 {
      RollingsAgree(v, w, i, i - 5, 20);
    }
  }

  lemma RanksAgree(v: Column, w: Column, i: nat, window: nat)
    requires AgreeUpTo(v, w, i) && window > 0
    ensures PercentileRank(v, i, window) == PercentileRank(w, i, window)
  {
    hide WindowAt;
    WindowsAgree(v, w, i, i, window);
    assert v[i] == v[..i + 1][i] && w[i] == w[..i + 1][i];
  }

  lemma FactsAgree(bar: Bar, c: Columns, d: Columns, a: Column, b: Column, i: nat)
    requires HasOhlc(bar) && ColumnsAgree(c, d, i) && AgreeUpTo(a, b, i)
    ensures FactsFrom(bar, c, a, i) == FactsFrom(bar, d, b, i)
  {
    hide Average;
    hide RollingMax;
    hide RollingMin;
    hide RollingMaxComplete;
    hide PercentileRank;
    hide Return;
    hide SmaSlope;
    hide Rounded;
    hide PctDiff;
    hide SafeDiv;
    hide Minus;
    hide Above;
    hide LotteryRiskOf;
    RollingsAgree(c.closes, d.closes, i, i, 20);
    RollingsAgree(c.closes, d.closes, i, i, 50);
    RollingsAgree(c.closes, d.closes, i, i, 200);
    RollingsAgree(c.volumes, d.volumes, i, i, 20);
    RollingsAgree(c.rangePcts, d.rangePcts, i, i, 5);
    RollingsAgree(c.rangePcts, d.rangePcts, i, i, 20);
    RollingsAgree(c.daily, d.daily, i, i, 20);
    RollingsAgree(c.ranges, d.ranges, i, i, 14);
    RollingsAgree(c.highs, d.highs, i, i, 252);
    RollingsAgree(c.lows, d.lows, i, i, 252);
    RollingsAgree(c.highs, d.highs, i, i, 60);
    RollingsAgree(c.lows, d.lows, i, i, 60);
    RollingsAgree(c.highs, d.highs, i, i - 1, 252);
    RollingsAgree(c.lows, d.lows, i, i - 1, 252);
    SlopesAgree(c.closes, d.closes, i);
    RanksAgree(a, b, i, 252);
    ReturnsAgree(c.closes, d.closes, i, 1);
    ReturnsAgree(c.closes, d.closes, i, 21);
    ReturnsAgree(c.closes, d.closes, i, 63);
    ReturnsAgree(c.closes, d.closes, i, 126);
    ReturnsAgree(c.closes, d.closes, i, 252);
  }

  lemma AtrPctsOfPrefix(bars: seq<Bar>, more: seq<Bar>, n: nat)
    requires n <= |bars|
    ensures AtrPcts(bars + more, n) == AtrPcts(bars, n)
  {
    hide Average;
    hide TrueRangeColumn;
    forall k | 0 <= k < n
      ensures AtrPctAt(bars + more, k) == AtrPctAt(bars, k)
    {
      ColumnsOfPrefix(bars, more, k);
      RollingsAgree(TrueRangeColumn(bars), TrueRangeColumn(bars + more), k, k, 14);
    }
  }

  lemma FactsOfPrefix(bars: seq<Bar>, more: seq<Bar>, i: nat)
    requires i < |bars| && HasOhlc(bars[i])
    ensures FactsAt(bars + more, i) == FactsAt(bars, i)
  {
    hide FactsFrom;
    hide ColumnsOf;
    ColumnsOfPrefix(bars, more, i);
    AtrPctsOfPrefix(bars, more, i + 1);
    FactsAgree(bars[i], ColumnsOf(bars), ColumnsOf(bars + more), AtrPcts(bars, i + 1), AtrPcts(bars + more, i + 1), i);
  }

  lemma {:induction false} FactsUpToPrefix(bars: seq<Bar>, more: seq<Bar>, n: nat)
    requires n <= |bars|
    ensures FactsUpTo(bars + more, n) == FactsUpTo(bars, n)
  {
    hide FactsAt;
    if n > 0 {
      FactsUpToPrefix(bars, more, n - 1);
      if HasOhlc(bars[n - 1]) {
        FactsOfPrefix(bars, more, n - 1);
      }
    }
  }

  lemma {:induction false} FactsUpToGrows(bars: seq<Bar>, m: nat, n: nat)
    requires m <= n <= |bars|
    ensures FactsUpTo(bars, m) <= FactsUpTo(bars, n)
  {
    hide FactsAt;
    if m < n {
      FactsUpToGrows(bars, m, n - 1);
    }
  }

  lemma {:induction false} InsertBehind(front: seq<Bar>, tail: seq<Bar>, bar: Bar)
    requires forall i :: 0 <= i < |front| ==> front[i].ts < bar.ts
    ensures InsertByTs(front + tail, bar) == front + InsertByTs(tail, bar)
  {
    if tail == [] {
      assert front + tail == front;
    } else {
      var all := front + tail;
      assert all[..|all| - 1] == front + tail[..|tail| - 1];
      InsertBehind(front, tail[..|tail| - 1], bar);
    }
  }

  lemma {:induction false} SortAppends(bars: seq<Bar>, later: seq<Bar>)
    requires forall b, c :: b in bars && c in later ==> b.ts < c.ts
    ensures SortByTs(bars + later) == SortByTs(bars) + SortByTs(later)
  {
    if later == [] {
      assert bars + later == bars;
    } else {
      var front, last := later[..|later| - 1], later[|later| - 1];
      assert (bars + later)[..|bars + later| - 1] == bars + front;
      SortAppends(bars, front);
      SortKeepsAll(bars);
      forall i | 0 <= i < |SortByTs(bars)|
        ensures SortByTs(bars)[i].ts < last.ts
      {
        assert SortByTs(bars)[i] in SortByTs(bars);
      }
      InsertBehind(SortByTs(bars), SortByTs(front), last);
    }
  }

  /** No fact looks ahead: adding bars that are later than all others, in any input order,
      leaves the earlier result as an exact prefix, percentile ranks included. */
  lemma NoLookAhead(bars: seq<Bar>, later: seq<Bar>)
    requires forall b, c :: b in bars && c in later ==> b.ts < c.ts
    ensures AllFacts(bars) <= AllFacts(bars + later)
  {
    hide FactsUpTo;
    hide SortByTs;
    SortAppends(bars, later);
    var ordered, more := SortByTs(bars), SortByTs(later);
    FactsUpToPrefix(ordered, more, |ordered|);
    FactsUpToGrows(ordered + more, |ordered|, |ordered + more|);
  }

  // ----- new highs

  lemma MaxOfAppend(values: Column, last: Option<real>)
    ensures MaxOf(values + [last])
         == (if MaxOf(values).None? then last
             else if last.None? then MaxOf(values)
             else Some(Max(MaxOf(values).value, last.value)))
    ensures MinOf(values + [last])
         == (if MinOf(values).None? then last
             else if last.None? then MinOf(values)
             else Some(Min(MinOf(values).value, last.value)))
  {
    assert (values + [last])[..|values|] == values;
  }

  /** A value not below the preceding window is the maximum of its own window. */
  lemma NewExtreme(values: Column, i: nat, window: nat)
    requires 0 < i < |values| && window > 0 && values[i].Some?
    ensures var previous := RollingMax(values, i - 1, window);
      previous.Some? && values[i].value >= previous.value ==> RollingMax(values, i, window) == values[i]
    ensures var previous := RollingMin(values, i - 1, window);
      previous.Some? && values[i].value <= previous.value ==> RollingMin(values, i, window) == values[i]
  {
    var own := WindowAt(values, i, window);
    var before := WindowAt(values, i - 1, window);
    var rest := own[..|own| - 1];
    assert own == rest + [values[i]];
    forall v | v in rest
      ensures v in before
    {
      var k :| 0 <= k < |rest| && rest[k] == v;
      var lo := if i + 1 <= window then 0 else i + 1 - window;
      var lo' := if i <= window then 0 else i - window;
      assert rest[k] == values[lo + k] == before[lo + k - lo'];
    }
    MaxOfPart(rest, before);
    MinOfPart(rest, before);
    MaxOfAppend(rest, values[i]);
  }

  /** A reported new 52-week extreme is the bar's own price. */
  lemma NewExtremeIsOwnPrice(bars: seq<Bar>, i: nat)
    requires i < |bars| && HasOhlc(bars[i])
    ensures var f := FactsAt(bars, i);
      && (f.new52wHigh ==> f.high52w == f.high)
      && (f.new52wLow ==> f.low52w == f.low)
  {
    hide RollingMax;
    hide RollingMin;
    hide Average;
    hide PercentileRank;
    hide RollingMaxComplete;
    hide SmaSlope;
    hide Return;
    if i > 0 {
      NewExtreme(Highs(bars), i, 252);
      NewExtreme(Lows(bars), i, 252);
    } else {
      NothingBefore(Highs(bars));
      NothingBefore(Lows(bars));
    }
  }

  lemma RollingsNest(values: Column, i: nat, short: nat, long: nat)
    requires i < |values| && 0 < short <= long && values[i].Some?
    ensures RollingMax(values, i, short).Some? && RollingMax(values, i, long).Some?
    ensures RollingMin(values, i, short).Some? && RollingMin(values, i, long).Some?
    ensures values[i].value <= RollingMax(values, i, short).value <= RollingMax(values, i, long).value
    ensures RollingMin(values, i, long).value <= RollingMin(values, i, short).value <= values[i].value
  {
    var part, whole := WindowAt(values, i, short), WindowAt(values, i, long);
    assert part[|part| - 1] == values[i];
    MaxOfIsMax(part);
    MinOfIsMin(part);
    forall v | v in part
      ensures v in whole
    {
      var k :| 0 <= k < |part| && part[k] == v;
      assert part[k] == whole[k + |whole| - |part|];
    }
    MaxOfPart(part, whole);
    MinOfPart(part, whole);
  }

  /** The reported levels of a bar nest: the year's range holds the quarter's, which holds the
      bar's, which holds its close. */
  lemma LevelsNest(bars: seq<Bar>, i: nat)
    requires i < |bars| && HasOhlc(bars[i]) && bars[i].low.value <= bars[i].close.value <= bars[i].high.value
    ensures var f := FactsAt(bars, i);
      && f.low52w.Some? && f.low60d.Some? && f.low.Some? && f.close.Some?
      && f.high.Some? && f.high60d.Some? && f.high52w.Some?
      && f.low52w.value <= f.low60d.value <= f.low.value <= f.close.value
      && f.close.value <= f.high.value <= f.high60d.value <= f.high52w.value
  {
    hide RollingMax;
    hide RollingMin;
    hide Average;
    hide PercentileRank;
    hide RollingMaxComplete;
    hide SmaSlope;
    hide Return;
    hide Round6;
    var highs, lows := Highs(bars), Lows(bars);
    RollingsNest(highs, i, 60, 252);
    RollingsNest(lows, i, 60, 252);
    Round6Monotone(RollingMin(lows, i, 252).value, RollingMin(lows, i, 60).value);
    Round6Monotone(RollingMin(lows, i, 60).value, bars[i].low.value);
    Round6Monotone(bars[i].low.value, bars[i].close.value);
    Round6Monotone(bars[i].close.value, bars[i].high.value);
    Round6Monotone(bars[i].high.value, RollingMax(highs, i, 60).value);
    Round6Monotone(RollingMax(highs, i, 60).value, RollingMax(highs, i, 252).value);
  }

  /** The distance to a positive average is non-negative on the side the flag reports. */
  predicate SideAgrees(above: Option<bool>, distance: Option<real>) {
    above.Some? && distance.Some? && if above.value then distance.value >= 0.0 else distance.value <= 0.0
  }

  lemma DistanceTellsSide(close: real, average: real)
    requires average > 0.0
    ensures SideAgrees(Above(Some(close), Some(average)), Rounded(PctDiff(Some(close), Some(average))))
  {
    var ratio := close / average;
    assert ratio * average == close;
    assert ratio > 1.0 <==> close > average;
    Round6Identity(0.0);
    if close > average {
      Round6Monotone(0.0, ratio - 1.0);
    } else {
      Round6Monotone(ratio - 1.0, 0.0);
    }
  }

  /** Trend flags and distances tell the same side of every moving average. */
  lemma TrendFactsAgree(bars: seq<Bar>, i: nat)
    requires i < |bars| && HasOhlc(bars[i])
    ensures var f, closes := FactsAt(bars, i), Closes(bars);
      && (Positive(Average(closes, i, 20)) ==> SideAgrees(f.aboveSma20, f.distanceToSma20))
      && (Positive(Average(closes, i, 50)) ==> SideAgrees(f.aboveSma50, f.distanceToSma50))
      && (Positive(Average(closes, i, 200)) ==> SideAgrees(f.aboveSma200, f.distanceToSma200))
  {
    hide RollingMax;
    hide RollingMin;
    hide Average;
    hide PercentileRank;
    hide RollingMaxComplete;
    hide SmaSlope;
    hide Return;
    hide SideAgrees;
    hide Rounded;
    hide PctDiff;
    hide Above;
    var closes := Closes(bars);
    forall window: nat | window > 0 && Positive(Average(closes, i, window))
      ensures SideAgrees(Above(bars[i].close, Average(closes, i, window)),
                         Rounded(PctDiff(bars[i].close, Average(closes, i, window))))
    {
      DistanceTellsSide(bars[i].close.value, Average(closes, i, window).value);
    }
  }

  predicate Positive(x: Option<real>) {
    x.Some? && x.value > 0.0
  }

  lemma NothingBefore(values: Column)
    ensures RollingMax(values, -1, 252) == None && RollingMin(values, -1, 252) == None
  {
  }

  // ----- percentile rank

  lemma {:induction false} CountsCompare(values: Column, bound: real)
    ensures CountAtMost(values, bound) <= CountPresent(values)
    ensures Some(bound) in values ==> CountAtMost(values, bound) >= 1
    ensures CountAtMost(values, bound) == CountPresent(values)
       <==> forall i :: 0 <= i < |values| && values[i].Some? ==> values[i].value <= bound
  {
    if values != [] {
      var front, last := values[..|values| - 1], values[|values| - 1];
      assert values == front + [last];
      CountsCompare(front, bound);
    }
  }

  lemma MaxIsMember(values: Column, k: nat)
    requires k < |values| && values[k].Some?
    ensures MaxOf(values) == values[k]
       <==> forall i :: 0 <= i < |values| && values[i].Some? ==> values[i].value <= values[k].value
  {
    MaxOfIsMax(values);
    if forall i :: 0 <= i < |values| && values[i].Some? ==> values[i].value <= values[k].value {
      var j :| 0 <= j < |values| && values[j] == MaxOf(values);
    }
  }

  lemma RatioAtMostOne(part: nat, whole: nat)
    requires 0 < part <= whole
    ensures 0.0 < part as real / whole as real <= 1.0
    ensures part as real / whole as real == 1.0 <==> part == whole
  {
    var q := part as real / whole as real;
    assert q * whole as real == part as real;
  }

  /** A volatility rank is a share of a full window: positive, at most one, and one exactly
      when no value in the window is larger. */
  lemma RankIsShare(values: Column, i: nat, window: nat)
    requires i < |values| && window > 0 && PercentileRank(values, i, window).Some?
    ensures 0.0 < PercentileRank(values, i, window).value <= 1.0
    ensures values[i].Some?
    ensures PercentileRank(values, i, window).value == 1.0 <==> MaxOf(WindowAt(values, i, window)) == values[i]
  {
    hide MaxOf;
    var sample := WindowAt(values, i, window);
    assert sample[|sample| - 1] == values[i];
    CountsCompare(sample, values[i].value);
    MaxIsMember(sample, |sample| - 1);
    RatioAtMostOne(CountAtMost(sample, values[i].value), CountPresent(sample));
  }
}
