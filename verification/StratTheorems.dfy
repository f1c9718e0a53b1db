/** A forecast is realised by the bar that reaches its trigger, and the plan's 40-bar window
    loses nothing. */
module StratTheorems {
  import opened Wrappers
  import opened Rounding
  import opened Bars
  import opened StratSignals
  import opened StratPlan
  import PaFacts

  // ----- forecast and realisation

  /** The plan's fields the forecast is about. */
  lemma PlannedPattern(bars: seq<Bar>, direction: Direction, facts: Facts)
    requires PlanFor(bars, direction, facts).Success?
    requires PlanFor(bars, direction, facts).value.pattern.Some?
    ensures |bars| >= 2 && HasOhlc(bars[|bars| - 1]) && HasOhlc(bars[|bars| - 2])
    ensures var plan := PlanFor(bars, direction, facts).value;
      var latest := bars[|bars| - 1];
      && plan.pattern == PendingPattern(TypeOf(latest, bars[|bars| - 2]), TypeAt(bars, |bars| - 2), direction)
      && plan.direction == Some(direction)
      && plan.triggerPrice == Some(TriggerOf(latest, direction))
      && plan.triggerStop == Some(StopOf(latest, direction))
  {
    hide AverageTrueRange;
    hide NoChaseRules;
    hide Divides;
    hide Blocks;
  }

  lemma SignalOfNext(bars: seq<Bar>, next: Bar)
    requires |bars| >= 2 && HasOhlc(bars[|bars| - 1]) && HasOhlc(next)
    ensures SignalAt(bars + [next], |bars|)
         == Some(MakeSignal(next, bars[|bars| - 1], TypeAt(bars, |bars| - 1), TypeAt(bars, |bars| - 2)))
  {
    var all := bars + [next];
    assert all[..|bars|] == bars;
    SignalOfPrefix(all, |bars|, |bars| - 1);
    SignalOfPrefix(all, |bars|, |bars| - 2);
  }

  /** The signal of the next bar has the plan's setup and stop. */
  predicate Realises(plan: TriggerPlan, signal: Option<Signal>) {
    && signal.Some? && plan.pattern.Some? && plan.direction.Some?
    && signal.value.setup == Some(Setup(plan.pattern.value, plan.direction.value))
    && signal.value.triggerStop == plan.triggerStop
  }

  /** A long forecast that the next bar does not break downwards is realised exactly if
      the next bar makes a higher high. */
  lemma LongForecastExactly(bars: seq<Bar>, next: Bar, facts: Facts)
    requires bars != [] && HasOhlc(next)
    ensures var plan, latest := PlanFor(bars, Long, facts), bars[|bars| - 1];
      plan.Success? && plan.value.pattern.Some? ==>
        && HasOhlc(latest)
        && (next.low.value >= latest.low.value ==>
              (Realises(plan.value, SignalAt(bars + [next], |bars|)) <==> next.high.value > latest.high.value))
  {
    hide PlanFor;
    hide Round4;
    var plan := PlanFor(bars, Long, facts);
    if plan.Success? && plan.value.pattern.Some? {
      PlannedPattern(bars, Long, facts);
      SignalOfNext(bars, next);
    }
  }

  lemma ShortForecastExactly(bars: seq<Bar>, next: Bar, facts: Facts)
    requires bars != [] && HasOhlc(next)
    ensures var plan, latest := PlanFor(bars, Short, facts), bars[|bars| - 1];
      plan.Success? && plan.value.pattern.Some? ==>
        && HasOhlc(latest)
        && (next.high.value <= latest.high.value ==>
              (Realises(plan.value, SignalAt(bars + [next], |bars|)) <==> next.low.value < latest.low.value))
  {
    hide PlanFor;
    hide Round4;
    var plan := PlanFor(bars, Short, facts);
    if plan.Success? && plan.value.pattern.Some? {
      PlannedPattern(bars, Short, facts);
      SignalOfNext(bars, next);
    }
  }

  /** The trigger lies strictly beyond the bar it is placed at, whatever the rounding. */
  lemma TriggerIsBeyond(latest: Bar)
    requires HasOhlc(latest)
    ensures TriggerOf(latest, Long) > latest.high.value
    ensures TriggerOf(latest, Short) < latest.low.value
  {
    hide Round4;
  }

  /** The bar reaches the trigger without breaking the other side of the latest bar. */
  predicate Reaches(next: Bar, latest: Bar, direction: Direction, trigger: real)
    requires HasOhlc(next) && HasOhlc(latest)
  {
    match direction
    case Long => next.high.value >= trigger && next.low.value >= latest.low.value
    case Short => next.low.value <= trigger && next.high.value <= latest.high.value
  }

  /** A Strat forecast is realised: if the next bar reaches the trigger without breaking the
      other side of the latest bar, its signal has the plan's pattern, direction and stop. */
  lemma ForecastIsRealised(bars: seq<Bar>, direction: Direction, next: Bar, facts: Facts)
    requires bars != [] && HasOhlc(next)
    ensures var plan, latest := PlanFor(bars, direction, facts), bars[|bars| - 1];
      plan.Success? && plan.value.pattern.Some? ==>
        && HasOhlc(latest) && plan.value.triggerPrice.Some?
        && (Reaches(next, latest, direction, plan.value.triggerPrice.value) ==>
              Realises(plan.value, SignalAt(bars + [next], |bars|)))
  {
    hide PlanFor;
    hide TriggerOf;
    hide SignalAt;
    var plan := PlanFor(bars, direction, facts);
    if plan.Success? && plan.value.pattern.Some? {
      PlannedPattern(bars, direction, facts);
      TriggerIsBeyond(bars[|bars| - 1]);
      match direction
      case Long => LongForecastExactly(bars, next, facts);
      case Short => ShortForecastExactly(bars, next, facts);
    }
  }

  // ----- when there is no plan at all

  /** The average range a plan divides by is zero, and what it divides is positive. */
  predicate DividesByZero(bars: seq<Bar>, direction: Direction, facts: Facts)
    requires bars != [] && HasOhlc(bars[|bars| - 1])
  {
    && AverageTrueRange(bars) == Some(0.0)
    && ((facts.sma20.Some? && TriggerOf(bars[|bars| - 1], direction) > facts.sma20.value)
        || (|bars| >= 2 && HasOhlc(bars[|bars| - 2]) && bars[|bars| - 2].high.value > bars[|bars| - 2].low.value
            && PatternAtEnd(bars, direction) in {Some(InsideBreakout), Some(Continuation212)}))
  }

  /** The pattern pending at the end of the bars. */
  function PatternAtEnd(bars: seq<Bar>, direction: Direction): Option<Pattern> {
    var n := |bars|;
    if n < 2 || !HasOhlc(bars[n - 1]) || !HasOhlc(bars[n - 2]) then None
    else PendingPattern(TypeOf(bars[n - 1], bars[n - 2]), TypeAt(bars, n - 2), direction)
  }

  /** The computation raises exactly when a pattern is pending, the average true range is zero,
      and the trigger lies above the average or the mother bar of the pattern has a range. */
  lemma PlanFailsExactly(bars: seq<Bar>, direction: Direction, facts: Facts)
    ensures PlanFor(bars, direction, facts).Failure?
       <==> PatternAtEnd(bars, direction).Some? && DividesByZero(bars, direction, facts)
  {
    hide NoChaseRules;
    hide AverageTrueRange;
    hide TriggerOf;
    hide Round6;
  }

  /** The last fifteen bars trade at one price. */
  ghost predicate FlatEnd(bars: seq<Bar>, price: real) {
    && |bars| > PERIOD
    && forall i :: |bars| - PERIOD - 1 <= i < |bars| ==> bars[i] == FlatBar(bars[i].ts, price)
  }

  lemma {:induction false} SumOfZeros(s: seq<real>)
    requires forall i :: 0 <= i < |s| ==> s[i] == 0.0
    ensures Sum(s) == 0.0
  {
    if s != [] {
      SumOfZeros(s[..|s| - 1]);
    }
  }

  /** Then the last fourteen true ranges are zero, and so is their average. */
  lemma FlatEndHasNoRange(bars: seq<Bar>, price: real)
    requires Complete(bars) && FlatEnd(bars, price)
    ensures AverageTrueRange(bars) == Some(0.0)
  {
    hide TrueRanges;
    CompleteRanges(bars);
    var sample := Tail(TrueRanges(bars), PERIOD);
    forall i | 0 <= i < |sample|
      ensures sample[i] == 0.0
    {
      var k := |bars| - PERIOD + i;
      assert sample[i] == TrueRanges(bars)[k];
      assert bars[k] == FlatBar(bars[k].ts, price) && bars[k - 1] == FlatBar(bars[k - 1].ts, price);
    }
    SumOfZeros(sample);
    assert Round4(0.0) == 0.0;
  }

  /** Any history that ends flat, above its average, has no long plan: the computation raises. */
  lemma FlatEndRaises(bars: seq<Bar>, price: real, facts: Facts)
    requires Complete(bars) && FlatEnd(bars, price) && facts.sma20.Some? && facts.sma20.value <= price
    ensures PlanFor(bars, Long, facts).Failure?
  {
    hide PlanFor;
    hide AverageTrueRange;
    hide Round4;
    var latest, previous := bars[|bars| - 1], bars[|bars| - 2];
    assert latest == FlatBar(latest.ts, price) && previous == FlatBar(previous.ts, price);
    FlatEndHasNoRange(bars, price);
    TriggerIsBeyond(latest);
    assert TypeOf(latest, previous) == Inside;
    PlanFailsExactly(bars, Long, facts);
  }

  /** The two facts the plan reads, as they are calculated for the last bar. */
  function FactsOfLast(bars: seq<Bar>): Facts
    requires bars != [] && HasOhlc(bars[|bars| - 1])
  {
    var facts := PaFacts.FactsAt(bars, |bars| - 1);
    Facts(facts.sma20, facts.distanceToSma20)
  }

  /** Five days at five, then fifteen at ten. */
  function StepUp(): (bars: seq<Bar>)
    ensures |bars| == 20 && forall i :: 0 <= i < 20 ==> bars[i] == FlatBar(i, if i < 5 then 5.0 else 10.0)
  {
    seq(20, i requires 0 <= i < 20 => FlatBar(i, if i < 5 then 5.0 else 10.0))
  }

  lemma {:induction false} StepUpSum(values: seq<Option<real>>)
    requires |values| <= 20
    requires forall i :: 0 <= i < |values| ==> values[i] == Some(if i < 5 then 5.0 else 10.0)
    ensures PaFacts.SumOf(values)
         == if |values| <= 5 then 5.0 * |values| as real else 10.0 * |values| as real - 25.0
  {
    if values != [] {
      StepUpSum(values[..|values| - 1]);
    }
  }

  lemma StepUpAverage()
    ensures FactsOfLast(StepUp()).sma20 == Some(8.75)
  {
    var closes := Closes(StepUp());
    var window := PaFacts.WindowAt(closes, 19, 20);
    assert window == closes;
    StepUpSum(closes);
    assert PaFacts.Average(closes, 19, 20) == Some(8.75);
    assert Round6(8.75) == 8.75;
  }

  /** It happens with the facts of the history itself: twenty bars, the last fifteen flat at
      10 above their own average of 8.75. */
  lemma FlatBarsRaise()
    ensures FactsOfLast(StepUp()).sma20 == Some(8.75)
    ensures PlanFor(StepUp(), Long, FactsOfLast(StepUp())).Failure?
  {
    hide FactsOfLast;
    hide PlanFor;
    StepUpAverage();
    FlatEndRaises(StepUp(), 10.0, FactsOfLast(StepUp()));
  }

  // ----- the 40-bar window

  lemma {:induction false} CompleteRanges(bars: seq<Bar>)
    requires Complete(bars)
    ensures |TrueRanges(bars)| == |bars|
    ensures forall i :: 1 <= i < |bars| ==>
      TrueRanges(bars)[i] == TrueRange(bars[i].high.value, bars[i].low.value, bars[i - 1].close)
  {
    if bars != [] {
      var before := bars[..|bars| - 1];
      CompleteRanges(before);
      if before != [] {
        assert LastClose(before) == before[|before| - 1].close;
      }
    }
  }

  /** The last ranges do not depend on bars before the window. */
  lemma TailRangesAgree(bars: seq<Bar>, n: nat)
    requires Complete(bars) && n + PERIOD < |bars|
    ensures Tail(TrueRanges(bars), PERIOD) == Tail(TrueRanges(bars[n..]), PERIOD)
  {
    hide TrueRanges;
    var window := bars[n..];
    assert Complete(window);
    CompleteRanges(bars);
    CompleteRanges(window);
    var full, cut := Tail(TrueRanges(bars), PERIOD), Tail(TrueRanges(window), PERIOD);
    forall i | 0 <= i < PERIOD
      ensures full[i] == cut[i]
    {
      var k := |window| - PERIOD + i;
      assert window[k] == bars[n + k] && window[k - 1] == bars[n + k - 1];
    }
  }

  lemma {:induction false} CountInWindow(bars: seq<Bar>, n: nat, target: BarType)
    requires n < |bars|
    ensures ConsecutiveCount(bars[n..], target)
         == (if ConsecutiveCount(bars, target) < |bars| - n - 1 then ConsecutiveCount(bars, target) else |bars| - n - 1)
    decreases |bars|
  {
    var window := bars[n..];
    if |window| == 1 {
      assert ConsecutiveCount(window, target) == 0;
    } else {
      assert TypeAt(window, |window| - 1) == TypeAt(bars, |bars| - 1);
      assert window[..|window| - 1] == bars[..|bars| - 1][n..];
      CountInWindow(bars[..|bars| - 1], n, target);
    }
  }

  predicate SameGuard(a: Guard, b: Guard) {
    && a.level == b.level && a.code == b.code && a.threshold == b.threshold
    && (a.value == b.value || a.code.ConsecutiveTwoUp?)
  }

  ghost predicate SameGuards(a: seq<Guard>, b: seq<Guard>) {
    |a| == |b| && forall i :: 0 <= i < |a| ==> SameGuard(a[i], b[i])
  }

  /** The plans agree in everything but the count of consecutive 2U bars, and the value the
      guard on that count reports. */
  ghost predicate SamePlan(full: TriggerPlan, cut: TriggerPlan) {
    cut == full.(twoUpCount := cut.twoUpCount, rules := cut.rules) && SameGuards(full.rules, cut.rules)
  }

  /** What the guards depend on agrees, and the count on the same side of three. */
  lemma GuardsAgree(
    bars: seq<Bar>, window: seq<Bar>, latest: BarType, pattern: Pattern, trigger: real, riskPct: Option<real>,
    risk: Option<real>, atr: Option<real>, distance: Option<real>, count: nat, count': nat, facts: Facts)
    requires MotherBar(bars, pattern) == MotherBar(window, pattern)
    requires count >= 3 <==> count' >= 3
    ensures Divides(bars, pattern, trigger, atr, facts) == Divides(window, pattern, trigger, atr, facts)
    ensures Divides(bars, pattern, trigger, atr, facts) ==>
      var a := NoChaseRules(bars, latest, pattern, trigger, riskPct, risk, atr, distance, count, facts);
      var b := NoChaseRules(window, latest, pattern, trigger, riskPct, risk, atr, distance, count', facts);
      SameGuards(a, b) && Blocks(a) == Blocks(b)
  {
    if Divides(bars, pattern, trigger, atr, facts) {
      hide RiskRules;
      hide DistanceRules;
      hide ExtensionRules;
      hide CountRules;
      hide MotherRules;
      hide StopLimit;
      hide SameGuards;
      hide Blocks;
      var a := NoChaseRules(bars, latest, pattern, trigger, riskPct, risk, atr, distance, count, facts);
      var b := NoChaseRules(window, latest, pattern, trigger, riskPct, risk, atr, distance, count', facts);
      var limit := StopLimit(trigger, risk, atr);
      var x := RiskRules(riskPct) + DistanceRules(distance) + ExtensionRules(trigger, atr, facts);
      var mother, gap := MotherRules(MotherBar(bars, pattern), atr), [Guard(Info, GapNoChaseLimit, limit, limit)];
      var y := mother + gap;
      Regroup(x, CountRules(latest, count), mother, gap);
      Regroup(x, CountRules(latest, count'), mother, gap);
      CountGuardsAgree(latest, count, count');
      SameGuardsAround(x, CountRules(latest, count), CountRules(latest, count'), y);
      SameBlocks(a, b);
    }
  }

  lemma Regroup(a: seq<Guard>, b: seq<Guard>, c: seq<Guard>, d: seq<Guard>)
    ensures a + b + c + d == a + b + (c + d)
  {
  }

  lemma CountGuardsAgree(latest: BarType, count: nat, count': nat)
    requires count >= 3 <==> count' >= 3
    ensures SameGuards(CountRules(latest, count), CountRules(latest, count'))
  {
  }

  lemma SameGuardsAround(x: seq<Guard>, a: seq<Guard>, b: seq<Guard>, y: seq<Guard>)
    requires SameGuards(a, b)
    ensures SameGuards(x + a + y, x + b + y)
  {
    var p, q := x + a + y, x + b + y;
    forall i | 0 <= i < |p|
      ensures SameGuard(p[i], q[i])
    {
      if |x| <= i < |x| + |a| {
        assert SameGuard(a[i - |x|], b[i - |x|]);
      }
    }
  }

  lemma SameBlocks(a: seq<Guard>, b: seq<Guard>)
    requires SameGuards(a, b)
    ensures Blocks(a) == Blocks(b)
  {
    if Blocks(a) {
      var i :| 0 <= i < |a| && a[i].level.Block?;
      assert SameGuard(a[i], b[i]);
    }
    if Blocks(b) {
      var i :| 0 <= i < |b| && b[i].level.Block?;
      assert SameGuard(a[i], b[i]);
    }
  }

  /** The window the service loads loses nothing: on complete history the plan from the last
      40 bars has the same status, pattern, prices, range and guard codes as the plan from all
      bars, or both computations raise; the 2U count is the full one, at most 39. */
  lemma WindowLosesNothing(bars: seq<Bar>, direction: Direction, facts: Facts)
    requires Complete(bars) && |bars| > WINDOW
    ensures var full := PlanFor(bars, direction, facts);
      var cut := PlanFor(Tail(bars, WINDOW), direction, facts);
      && full.Success? == cut.Success?
      && (full.Success? ==>
            && SamePlan(full.value, cut.value)
            && cut.value.twoUpCount == if full.value.twoUpCount < 39 then full.value.twoUpCount else 39)
  {
    hide AverageTrueRange;
    hide NoChaseRules;
    hide Divides;
    hide Blocks;
    hide StopLimit;
    hide Round4;
    hide Round6;
    var n := |bars| - WINDOW;
    var window := bars[n..];
    assert window[|window| - 1] == bars[|bars| - 1] && window[|window| - 2] == bars[|bars| - 2];
    assert TypeAt(window, |window| - 2) == TypeAt(bars, |bars| - 2);
    RangeInWindow(bars, n);
    CountInWindow(bars, n, TwoUp);
    var latest := bars[|bars| - 1];
    var latestType := TypeOf(latest, bars[|bars| - 2]);
    var pattern := PendingPattern(latestType, TypeAt(bars, |bars| - 2), direction);
    if pattern.Some? {
      var trigger := TriggerOf(latest, direction);
      var risk := if direction.Long? then Some(Round4(trigger - StopOf(latest, direction))) else None;
      var riskPct := if risk.Some? && trigger > 0.0 then Some(Round6(risk.value / trigger)) else None;
      GuardsAgree(bars, window, latestType, pattern.value, trigger, riskPct, risk, AverageTrueRange(bars),
        DistanceToSma20(latest, facts), ConsecutiveCount(bars, TwoUp), ConsecutiveCount(window, TwoUp), facts);
    }
  }

  lemma RangeInWindow(bars: seq<Bar>, n: nat)
    requires Complete(bars) && n + PERIOD < |bars|
    ensures AverageTrueRange(bars[n..]) == AverageTrueRange(bars)
  {
    TailRangesAgree(bars, n);
  }
}
