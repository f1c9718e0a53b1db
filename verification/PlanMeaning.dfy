/** What a pending Strat plan says, in terms of the prices of the bars it is made from. */
module PlanMeaning {
  import opened Numbers
  import opened Wrappers
  import opened Rounding
  import opened Bars
  import opened StratSignals
  import opened StratPlan
  import opened StratMeaning
  import StratTheorems

  // ----- the average true range

  /** The true range spans the bar and the close before it. */
  function Span(high: real, low: real, previousClose: Option<real>): real {
    match previousClose
    case None => high - low
    case Some(close) => (if close > high then close else high) - (if close < low then close else low)
  }

  lemma TrueRangeSpans(high: real, low: real, previousClose: Option<real>)
    requires low <= high
    ensures TrueRange(high, low, previousClose) == Span(high, low, previousClose)
  {
  }

  ghost predicate Upright(bars: seq<Bar>) {
    Complete(bars) && forall i :: 0 <= i < |bars| ==> bars[i].low.value <= bars[i].high.value
  }

  function SpanAt(bars: seq<Bar>, k: nat): real
    requires k < |bars| && HasOhlc(bars[k])
  {
    Span(bars[k].high.value, bars[k].low.value, if k == 0 then None else bars[k - 1].close)
  }

  /** The spans of the last n bars. */
  function LastSpans(bars: seq<Bar>, n: nat): real
    requires n <= |bars| && forall i :: 0 <= i < |bars| ==> HasOhlc(bars[i])
  {
    if n == 0 then 0.0 else SpanAt(bars, |bars| - n) + LastSpans(bars, n - 1)
  }

  lemma RangesAreSpans(bars: seq<Bar>)
    requires Upright(bars)
    ensures |TrueRanges(bars)| == |bars|
    ensures forall i :: 0 <= i < |bars| ==> TrueRanges(bars)[i] == SpanAt(bars, i)
  {
    StratTheorems.CompleteRanges(bars);
    forall i | 0 <= i < |bars|
      ensures TrueRanges(bars)[i] == SpanAt(bars, i)
    {
      TrueRangeSpans(bars[i].high.value, bars[i].low.value, if i == 0 then None else bars[i - 1].close);
      if i == 0 {
        FirstRange(bars);
      }
    }
  }

  /** The close before bar k, the latest one there is. */
  ghost predicate IsCloseBefore(close: Option<real>, bars: seq<Bar>, k: nat)
    requires k <= |bars|
  {
    match close
    case None => forall j :: 0 <= j < k ==> bars[j].close.None?
    case Some(_) =>
      exists j :: 0 <= j < k && bars[j].close == close && forall i :: j < i < k ==> bars[i].close.None?
  }

  lemma {:induction false} LastCloseIsLatest(bars: seq<Bar>, k: nat)
    requires k <= |bars|
    ensures IsCloseBefore(LastClose(bars[..k]), bars, k)
  {
    if k > 0 {
      assert bars[..k][..k - 1] == bars[..k - 1];
      LastCloseIsLatest(bars, k - 1);
      if bars[k - 1].close.None? && LastClose(bars[..k - 1]).Some? {
        var j :| 0 <= j < k - 1 && bars[j].close == LastClose(bars[..k - 1])
                 && forall i :: j < i < k - 1 ==> bars[i].close.None?;
        assert forall i :: j < i < k ==> bars[i].close.None?;
      }
    }
  }

  /** A bar with its prices adds its true range, measured from the latest close before it, even
      if that is not the bar before; any other bar adds none. */
  lemma RangeOfNext(bars: seq<Bar>, k: nat)
    requires k < |bars|
    ensures IsCloseBefore(LastClose(bars[..k]), bars, k)
    ensures TrueRanges(bars[..k + 1]) == TrueRanges(bars[..k])
      + (if HasOhlc(bars[k]) then [TrueRange(bars[k].high.value, bars[k].low.value, LastClose(bars[..k]))] else [])
  {
    LastCloseIsLatest(bars, k);
    assert bars[..k + 1][..k] == bars[..k];
  }

  lemma {:induction false} FirstRange(bars: seq<Bar>)
    requires Complete(bars) && bars != []
    ensures |TrueRanges(bars)| == |bars|
    ensures TrueRanges(bars)[0] == bars[0].high.value - bars[0].low.value
  {
    if |bars| == 1 {
      assert bars[..0] == [];
    } else {
      FirstRange(bars[..|bars| - 1]);
    }
  }

  lemma {:induction false} SumFromFront(s: seq<real>)
    requires s != []
    ensures Sum(s) == s[0] + Sum(s[1..])
  {
    if |s| > 1 {
      SumFromFront(s[..|s| - 1]);
      assert s[1..][..|s| - 2] == s[..|s| - 1][1..];
    }
  }

  lemma {:induction false} TailSums(bars: seq<Bar>, n: nat)
    requires Upright(bars) && n <= |bars|
    ensures |TrueRanges(bars)| == |bars| && Sum(TrueRanges(bars)[|bars| - n..]) == LastSpans(bars, n)
  {
    RangesAreSpans(bars);
    if n > 0 {
      TailSums(bars, n - 1);
      var tail := TrueRanges(bars)[|bars| - n..];
      SumFromFront(tail);
      assert tail[1..] == TrueRanges(bars)[|bars| - (n - 1)..];
    }
  }

  /** n times the rounded mean is the total, up to n roundings to four decimals. */
  predicate MeanOf(mean: real, total: real, n: nat) {
    total - 0.00005 * n as real <= Times(mean, n as real) <= total + 0.00005 * n as real
  }

  lemma RoundedMean(total: real, n: nat)
    requires n > 0
    ensures MeanOf(Round4(total / n as real), total, n)
  {
    var exact, k := total / n as real, n as real;
    assert exact * k == total;
    ProductNonNegative(Round4(exact) - exact + 0.00005, k);
    ProductNonNegative(exact + 0.00005 - Round4(exact), k);
  }

  /** The average true range is the mean span of the last fourteen bars, or of all if there
      are fewer. */
  lemma AverageSpans(bars: seq<Bar>)
    requires Upright(bars) && |bars| >= 2
    ensures var n := if |bars| < 14 then |bars| else 14;
      AverageTrueRange(bars).Some? && MeanOf(AverageTrueRange(bars).value, LastSpans(bars, n), n)
  {
    hide MeanOf;
    hide Round4;
    hide LastSpans;
    hide Sum;
    hide TrueRanges;
    var n := if |bars| < 14 then |bars| else 14;
    TailSums(bars, n);
    assert Tail(TrueRanges(bars), PERIOD) == TrueRanges(bars)[|bars| - n..];
    RoundedMean(LastSpans(bars, n), n);
  }

  // ----- the pattern, its levels and its risk

  /** Bars that pend in a direction: the last one breaks neither side, or only the side to go. */
  predicate Pends(bars: seq<Bar>, direction: Direction) {
    var k := |bars| - 1;
    BreaksNeither(bars, k) || (if direction.Long? then BreaksOnlyHigh(bars, k) else BreaksOnlyLow(bars, k))
  }

  /** One tick: a cent, or a hundredth of one below a price of one. */
  function Tick(price: real): real {
    if price < 1.0 then 0.0001 else 0.01
  }

  /** The plan's pattern is what the last two bars pend. */
  predicate PendsAs(pattern: Option<Pattern>, bars: seq<Bar>, direction: Direction) {
    var k := |bars| - 1;
    && (pattern.Some? <==> Pends(bars, direction))
    && (pattern == Some(Continuation212) <==>
          BreaksNeither(bars, k)
          && (if direction.Long? then BreaksOnlyHigh(bars, k - 1) else BreaksOnlyLow(bars, k - 1)))
    && (pattern == Some(InsideBreakout) <==> direction.Long? && BreaksNeither(bars, k) && !BreaksOnlyHigh(bars, k - 1))
    && (pattern == Some(InsideBreakdown) <==> direction.Short? && BreaksNeither(bars, k) && !BreaksOnlyLow(bars, k - 1))
    && (pattern == Some(TwoUpContinuation) <==> direction.Long? && BreaksOnlyHigh(bars, k))
    && (pattern == Some(TwoDownContinuation) <==> direction.Short? && BreaksOnlyLow(bars, k))
  }

  /** The plan is entered one tick beyond the last bar and stopped at its other side. */
  predicate PlansLevels(plan: TriggerPlan, latest: Bar, direction: Direction) {
    && HasOhlc(latest) && plan.triggerPrice.Some? && plan.triggerStop.Some? && plan.direction == Some(direction)
    && (match direction
        case Long =>
          && Near4(plan.triggerPrice.value, latest.high.value + Tick(latest.high.value))
          && Near4(plan.triggerStop.value, latest.low.value)
          && plan.orderType == Some(BuyStopLimit)
          && plan.riskPerShare.Some?
          && Near4(plan.riskPerShare.value, plan.triggerPrice.value - plan.triggerStop.value)
        case Short =>
          && Near4(plan.triggerPrice.value, latest.low.value - Tick(latest.low.value))
          && Near4(plan.triggerStop.value, latest.high.value)
          && plan.orderType == Some(SellStopLimit)
          && plan.riskPerShare.None? && plan.riskDistancePct.None?)
  }

  /** The risk per share as a share of the trigger, for a positive trigger. */
  predicate PlansDistance(plan: TriggerPlan) {
    plan.riskPerShare.Some? && plan.triggerPrice.Some? ==>
      var trigger, risk := plan.triggerPrice.value, plan.riskPerShare.value;
      && (plan.riskDistancePct.Some? <==> trigger > 0.0)
      && (trigger > 0.0 ==>
            risk - Times(HALF_MICRO, trigger) <= Times(plan.riskDistancePct.value, trigger)
              <= risk + Times(HALF_MICRO, trigger))
  }

  /** The limit leaves room beyond the trigger: half the risk or three quarters of the average
      range, the smaller of those that are positive, and else half a percent. */
  predicate PlansLimit(plan: TriggerPlan) {
    plan.triggerPrice.Some? && plan.stopLimitPrice.Some? &&
    var trigger := plan.triggerPrice.value;
    var risk, range := plan.riskPerShare.GetOr(0.0), plan.atr14.GetOr(0.0);
    var room := plan.stopLimitPrice.value - trigger;
    && (risk > 0.0 ==> room <= risk * 0.5 + 0.00005)
    && (range > 0.0 ==> room <= range * 0.75 + 0.00005)
    && (|| (risk > 0.0 && Near4(room, risk * 0.5)) || (range > 0.0 && Near4(room, range * 0.75))
        || (risk <= 0.0 && range <= 0.0 && Near4(room, trigger * 0.005)))
  }

  /** The last bars that break only the high, as many as there are in a row. */
  ghost predicate CountsRise(count: nat, bars: seq<Bar>) {
    && count < |bars| + 1
    && (forall k :: |bars| - count <= k < |bars| ==> BreaksOnlyHigh(bars, k))
    && !BreaksOnlyHigh(bars, |bars| - count - 1)
  }

  lemma {:induction false} CountIsRise(bars: seq<Bar>)
    ensures CountsRise(ConsecutiveCount(bars, TwoUp), bars)
  {
    TypeNames(bars, |bars| - 1);
    if TypeAt(bars, |bars| - 1) == Some(TwoUp) {
      var front := bars[..|bars| - 1];
      CountIsRise(front);
      assert forall k :: k < |front| ==> (BreaksOnlyHigh(front, k) <==> BreaksOnlyHigh(bars, k));
    }
  }

  /** The distance from the 20-day average as a share of it, if it is not given. */
  predicate PlansAverage(plan: TriggerPlan, latest: Bar, facts: Facts) {
    match facts.distanceToSma20
    case Some(given) => plan.distanceToSma20.Some? && Near(plan.distanceToSma20.value, given, 1)
    case None =>
      && (plan.distanceToSma20.Some? <==> facts.sma20.Some? && latest.close.Some? && facts.sma20.value != 0.0)
      && (plan.distanceToSma20.Some? && facts.sma20.value > 0.0 ==>
            var average, off := facts.sma20.value, latest.close.value - facts.sma20.value;
            off - Times(HALF_MICRO, average) <= Times(plan.distanceToSma20.value, average)
              <= off + Times(HALF_MICRO, average))
  }

  /** Dividing, rounding and multiplying again loses little. */
  lemma QuotientBack(x: real, y: real)
    requires y > 0.0
    ensures x - Times(HALF_MICRO, y) <= Times(Round6(x / y), y) <= x + Times(HALF_MICRO, y)
  {
    var exact := x / y;
    assert exact * y == x;
    ProductNonNegative(Round6(exact) - exact + HALF_MICRO, y);
    ProductNonNegative(exact + HALF_MICRO - Round6(exact), y);
  }

  /** A plan says of its bars what they show. */
  ghost predicate Tells(plan: TriggerPlan, bars: seq<Bar>, direction: Direction, facts: Facts)
    requires bars != []
  {
    var latest, k := bars[|bars| - 1], |bars| - 1;
    && plan.latestTs == Some(latest.ts)
    && (!Paired(bars, k) ==> plan == EMPTY_PLAN.(latestTs := Some(latest.ts)))
    && (Paired(bars, k) ==>
          && Names(plan.latestType, bars, k) && Names(plan.previousType, bars, k - 1)
          && plan.atr14 == AverageTrueRange(bars)
          && PlansAverage(plan, latest, facts)
          && CountsRise(plan.twoUpCount, bars)
          && plan.continuity.Some? && Continues(plan.continuity.value, latest)
          && PendsAs(plan.pattern, bars, direction)
          && (plan.pattern.None? <==> plan.status.BarOnly?)
          && (plan.pattern.Some? ==>
                PlansLevels(plan, latest, direction) && PlansDistance(plan) && PlansLimit(plan)))
  }

  lemma PendingIs(bars: seq<Bar>, direction: Direction)
    requires Paired(bars, |bars| - 1)
    ensures var k := |bars| - 1;
      PendsAs(PendingPattern(TypeOf(bars[k], bars[k - 1]), TypeAt(bars, k - 1), direction), bars, direction)
  {
  }

  lemma LimitLeavesRoom(plan: TriggerPlan)
    requires plan.triggerPrice.Some?
    requires plan.stopLimitPrice == Some(StopLimit(plan.triggerPrice.value, plan.riskPerShare, plan.atr14))
    ensures PlansLimit(plan)
  {
    hide Round4;
  }

  lemma DistanceIs(plan: TriggerPlan, latest: Bar, facts: Facts)
    requires plan.distanceToSma20 == DistanceToSma20(latest, facts)
    ensures PlansAverage(plan, latest, facts)
  {
    if facts.distanceToSma20.None? && facts.sma20.Some? && latest.close.Some? && facts.sma20.value > 0.0 {
      QuotientBack(latest.close.value - facts.sma20.value, facts.sma20.value);
    }
    hide Round6;
    hide Times;
  }

  /** The plan's fields as they are computed. */
  lemma PlanFields(bars: seq<Bar>, direction: Direction, facts: Facts)
    requires Paired(bars, |bars| - 1) && PlanFor(bars, direction, facts).Success?
    ensures var plan, k := PlanFor(bars, direction, facts).value, |bars| - 1;
      && plan.latestTs == Some(bars[k].ts)
      && plan.latestType == TypeAt(bars, k) && plan.previousType == TypeAt(bars, k - 1)
      && plan.pattern == PendingPattern(TypeOf(bars[k], bars[k - 1]), TypeAt(bars, k - 1), direction)
      && plan.atr14 == AverageTrueRange(bars) && plan.twoUpCount == ConsecutiveCount(bars, TwoUp)
      && plan.distanceToSma20 == DistanceToSma20(bars[k], facts)
      && plan.continuity == Some(ContinuityOf(bars[k]))
      && (plan.pattern.None? <==> plan.status.BarOnly?)
      && (plan.pattern.Some? ==>
            && plan.direction == Some(direction)
            && plan.triggerPrice == Some(TriggerOf(bars[k], direction))
            && plan.triggerStop == Some(StopOf(bars[k], direction))
            && plan.orderType == Some(if direction.Long? then BuyStopLimit else SellStopLimit)
            && plan.riskPerShare
               == (if direction.Long? then Some(Round4(plan.triggerPrice.value - plan.triggerStop.value)) else None)
            && plan.riskDistancePct
               == (if plan.riskPerShare.Some? && plan.triggerPrice.value > 0.0
                   then Some(Round6(plan.riskPerShare.value / plan.triggerPrice.value)) else None)
            && plan.stopLimitPrice == Some(StopLimit(plan.triggerPrice.value, plan.riskPerShare, plan.atr14)))
  {
    hide AverageTrueRange;
    hide ConsecutiveCount;
    hide NoChaseRules;
    hide Divides;
    hide Blocks;
    hide Round4;
    hide Round6;
    hide TriggerOf;
    hide StopOf;
    hide StopLimit;
    hide DistanceToSma20;
    hide PendingPattern;
  }

  lemma LevelsTell(plan: TriggerPlan, latest: Bar, direction: Direction)
    requires HasOhlc(latest) && plan.direction == Some(direction)
    requires plan.triggerPrice == Some(TriggerOf(latest, direction))
    requires plan.triggerStop == Some(StopOf(latest, direction))
    requires plan.orderType == Some(if direction.Long? then BuyStopLimit else SellStopLimit)
    requires plan.riskPerShare
          == (if direction.Long? then Some(Round4(plan.triggerPrice.value - plan.triggerStop.value)) else None)
    requires plan.riskDistancePct
          == (if plan.riskPerShare.Some? && plan.triggerPrice.value > 0.0
              then Some(Round6(plan.riskPerShare.value / plan.triggerPrice.value)) else None)
    ensures PlansLevels(plan, latest, direction) && PlansDistance(plan)
  {
    hide Round4;
    if direction.Long? && plan.triggerPrice.value > 0.0 {
      QuotientBack(plan.riskPerShare.value, plan.triggerPrice.value);
    }
    hide Round6;
    hide Times;
  }

  /** Where the computation gives a plan, the plan tells what the bars show. */
  lemma PlanTells(bars: seq<Bar>, direction: Direction, facts: Facts)
    requires bars != [] && PlanFor(bars, direction, facts).Success?
    ensures Tells(PlanFor(bars, direction, facts).value, bars, direction, facts)
  {
    hide TypeAt;
    hide TypeOf;
    hide Names;
    hide CountsRise;
    hide PendsAs;
    hide PlansAverage;
    hide PlansLevels;
    hide PlansDistance;
    hide PlansLimit;
    hide PendingPattern;
    hide ConsecutiveCount;
    hide AverageTrueRange;
    hide DistanceToSma20;
    var k := |bars| - 1;
    if Paired(bars, k) {
      PlanFields(bars, direction, facts);
      var plan := PlanFor(bars, direction, facts).value;
      hide PlanFor;
      TypeNames(bars, k);
      TypeNames(bars, k - 1);
      CountIsRise(bars);
      PendingIs(bars, direction);
      DistanceIs(plan, bars[k], facts);
      if plan.pattern.Some? {
        LimitLeavesRoom(plan);
        LevelsTell(plan, bars[k], direction);
      }
    } else {
      hide NoChaseRules;
    }
  }

  // ----- the guards

  /** A guard of the code is there exactly if raised, at the level and threshold. */
  ghost predicate Raised(rules: seq<Guard>, code: Code, raised: bool, level: StratPlan.Level, threshold: real) {
    && (raised <==> exists g :: g in rules && g.code == code)
    && forall g :: g in rules && g.code == code ==> g.level == level && g.threshold == threshold
  }

  ghost predicate ReportsValue(rules: seq<Guard>, code: Code, value: real) {
    forall g :: g in rules && g.code == code ==> g.value == value
  }

  /** The guards of the code report how often a range goes into a distance, rounded. */
  ghost predicate ReportsRanges(rules: seq<Guard>, code: Code, distance: real, range: real) {
    forall g :: g in rules && g.code == code ==>
      distance - Times(0.00005, range) <= Times(g.value, range) <= distance + Times(0.00005, range)
  }

  /** Of the code, the part has the same guards. */
  ghost predicate Same(part: seq<Guard>, rules: seq<Guard>, code: Code) {
    forall g: Guard :: g.code == code ==> (g in part <==> g in rules)
  }

  lemma RaisedInPart(part: seq<Guard>, rules: seq<Guard>, code: Code, level: StratPlan.Level, threshold: real)
    requires Same(part, rules, code)
    ensures forall raised ::
      Raised(part, code, raised, level, threshold) ==> Raised(rules, code, raised, level, threshold)
    ensures forall value :: ReportsValue(part, code, value) ==> ReportsValue(rules, code, value)
    ensures forall distance, range ::
      ReportsRanges(part, code, distance, range) ==> ReportsRanges(rules, code, distance, range)
  {
  }

  lemma RangesBack(distance: real, range: real)
    requires range > 0.0
    ensures distance - Times(0.00005, range) <= Times(InRanges(distance, range), range)
      <= distance + Times(0.00005, range)
  {
    var exact := distance / range;
    assert exact * range == distance;
    ProductNonNegative(Round4(exact) - exact + 0.00005, range);
    ProductNonNegative(exact + 0.00005 - Round4(exact), range);
  }

  lemma OneGuard(g: Guard)
    ensures Raised([g], g.code, true, g.level, g.threshold) && ReportsValue([g], g.code, g.value)
  {
    assert g in [g];
  }

  /** The trigger lies more than two average ranges above the 20-day average. */
  predicate Extended(trigger: real, facts: Facts, range: Option<real>) {
    facts.sma20.Some? && range.Some? && trigger - facts.sma20.value > 2.0 * range.value
  }

  lemma RiskRaises(risk: Option<real>)
    ensures Raised(RiskRules(risk), RiskTooWide, risk.Some? && risk.value > 0.12, Block, 0.12)
    ensures risk.Some? ==> ReportsValue(RiskRules(risk), RiskTooWide, risk.value)
  {
    if RiskRules(risk) != [] {
      OneGuard(RiskRules(risk)[0]);
    }
  }

  lemma DistanceRaises(distance: Option<real>)
    ensures Raised(DistanceRules(distance), OverextendedFromMa20, distance.Some? && distance.value > 0.08, Block, 0.08)
    ensures distance.Some? ==> ReportsValue(DistanceRules(distance), OverextendedFromMa20, distance.value)
  {
    if DistanceRules(distance) != [] {
      OneGuard(DistanceRules(distance)[0]);
    }
  }

  lemma ExtensionRaises(trigger: real, atr: Option<real>, facts: Facts)
    requires atr == Some(0.0) && facts.sma20.Some? ==> trigger - facts.sma20.value <= 0.0
    requires atr.Some? ==> atr.value >= 0.0
    ensures Raised(ExtensionRules(trigger, atr, facts), AtrExtension, Extended(trigger, facts, atr), Block, 2.0)
    ensures facts.sma20.Some? && atr.Some? ==>
      ReportsRanges(ExtensionRules(trigger, atr, facts), AtrExtension, trigger - facts.sma20.value, atr.value)
  {
    if ExtensionRules(trigger, atr, facts) != [] {
      OneGuard(ExtensionRules(trigger, atr, facts)[0]);
      RangesBack(trigger - facts.sma20.value, atr.value);
    }
    hide InRanges;
  }

  lemma CountRaises(latest: BarType, count: nat)
    ensures Raised(CountRules(latest, count), ConsecutiveTwoUp, latest.TwoUp? && count >= 3, Block, 3.0)
    ensures ReportsValue(CountRules(latest, count), ConsecutiveTwoUp, count as real)
  {
    if CountRules(latest, count) != [] {
      OneGuard(CountRules(latest, count)[0]);
    }
  }

  lemma OpeningJoins(
    latest: BarType, trigger: real, riskPct: Option<real>, atr: Option<real>, distance: Option<real>,
    count: nat, facts: Facts)
    requires atr == Some(0.0) && facts.sma20.Some? ==> trigger - facts.sma20.value <= 0.0
    ensures var rules := OpeningRules(latest, trigger, riskPct, atr, distance, count, facts);
      && Same(RiskRules(riskPct), rules, RiskTooWide)
      && Same(DistanceRules(distance), rules, OverextendedFromMa20)
      && Same(ExtensionRules(trigger, atr, facts), rules, AtrExtension)
      && Same(CountRules(latest, count), rules, ConsecutiveTwoUp)
      && (forall g :: g in rules ==> g.code in {RiskTooWide, OverextendedFromMa20, AtrExtension, ConsecutiveTwoUp})
  {
    hide InRanges;
  }

  /** The guards before those on the mother bar: which there are, and what they report. */
  lemma OpeningRaises(
    latest: BarType, trigger: real, riskPct: Option<real>, atr: Option<real>, distance: Option<real>,
    count: nat, facts: Facts)
    requires atr == Some(0.0) && facts.sma20.Some? ==> trigger - facts.sma20.value <= 0.0
    requires atr.Some? ==> atr.value >= 0.0
    ensures var rules := OpeningRules(latest, trigger, riskPct, atr, distance, count, facts);
      && Raised(rules, RiskTooWide, riskPct.Some? && riskPct.value > 0.12, Block, 0.12)
      && (riskPct.Some? ==> ReportsValue(rules, RiskTooWide, riskPct.value))
      && Raised(rules, OverextendedFromMa20, distance.Some? && distance.value > 0.08, Block, 0.08)
      && (distance.Some? ==> ReportsValue(rules, OverextendedFromMa20, distance.value))
      && Raised(rules, AtrExtension, Extended(trigger, facts, atr), Block, 2.0)
      && (facts.sma20.Some? && atr.Some? ==>
            ReportsRanges(rules, AtrExtension, trigger - facts.sma20.value, atr.value))
      && Raised(rules, ConsecutiveTwoUp, latest.TwoUp? && count >= 3, Block, 3.0)
      && ReportsValue(rules, ConsecutiveTwoUp, count as real)
  {
    RiskRaises(riskPct);
    DistanceRaises(distance);
    ExtensionRaises(trigger, atr, facts);
    CountRaises(latest, count);
    OpeningJoins(latest, trigger, riskPct, atr, distance, count, facts);
    hide *;
    var rules := OpeningRules(latest, trigger, riskPct, atr, distance, count, facts);
    RaisedInPart(RiskRules(riskPct), rules, RiskTooWide, Block, 0.12);
    RaisedInPart(DistanceRules(distance), rules, OverextendedFromMa20, Block, 0.08);
    RaisedInPart(ExtensionRules(trigger, atr, facts), rules, AtrExtension, Block, 2.0);
    RaisedInPart(CountRules(latest, count), rules, ConsecutiveTwoUp, Block, 3.0);
  }

  // ----- the mother bar

  /** The size of a bar as a share of its close; nothing for a close of zero. */
  predicate WiderThan(bar: Bar, share: real) {
    HasOhlc(bar) && bar.close.value != 0.0
    && (bar.high.value - bar.low.value) / bar.close.value > share
  }

  /** The guards of the code report the size of the bar as a share of its close. */
  ghost predicate ReportsShare(rules: seq<Guard>, code: Code, bar: Bar) {
    HasOhlc(bar) &&
    forall g :: g in rules && g.code == code ==>
      Times(g.value, bar.close.value) == bar.high.value - bar.low.value
  }

  lemma ShareBack(size: real, close: real)
    requires close != 0.0
    ensures Times(size / close, close) == size
  {
  }

  predicate WideFor(mother: Option<Bar>, range: Option<real>) {
    mother.Some? && HasOhlc(mother.value) && range.Some?
    && mother.value.high.value - mother.value.low.value > 2.0 * range.value
  }

  /** A mother bar wider than eight percent of its close blocks, one wider than six warns; one
      of more than two average ranges blocks. */
  lemma MotherRaises(mother: Option<Bar>, atr: Option<real>)
    requires mother.Some? ==> HasOhlc(mother.value)
    requires mother.Some? && atr == Some(0.0) ==> mother.value.high.value - mother.value.low.value <= 0.0
    requires atr.Some? ==> atr.value >= 0.0
    ensures var rules, wide := MotherRules(mother, atr), mother.Some? && WiderThan(mother.value, 0.06);
      && Raised(rules, WideMotherBar, wide,
                if wide && WiderThan(mother.value, 0.08) then Block else Warning,
                if wide && WiderThan(mother.value, 0.08) then 0.08 else 0.06)
      && Raised(rules, MotherBarExceedsAtr, WideFor(mother, atr), Block, 2.0)
      && (mother.Some? && atr.Some? ==>
            ReportsRanges(rules, MotherBarExceedsAtr, mother.value.high.value - mother.value.low.value, atr.value))
      && (mother.Some? ==> ReportsShare(rules, WideMotherBar, mother.value))
  {
    var rules := MotherRules(mother, atr);
    if mother.Some? && mother.value.close.value != 0.0 {
      ShareBack(mother.value.high.value - mother.value.low.value, mother.value.close.value);
    }
    if WideFor(mother, atr) {
      var size := mother.value.high.value - mother.value.low.value;
      RangesBack(size, atr.value);
      assert rules[|rules| - 1].code == MotherBarExceedsAtr && rules[|rules| - 1] in rules;
    }
    if mother.Some? && WiderThan(mother.value, 0.06) {
      assert rules[0].code == WideMotherBar && rules[0] in rules;
    }
    hide InRanges;
    hide Times;
  }

  // ----- what blocks a plan

  lemma {:induction false} RangesNeverNegative(s: seq<real>)
    requires forall i :: 0 <= i < |s| ==> s[i] >= 0.0
    ensures Sum(s) >= 0.0
  {
    if s != [] {
      RangesNeverNegative(s[..|s| - 1]);
    }
  }

  lemma AverageNeverNegative(bars: seq<Bar>)
    requires Upright(bars)
    ensures AverageTrueRange(bars).Some? ==> AverageTrueRange(bars).value >= 0.0
  {
    RangesAreSpans(bars);
    var sample := Tail(TrueRanges(bars), PERIOD);
    forall i | 0 <= i < |sample|
      ensures sample[i] >= 0.0
    {
      assert sample[i] == TrueRanges(bars)[|bars| - |sample| + i];
    }
    RangesNeverNegative(sample);
    if |bars| >= 2 {
      NonNegativeMean(Sum(sample), |sample|);
    }
  }

  lemma NonNegativeMean(total: real, n: nat)
    requires total >= 0.0 && n > 0
    ensures Round4(total / n as real) >= 0.0
  {
    var exact := total / n as real;
    assert exact * n as real == total;
    assert exact >= 0.0;
    RoundHalfEvenMonotone(0.0, exact * 10000.0);
  }

  lemma PlanRules(bars: seq<Bar>, direction: Direction, facts: Facts)
    requires Paired(bars, |bars| - 1) && PlanFor(bars, direction, facts).Success?
    ensures var plan, k := PlanFor(bars, direction, facts).value, |bars| - 1;
      plan.pattern.Some? ==>
        && plan.triggerPrice.Some? && plan.stopLimitPrice.Some?
        && Divides(bars, plan.pattern.value, plan.triggerPrice.value, plan.atr14, facts)
        && plan.rules == NoChaseRules(
             bars, TypeOf(bars[k], bars[k - 1]), plan.pattern.value, plan.triggerPrice.value, plan.riskDistancePct,
             plan.riskPerShare, plan.atr14, plan.distanceToSma20, plan.twoUpCount, facts)
        && plan.stopLimitPrice.value == StopLimit(plan.triggerPrice.value, plan.riskPerShare, plan.atr14)
        && plan.status == (if Blocks(plan.rules) then Blocked else Armed)
  {
    hide AverageTrueRange;
    hide ConsecutiveCount;
    hide NoChaseRules;
    hide Blocks;
    hide Round4;
    hide Round6;
    hide TriggerOf;
    hide StopOf;
    hide StopLimit;
    hide DistanceToSma20;
    hide PendingPattern;
    hide TypeOf;
  }

  lemma RulesJoin(
    bars: seq<Bar>, latest: BarType, pattern: Pattern, trigger: real, riskPct: Option<real>, risk: Option<real>,
    atr: Option<real>, distance: Option<real>, count: nat, facts: Facts)
    requires Divides(bars, pattern, trigger, atr, facts)
    ensures var rules :=
        NoChaseRules(bars, latest, pattern, trigger, riskPct, risk, atr, distance, count, facts);
      var opening := OpeningRules(latest, trigger, riskPct, atr, distance, count, facts);
      var mother := MotherRules(MotherBar(bars, pattern), atr);
      var limit := StopLimit(trigger, risk, atr);
      && (forall code :: code in {RiskTooWide, OverextendedFromMa20, AtrExtension, ConsecutiveTwoUp} ==>
            Same(opening, rules, code))
      && (forall code :: code in {WideMotherBar, MotherBarExceedsAtr} ==> Same(mother, rules, code))
      && Same([Guard(Info, GapNoChaseLimit, limit, limit)], rules, GapNoChaseLimit)
  {
    OpeningJoins(latest, trigger, riskPct, atr, distance, count, facts);
    MotherCodes(MotherBar(bars, pattern), atr);
    hide InRanges;
    hide StopLimit;
    hide OpeningRules;
    hide MotherRules;
    hide MotherBar;
  }

  lemma MotherCodes(mother: Option<Bar>, atr: Option<real>)
    requires mother.Some? ==> HasOhlc(mother.value)
    requires mother.Some? && atr == Some(0.0) ==> mother.value.high.value - mother.value.low.value <= 0.0
    ensures forall g :: g in MotherRules(mother, atr) ==> g.code in {WideMotherBar, MotherBarExceedsAtr}
  {
    hide InRanges;
  }

  /** What blocks a plan, from its own figures and the mother bar. */
  predicate Blocking(plan: TriggerPlan, mother: Option<Bar>, facts: Facts) {
    || (plan.riskDistancePct.Some? && plan.riskDistancePct.value > 0.12)
    || (plan.distanceToSma20.Some? && plan.distanceToSma20.value > 0.08)
    || (plan.triggerPrice.Some? && Extended(plan.triggerPrice.value, facts, plan.atr14))
    || (plan.latestType == Some(TwoUp) && plan.twoUpCount >= 3)
    || (mother.Some? && WiderThan(mother.value, 0.08)) || WideFor(mother, plan.atr14)
  }

  /** The bar before an inside one, but for a breakdown. */
  function MotherOf(bars: seq<Bar>, pattern: Option<Pattern>): Option<Bar> {
    if |bars| >= 2 && pattern in {Some(InsideBreakout), Some(Continuation212)} then Some(bars[|bars| - 2]) else None
  }

  /** The guards of a plan but those on its mother bar: each code appears under its own
      condition, at its level, and reports its own figure. */
  ghost predicate OpeningGuarded(rules: seq<Guard>, plan: TriggerPlan, facts: Facts) {
    && Raised(rules, RiskTooWide, plan.riskDistancePct.Some? && plan.riskDistancePct.value > 0.12, Block, 0.12)
    && (plan.riskDistancePct.Some? ==> ReportsValue(rules, RiskTooWide, plan.riskDistancePct.value))
    && Raised(rules, OverextendedFromMa20, plan.distanceToSma20.Some? && plan.distanceToSma20.value > 0.08, Block, 0.08)
    && (plan.distanceToSma20.Some? ==> ReportsValue(rules, OverextendedFromMa20, plan.distanceToSma20.value))
    && (plan.triggerPrice.Some? ==>
          && Raised(rules, AtrExtension, Extended(plan.triggerPrice.value, facts, plan.atr14), Block, 2.0)
          && (facts.sma20.Some? && plan.atr14.Some? ==>
                ReportsRanges(rules, AtrExtension, plan.triggerPrice.value - facts.sma20.value, plan.atr14.value)))
    && Raised(rules, ConsecutiveTwoUp, plan.latestType == Some(TwoUp) && plan.twoUpCount >= 3, Block, 3.0)
    && ReportsValue(rules, ConsecutiveTwoUp, plan.twoUpCount as real)
  }

  /** The guards on the mother bar. */
  ghost predicate MotherGuarded(rules: seq<Guard>, mother: Option<Bar>, atr: Option<real>) {
    var wide, tooWide := mother.Some? && WiderThan(mother.value, 0.06), mother.Some? && WiderThan(mother.value, 0.08);
    && Raised(rules, WideMotherBar, wide, if wide && tooWide then Block else Warning,
              if wide && tooWide then 0.08 else 0.06)
    && (mother.Some? ==> ReportsShare(rules, WideMotherBar, mother.value))
    && Raised(rules, MotherBarExceedsAtr, WideFor(mother, atr), Block, 2.0)
    && (mother.Some? && HasOhlc(mother.value) && atr.Some? ==>
          ReportsRanges(rules, MotherBarExceedsAtr, mother.value.high.value - mother.value.low.value, atr.value))
  }

  ghost predicate LimitGuarded(rules: seq<Guard>, limit: real) {
    Raised(rules, GapNoChaseLimit, true, Info, limit) && ReportsValue(rules, GapNoChaseLimit, limit)
  }

  ghost predicate Guarded(plan: TriggerPlan, bars: seq<Bar>, facts: Facts)
    requires plan.triggerPrice.Some? && plan.stopLimitPrice.Some?
  {
    && OpeningGuarded(plan.rules, plan, facts)
    && MotherGuarded(plan.rules, MotherOf(bars, plan.pattern), plan.atr14)
    && LimitGuarded(plan.rules, plan.stopLimitPrice.value)
  }

  lemma ShareInPart(part: seq<Guard>, rules: seq<Guard>, code: Code, bar: Bar)
    requires Same(part, rules, code) && ReportsShare(part, code, bar)
    ensures ReportsShare(rules, code, bar)
  {
  }

  lemma OpeningIsGuarded(opening: seq<Guard>, plan: TriggerPlan, latest: BarType, facts: Facts)
    requires plan.triggerPrice.Some? && plan.latestType == Some(latest)
    requires plan.atr14.Some? ==> plan.atr14.value >= 0.0
    requires plan.atr14 == Some(0.0) && facts.sma20.Some? ==> plan.triggerPrice.value - facts.sma20.value <= 0.0
    requires opening == OpeningRules(
      latest, plan.triggerPrice.value, plan.riskDistancePct, plan.atr14, plan.distanceToSma20, plan.twoUpCount, facts)
    requires forall code :: code in {RiskTooWide, OverextendedFromMa20, AtrExtension, ConsecutiveTwoUp} ==>
      Same(opening, plan.rules, code)
    ensures OpeningGuarded(plan.rules, plan, facts)
  {
    hide OpeningRules;
    hide Raised;
    hide ReportsValue;
    hide ReportsRanges;
    hide Same;
    hide Extended;
    OpeningRaises(latest, plan.triggerPrice.value, plan.riskDistancePct, plan.atr14, plan.distanceToSma20,
                  plan.twoUpCount, facts);
    RaisedInPart(opening, plan.rules, RiskTooWide, Block, 0.12);
    RaisedInPart(opening, plan.rules, OverextendedFromMa20, Block, 0.08);
    RaisedInPart(opening, plan.rules, AtrExtension, Block, 2.0);
    RaisedInPart(opening, plan.rules, ConsecutiveTwoUp, Block, 3.0);
  }

  lemma MotherIsGuarded(rules: seq<Guard>, mother: Option<Bar>, atr: Option<real>)
    requires mother.Some? ==> HasOhlc(mother.value)
    requires mother.Some? && atr == Some(0.0) ==> mother.value.high.value - mother.value.low.value <= 0.0
    requires atr.Some? ==> atr.value >= 0.0
    requires forall code :: code in {WideMotherBar, MotherBarExceedsAtr} ==> Same(MotherRules(mother, atr), rules, code)
    ensures MotherGuarded(rules, mother, atr)
  {
    hide MotherRules;
    hide Raised;
    hide ReportsValue;
    hide ReportsRanges;
    hide ReportsShare;
    hide Same;
    hide WiderThan;
    hide WideFor;
    MotherRaises(mother, atr);
    var part := MotherRules(mother, atr);
    if mother.Some? {
      ShareInPart(part, rules, WideMotherBar, mother.value);
    }
    RaisedInPart(part, rules, WideMotherBar, Block, 0.08);
    RaisedInPart(part, rules, WideMotherBar, Warning, 0.06);
    RaisedInPart(part, rules, MotherBarExceedsAtr, Block, 2.0);
  }

  lemma LimitIsGuarded(rules: seq<Guard>, limit: real)
    requires Same([Guard(Info, GapNoChaseLimit, limit, limit)], rules, GapNoChaseLimit)
    ensures LimitGuarded(rules, limit)
  {
    hide Raised;
    hide ReportsValue;
    hide Same;
    OneGuard(Guard(Info, GapNoChaseLimit, limit, limit));
    RaisedInPart([Guard(Info, GapNoChaseLimit, limit, limit)], rules, GapNoChaseLimit, Info, limit);
  }

  lemma MotherIsOf(bars: seq<Bar>, pattern: Pattern, trigger: real, atr: Option<real>, facts: Facts)
    requires |bars| >= 2 && HasOhlc(bars[|bars| - 2]) && Divides(bars, pattern, trigger, atr, facts)
    ensures var mother := MotherBar(bars, pattern);
      && mother == MotherOf(bars, Some(pattern))
      && (mother.Some? ==> HasOhlc(mother.value))
      && (mother.Some? && atr == Some(0.0) ==> mother.value.high.value - mother.value.low.value <= 0.0)
      && (atr == Some(0.0) && facts.sma20.Some? ==> trigger - facts.sma20.value <= 0.0)
  {
  }

  lemma RulesAreGuarded(bars: seq<Bar>, plan: TriggerPlan, latest: BarType, facts: Facts)
    requires |bars| >= 2 && HasOhlc(bars[|bars| - 2]) && plan.pattern.Some? && plan.triggerPrice.Some?
    requires plan.latestType == Some(latest) && (plan.atr14.Some? ==> plan.atr14.value >= 0.0)
    requires Divides(bars, plan.pattern.value, plan.triggerPrice.value, plan.atr14, facts)
    requires plan.stopLimitPrice == Some(StopLimit(plan.triggerPrice.value, plan.riskPerShare, plan.atr14))
    requires plan.rules == NoChaseRules(
      bars, latest, plan.pattern.value, plan.triggerPrice.value, plan.riskDistancePct, plan.riskPerShare,
      plan.atr14, plan.distanceToSma20, plan.twoUpCount, facts)
    ensures Guarded(plan, bars, facts)
  {
    hide NoChaseRules;
    hide OpeningRules;
    hide MotherRules;
    hide MotherBar;
    hide MotherOf;
    hide OpeningGuarded;
    hide MotherGuarded;
    hide LimitGuarded;
    hide Same;
    hide StopLimit;
    hide Divides;
    var pattern, trigger, atr := plan.pattern.value, plan.triggerPrice.value, plan.atr14;
    MotherIsOf(bars, pattern, trigger, atr, facts);
    RulesJoin(bars, latest, pattern, trigger, plan.riskDistancePct, plan.riskPerShare, atr, plan.distanceToSma20,
              plan.twoUpCount, facts);
    OpeningIsGuarded(
      OpeningRules(latest, trigger, plan.riskDistancePct, atr, plan.distanceToSma20, plan.twoUpCount, facts),
      plan, latest, facts);
    MotherIsGuarded(plan.rules, MotherBar(bars, pattern), atr);
    LimitIsGuarded(plan.rules, plan.stopLimitPrice.value);
  }

  lemma GuardedBlocks(plan: TriggerPlan, bars: seq<Bar>, facts: Facts)
    requires plan.triggerPrice.Some? && plan.stopLimitPrice.Some? && Guarded(plan, bars, facts)
    ensures Blocks(plan.rules) <==> Blocking(plan, MotherOf(bars, plan.pattern), facts)
  {
    hide Extended;
    hide WideFor;
    hide MotherOf;
    forall g | g in plan.rules && g.level.Block?
      ensures Blocks(plan.rules)
    {
      var i :| 0 <= i < |plan.rules| && plan.rules[i] == g;
    }
    if Blocks(plan.rules) {
      var i :| 0 <= i < |plan.rules| && plan.rules[i].level.Block?;
      assert plan.rules[i] in plan.rules;
    }
  }

  /** A pending plan is blocked exactly if its risk is too wide, it is too far above the
      average in percent or in average ranges, it is the third rise in a row, or the mother
      bar of an inside pattern is too large; otherwise it is armed. */
  lemma PlanBlockedExactly(bars: seq<Bar>, direction: Direction, facts: Facts)
    requires Upright(bars) && |bars| >= 2 && PlanFor(bars, direction, facts).Success?
    ensures var plan := PlanFor(bars, direction, facts).value;
      plan.pattern.Some? ==>
        && plan.triggerPrice.Some? && plan.stopLimitPrice.Some? && Guarded(plan, bars, facts)
        && (plan.status.Blocked? <==> Blocking(plan, MotherOf(bars, plan.pattern), facts))
        && (plan.status.Armed? <==> !plan.status.Blocked?)
  {
    var plan, k := PlanFor(bars, direction, facts).value, |bars| - 1;
    assert Paired(bars, k);
    PlanFields(bars, direction, facts);
    PlanRules(bars, direction, facts);
    AverageNeverNegative(bars);
    hide *;
    if plan.pattern.Some? {
      RulesAreGuarded(bars, plan, TypeOf(bars[k], bars[k - 1]), facts);
      GuardedBlocks(plan, bars, facts);
    }
  }
}
