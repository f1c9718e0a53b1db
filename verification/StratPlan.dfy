/** The pending trigger plan: its computation, the 40-bar window it is computed from, and
    how the next bar realises it. */
module StratPlan {
  import opened Numbers
  import opened Wrappers
  import opened Rounding
  import opened Bars
  import opened StratSignals

  datatype PlanStatus = NoPlan | BarOnly | Blocked | Armed

  datatype Level = Block | Warning | Info

  datatype Code =
    | RiskTooWide | OverextendedFromMa20 | AtrExtension | ConsecutiveTwoUp
    | WideMotherBar | MotherBarExceedsAtr | GapNoChaseLimit

  datatype Guard = Guard(level: Level, code: Code, value: real, threshold: real)

  datatype OrderType = BuyStopLimit | SellStopLimit

  /** The two facts the plan reads, if known. */
  datatype Facts = Facts(sma20: Option<real>, distanceToSma20: Option<real>)

  datatype TriggerPlan = TriggerPlan(
    status: PlanStatus,
    latestTs: Option<int>,
    latestType: Option<BarType>,
    previousType: Option<BarType>,
    pattern: Option<Pattern>,
    direction: Option<Direction>,
    triggerPrice: Option<real>,
    triggerStop: Option<real>,
    orderType: Option<OrderType>,
    stopLimitPrice: Option<real>,
    riskPerShare: Option<real>,
    riskDistancePct: Option<real>,
    atr14: Option<real>,
    distanceToSma20: Option<real>,
    twoUpCount: nat,
    continuity: Option<Continuity>,
    rules: seq<Guard>)

  datatype PlanError = DivisionByZero

  const PERIOD := 14
  const WINDOW := 40

  function Tail<T>(s: seq<T>, n: nat): seq<T> {
    if |s| <= n then s else s[|s| - n..]
  }

  // ----- average true range

  function Sum(s: seq<real>): real {
    if s == [] then 0.0 else Sum(s[..|s| - 1]) + s[|s| - 1]
  }

  /** The last close before the end of the bars, skipping missing ones. */
  function LastClose(bars: seq<Bar>): Option<real> {
    if bars == [] then None
    else if bars[|bars| - 1].close.Some? then bars[|bars| - 1].close
    else LastClose(bars[..|bars| - 1])
  }

  function TrueRanges(bars: seq<Bar>): seq<real> {
    if bars == [] then []
    else
      var bar := bars[|bars| - 1];
      var before := bars[..|bars| - 1];
      TrueRanges(before)
        + (if HasOhlc(bar) then [TrueRange(bar.high.value, bar.low.value, LastClose(before))] else [])
  }

  function AverageTrueRange(bars: seq<Bar>): Option<real> {
    var sample := Tail(TrueRanges(bars), PERIOD);
    if |bars| < 2 || sample == [] then None
    else Some(Round4(Sum(sample) / |sample| as real))
  }

  method ComputeAverageTrueRange(bars: seq<Bar>) returns (atr: Option<real>)
    ensures atr == AverageTrueRange(bars)
  {
    if |bars| < 2 {
      return None;
    }
    var ranges: seq<real> := [];
    var previousClose: Option<real> := None;
    for i := 0 to |bars|
      invariant ranges == TrueRanges(bars[..i]) && previousClose == LastClose(bars[..i])
    {
      var bar := bars[i];
      assert bars[..i + 1][..i] == bars[..i];
      if !HasOhlc(bar) {
        previousClose := if bar.close.Some? then bar.close else previousClose;
        assert ranges + [] == ranges;
      } else {
        ranges := ranges + [TrueRange(bar.high.value, bar.low.value, previousClose)];
        previousClose := bar.close;
      }
    }
    assert bars[..|bars|] == bars;
    var sample := Tail(ranges, PERIOD);
    if sample == [] {
      return None;
    }
    var total := 0.0;
    for i := 0 to |sample|
      invariant total == Sum(sample[..i])
    {
      assert sample[..i + 1][..i] == sample[..i];
      total := total + sample[i];
    }
    assert sample[..|sample|] == sample;
    return Some(Round4(total / |sample| as real));
  }

  // ----- consecutive bars of one type

  function ConsecutiveCount(bars: seq<Bar>, target: BarType): nat {
    if TypeAt(bars, |bars| - 1) != Some(target) then 0
    else 1 + ConsecutiveCount(bars[..|bars| - 1], target)
  }

  method CountConsecutive(bars: seq<Bar>, target: BarType) returns (count: nat)
    ensures count == ConsecutiveCount(bars, target)
  {
    count := 0;
    var index := |bars| - 1;
    assert bars[..|bars|] == bars;
    while index > 0
      invariant -1 <= index < |bars|
      invariant count + ConsecutiveCount(bars[..index + 1], target) == ConsecutiveCount(bars, target)
    {
      var current, previous := bars[index], bars[index - 1];
      assert bars[..index + 1][..index] == bars[..index];
      if !HasOhlc(current) || !HasOhlc(previous) {
        break;
      }
      if TypeOf(current, previous) != target {
        break;
      }
      count := count + 1;
      index := index - 1;
    }
  }

  // ----- the plan

  function PendingPattern(latest: BarType, previous: Option<BarType>, direction: Direction): Option<Pattern> {
    match direction
    case Long =>
      if latest.Inside? then Some(if previous == Some(TwoUp) then Continuation212 else InsideBreakout)
      else if latest.TwoUp? then Some(TwoUpContinuation)
      else None
    case Short =>
      if latest.Inside? then Some(if previous == Some(TwoDown) then Continuation212 else InsideBreakdown)
      else if latest.TwoDown? then Some(TwoDownContinuation)
      else None
  }

  function TickSize(price: real): real {
    if price >= 1.0 then 0.01 else 0.0001
  }

  function TriggerOf(latest: Bar, direction: Direction): real
    requires HasOhlc(latest)
  {
    if direction.Long? then Round4(latest.high.value + TickSize(latest.high.value))
    else Round4(latest.low.value - TickSize(latest.low.value))
  }

  function StopOf(latest: Bar, direction: Direction): real
    requires HasOhlc(latest)
  {
    if direction.Long? then Round4(latest.low.value) else Round4(latest.high.value)
  }

  function DistanceToSma20(latest: Bar, facts: Facts): Option<real> {
    if facts.distanceToSma20.Some? then Some(Round6(facts.distanceToSma20.value))
    else if facts.sma20.None? || latest.close.None? || facts.sma20.value == 0.0 then None
    else Some(Round6((latest.close.value - facts.sma20.value) / facts.sma20.value))
  }

  function StopLimit(trigger: real, risk: Option<real>, atr: Option<real>): real {
    var byRisk := risk.Some? && risk.value > 0.0;
    var byAtr := atr.Some? && atr.value > 0.0;
    Round4(trigger + (
      if byRisk && byAtr then Min(risk.value * 0.5, atr.value * 0.75)
      else if byRisk then risk.value * 0.5
      else if byAtr then atr.value * 0.75
      else trigger * 0.005))
  }

  /** The mother bar of an inside pattern, if complete. */
  function MotherBar(bars: seq<Bar>, pattern: Pattern): Option<Bar> {
    if |bars| >= 2 && pattern in {InsideBreakout, Continuation212} && HasOhlc(bars[|bars| - 2])
    then Some(bars[|bars| - 2])
    else None
  }

  /** The divisions by the average true range that happen are not by zero. */
  predicate Divides(bars: seq<Bar>, pattern: Pattern, trigger: real, atr: Option<real>, facts: Facts) {
    && (atr == Some(0.0) && facts.sma20.Some? ==> trigger - facts.sma20.value <= 0.0)
    && (atr == Some(0.0) && MotherBar(bars, pattern).Some? ==>
          var mother := MotherBar(bars, pattern).value;
          HasOhlc(mother) && mother.high.value - mother.low.value <= 0.0)
  }

  /** A distance measured in average true ranges. */
  function InRanges(distance: real, atr: real): real
    requires atr != 0.0
  {
    Round4(distance / atr)
  }

  function RiskRules(risk: Option<real>): seq<Guard> {
    if risk.Some? && risk.value > 0.12 then [Guard(Block, RiskTooWide, risk.value, 0.12)] else []
  }

  function DistanceRules(distance: Option<real>): seq<Guard> {
    if distance.Some? && distance.value > 0.08 then [Guard(Block, OverextendedFromMa20, distance.value, 0.08)] else []
  }

  function ExtensionRules(trigger: real, atr: Option<real>, facts: Facts): seq<Guard>
    requires atr == Some(0.0) && facts.sma20.Some? ==> trigger - facts.sma20.value <= 0.0
  {
    if facts.sma20.Some? && atr.Some? && trigger - facts.sma20.value > atr.value * 2.0 && atr.value != 0.0
    then [Guard(Block, AtrExtension, InRanges(trigger - facts.sma20.value, atr.value), 2.0)]
    else []
  }

  function CountRules(latest: BarType, count: nat): seq<Guard> {
    if latest.TwoUp? && count >= 3 then [Guard(Block, ConsecutiveTwoUp, count as real, 3.0)] else []
  }

  function MotherRules(mother: Option<Bar>, atr: Option<real>): seq<Guard>
    requires mother.Some? ==> HasOhlc(mother.value)
    requires mother.Some? && atr == Some(0.0) ==> mother.value.high.value - mother.value.low.value <= 0.0
  {
    if mother.None? then []
    else
      var size := mother.value.high.value - mother.value.low.value;
      var close := mother.value.close.value;
      (if close == 0.0 then []
       else if size / close > 0.08 then [Guard(Block, WideMotherBar, size / close, 0.08)]
       else if size / close > 0.06 then [Guard(Warning, WideMotherBar, size / close, 0.06)]
       else [])
      + (if atr.Some? && size > atr.value * 2.0 && atr.value != 0.0
         then [Guard(Block, MotherBarExceedsAtr, InRanges(size, atr.value), 2.0)]
         else [])
  }

  function OpeningRules(
    latest: BarType, trigger: real, riskPct: Option<real>, atr: Option<real>, distance: Option<real>,
    count: nat, facts: Facts): seq<Guard>
    requires atr == Some(0.0) && facts.sma20.Some? ==> trigger - facts.sma20.value <= 0.0
  {
    RiskRules(riskPct) + DistanceRules(distance) + ExtensionRules(trigger, atr, facts) + CountRules(latest, count)
  }

  lemma NoMotherRules(atr: Option<real>)
    ensures MotherRules(None, atr) == []
  {
  }

  /** The guards, in the order they are appended. */
  function NoChaseRules(
    bars: seq<Bar>, latest: BarType, pattern: Pattern, trigger: real, riskPct: Option<real>, risk: Option<real>,
    atr: Option<real>, distance: Option<real>, count: nat, facts: Facts): seq<Guard>
    requires Divides(bars, pattern, trigger, atr, facts)
  {
    var limit := StopLimit(trigger, risk, atr);
    OpeningRules(latest, trigger, riskPct, atr, distance, count, facts)
      + MotherRules(MotherBar(bars, pattern), atr) + [Guard(Info, GapNoChaseLimit, limit, limit)]
  }

  predicate Blocks(rules: seq<Guard>) {
    exists i :: 0 <= i < |rules| && rules[i].level.Block?
  }

  const EMPTY_PLAN := TriggerPlan(
    NoPlan, None, None, None, None, None, None, None, None, None, None, None, None, None, 0, None, [])

  /** `calculate_trigger_plan`; it raises when a guard divides by an average range of zero. */
  function PlanFor(bars: seq<Bar>, direction: Direction, facts: Facts): Result<TriggerPlan, PlanError> {
    if bars == [] then Success(EMPTY_PLAN)
    else if |bars| < 2 || !HasOhlc(bars[|bars| - 1]) || !HasOhlc(bars[|bars| - 2]) then
      Success(EMPTY_PLAN.(latestTs := Some(bars[|bars| - 1].ts)))
    else
      var latest := bars[|bars| - 1];
      var latestType := TypeOf(latest, bars[|bars| - 2]);
      var previousType := TypeAt(bars, |bars| - 2);
      var pattern := PendingPattern(latestType, previousType, direction);
      var atr := AverageTrueRange(bars);
      var distance := DistanceToSma20(latest, facts);
      var count := ConsecutiveCount(bars, TwoUp);
      var barOnly := TriggerPlan(
        BarOnly, Some(latest.ts), Some(latestType), previousType, None, None, None, None, None, None, None, None,
        atr, distance, count, Some(ContinuityOf(latest)), []);
      if pattern.None? then Success(barOnly)
      else
        var trigger := TriggerOf(latest, direction);
        var stop := StopOf(latest, direction);
        var risk := if direction.Long? then Some(Round4(trigger - stop)) else None;
        var riskPct := if risk.Some? && trigger > 0.0 then Some(Round6(risk.value / trigger)) else None;
        if !Divides(bars, pattern.value, trigger, atr, facts) then Failure(DivisionByZero)
        else
          var rules := NoChaseRules(
            bars, latestType, pattern.value, trigger, riskPct, risk, atr, distance, count, facts);
          Success(barOnly.(
            status := if Blocks(rules) then Blocked else Armed,
            pattern := pattern,
            direction := Some(direction),
            triggerPrice := Some(trigger),
            triggerStop := Some(stop),
            orderType := Some(if direction.Long? then BuyStopLimit else SellStopLimit),
            stopLimitPrice := Some(StopLimit(trigger, risk, atr)),
            riskPerShare := risk,
            riskDistancePct := riskPct,
            rules := rules))
  }

  /** The mother-bar part of `_no_chase_rules`; None stands for the raise. */
  method MotherGuards(mother: Bar, atr: Option<real>) returns (rules: Option<seq<Guard>>)
    requires HasOhlc(mother)
    ensures rules.Some? <==> (atr == Some(0.0) ==> mother.high.value - mother.low.value <= 0.0)
    ensures rules.Some? ==> rules.value == MotherRules(Some(mother), atr)
  {
    hide InRanges;
    var sofar: seq<Guard> := [];
    var size := mother.high.value - mother.low.value;
    var pct := if mother.close.value != 0.0 then Some(size / mother.close.value) else None;
    if pct.Some? && pct.value > 0.08 {
      sofar := sofar + [Guard(Block, WideMotherBar, pct.value, 0.08)];
    } else if pct.Some? && pct.value > 0.06 {
      sofar := sofar + [Guard(Warning, WideMotherBar, pct.value, 0.06)];
    }
    if atr.Some? && size > atr.value * 2.0 {
      if atr.value == 0.0 {
        return None;
      }
      sofar := sofar + [Guard(Block, MotherBarExceedsAtr, InRanges(size, atr.value), 2.0)];
    }
    return Some(sofar);
  }

  /** The guards of `_no_chase_rules` before the mother bar; None stands for the raise. */
  method OpeningGuards(
    latest: BarType, trigger: real, riskPct: Option<real>, atr: Option<real>, distance: Option<real>,
    count: nat, facts: Facts)
    returns (rules: Option<seq<Guard>>)
    ensures rules.Some? <==> (atr == Some(0.0) && facts.sma20.Some? ==> trigger - facts.sma20.value <= 0.0)
    ensures rules.Some? ==> rules.value == OpeningRules(latest, trigger, riskPct, atr, distance, count, facts)
  {
    hide InRanges;
    var sofar: seq<Guard> := [];
    if riskPct.Some? && riskPct.value > 0.12 {
      sofar := sofar + [Guard(Block, RiskTooWide, riskPct.value, 0.12)];
    }
    assert sofar == RiskRules(riskPct);
    if distance.Some? && distance.value > 0.08 {
      sofar := sofar + [Guard(Block, OverextendedFromMa20, distance.value, 0.08)];
    }
    assert sofar == RiskRules(riskPct) + DistanceRules(distance);
    if facts.sma20.Some? && atr.Some? && trigger - facts.sma20.value > atr.value * 2.0 {
      if atr.value == 0.0 {
        return None;
      }
      sofar := sofar + [Guard(Block, AtrExtension, InRanges(trigger - facts.sma20.value, atr.value), 2.0)];
    }
    assert sofar == RiskRules(riskPct) + DistanceRules(distance) + ExtensionRules(trigger, atr, facts);
    if latest.TwoUp? && count >= 3 {
      sofar := sofar + [Guard(Block, ConsecutiveTwoUp, count as real, 3.0)];
    }
    return Some(sofar);
  }

  /** `_no_chase_rules`: guards appended one after another; None stands for the raise. */
  method AppendNoChaseRules(
    bars: seq<Bar>, latest: BarType, pattern: Pattern, trigger: real, riskPct: Option<real>, risk: Option<real>,
    atr: Option<real>, distance: Option<real>, count: nat, facts: Facts)
    returns (rules: Option<seq<Guard>>)
    ensures rules.Some? <==> Divides(bars, pattern, trigger, atr, facts)
    ensures rules.Some? ==>
      rules.value == NoChaseRules(bars, latest, pattern, trigger, riskPct, risk, atr, distance, count, facts)
  {
    hide OpeningRules;
    hide StopLimit;
    hide MotherRules;
    var opening := OpeningGuards(latest, trigger, riskPct, atr, distance, count, facts);
    if opening.None? {
      return None;
    }
    var sofar := opening.value;
    var mother := MotherBar(bars, pattern);
    if mother.Some? {
      var guards := MotherGuards(mother.value, atr);
      if guards.None? {
        return None;
      }
      sofar := sofar + guards.value;
    } else {
      NoMotherRules(atr);
    }
    var limit := StopLimit(trigger, risk, atr);
    sofar := sofar + [Guard(Info, GapNoChaseLimit, limit, limit)];
    return Some(sofar);
  }

  /** `calculate_trigger_plan` over the loops. */
  method CalculateTriggerPlan(bars: seq<Bar>, direction: Direction, facts: Facts)
    returns (plan: Result<TriggerPlan, PlanError>)
    ensures plan == PlanFor(bars, direction, facts)
  {
    hide AverageTrueRange;
    hide ConsecutiveCount;
    hide NoChaseRules;
    if |bars| < 2 || !HasOhlc(bars[|bars| - 1]) || !HasOhlc(bars[|bars| - 2]) {
      return Success(if bars == [] then EMPTY_PLAN else EMPTY_PLAN.(latestTs := Some(bars[|bars| - 1].ts)));
    }
    var latest := bars[|bars| - 1];
    var latestType := TypeOf(latest, bars[|bars| - 2]);
    var previousType := TypeAt(bars, |bars| - 2);
    var pattern := PendingPattern(latestType, previousType, direction);
    var atr := ComputeAverageTrueRange(bars);
    var distance := DistanceToSma20(latest, facts);
    var count := CountConsecutive(bars, TwoUp);
    var barOnly := TriggerPlan(
      BarOnly, Some(latest.ts), Some(latestType), previousType, None, None, None, None, None, None, None, None,
      atr, distance, count, Some(ContinuityOf(latest)), []);
    if pattern.None? {
      return Success(barOnly);
    }
    var trigger, stop := TriggerOf(latest, direction), StopOf(latest, direction);
    var risk := if direction.Long? then Some(Round4(trigger - stop)) else None;
    var riskPct := if risk.Some? && trigger > 0.0 then Some(Round6(risk.value / trigger)) else None;
    var rules := AppendNoChaseRules(
      bars, latestType, pattern.value, trigger, riskPct, risk, atr, distance, count, facts);
    if rules.None? {
      return Failure(DivisionByZero);
    }
    return Success(barOnly.(
      status := if Blocks(rules.value) then Blocked else Armed,
      pattern := pattern,
      direction := Some(direction),
      triggerPrice := Some(trigger),
      triggerStop := Some(stop),
      orderType := Some(if direction.Long? then BuyStopLimit else SellStopLimit),
      stopLimitPrice := Some(StopLimit(trigger, risk, atr)),
      riskPerShare := risk,
      riskDistancePct := riskPct,
      rules := rules.value));
  }
}
