/** Scanner outcomes: what became of a candidate as bars arrive after it was detected. */
module Outcomes {
  import opened Wrappers
  import opened Rounding
  import opened Bars
  import opened BarTable

  const HORIZONS: seq<nat> := [5, 10, 20, 60]
  const LONGEST := 60

  datatype Status = MissingReference | Pending | Matured20 | Matured60

  datatype Metrics = Metrics(forwardReturn: Option<real>, mfe: Option<real>, mae: Option<real>)

  datatype Outcome = Outcome(
    referenceClose: Option<real>,
    barsAvailable: nat,
    status: Status,
    latestTs: Option<int>,
    triggerTs: Option<int>,
    stopTs: Option<int>,
    stopBeforeTrigger: bool,
    falseBreakout: bool,
    metrics: map<nat, Metrics>)

  // ----- scans

  predicate ReachesUp(bar: Bar, threshold: real) {
    bar.high.Some? && bar.high.value >= threshold
  }

  predicate ReachesDown(bar: Bar, threshold: real) {
    bar.low.Some? && bar.low.value <= threshold
  }

  /** i is the first bar at or above the threshold; None if there is none. */
  ghost predicate FirstUp(bars: seq<Bar>, threshold: Option<real>, r: Option<nat>) {
    match r
    case None => threshold.Some? ==> forall i :: 0 <= i < |bars| ==> !ReachesUp(bars[i], threshold.value)
    case Some(k) =>
      && threshold.Some? && k < |bars| && ReachesUp(bars[k], threshold.value)
      && (forall i :: 0 <= i < k ==> !ReachesUp(bars[i], threshold.value))
  }

  ghost predicate FirstDown(bars: seq<Bar>, threshold: Option<real>, r: Option<nat>) {
    match r
    case None => threshold.Some? ==> forall i :: 0 <= i < |bars| ==> !ReachesDown(bars[i], threshold.value)
    case Some(k) =>
      && threshold.Some? && k < |bars| && ReachesDown(bars[k], threshold.value)
      && (forall i :: 0 <= i < k ==> !ReachesDown(bars[i], threshold.value))
  }

  function FirstAbove(bars: seq<Bar>, threshold: Option<real>): (r: Option<nat>)
    ensures FirstUp(bars, threshold, r)
  {
    if threshold.None? || bars == [] then None
    else
      var r := FirstAbove(bars[..|bars| - 1], threshold);
      if r.Some? then r
      else if ReachesUp(bars[|bars| - 1], threshold.value) then Some(|bars| - 1)
      else None
  }

  function FirstBelow(bars: seq<Bar>, threshold: Option<real>): (r: Option<nat>)
    ensures FirstDown(bars, threshold, r)
  {
    if threshold.None? || bars == [] then None
    else
      var r := FirstBelow(bars[..|bars| - 1], threshold);
      if r.Some? then r
      else if ReachesDown(bars[|bars| - 1], threshold.value) then Some(|bars| - 1)
      else None
  }

  lemma FirstUpIsUnique(bars: seq<Bar>, threshold: Option<real>, a: Option<nat>, b: Option<nat>)
    requires FirstUp(bars, threshold, a) && FirstUp(bars, threshold, b)
    ensures a == b
  {
  }

  lemma FirstDownIsUnique(bars: seq<Bar>, threshold: Option<real>, a: Option<nat>, b: Option<nat>)
    requires FirstDown(bars, threshold, a) && FirstDown(bars, threshold, b)
    ensures a == b
  {
  }

  method FirstIndexAtOrAbove(bars: seq<Bar>, threshold: Option<real>) returns (r: Option<nat>)
    ensures r == FirstAbove(bars, threshold)
  {
    r := None;
    if threshold.Some? {
      for i := 0 to |bars|
        invariant forall j :: 0 <= j < i ==> !ReachesUp(bars[j], threshold.value)
      {
        if ReachesUp(bars[i], threshold.value) {
          FirstUpIsUnique(bars, threshold, Some(i), FirstAbove(bars, threshold));
          return Some(i);
        }
      }
    }
    FirstUpIsUnique(bars, threshold, None, FirstAbove(bars, threshold));
  }

  method FirstIndexAtOrBelow(bars: seq<Bar>, threshold: Option<real>) returns (r: Option<nat>)
    ensures r == FirstBelow(bars, threshold)
  {
    r := None;
    if threshold.Some? {
      for i := 0 to |bars|
        invariant forall j :: 0 <= j < i ==> !ReachesDown(bars[j], threshold.value)
      {
        if ReachesDown(bars[i], threshold.value) {
          FirstDownIsUnique(bars, threshold, Some(i), FirstBelow(bars, threshold));
          return Some(i);
        }
      }
    }
    FirstDownIsUnique(bars, threshold, None, FirstBelow(bars, threshold));
  }

  // ----- horizon metrics

  function RelativeReturn(value: real, reference: real): real
    requires reference != 0.0
  {
    value / reference - 1.0
  }

  function RoundedReturn(value: Option<real>, reference: real): Option<real>
    requires reference != 0.0
  {
    if value.None? then None else Some(Round6(RelativeReturn(value.value, reference)))
  }

  function MetricsAt(reference: Option<real>, future: seq<Bar>, horizon: nat): Metrics
    requires horizon > 0
  {
    if reference.None? || reference.value == 0.0 || |future| < horizon then Metrics(None, None, None)
    else
      var sample := future[..horizon];
      Metrics(
        RoundedReturn(sample[horizon - 1].close, reference.value),
        RoundedReturn(MaxOf(Highs(sample)), reference.value),
        RoundedReturn(MinOf(Lows(sample)), reference.value))
  }

  function AllMetrics(reference: Option<real>, future: seq<Bar>): map<nat, Metrics> {
    map h | h in {5, 10, 20, 60} :: MetricsAt(reference, future, h)
  }

  /** `_horizon_metrics`: a dictionary filled horizon by horizon. */
  method HorizonMetrics(reference: Option<real>, future: seq<Bar>) returns (metrics: map<nat, Metrics>)
    ensures metrics == AllMetrics(reference, future)
  {
    metrics := map[];
    for i := 0 to |HORIZONS|
      invariant metrics == map h | h in {5, 10, 20, 60} && h in HORIZONS[..i] :: MetricsAt(reference, future, h)
    {
      var horizon := HORIZONS[i];
      metrics := metrics[horizon := MetricsAt(reference, future, horizon)];
    }
    assert HORIZONS[..|HORIZONS|] == HORIZONS;
    assert HORIZONS[0] == 5 && HORIZONS[1] == 10 && HORIZONS[2] == 20 && HORIZONS[3] == 60;
  }

  // ----- the outcome

  function StatusOf(reference: Option<Bar>, available: nat): Status {
    if reference.None? then MissingReference
    else if available >= LONGEST then Matured60
    else if available >= 20 then Matured20
    else Pending
  }

  /** The outcome for the given reference and future bars. */
  function OutcomeOf(reference: Option<Bar>, future: seq<Bar>, trigger: Option<real>, stop: Option<real>): Outcome {
    var close := if reference.Some? then reference.value.close else None;
    var triggerAt := FirstAbove(future, trigger);
    var stopAt := if triggerAt.Some? then FirstBelow(future[triggerAt.value..], stop) else None;
    Outcome(
      close, |future|, StatusOf(reference, |future|),
      if future == [] then None else Some(future[|future| - 1].ts),
      if triggerAt.Some? then Some(future[triggerAt.value].ts) else None,
      if stopAt.Some? then Some(future[triggerAt.value + stopAt.value].ts) else None,
      if triggerAt.Some? then FirstBelow(future[..triggerAt.value], stop).Some? else FirstBelow(future, stop).Some?,
      triggerAt.Some? && stopAt.Some?,
      AllMetrics(close, future))
  }

  /** `_reference_bar`: the latest bar at or before the detection. */
  function ReferenceBar(table: Table, detected: int): Option<Bar> {
    var stamp := LatestUpTo(table.Keys, detected);
    if stamp.None? then None else Some(table[stamp.value])
  }

  /** The timestamps of the bars an outcome counts. */
  function FutureStamps(stored: set<int>, detected: int): (stamps: seq<int>)
    ensures forall i :: 0 <= i < |stamps| ==> stamps[i] in stored
  {
    var reference := LatestUpTo(stored, detected);
    if reference.None? then [] else FirstAfter(stored, reference.value, LONGEST)
  }

  /** `_future_bars`: the first 60 bars after the reference. */
  function FutureBars(table: Table, detected: int): seq<Bar> {
    Rows(table, FutureStamps(table.Keys, detected))
  }

  /** The outcome of a candidate on the stored bars. */
  function Evaluate(table: Table, detected: int, trigger: Option<real>, stop: Option<real>): Outcome {
    OutcomeOf(ReferenceBar(table, detected), FutureBars(table, detected), trigger, stop)
  }

  /** The stored outcomes, one per candidate. */
  class OutcomeTable {
    var records: map<string, Outcome>

    constructor ()
      ensures records == map[]
    {
      records := map[];
    }

    /** `calculate_for_candidate`: evaluate with the scans and upsert the record. */
    method Calculate(candidate: string, table: Table, detected: int, trigger: Option<real>, stop: Option<real>)
      modifies this
      ensures records == old(records)[candidate := Evaluate(table, detected, trigger, stop)]
    {
      hide ReferenceBar;
      hide FutureBars;
      hide FirstAbove;
      hide FirstBelow;
      hide AllMetrics;
      var reference := ReferenceBar(table, detected);
      var future := FutureBars(table, detected);
      var close := if reference.Some? then reference.value.close else None;
      var triggerAt := FirstIndexAtOrAbove(future, trigger);
      var stopAt: Option<nat> := None;
      var early: Option<nat>;
      if triggerAt.Some? {
        stopAt := FirstIndexAtOrBelow(future[triggerAt.value..], stop);
        early := FirstIndexAtOrBelow(future[..triggerAt.value], stop);
      } else {
        early := FirstIndexAtOrBelow(future, stop);
      }
      var metrics := HorizonMetrics(close, future);
      var outcome := Outcome(
        close, |future|, StatusOf(reference, |future|),
        if future == [] then None else Some(future[|future| - 1].ts),
        if triggerAt.Some? then Some(future[triggerAt.value].ts) else None,
        if stopAt.Some? then Some(future[triggerAt.value + stopAt.value].ts) else None,
        early.Some?,
        triggerAt.Some? && stopAt.Some?,
        metrics);
      records := records[candidate := outcome];
    }
  }

  // ----- maturation

  function Rank(s: Status): nat {
    match s
    case MissingReference => 0
    case Pending => 1
    case Matured20 => 2
    case Matured60 => 3
  }

  predicate Settled<T(==)>(before: Option<T>, after: Option<T>) {
    before.Some? ==> after == before
  }

  predicate MetricsSettled(before: Metrics, after: Metrics) {
    && Settled(before.forwardReturn, after.forwardReturn)
    && Settled(before.mfe, after.mfe)
    && Settled(before.mae, after.mae)
  }

  /** Everything known stays; what is unknown may become known; the status only advances. */
  ghost predicate Matures(before: Outcome, after: Outcome) {
    && Settled(before.referenceClose, after.referenceClose)
    && before.barsAvailable <= after.barsAvailable
    && Rank(before.status) <= Rank(after.status)
    && Settled(before.triggerTs, after.triggerTs)
    && Settled(before.stopTs, after.stopTs)
    && (before.stopBeforeTrigger ==> after.stopBeforeTrigger)
    && (before.triggerTs.Some? ==> after.stopBeforeTrigger == before.stopBeforeTrigger)
    && (before.falseBreakout ==> after.falseBreakout)
    && (forall h :: h in {5, 10, 20, 60} ==>
          h in before.metrics && h in after.metrics && MetricsSettled(before.metrics[h], after.metrics[h]))
  }

  lemma MetricsGrow(reference: Option<real>, future: seq<Bar>, more: seq<Bar>, horizon: nat)
    requires horizon > 0
    ensures |future| >= horizon ==>
      MetricsAt(reference, future + more, horizon) == MetricsAt(reference, future, horizon)
    ensures MetricsSettled(MetricsAt(reference, future, horizon), MetricsAt(reference, future + more, horizon))
  {
    if |future| >= horizon {
      assert (future + more)[..horizon] == future[..horizon];
    }
  }

  lemma TriggerGrows(future: seq<Bar>, more: seq<Bar>, trigger: Option<real>)
    ensures var before, after := FirstAbove(future, trigger), FirstAbove(future + more, trigger);
      && Settled(before, after)
      && (before.None? && after.Some? ==> after.value >= |future|)
  {
    var before := FirstAbove(future, trigger);
    if before.Some? {
      FirstUpIsUnique(future + more, trigger, before, FirstAbove(future + more, trigger));
    }
  }

  lemma StopGrows(future: seq<Bar>, more: seq<Bar>, stop: Option<real>)
    ensures Settled(FirstBelow(future, stop), FirstBelow(future + more, stop))
  {
    var before := FirstBelow(future, stop);
    if before.Some? {
      FirstDownIsUnique(future + more, stop, before, FirstBelow(future + more, stop));
    }
  }

  lemma AllMetricsGrow(reference: Option<real>, future: seq<Bar>, more: seq<Bar>)
    ensures var before, after := AllMetrics(reference, future), AllMetrics(reference, future + more);
      forall h :: h in {5, 10, 20, 60} ==>
        h in before && h in after && MetricsSettled(before[h], after[h])
  {
    hide MetricsAt;
    hide MetricsSettled;
    forall h | h in {5, 10, 20, 60}
      ensures MetricsSettled(MetricsAt(reference, future, h), MetricsAt(reference, future + more, h))
    {
      MetricsGrow(reference, future, more, h);
    }
  }

  /** More bars after the same reference only let the outcome mature. */
  lemma OutcomeMatures(
    reference: Option<Bar>, future: seq<Bar>, more: seq<Bar>, trigger: Option<real>, stop: Option<real>)
    requires reference.None? ==> more == []
    ensures Matures(OutcomeOf(reference, future, trigger, stop), OutcomeOf(reference, future + more, trigger, stop))
  {
    hide AllMetrics;
    hide MetricsSettled;
    hide FirstAbove;
    hide FirstBelow;
    var all := future + more;
    AllMetricsGrow(if reference.Some? then reference.value.close else None, future, more);
    TriggerGrows(future, more, trigger);
    var before, after := FirstAbove(future, trigger), FirstAbove(all, trigger);
    if before.Some? {
      var k := before.value;
      assert all[..k] == future[..k];
      assert all[k..] == future[k..] + more;
      StopGrows(future[k..], more, stop);
    } else if after.Some? {
      var k := after.value;
      assert all[..k] == future + all[|future|..k];
      StopGrows(future, all[|future|..k], stop);
    } else {
      StopGrows(future, more, stop);
    }
  }

  /** Without a reference nothing is known yet, so whatever becomes known matures it. */
  lemma NothingMatures(reference: Option<Bar>, future: seq<Bar>, trigger: Option<real>, stop: Option<real>)
    ensures Matures(OutcomeOf(None, [], trigger, stop), OutcomeOf(reference, future, trigger, stop))
  {
    hide FirstAbove;
  }

  /** The last time an outcome has an opinion on: that of the last bar counted, or the detection. */
  function LastCounted(stored: set<int>, detected: int): int {
    var stamps := FutureStamps(stored, detected);
    if stamps == [] then detected else stamps[|stamps| - 1]
  }

  /** Bars arrive in order: each is older than the reference or later than all bars counted.
      Without a reference any bar does. */
  predicate ArriveInOrder(stored: set<int>, arriving: set<int>, detected: int) {
    var reference := LatestUpTo(stored, detected);
    reference.Some? ==>
      forall ts :: ts in arriving ==> ts < reference.value || ts > LastCounted(stored, detected)
  }

  lemma LastCountedIsPast(stored: set<int>, detected: int)
    requires LatestUpTo(stored, detected).Some?
    ensures LatestUpTo(stored, detected).value <= detected <= LastCounted(stored, detected)
    ensures forall ts :: ts in FutureStamps(stored, detected) ==> detected < ts <= LastCounted(stored, detected)
  {
    var reference, stamps := LatestUpTo(stored, detected).value, FutureStamps(stored, detected);
    forall i | 0 <= i < |stamps|
      ensures detected < stamps[i] <= stamps[|stamps| - 1]
    {
      assert stamps[i] in UpTo(stored, detected) <==> stamps[i] <= detected;
    }
  }

  /** Bars that arrive in order keep the reference and only extend what is counted. */
  lemma StampsGrow(stored: set<int>, arriving: set<int>, detected: int)
    requires LatestUpTo(stored, detected).Some? && ArriveInOrder(stored, arriving, detected)
    ensures LatestUpTo(stored + arriving, detected) == LatestUpTo(stored, detected)
    ensures FutureStamps(stored, detected) <= FutureStamps(stored + arriving, detected)
    ensures |FutureStamps(stored, detected)| == LONGEST ==>
      FutureStamps(stored + arriving, detected) == FutureStamps(stored, detected)
  {
    LastCountedIsPast(stored, detected);
    var reference := LatestUpTo(stored, detected).value;
    assert reference in UpTo(stored + arriving, detected);
    var latest := LatestUpTo(stored + arriving, detected).value;
    assert latest in UpTo(stored + arriving, detected);
    assert latest in stored ==> latest in UpTo(stored, detected);
    assert latest == reference;
    FirstAfterGrows(stored, arriving, reference, LONGEST);
  }

  /** And they rewrite none of the rows read so far. */
  lemma BarsStay(table: Table, arriving: Table, detected: int)
    requires LatestUpTo(table.Keys, detected).Some? && ArriveInOrder(table.Keys, arriving.Keys, detected)
    ensures ReferenceBar(Upsert(table, arriving), detected) == ReferenceBar(table, detected)
    ensures FutureBars(table, detected) <= FutureBars(Upsert(table, arriving), detected)
    ensures |FutureBars(table, detected)| == LONGEST ==>
      FutureBars(Upsert(table, arriving), detected) == FutureBars(table, detected)
  {
    StampsGrow(table.Keys, arriving.Keys, detected);
    LastCountedIsPast(table.Keys, detected);
    hide LatestUpTo;
    hide FirstAfter;
    hide Rows;
    var stamps, grown := FutureStamps(table.Keys, detected), FutureStamps(table.Keys + arriving.Keys, detected);
    forall i | 0 <= i < |stamps|
      ensures Upsert(table, arriving)[stamps[i]] == table[stamps[i]] && grown[i] == stamps[i]
    {
      assert stamps[i] in stamps;
      assert stamps[i] !in arriving;
    }
    RowsGrow(table, Upsert(table, arriving), stamps, grown);
  }

  lemma RowsGrow(table: Table, after: Table, stamps: seq<int>, grown: seq<int>)
    requires stamps <= grown && forall i :: 0 <= i < |grown| ==> grown[i] in after
    requires forall i :: 0 <= i < |stamps| ==> stamps[i] in table && after[stamps[i]] == table[stamps[i]]
    ensures Rows(table, stamps) <= Rows(after, grown) && (stamps == grown ==> Rows(table, stamps) == Rows(after, grown))
  {
  }

  /** Outcomes mature monotonically: bars stored or rewritten in order settle what they settle
      once, and an outcome with 60 bars never changes again. */
  lemma EvaluationMatures(table: Table, arriving: Table, detected: int, trigger: Option<real>, stop: Option<real>)
    requires ArriveInOrder(table.Keys, arriving.Keys, detected)
    ensures var before := Evaluate(table, detected, trigger, stop);
      var after := Evaluate(Upsert(table, arriving), detected, trigger, stop);
      Matures(before, after) && (before.barsAvailable == LONGEST ==> after == before)
  {
    assert LONGEST == 60;
    hide *;
    EvaluateParts(table, detected, trigger, stop);
    EvaluateParts(Upsert(table, arriving), detected, trigger, stop);
    if LatestUpTo(table.Keys, detected).None? {
      NothingCounted(table, detected);
      var stored := Upsert(table, arriving);
      NothingMatures(ReferenceBar(stored, detected), FutureBars(stored, detected), trigger, stop);
    } else {
      BarsStay(table, arriving, detected);
      ReferenceCounted(table, detected);
      ExtensionMatures(ReferenceBar(table, detected), FutureBars(table, detected),
                       FutureBars(Upsert(table, arriving), detected), trigger, stop);
    }
  }

  lemma ExtensionMatures(
    reference: Option<Bar>, future: seq<Bar>, all: seq<Bar>, trigger: Option<real>, stop: Option<real>)
    requires reference.Some? && future <= all
    ensures Matures(OutcomeOf(reference, future, trigger, stop), OutcomeOf(reference, all, trigger, stop))
  {
    hide *;
    assert all == future + all[|future|..];
    OutcomeMatures(reference, future, all[|future|..], trigger, stop);
  }

  lemma NothingCounted(table: Table, detected: int)
    requires LatestUpTo(table.Keys, detected).None?
    ensures ReferenceBar(table, detected).None? && FutureBars(table, detected) == []
  {
  }

  lemma ReferenceCounted(table: Table, detected: int)
    requires LatestUpTo(table.Keys, detected).Some?
    ensures ReferenceBar(table, detected).Some?
  {
  }

  lemma EvaluateParts(table: Table, detected: int, trigger: Option<real>, stop: Option<real>)
    ensures Evaluate(table, detected, trigger, stop)
         == OutcomeOf(ReferenceBar(table, detected), FutureBars(table, detected), trigger, stop)
    ensures Evaluate(table, detected, trigger, stop).barsAvailable == |FutureBars(table, detected)|
  {
  }

  // ----- the order of arrival is exactly what maturation needs

  /** An arriving stamp that is neither older than the reference nor later than all counted. */
  predicate Intrudes(stored: set<int>, detected: int, ts: int)
    requires LatestUpTo(stored, detected).Some?
  {
    LatestUpTo(stored, detected).value <= ts <= LastCounted(stored, detected)
  }

  function Intruders(stored: set<int>, arriving: set<int>, detected: int): set<int>
    requires LatestUpTo(stored, detected).Some?
  {
    set ts | ts in arriving && Intrudes(stored, detected, ts)
  }

  /** The reference moves exactly when a later one at or before the detection arrives. */
  lemma ReferenceStaysExactly(stored: set<int>, arriving: set<int>, detected: int)
    ensures LatestUpTo(stored + arriving, detected) == LatestUpTo(stored, detected)
       <==> forall ts :: ts in arriving && ts <= detected ==>
              LatestUpTo(stored, detected).Some? && ts <= LatestUpTo(stored, detected).value
  {
    var before, all := UpTo(stored, detected), UpTo(stored + arriving, detected);
    assert all == before + UpTo(arriving, detected);
    assert forall ts :: ts in UpTo(arriving, detected) <==> ts in arriving && ts <= detected;
    if before != {} && all != {} {
      assert Latest(all) in all && Latest(before) in all;
    }
  }

  lemma EarliestIntruder(stored: set<int>, arriving: set<int>, detected: int) returns (ts: int)
    requires LatestUpTo(stored, detected).Some? && !ArriveInOrder(stored, arriving, detected)
    ensures ts in arriving && Intrudes(stored, detected, ts)
    ensures forall y :: y in arriving && y >= LatestUpTo(stored, detected).value ==> ts <= y
  {
    var stamps := Ascend(Intruders(stored, arriving, detected));
    ghost var some :| some in arriving && Intrudes(stored, detected, some);
    assert some in stamps;
    ts := stamps[0];
    assert ts in stamps;
    forall y | y in arriving && y >= LatestUpTo(stored, detected).value
      ensures ts <= y
    {
      if y <= LastCounted(stored, detected) {
        assert y in stamps;
      }
    }
  }

  /** An intruder later than the detection is counted before the last bar counted so far. */
  lemma IntruderIsCounted(stored: set<int>, arriving: set<int>, detected: int, ts: int)
    requires LatestUpTo(stored, detected).Some? && ts in arriving && Intrudes(stored, detected, ts) && ts > detected
    requires forall y :: y in arriving && y >= LatestUpTo(stored, detected).value ==> ts <= y
    ensures LatestUpTo(stored + arriving, detected) == LatestUpTo(stored, detected)
    ensures FutureStamps(stored, detected) != [] && ts in FutureStamps(stored + arriving, detected)
  {
    LastCountedIsPast(stored, detected);
    ReferenceStaysExactly(stored, arriving, detected);
    FirstAfterCatches(stored, arriving, LatestUpTo(stored, detected).value, LONGEST, ts);
  }

  lemma NoPrefix(before: seq<int>, after: seq<int>, ts: int)
    requires Ascending(after) && before != [] && ts in after && ts !in before && ts <= before[|before| - 1]
    ensures !(before <= after)
  {
    var i :| 0 <= i < |after| && after[i] == ts;
    assert before <= after ==> i < |before|;
  }

  /** New bars keep the reference and the bars counted as a prefix exactly if they arrive in order. */
  lemma PrefixExactly(stored: set<int>, arriving: set<int>, detected: int)
    requires LatestUpTo(stored, detected).Some? && stored !! arriving
    ensures LatestUpTo(stored + arriving, detected) == LatestUpTo(stored, detected)
            && FutureStamps(stored, detected) <= FutureStamps(stored + arriving, detected)
       <==> ArriveInOrder(stored, arriving, detected)
  {
    LastCountedIsPast(stored, detected);
    if ArriveInOrder(stored, arriving, detected) {
      StampsGrow(stored, arriving, detected);
    } else {
      var ts := EarliestIntruder(stored, arriving, detected);
      if ts <= detected {
        ReferenceStaysExactly(stored, arriving, detected);
        assert LatestUpTo(stored, detected).value in stored;
      } else {
        IntruderIsCounted(stored, arriving, detected, ts);
        NoPrefix(FutureStamps(stored, detected), FutureStamps(stored + arriving, detected), ts);
      }
    }
  }

  /** Rows that all trade at one price, except one. */
  function FlatTable(stamps: set<int>, price: real, peak: int, high: real): (table: Table)
    ensures table.Keys == stamps
  {
    map ts | ts in stamps :: FlatBar(ts, if ts == peak then high else price)
  }

  /** The trigger is dated at the earliest counted row that reaches it. */
  lemma TriggerIsEarliest(table: Table, detected: int, trigger: real, stop: Option<real>, ts: int)
    requires ts in FutureStamps(table.Keys, detected) && ReachesUp(table[ts], trigger)
    ensures var at := Evaluate(table, detected, Some(trigger), stop).triggerTs;
      && at.Some? && at.value <= ts && at.value in FutureStamps(table.Keys, detected)
      && at.value in table && ReachesUp(table[at.value], trigger)
  {
    hide FirstAbove;
    hide FirstBelow;
    hide AllMetrics;
    hide FirstAfter;
    var stamps, future := FutureStamps(table.Keys, detected), FutureBars(table, detected);
    assert Ascending(stamps);
    var i :| 0 <= i < |stamps| && stamps[i] == ts;
    assert future[i] == table[ts];
    var first := FirstAbove(future, Some(trigger));
    assert FirstUp(future, Some(trigger), first);
    assert stamps[first.value] in stamps;
    assert future[first.value] == table[stamps[first.value]];
  }

  lemma NothingTriggers(table: Table, detected: int, trigger: real, stop: Option<real>)
    requires forall ts :: ts in table ==> !ReachesUp(table[ts], trigger)
    ensures Evaluate(table, detected, Some(trigger), stop).triggerTs.None?
  {
    hide FirstAbove;
    hide FirstBelow;
    hide AllMetrics;
    hide FirstAfter;
    var future := FutureBars(table, detected);
    assert FirstUp(future, Some(trigger), FirstAbove(future, Some(trigger)));
  }

  lemma ReferenceMoves(table: Table, news: Table, detected: int, ts: int, trigger: Option<real>, stop: Option<real>)
    requires LatestUpTo(table.Keys, detected).Some? && ts in news
    requires LatestUpTo(table.Keys, detected).value <= ts <= detected
    requires forall t :: t in table ==> table[t].close == Some(1.0)
    requires forall t :: t in news ==> news[t].close == Some(2.0)
    ensures Evaluate(table, detected, trigger, stop).referenceClose == Some(1.0)
    ensures Evaluate(Upsert(table, news), detected, trigger, stop).referenceClose == Some(2.0)
  {
    hide FirstAbove;
    hide FirstBelow;
    hide AllMetrics;
    hide FutureBars;
    var all := Upsert(table, news);
    assert ts in UpTo(all.Keys, detected);
    var latest := LatestUpTo(all.Keys, detected).value;
    assert latest in UpTo(all.Keys, detected);
    assert latest in table ==> latest in UpTo(table.Keys, detected);
    assert latest in news;
  }

  /** On some prices an intruder changes what was known: the reference close, or the trigger. */
  lemma IntruderUnsettles(stored: set<int>, arriving: set<int>, detected: int)
    returns (table: Table, news: Table, trigger: Option<real>)
    requires !ArriveInOrder(stored, arriving, detected)
    ensures table.Keys == stored && news.Keys == arriving
    ensures !Matures(Evaluate(table, detected, trigger, None), Evaluate(Upsert(table, news), detected, trigger, None))
  {
    hide Evaluate;
    var ts := EarliestIntruder(stored, arriving, detected);
    var last := LastCounted(stored, detected);
    if ts <= detected {
      table, news, trigger := FlatTable(stored, 1.0, ts, 1.0), FlatTable(arriving, 2.0, ts, 2.0), None;
      ReferenceMoves(table, news, detected, ts, trigger, None);
    } else {
      var price := if last in arriving then 0.0 else 1.0;
      table, news, trigger := FlatTable(stored, 0.0, last, 1.0), FlatTable(arriving, price, ts, price), Some(1.0);
      IntruderIsCounted(stored, arriving, detected, ts);
      TriggerMoves(table, news, detected, ts);
    }
  }

  lemma TriggerMoves(table: Table, news: Table, detected: int, ts: int)
    requires FutureStamps(table.Keys, detected) != [] && ts in FutureStamps(table.Keys + news.Keys, detected)
    requires var last := LastCounted(table.Keys, detected);
      && ts in news && ts <= last && table == FlatTable(table.Keys, 0.0, last, 1.0)
      && forall t :: t in news ==> news[t].high == Some(if last in news then 0.0 else 1.0)
    ensures !Matures(Evaluate(table, detected, Some(1.0), None),
                     Evaluate(Upsert(table, news), detected, Some(1.0), None))
  {
    hide Evaluate;
    hide FutureStamps;
    hide LatestUpTo;
    hide HasOhlc;
    var last, stamps := LastCounted(table.Keys, detected), FutureStamps(table.Keys, detected);
    assert last in stamps;
    TriggerIsEarliest(table, detected, 1.0, None, last);
    if last in news {
      NothingTriggers(Upsert(table, news), detected, 1.0, None);
    } else {
      TriggerIsEarliest(Upsert(table, news), detected, 1.0, None, ts);
    }
  }

  /** Whatever prices the stored and the arriving rows hold, the outcome matures. */
  ghost predicate AlwaysMatures(stored: set<int>, arriving: set<int>, detected: int) {
    forall table: Table, news: Table, trigger: Option<real>, stop: Option<real> ::
      table.Keys == stored && news.Keys == arriving ==>
        Matures(Evaluate(table, detected, trigger, stop), Evaluate(Upsert(table, news), detected, trigger, stop))
  }

  /** The exact condition on times: outcomes mature for all prices, triggers and stops if and
      only if the rows arrive in order. */
  lemma MaturesExactly(stored: set<int>, arriving: set<int>, detected: int)
    ensures AlwaysMatures(stored, arriving, detected) <==> ArriveInOrder(stored, arriving, detected)
  {
    hide Evaluate;
    hide Matures;
    hide ArriveInOrder;
    if ArriveInOrder(stored, arriving, detected) {
      forall table: Table, news: Table, trigger: Option<real>, stop: Option<real>
        | table.Keys == stored && news.Keys == arriving
        ensures Matures(Evaluate(table, detected, trigger, stop),
                        Evaluate(Upsert(table, news), detected, trigger, stop))
      {
        EvaluationMatures(table, news, detected, trigger, stop);
      }
    } else {
      var table, news, trigger := IntruderUnsettles(stored, arriving, detected);
    }
  }

  lemma OneBefore()
    ensures LatestUpTo({0, 10}, 0) == Some(0)
    ensures FutureStamps({0, 10}, 0) == [10]
  {
    assert UpTo({0, 10}, 0) == {0} && After({0, 10}, 0) == {10};
    OneStamp(10);
  }

  /** A bar filled in between the detection and the newest one moves the trigger: dated 10
      before, it is dated 5 afterwards. */
  lemma FilledInBarMovesTheTrigger()
    ensures var table, late := FlatTable({0, 10}, 1.0, 0, 1.0), FlatTable({5}, 1.0, 5, 1.0);
      && !ArriveInOrder({0, 10}, {5}, 0)
      && Evaluate(table, 0, Some(1.0), None).triggerTs == Some(10)
      && Evaluate(Upsert(table, late), 0, Some(1.0), None).triggerTs == Some(5)
  {
    hide Evaluate;
    var table, late := FlatTable({0, 10}, 1.0, 0, 1.0), FlatTable({5}, 1.0, 5, 1.0);
    OneBefore();
    hide LatestUpTo;
    hide FutureStamps;
    assert LastCounted({0, 10}, 0) == 10;
    TriggerIsEarliest(table, 0, 1.0, None, 10);
    assert Intrudes({0, 10}, 0, 5);
    IntruderIsCounted({0, 10}, {5}, 0, 5);
    TriggerIsEarliest(Upsert(table, late), 0, 1.0, None, 5);
    LastCountedIsPast({0, 10} + {5}, 0);
  }

  const WIDE_BAR := Bar(10, Some(5.0), Some(9.0), Some(0.0), Some(5.0), None)

  lemma WideBarDecides(trigger: Option<real>, stop: Option<real>, more: seq<Bar>)
    requires forall i :: 0 <= i < |more| ==> more[i].high == Some(5.0) && more[i].low == Some(5.0)
    ensures FirstAbove([WIDE_BAR] + more, trigger) == if trigger.Some? && 9.0 >= trigger.value then Some(0) else None
    ensures FirstBelow([WIDE_BAR] + more, stop) == if stop.Some? && 0.0 <= stop.value then Some(0) else None
  {
    var future := [WIDE_BAR] + more;
    FirstUpIsUnique(future, trigger, FirstAbove(future, trigger),
                    if trigger.Some? && 9.0 >= trigger.value then Some(0) else None);
    FirstDownIsUnique(future, stop, FirstBelow(future, stop),
                      if stop.Some? && 0.0 <= stop.value then Some(0) else None);
  }

  /** On given prices order is more than needed: behind a bar wider than all others nothing
      is ever seen, so a bar filled in there lets the outcome mature for every trigger and
      stop, although the bars counted before are no prefix of those counted afterwards. */
  lemma WideBarHidesTheOrder(reference: Bar, trigger: Option<real>, stop: Option<real>)
    ensures var before, after := [WIDE_BAR] + [FlatBar(30, 5.0)], [WIDE_BAR] + [FlatBar(20, 5.0), FlatBar(30, 5.0)];
      && !(before <= after)
      && Matures(OutcomeOf(Some(reference), before, trigger, stop), OutcomeOf(Some(reference), after, trigger, stop))
  {
    var before, after := [WIDE_BAR] + [FlatBar(30, 5.0)], [WIDE_BAR] + [FlatBar(20, 5.0), FlatBar(30, 5.0)];
    assert before[1] != after[1];
    WideBarDecides(trigger, stop, [FlatBar(30, 5.0)]);
    WideBarDecides(trigger, stop, [FlatBar(20, 5.0), FlatBar(30, 5.0)]);
    assert before[0..] == before && after[0..] == after;
    hide FirstAbove;
    hide FirstBelow;
  }

  /** A bar stored late, before a detection newer than all bars, replaces the reference. */
  lemma LateBarMovesTheReference()
    ensures var table, late := FlatTable({0}, 1.0, 0, 1.0), FlatTable({5}, 2.0, 5, 2.0);
      && Evaluate(table, 7, None, None).referenceClose == Some(1.0)
      && Evaluate(Upsert(table, late), 7, None, None).referenceClose == Some(2.0)
  {
    hide Evaluate;
    var table, late := FlatTable({0}, 1.0, 0, 1.0), FlatTable({5}, 2.0, 5, 2.0);
    assert UpTo({0}, 7) == {0};
    ReferenceMoves(table, late, 7, 5, None, None);
  }

  /** A stop is never reported before the trigger. */
  lemma StopFollowsTrigger(table: Table, detected: int, trigger: Option<real>, stop: Option<real>)
    ensures var o := Evaluate(table, detected, trigger, stop);
      o.stopTs.Some? ==> o.triggerTs.Some? && o.stopTs.value >= o.triggerTs.value
  {
    hide FirstAbove;
    hide FirstBelow;
    hide AllMetrics;
    hide FirstAfter;
    var stamps, future := FutureStamps(table.Keys, detected), FutureBars(table, detected);
    assert Ascending(stamps);
    assert forall i :: 0 <= i < |future| ==> future[i].ts == stamps[i];
  }

  // ----- nesting

  /** Complete bars whose close lies within their range. */
  ghost predicate Ordinary(bars: seq<Bar>) {
    forall i :: 0 <= i < |bars| ==>
      HasOhlc(bars[i]) && bars[i].low.value <= bars[i].close.value <= bars[i].high.value
  }

  lemma ExtremesBound(bars: seq<Bar>, i: nat)
    requires Ordinary(bars) && i < |bars|
    ensures MaxOf(Highs(bars)).Some? && MinOf(Lows(bars)).Some?
    ensures MinOf(Lows(bars)).value <= bars[i].close.value <= MaxOf(Highs(bars)).value
  {
    MaxOfIsMax(Highs(bars));
    MinOfIsMin(Lows(bars));
    assert Highs(bars)[i] == bars[i].high && Lows(bars)[i] == bars[i].low;
  }

  lemma ReturnsKeepOrder(x: real, y: real, reference: real)
    requires x <= y && reference > 0.0
    ensures Round6(RelativeReturn(x, reference)) <= Round6(RelativeReturn(y, reference))
  {
    assert x / reference <= y / reference;
    Round6Monotone(RelativeReturn(x, reference), RelativeReturn(y, reference));
  }

  /** At every available horizon the forward return lies between the adverse and the
      favourable excursion. */
  lemma ReturnIsWithinExcursions(reference: real, future: seq<Bar>, horizon: nat)
    requires reference > 0.0 && 0 < horizon <= |future| && Ordinary(future)
    ensures var m := MetricsAt(Some(reference), future, horizon);
      && m.mae.Some? && m.forwardReturn.Some? && m.mfe.Some?
      && m.mae.value <= m.forwardReturn.value <= m.mfe.value
  {
    var sample := future[..horizon];
    ExtremesBound(sample, horizon - 1);
    var close := sample[horizon - 1].close.value;
    ReturnsKeepOrder(MinOf(Lows(sample)).value, close, reference);
    ReturnsKeepOrder(close, MaxOf(Highs(sample)).value, reference);
  }

  /** Excursions only widen with the horizon. */
  lemma ExcursionsAreNested(reference: real, future: seq<Bar>, short: nat, long: nat)
    requires reference > 0.0 && 0 < short <= long <= |future| && Ordinary(future)
    ensures var a, b := MetricsAt(Some(reference), future, short), MetricsAt(Some(reference), future, long);
      && a.mfe.Some? && b.mfe.Some? && a.mae.Some? && b.mae.Some?
      && a.mfe.value <= b.mfe.value && b.mae.value <= a.mae.value
  {
    var early, sample := future[..short], future[..long];
    ExtremesBound(early, 0);
    assert Highs(early) == Highs(sample)[..short] && Lows(early) == Lows(sample)[..short];
    MaxOfPart(Highs(early), Highs(sample));
    MinOfPart(Lows(early), Lows(sample));
    ReturnsKeepOrder(MaxOf(Highs(early)).value, MaxOf(Highs(sample)).value, reference);
    ReturnsKeepOrder(MinOf(Lows(sample)).value, MinOf(Lows(early)).value, reference);
  }
}
