/** What an outcome says, in terms of the stored bars alone. */
module OutcomeMeaning {
  import opened Numbers
  import opened Wrappers
  import opened Rounding
  import opened Bars
  import opened BarTable
  import opened Outcomes

  // ----- which bars count

  /** The reference is the latest stored bar at or before the detection, if there is one. */
  ghost predicate IsReference(table: Table, detected: int, reference: Option<Bar>) {
    match reference
    case None => forall ts :: ts in table ==> ts > detected
    case Some(bar) =>
      && bar.ts in table && table[bar.ts] == bar && bar.ts <= detected
      && forall ts :: ts in table && ts <= detected ==> ts <= bar.ts
  }

  /** The bars counted are the next stored ones after the reference, without a gap, in order of
      time: all there are, or the first sixty. */
  ghost predicate AreNext(table: Table, reference: Option<Bar>, future: seq<Bar>) {
    match reference
    case None => future == []
    case Some(bar) =>
      && |future| <= 60
      && (forall i, j :: 0 <= i < j < |future| ==> future[i].ts < future[j].ts)
      && (forall i :: 0 <= i < |future| ==>
            future[i].ts > bar.ts && future[i].ts in table && table[future[i].ts] == future[i])
      && (forall ts :: ts in table && ts > bar.ts ==>
            || (exists i :: 0 <= i < |future| && future[i].ts == ts)
            || (|future| == 60 && ts > future[59].ts))
  }

  lemma ReferenceIsLatest(table: Table, detected: int)
    ensures IsReference(table, detected, ReferenceBar(table, detected))
  {
    var early := UpTo(table.Keys, detected);
    forall ts | ts in table && ts <= detected
      ensures early != {} && ts <= Latest(early)
    {
      assert ts in early;
    }
  }

  lemma RowsAreNext(table: Table, bar: Bar, first: seq<int>)
    requires Ascending(first) && |first| <= 60
    requires forall i :: 0 <= i < |first| ==> first[i] in table && first[i] > bar.ts
    requires forall ts :: ts in table && ts > bar.ts ==> ts in first || (|first| == 60 && ts > first[59])
    ensures AreNext(table, Some(bar), Rows(table, first))
  {
    var future := Rows(table, first);
    assert forall i :: 0 <= i < |first| ==> future[i].ts == first[i];
    forall ts | ts in table && ts > bar.ts && ts in first
      ensures exists i :: 0 <= i < |future| && future[i].ts == ts
    {
      var i :| 0 <= i < |first| && first[i] == ts;
      assert future[i].ts == ts;
    }
  }

  lemma FutureIsNext(table: Table, detected: int)
    ensures AreNext(table, ReferenceBar(table, detected), FutureBars(table, detected))
  {
    var reference := ReferenceBar(table, detected);
    if reference.Some? {
      var stored, start := table.Keys, reference.value.ts;
      var first := FirstAfter(stored, start, LONGEST);
      assert FutureStamps(stored, detected) == first;
      hide FirstAfter;
      hide Rows;
      forall ts | ts in table && ts > start
        ensures ts in first || (|first| == 60 && ts > first[59])
      {
        AllAreListed(stored, start, ts);
      }
      RowsAreNext(table, reference.value, first);
    }
  }

  lemma AllAreListed(stored: set<int>, start: int, ts: int)
    requires ts in stored && ts > start
    ensures var first := FirstAfter(stored, start, LONGEST);
      ts in first || (|first| == LONGEST && ts > first[LONGEST - 1])
  {
    var all, first := Ascend(After(stored, start)), FirstAfter(stored, start, LONGEST);
    assert ts in all;
    var i :| 0 <= i < |all| && all[i] == ts;
    if i < LONGEST {
      assert first[i] == ts;
    }
  }

  // ----- what happened on them

  predicate Touches(bar: Bar, trigger: Option<real>) {
    trigger.Some? && bar.high.Some? && bar.high.value >= trigger.value
  }

  predicate Falls(bar: Bar, stop: Option<real>) {
    stop.Some? && bar.low.Some? && bar.low.value <= stop.value
  }

  /** Bar k is the first one from a position on to touch the trigger, or to fall to the stop. */
  predicate FirstTouch(future: seq<Bar>, trigger: Option<real>, k: nat) {
    k < |future| && Touches(future[k], trigger) && forall i :: 0 <= i < k ==> !Touches(future[i], trigger)
  }

  predicate FirstFall(future: seq<Bar>, stop: Option<real>, from: nat, k: nat) {
    from <= k < |future| && Falls(future[k], stop) && forall i :: from <= i < k ==> !Falls(future[i], stop)
  }

  /** The trigger is dated by the first touch, and a touch comes before what follows it: the
      stop is dated by the first fall from the touch on; a fall before it, or without any
      touch, is a stop before the trigger; a stop after the touch is a false breakout. */
  ghost predicate Happened(o: Outcome, future: seq<Bar>, trigger: Option<real>, stop: Option<real>) {
    && (o.triggerTs.None? <==> forall i :: 0 <= i < |future| ==> !Touches(future[i], trigger))
    && (o.triggerTs.None? ==>
          && o.stopTs.None?
          && (o.stopBeforeTrigger <==> exists i :: 0 <= i < |future| && Falls(future[i], stop)))
    && (forall k: nat :: FirstTouch(future, trigger, k) ==>
          && o.triggerTs == Some(future[k].ts)
          && (o.stopBeforeTrigger <==> exists i :: 0 <= i < k && Falls(future[i], stop))
          && (o.stopTs.None? <==> forall i :: k <= i < |future| ==> !Falls(future[i], stop))
          && (forall j: nat :: FirstFall(future, stop, k, j) ==> o.stopTs == Some(future[j].ts)))
    && (o.falseBreakout <==> o.stopTs.Some?)
  }

  lemma NothingTouched(future: seq<Bar>, reference: Option<Bar>, trigger: Option<real>, stop: Option<real>)
    requires FirstAbove(future, trigger).None?
    ensures Happened(OutcomeOf(reference, future, trigger, stop), future, trigger, stop)
  {
    hide AllMetrics;
    TouchesFirst(future, trigger);
    FallsFirst(future, 0, |future|, stop);
    assert future[0..|future|] == future;
    hide FirstAbove;
    hide FirstBelow;
    hide Touches;
    hide Falls;
  }

  /** The first fall in a part of the bars, by its place in all of them. */
  ghost predicate IsFirstFall(at: Option<nat>, future: seq<Bar>, stop: Option<real>, from: nat, to: nat) {
    && to <= |future|
    && (at.None? <==> forall i :: from <= i < to ==> !Falls(future[i], stop))
    && (at.Some? ==> at.value < to && FirstFall(future, stop, from, at.value))
  }

  lemma PartFalls(future: seq<Bar>, from: nat, to: nat, stop: Option<real>)
    requires from <= to <= |future|
    ensures var r := FirstBelow(future[from..to], stop);
      IsFirstFall(if r.Some? then Some(from + r.value) else None, future, stop, from, to)
  {
    FallsFirst(future, from, to, stop);
    hide FirstBelow;
    hide Falls;
  }

  lemma OneFirstFall(future: seq<Bar>, stop: Option<real>, from: nat, a: nat, b: nat)
    requires FirstFall(future, stop, from, a) && FirstFall(future, stop, from, b)
    ensures a == b
  {
  }

  /** What happened, from the places of the touch, of the fall before it and of the one after. */
  lemma TouchedHappened(
    o: Outcome, future: seq<Bar>, trigger: Option<real>, stop: Option<real>, k: nat, early: Option<nat>,
    late: Option<nat>)
    requires FirstTouch(future, trigger, k)
    requires IsFirstFall(early, future, stop, 0, k) && IsFirstFall(late, future, stop, k, |future|)
    requires o.triggerTs == Some(future[k].ts) && (o.stopBeforeTrigger <==> early.Some?)
    requires o.stopTs == (if late.Some? then Some(future[late.value].ts) else None)
    requires o.falseBreakout <==> late.Some?
    ensures Happened(o, future, trigger, stop)
  {
    hide Touches;
    hide Falls;
    forall l: nat | FirstTouch(future, trigger, l)
      ensures l == k
    {
    }
    forall j: nat | FirstFall(future, stop, k, j)
      ensures late == Some(j)
    {
      if late.Some? {
        OneFirstFall(future, stop, k, late.value, j);
      }
    }
  }

  lemma SomethingTouched(future: seq<Bar>, reference: Option<Bar>, trigger: Option<real>, stop: Option<real>, k: nat)
    requires FirstAbove(future, trigger) == Some(k)
    ensures Happened(OutcomeOf(reference, future, trigger, stop), future, trigger, stop)
  {
    hide AllMetrics;
    hide FirstAbove;
    hide FirstBelow;
    hide Happened;
    hide IsFirstFall;
    TouchesFirst(future, trigger);
    PartFalls(future, 0, k, stop);
    PartFalls(future, k, |future|, stop);
    assert future[k..|future|] == future[k..] && future[0..k] == future[..k];
    var early, late := FirstBelow(future[..k], stop), FirstBelow(future[k..], stop);
    TouchedHappened(
      OutcomeOf(reference, future, trigger, stop), future, trigger, stop, k, early,
      if late.Some? then Some(k + late.value) else None);
  }

  lemma ScanHappens(reference: Option<Bar>, future: seq<Bar>, trigger: Option<real>, stop: Option<real>)
    ensures Happened(OutcomeOf(reference, future, trigger, stop), future, trigger, stop)
  {
    hide *;
    match FirstAbove(future, trigger)
    case None => NothingTouched(future, reference, trigger, stop);
    case Some(k) => SomethingTouched(future, reference, trigger, stop, k);
  }

  lemma TouchesFirst(future: seq<Bar>, trigger: Option<real>)
    ensures match FirstAbove(future, trigger)
      case None => forall i :: 0 <= i < |future| ==> !Touches(future[i], trigger)
      case Some(k) => FirstTouch(future, trigger, k)
  {
  }

  /** The scan of a part of the bars. */
  lemma FallsFirst(future: seq<Bar>, from: nat, to: nat, stop: Option<real>)
    requires from <= to <= |future|
    ensures match FirstBelow(future[from..to], stop)
      case None => forall i :: from <= i < to ==> !Falls(future[i], stop)
      case Some(k) =>
        from + k < to && Falls(future[from + k], stop) && forall i :: from <= i < from + k ==> !Falls(future[i], stop)
  {
    var part, r := future[from..to], FirstBelow(future[from..to], stop);
    hide FirstBelow;
    forall i | from <= i < to
      ensures future[i] == part[i - from]
    {
    }
  }

  // ----- what it was worth

  /** r is the relative change from the reference to a price, rounded. */
  predicate IsReturn(r: Option<real>, reference: real, price: real) {
    r.Some? && reference > 0.0 ==>
      price - reference - Times(HALF_MICRO, reference) <= Times(r.value, reference)
        <= price - reference + Times(HALF_MICRO, reference)
  }

  /** The metrics of a horizon: the close at its end, and the highest and lowest price on the
      way, all relative to the reference close; nothing before the horizon is full. */
  ghost predicate Measured(m: Metrics, reference: Option<real>, future: seq<Bar>, horizon: nat) {
    if reference.None? || reference.value == 0.0 || |future| < horizon || horizon == 0
    then m == Metrics(None, None, None)
    else
      var start := reference.value;
      && (m.forwardReturn.Some? <==> future[horizon - 1].close.Some?)
      && (m.forwardReturn.Some? ==> IsReturn(m.forwardReturn, start, future[horizon - 1].close.value))
      && (m.mfe.Some? <==> exists i :: 0 <= i < horizon && future[i].high.Some?)
      && (m.mfe.Some? ==>
            exists i :: 0 <= i < horizon && IsHighest(future, horizon, i)
                        && IsReturn(m.mfe, start, future[i].high.value))
      && (m.mae.Some? <==> exists i :: 0 <= i < horizon && future[i].low.Some?)
      && (m.mae.Some? ==>
            exists i :: 0 <= i < horizon && IsLowest(future, horizon, i)
                        && IsReturn(m.mae, start, future[i].low.value))
  }

  predicate IsHighest(future: seq<Bar>, horizon: nat, i: nat) {
    && i < horizon <= |future| && future[i].high.Some?
    && forall j :: 0 <= j < horizon && future[j].high.Some? ==> future[j].high.value <= future[i].high.value
  }

  predicate IsLowest(future: seq<Bar>, horizon: nat, i: nat) {
    && i < horizon <= |future| && future[i].low.Some?
    && forall j :: 0 <= j < horizon && future[j].low.Some? ==> future[j].low.value >= future[i].low.value
  }

  lemma ReturnBack(price: real, reference: real)
    requires reference != 0.0
    ensures IsReturn(RoundedReturn(Some(price), reference), reference, price)
  {
    if reference > 0.0 {
      var exact, rounded := RelativeReturn(price, reference), Round6(RelativeReturn(price, reference));
      assert exact * reference == price - reference;
      ProductNonNegative(rounded - exact + HALF_MICRO, reference);
      ProductNonNegative(exact + HALF_MICRO - rounded, reference);
    }
  }

  lemma HighestIs(future: seq<Bar>, horizon: nat)
    requires horizon <= |future|
    ensures var m := MaxOf(Highs(future[..horizon]));
      && (m.Some? <==> exists i :: 0 <= i < horizon && future[i].high.Some?)
      && (m.Some? ==> exists i :: 0 <= i < horizon && IsHighest(future, horizon, i) && future[i].high == m)
  {
    var highs := Highs(future[..horizon]);
    MaxOfIsMax(highs);
    assert forall i :: 0 <= i < horizon ==> highs[i] == future[i].high;
    if MaxOf(highs).Some? {
      var i :| 0 <= i < |highs| && highs[i] == MaxOf(highs);
      assert IsHighest(future, horizon, i);
    }
  }

  lemma LowestIs(future: seq<Bar>, horizon: nat)
    requires horizon <= |future|
    ensures var m := MinOf(Lows(future[..horizon]));
      && (m.Some? <==> exists i :: 0 <= i < horizon && future[i].low.Some?)
      && (m.Some? ==> exists i :: 0 <= i < horizon && IsLowest(future, horizon, i) && future[i].low == m)
  {
    var lows := Lows(future[..horizon]);
    MinOfIsMin(lows);
    assert forall i :: 0 <= i < horizon ==> lows[i] == future[i].low;
    if MinOf(lows).Some? {
      var i :| 0 <= i < |lows| && lows[i] == MinOf(lows);
      assert IsLowest(future, horizon, i);
    }
  }

  lemma HorizonIsMeasured(reference: Option<real>, future: seq<Bar>, horizon: nat)
    requires horizon > 0
    ensures Measured(MetricsAt(reference, future, horizon), reference, future, horizon)
  {
    hide MaxOf;
    hide MinOf;
    hide Highs;
    hide Lows;
    hide IsReturn;
    hide Round6;
    if reference.Some? && reference.value != 0.0 && |future| >= horizon {
      HighestIs(future, horizon);
      LowestIs(future, horizon);
      forall price {
        ReturnBack(price, reference.value);
      }
    }
  }

  /** The stage an outcome has reached: by the reference and the number of bars. */
  predicate Staged(o: Outcome, reference: Option<Bar>, available: nat) {
    && o.barsAvailable == available
    && (o.status.MissingReference? <==> reference.None?)
    && (o.status.Matured60? <==> reference.Some? && available >= 60)
    && (o.status.Matured20? <==> reference.Some? && 20 <= available < 60)
    && (o.status.Pending? <==> reference.Some? && available < 20)
  }

  /** The outcome of a candidate: everything it says, from the stored bars. */
  lemma EvaluationTells(table: Table, detected: int, trigger: Option<real>, stop: Option<real>)
    ensures var o, reference, future :=
        Evaluate(table, detected, trigger, stop), ReferenceBar(table, detected), FutureBars(table, detected);
      && IsReference(table, detected, reference) && AreNext(table, reference, future)
      && o.referenceClose == (if reference.Some? then reference.value.close else None)
      && o.latestTs == (if future == [] then None else Some(future[|future| - 1].ts))
      && Staged(o, reference, |future|)
      && Happened(o, future, trigger, stop)
      && o.metrics.Keys == {5, 10, 20, 60}
      && forall h :: h in o.metrics ==> Measured(o.metrics[h], o.referenceClose, future, h)
  {
    var reference, future := ReferenceBar(table, detected), FutureBars(table, detected);
    ReferenceIsLatest(table, detected);
    FutureIsNext(table, detected);
    ScanHappens(reference, future, trigger, stop);
    hide IsReference;
    hide AreNext;
    hide Happened;
    hide Measured;
    hide MetricsAt;
    hide ReferenceBar;
    hide FutureBars;
    hide FirstAbove;
    hide FirstBelow;
    var close := if reference.Some? then reference.value.close else None;
    forall h | h in {5, 10, 20, 60}
      ensures Measured(AllMetrics(close, future)[h], close, future, h)
    {
      HorizonIsMeasured(close, future, h);
    }
  }
}
