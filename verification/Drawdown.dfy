/** Drawdowns of a snapshot series: the running-peak loop against its declarative meaning. */
module Drawdown {
  import opened Numbers
  import opened Rounding
  import opened Wrappers

  /** The relative change from an earlier equity to a later one. */
  function Change(from: real, to: real): real
    requires from != 0.0
  {
    (to - from) / from
  }

  /** The equities recorded, skipping absent ones. */
  function Recorded(equities: seq<Option<real>>): seq<real> {
    if equities == [] then []
    else
      Recorded(equities[..|equities| - 1])
        + (if equities[|equities| - 1].Some? then [equities[|equities| - 1].value] else [])
  }

  function Peak(e: seq<real>): real
    requires e != []
  {
    if |e| == 1 then e[0] else Max(Peak(e[..|e| - 1]), e[|e| - 1])
  }

  /** The loop's value: the worst change from the running peak. */
  function WorstFromPeak(e: seq<real>): real {
    if e == [] then 0.0
    else if Peak(e) > 0.0 then Min(WorstFromPeak(e[..|e| - 1]), Change(Peak(e), e[|e| - 1]))
    else WorstFromPeak(e[..|e| - 1])
  }

  /** `_max_drawdown_pct` over the snapshots of a window. */
  method MaxDrawdown(equities: seq<Option<real>>) returns (drawdown: real)
    ensures drawdown == Round6(WorstFromPeak(Recorded(equities)))
  {
    var peak: Option<real> := None;
    var worst := 0.0;
    for i := 0 to |equities|
      invariant var e := Recorded(equities[..i]);
        peak == (if e == [] then None else Some(Peak(e))) && worst == WorstFromPeak(e)
    {
      assert equities[..i + 1][..i] == equities[..i];
      ghost var e := Recorded(equities[..i]);
      if equities[i].Some? {
        var equity := equities[i].value;
        assert (e + [equity])[..|e|] == e;
        peak := Some(if peak.None? then equity else Max(peak.value, equity));
        if peak.value > 0.0 {
          worst := Min(worst, Change(peak.value, equity));
        }
      } else {
        assert e + [] == e;
      }
    }
    assert equities[..|equities|] == equities;
    drawdown := Round6(worst);
  }

  /** `_current_drawdown_pct` over all snapshots up to a time. */
  function CurrentDrawdown(equities: seq<Option<real>>): real {
    var e := Recorded(equities);
    if e == [] || Peak(e) <= 0.0 then 0.0 else Round6(Change(Peak(e), e[|e| - 1]))
  }

  // ----- the declarative meaning

  ghost predicate NonNegative(e: seq<real>) {
    forall i :: 0 <= i < |e| ==> e[i] >= 0.0
  }

  /** d is zero or some change between two recorded equities, and no change is worse. */
  ghost predicate IsWorstChange(e: seq<real>, d: real) {
    && d <= 0.0
    && (forall i, j :: 0 <= i <= j < |e| && e[i] > 0.0 ==> d <= Change(e[i], e[j]))
    && (d == 0.0 || exists i, j :: 0 <= i <= j < |e| && e[i] > 0.0 && d == Change(e[i], e[j]))
  }

  lemma {:induction false} PeakIsMax(e: seq<real>) returns (at: nat)
    requires e != []
    ensures at < |e| && e[at] == Peak(e)
    ensures forall i :: 0 <= i < |e| ==> e[i] <= Peak(e)
  {
    if |e| == 1 {
      at := 0;
    } else {
      var before := e[..|e| - 1];
      at := PeakIsMax(before);
      assert forall i :: 0 <= i < |before| ==> e[i] == before[i];
      if e[|e| - 1] >= Peak(before) {
        at := |e| - 1;
      }
    }
  }

  lemma ChangeUndone(from: real, to: real)
    requires from != 0.0
    ensures (Change(from, to) + 1.0) * from == to
  {
    assert Change(from, to) * from == to - from;
  }

  lemma SmallerFactor(p: real, q: real, low: real, high: real)
    requires 0.0 < low <= high && p * low == q * high && q * high >= 0.0
    ensures q <= p
  {
    assert q >= 0.0;
    assert (p - q) * low == q * (high - low);
    assert q * (high - low) >= 0.0;
  }

  /** From a higher start, a fall to the same non-negative level is deeper. */
  lemma DeeperFromHigher(low: real, high: real, to: real)
    requires 0.0 < low <= high && to >= 0.0
    ensures Change(high, to) <= Change(low, to)
  {
    hide Change;
    ChangeUndone(low, to);
    ChangeUndone(high, to);
    SmallerFactor(Change(low, to) + 1.0, Change(high, to) + 1.0, low, high);
  }

  /** No negative equity follows two different positive ones. */
  ghost predicate FallsFromOneLevel(e: seq<real>) {
    forall i, k, j ::
      0 <= i < j < |e| && 0 <= k < j && e[i] > 0.0 && e[k] > 0.0 && e[j] < 0.0 ==> e[i] == e[k]
  }

  /** The worst fall to the last equity starts from the peak. */
  lemma PeakIsWorstStart(e: seq<real>, i: nat)
    requires FallsFromOneLevel(e) && i < |e| && e[i] > 0.0
    ensures Peak(e) > 0.0 && Change(Peak(e), e[|e| - 1]) <= Change(e[i], e[|e| - 1])
  {
    var at := PeakIsMax(e);
    if e[|e| - 1] >= 0.0 {
      DeeperFromHigher(e[i], Peak(e), e[|e| - 1]);
    }
  }

  lemma FrontFallsFromOneLevel(e: seq<real>)
    requires FallsFromOneLevel(e) && e != []
    ensures FallsFromOneLevel(e[..|e| - 1])
  {
    assert forall i :: 0 <= i < |e| - 1 ==> e[..|e| - 1][i] == e[i];
  }

  lemma WorstSteps(e: seq<real>)
    requires e != []
    ensures var before := WorstFromPeak(e[..|e| - 1]);
      && WorstFromPeak(e) <= before
      && (WorstFromPeak(e) == before
          || (Peak(e) > 0.0 && WorstFromPeak(e) == Change(Peak(e), e[|e| - 1]) < before))
  {
    hide Change;
  }

  /** No change to the last equity is worse than d. */
  ghost predicate BoundsLast(e: seq<real>, d: real) {
    forall i :: 0 <= i < |e| && e[i] > 0.0 ==> d <= Change(e[i], e[|e| - 1])
  }

  lemma BoundsCarryOver(e: seq<real>, before: seq<real>, c: real, d: real)
    requires e != [] && before == e[..|e| - 1] && IsWorstChange(before, c) && d <= c && BoundsLast(e, d)
    ensures forall i, j :: 0 <= i <= j < |e| && e[i] > 0.0 ==> d <= Change(e[i], e[j])
  {
    hide Change;
    forall i, j | 0 <= i <= j < |e| && e[i] > 0.0
      ensures d <= Change(e[i], e[j])
    {
      if j < |before| {
        assert before[i] == e[i] && before[j] == e[j];
      }
    }
  }

  lemma WorstStays(e: seq<real>, before: seq<real>, c: real)
    requires e != [] && before == e[..|e| - 1] && IsWorstChange(before, c) && BoundsLast(e, c)
    ensures IsWorstChange(e, c)
  {
    hide Change;
    hide BoundsLast;
    BoundsCarryOver(e, before, c, c);
    if c != 0.0 {
      var i, j :| 0 <= i <= j < |before| && before[i] > 0.0 && c == Change(before[i], before[j]);
      assert before[i] == e[i] && before[j] == e[j];
    }
  }

  /** The worst change so far and those to the last equity make the worst change. */
  lemma WorstCarriesOver(e: seq<real>)
    requires e != [] && IsWorstChange(e[..|e| - 1], WorstFromPeak(e[..|e| - 1])) && BoundsLast(e, WorstFromPeak(e))
    ensures IsWorstChange(e, WorstFromPeak(e))
  {
    hide Change;
    hide WorstFromPeak;
    hide BoundsLast;
    hide Peak;
    var before := e[..|e| - 1];
    WorstSteps(e);
    if WorstFromPeak(e) == WorstFromPeak(before) {
      WorstStays(e, before, WorstFromPeak(e));
    } else {
      var at := PeakIsMax(e);
      BoundsCarryOver(e, before, WorstFromPeak(before), WorstFromPeak(e));
      assert WorstFromPeak(e) == Change(e[at], e[|e| - 1]);
    }
  }

  /** The running-peak loop computes the worst change over all pairs, if no negative equity
      follows two different positive ones. */
  lemma {:induction false} LoopIsWorstChange(e: seq<real>)
    requires FallsFromOneLevel(e)
    ensures IsWorstChange(e, WorstFromPeak(e))
  {
    hide Change;
    hide FallsFromOneLevel;
    hide IsWorstChange;
    if e == [] {
      NothingChanges();
    } else {
      FrontFallsFromOneLevel(e);
      LoopIsWorstChange(e[..|e| - 1]);
      var at := PeakIsMax(e);
      forall i | 0 <= i < |e| && e[i] > 0.0
        ensures WorstFromPeak(e) <= Change(e[i], e[|e| - 1])
      {
        PeakIsWorstStart(e, i);
      }
      assert BoundsLast(e, WorstFromPeak(e));
      WorstCarriesOver(e);
    }
  }

  lemma NothingChanges()
    ensures IsWorstChange([], WorstFromPeak([]))
  {
  }

  /** So it does for equities that are never negative. */
  lemma NonNegativeIsWorstChange(e: seq<real>)
    requires NonNegative(e)
    ensures IsWorstChange(e, WorstFromPeak(e))
  {
    LoopIsWorstChange(e);
  }

  // ----- exactly which next equity keeps the meaning

  /** The lowest positive equity, if any. */
  function LowestPositive(e: seq<real>): (low: Option<real>)
    ensures low.Some? ==> low.value > 0.0
  {
    if e == [] then None
    else
      var low, last := LowestPositive(e[..|e| - 1]), e[|e| - 1];
      if last <= 0.0 then low else if low.None? then Some(last) else Some(Min(low.value, last))
  }

  lemma {:induction false} LowestIsLowest(e: seq<real>)
    ensures var low := LowestPositive(e);
      && (low.Some? ==> low.value > 0.0 && low.value in e)
      && forall i :: 0 <= i < |e| && e[i] > 0.0 ==> low.Some? && low.value <= e[i]
  {
    if e != [] {
      LowestIsLowest(e[..|e| - 1]);
      assert e == e[..|e| - 1] + [e[|e| - 1]];
    }
  }

  /** From a higher start, a fall below zero is shallower. */
  lemma ShallowerFromHigher(low: real, high: real, to: real)
    requires 0.0 < low <= high && to < 0.0
    ensures Change(low, to) <= Change(high, to)
    ensures low < high ==> Change(low, to) < Change(high, to)
  {
    var p, q := Change(low, to) + 1.0, Change(high, to) + 1.0;
    ChangeUndone(low, to);
    ChangeUndone(high, to);
    NegativeFactors(p, q, low, high, to);
  }

  lemma NegativeFactors(p: real, q: real, low: real, high: real, to: real)
    requires 0.0 < low <= high && p * low == to && q * high == to && to < 0.0
    ensures p <= q && (low < high ==> p < q)
  {
    assert q < 0.0;
    ProductNonNegative(-q, high - low);
    assert low * (q - p) == -q * (high - low);
    assert low < high ==> -q * (high - low) > 0.0;
  }

  /** The next equity does not fall below zero, or falls from a single positive level, or no
      further from the lowest positive level than the worst change so far. */
  predicate KeepsMeaning(e: seq<real>, next: real) {
    var low := LowestPositive(e);
    next >= 0.0 || low.None? || low.value == Peak(e) || WorstFromPeak(e) <= Change(low.value, next)
  }

  lemma NextChangeIsMilder(e: seq<real>, next: real, i: nat)
    requires KeepsMeaning(e, next) && i <= |e| && (e + [next])[i] > 0.0
    ensures WorstFromPeak(e + [next]) <= Change((e + [next])[i], next)
  {
    var all := e + [next];
    assert all[..|e|] == e;
    LowestIsLowest(e);
    var at := PeakIsMax(all);
    if next >= 0.0 {
      DeeperFromHigher(all[i], Peak(all), next);
    } else {
      var was := PeakIsMax(e);
      assert all[i] == e[i];
      ShallowerFromHigher(LowestPositive(e).value, e[i], next);
    }
    hide Change;
  }

  /** The exact condition, checked before a snapshot is added: on a history where the loop
      has its pairwise meaning, it still has it with the next equity if and only if that
      equity keeps the meaning. */
  lemma NextEquityExactly(e: seq<real>, next: real)
    requires IsWorstChange(e, WorstFromPeak(e))
    ensures IsWorstChange(e + [next], WorstFromPeak(e + [next])) <==> KeepsMeaning(e, next)
  {
    var all := e + [next];
    assert all[..|e|] == e;
    LowestIsLowest(e);
    if e != [] {
      var at := PeakIsMax(e);
    }
    hide Change;
    if KeepsMeaning(e, next) {
      forall i | 0 <= i < |all| && all[i] > 0.0
        ensures WorstFromPeak(all) <= Change(all[i], next)
      {
        NextChangeIsMilder(e, next, i);
      }
      assert BoundsLast(all, WorstFromPeak(all));
      WorstCarriesOver(all);
    } else {
      var low := LowestPositive(e).value;
      ShallowerFromHigher(low, Peak(e), next);
      var i :| 0 <= i < |e| && e[i] == low;
      assert all[i] == low && all[|e|] == next;
      assert Change(all[i], all[|e|]) < WorstFromPeak(all);
    }
  }

  // ----- exactly which series keep it throughout

  /** The loop's value is zero or some change between two recorded equities. */
  lemma {:induction false} LoopValueOccurs(e: seq<real>) returns (i: nat, j: nat)
    ensures WorstFromPeak(e) == 0.0
         || (i <= j < |e| && e[i] > 0.0 && WorstFromPeak(e) == Change(e[i], e[j]))
  {
    hide Change;
    i, j := 0, 0;
    if e != [] {
      var before := e[..|e| - 1];
      i, j := LoopValueOccurs(before);
      var at := PeakIsMax(e);
      WorstSteps(e);
      if WorstFromPeak(e) != WorstFromPeak(before) {
        i, j := at, |e| - 1;
      }
    }
  }

  lemma FallBelowZero(from: real, to: real)
    requires from > 0.0
    ensures Change(from, to) < -1.0 <==> to < 0.0
  {
    var factor := Change(from, to) + 1.0;
    ChangeUndone(from, to);
    if factor >= 0.0 {
      ProductNonNegative(factor, from);
    } else {
      assert factor * from < 0.0;
    }
  }

  /** A worst change above minus one leaves no fall below zero. */
  lemma MildFallsStayAboveZero(e: seq<real>, d: real)
    requires forall i, j :: 0 <= i <= j < |e| && e[i] > 0.0 ==> d <= Change(e[i], e[j])
    requires d >= -1.0
    ensures FallsFromOneLevel(e)
  {
    hide Change;
    forall i, j | 0 <= i <= j < |e| && e[i] > 0.0
      ensures e[j] >= 0.0
    {
      FallBelowZero(e[i], e[j]);
    }
  }

  /** If a fall below zero from the peak is the worst one, the peak is the only positive level. */
  lemma WorstFallIsFromOneLevel(e: seq<real>, next: real)
    requires e != [] && Peak(e) > 0.0 && next < 0.0
    requires forall i :: 0 <= i < |e| && e[i] > 0.0 ==> Change(Peak(e), next) <= Change(e[i], next)
    ensures FallsFromOneLevel(e)
  {
    hide Change;
    var at := PeakIsMax(e);
    forall i | 0 <= i < |e| && e[i] > 0.0
      ensures e[i] == Peak(e)
    {
      ShallowerFromHigher(e[i], Peak(e), next);
    }
  }

  /** A meaning lost never returns: with the next equity there, it was there before. */
  lemma MeaningOfPrefix(e: seq<real>, next: real)
    requires IsWorstChange(e + [next], WorstFromPeak(e + [next]))
    ensures IsWorstChange(e, WorstFromPeak(e))
  {
    hide Change;
    hide WorstFromPeak;
    hide FallsFromOneLevel;
    var all := e + [next];
    var worst := WorstFromPeak(all);
    assert all[..|e|] == e;
    WorstSteps(all);
    NeverPositive(e);
    var from, to := LoopValueOccurs(e);
    forall i, j | 0 <= i <= j < |e| && e[i] > 0.0
      ensures worst <= Change(e[i], e[j])
    {
      assert all[i] == e[i] && all[j] == e[j];
    }
    if worst < WorstFromPeak(e) {
      if next >= 0.0 {
        FallBelowZero(Peak(all), next);
        MildFallsStayAboveZero(e, worst);
      } else {
        assert Peak(all) == Peak(e);
        forall i | 0 <= i < |e| && e[i] > 0.0
          ensures Change(Peak(e), next) <= Change(e[i], next)
        {
          assert all[i] == e[i] && all[|e|] == next;
        }
        WorstFallIsFromOneLevel(e, next);
      }
      LoopIsWorstChange(e);
    }
  }

  /** The exact condition for a whole series: the loop has its pairwise meaning if and only
      if each equity, when it was added, kept the meaning of those before it. */
  lemma {:induction false} SeriesExactly(e: seq<real>)
    ensures IsWorstChange(e, WorstFromPeak(e)) <==> forall j :: 0 <= j < |e| ==> KeepsMeaning(e[..j], e[j])
  {
    hide IsWorstChange;
    hide WorstFromPeak;
    hide KeepsMeaning;
    if e == [] {
      NothingChanges();
    } else {
      var before, last := e[..|e| - 1], e[|e| - 1];
      assert e == before + [last];
      SeriesExactly(before);
      assert forall j :: 0 <= j < |before| ==> e[..j] == before[..j] && e[j] == before[j];
      if IsWorstChange(e, WorstFromPeak(e)) {
        MeaningOfPrefix(before, last);
      }
      if IsWorstChange(before, WorstFromPeak(before)) {
        NextEquityExactly(before, last);
      }
    }
  }

  /** The meaning is unambiguous. */
  lemma WorstChangeIsUnique(e: seq<real>, c: real, d: real)
    requires IsWorstChange(e, c) && IsWorstChange(e, d)
    ensures c == d
  {
    hide Change;
    if c != 0.0 {
      var i, j :| 0 <= i <= j < |e| && e[i] > 0.0 && c == Change(e[i], e[j]);
    }
    if d != 0.0 {
      var i, j :| 0 <= i <= j < |e| && e[i] > 0.0 && d == Change(e[i], e[j]);
    }
  }

  /** A negative equity breaks it: falling below zero is deeper from a lower start. */
  lemma NegativeEquityGoesWrong()
    ensures !IsWorstChange([1.0, 10.0, -5.0], WorstFromPeak([1.0, 10.0, -5.0]))
  {
    var e := [1.0, 10.0, -5.0];
    assert e[..2] == [1.0, 10.0] && e[..2][..1] == [1.0] && [1.0][..0] == [];
    assert Peak([1.0]) == 1.0 && Peak([1.0, 10.0]) == 10.0 && Peak(e) == 10.0;
    assert Change(10.0, -5.0) == -1.5 && Change(1.0, -5.0) == -6.0;
    assert WorstFromPeak([1.0]) == 0.0 && WorstFromPeak([1.0, 10.0]) == 0.0;
    assert e[0] == 1.0 && e[2] == -5.0;
    assert WorstFromPeak(e) == -1.5 > Change(e[0], e[2]);
  }

  // ----- the current drawdown

  /** No change from a positive equity to the last one is worse than the one from i. */
  ghost predicate IsWorstToLast(e: seq<real>, i: nat) {
    && i < |e| && e[i] > 0.0
    && forall j :: 0 <= j < |e| && e[j] > 0.0 ==> Change(e[i], e[|e| - 1]) <= Change(e[j], e[|e| - 1])
  }

  lemma PeakIsWorstToLast(e: seq<real>)
    requires e != [] && Peak(e) > 0.0 && e[|e| - 1] >= 0.0
    ensures exists i: nat :: IsWorstToLast(e, i) && e[i] == Peak(e)
  {
    var at := PeakIsMax(e);
    forall j | 0 <= j < |e| && e[j] > 0.0
      ensures Change(e[at], e[|e| - 1]) <= Change(e[j], e[|e| - 1])
    {
      DeeperFromHigher(e[j], e[at], e[|e| - 1]);
    }
    hide Change;
    assert IsWorstToLast(e, at);
  }

  /** The current drawdown is zero if no equity is positive; else, unless the last one is
      negative, it is the worst change from any positive equity to the last one, rounded. */
  lemma CurrentIsWorstToLast(equities: seq<Option<real>>)
    ensures var e := Recorded(equities);
      if forall i :: 0 <= i < |e| ==> e[i] <= 0.0 then CurrentDrawdown(equities) == 0.0
      else e[|e| - 1] >= 0.0 ==>
        exists i: nat :: IsWorstToLast(e, i) && Near(CurrentDrawdown(equities), Change(e[i], e[|e| - 1]), 1)
  {
    hide Change;
    hide IsWorstToLast;
    var e := Recorded(equities);
    if forall i :: 0 <= i < |e| ==> e[i] <= 0.0 {
      NothingPositive(e);
    } else {
      SomethingPositive(e);
      if e[|e| - 1] >= 0.0 {
        PeakIsWorstToLast(e);
      }
    }
  }

  lemma NothingPositive(e: seq<real>)
    requires forall i :: 0 <= i < |e| ==> e[i] <= 0.0
    ensures e == [] || Peak(e) <= 0.0
  {
    if e != [] {
      var at := PeakIsMax(e);
      assert e[at] <= 0.0;
    }
  }

  lemma SomethingPositive(e: seq<real>)
    requires exists i :: 0 <= i < |e| && e[i] > 0.0
    ensures e != [] && Peak(e) > 0.0
  {
    var at := PeakIsMax(e);
  }

  /** Recording keeps the equities present, in order. */
  lemma {:induction false} RecordedInOrder(equities: seq<Option<real>>, more: seq<Option<real>>)
    ensures Recorded(equities + more) == Recorded(equities) + Recorded(more)
    ensures forall x :: Recorded([Some(x)]) == [x]
    ensures Recorded([None]) == []
  {
    assert forall o: Option<real> :: [o][..0] == [];
    if more == [] {
      assert equities + more == equities;
    } else {
      var front := more[..|more| - 1];
      RecordedInOrder(equities, front);
      assert (equities + more)[..|equities + more| - 1] == equities + front;
    }
  }

  /** Over the whole history the maximum drawdown is never milder than the current one. */
  lemma MaxIsAtLeastCurrent(equities: seq<Option<real>>)
    ensures Round6(WorstFromPeak(Recorded(equities))) <= CurrentDrawdown(equities)
  {
    hide Change;
    var e := Recorded(equities);
    NeverPositive(e);
    Round6Monotone(WorstFromPeak(e), 0.0);
    if e != [] && Peak(e) > 0.0 {
      Round6Monotone(WorstFromPeak(e), Change(Peak(e), e[|e| - 1]));
    }
  }

  lemma {:induction false} NeverPositive(e: seq<real>)
    ensures WorstFromPeak(e) <= 0.0
  {
    if e != [] {
      NeverPositive(e[..|e| - 1]);
    }
  }
}
