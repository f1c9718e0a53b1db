/** Deciding a review fill late: confirming or ignoring it leaves the realized past alone,
    binding it moves the past of its target and of nothing else. */
module LateDecisions {
  import opened Records
  import opened Rounding
  import opened Wrappers
  import opened Totals
  import opened Ledger
  import opened LedgerSafety
  import opened ReplayOrder
  import opened CostReplay
  import opened CashConservation
  import opened RealizedPnl
  import opened Equity
  import opened OpenPositions
  import opened RealizedPast

  // ----- a position under review stands for one fill

  predicate UnderReview(s: Books, pid: PositionId) {
    pid in s.positions && s.positions[pid].status.ReviewNeeded?
  }

  /** The position has at most one fill, and no entry price if that is a sell. */
  ghost predicate Lone(s: Books, pid: PositionId) {
    && (forall i, j ::
          0 <= i < j < |s.fills| && s.fills[i].positionId == pid ==> s.fills[j].positionId != pid)
    && (forall i :: 0 <= i < |s.fills| && s.fills[i].positionId == pid && s.fills[i].side.Sell? ==>
          pid in s.positions && s.positions[pid].entryPrice.None?)
  }

  ghost predicate LoneReviews(s: Books) {
    forall pid :: UnderReview(s, pid) ==> Lone(s, pid)
  }

  lemma ReviewOpensLone(s: Books, row: Row)
    requires Owned(s) && LoneReviews(s) && ReviewOf(row.key) !in s.positions
    ensures var pid := ReviewOf(row.key);
      LoneReviews(s.(positions := s.positions[pid := ReviewPosition(row)],
                     fills := s.fills + [FillOfRow(row, pid, ReviewRequired)]))
  {
    var pid := ReviewOf(row.key);
    var s' := s.(positions := s.positions[pid := ReviewPosition(row)],
                 fills := s.fills + [FillOfRow(row, pid, ReviewRequired)]);
    forall q | UnderReview(s', q)
      ensures Lone(s', q)
    {
      assert q != pid ==> UnderReview(s, q);
    }
  }

  lemma AppliedIsNotReviewed(p: Position, row: RowData)
    ensures ApplyFill(p, row).Success? ==> !ApplyFill(p, row).value.status.ReviewNeeded?
  {
    hide Round6;
  }

  /** The step leaves a position under review and its fills alone. */
  ghost predicate LeavesReview(s: Books, s': Books, pid: PositionId) {
    && UnderReview(s, pid) && pid in s'.positions && s'.positions[pid].entryPrice == s.positions[pid].entryPrice
    && |s.fills| <= |s'.fills|
    && (forall i :: 0 <= i < |s.fills| ==>
          s'.fills[i] == s.fills[i] || (s.fills[i].positionId != pid && s'.fills[i].positionId != pid))
    && (forall i :: |s.fills| <= i < |s'.fills| ==> s'.fills[i].positionId != pid)
  }

  lemma ImportLeavesReview(s: Books, row: Row, pid: PositionId)
    requires Owned(s) && ResolvePosition(s.positions, row).Some?
    requires UnderReview(After(s, Import(row)), pid)
    ensures LeavesReview(s, After(s, Import(row)), pid)
  {
    hide ApplyFill;
    hide Round6;
    AppliedIsNotReviewed(s.positions[ResolvePosition(s.positions, row).value], row);
  }

  lemma ReconcileLeavesReview(s: Books, key: nat, action: Action, pid: PositionId)
    requires Owned(s) && UnderReview(After(s, Reconcile(key, action)), pid)
    ensures LeavesReview(s, After(s, Reconcile(key, action)), pid)
  {
    hide ApplyFill;
    hide FindFill;
    if action.BindPosition? && ReconcileFill(s, key, action).Success? {
      var i := FindFill(s.fills, key).value;
      AppliedIsNotReviewed(s.positions[action.target], RowOfFill(s.fills[i], action.target));
    }
  }

  /** So does every step but the one that opens it or decides its fill. */
  lemma StepLeavesReview(s: Books, step: Step, pid: PositionId)
    requires Owned(s) && ValidInput(step) && UnderReview(After(s, step), pid)
    requires step.Import? ==> After(s, step) == s || ResolvePosition(s.positions, step.row).Some?
    ensures LeavesReview(s, After(s, step), pid)
  {
    if step.Import? {
      if After(s, step) != s {
        ImportLeavesReview(s, step.row, pid);
      }
    } else if step.Reconcile? {
      ReconcileLeavesReview(s, step.key, step.action, pid);
    }
  }

  lemma StepKeepsLone(s: Books, step: Step)
    requires Owned(s) && LoneReviews(s) && ValidInput(step)
    ensures LoneReviews(After(s, step))
  {
    hide ApplyFill;
    var s' := After(s, step);
    if step.Import? && s' != s && ResolvePosition(s.positions, step.row).None? {
      ReviewOpensLone(s, step.row);
    } else {
      hide After;
      forall pid | UnderReview(s', pid)
        ensures Lone(s', pid)
      {
        StepLeavesReview(s, step, pid);
        assert Lone(s, pid);
      }
    }
  }

  lemma {:induction false} RunKeepsLone(steps: seq<Step>)
    requires ValidRun(steps)
    ensures LoneReviews(Run(EMPTY, steps))
  {
    if steps != [] {
      var front := steps[..|steps| - 1];
      RunKeepsLone(front);
      RunKeepsOwners(front);
      StepKeepsLone(Run(EMPTY, front), steps[|steps| - 1]);
    }
  }

  // ----- what a position's fills add to the realized past

  /** The PnL of a position's legs up to a time. */
  ghost function PastLegs(s: Books, past: int, pid: PositionId): real {
    SumPnl(FillLegs(Report(s.fills, None, past), Until(s.fills, past), s.positions, OfPosition(pid)))
  }

  ghost predicate SameOwnFills(s: Books, s': Books, pid: PositionId) {
    forall f: Fill :: f.positionId == pid ==> (f in s.fills <==> f in s'.fills)
  }

  lemma PastMembers(s: Books, past: int, pid: PositionId)
    requires UniqueKeys(s.fills)
    ensures Consistent(Until(s.fills, past) + Report(s.fills, None, past)) && InOrder(PastOrder(s, past, pid))
    ensures forall f :: f in Until(s.fills, past) + Report(s.fills, None, past) <==>
      f in s.fills && f.active && f.executedAt <= past
    ensures forall f :: f in PastOrder(s, past, pid) ==>
      f in s.fills && f.positionId == pid && (f.side.Sell? ==> f.key in ReportedSells(Report(s.fills, None, past)))
    ensures forall f :: f in s.fills && f.positionId == pid && f.active && f.executedAt <= past && Replayable(f) ==>
      f in PastOrder(s, past, pid)
  {
    var basis, report := Until(s.fills, past), Report(s.fills, None, past);
    UntilMembers(s.fills, past);
    ReportMembers(s.fills, None, past);
    UniqueIsConsistent(s.fills);
    var all := basis + report;
    assert Consistent(all);
    KeptMembers(all, pid);
    hide Kept;
    hide ReportedSells;
    forall f | f in PastOrder(s, past, pid)
      ensures f in all && f.positionId == pid && Replayable(f)
    {
      assert f.key in Kept(all, pid) && Kept(all, pid)[f.key] == f;
    }
    SellsAreReported(report);
  }

  lemma SellsAreReported(report: seq<Fill>)
    ensures forall f :: f in report && f.side.Sell? && Replayable(f) ==> f.key in ReportedSells(report)
  {
  }

  lemma OrderStays(s: Books, s': Books, past: int, pid: PositionId)
    requires UniqueKeys(s.fills) && UniqueKeys(s'.fills) && SameOwnFills(s, s', pid)
    ensures PastOrder(s', past, pid) == PastOrder(s, past, pid)
  {
    PastMembers(s, past, pid);
    PastMembers(s', past, pid);
    KeptOfOwn(Until(s.fills, past) + Report(s.fills, None, past),
              Until(s'.fills, past) + Report(s'.fills, None, past), pid);
  }

  lemma {:induction false} LegsOfReported(order: seq<Fill>, a: set<nat>, b: set<nat>, p: Position)
    requires forall i :: 0 <= i < |order| && order[i].side.Sell? ==> order[i].key in a && order[i].key in b
    ensures LegsOf(order, a, p) == LegsOf(order, b, p)
  {
    if order != [] {
      LegsOfReported(order[..|order| - 1], a, b, p);
    }
  }

  /** They depend on its own fills and entry price. */
  lemma PastLegsStay(s: Books, s': Books, past: int, pid: PositionId)
    requires UniqueKeys(s.fills) && UniqueKeys(s'.fills) && SameOwnFills(s, s', pid)
    requires pid in s.positions <==> pid in s'.positions
    requires pid in s.positions ==> s'.positions[pid].entryPrice == s.positions[pid].entryPrice
    ensures PastLegs(s', past, pid) == PastLegs(s, past, pid)
  {
    hide LegsOf;
    hide Stocked;
    OrderStays(s, s', past, pid);
    PastMembers(s, past, pid);
    PastMembers(s', past, pid);
    if pid in s.positions {
      var order, p, p' := PastOrder(s, past, pid), s.positions[pid], s'.positions[pid];
      var reported := ReportedSells(Report(s.fills, None, past));
      var reported' := ReportedSells(Report(s'.fills, None, past));
      forall i | 0 <= i < |order| && order[i].side.Sell?
        ensures order[i].key in reported && order[i].key in reported'
      {
        assert order[i] in order;
      }
      LegsOfReported(order, reported, reported', p');
      StockedLegsSum(order, reported, p, p');
    }
  }

  lemma FirstTwoDiffer(order: seq<Fill>)
    requires InOrder(order) && |order| >= 2
    ensures order[0] in order && order[1] in order && order[0] != order[1]
  {
    assert Precedes(order[0], order[1]);
  }

  lemma LoneOrder(s: Books, past: int, pid: PositionId)
    requires UniqueKeys(s.fills) && Lone(s, pid)
    ensures |PastOrder(s, past, pid)| <= 1
  {
    PastMembers(s, past, pid);
    var order := PastOrder(s, past, pid);
    forall f, g | f in order && g in order
      ensures f == g
    {
      var i :| 0 <= i < |s.fills| && s.fills[i] == f;
      var j :| 0 <= j < |s.fills| && s.fills[j] == g;
    }
    if |order| >= 2 {
      FirstTwoDiffer(order);
    }
  }

  lemma PastLegsInOrder(s: Books, past: int, pid: PositionId)
    requires pid in s.positions
    ensures var reported := ReportedSells(Report(s.fills, None, past));
      PastLegs(s, past, pid) == SumPnl(LegsOf(PastOrder(s, past, pid), reported, s.positions[pid]))
  {
  }

  lemma LegsOfOne(f: Fill, reported: set<nat>, p: Position)
    requires f.side.Sell? ==> f.key in reported
    ensures SumPnl(LegsOf([f], reported, p)) == if f.side.Sell? then PnlOf(LegOf(FLAT, f, p)) else 0.0
  {
    LegsAfter([f], reported, p);
    assert [f][..0] == [];
  }

  /** With one fill, a sell is priced at the stored entry, if there is one. */
  lemma OneFillAdds(s: Books, past: int, pid: PositionId)
    requires UniqueKeys(s.fills) && pid in s.positions && |PastOrder(s, past, pid)| == 1
    ensures var f := PastOrder(s, past, pid)[0];
      PastLegs(s, past, pid) == if f.side.Sell? then PnlOf(LegOf(FLAT, f, s.positions[pid])) else 0.0
  {
    hide *;
    PastMembers(s, past, pid);
    PastLegsInOrder(s, past, pid);
    var order := PastOrder(s, past, pid);
    assert order == [order[0]] && order[0] in order;
    LegsOfOne(order[0], ReportedSells(Report(s.fills, None, past)), s.positions[pid]);
  }

  lemma LoneAddsNothing(s: Books, past: int, pid: PositionId)
    requires UniqueKeys(s.fills) && Lone(s, pid)
    ensures PastLegs(s, past, pid) == 0.0
  {
    hide PastOrder;
    hide Report;
    hide Until;
    LoneOrder(s, past, pid);
    PastMembers(s, past, pid);
    if pid in s.positions {
      if PastOrder(s, past, pid) == [] {
        PastLegsInOrder(s, past, pid);
      } else {
        assert PastOrder(s, past, pid)[0] in PastOrder(s, past, pid);
        OneFillAdds(s, past, pid);
      }
    }
  }

  lemma PastPnlAt(s: Books, past: int, key: EventKey)
    ensures At(PastPnl(s, past), key)
         == (if key.OfPosition? then PastLegs(s, past, key.position) else 0.0)
          + SumPnl(JournalLegs(TradesWithin(s.trades, None, past), key))
  {
    EventIsSumOfLegs(
      Report(s.fills, None, past), Until(s.fills, past), TradesWithin(s.trades, None, past), s.positions, key);
  }

  /** If only one position's past moves, the realized past moves by as much. */
  lemma PastMovesAt(s: Books, s': Books, past: int, pid: PositionId)
    requires s'.trades == s.trades
    requires forall q :: q != pid ==> PastLegs(s', past, q) == PastLegs(s, past, q)
    ensures RealizedUntil(s'.fills, s'.trades, s'.positions, past) - RealizedUntil(s.fills, s.trades, s.positions, past)
         == PastLegs(s', past, pid) - PastLegs(s, past, pid)
  {
    hide PastPnl;
    hide PastLegs;
    hide JournalLegs;
    var key, none: map<EventKey, real> := OfPosition(pid), map[];
    var before, after := PastPnl(s, past) - {key}, PastPnl(s', past) - {key};
    PastPnlAt(s, past, key);
    PastPnlAt(s', past, key);
    forall other
      ensures At(after, other) == At(before, other) + At(none, other)
    {
      PastPnlAt(s, past, other);
      PastPnlAt(s', past, other);
    }
    TotalAdds(after, before, none);
    TotalRemove(PastPnl(s, past), key);
    TotalRemove(PastPnl(s', past), key);
    RealizedIsTotal(s, past);
    RealizedIsTotal(s', past);
  }

  // ----- confirm, ignore and bind

  /** The fill a reconciliation decides. */
  function Undecided(s: Books, step: Step): (f: Fill)
    requires step.Reconcile? && Next(s, step).Success?
  {
    s.fills[FindFill(s.fills, step.key).value]
  }

  /** What a successful reconciliation does to positions and fills but for its target. */
  lemma DecisionTouches(s: Books, step: Step, pid: PositionId)
    requires Safe(s) && LoneReviews(s) && step.Reconcile? && Next(s, step).Success?
    requires step.action.BindPosition? ==> pid != step.action.target
    ensures var review, s' := Undecided(s, step).positionId, After(s, step);
      && s'.trades == s.trades
      && (pid in s.positions <==> pid in s'.positions)
      && (pid in s.positions ==> s'.positions[pid].entryPrice == s.positions[pid].entryPrice)
      && (pid != review ==> SameOwnFills(s, s', pid))
      && (pid == review ==> Lone(s, pid) && Lone(s', pid))
  {
    hide ApplyFill;
    hide FindFill;
    var i, s' := FindFill(s.fills, step.key).value, After(s, step);
    var review := s.fills[i].positionId;
    assert Lone(s, review);
    assert s'.fills == s.fills[i := s'.fills[i]];
    if pid != review {
      OtherFillsStay(s, s', i, pid);
    }
  }

  lemma OtherFillsStay(s: Books, s': Books, i: nat, pid: PositionId)
    requires i < |s.fills| && |s'.fills| == |s.fills| && s'.fills == s.fills[i := s'.fills[i]]
    requires s.fills[i].positionId != pid && s'.fills[i].positionId != pid
    ensures SameOwnFills(s, s', pid)
  {
    forall f: Fill | f.positionId == pid
      ensures f in s.fills <==> f in s'.fills
    {
      if f in s.fills {
        var j :| 0 <= j < |s.fills| && s.fills[j] == f;
        assert s'.fills[j] == f;
      }
      if f in s'.fills {
        var j :| 0 <= j < |s'.fills| && s'.fills[j] == f;
        assert s.fills[j] == f;
      }
    }
  }

  lemma UntouchedPast(s: Books, step: Step, past: int, pid: PositionId)
    requires Safe(s) && LoneReviews(s) && step.Reconcile? && Next(s, step).Success? && ValidInput(step)
    requires step.action.BindPosition? ==> pid != step.action.target
    ensures PastLegs(After(s, step), past, pid) == PastLegs(s, past, pid)
  {
    hide PastLegs;
    hide After;
    hide Next;
    hide Lone;
    hide LoneReviews;
    StepSafe(s, step);
    DecisionTouches(s, step, pid);
    if pid == Undecided(s, step).positionId {
      LoneAddsNothing(s, past, pid);
      LoneAddsNothing(After(s, step), past, pid);
    } else {
      PastLegsStay(s, After(s, step), past, pid);
    }
  }

  /** Confirming or ignoring a review fill, however old, leaves what is realized up to any
      time as it was; binding it moves that by what it does to the legs of the target. */
  lemma DecisionMovesPast(soFar: seq<Step>, step: Step, past: int)
    requires ValidRun(soFar) && step.Reconcile? && Next(Run(EMPTY, soFar), step).Success?
    ensures var s, s' := Run(EMPTY, soFar), After(Run(EMPTY, soFar), step);
      RealizedUntil(s'.fills, s'.trades, s'.positions, past) - RealizedUntil(s.fills, s.trades, s.positions, past)
        == match step.action
           case BindPosition(target) => PastLegs(s', past, target) - PastLegs(s, past, target)
           case _ => 0.0
  {
    hide PastLegs;
    hide After;
    hide Next;
    hide RealizedUntil;
    hide Safe;
    hide LoneReviews;
    var s, s' := Run(EMPTY, soFar), After(Run(EMPTY, soFar), step);
    RunSafe(soFar);
    RunKeepsLone(soFar);
    var moved := if step.action.BindPosition? then step.action.target else Undecided(s, step).positionId;
    forall pid | step.action.BindPosition? ==> pid != moved
      ensures PastLegs(s', past, pid) == PastLegs(s, past, pid)
    {
      UntouchedPast(s, step, past, pid);
    }
    DecisionKeepsTrades(s, step);
    PastMovesAt(s, s', past, moved);
  }

  lemma DecisionKeepsTrades(s: Books, step: Step)
    requires step.Reconcile?
    ensures After(s, step).trades == s.trades
  {
    hide ApplyFill;
  }

  // ----- a bind that moves the past

  const LOOSE_SELL := RowData(1, "SPY", Sell, 5.0, 12.0, 0.0, 1, None)

  /** Two hand-opened positions of one symbol and a sell that names neither. */
  const TWO_OPEN := map[Manual("m") := MANUAL_TEN, Manual("n") := MANUAL_TEN]

  lemma LooseSellIsReviewed()
    ensures Run(EMPTY, [Create("m", MANUAL_TEN), Create("n", MANUAL_TEN), Import(LOOSE_SELL)]) == Books(
        TWO_OPEN[ReviewOf(1) := ReviewPosition(LOOSE_SELL)],
        [FillOfRow(LOOSE_SELL, ReviewOf(1), ReviewRequired)], [])
  {
    hide Round6;
    hide FillOfRow;
    var steps := [Create("m", MANUAL_TEN), Create("n", MANUAL_TEN), Import(LOOSE_SELL)];
    assert steps[..2] == [Create("m", MANUAL_TEN), Create("n", MANUAL_TEN)];
    assert steps[..2][..1] == [Create("m", MANUAL_TEN)];
    CreateOpens("m", MANUAL_TEN);
    var s := Run(EMPTY, steps[..2]);
    assert s == Books(TWO_OPEN, [], []);
    var matches := SymbolMatches(s.positions, "SPY");
    assert Manual("m") in matches && Manual("n") in matches && Manual("m") != Manual("n") by {
      assert "m"[0] != "n"[0];
    }
    assert ResolvePosition(s.positions, LOOSE_SELL).None?;
  }

  const BOUND_SELL := FillOfRow(LOOSE_SELL, ReviewOf(1), ReviewRequired).(
    positionId := Manual("m"), reconciliation := Bound, active := true)

  lemma LooseSellIsBound(s: Books)
    requires s == Books(
      TWO_OPEN[ReviewOf(1) := ReviewPosition(LOOSE_SELL)], [FillOfRow(LOOSE_SELL, ReviewOf(1), ReviewRequired)], [])
    ensures var step := Reconcile(1, BindPosition(Manual("m")));
      var s' := After(s, step);
      && Next(s, step).Success? && s'.fills == [BOUND_SELL]
      && Manual("m") in s'.positions && s'.positions[Manual("m")].entryPrice == Some(10.0)
  {
    hide Round6;
    assert FindFill(s.fills, 1) == Some(0);
    assert Upper("SPY") == "SPY";
  }

  lemma LoneSellAdds(s: Books, f: Fill, past: int, pid: PositionId)
    requires s.fills == [f] && f.positionId == pid && pid in s.positions
    requires f.active && Replayable(f) && f.executedAt <= past && f.side.Sell?
    ensures PastLegs(s, past, pid) == PnlOf(LegOf(FLAT, f, s.positions[pid]))
  {
    hide PastOrder;
    hide PastLegs;
    hide LegOf;
    hide Report;
    hide Until;
    var order := PastOrder(s, past, pid);
    PastMembers(s, past, pid);
    assert f in s.fills && order[0] in order;
    if |order| >= 2 {
      FirstTwoDiffer(order);
    }
    OneFillAdds(s, past, pid);
  }

  lemma GainOfTen(p: Position)
    requires p.entryPrice == Some(10.0)
    ensures PnlOf(LegOf(FLAT, BOUND_SELL, p)) == 10.0
  {
    assert Round6(10.0) == 10.0;
  }

  /** Bound to one of the positions after a time it was dated before, the sell books its gain
      of ten in the past. */
  lemma BindMovesThePast()
    ensures WellFormedRow(LOOSE_SELL) && SafePosition(MANUAL_TEN)
    ensures var soFar := [Create("m", MANUAL_TEN), Create("n", MANUAL_TEN), Import(LOOSE_SELL)];
      var step := Reconcile(1, BindPosition(Manual("m")));
      var s, s' := Run(EMPTY, soFar), After(Run(EMPTY, soFar), step);
      && Next(s, step).Success?
      && RealizedUntil(s'.fills, s'.trades, s'.positions, 1)
           == RealizedUntil(s.fills, s.trades, s.positions, 1) + 10.0
  {
    hide Run;
    hide RealizedUntil;
    hide PastLegs;
    hide Round6;
    var soFar := [Create("m", MANUAL_TEN), Create("n", MANUAL_TEN), Import(LOOSE_SELL)];
    var step, pid := Reconcile(1, BindPosition(Manual("m"))), Manual("m");
    LooseSellIsReviewed();
    var s := Run(EMPTY, soFar);
    LooseSellIsBound(s);
    LoneAddsNothing(s, 1, pid);
    LoneSellAdds(After(s, step), BOUND_SELL, 1, pid);
    GainOfTen(After(s, step).positions[pid]);
    DecisionMovesPast(soFar, step, 1);
  }
}
