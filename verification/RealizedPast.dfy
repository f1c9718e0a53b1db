/** The realized past of a ledger that lives on: what it depends on, and which steps leave
    it alone. */
module RealizedPast {
  import opened Records
  import opened Wrappers
  import opened Totals
  import opened Ledger
  import opened ReplayOrder
  import opened CostReplay
  import opened CashConservation
  import opened RealizedPnl
  import opened Equity

  // ----- steps dated after a time leave the past of the tables alone

  /** What the step records is dated after `past`: a fill, its reconciliation, or an exit. */
  predicate RecordsAfter(s: Books, step: Step, past: int) {
    match step
    case Import(row) => row.executedAt > past
    case Reconcile(key, _) =>
      var at := FindFill(s.fills, key);
      at.Some? ==> s.fills[at.value].executedAt > past
    case Reduce(_, _, _, _, exitTs, _) => exitTs > past
    case Close(_, _, _, exitTs) => exitTs > past
    case _ => true
  }

  /** A fill under review is confirmed or ignored. */
  predicate Decides(step: Step) {
    step.Reconcile? && !step.action.BindPosition?
  }

  /** The step records nothing dated up to `past`, though it may decide an older fill. */
  predicate DatedAfter(s: Books, step: Step, past: int) {
    RecordsAfter(s, step, past) || Decides(step)
  }

  ghost predicate DatedRun(s: Books, steps: seq<Step>, past: int) {
    steps != [] ==>
      var front := steps[..|steps| - 1];
      DatedRun(s, front, past) && DatedAfter(Run(s, front), steps[|steps| - 1], past)
  }

  /** The tables' past is the same, and no position is lost. */
  ghost predicate SamePast(s: Books, s': Books, past: int) {
    && Until(s'.fills, past) == Until(s.fills, past)
    && TradesWithin(s'.trades, None, past) == TradesWithin(s.trades, None, past)
    && s.positions.Keys <= s'.positions.Keys
  }

  ghost predicate Owned(s: Books) {
    forall i :: 0 <= i < |s.fills| ==> s.fills[i].positionId in s.positions
  }

  lemma UntilAppend(fills: seq<Fill>, f: Fill, past: int)
    ensures Until(fills + [f], past) == Until(fills, past) + (if f.active && f.executedAt <= past then [f] else [])
  {
    assert (fills + [f])[..|fills|] == fills;
  }

  lemma {:induction false} UntilUpdate(fills: seq<Fill>, i: nat, g: Fill, past: int)
    requires i < |fills| && fills[i].executedAt > past && g.executedAt > past
    ensures Until(fills[i := g], past) == Until(fills, past)
  {
    var front := fills[..|fills| - 1];
    if i == |fills| - 1 {
      assert fills[i := g][..|fills| - 1] == front;
    } else {
      UntilUpdate(front, i, g, past);
      assert fills[i := g][..|fills| - 1] == front[i := g];
    }
  }

  lemma TradesAppend(trades: seq<Trade>, t: Trade, past: int)
    ensures TradesWithin(trades + [t], None, past)
         == TradesWithin(trades, None, past) + (if ExitsWithin(t, None, past) then [t] else [])
  {
    assert (trades + [t])[..|trades|] == trades;
  }

  lemma StepKeepsPast(s: Books, step: Step, past: int)
    requires RecordsAfter(s, step, past)
    ensures SamePast(s, After(s, step), past)
  {
    hide ApplyFill;
    hide Until;
    hide TradesWithin;
    var s' := After(s, step);
    if step.Import? && s' != s {
      UntilAppend(s.fills, s'.fills[|s.fills|], past);
    } else if step.Reconcile? && s' != s {
      var i := FindFill(s.fills, step.key).value;
      UntilUpdate(s.fills, i, s'.fills[i], past);
    } else if (step.Reduce? || step.Close?) && s' != s {
      TradesAppend(s.trades, s'.trades[|s.trades|], past);
    }
  }

  lemma StepKeepsOwners(s: Books, step: Step)
    requires Owned(s)
    ensures Owned(After(s, step))
  {
    hide ApplyFill;
  }

  lemma {:induction false} RunKeepsOwners(steps: seq<Step>)
    ensures Owned(Run(EMPTY, steps))
  {
    if steps != [] {
      RunKeepsOwners(steps[..|steps| - 1]);
      StepKeepsOwners(Run(EMPTY, steps[..|steps| - 1]), steps[|steps| - 1]);
    }
  }

  // ----- what the realized past depends on

  /** No sell meets an empty replay: every leg is priced by the fills themselves. */
  ghost predicate Stocked(order: seq<Fill>) {
    order != [] ==>
      var before := order[..|order| - 1];
      Stocked(before) && (order[|order| - 1].side.Sell? ==> Replay(before).quantity > 0.0)
  }

  lemma {:induction false} StockedLegsSum(order: seq<Fill>, reported: set<nat>, p: Position, p': Position)
    requires Stocked(order) || p.entryPrice == p'.entryPrice
    ensures SumPnl(LegsOf(order, reported, p)) == SumPnl(LegsOf(order, reported, p'))
  {
    if order != [] {
      var before, f := order[..|order| - 1], order[|order| - 1];
      StockedLegsSum(before, reported, p, p');
      LegsAfter(order, reported, p);
      LegsAfter(order, reported, p');
    }
  }

  /** The fills of a position up to a time, in replay order. */
  ghost function PastOrder(s: Books, past: int, pid: PositionId): seq<Fill> {
    Ordered(Kept(Until(s.fills, past) + Report(s.fills, None, past), pid))
  }

  /** The position's realized past is settled by its fills, or its entry price has not moved. */
  ghost predicate Settled(s: Books, s': Books, past: int, pid: PositionId) {
    pid in s.positions && pid in s'.positions ==>
      Stocked(PastOrder(s, past, pid)) || s'.positions[pid].entryPrice == s.positions[pid].entryPrice
  }

  lemma SameReport(s: Books, s': Books, past: int)
    requires Until(s'.fills, past) == Until(s.fills, past)
    ensures Report(s'.fills, None, past) == Report(s.fills, None, past)
  {
  }

  /** Fills of unknown positions do not exist. */
  lemma StrangersHaveNoLegs(s: Books, past: int, pid: PositionId, p: Position)
    requires Owned(s) && pid !in s.positions
    ensures PositionLegs(Report(s.fills, None, past), Until(s.fills, past), pid, p) == []
  {
    var all := Until(s.fills, past) + Report(s.fills, None, past);
    UntilMembers(s.fills, past);
    FromMembers(Until(s.fills, past), None);
    NoneKept(all, pid);
    NoFillsNoLegs(Report(s.fills, None, past), Until(s.fills, past), pid, p);
  }

  lemma {:induction false} NoneKept(fills: seq<Fill>, pid: PositionId)
    requires forall f :: f in fills ==> f.positionId != pid
    ensures Kept(fills, pid) == map[]
  {
    if fills != [] {
      assert fills[|fills| - 1] in fills;
      NoneKept(fills[..|fills| - 1], pid);
    }
  }

  lemma KeySumStays(s: Books, s': Books, past: int, key: EventKey)
    requires Owned(s) && SamePast(s, s', past)
    requires key.OfPosition? ==> Settled(s, s', past, key.position)
    ensures SumPnl(FillLegs(Report(s'.fills, None, past), Until(s'.fills, past), s'.positions, key))
         == SumPnl(FillLegs(Report(s.fills, None, past), Until(s.fills, past), s.positions, key))
  {
    hide LegsOf;
    hide Stocked;
    hide Until;
    SameReport(s, s', past);
    if key.OfPosition? && key.position in s'.positions {
      var pid := key.position;
      if pid in s.positions {
        StockedLegsSum(PastOrder(s, past, pid), ReportedSells(Report(s.fills, None, past)),
                       s.positions[pid], s'.positions[pid]);
      } else {
        StrangersHaveNoLegs(s, past, pid, s'.positions[pid]);
      }
    }
  }

  /** The event PnL realized up to a time, by key. */
  ghost function PastPnl(s: Books, past: int): map<EventKey, real> {
    var journal := TradesWithin(s.trades, None, past);
    PnlByKey(LegsByKey(Report(s.fills, None, past), Until(s.fills, past), journal, s.positions))
  }

  lemma PastPnlStays(s: Books, s': Books, past: int, key: EventKey)
    requires Owned(s) && SamePast(s, s', past)
    requires key.OfPosition? ==> Settled(s, s', past, key.position)
    ensures At(PastPnl(s', past), key) == At(PastPnl(s, past), key)
  {
    hide FillLegs;
    hide JournalLegs;
    hide LegsByKey;
    hide PnlByKey;
    hide Settled;
    hide Owned;
    SameReport(s, s', past);
    var report, basis, journal := Report(s.fills, None, past), Until(s.fills, past), TradesWithin(s.trades, None, past);
    EventIsSumOfLegs(report, basis, journal, s.positions, key);
    EventIsSumOfLegs(report, basis, journal, s'.positions, key);
    KeySumStays(s, s', past, key);
  }

  /** The realized past stays what it was. */
  lemma RealizedPastStays(s: Books, s': Books, past: int)
    requires Owned(s) && SamePast(s, s', past) && forall pid :: Settled(s, s', past, pid)
    ensures RealizedUntil(s'.fills, s'.trades, s'.positions, past)
         == RealizedUntil(s.fills, s.trades, s.positions, past)
  {
    hide Settled;
    hide Owned;
    hide SamePast;
    hide PastPnl;
    var none: map<EventKey, real> := map[];
    forall key
      ensures At(PastPnl(s', past), key) == At(PastPnl(s, past), key) + At(none, key)
    {
      PastPnlStays(s, s', past, key);
    }
    TotalAdds(PastPnl(s', past), PastPnl(s, past), none);
    RealizedIsTotal(s, past);
    RealizedIsTotal(s', past);
  }

  lemma RealizedIsTotal(s: Books, past: int)
    ensures RealizedUntil(s.fills, s.trades, s.positions, past) == Total(PastPnl(s, past))
  {
  }
}
