/** The quantity analytics shows for a time already past, on the ledger as it has grown since,
    against the quantity the ledger stored at that time. */
module PastQuantity {
  import opened Records
  import opened Rounding
  import opened Wrappers
  import opened Ledger
  import opened LedgerSafety
  import opened LedgerAccounts
  import opened ImportProtocol
  import opened RealizedPnl
  import opened OpenPositions
  import opened RealizedPast
  import opened LateDecisions

  // ----- the position's fills up to the time

  /** The position's fills up to a time sum to the same, and are there or not. */
  ghost predicate SamePastFills(s: Books, s': Books, past: int, pid: PositionId) {
    && (HasActiveFill(Until(s'.fills, past), pid) <==> HasActiveFill(Until(s.fills, past), pid))
    && Held(Until(s'.fills, past), pid) == Held(Until(s.fills, past), pid)
  }

  /** Rewriting a fill of others changes nothing for the position. */
  lemma {:induction false} OthersRewritten(fills: seq<Fill>, i: nat, g: Fill, past: int, pid: PositionId)
    requires i < |fills| && fills[i].positionId != pid && g.positionId != pid
    ensures HasActiveFill(Until(fills[i := g], past), pid) <==> HasActiveFill(Until(fills, past), pid)
    ensures Held(Until(fills[i := g], past), pid) == Held(Until(fills, past), pid)
  {
    hide Held;
    hide HasActiveFill;
    hide Until;
    var n := |fills| - 1;
    var front, last, rewritten := fills[..n], fills[n], fills[i := g];
    assert fills == front + [last] && rewritten == rewritten[..n] + [rewritten[n]];
    if i < n {
      OthersRewritten(front, i, g, past, pid);
      assert rewritten[..n] == front[i := g];
    } else {
      assert rewritten[..n] == front;
    }
    UntilStep(front, last, past, pid);
    UntilStep(rewritten[..n], rewritten[n], past, pid);
  }

  lemma UntilStep(front: seq<Fill>, f: Fill, past: int, pid: PositionId)
    ensures var counts := f.active && f.executedAt <= past;
      && Held(Until(front + [f], past), pid)
           == Held(Until(front, past), pid) + (if counts then Signed(f, pid) else 0.0)
      && (HasActiveFill(Until(front + [f], past), pid) <==>
            || HasActiveFill(Until(front, past), pid)
            || (counts && f.positionId == pid && !f.reconciliation.Ignored?))
  {
    hide Held;
    hide Until;
    UntilAppend(front, f, past);
    assert Until(front, past) + [] == Until(front, past);
    HeldAppend(Until(front, past), f, pid);
    ActiveAppend(Until(front, past), f, pid);
  }

  /** A step that moves no past leaves the fills of a position that is not under review. */
  lemma StepKeepsPastFills(s: Books, step: Step, past: int, pid: PositionId)
    requires DatedAfter(s, step, past) && pid in s.positions && !UnderReview(s, pid)
    ensures SamePastFills(s, After(s, step), past, pid)
  {
    hide Held;
    hide HasActiveFill;
    hide Until;
    hide ApplyFill;
    if RecordsAfter(s, step, past) {
      hide After;
      StepKeepsPast(s, step, past);
    } else if Next(s, step).Success? {
      var i := FindFill(s.fills, step.key).value;
      OthersRewritten(s.fills, i, After(s, step).fills[i], past, pid);
    }
  }

  lemma StaysDecided(s: Books, step: Step, pid: PositionId)
    requires Owned(s) && ValidInput(step) && pid in s.positions && !UnderReview(s, pid)
    ensures !UnderReview(After(s, step), pid)
  {
    if UnderReview(After(s, step), pid) {
      if step.Import? && After(s, step) != s && ResolvePosition(s.positions, step.row).None? {
        OpensItsOwn(s, step.row, pid);
      } else {
        StepLeavesReview(s, step, pid);
      }
    }
  }

  lemma OpensItsOwn(s: Books, row: Row, pid: PositionId)
    requires After(s, Import(row)) != s && ResolvePosition(s.positions, row).None? && pid in s.positions
    ensures After(s, Import(row)).positions[pid] == s.positions[pid]
  {
  }

  // ----- its journal

  /** Since the ledger s the position's journal has gained rows that all ran at the time. */
  ghost predicate JournalGrows(s: Books, s': Books, past: int, pid: PositionId) {
    var exits := Exited(s'.trades, pid) - Exited(s.trades, pid);
    && ExitedBy(s'.trades, pid, past) == ExitedBy(s.trades, pid, past)
    && RunningQuantity(s'.trades, pid, past) == exits >= 0.0
    && (HasRunning(s'.trades, pid, past) <==> exits > 0.0)
  }

  lemma {:induction false} NothingRuns(trades: seq<Trade>, past: int, pid: PositionId)
    requires forall i :: 0 <= i < |trades| ==> trades[i].exitTs.Some? && trades[i].exitTs.value <= past
    ensures RunningQuantity(trades, pid, past) == 0.0 && !HasRunning(trades, pid, past)
  {
    ExitedByNow(trades, past, pid);
    if trades != [] {
      NothingRuns(trades[..|trades| - 1], past, pid);
    }
  }

  lemma RunningAppend(trades: seq<Trade>, t: Trade, past: int, pid: PositionId)
    ensures ExitedBy(trades + [t], pid, past) == ExitedBy(trades, pid, past)
              + (if t.exitTs.Some? && t.exitTs.value <= past then Of(t, pid, t.quantity) else 0.0)
    ensures RunningQuantity(trades + [t], pid, past)
         == RunningQuantity(trades, pid, past) + (if Running(t, pid, past) then t.quantity.value else 0.0)
    ensures HasRunning(trades + [t], pid, past) <==> HasRunning(trades, pid, past) || Running(t, pid, past)
  {
    var all, n := trades + [t], |trades|;
    assert all[..n] == trades && all[..n + 1] == all && all[n] == t;
    RunningStep(all, n, pid, past);
    ExitedByStep(all, n, pid, past);
  }

  /** A later exit from the position was entered before and has a quantity. */
  lemma ExitRan(s: Books, step: Step, past: int, pid: PositionId)
    requires Safe(s) && ValidInput(step) && DatedAfter(s, step, past)
    requires pid in s.positions && s.positions[pid].entryDate.Some? && s.positions[pid].entryDate.value <= past
    requires After(s, step).trades != s.trades
    ensures var s' := After(s, step);
      && |s'.trades| == |s.trades| + 1 && s'.trades == s.trades + [s'.trades[|s.trades|]]
      && var t := s'.trades[|s.trades|];
         && t.exitTs.Some? && t.exitTs.value > past
         && (t.positionId == Some(pid) ==> Running(t, pid, past) && t.quantity.value > 0.0)
  {
    hide ApplyFill;
    assert SafePosition(s.positions[pid]);
  }

  lemma StepGrowsJournal(s: Books, now: Books, step: Step, past: int, pid: PositionId)
    requires Safe(now) && ValidInput(step) && DatedAfter(now, step, past) && JournalGrows(s, now, past, pid)
    requires pid in now.positions && now.positions[pid].entryDate.Some?
    requires now.positions[pid].entryDate.value <= past
    ensures JournalGrows(s, After(now, step), past, pid)
  {
    hide After;
    hide Exited;
    hide ExitedBy;
    hide RunningQuantity;
    hide HasRunning;
    var now' := After(now, step);
    if now'.trades != now.trades {
      ExitRan(now, step, past, pid);
      var t := now'.trades[|now.trades|];
      RunningAppend(now.trades, t, past, pid);
      TradeAppend(now.trades, t, pid);
    }
  }

  // ----- nothing is opened by hand on an existing position

  lemma NothingOpened(s: Books, step: Step, pid: PositionId)
    requires pid in s.positions && !s.positions[pid].status.Planned?
    ensures Opened(s, step, pid) == 0.0
  {
  }

  // ----- along the run

  /** What holds of a position's row and journal once the run has gone on. */
  ghost predicate Aged(s: Books, s': Books, past: int, pid: PositionId) {
    && pid in s.positions && pid in s'.positions
    && !s'.positions[pid].status.Planned? && !s'.positions[pid].status.ReviewNeeded?
    && s'.positions[pid].entryDate.Some? && s'.positions[pid].entryDate.value <= past
    && SamePastFills(s, s', past, pid)
    && JournalGrows(s, s', past, pid)
    && Unexplained(s', pid) == Unexplained(s, pid)
  }

  lemma StepAges(s: Books, now: Books, step: Step, past: int, pid: PositionId)
    requires Safe(now) && Tied(now) && Owned(now) && ValidInput(step) && Admissible(now, step)
    requires DatedAfter(now, step, past) && Aged(s, now, past, pid)
    ensures Aged(s, After(now, step), past, pid)
  {
    hide After;
    hide JournalGrows;
    hide Unexplained;
    hide HasActiveFill;
    hide Held;
    hide Until;
    hide DatedAfter;
    hide Admissible;
    hide Tied;
    hide Owned;
    StepKeepsOrigin(now, step, pid);
    StaysDecided(now, step, pid);
    StepKeepsPastFills(now, step, past, pid);
    StepGrowsJournal(s, now, step, past, pid);
    StepAccounts(now, step, pid);
    NothingOpened(now, step, pid);
  }

  lemma AdmissibleParts(steps: seq<Step>, step: Step)
    requires AdmissibleRun(steps + [step])
    ensures AdmissibleRun(steps) && ValidInput(step) && Admissible(Run(EMPTY, steps), step)
  {
    hide Run;
    var all := steps + [step];
    assert all[|steps|] == step && all[..|steps|] == steps;
    forall i | 0 <= i < |steps|
      ensures ValidInput(steps[i]) && Admissible(Run(EMPTY, steps[..i]), steps[i])
    {
      assert all[i] == steps[i] && all[..i] == steps[..i];
    }
  }

  lemma AgedAtFirst(soFar: seq<Step>, past: int, pid: PositionId)
    requires AllPast(Run(EMPTY, soFar), past) && Live(Run(EMPTY, soFar), pid)
    requires Run(EMPTY, soFar).positions[pid].entryDate.Some?
    ensures Aged(Run(EMPTY, soFar), Run(EMPTY, soFar), past, pid)
  {
    hide Run;
    hide Held;
    hide HasActiveFill;
    hide Unexplained;
    var s := Run(EMPTY, soFar);
    assert Started(s.positions[pid], past);
    NothingRuns(s.trades, past, pid);
  }

  lemma {:induction false} RunAges(soFar: seq<Step>, later: seq<Step>, past: int, pid: PositionId)
    requires AdmissibleRun(soFar + later) && DatedRun(Run(EMPTY, soFar), later, past)
    requires AllPast(Run(EMPTY, soFar), past) && Live(Run(EMPTY, soFar), pid)
    requires Run(EMPTY, soFar).positions[pid].entryDate.Some?
    ensures AdmissibleRun(soFar) && Aged(Run(EMPTY, soFar), Run(EMPTY, soFar + later), past, pid)
  {
    hide Run;
    hide Aged;
    hide AllPast;
    hide Live;
    hide DatedAfter;
    hide AdmissibleRun;
    hide Safe;
    hide Tied;
    if later == [] {
      assert soFar + later == soFar;
      AgedAtFirst(soFar, past, pid);
    } else {
      var front, step := later[..|later| - 1], later[|later| - 1];
      var before := soFar + front;
      assert soFar + later == before + [step];
      AdmissibleParts(before, step);
      RunAges(soFar, front, past, pid);
      AdmissibleIsValid(before);
      RunSafe(before);
      RunKeepsOwners(before);
      QuantityIsConserved(before, pid);
      RunJoins(EMPTY, soFar, front);
      RunAppend(EMPTY, before, step);
      StepAges(Run(EMPTY, soFar), Run(EMPTY, before), step, past, pid);
    }
  }

  // ----- the exact condition

  /** What later exits took from the position. */
  function LaterExits(s: Books, s': Books, pid: PositionId): real {
    Exited(s'.trades, pid) - Exited(s.trades, pid)
  }

  /** What later fills added to it. */
  function LaterFills(s: Books, s': Books, pid: PositionId): real {
    Held(s'.fills, pid) - Held(s.fills, pid)
  }

  lemma AgedQuantity(s: Books, s': Books, past: int, pid: PositionId)
    requires Safe(s) && Safe(s') && AllPast(s, past) && Live(s, pid) && Aged(s, s', past, pid)
    ensures QuantityAsOf(s', pid, past) == Some(StoredQuantity(s, pid)) <==>
      if HasActiveFill(Until(s.fills, past), pid) then Unexplained(s, pid) == 0.0
      else || LaterExits(s, s', pid) == StoredQuantity(s, pid)
           || (LaterExits(s, s', pid) == 0.0 && LaterFills(s, s', pid) == 0.0)
  {
    hide Held;
    hide HasActiveFill;
    hide Exited;
    hide ExitedBy;
    hide HasRunning;
    hide RunningQuantity;
    hide Until;
    QuantityAsOfNow(s, pid, past);
    assert SafePosition(s.positions[pid]) && SafePosition(s'.positions[pid]);
  }

  /** The exact condition for a time already past. The ledger has grown since by steps dated
      later. For a position that was open then, analytics still shows the quantity stored then
      if and only if, where fills had reached it, nothing had been put on it by hand; and
      where none had, it has been exited in full or not been touched. */
  lemma PastQuantityExactly(soFar: seq<Step>, later: seq<Step>, past: int, pid: PositionId)
    requires AdmissibleRun(soFar + later) && DatedRun(Run(EMPTY, soFar), later, past)
    requires AllPast(Run(EMPTY, soFar), past) && Live(Run(EMPTY, soFar), pid)
    requires Run(EMPTY, soFar).positions[pid].entryDate.Some?
    ensures var s, s' := Run(EMPTY, soFar), Run(EMPTY, soFar + later);
      && pid in s'.positions
      && (QuantityAsOf(s', pid, past) == Some(StoredQuantity(s, pid)) <==>
            if HasActiveFill(Until(s.fills, past), pid) then Baseline(soFar, pid) == 0.0
            else || LaterExits(s, s', pid) == StoredQuantity(s, pid)
                 || (LaterExits(s, s', pid) == 0.0 && LaterFills(s, s', pid) == 0.0))
  {
    RunAges(soFar, later, past, pid);
    AdmissibleIsValid(soFar);
    AdmissibleIsValid(soFar + later);
    RunSafe(soFar);
    RunSafe(soFar + later);
    QuantityIsConserved(soFar, pid);
    AgedQuantity(Run(EMPTY, soFar), Run(EMPTY, soFar + later), past, pid);
    hide *;
    assert pid in Run(EMPTY, soFar + later).positions;
  }

  const TRIM_FOUR := Reduce(Manual("m"), 12.0, Some(4.0), None, 2, 0)

  /** A trim hides what it left: of ten shares opened by hand, four sold at time 2, analytics
      shows four at time 1. */
  lemma TrimHidesThePast()
    ensures SafePosition(MANUAL_TEN) && DatedRun(Run(EMPTY, [Create("m", MANUAL_TEN)]), [TRIM_FOUR], 1)
    ensures var s, s' := Run(EMPTY, [Create("m", MANUAL_TEN)]), Run(EMPTY, [Create("m", MANUAL_TEN), TRIM_FOUR]);
      var pid := Manual("m");
      && StoredQuantity(s, pid) == 10.0 && StoredQuantity(s', pid) == 6.0
      && pid in s'.positions && QuantityAsOf(s', pid, 1) == Some(4.0)
  {
    CreateOpens("m", MANUAL_TEN);
    var steps := [Create("m", MANUAL_TEN), TRIM_FOUR];
    assert steps[..1] == [Create("m", MANUAL_TEN)];
    assert Round6(6.0) == 6.0;
    var s, s' := Run(EMPTY, steps[..1]), Run(EMPTY, steps);
    var t := ExitTrade(TrimOf(Manual("m"), 0), Manual("m"), MANUAL_TEN, 12.0, 4.0, 2);
    assert s'.trades == [t] && s'.fills == [];
    hide *;
    RunningAppend([], t, 1, Manual("m"));
  }
}
