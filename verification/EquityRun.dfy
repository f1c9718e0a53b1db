/** Incremental equity while the ledger lives on: a snapshot is taken, and the run goes on. */
module EquityRun {
  import opened Records
  import opened Rounding
  import opened Wrappers
  import opened Totals
  import opened Ledger
  import opened LedgerSafety
  import opened ImportProtocol
  import opened ReplayOrder
  import opened RealizedPnl
  import opened OpenPositions
  import opened Equity
  import opened RealizedPast
  import opened LateDecisions

  /** What is realized up to `past` cannot be repriced: every position is finished, or none of
      its sells met an empty replay. */
  ghost predicate PastIsClosed(s: Books, past: int) {
    forall pid :: pid in s.positions ==> Terminal(s.positions[pid].status) || Stocked(PastOrder(s, past, pid))
  }

  /** Continuing from a snapshot taken after the run so far gives the equity of a full
      computation on the ledger the run has grown to. */
  ghost predicate Continues(
    soFar: seq<Step>, later: seq<Step>, accountEquity: Option<real>, past: int, now: int,
    closesThen: map<string, real>, closesNow: map<string, real>)
  {
    var s, s' := Run(EMPTY, soFar), Run(EMPTY, soFar + later);
    var unrealizedThen, unrealizedNow := UnrealizedAsOf(s, past, closesThen), UnrealizedAsOf(s', now, closesNow);
    var snapshot := Snapshot(past, LedgerEquity(s, accountEquity, past, closesThen), unrealizedThen);
    FromSnapshot(snapshot, s'.fills, s'.trades, s'.positions, now, unrealizedNow)
      == LedgerEquity(s', accountEquity, now, closesNow)
  }

  // ----- a closed past stays closed, and what it realized stays

  lemma FinishedStaySettled(s: Books, step: Step, past: int)
    requires PastIsClosed(s, past)
    ensures forall pid :: Settled(s, After(s, step), past, pid)
  {
    hide Stocked;
    hide After;
    forall pid | pid in s.positions && Terminal(s.positions[pid].status)
      ensures pid in After(s, step).positions && After(s, step).positions[pid] == s.positions[pid]
    {
      StepFreezesTerminal(s, step, pid);
    }
  }

  lemma StrangersAreStocked(s: Books, past: int, pid: PositionId)
    requires UniqueKeys(s.fills) && Owned(s) && pid !in s.positions
    ensures Stocked(PastOrder(s, past, pid))
  {
    PastMembers(s, past, pid);
    NoneKept(Until(s.fills, past) + Report(s.fills, None, past), pid);
    OrderIsUnique(PastOrder(s, past, pid), []);
  }

  lemma RecordingKeepsClosed(s: Books, step: Step, past: int)
    requires Safe(s) && Owned(s) && PastIsClosed(s, past) && RecordsAfter(s, step, past)
    ensures PastIsClosed(After(s, step), past)
    ensures RealizedUntil(After(s, step).fills, After(s, step).trades, After(s, step).positions, past)
         == RealizedUntil(s.fills, s.trades, s.positions, past)
  {
    hide After;
    hide Stocked;
    hide RealizedUntil;
    hide Safe;
    var s' := After(s, step);
    StepKeepsPast(s, step, past);
    FinishedStaySettled(s, step, past);
    RealizedPastStays(s, s', past);
    SameReport(s, s', past);
    forall pid | pid in s'.positions
      ensures Terminal(s'.positions[pid].status) || Stocked(PastOrder(s', past, pid))
    {
      if pid !in s.positions {
        SafeIsUnique(s);
        StrangersAreStocked(s, past, pid);
      } else if Terminal(s.positions[pid].status) {
        StepFreezesTerminal(s, step, pid);
      }
    }
  }

  lemma SafeIsUnique(s: Books)
    requires Safe(s)
    ensures UniqueKeys(s.fills)
  {
  }

  lemma LoneBuyIsStocked(s: Books, past: int, pid: PositionId)
    requires UniqueKeys(s.fills) && Lone(s, pid)
    requires pid in s.positions && s.positions[pid].entryPrice.Some?
    ensures Stocked(PastOrder(s, past, pid))
  {
    PastMembers(s, past, pid);
    LoneOrder(s, past, pid);
    var order := PastOrder(s, past, pid);
    if order != [] {
      assert order[0] in order;
      var i :| 0 <= i < |s.fills| && s.fills[i] == order[0];
      assert Stocked(order[..0]);
    }
  }

  /** The position of a decided fill ends cancelled, or open with an entry price. */
  lemma DecidedEnds(s: Books, step: Step)
    requires Decides(step) && Next(s, step).Success?
    ensures var review, s' := Undecided(s, step).positionId, After(s, step);
      && review in s'.positions
      && (Terminal(s'.positions[review].status) || s'.positions[review].entryPrice.Some?)
  {
    hide ApplyFill;
  }

  lemma DecisionKeepsClosed(s: Books, step: Step, past: int)
    requires Safe(s) && LoneReviews(s) && PastIsClosed(s, past)
    requires Decides(step) && Next(s, step).Success? && ValidInput(step)
    ensures PastIsClosed(After(s, step), past)
  {
    hide After;
    hide Next;
    hide Stocked;
    hide Lone;
    hide LoneReviews;
    var s' := After(s, step);
    StepSafe(s, step);
    DecidedEnds(s, step);
    forall pid | pid in s'.positions
      ensures Terminal(s'.positions[pid].status) || Stocked(PastOrder(s', past, pid))
    {
      DecisionTouches(s, step, pid);
      if pid == Undecided(s, step).positionId {
        if !Terminal(s'.positions[pid].status) {
          LoneBuyIsStocked(s', past, pid);
        }
      } else if Terminal(s.positions[pid].status) {
        StepFreezesTerminal(s, step, pid);
      } else {
        OrderStays(s, s', past, pid);
      }
    }
  }

  lemma StepKeepsClosed(soFar: seq<Step>, step: Step, past: int)
    requires ValidRun(soFar) && ValidInput(step)
    requires DatedAfter(Run(EMPTY, soFar), step, past) && PastIsClosed(Run(EMPTY, soFar), past)
    ensures var s, s' := Run(EMPTY, soFar), After(Run(EMPTY, soFar), step);
      && PastIsClosed(s', past)
      && RealizedUntil(s'.fills, s'.trades, s'.positions, past) == RealizedUntil(s.fills, s.trades, s.positions, past)
  {
    hide RealizedUntil;
    hide PastIsClosed;
    hide Safe;
    hide LoneReviews;
    hide Next;
    hide Run;
    var s := Run(EMPTY, soFar);
    RunSafe(soFar);
    RunKeepsOwners(soFar);
    RunKeepsLone(soFar);
    if RecordsAfter(s, step, past) {
      RecordingKeepsClosed(s, step, past);
    } else if Next(s, step).Success? {
      DecisionKeepsClosed(s, step, past);
      DecisionMovesPast(soFar, step, past);
    }
  }

  lemma {:induction false} RunKeepsClosed(soFar: seq<Step>, later: seq<Step>, past: int)
    requires ValidRun(soFar + later)
    requires DatedRun(Run(EMPTY, soFar), later, past) && PastIsClosed(Run(EMPTY, soFar), past)
    ensures var s, s' := Run(EMPTY, soFar), Run(EMPTY, soFar + later);
      && PastIsClosed(s', past)
      && RealizedUntil(s'.fills, s'.trades, s'.positions, past) == RealizedUntil(s.fills, s.trades, s.positions, past)
  {
    hide RealizedUntil;
    hide PastIsClosed;
    hide DatedAfter;
    hide Run;
    if later == [] {
      assert soFar + later == soFar;
    } else {
      var front, step := later[..|later| - 1], later[|later| - 1];
      var before := soFar + front;
      assert soFar + later == before + [step];
      assert ValidRun(before) && ValidInput(step) by {
        ValidParts(before, step);
      }
      RunKeepsClosed(soFar, front, past);
      RunJoins(EMPTY, soFar, front);
      RunAppend(EMPTY, before, step);
      StepKeepsClosed(before, step, past);
    }
  }

  lemma ValidParts(steps: seq<Step>, step: Step)
    requires ValidRun(steps + [step])
    ensures ValidRun(steps) && ValidInput(step)
  {
    var all := steps + [step];
    assert all[|steps|] == step;
    assert forall i :: 0 <= i < |steps| ==> all[i] == steps[i];
  }

  // ----- the theorem

  /** Incremental equity on a living ledger: take a snapshot at `past` and let the run go on
      with steps that record nothing dated up to `past`, though they may confirm or ignore
      older fills. */
  lemma EquityContinues(
    soFar: seq<Step>, later: seq<Step>, accountEquity: Option<real>, past: int, now: int,
    closesThen: map<string, real>, closesNow: map<string, real>)
    requires ValidRun(soFar + later) && past <= now && OnGrid(OrElse(accountEquity, DEFAULT_ACCOUNT_EQUITY))
    requires DatedRun(Run(EMPTY, soFar), later, past) && PastIsClosed(Run(EMPTY, soFar), past)
    ensures Continues(soFar, later, accountEquity, past, now, closesThen, closesNow)
  {
    hide RealizedUntil;
    hide RealizedAfter;
    hide OpenAsOf;
    hide PastIsClosed;
    hide DatedRun;
    hide Run;
    var s, s' := Run(EMPTY, soFar), Run(EMPTY, soFar + later);
    RunKeepsClosed(soFar, later, past);
    RunSafe(soFar + later);
    UniqueIsConsistent(s'.fills);
    Round6OnGrid(Total(MarkedGains(s, OpenAsOf(s, past), closesThen)));
    Round6OnGrid(Total(MarkedGains(s', OpenAsOf(s', now), closesNow)));
    SnapshotEqualsScratch(accountEquity, s'.fills, s'.trades, s'.positions, past, now,
      UnrealizedAsOf(s, past, closesThen), UnrealizedAsOf(s', now, closesNow));
  }
}
