/** The refinement of the replay on the ledger itself: a plan whose fills a run of imports
    brings in replay order. */
module StoredRun {
  import opened Records
  import opened Rounding
  import opened Wrappers
  import opened Ledger
  import opened LedgerSafety
  import opened ReplayOrder
  import opened CostReplay
  import opened RealizedPnl
  import opened StoredPosition

  /** The fills attached to a position, in the order they were stored. */
  function OwnFills(fills: seq<Fill>, pid: PositionId): seq<Fill> {
    if fills == [] then []
    else
      var f := fills[|fills| - 1];
      OwnFills(fills[..|fills| - 1], pid) + (if f.positionId == pid then [f] else [])
  }

  function Imports(rows: seq<Row>): seq<Step> {
    seq(|rows|, i requires 0 <= i < |rows| => Import(rows[i]))
  }

  lemma OwnAppend(fills: seq<Fill>, f: Fill, pid: PositionId)
    ensures OwnFills(fills + [f], pid) == OwnFills(fills, pid) + (if f.positionId == pid then [f] else [])
  {
    assert (fills + [f])[..|fills|] == fills;
  }

  /** An imported row leaves a stored position and its fills alone, or applies one fill to it. */
  lemma ImportTouches(s: Books, row: Row, pid: PositionId)
    requires pid in s.positions
    ensures var s' := After(s, Import(row));
      && pid in s'.positions
      && ((s'.positions[pid] == s.positions[pid] && OwnFills(s'.fills, pid) == OwnFills(s.fills, pid))
          || (&& !Terminal(s.positions[pid].status)
              && OwnFills(s'.fills, pid) == OwnFills(s.fills, pid) + [FillOfRow(row, pid, Matched)]
              && ApplyFill(s.positions[pid], RowOfFill(FillOfRow(row, pid, Matched), pid))
                 == Success(s'.positions[pid])))
  {
    hide OwnFills;
    hide Round6;
    hide MeanPrice;
    hide NetGain;
    var s' := After(s, Import(row));
    if s' != s {
      OwnAppend(s.fills, s'.fills[|s.fills|], pid);
    }
  }

  lemma StoredStep(plan: Position, order: seq<Fill>, f: Fill)
    requires Stored(plan, order).Success? && !Terminal(Stored(plan, order).value.status)
    ensures Stored(plan, order + [f]) == ApplyFill(Stored(plan, order).value, RowOfFill(f, f.positionId))
  {
    assert (order + [f])[..|order|] == order;
  }

  /** The position after any run of imports is the fold of the fills attached to it. */
  lemma {:induction false} ImportsFold(s: Books, rows: seq<Row>, pid: PositionId)
    requires pid in s.positions && OwnFills(s.fills, pid) == []
    ensures var s' := Run(s, Imports(rows));
      && pid in s'.positions
      && Stored(s.positions[pid], OwnFills(s'.fills, pid)) == Success(s'.positions[pid])
  {
    hide ApplyFill;
    hide After;
    hide FillOfRow;
    hide RowOfFill;
    hide OwnFills;
    var steps := Imports(rows);
    if rows != [] {
      var front := rows[..|rows| - 1];
      ImportsFold(s, front, pid);
      assert steps[..|steps| - 1] == Imports(front);
      var mid := Run(s, Imports(front));
      ImportTouches(mid, rows[|rows| - 1], pid);
      StoredStepIfAny(s.positions[pid], OwnFills(mid.fills, pid), rows[|rows| - 1], pid);
    }
  }

  lemma StoredStepIfAny(plan: Position, order: seq<Fill>, row: Row, pid: PositionId)
    requires Stored(plan, order).Success?
    ensures !Terminal(Stored(plan, order).value.status) ==>
      Stored(plan, order + [FillOfRow(row, pid, Matched)])
        == ApplyFill(Stored(plan, order).value, RowOfFill(FillOfRow(row, pid, Matched), pid))
  {
    if !Terminal(Stored(plan, order).value.status) {
      StoredStep(plan, order, FillOfRow(row, pid, Matched));
    }
  }

  lemma {:induction false} OwnMembers(fills: seq<Fill>, pid: PositionId)
    ensures forall f :: f in OwnFills(fills, pid) <==> f in fills && f.positionId == pid
  {
    if fills != [] {
      OwnMembers(fills[..|fills| - 1], pid);
      assert fills == fills[..|fills| - 1] + [fills[|fills| - 1]];
    }
  }

  lemma OwnOrderIsReplay(fills: seq<Fill>, pid: PositionId)
    requires UniqueKeys(fills) && InOrder(OwnFills(fills, pid))
    requires forall f :: f in OwnFills(fills, pid) ==> Replayable(f)
    ensures Ordered(Kept(fills, pid)) == OwnFills(fills, pid)
  {
    OwnMembers(fills, pid);
    assert Consistent(fills);
    KeptMembers(fills, pid);
    OrderIsUnique(Ordered(Kept(fills, pid)), OwnFills(fills, pid));
  }

  /** Every fill an import attaches counts in the replay. */
  lemma {:induction false} ImportedFillsReplay(s: Books, rows: seq<Row>, pid: PositionId)
    requires pid in s.positions && OwnFills(s.fills, pid) == []
    ensures forall f :: f in OwnFills(Run(s, Imports(rows)).fills, pid) ==> Replayable(f)
  {
    var steps := Imports(rows);
    if rows != [] {
      var front := rows[..|rows| - 1];
      ImportedFillsReplay(s, front, pid);
      ImportsFold(s, front, pid);
      assert steps[..|steps| - 1] == Imports(front);
      ImportTouches(Run(s, Imports(front)), rows[|rows| - 1], pid);
    }
  }

  lemma {:induction false} ImportsSafe(s: Books, rows: seq<Row>)
    requires Safe(s)
    ensures Safe(Run(s, Imports(rows)))
  {
    var steps := Imports(rows);
    if rows != [] {
      ImportsSafe(s, rows[..|rows| - 1]);
      assert steps[..|steps| - 1] == Imports(rows[..|rows| - 1]);
      ImportSafe(Run(s, Imports(rows[..|rows| - 1])), rows[|rows| - 1]);
    }
  }

  /** The stored position refines the replay on the ledger: import any rows, for whatever
      positions, on any safe ledger with a plan that has no fill yet. If its fills come in
      replay order and no buy meets shares stored at zero, the plan's row agrees with the
      replay analytics makes of the stored fills. */
  lemma LedgerRefinesReplay(s: Books, rows: seq<Row>, pid: PositionId, reported: set<nat>, live: Position)
    requires Safe(s) && pid in s.positions && s.positions[pid].status.Planned? && OwnFills(s.fills, pid) == []
    requires var order := OwnFills(Run(s, Imports(rows)).fills, pid);
      && InOrder(order) && Priced(order) && NeverForgets(s.positions[pid], order)
      && forall i :: 0 <= i < |order| && order[i].side.Sell? ==> order[i].key in reported
    ensures var s' := Run(s, Imports(rows));
      var order := Ordered(Kept(s'.fills, pid));
      && pid in s'.positions
      && (order != [] ==> Agree(s'.positions[pid], Replay(order), EntryBound(order)))
      && -PnlBound(order) <= PnlGap(s.positions[pid], s'.positions[pid], order, reported, live) <= PnlBound(order)
  {
    ImportsSafe(s, rows);
    ImportsFold(s, rows, pid);
    ImportedFillsReplay(s, rows, pid);
    OwnOrderIsReplay(Run(s, Imports(rows)).fills, pid);
    StoredRefinesReplay(s.positions[pid], OwnFills(Run(s, Imports(rows)).fills, pid), reported, live);
  }
}
