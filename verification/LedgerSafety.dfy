/** What every run of ledger steps keeps: sound positions, unique keys, frozen decisions. */
module LedgerSafety {
  import opened Records
  import opened Rounding
  import opened Wrappers
  import opened Ledger

  predicate Terminal(status: PositionStatus) {
    status.Closed? || status.Cancelled?
  }

  predicate SafePosition(p: Position) {
    && (p.quantity.Some? ==> p.quantity.value >= 0.0 && OnGrid(p.quantity.value))
    && (p.status.Open? || p.status.Reduced? ==> p.entryPrice.Some? && p.quantity.Some? && p.quantity.value > 0.0)
    && (p.status.ReviewNeeded? ==> p.quantity.Some? && p.quantity.value > 0.0)
    && (Terminal(p.status) ==> p.quantity == Some(0.0))
    && (p.realizedPnl.Some? ==> OnGrid(p.realizedPnl.value))
  }

  predicate SafeFill(f: Fill) {
    && f.quantity > 0.0 && OnGrid(f.quantity) && f.price > 0.0
    && (f.active <==> !f.reconciliation.Ignored?)
  }

  ghost predicate UniqueKeys(fills: seq<Fill>) {
    forall i, j :: 0 <= i < j < |fills| ==> fills[i].key != fills[j].key
  }

  ghost predicate Safe(s: Books) {
    && (forall pid :: pid in s.positions ==> SafePosition(s.positions[pid]))
    && (forall i :: 0 <= i < |s.fills| ==> SafeFill(s.fills[i]))
    && UniqueKeys(s.fills)
  }

  predicate SizedRight(quantity: Option<real>) {
    quantity.Some? ==> quantity.value > 0.0 && OnGrid(quantity.value)
  }

  /** What request validation leaves through, with quantities in the stored unit; a
      hand-made position starts sound and is not awaiting review. */
  predicate ValidInput(step: Step) {
    match step
    case Plan(r) => SizedRight(r.quantity)
    case Create(_, p) => SafePosition(p) && !p.status.ReviewNeeded?
    case Activate(_, _, quantity, _) => SizedRight(quantity)
    case Reduce(_, _, quantity, _, _, _) => SizedRight(quantity)
    case _ => true
  }

  ghost predicate ValidRun(steps: seq<Step>) {
    forall i :: 0 <= i < |steps| ==> ValidInput(steps[i])
  }

  // ----- one step keeps the ledger safe

  /** A buy adds its quantity exactly and leaves realized PnL alone. */
  lemma BuySafe(p: Position, row: RowData)
    requires SafePosition(p) && WellFormedRow(row) && row.side.Buy?
    requires ApplyFill(p, row).Success?
    ensures var p' := ApplyFill(p, row).value;
      && SafePosition(p') && p'.status.Open? && p'.realizedPnl == p.realizedPnl
      && p'.quantity == Some((if p.status.Planned? then 0.0 else p.quantity.GetOr(0.0)) + row.quantity)
  {
    var held := if p.status.Planned? then 0.0 else p.quantity.GetOr(0.0);
    GridAdd(held, row.quantity);
    Round6Identity(held + row.quantity);
  }

  /** A sell takes its quantity away exactly and books exactly its own realized PnL. */
  lemma SellSafe(p: Position, row: RowData)
    requires SafePosition(p) && WellFormedRow(row) && row.side.Sell?
    requires ApplyFill(p, row).Success?
    ensures p.entryPrice.Some? && p.quantity.Some?
    ensures var p' := ApplyFill(p, row).value;
      && SafePosition(p')
      && p'.quantity == Some(p.quantity.value - row.quantity)
      && p'.status == (if p.quantity.value == row.quantity then Closed else Reduced)
      && p'.realizedPnl == Some(p.realizedPnl.GetOr(0.0) + SellPnl(p.entryPrice.value, row))
  {
    GridSubExact(p.quantity.value, row.quantity);
    GridAddRounded(p.realizedPnl.GetOr(0.0), NetGain(p.entryPrice.value, row.price, row.quantity, row.fees));
  }

  lemma ApplyFillSafe(p: Position, row: RowData)
    requires SafePosition(p) && WellFormedRow(row) && ApplyFill(p, row).Success?
    ensures SafePosition(ApplyFill(p, row).value)
  {
    if row.side.Buy? {
      BuySafe(p, row);
    } else {
      SellSafe(p, row);
    }
  }

  /** On a safe ledger the weighted average never divides by zero. */
  lemma NeverDividesByZero(p: Position, row: RowData)
    requires SafePosition(p) && WellFormedRow(row)
    ensures ApplyFill(p, row) != Failure(DivisionByZero)
  {
    if row.side.Buy? {
      var held := if p.status.Planned? then 0.0 else p.quantity.GetOr(0.0);
      GridAdd(held, row.quantity);
      Round6Identity(held + row.quantity);
    }
  }

  lemma ImportSafe(s: Books, row: Row)
    requires Safe(s)
    ensures Safe(After(s, Import(row)))
  {
    if !HasFill(s.fills, row.key) && InsertRow(s, row).Inserted? {
      var target := ResolvePosition(s.positions, row);
      if target.Some? {
        ApplyFillSafe(s.positions[target.value], row);
      }
    }
  }

  lemma BindSafe(s: Books, i: nat, target: PositionId)
    requires Safe(s) && i < |s.fills| && s.fills[i].positionId in s.positions && s.fills[i].active
    requires BindReview(s, i, target).Success?
    ensures Safe(BindReview(s, i, target).value)
  {
    ApplyFillSafe(s.positions[target], RowOfFill(s.fills[i], target));
  }

  lemma ReconcileSafe(s: Books, key: nat, action: Action)
    requires Safe(s)
    ensures Safe(After(s, Reconcile(key, action)))
  {
    if ReconcileFill(s, key, action).Success? && action.BindPosition? {
      BindSafe(s, FindFill(s.fills, key).value, action.target);
    }
  }

  lemma ExitSafe(p: Position, exitPrice: real, quantity: real)
    requires SafePosition(p) && p.entryPrice.Some? && p.quantity.Some? && OnGrid(quantity)
    ensures OnGrid(p.quantity.value - quantity)
    ensures Round6(p.quantity.value - quantity) == p.quantity.value - quantity
    ensures var realized := p.realizedPnl.GetOr(0.0) + PositionPnl(p.entryPrice.value, exitPrice, quantity);
      OnGrid(realized) && Round6(realized) == realized
  {
    GridSubExact(p.quantity.value, quantity);
    GridAddRounded(p.realizedPnl.GetOr(0.0), NetGain(p.entryPrice.value, exitPrice, quantity, 0.0));
  }

  lemma TradeSafe(s: Books, step: Step)
    requires Safe(s) && ValidInput(step) && (step.Reduce? || step.Close?)
    ensures Safe(After(s, step))
  {
    if Next(s, step).Success? {
      var p := s.positions[step.pid];
      ExitSafe(p, step.exitPrice, if step.Reduce? then step.reduced.value else p.quantity.value);
    }
  }

  lemma PaperSafe(s: Books, step: Step)
    requires Safe(s) && ValidInput(step)
    requires step.Plan? || step.Create? || step.Activate? || step.UpdateStop? || step.Cancel?
    ensures Safe(After(s, step))
  {
  }

  lemma StepSafe(s: Books, step: Step)
    requires Safe(s) && ValidInput(step)
    ensures Safe(After(s, step))
  {
    match step
    case Import(row) => ImportSafe(s, row);
    case Reconcile(key, action) => ReconcileSafe(s, key, action);
    case Reduce(_, _, _, _, _, _) => TradeSafe(s, step);
    case Close(_, _, _, _) => TradeSafe(s, step);
    case _ => PaperSafe(s, step);
  }

  /** Every reachable ledger is safe: no negative quantity, live positions are priced and
      held, finished ones hold nothing, and no key owns two fills. */
  lemma {:induction false} RunSafe(steps: seq<Step>)
    requires ValidRun(steps)
    ensures Safe(Run(EMPTY, steps))
  {
    if steps != [] {
      var before := steps[..|steps| - 1];
      RunSafe(before);
      StepSafe(Run(EMPTY, before), steps[|steps| - 1]);
    }
  }

  // ----- finished positions and decided fills never change again

  lemma StepFreezesTerminal(s: Books, step: Step, pid: PositionId)
    requires pid in s.positions && Terminal(s.positions[pid].status)
    ensures pid in After(s, step).positions && After(s, step).positions[pid] == s.positions[pid]
  {
  }

  lemma {:induction false} TerminalIsFrozen(s: Books, steps: seq<Step>, pid: PositionId)
    requires pid in s.positions && Terminal(s.positions[pid].status)
    ensures pid in Run(s, steps).positions && Run(s, steps).positions[pid] == s.positions[pid]
  {
    if steps != [] {
      var before := steps[..|steps| - 1];
      TerminalIsFrozen(s, before, pid);
      StepFreezesTerminal(Run(s, before), steps[|steps| - 1], pid);
    }
  }

  /** The later row is the same holding: its symbol, and once set its entry date and the
      initial stop that risk is measured by. */
  predicate KeepsOrigin(p: Position, p': Position) {
    && p'.symbol == p.symbol && !p'.status.Planned?
    && (p.entryDate.Some? ==> p'.entryDate == p.entryDate)
    && (p.initialStop.Some? ==> p'.initialStop == p.initialStop)
  }

  lemma ApplyFillKeepsOrigin(p: Position, row: RowData)
    requires !p.status.Planned? && ApplyFill(p, row).Success?
    ensures KeepsOrigin(p, ApplyFill(p, row).value)
  {
    hide Round6;
  }

  lemma StepKeepsOrigin(s: Books, step: Step, pid: PositionId)
    requires pid in s.positions && !s.positions[pid].status.Planned?
    ensures pid in After(s, step).positions && KeepsOrigin(s.positions[pid], After(s, step).positions[pid])
    ensures s.trades <= After(s, step).trades
  {
    hide ApplyFill;
    forall row | ApplyFill(s.positions[pid], row).Success?
      ensures KeepsOrigin(s.positions[pid], ApplyFill(s.positions[pid], row).value)
    {
      ApplyFillKeepsOrigin(s.positions[pid], row);
    }
  }

  /** Along any run a position that is past planning keeps its symbol, its entry date and its
      initial stop once set, never returns to planning, and no journal row is lost. */
  lemma {:induction false} OriginIsKept(s: Books, steps: seq<Step>, pid: PositionId)
    requires pid in s.positions && !s.positions[pid].status.Planned?
    ensures pid in Run(s, steps).positions && KeepsOrigin(s.positions[pid], Run(s, steps).positions[pid])
    ensures s.trades <= Run(s, steps).trades
  {
    if steps != [] {
      var before := steps[..|steps| - 1];
      OriginIsKept(s, before, pid);
      StepKeepsOrigin(Run(s, before), steps[|steps| - 1], pid);
    }
  }

  /** The price k initial risks above the entry. */
  function PriceAtRisks(entry: real, stop: real, k: real): real {
    entry + k * (entry - stop)
  }

  lemma RisksOfPrice(entry: real, stop: real, k: real)
    requires entry - stop > 0.0
    ensures (PriceAtRisks(entry, stop, k) - entry) / (entry - stop) == k
  {
    var risk := entry - stop;
    assert PriceAtRisks(entry, stop, k) - entry == k * risk;
    assert k * risk / risk == k;
  }

  /** The R multiple of an exit counts the initial risk: an exit k risks above the entry is
      worth k, one at the stop minus one. */
  lemma RMultipleCountsRisk(p: Position, k: real)
    requires p.entryPrice.Some? && Or(p.initialStop, p.currentStop).Some?
    requires p.entryPrice.value - Or(p.initialStop, p.currentStop).value > 0.0
    ensures var entry, stop := p.entryPrice.value, Or(p.initialStop, p.currentStop).value;
      && PositionRMultiple(p, PriceAtRisks(entry, stop, k)) == Some(Round6(k))
      && PositionRMultiple(p, stop) == Some(-1.0)
  {
    var entry, stop := p.entryPrice.value, Or(p.initialStop, p.currentStop).value;
    RisksOfPrice(entry, stop, k);
    RisksOfPrice(entry, stop, -1.0);
    assert PriceAtRisks(entry, stop, -1.0) == stop;
    Round6Identity(-1.0);
    hide Round6;
    hide PriceAtRisks;
    hide Or;
  }

  /** The two rows record the same execution; only owner and reconciliation may differ. */
  predicate SameExecution(f: Fill, g: Fill) {
    g == f.(positionId := g.positionId, active := g.active, reconciliation := g.reconciliation)
  }

  /** A decided fill is never touched again; an undecided one is decided or left alone. */
  predicate FillAdvances(f: Fill, g: Fill) {
    && SameExecution(f, g)
    && (f.reconciliation.ReviewRequired? ==> g == f || !g.reconciliation.ReviewRequired?)
    && (!f.reconciliation.ReviewRequired? ==> g == f)
  }

  ghost predicate FillsAdvance(fills: seq<Fill>, fills': seq<Fill>) {
    |fills| <= |fills'| && forall i :: 0 <= i < |fills| ==> FillAdvances(fills[i], fills'[i])
  }

  lemma StepAdvancesFills(s: Books, step: Step)
    ensures FillsAdvance(s.fills, After(s, step).fills)
  {
  }

  /** Along any run each fill leaves review at most once, keeps its execution data, and
      is never removed. */
  lemma {:induction false} FillsOnlyAdvance(s: Books, steps: seq<Step>)
    ensures FillsAdvance(s.fills, Run(s, steps).fills)
  {
    if steps != [] {
      var before := steps[..|steps| - 1];
      FillsOnlyAdvance(s, before);
      StepAdvancesFills(Run(s, before), steps[|steps| - 1]);
    }
  }
}
