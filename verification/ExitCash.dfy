/** What trims and closes earn: the cash of the exit less the cost at the entry price, on the
    position, on its journal row, and over whole runs. */
module ExitCash {
  import opened Numbers
  import opened Records
  import opened Rounding
  import opened Wrappers
  import opened Ledger
  import opened LedgerSafety
  import opened LedgerAccounts

  /** What selling shares at a price brings in beyond what they cost. */
  function Earned(entryPrice: real, exitPrice: real, quantity: real): real {
    Times(exitPrice, quantity) - Times(entryPrice, quantity)
  }

  lemma GainIsEarned(entryPrice: real, exitPrice: real, quantity: real)
    ensures NetGain(entryPrice, exitPrice, quantity, 0.0) == Earned(entryPrice, exitPrice, quantity)
  {
  }

  /** The R multiple is how far the exit lies above the entry, in distances from the entry down
      to the first stop, or to the current one if there is no first. */
  predicate InRisks(r: Option<real>, p: Position, exitPrice: real)
    requires p.entryPrice.Some?
  {
    var entry := p.entryPrice.value;
    var stop := if p.initialStop.Some? && p.initialStop.value != 0.0 then p.initialStop else p.currentStop;
    && (r.Some? <==> stop.Some? && stop.value < entry)
    && (r.Some? ==>
          var risk := entry - stop.value;
          exitPrice - entry - Times(HALF_MICRO, risk) <= Times(r.value, risk)
            <= exitPrice - entry + Times(HALF_MICRO, risk))
  }

  lemma MultipleIsInRisks(p: Position, exitPrice: real)
    requires p.entryPrice.Some?
    ensures InRisks(PositionRMultiple(p, exitPrice), p, exitPrice)
  {
    if PositionRMultiple(p, exitPrice).Some? {
      var entry, stop := p.entryPrice.value, Or(p.initialStop, p.currentStop).value;
      var risk := entry - stop;
      var exact, rounded := (exitPrice - entry) / risk, PositionRMultiple(p, exitPrice).value;
      assert exact * risk == exitPrice - entry;
      ProductNonNegative(rounded - exact + HALF_MICRO, risk);
      ProductNonNegative(exact + HALF_MICRO - rounded, risk);
    }
  }

  /** The journal row records the exit of so many shares of the position. */
  predicate RecordsExit(t: Trade, pid: PositionId, p: Position, exitPrice: real, quantity: real, exitTs: int)
    requires p.entryPrice.Some?
  {
    && t.positionId == Some(pid) && t.entryTs == p.entryDate && t.exitTs == Some(exitTs)
    && t.entryPrice == p.entryPrice && t.exitPrice == Some(exitPrice) && t.quantity == Some(quantity)
    && t.netPnl.Some? && t.grossPnl == t.netPnl
    && Near(t.netPnl.value, Earned(p.entryPrice.value, exitPrice, quantity), 1)
    && InRisks(t.rMultiple, p, exitPrice)
  }

  /** The exit takes the shares from the position and books what they earned. */
  predicate Exits(s: Books, s': Books, pid: PositionId, exitPrice: real, quantity: real, exitTs: int) {
    && pid in s.positions && s.positions[pid].entryPrice.Some? && s.positions[pid].quantity.Some?
    && pid in s'.positions && s'.positions - {pid} == s.positions - {pid} && s'.fills == s.fills
    && |s'.trades| == |s.trades| + 1 && s'.trades[..|s.trades|] == s.trades
    && var p, p' := s.positions[pid], s'.positions[pid];
       && RecordsExit(s'.trades[|s.trades|], pid, p, exitPrice, quantity, exitTs)
       && p'.quantity == Some(p.quantity.value - quantity)
       && p'.realizedPnl.Some?
       && Near(p'.realizedPnl.value - p.realizedPnl.GetOr(0.0), Earned(p.entryPrice.value, exitPrice, quantity), 1)
       && p'.entryPrice == p.entryPrice && p'.entryDate == p.entryDate && p'.initialStop == p.initialStop
       && p'.symbol == p.symbol && p'.exitProfile == p.exitProfile
  }

  /** A trim that succeeds leaves a reduced position with some of its shares. */
  lemma TrimEarns(s: Books, pid: PositionId, exitPrice: real, quantity: real, stop: Option<real>, ts: int, n: nat)
    requires Safe(s) && quantity > 0.0 && OnGrid(quantity)
    ensures var r := Next(s, Reduce(pid, exitPrice, Some(quantity), stop, ts, n));
      r.Success? ==>
        && Exits(s, r.value, pid, exitPrice, quantity, ts)
        && s.positions[pid].status in {Open, Reduced} && quantity < s.positions[pid].quantity.value
        && r.value.positions[pid].status.Reduced?
        && r.value.positions[pid].unrealizedPnl == s.positions[pid].unrealizedPnl
        && r.value.positions[pid].currentStop == (if stop.Some? then stop else s.positions[pid].currentStop)
  {
    hide InRisks;
    hide PositionRMultiple;
    hide NetGain;
    hide Earned;
    hide Near;
    hide OnGrid;
    hide Round6;
    var r := Next(s, Reduce(pid, exitPrice, Some(quantity), stop, ts, n));
    if r.Success? {
      var p := s.positions[pid];
      assert SafePosition(p);
      GridSubExact(p.quantity.value, quantity);
      PnlIsEarned(p, exitPrice, quantity);
      MultipleIsInRisks(p, exitPrice);
    }
  }

  /** What an exit books, in the journal and on a position. */
  lemma PnlIsEarned(p: Position, exitPrice: real, quantity: real)
    requires SafePosition(p) && p.entryPrice.Some?
    ensures var pnl, earned := PositionPnl(p.entryPrice.value, exitPrice, quantity),
                               Earned(p.entryPrice.value, exitPrice, quantity);
      && Near(pnl, earned, 1)
      && Near(Round6(p.realizedPnl.GetOr(0.0) + pnl) - p.realizedPnl.GetOr(0.0), earned, 1)
  {
    GridAddRounded(p.realizedPnl.GetOr(0.0), NetGain(p.entryPrice.value, exitPrice, quantity, 0.0));
    GainIsEarned(p.entryPrice.value, exitPrice, quantity);
    hide NetGain;
    hide Earned;
  }

  /** A close that succeeds takes all shares. */
  lemma CloseEarns(s: Books, pid: PositionId, exitPrice: real, closed: Option<real>, ts: int)
    requires Safe(s)
    ensures var r := Next(s, Close(pid, exitPrice, closed, ts));
      r.Success? ==>
        && pid in s.positions && s.positions[pid].quantity.Some?
        && Exits(s, r.value, pid, exitPrice, s.positions[pid].quantity.value, ts)
        && closed in {None, s.positions[pid].quantity} && s.positions[pid].quantity.value > 0.0
        && r.value.positions[pid].status.Closed? && r.value.positions[pid].quantity == Some(0.0)
        && r.value.positions[pid].unrealizedPnl == Some(0.0)
  {
    hide InRisks;
    hide PositionRMultiple;
    hide NetGain;
    hide Earned;
    hide Near;
    hide OnGrid;
    hide Round6;
    var r := Next(s, Close(pid, exitPrice, closed, ts));
    if r.Success? {
      var p := s.positions[pid];
      assert SafePosition(p);
      PnlIsEarned(p, exitPrice, p.quantity.value);
      MultipleIsInRisks(p, exitPrice);
    }
  }

  // ----- over whole runs

  predicate ExitsFrom(t: Trade, pid: PositionId) {
    t.positionId == Some(pid)
  }

  /** Exit cash less entry cost of the journal rows of a position, from their own prices. */
  function CashOfExits(trades: seq<Trade>, pid: PositionId): real {
    if trades == [] then 0.0
    else
      var t := trades[|trades| - 1];
      CashOfExits(trades[..|trades| - 1], pid)
        + (if ExitsFrom(t, pid) then Earned(t.entryPrice.GetOr(0.0), t.exitPrice.GetOr(0.0), t.quantity.GetOr(0.0))
           else 0.0)
  }

  function ExitCount(trades: seq<Trade>, pid: PositionId): nat {
    if trades == [] then 0
    else ExitCount(trades[..|trades| - 1], pid) + (if ExitsFrom(trades[|trades| - 1], pid) then 1 else 0)
  }

  lemma ExitAppends(trades: seq<Trade>, t: Trade, pid: PositionId)
    ensures CashOfExits(trades + [t], pid) == CashOfExits(trades, pid)
      + (if ExitsFrom(t, pid) then Earned(t.entryPrice.GetOr(0.0), t.exitPrice.GetOr(0.0), t.quantity.GetOr(0.0))
         else 0.0)
    ensures ExitCount(trades + [t], pid) == ExitCount(trades, pid) + (if ExitsFrom(t, pid) then 1 else 0)
  {
    assert (trades + [t])[..|trades|] == trades;
  }

  lemma ExitStep(s: Books, s': Books, owner: PositionId, exitPrice: real, quantity: real, ts: int, pid: PositionId)
    requires Exits(s, s', owner, exitPrice, quantity, ts)
    requires Near(Journaled(s.trades, pid), CashOfExits(s.trades, pid), ExitCount(s.trades, pid))
    ensures Near(Journaled(s'.trades, pid), CashOfExits(s'.trades, pid), ExitCount(s'.trades, pid))
  {
    hide Journaled;
    hide CashOfExits;
    hide ExitCount;
    hide Earned;
    var t := s'.trades[|s.trades|];
    assert s'.trades == s.trades + [t];
    TradeAppend(s.trades, t, pid);
    ExitAppends(s.trades, t, pid);
  }

  lemma OtherStepsKeepJournal(s: Books, step: Step)
    requires !step.Reduce? && !step.Close?
    ensures After(s, step).trades == s.trades
  {
    hide ApplyFill;
  }

  /** Over any valid run the journal's PnL of a position is the cash of its exits less the
      cost of what was exited, up to half a unit for each exit. */
  lemma {:induction false} JournalIsCash(steps: seq<Step>, pid: PositionId)
    requires ValidRun(steps)
    ensures var trades := Run(EMPTY, steps).trades;
      Near(Journaled(trades, pid), CashOfExits(trades, pid), ExitCount(trades, pid))
  {
    if steps != [] {
      var before, step := steps[..|steps| - 1], steps[|steps| - 1];
      var s := Run(EMPTY, before);
      JournalIsCash(before, pid);
      RunSafe(before);
      hide Run;
      hide After;
      if step.Reduce? || step.Close? {
        ExitKeepsCash(s, step, pid);
      } else {
        OtherStepsKeepJournal(s, step);
      }
    }
  }

  lemma ExitKeepsCash(s: Books, step: Step, pid: PositionId)
    requires Safe(s) && ValidInput(step) && (step.Reduce? || step.Close?)
    requires Near(Journaled(s.trades, pid), CashOfExits(s.trades, pid), ExitCount(s.trades, pid))
    ensures var trades := After(s, step).trades;
      Near(Journaled(trades, pid), CashOfExits(trades, pid), ExitCount(trades, pid))
  {
    if Next(s, step).Success? {
      match step
      case Reduce(owner, price, quantity, stop, ts, n) =>
        ReduceNeedsQuantity(s, owner, price, quantity, stop, ts, n);
        TrimEarns(s, owner, price, quantity.value, stop, ts, n);
        ExitStep(s, After(s, step), owner, price, quantity.value, ts, pid);
      case Close(owner, price, quantity, ts) =>
        CloseEarns(s, owner, price, quantity, ts);
        ExitStep(s, After(s, step), owner, price, s.positions[owner].quantity.value, ts, pid);
    }
  }

  lemma ReduceNeedsQuantity(
    s: Books, pid: PositionId, price: real, quantity: Option<real>, stop: Option<real>, ts: int, n: nat)
    requires Next(s, Reduce(pid, price, quantity, stop, ts, n)).Success?
    ensures quantity.Some?
  {
  }
}
