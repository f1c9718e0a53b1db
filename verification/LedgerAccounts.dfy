/** Conservation over runs: a position's quantity and realized PnL are accounted for by
    manual openings, fills and journal trades. */
module LedgerAccounts {
  import opened Records
  import opened Rounding
  import opened Wrappers
  import opened Ledger
  import opened LedgerSafety

  // ----- sums over the fill and journal tables

  function Signed(f: Fill, pid: PositionId): real {
    if f.positionId != pid || f.reconciliation.Ignored? then 0.0
    else if f.side.Buy? then f.quantity
    else -f.quantity
  }

  /** Non-ignored buys minus sells attached to the position. */
  function Held(fills: seq<Fill>, pid: PositionId): real {
    if fills == [] then 0.0
    else Held(fills[..|fills| - 1], pid) + Signed(fills[|fills| - 1], pid)
  }

  function Of(t: Trade, pid: PositionId, amount: Option<real>): real {
    if t.positionId == Some(pid) then amount.GetOr(0.0) else 0.0
  }

  /** Journal quantity attached to the position. */
  function Exited(trades: seq<Trade>, pid: PositionId): real {
    if trades == [] then 0.0
    else Exited(trades[..|trades| - 1], pid) + Of(trades[|trades| - 1], pid, trades[|trades| - 1].quantity)
  }

  /** Journal net PnL attached to the position. */
  function Journaled(trades: seq<Trade>, pid: PositionId): real {
    if trades == [] then 0.0
    else Journaled(trades[..|trades| - 1], pid) + Of(trades[|trades| - 1], pid, trades[|trades| - 1].netPnl)
  }

  lemma HeldAppend(fills: seq<Fill>, f: Fill, pid: PositionId)
    ensures Held(fills + [f], pid) == Held(fills, pid) + Signed(f, pid)
  {
    assert (fills + [f])[..|fills|] == fills;
  }

  lemma {:induction false} HeldUpdate(fills: seq<Fill>, i: nat, f: Fill, pid: PositionId)
    requires i < |fills|
    ensures Held(fills[i := f], pid) == Held(fills, pid) - Signed(fills[i], pid) + Signed(f, pid)
  {
    var n := |fills| - 1;
    if i < n {
      HeldUpdate(fills[..n], i, f, pid);
      assert fills[i := f][..n] == fills[..n][i := f];
    } else {
      assert fills[i := f][..n] == fills[..n];
    }
  }

  lemma {:induction false} HeldNone(fills: seq<Fill>, pid: PositionId)
    requires forall i :: 0 <= i < |fills| ==> fills[i].positionId != pid
    ensures Held(fills, pid) == 0.0
  {
    if fills != [] {
      HeldNone(fills[..|fills| - 1], pid);
    }
  }

  lemma TradeAppend(trades: seq<Trade>, t: Trade, pid: PositionId)
    ensures Exited(trades + [t], pid) == Exited(trades, pid) + Of(t, pid, t.quantity)
    ensures Journaled(trades + [t], pid) == Journaled(trades, pid) + Of(t, pid, t.netPnl)
  {
    assert (trades + [t])[..|trades|] == trades;
  }

  lemma {:induction false} ExitedNone(trades: seq<Trade>, pid: PositionId)
    requires forall i :: 0 <= i < |trades| ==> trades[i].positionId != Some(pid)
    ensures Exited(trades, pid) == 0.0
  {
    if trades != [] {
      ExitedNone(trades[..|trades| - 1], pid);
    }
  }

  // ----- who may own fills and trades

  predicate UnmatchedSell(p: Position) {
    p.status.ReviewNeeded? && p.entryPrice.None?
  }

  ghost predicate FillsOwned(s: Books) {
    forall i :: 0 <= i < |s.fills| ==>
      s.fills[i].positionId in s.positions && !s.positions[s.fills[i].positionId].status.Planned?
  }

  ghost predicate TradesOwned(s: Books) {
    forall i :: 0 <= i < |s.trades| && s.trades[i].positionId.Some? ==>
      var pid := s.trades[i].positionId.value;
      pid in s.positions && s.positions[pid].status in {Open, Reduced, Closed}
  }

  /** A position under review is exactly its one fill: the sign tells which side. */
  ghost predicate ReviewsAreFills(s: Books) {
    forall pid :: pid in s.positions && s.positions[pid].status.ReviewNeeded? ==>
      var p := s.positions[pid];
      && p.quantity.Some?
      && Held(s.fills, pid) == (if p.entryPrice.Some? then p.quantity.value else -p.quantity.value)
      && (forall i :: 0 <= i < |s.fills| && s.fills[i].positionId == pid ==>
            Signed(s.fills[i], pid) == Held(s.fills, pid))
  }

  ghost predicate Tied(s: Books) {
    FillsOwned(s) && TradesOwned(s) && ReviewsAreFills(s)
  }

  /** A new buy that names, under its symbol, a position still standing for an unmatched sell. */
  predicate BuysUnmatchedSell(s: Books, row: RowData) {
    && row.side.Buy? && row.positionId.Some? && row.positionId.value in s.positions
    && UnmatchedSell(s.positions[row.positionId.value])
    && Upper(s.positions[row.positionId.value].symbol) == row.symbol
    && !HasFill(s.fills, row.key)
  }

  /** Every step is admissible but the import of such a buy. */
  predicate Admissible(s: Books, step: Step) {
    step.Import? ==> !BuysUnmatchedSell(s, step.row)
  }

  // ----- quantity

  /** What fills and trades leave unexplained of a position's quantity. */
  function Unexplained(s: Books, pid: PositionId): real {
    if pid !in s.positions || s.positions[pid].status.Planned? || UnmatchedSell(s.positions[pid]) then 0.0
    else s.positions[pid].quantity.GetOr(0.0) - Held(s.fills, pid) + Exited(s.trades, pid)
  }

  /** Quantity put on a position by hand: activation, or creation in a later status. */
  function Opened(s: Books, step: Step, pid: PositionId): real {
    if Next(s, step).Failure? then 0.0
    else
      match step
      case Activate(p, _, quantity, _) =>
        if p != pid then 0.0
        else if quantity.Some? then quantity.value
        else if p in s.positions then s.positions[p].quantity.GetOr(0.0)
        else 0.0
      case Create(name, p) => if Manual(name) == pid && !p.status.Planned? then p.quantity.GetOr(0.0) else 0.0
      case _ => 0.0
  }

  /** The books account for everything after the change exactly as before it. */
  ghost predicate Accounted(s: Books, s': Books) {
    Tied(s') && forall pid :: Unexplained(s', pid) == Unexplained(s, pid)
  }

  /** A fill lands on a position that already exists. */
  lemma FillLands(s: Books, owner: PositionId, p': Position, f: Fill)
    requires Tied(s) && owner in s.positions && f.positionId == owner
    requires var p := s.positions[owner];
      && !UnmatchedSell(p)
      && p'.status in {Open, Reduced, Closed}
      && p'.quantity == Some((if p.status.Planned? then 0.0 else p.quantity.GetOr(0.0)) + Signed(f, owner))
    ensures Accounted(s, s.(positions := s.positions[owner := p'], fills := s.fills + [f]))
  {
    hide Held;
    hide Exited;
    var s' := s.(positions := s.positions[owner := p'], fills := s.fills + [f]);
    forall p {
      HeldAppend(s.fills, f, p);
    }
    if s.positions[owner].status.Planned? {
      HeldNone(s.fills, owner);
      ExitedNone(s.trades, owner);
    }
  }

  /** An unmatched fill opens its own review position. */
  lemma ReviewOpens(s: Books, row: Row)
    requires Tied(s) && ReviewOf(row.key) !in s.positions
    ensures var pid := ReviewOf(row.key);
      Accounted(s, s.(positions := s.positions[pid := ReviewPosition(row)],
                      fills := s.fills + [FillOfRow(row, pid, ReviewRequired)]))
  {
    hide Held;
    hide Exited;
    var pid := ReviewOf(row.key);
    var f := FillOfRow(row, pid, ReviewRequired);
    forall p {
      HeldAppend(s.fills, f, p);
    }
    HeldNone(s.fills, pid);
    ExitedNone(s.trades, pid);
  }

  lemma ImportAccounts(s: Books, row: Row)
    requires Safe(s) && Tied(s) && Admissible(s, Import(row))
    ensures Accounted(s, After(s, Import(row)))
  {
    if !HasFill(s.fills, row.key) && InsertRow(s, row).Inserted? {
      var target := ResolvePosition(s.positions, row);
      if target.None? {
        ReviewOpens(s, row);
      } else {
        var p := s.positions[target.value];
        if row.side.Buy? {
          BuySafe(p, row);
        } else {
          SellSafe(p, row);
        }
        FillLands(s, target.value, ApplyFill(p, row).value, FillOfRow(row, target.value, Matched));
      }
    }
  }

  // ----- reconciliation

  lemma Decided(s: Books, i: nat, g: Fill)
    requires i < |s.fills|
    ensures forall pid :: Held(s.fills[i := g], pid) == Held(s.fills, pid) - Signed(s.fills[i], pid) + Signed(g, pid)
  {
    forall pid {
      HeldUpdate(s.fills, i, g, pid);
    }
  }

  lemma ConfirmAccounts(s: Books, i: nat)
    requires Safe(s) && Tied(s) && i < |s.fills| && s.fills[i].positionId in s.positions
    requires s.positions[s.fills[i].positionId].status.ReviewNeeded? && s.fills[i].reconciliation.ReviewRequired?
    requires ConfirmReview(s, i).Success?
    ensures Accounted(s, ConfirmReview(s, i).value)
  {
    hide Held;
    hide Exited;
    Decided(s, i, s.fills[i].(reconciliation := Confirmed, active := true));
  }

  lemma IgnoreAccounts(s: Books, i: nat)
    requires Safe(s) && Tied(s) && i < |s.fills| && s.fills[i].positionId in s.positions
    requires s.positions[s.fills[i].positionId].status.ReviewNeeded? && s.fills[i].reconciliation.ReviewRequired?
    ensures Accounted(s, IgnoreReview(s, i))
  {
    hide Held;
    hide Exited;
    Decided(s, i, s.fills[i].(reconciliation := Ignored, active := false));
    ExitedNone(s.trades, s.fills[i].positionId);
  }

  /** A fill moves from its review position, which is cancelled, to a live one. */
  lemma FillMoves(s: Books, i: nat, target: PositionId, p': Position)
    requires Tied(s) && i < |s.fills| && s.fills[i].positionId in s.positions
    requires s.positions[s.fills[i].positionId].status.ReviewNeeded? && s.fills[i].reconciliation.ReviewRequired?
    requires target in s.positions && IsLive(s.positions[target].status)
    requires p'.status in {Open, Reduced, Closed}
    requires var p := s.positions[target]; var f := s.fills[i];
      p'.quantity == Some((if p.status.Planned? then 0.0 else p.quantity.GetOr(0.0))
                          + (if f.side.Buy? then f.quantity else -f.quantity))
    ensures var review := s.fills[i].positionId;
      Accounted(s, s.(
        positions := s.positions[target := p'][review := CancelledReview(s.positions[review])],
        fills := s.fills[i := s.fills[i].(positionId := target, reconciliation := Bound, active := true)]))
  {
    hide Held;
    hide Exited;
    Decided(s, i, s.fills[i].(positionId := target, reconciliation := Bound, active := true));
    ExitedNone(s.trades, s.fills[i].positionId);
    if s.positions[target].status.Planned? {
      HeldNone(s.fills, target);
      ExitedNone(s.trades, target);
    }
  }

  lemma BindAccounts(s: Books, i: nat, target: PositionId)
    requires Safe(s) && Tied(s) && i < |s.fills| && s.fills[i].positionId in s.positions
    requires s.positions[s.fills[i].positionId].status.ReviewNeeded? && s.fills[i].reconciliation.ReviewRequired?
    requires BindReview(s, i, target).Success?
    ensures Accounted(s, BindReview(s, i, target).value)
  {
    var p := s.positions[target];
    var row := RowOfFill(s.fills[i], target);
    if row.side.Buy? {
      BuySafe(p, row);
    } else {
      SellSafe(p, row);
    }
    FillMoves(s, i, target, ApplyFill(p, row).value);
  }

  // ----- exits by hand

  lemma ExitAccounts(s: Books, pid: PositionId, p': Position, t: Trade)
    requires Safe(s) && Tied(s) && pid in s.positions
    requires var p := s.positions[pid];
      && p.quantity.Some? && p.entryPrice.Some? && p.status in {Open, Reduced, ReviewNeeded}
      && t.positionId == Some(pid) && t.quantity.Some?
      && p'.quantity == Some(p.quantity.value - t.quantity.value) && p'.status in {Reduced, Closed}
    ensures Accounted(s, s.(positions := s.positions[pid := p'], trades := s.trades + [t]))
  {
    hide Held;
    hide Exited;
    forall q {
      TradeAppend(s.trades, t, q);
    }
  }

  lemma ReconcileAccounts(s: Books, key: nat, action: Action)
    requires Safe(s) && Tied(s)
    ensures Accounted(s, After(s, Reconcile(key, action)))
  {
    if ReconcileFill(s, key, action).Success? {
      var i := FindFill(s.fills, key).value;
      match action
      case ConfirmPosition => ConfirmAccounts(s, i);
      case BindPosition(target) => BindAccounts(s, i, target);
      case IgnoreFill => IgnoreAccounts(s, i);
    }
  }

  lemma ReduceAccounts(
    s: Books, pid: PositionId, price: real, quantity: Option<real>, stop: Option<real>, ts: int, n: nat)
    requires Safe(s) && Tied(s) && SizedRight(quantity)
    requires ReducePosition(s, pid, price, quantity, stop, ts, n).Success?
    ensures Accounted(s, ReducePosition(s, pid, price, quantity, stop, ts, n).value)
  {
    var s' := ReducePosition(s, pid, price, quantity, stop, ts, n).value;
    GridSubExact(s.positions[pid].quantity.value, quantity.value);
    var t := ExitTrade(TrimOf(pid, n), pid, s.positions[pid], price, quantity.value, ts);
    ExitAccounts(s, pid, s'.positions[pid], t);
  }

  lemma CloseAccounts(s: Books, pid: PositionId, price: real, quantity: Option<real>, ts: int)
    requires Safe(s) && Tied(s)
    requires ClosePosition(s, pid, price, quantity, ts).Success?
    ensures Accounted(s, ClosePosition(s, pid, price, quantity, ts).value)
  {
    var s' := ClosePosition(s, pid, price, quantity, ts).value;
    var p := s.positions[pid];
    ExitAccounts(s, pid, s'.positions[pid], ExitTrade(CloseOf(pid), pid, p, price, p.quantity.value, ts));
  }

  function OwnQuantity(owner: PositionId, p: Position, pid: PositionId): real {
    if pid == owner && !p.status.Planned? then p.quantity.GetOr(0.0) else 0.0
  }

  /** A position without fills or trades is created or rewritten; it then accounts for its
      own quantity unless it is planned. */
  lemma OwnerRewritten(s: Books, owner: PositionId, p': Position)
    requires Tied(s) && (owner in s.positions ==> s.positions[owner].status.Planned?)
    requires !p'.status.ReviewNeeded? && !UnmatchedSell(p')
    ensures var s' := s.(positions := s.positions[owner := p']);
      && Tied(s')
      && (forall pid :: Unexplained(s', pid) == Unexplained(s, pid) + OwnQuantity(owner, p', pid))
  {
    hide Held;
    hide Exited;
    HeldNone(s.fills, owner);
    ExitedNone(s.trades, owner);
  }

  lemma CreateAccounts(s: Books, name: string, p: Position, pid: PositionId)
    requires Tied(s) && ValidInput(Create(name, p))
    ensures Tied(After(s, Create(name, p)))
    ensures Unexplained(After(s, Create(name, p)), pid) == Unexplained(s, pid) + Opened(s, Create(name, p), pid)
  {
    hide Held;
    hide Exited;
    if Manual(name) !in s.positions {
      OwnerRewritten(s, Manual(name), p);
    }
  }

  lemma ActivateAccounts(s: Books, owner: PositionId, price: real, quantity: Option<real>, ts: int, pid: PositionId)
    requires Tied(s)
    ensures var step := Activate(owner, price, quantity, ts);
      && Tied(After(s, step))
      && Unexplained(After(s, step), pid) == Unexplained(s, pid) + Opened(s, step, pid)
  {
    hide Held;
    hide Exited;
    if ActivatePosition(s, owner, price, quantity, ts).Success? {
      OwnerRewritten(s, owner, ActivatePosition(s, owner, price, quantity, ts).value.positions[owner]);
    }
  }

  lemma CancelAccounts(s: Books, owner: PositionId)
    requires Tied(s)
    ensures Accounted(s, After(s, Cancel(owner)))
  {
    hide Held;
    hide Exited;
    if CancelPosition(s, owner).Success? {
      OwnerRewritten(s, owner, CancelledReview(s.positions[owner]));
    }
  }

  lemma PlanAccounts(s: Books, r: PlanRequest)
    requires Tied(s)
    ensures Accounted(s, After(s, Plan(r)))
  {
    hide Held;
    hide Exited;
    var s' := After(s, Plan(r));
    if s' != s {
      OwnerRewritten(s, PlanOf(r.candidate), s'.positions[PlanOf(r.candidate)]);
    }
  }

  lemma StopAccounts(s: Books, pid: PositionId, newStop: real)
    requires Tied(s)
    ensures Accounted(s, After(s, UpdateStop(pid, newStop)))
  {
    hide Held;
    hide Exited;
  }

  /** One admissible step: what stays unexplained moves only by what was opened by hand. */
  lemma StepAccounts(s: Books, step: Step, pid: PositionId)
    requires Safe(s) && Tied(s) && ValidInput(step) && Admissible(s, step)
    ensures Tied(After(s, step))
    ensures Unexplained(After(s, step), pid) == Unexplained(s, pid) + Opened(s, step, pid)
  {
    match step
    case Import(row) => ImportAccounts(s, row);
    case Reconcile(key, action) => ReconcileAccounts(s, key, action);
    case Plan(r) => PlanAccounts(s, r);
    case UpdateStop(owner, newStop) => StopAccounts(s, owner, newStop);
    case Reduce(owner, price, quantity, stop, ts, n) =>
      if Next(s, step).Success? { ReduceAccounts(s, owner, price, quantity, stop, ts, n); }
    case Close(owner, price, quantity, ts) =>
      if Next(s, step).Success? { CloseAccounts(s, owner, price, quantity, ts); }
    case Create(name, p) => CreateAccounts(s, name, p, pid);
    case Activate(owner, price, quantity, ts) => ActivateAccounts(s, owner, price, quantity, ts, pid);
    case Cancel(owner) => CancelAccounts(s, owner);
  }

  ghost predicate AdmissibleRun(steps: seq<Step>) {
    forall i :: 0 <= i < |steps| ==> ValidInput(steps[i]) && Admissible(Run(EMPTY, steps[..i]), steps[i])
  }

  /** The manual baseline: everything a run put on the position by hand. */
  function Baseline(steps: seq<Step>, pid: PositionId): real {
    if steps == [] then 0.0
    else
      var before := steps[..|steps| - 1];
      Baseline(before, pid) + Opened(Run(EMPTY, before), steps[|steps| - 1], pid)
  }

  /** Conservation of quantity over any interleaving: a position that is neither planned nor
      an unmatched sell holds its manual baseline plus buys minus sells minus journal exits. */
  lemma {:induction false} QuantityIsConserved(steps: seq<Step>, pid: PositionId)
    requires AdmissibleRun(steps)
    ensures Tied(Run(EMPTY, steps))
    ensures Unexplained(Run(EMPTY, steps), pid) == Baseline(steps, pid)
    ensures var s := Run(EMPTY, steps);
      pid in s.positions && !s.positions[pid].status.Planned? && !UnmatchedSell(s.positions[pid]) ==>
        s.positions[pid].quantity.GetOr(0.0) == Baseline(steps, pid) + Held(s.fills, pid) - Exited(s.trades, pid)
  {
    if steps != [] {
      var before := steps[..|steps| - 1];
      forall i | 0 <= i < |before|
        ensures ValidInput(before[i]) && Admissible(Run(EMPTY, before[..i]), before[i])
      {
        assert before[..i] == steps[..i];
        assert ValidInput(steps[i]) && Admissible(Run(EMPTY, steps[..i]), steps[i]);
      }
      QuantityIsConserved(before, pid);
      RunSafe(before);
      StepAccounts(Run(EMPTY, before), steps[|steps| - 1], pid);
    }
  }

  /** The admissibility condition is exact: an imported row keeps every position explained if
      and only if it is no new buy naming an unmatched sell of its symbol. */
  lemma AdmissibleIsExact(s: Books, row: Row)
    requires Safe(s) && Tied(s)
    ensures (forall pid :: Unexplained(After(s, Import(row)), pid) == Unexplained(s, pid))
       <==> !BuysUnmatchedSell(s, row)
  {
    hide Held;
    hide Exited;
    if BuysUnmatchedSell(s, row) {
      var pid, s' := row.positionId.value, After(s, Import(row));
      var p := s.positions[pid];
      NamedBuyLands(s, row, pid);
      HeldAppend(s.fills, FillOfRow(row, pid, Matched), pid);
      ExitedNone(s.trades, pid);
      assert Unexplained(s', pid) == 2.0 * p.quantity.value;
      assert Unexplained(s', pid) != Unexplained(s, pid);
    } else {
      ImportAccounts(s, row);
    }
  }

  /** A named buy adds its shares to whatever unfinished position it names. */
  lemma NamedBuyLands(s: Books, row: Row, pid: PositionId)
    requires row.side.Buy? && row.positionId == Some(pid) && pid in s.positions && !HasFill(s.fills, row.key)
    requires SafePosition(s.positions[pid]) && !Terminal(s.positions[pid].status)
    requires Upper(s.positions[pid].symbol) == row.symbol
    ensures var p, s' := s.positions[pid], After(s, Import(row));
      && pid in s'.positions && s'.positions[pid].status.Open?
      && s'.positions[pid].quantity
         == Some((if p.status.Planned? then 0.0 else p.quantity.GetOr(0.0)) + row.quantity)
      && s'.positions[pid].entryDate.Some? && (p.entryDate.Some? ==> s'.positions[pid].entryDate == p.entryDate)
      && s'.fills == s.fills + [FillOfRow(row, pid, Matched)] && s'.trades == s.trades
  {
    NeverDividesByZero(s.positions[pid], row);
    BuySafe(s.positions[pid], row);
  }

  lemma UnmatchedSellOpens(row: Row)
    requires row.side.Sell? && row.positionId.None?
    ensures var pid := ReviewOf(row.key);
      Run(EMPTY, [Import(row)]) == Books(map[pid := ReviewPosition(row)], [FillOfRow(row, pid, ReviewRequired)], [])
  {
    assert SymbolMatches(EMPTY.positions, row.symbol) == {};
    assert [Import(row)][..0] == [];
  }

  const SAMPLE_SELL := RowData(1, "SPY", Sell, 1.0, 10.0, 0.0, 0, None)
  const SAMPLE_BUY := RowData(2, "SPY", Buy, 1.0, 10.0, 0.0, 1, Some(ReviewOf(1)))

  /** The excluded input is reachable: an unmatched sell of one share, then a buy of one
      share naming its review position, leave two shares where the fills say none. */
  lemma NamedUnmatchedSellGoesWrong()
    ensures WellFormedRow(SAMPLE_SELL) && WellFormedRow(SAMPLE_BUY)
    ensures var s := Run(EMPTY, [Import(SAMPLE_SELL), Import(SAMPLE_BUY)]);
      && ReviewOf(1) in s.positions
      && s.positions[ReviewOf(1)].quantity == Some(2.0) && Held(s.fills, ReviewOf(1)) == 0.0
  {
    var pid := ReviewOf(1);
    var s1 := Run(EMPTY, [Import(SAMPLE_SELL)]);
    UnmatchedSellOpens(SAMPLE_SELL);
    assert Upper("SPY") == "SPY";
    NamedBuyLands(s1, SAMPLE_BUY, pid);
    HeldAppend(s1.fills, FillOfRow(SAMPLE_BUY, pid, Matched), pid);
    HeldAppend([], FillOfRow(SAMPLE_SELL, pid, ReviewRequired), pid);
    assert s1.fills == [] + [FillOfRow(SAMPLE_SELL, pid, ReviewRequired)];
    assert [Import(SAMPLE_SELL), Import(SAMPLE_BUY)][..1] == [Import(SAMPLE_SELL)];
  }

  // ----- realized PnL

  function Realized(s: Books, pid: PositionId): real {
    if pid in s.positions then s.positions[pid].realizedPnl.GetOr(0.0) else 0.0
  }

  /** The PnL a step books on the position through a sell fill. */
  function SellDelta(s: Books, step: Step, pid: PositionId): real {
    if Next(s, step).Failure? || pid !in s.positions || s.positions[pid].entryPrice.None? then 0.0
    else
      match step
      case Import(row) =>
        if After(s, step) != s && ResolvePosition(s.positions, row) == Some(pid) && row.side.Sell?
        then SellPnl(s.positions[pid].entryPrice.value, row)
        else 0.0
      case Reconcile(key, BindPosition(target)) =>
        var at := FindFill(s.fills, key);
        if target == pid && at.Some? && s.fills[at.value].side.Sell?
        then SellPnl(s.positions[pid].entryPrice.value, RowOfFill(s.fills[at.value], target))
        else 0.0
      case _ => 0.0
  }

  /** PnL a hand-made position starts with. */
  function Initial(s: Books, step: Step, pid: PositionId): real {
    if step.Create? && Manual(step.name) == pid && Next(s, step).Success? then step.position.realizedPnl.GetOr(0.0)
    else 0.0
  }

  lemma ApplyRealizes(p: Position, row: RowData)
    requires SafePosition(p) && WellFormedRow(row) && ApplyFill(p, row).Success?
    ensures row.side.Sell? ==> p.entryPrice.Some?
    ensures ApplyFill(p, row).value.realizedPnl.GetOr(0.0)
         == p.realizedPnl.GetOr(0.0) + (if row.side.Sell? then SellPnl(p.entryPrice.value, row) else 0.0)
  {
    if row.side.Buy? {
      BuySafe(p, row);
    } else {
      SellSafe(p, row);
    }
  }

  /** What a step leaves of realized PnL beyond the journal. */
  function Unjournaled(s: Books, pid: PositionId): real {
    Realized(s, pid) - Journaled(s.trades, pid)
  }

  lemma ImportRealizes(s: Books, row: Row, pid: PositionId)
    requires Safe(s)
    ensures Unjournaled(After(s, Import(row)), pid) == Unjournaled(s, pid) + SellDelta(s, Import(row), pid)
  {
    hide Journaled;
    if After(s, Import(row)) != s {
      var target := ResolvePosition(s.positions, row);
      if target.Some? {
        ApplyRealizes(s.positions[target.value], row);
      }
    }
  }

  lemma ReconcileRealizes(s: Books, key: nat, action: Action, pid: PositionId)
    requires Safe(s)
    ensures Unjournaled(After(s, Reconcile(key, action)), pid)
         == Unjournaled(s, pid) + SellDelta(s, Reconcile(key, action), pid)
  {
    hide Journaled;
    if ReconcileFill(s, key, action).Success? && action.BindPosition? {
      ApplyRealizes(s.positions[action.target], RowOfFill(s.fills[FindFill(s.fills, key).value], action.target));
    }
  }

  lemma ReduceRealizes(
    s: Books, owner: PositionId, price: real, quantity: Option<real>, stop: Option<real>, ts: int, n: nat,
    pid: PositionId)
    requires Safe(s) && SizedRight(quantity)
    requires ReducePosition(s, owner, price, quantity, stop, ts, n).Success?
    ensures Unjournaled(ReducePosition(s, owner, price, quantity, stop, ts, n).value, pid) == Unjournaled(s, pid)
  {
    hide Journaled;
    var p := s.positions[owner];
    GridAddRounded(p.realizedPnl.GetOr(0.0), NetGain(p.entryPrice.value, price, quantity.value, 0.0));
    TradeAppend(s.trades, ExitTrade(TrimOf(owner, n), owner, p, price, quantity.value, ts), pid);
  }

  lemma CloseRealizes(s: Books, owner: PositionId, price: real, quantity: Option<real>, ts: int, pid: PositionId)
    requires Safe(s) && ClosePosition(s, owner, price, quantity, ts).Success?
    ensures Unjournaled(ClosePosition(s, owner, price, quantity, ts).value, pid) == Unjournaled(s, pid)
  {
    hide Journaled;
    var p := s.positions[owner];
    GridAddRounded(p.realizedPnl.GetOr(0.0), NetGain(p.entryPrice.value, price, p.quantity.value, 0.0));
    TradeAppend(s.trades, ExitTrade(CloseOf(owner), owner, p, price, p.quantity.value, ts), pid);
  }

  lemma StepRealizes(s: Books, step: Step, pid: PositionId)
    requires Safe(s) && ValidInput(step)
    ensures Unjournaled(After(s, step), pid)
         == Unjournaled(s, pid) + SellDelta(s, step, pid) + Initial(s, step, pid)
  {
    hide Journaled;
    match step
    case Import(row) => ImportRealizes(s, row, pid);
    case Reconcile(key, action) => ReconcileRealizes(s, key, action, pid);
    case Reduce(owner, price, quantity, stop, ts, n) =>
      if Next(s, step).Success? { ReduceRealizes(s, owner, price, quantity, stop, ts, n, pid); }
    case Close(owner, price, quantity, ts) =>
      if Next(s, step).Success? { CloseRealizes(s, owner, price, quantity, ts, pid); }
    case _ =>
  }

  function SellDeltas(steps: seq<Step>, pid: PositionId): real {
    if steps == [] then 0.0
    else
      var before := steps[..|steps| - 1];
      SellDeltas(before, pid) + SellDelta(Run(EMPTY, before), steps[|steps| - 1], pid)
  }

  function Initials(steps: seq<Step>, pid: PositionId): real {
    if steps == [] then 0.0
    else
      var before := steps[..|steps| - 1];
      Initials(before, pid) + Initial(Run(EMPTY, before), steps[|steps| - 1], pid)
  }

  /** Over any valid run the stored realized PnL is exactly what the position started with,
      plus its journal net PnL, plus what its sell fills booked. */
  lemma {:induction false} RealizedIsConserved(steps: seq<Step>, pid: PositionId)
    requires ValidRun(steps)
    ensures var s := Run(EMPTY, steps);
      Realized(s, pid) == Initials(steps, pid) + Journaled(s.trades, pid) + SellDeltas(steps, pid)
  {
    if steps != [] {
      var before := steps[..|steps| - 1];
      RealizedIsConserved(before, pid);
      RunSafe(before);
      StepRealizes(Run(EMPTY, before), steps[|steps| - 1], pid);
    }
  }
}
