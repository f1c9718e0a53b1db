/** Which position an imported row reaches, and what the stored fill says about it. */
module ImportRouting {
  import opened Numbers
  import opened Records
  import opened Rounding
  import opened Wrappers
  import opened Ledger
  import opened LedgerSafety
  import opened ImportProtocol

  /** The position may take an unnamed row of the symbol: it is planned, open or reduced. */
  predicate Takes(s: Books, pid: PositionId, symbol: string) {
    && pid in s.positions && s.positions[pid].symbol == symbol
    && s.positions[pid].status in {Planned, Open, Reduced}
  }

  ghost predicate TakenByOne(s: Books, pid: PositionId, symbol: string) {
    Takes(s, pid, symbol) && forall q :: Takes(s, q, symbol) ==> q == pid
  }

  /** What the row's execution moves in cash: a buy costs its fees on top, a sell pays them. */
  function CashOf(row: RowData): real {
    if row.side.Buy? then Times(row.price, row.quantity) + row.fees else Times(row.price, row.quantity) - row.fees
  }

  /** The fill records the execution as the row gives it, under a position and a decision. */
  predicate Executes(f: Fill, row: RowData, pid: PositionId, reconciliation: Reconciliation) {
    && f.key == row.key && f.symbol == row.symbol && f.side == row.side && f.executedAt == row.executedAt
    && f.quantity == row.quantity && f.price == row.price && f.fees == row.fees
    && f.positionId == pid && f.active && f.reconciliation == reconciliation
    && Near(f.grossAmount, Times(row.price, row.quantity), 1) && Near(f.netAmount, CashOf(row), 2)
  }

  /** The row is applied to the position: it raises what the symbol check, the status or the
      application raises, or leaves the changed position and one matched fill. */
  predicate AppliedTo(s: Books, row: Row, pid: PositionId) {
    pid in s.positions &&
    var p := s.positions[pid];
    match Next(s, Import(row))
    case Failure(e) =>
      || (e == SymbolMismatch && Upper(p.symbol) != row.symbol)
      || (e == PositionNotActive && Upper(p.symbol) == row.symbol && Terminal(p.status))
      || (Upper(p.symbol) == row.symbol && !Terminal(p.status) && ApplyFill(p, row) == Failure(e))
    case Success(s') =>
      && Upper(p.symbol) == row.symbol && !Terminal(p.status)
      && ApplyFill(p, row).Success?
      && s'.positions == s.positions[pid := ApplyFill(p, row).value]
      && s'.trades == s.trades
      && |s'.fills| == |s.fills| + 1 && s'.fills[..|s.fills|] == s.fills
      && Executes(s'.fills[|s.fills|], row, pid, Matched)
  }

  /** A new position stands for the row alone, awaiting review; nothing else changes. */
  predicate PutUnderReview(s: Books, row: Row) {
    var pid := ReviewOf(row.key);
    match Next(s, Import(row))
    case Failure(_) => false
    case Success(s') =>
      && pid !in s.positions && s'.positions.Keys == s.positions.Keys + {pid}
      && (forall q :: q in s.positions ==> s'.positions[q] == s.positions[q])
      && (var p := s'.positions[pid];
          && p.symbol == row.symbol && p.status.ReviewNeeded? && p.quantity == Some(row.quantity)
          && p.entryPrice == (if row.side.Buy? then Some(row.price) else None)
          && p.entryDate == (if row.side.Buy? then Some(row.executedAt) else None)
          && p.initialStop.None? && p.currentStop.None?
          && p.realizedPnl == Some(0.0) && p.unrealizedPnl == Some(0.0))
      && s'.trades == s.trades
      && |s'.fills| == |s.fills| + 1 && s'.fills[..|s.fills|] == s.fills
      && Executes(s'.fills[|s.fills|], row, pid, ReviewRequired)
  }

  lemma NoFillNoReview(s: Books, key: nat)
    requires ReviewsHaveFills(s) && !HasFill(s.fills, key)
    ensures ReviewOf(key) !in s.positions
  {
  }

  /** The one position that takes the symbol is the only match. */
  lemma OneTaker(s: Books, row: Row, pid: PositionId)
    requires row.positionId.None? && TakenByOne(s, pid, row.symbol)
    ensures ResolvePosition(s.positions, row) == Some(pid)
  {
    var matches := SymbolMatches(s.positions, row.symbol);
    assert pid in matches;
    forall q
      ensures q in matches <==> q == pid
    {
      assert q in matches <==> Takes(s, q, row.symbol);
    }
    assert matches == {pid};
  }

  lemma NoTaker(s: Books, row: Row)
    requires row.positionId.None? && forall pid :: !TakenByOne(s, pid, row.symbol)
    ensures ResolvePosition(s.positions, row).None?
  {
    var matches := SymbolMatches(s.positions, row.symbol);
    forall pid | pid in matches
      ensures matches != {pid}
    {
      assert Takes(s, pid, row.symbol) && !TakenByOne(s, pid, row.symbol);
      var q :| Takes(s, q, row.symbol) && q != pid;
      assert q in matches;
    }
  }

  /** An unnamed new row is applied to a position of its symbol if exactly one is planned, open
      or reduced; if there is none, or more than one, it is put under review. */
  lemma UnnamedRowIsRouted(s: Books, row: Row)
    requires ReviewsHaveFills(s) && row.positionId.None? && !HasFill(s.fills, row.key)
    ensures forall pid :: TakenByOne(s, pid, row.symbol) ==> AppliedTo(s, row, pid)
    ensures (forall pid :: !TakenByOne(s, pid, row.symbol)) ==> PutUnderReview(s, row)
  {
    hide ApplyFill;
    hide TakenByOne;
    NoFillNoReview(s, row.key);
    forall pid | TakenByOne(s, pid, row.symbol)
      ensures AppliedTo(s, row, pid)
    {
      OneTaker(s, row, pid);
      ResolvedIsApplied(s, row, pid);
    }
    if forall pid :: !TakenByOne(s, pid, row.symbol) {
      NoTaker(s, row);
    }
  }

  lemma ResolvedIsApplied(s: Books, row: Row, pid: PositionId)
    requires ResolvePosition(s.positions, row) == Some(pid) && !HasFill(s.fills, row.key)
    ensures AppliedTo(s, row, pid)
  {
    hide ApplyFill;
    hide ResolvePosition;
  }

  /** A named new row is applied to the position it names, or finds none and changes nothing;
      a row whose key is stored is skipped. */
  lemma NamedRowIsRouted(s: Books, row: Row, pid: PositionId)
    requires row.positionId == Some(pid)
    ensures HasFill(s.fills, row.key) ==> Next(s, Import(row)) == Success(s)
    ensures !HasFill(s.fills, row.key) && pid in s.positions ==> AppliedTo(s, row, pid)
    ensures !HasFill(s.fills, row.key) && pid !in s.positions ==> Next(s, Import(row)) == Failure(PositionNotFound)
  {
    hide ApplyFill;
    if !HasFill(s.fills, row.key) && pid in s.positions {
      ResolvedIsApplied(s, row, pid);
    }
  }

  // ----- what applying a row does to the position

  /** At this price the shares cost the amount, up to the rounding of the price. */
  predicate Costs(price: real, shares: real, amount: real) {
    amount - Times(HALF_MICRO, shares) <= Times(price, shares) <= amount + Times(HALF_MICRO, shares)
  }

  /** A buy on a sound position opens it: it adds its shares, keeps the entry date once set,
      and puts the entry price where the cost of all shares is that of the old ones at their
      entry price, if that is not zero, and of the new ones at theirs. */
  lemma BuyIsApplied(p: Position, row: Row)
    requires SafePosition(p) && row.side.Buy?
    ensures var held := if p.status.Planned? then 0.0 else p.quantity.GetOr(0.0);
      var cost := if p.entryPrice.Some? && p.entryPrice.value != 0.0 then p.entryPrice.value else row.price;
      var r := ApplyFill(p, row);
      && r.Success?
      && var p' := r.value;
         && p'.entryPrice.Some? && p'.quantity == Some(held + row.quantity)
         && Costs(p'.entryPrice.value, held + row.quantity, Times(cost, held) + Times(row.price, row.quantity))
         && p'.entryDate == (if p.entryDate.Some? then p.entryDate else Some(row.executedAt))
         && p' == p.(entryPrice := p'.entryPrice, entryDate := p'.entryDate, quantity := p'.quantity, status := Open)
  {
    NeverDividesByZero(p, row);
    BuySafe(p, row);
    var held := if p.status.Planned? then 0.0 else p.quantity.GetOr(0.0);
    MeanCosts(held, OrElse(p.entryPrice, row.price), row.quantity, row.price);
  }

  lemma MeanCosts(held: real, cost: real, quantity: real, price: real)
    requires held >= 0.0 && quantity > 0.0
    ensures Costs(Round6(MeanPrice(held, cost, quantity, price, held + quantity)), held + quantity,
                  Times(cost, held) + Times(price, quantity))
  {
    var total := held + quantity;
    var mean := MeanPrice(held, cost, quantity, price, total);
    assert mean * total == held * cost + quantity * price;
    ScaledError(Round6(mean), mean, total);
  }

  lemma ScaledError(x: real, y: real, k: real)
    requires Near(x, y, 1) && k >= 0.0
    ensures Times(y, k) - Times(HALF_MICRO, k) <= Times(x, k) <= Times(y, k) + Times(HALF_MICRO, k)
  {
    ProductNonNegative(x - y + HALF_MICRO, k);
    ProductNonNegative(y + HALF_MICRO - x, k);
  }

  /** A sell takes its shares from a priced position that holds as many, closes it when none
      are left, and earns its cash less the cost at the entry price; otherwise it raises. */
  lemma SellIsApplied(p: Position, row: Row)
    requires SafePosition(p) && row.side.Sell?
    ensures match ApplyFill(p, row)
      case Failure(e) =>
        || (e == SellOnPlanned && p.status.Planned?)
        || (e == MissingEntryData && !p.status.Planned? && (p.entryPrice.None? || p.quantity.None?))
        || (e == SellExceedsQuantity && !p.status.Planned? && p.entryPrice.Some? && p.quantity.Some?
            && row.quantity > p.quantity.value)
      case Success(p') =>
        && !p.status.Planned? && p.entryPrice.Some? && p.quantity.Some? && row.quantity <= p.quantity.value
        && p'.quantity == Some(p.quantity.value - row.quantity)
        && p'.status == (if p'.quantity == Some(0.0) then Closed else Reduced)
        && p'.realizedPnl.Some?
        && Near(p'.realizedPnl.value - p.realizedPnl.GetOr(0.0),
                CashOf(row) - Times(p.entryPrice.value, row.quantity), 1)
        && p' == p.(realizedPnl := p'.realizedPnl, quantity := p'.quantity, status := p'.status)
  {
    if ApplyFill(p, row).Success? {
      SellSafe(p, row);
      GridAddRounded(p.realizedPnl.GetOr(0.0), NetGain(p.entryPrice.value, row.price, row.quantity, row.fees));
      GainIsCash(p.entryPrice.value, row);
    }
  }

  lemma GainIsCash(entry: real, row: RowData)
    requires row.side.Sell?
    ensures NetGain(entry, row.price, row.quantity, row.fees) == CashOf(row) - Times(entry, row.quantity)
  {
  }

  // ----- binding late is importing with a name

  lemma NamedIsResolved(s: Books, row: Row, pid: PositionId)
    requires row.positionId == Some(pid) && pid in s.positions
    ensures ResolvePosition(s.positions, row) == Some(pid)
  {
  }

  lemma FillOfNamed(row: Row, target: PositionId)
    ensures FillOfRow(row.(positionId := Some(target)), target, Matched)
         == FillOfRow(row, ReviewOf(row.key), ReviewRequired).(positionId := target, reconciliation := Matched)
  {
    hide Round6;
    var named: Row := row.(positionId := Some(target));
    assert named.quantity == row.quantity;
  }

  /** Binding the fill of a row under review leaves the target, and every other position, as
      importing the row with the target's name would have; only the decision on the fill
      differs, and the review position that is left over is cancelled and empty. */
  lemma BindIsImport(s: Books, row: Row, target: PositionId)
    requires ReviewsHaveFills(s) && !HasFill(s.fills, row.key) && PutUnderReview(s, row)
    requires target in s.positions && s.positions[target].status in {Planned, Open, Reduced}
    requires Upper(row.symbol) == row.symbol
    ensures var named: Row := row.(positionId := Some(target));
      var reviewed, direct := After(s, Import(row)), Next(s, Import(named));
      var bound, review := Next(reviewed, Reconcile(row.key, BindPosition(target))), ReviewOf(row.key);
      && (bound.Success? <==> direct.Success?)
      && (bound.Success? ==>
            && review in bound.value.positions
            && bound.value.positions - {review} == direct.value.positions
            && bound.value.positions[review].status.Cancelled?
            && bound.value.positions[review].quantity == Some(0.0)
            && bound.value.trades == direct.value.trades
            && (var n := |s.fills|;
                && |bound.value.fills| == |direct.value.fills| == n + 1
                && bound.value.fills[..n] == direct.value.fills[..n]
                && bound.value.fills[n] == direct.value.fills[n].(reconciliation := Bound)))
  {
    hide ApplyFill;
    hide Round6;
    hide Upper;
    hide ResolvePosition;
    var reviewed, named: Row := After(s, Import(row)), row.(positionId := Some(target));
    var review, f := ReviewOf(row.key), FillOfRow(row, ReviewOf(row.key), ReviewRequired);
    assert ResolvePosition(s.positions, row).None?;
    assert ResolvePosition(s.positions, named) == Some(target) by {
      NamedIsResolved(s, named, target);
    }
    assert reviewed.fills == s.fills + [f];
    assert FindFill(reviewed.fills, row.key) == Some(|s.fills|);
    assert RowOfFill(f, target) == named;
    FillOfNamed(row, target);
    assert reviewed.positions[target] == s.positions[target];
  }

  // ----- symbols are compared in capitals

  /** Capitals differ from the text only where it has small letters, each by its place in the
      alphabet; what has none is its own capitals. */
  lemma CapitalsTell(s: string)
    ensures |Upper(s)| == |s|
    ensures forall i :: 0 <= i < |s| ==>
      if 'a' <= s[i] <= 'z' then
        'A' <= Upper(s)[i] <= 'Z' && Upper(s)[i] as int - 'A' as int == s[i] as int - 'a' as int
      else Upper(s)[i] == s[i]
    ensures Upper(Upper(s)) == Upper(s)
  {
  }
}
