/** What risk figures mean: the loss at the stop, its share of the account, and how the live
    positions make up a portfolio. */
module RiskMeaning {
  import opened Numbers
  import opened Records
  import opened Rounding
  import opened Wrappers
  import opened Totals
  import opened Ledger
  import opened LedgerSafety
  import opened PortfolioRisk

  /** A stop of zero counts as none. */
  function StopInForce(p: Position): Option<real> {
    match p.currentStop
    case Some(stop) => if stop == 0.0 then p.initialStop else p.currentStop
    case None => p.initialStop
  }

  /** What the shares lose from the entry down to the stop. */
  predicate IsRisk(risk: Option<real>, entry: Option<real>, stop: Option<real>, quantity: Option<real>) {
    && (risk.Some? <==> entry.Some? && stop.Some? && quantity.Some? && stop.value < entry.value)
    && (risk.Some? && quantity.value >= 0.0 ==>
          var loss := Times(entry.value - stop.value, quantity.value);
          loss - Times(HALF_MICRO, quantity.value) - HALF_MICRO <= risk.value
            <= loss + Times(HALF_MICRO, quantity.value) + HALF_MICRO)
  }

  /** A share of the account. */
  predicate IsShare(share: real, amount: real, t: Settings) {
    amount - Times(HALF_MICRO, t.accountEquity) <= Times(share, t.accountEquity)
      <= amount + Times(HALF_MICRO, t.accountEquity)
  }

  lemma ShareIs(amount: real, t: Settings)
    requires t.accountEquity > 0.0
    ensures IsShare(Round6(amount / t.accountEquity), amount, t)
  {
    var exact := amount / t.accountEquity;
    assert exact * t.accountEquity == amount;
    ProductNonNegative(Round6(exact) - exact + HALF_MICRO, t.accountEquity);
    ProductNonNegative(exact + HALF_MICRO - Round6(exact), t.accountEquity);
  }

  lemma ScaledRisk(rounded: real, exact: real, quantity: real)
    requires Near(rounded, exact, 1) && quantity >= 0.0
    ensures Times(exact, quantity) - Times(HALF_MICRO, quantity) <= Times(rounded, quantity)
      <= Times(exact, quantity) + Times(HALF_MICRO, quantity)
  {
    ProductNonNegative(rounded - exact + HALF_MICRO, quantity);
    ProductNonNegative(exact + HALF_MICRO - rounded, quantity);
  }

  lemma RiskIs(entry: Option<real>, stop: Option<real>, quantity: Option<real>)
    ensures IsRisk(RiskAmount(entry, stop, quantity), entry, stop, quantity)
  {
    if RiskAmount(entry, stop, quantity).Some? && quantity.value >= 0.0 {
      ScaledRisk(Round6(entry.value - stop.value), entry.value - stop.value, quantity.value);
    }
    hide Times;
  }

  /** The item of a position: its own levels and quantity, its risk and the risk's share. */
  lemma ItemTells(p: Position, t: Settings)
    requires t.accountEquity > 0.0
    ensures var item := ItemOf(p, t);
      && item.symbol == p.symbol && item.status == p.status && item.entryPrice == p.entryPrice
      && item.stopPrice == StopInForce(p) && item.quantity == p.quantity
      && IsRisk(item.riskAmount, p.entryPrice, StopInForce(p), p.quantity)
      && (item.riskPct.Some? <==> item.riskAmount.Some?)
      && (item.riskPct.Some? ==> IsShare(item.riskPct.value, item.riskAmount.value, t))
  {
    RiskIs(p.entryPrice, StopInForce(p), p.quantity);
    var risk := RiskAmount(p.entryPrice, StopInForce(p), p.quantity);
    if risk.Some? {
      ShareIs(risk.value, t);
    }
    hide RiskAmount;
    hide IsRisk;
    hide IsShare;
    hide Round6;
  }

  /** The portfolio counts the planned, open and reduced positions, each once. */
  lemma PortfolioTells(positions: map<PositionId, Position>, t: Settings)
    requires t.accountEquity > 0.0
    ensures var items := Items(positions, t);
      && (forall pid :: pid in items <==> pid in positions && positions[pid].status in {Planned, Open, Reduced})
      && (forall pid :: pid in items ==> items[pid] == ItemOf(positions[pid], t))
  {
    hide ItemOf;
  }

  /** A bucket of a symbol: the risk and number of its items. */
  ghost predicate BucketTells(bucket: Bucket, own: map<PositionId, Item>, t: Settings) {
    bucket.riskAmount == Total(Risks(own)) && bucket.count == |own| && IsShare(bucket.riskPct, bucket.riskAmount, t)
  }

  lemma BucketIs(items: map<PositionId, Item>, symbol: string, t: Settings)
    requires t.accountEquity > 0.0 && GridRisks(items)
    ensures BucketTells(ToBucket(TallyOf(items, symbol), t), WithSymbol(items, symbol), t)
  {
    var own := WithSymbol(items, symbol);
    TotalIsExact(own);
    ShareIs(Total(Risks(own)), t);
    hide Round6;
    hide IsShare;
  }

  /** The parts of a summary, by status and by symbol. */
  lemma PartsTell(items: map<PositionId, Item>, t: Settings)
    requires t.accountEquity > 0.0 && GridRisks(items)
    ensures var summary := Summarized(items, t);
      && summary.plannedRisk == Total(Risks(WithStatus(items, Planned)))
      && summary.openRisk == Total(Risks(WithStatus(items, Open)))
      && summary.reducedRisk == Total(Risks(WithStatus(items, Reduced)))
      && summary.bySymbol.Keys == Symbols(items)
      && (forall symbol :: symbol in summary.bySymbol ==>
            BucketTells(summary.bySymbol[symbol], WithSymbol(items, symbol), t))
  {
    hide Round6;
    hide OnGrid;
    hide BucketTells;
    hide TallyOf;
    hide ToBucket;
    hide BudgetNotices;
    TotalIsExact(WithStatus(items, Planned));
    TotalIsExact(WithStatus(items, Open));
    TotalIsExact(WithStatus(items, Reduced));
    forall symbol | symbol in Symbols(items) {
      BucketIs(items, symbol, t);
    }
    hide GridRisks;
    hide Risks;
    hide Times;
  }

  /** The figures of a summary: the exact sum of the items' risks, the budget, and what is left. */
  lemma SummaryTells(items: map<PositionId, Item>, t: Settings)
    requires t.accountEquity > 0.0 && GridRisks(items)
    ensures var summary := Summarized(items, t);
      && summary.activeCount == |items| && summary.items == items
      && summary.totalRisk == Total(Risks(items))
      && IsShare(summary.totalRiskPct, summary.totalRisk, t)
      && Near(summary.maxTotalRisk, Times(t.maxTotalRiskPct, t.accountEquity), 1)
      && summary.remainingRisk == summary.maxTotalRisk - summary.totalRisk
      && IsShare(summary.remainingRiskPct, summary.remainingRisk, t)
  {
    hide IsShare;
    hide OnGrid;
    hide BudgetNotices;
    hide Buckets;
    hide WithStatus;
    hide GridRisks;
    var summary := Summarized(items, t);
    SummaryFigures(items, t);
    TotalIsExact(items);
    ShareIs(summary.totalRisk, t);
    GridSubExact(summary.maxTotalRisk, summary.totalRisk);
    ShareIs(summary.remainingRisk, t);
    assert Times(t.accountEquity, t.maxTotalRiskPct) == Times(t.maxTotalRiskPct, t.accountEquity);
    hide Times;
    hide RoundHalfEven;
  }

  // ----- the loss at the stop

  lemma RiskOnTheGrid(entry: real, stop: real, quantity: real)
    requires OnGrid(entry) && OnGrid(stop) && stop < entry
    ensures RiskAmount(Some(entry), Some(stop), Some(quantity)) == Some(-PositionPnl(entry, stop, quantity))
  {
    GridSubExact(entry, stop);
    RoundHalfEvenOdd(Times(entry - stop, quantity) * 1000000.0);
    assert NetGain(entry, stop, quantity, 0.0) == -Times(entry - stop, quantity);
    assert NetGain(entry, stop, quantity, 0.0) * 1000000.0 == -(Times(entry - stop, quantity) * 1000000.0);
    hide RoundHalfEven;
  }

  /** The risk shown for a position is what closing it at its stop loses, to the last unit,
      for entry and stop in stored units. */
  lemma RiskIsLossAtStop(s: Books, pid: PositionId, ts: int, t: Settings)
    requires Safe(s) && t.accountEquity > 0.0 && pid in s.positions && s.positions[pid].status in {Open, Reduced}
    requires var p := s.positions[pid];
      StopInForce(p).Some? && OnGrid(StopInForce(p).value) && OnGrid(p.entryPrice.GetOr(0.0))
      && (p.entryPrice.Some? ==> StopInForce(p).value < p.entryPrice.value)
    ensures var p := s.positions[pid];
      var closed := Next(s, Close(pid, StopInForce(p).value, None, ts));
      closed.Success? ==>
        && |closed.value.trades| == |s.trades| + 1
        && var pnl := closed.value.trades[|s.trades|].netPnl;
           pnl.Some? && ItemOf(p, t).riskAmount == Some(-pnl.value)
  {
    var p := s.positions[pid];
    assert SafePosition(p);
    RiskOnTheGrid(p.entryPrice.value, StopInForce(p).value, p.quantity.value);
    hide RiskAmount;
    hide PositionPnl;
    hide OnGrid;
    hide Round6;
  }
}
