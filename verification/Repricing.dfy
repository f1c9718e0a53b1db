/** When the realized past can be repriced: a sell that met an empty replay is priced at its
    position's stored entry, and any later buy moves that. */
module Repricing {
  import opened Numbers
  import opened Records
  import opened Rounding
  import opened Wrappers
  import opened Totals
  import opened Ledger
  import opened LedgerSafety
  import opened ImportProtocol
  import opened CostReplay
  import opened CashConservation
  import opened RealizedPnl
  import opened OpenPositions
  import opened Equity
  import opened StoredPosition
  import opened RealizedPast
  import opened EquityRun

  // ----- a dear enough entry lowers every leg it prices

  function Magnitude(x: real): real {
    if x >= 0.0 then x else -x
  }

  /** An entry price at which the fill's leg is a loss of at least one. */
  function Dearness(f: Fill): real {
    f.price + (Magnitude(f.fees) + 1.0) * 1000000.0
  }

  function Dearest(order: seq<Fill>): real {
    if order == [] then 0.0 else Max(Dearest(order[..|order| - 1]), Dearness(order[|order| - 1]))
  }

  /** What a million times m amounts to on at least one unit. */
  lemma ScaledBack(x: real, quantity: real, m: real)
    requires x >= m * 1000000.0 && m >= 0.0 && quantity >= 0.000001
    ensures Times(x, quantity) >= m
  {
    var spare, units := x - m * 1000000.0, quantity * 1000000.0 - 1.0;
    ProductNonNegative(spare, quantity);
    ProductNonNegative(m, units);
    assert x * quantity == spare * quantity + m * units + m;
  }

  lemma GainFromCost(cost: real, price: real, quantity: real, fees: real)
    ensures Gain(cost, price, quantity, fees, 0.0) == -Times(cost - price, quantity) - fees
  {
  }

  lemma TimesSplits(k: real, cost: real, price: real, quantity: real)
    ensures Times(k - price, quantity) == Times(k - cost, quantity) + Times(cost - price, quantity)
  {
  }

  lemma LossAtDearEntry(cost: real, k: real, price: real, quantity: real, fees: real)
    requires quantity >= 0.000001 && k >= cost + 2000000.0
    ensures Gain(k, price, quantity, fees, 0.0) <= Gain(cost, price, quantity, fees, 0.0) - 2.0
  {
    hide Gain;
    hide Times;
    GainFromCost(k, price, quantity, fees);
    GainFromCost(cost, price, quantity, fees);
    TimesSplits(k, cost, price, quantity);
    ScaledBack(k - cost, quantity, 2.0);
  }

  lemma LossAtDearness(f: Fill, k: real)
    requires f.quantity >= 0.000001 && k >= Dearness(f)
    ensures Gain(k, f.price, f.quantity, f.fees, 0.0) <= -1.0
  {
    hide Gain;
    hide Times;
    GainFromCost(k, f.price, f.quantity, f.fees);
    ScaledBack(k - f.price, f.quantity, Magnitude(f.fees) + 1.0);
  }

  lemma DearerLeg(st: CostState, f: Fill, p: Position, p': Position, k: real)
    requires st.quantity == 0.0 && f.quantity > 0.0 && OnGrid(f.quantity)
    requires p'.entryPrice == Some(k) && k >= Dearness(f)
    requires p.entryPrice.Some? ==> k >= p.entryPrice.value + 2000000.0
    ensures PnlOf(LegOf(st, f, p')) < PnlOf(LegOf(st, f, p))
  {
    GridPositive(f.quantity);
    LossAtDearness(f, k);
    if p.entryPrice.Some? {
      LossAtDearEntry(p.entryPrice.value, k, f.price, f.quantity, f.fees);
    }
    hide Gain;
    hide OnGrid;
    hide Dearness;
  }

  ghost predicate SoundFills(order: seq<Fill>, reported: set<nat>) {
    forall i :: 0 <= i < |order| ==>
      order[i].quantity > 0.0 && OnGrid(order[i].quantity) && (order[i].side.Sell? ==> order[i].key in reported)
  }

  /** Repricing the position lowers the sum of its legs if any of them is priced by it. */
  lemma {:induction false} RepricedSum(order: seq<Fill>, reported: set<nat>, p: Position, p': Position, k: real)
    requires SoundFills(order, reported) && p'.entryPrice == Some(k) && k >= Dearest(order)
    requires p.entryPrice.Some? ==> k >= p.entryPrice.value + 2000000.0
    ensures SumPnl(LegsOf(order, reported, p')) <= SumPnl(LegsOf(order, reported, p))
    ensures !Stocked(order) ==> SumPnl(LegsOf(order, reported, p')) < SumPnl(LegsOf(order, reported, p))
  {
    if order != [] {
      var before, f := order[..|order| - 1], order[|order| - 1];
      assert forall i :: 0 <= i < |before| ==> before[i] == order[i];
      RepricedSum(before, reported, p, p', k);
      LegsAfter(order, reported, p);
      LegsAfter(order, reported, p');
      if f.side.Sell? && Replay(before).quantity == 0.0 {
        DearerLeg(Replay(before), f, p, p', k);
      }
    }
  }

  // ----- a buy that makes the entry that dear

  lemma {:induction false} FreshKey(fills: seq<Fill>) returns (key: nat)
    ensures forall i :: 0 <= i < |fills| ==> fills[i].key < key
  {
    key := 0;
    if fills != [] {
      var rest := FreshKey(fills[..|fills| - 1]);
      key := if fills[|fills| - 1].key >= rest then fills[|fills| - 1].key + 1 else rest;
    }
  }

  /** The price of one share that lifts the mean to k. */
  function LiftPrice(held: real, entry: Option<real>, k: real): real {
    if entry.None? || entry.value == 0.0 then k else k * (held + 1.0) - held * entry.value
  }

  lemma LiftsTheMean(held: real, entry: Option<real>, k: real)
    requires held >= 0.0 && k > 0.0 && (entry.Some? ==> k >= entry.value)
    ensures LiftPrice(held, entry, k) > 0.0
    ensures var price := LiftPrice(held, entry, k);
      MeanPrice(held, OrElse(entry, price), 1.0, price, held + 1.0) == k
  {
    var price := LiftPrice(held, entry, k);
    var cost := OrElse(entry, price);
    if entry.Some? && entry.value != 0.0 {
      ProductNonNegative(held, k - entry.value);
      assert price == held * (k - entry.value) + k;
    }
    assert held * cost + 1.0 * price == k * (held + 1.0);
    BackFromProduct(k, held + 1.0);
  }

  lemma BackFromProduct(k: real, total: real)
    requires total > 0.0
    ensures (k * total) / total == k
  {
  }

  function LiftRow(p: Position, pid: PositionId, key: nat, ts: int, k: real): RowData {
    RowData(key, Upper(p.symbol), Buy, 1.0, LiftPrice(HeldBefore(p), p.entryPrice, k), 0.0, ts, Some(pid))
  }

  lemma OneIsOnGrid()
    ensures OnGrid(1.0)
  {
  }

  /** A buy naming a position that is not finished sets its entry price to any dear value. */
  lemma LiftedEntry(s: Books, pid: PositionId, key: nat, ts: int, k: real)
    requires Safe(s) && pid in s.positions && !Terminal(s.positions[pid].status) && !HasFill(s.fills, key)
    requires k > 0.0 && (s.positions[pid].entryPrice.Some? ==> k >= s.positions[pid].entryPrice.value)
    ensures var row := LiftRow(s.positions[pid], pid, key, ts, k);
      && WellFormedRow(row)
      && var s' := After(s, Import(row));
         && s'.positions.Keys == s.positions.Keys
         && s'.positions[pid].entryPrice == Some(Round6(k))
         && forall q :: q in s.positions && q != pid ==> s'.positions[q] == s.positions[q]
  {
    var p := s.positions[pid];
    var row := LiftRow(p, pid, key, ts, k);
    OneIsOnGrid();
    LiftsTheMean(HeldBefore(p), p.entryPrice, k);
    NeverDividesByZero(p, row);
    BoughtEntry(p, row);
  }

  // ----- and the equity shows it

  /** An entry price dear for all fills of a position's past. */
  ghost function DearEntry(s: Books, past: int, pid: PositionId): real
    requires pid in s.positions
  {
    Magnitude(Dearest(PastOrder(s, past, pid))) + Magnitude(s.positions[pid].entryPrice.GetOr(0.0)) + 2000001.0
  }

  lemma PastIsSound(s: Books, past: int, pid: PositionId)
    requires Safe(s)
    ensures SoundFills(PastOrder(s, past, pid), ReportedSells(Report(s.fills, None, past)))
  {
    var report, basis := Report(s.fills, None, past), Until(s.fills, past);
    UntilMembers(s.fills, past);
    FromMembers(basis, None);
    UniqueIsConsistent(s.fills);
    var all, order := basis + report, PastOrder(s, past, pid);
    assert forall f :: f in all ==> f in s.fills;
    KeptMembers(all, pid);
    forall i | 0 <= i < |order|
      ensures order[i].quantity > 0.0 && OnGrid(order[i].quantity)
      ensures order[i].side.Sell? ==> order[i].key in ReportedSells(report)
    {
      assert order[i] in order;
      assert order[i] in report;
      var j :| 0 <= j < |s.fills| && s.fills[j] == order[i];
      assert SafeFill(s.fills[j]);
    }
  }

  /** Lifting the entry price of an unfinished position lowers its realized past if one of
      its sells met an empty replay. */
  lemma LiftLowersThePast(s: Books, s': Books, past: int, pid: PositionId, k: real)
    requires Safe(s) && Owned(s) && SamePast(s, s', past) && pid in s.positions && !Stocked(PastOrder(s, past, pid))
    requires s'.positions.Keys == s.positions.Keys && s'.positions[pid].entryPrice == Some(k)
    requires k >= Dearest(PastOrder(s, past, pid))
    requires s.positions[pid].entryPrice.Some? ==> k >= s.positions[pid].entryPrice.value + 2000000.0
    requires forall q :: q in s.positions && q != pid ==> s'.positions[q] == s.positions[q]
    ensures RealizedUntil(s'.fills, s'.trades, s'.positions, past) < RealizedUntil(s.fills, s.trades, s.positions, past)
  {
    var key, none: map<EventKey, real> := OfPosition(pid), map[];
    PositionPnlDrops(s, s', past, pid, k);
    hide PastPnl;
    hide PastOrder;
    hide Owned;
    hide SamePast;
    hide Safe;
    var before, after := PastPnl(s, past) - {key}, PastPnl(s', past) - {key};
    forall other
      ensures At(after, other) == At(before, other) + At(none, other)
    {
      if other != key {
        PastPnlStays(s, s', past, other);
      }
    }
    TotalAdds(after, before, none);
    TotalRemove(PastPnl(s, past), key);
    TotalRemove(PastPnl(s', past), key);
    RealizedIsTotal(s, past);
    RealizedIsTotal(s', past);
  }

  lemma PositionPnlDrops(s: Books, s': Books, past: int, pid: PositionId, k: real)
    requires Safe(s) && SamePast(s, s', past) && pid in s.positions && !Stocked(PastOrder(s, past, pid))
    requires pid in s'.positions && s'.positions[pid].entryPrice == Some(k)
    requires k >= Dearest(PastOrder(s, past, pid))
    requires s.positions[pid].entryPrice.Some? ==> k >= s.positions[pid].entryPrice.value + 2000000.0
    ensures At(PastPnl(s', past), OfPosition(pid)) < At(PastPnl(s, past), OfPosition(pid))
  {
    hide LegsOf;
    hide Stocked;
    hide JournalLegs;
    hide LegsByKey;
    hide PnlByKey;
    hide Until;
    var report, basis, journal := Report(s.fills, None, past), Until(s.fills, past), TradesWithin(s.trades, None, past);
    SameReport(s, s', past);
    PastIsSound(s, past, pid);
    RepricedSum(PastOrder(s, past, pid), ReportedSells(report), s.positions[pid], s'.positions[pid], k);
    EventIsSumOfLegs(report, basis, journal, s.positions, OfPosition(pid));
    EventIsSumOfLegs(report, basis, journal, s'.positions, OfPosition(pid));
  }

  // ----- the exact condition

  /** On the ledger the equity of a full computation differs as soon as the realized past does. */
  lemma PastShows(
    soFar: seq<Step>, later: seq<Step>, accountEquity: Option<real>, past: int, closes: map<string, real>)
    requires ValidRun(soFar + later) && OnGrid(OrElse(accountEquity, DEFAULT_ACCOUNT_EQUITY)) && ValidRun(soFar)
    requires var s, s' := Run(EMPTY, soFar), Run(EMPTY, soFar + later);
      RealizedUntil(s.fills, s.trades, s.positions, past) != RealizedUntil(s'.fills, s'.trades, s'.positions, past)
    ensures !Continues(soFar, later, accountEquity, past, past, closes, closes)
  {
    hide RealizedUntil;
    hide RealizedAfter;
    hide OpenAsOf;
    hide Run;
    hide Round6;
    hide OnGrid;
    var s, s' := Run(EMPTY, soFar), Run(EMPTY, soFar + later);
    RunSafe(soFar);
    RunSafe(soFar + later);
    UniqueIsConsistent(s.fills);
    UniqueIsConsistent(s'.fills);
    RealizedSplitsAt(s.fills, s.trades, s.positions, past, past);
    RealizedSplitsAt(s'.fills, s'.trades, s'.positions, past, past);
    var start, a := OrElse(accountEquity, DEFAULT_ACCOUNT_EQUITY), RealizedUntil(s.fills, s.trades, s.positions, past);
    var b := RealizedUntil(s'.fills, s'.trades, s'.positions, past);
    var u, v := UnrealizedAsOf(s, past, closes), UnrealizedAsOf(s', past, closes);
    Round6OnGrid(Total(MarkedGains(s, OpenAsOf(s, past), closes)));
    Round6OnGrid(Total(MarkedGains(s', OpenAsOf(s', past), closes)));
    GridAddExact(start, a);
    GridAddExact(start + a, u);
    GridAddExact(start, b);
    GridAddExact(start + b, v);
    GridAddExact(start + a, v);
    assert start + a + u + 0.0 + (v - u) == start + a + v;
  }

  lemma OneMoreStep(soFar: seq<Step>, step: Step, past: int)
    requires DatedAfter(Run(EMPTY, soFar), step, past) && ValidRun(soFar) && ValidInput(step)
    ensures ValidRun(soFar + [step]) && DatedRun(Run(EMPTY, soFar), [step], past)
    ensures Run(EMPTY, soFar + [step]) == After(Run(EMPTY, soFar), step)
  {
    RunAppend(EMPTY, soFar, step);
    var s := Run(EMPTY, soFar);
    assert [step][..0] == [];
    assert Run(s, []) == s;
    assert DatedRun(s, [], past);
  }

  /** Where the realized past is not closed, some later buy makes the two equities differ. */
  lemma OpenPastDrifts(soFar: seq<Step>, accountEquity: Option<real>, past: int) returns (later: seq<Step>)
    requires ValidRun(soFar) && OnGrid(OrElse(accountEquity, DEFAULT_ACCOUNT_EQUITY))
    requires !PastIsClosed(Run(EMPTY, soFar), past)
    ensures ValidRun(soFar + later) && DatedRun(Run(EMPTY, soFar), later, past)
    ensures !Continues(soFar, later, accountEquity, past, past, map[], map[])
  {
    hide Run;
    hide Stocked;
    hide Continues;
    hide RealizedUntil;
    hide After;
    var s := Run(EMPTY, soFar);
    RunSafe(soFar);
    RunKeepsOwners(soFar);
    var pid :| pid in s.positions && !Terminal(s.positions[pid].status) && !Stocked(PastOrder(s, past, pid));
    var key := FreshKey(s.fills);
    var k := DearEntry(s, past, pid);
    LiftedEntry(s, pid, key, past + 1, k);
    var row := LiftRow(s.positions[pid], pid, key, past + 1, k);
    var step := Import(row);
    OneMoreStep(soFar, step, past);
    StepKeepsPast(s, step, past);
    LiftLowersThePast(s, After(s, step), past, pid, Round6(k));
    later := [step];
    PastShows(soFar, later, accountEquity, past, map[]);
  }

  /** The exact condition for a ledger that lives on: continuing from the snapshot gives the
      full equity after every later run, at every later time and on all closes, if and only
      if every position is finished or none of its sells up to the snapshot met an empty
      replay. */
  lemma ContinuesExactly(soFar: seq<Step>, accountEquity: Option<real>, past: int)
    requires ValidRun(soFar) && OnGrid(OrElse(accountEquity, DEFAULT_ACCOUNT_EQUITY))
    ensures (forall later, now, closesThen, closesNow ::
               ValidRun(soFar + later) && DatedRun(Run(EMPTY, soFar), later, past) && past <= now ==>
                 Continues(soFar, later, accountEquity, past, now, closesThen, closesNow))
       <==> PastIsClosed(Run(EMPTY, soFar), past)
  {
    hide Run;
    hide Continues;
    hide PastIsClosed;
    hide DatedRun;
    if PastIsClosed(Run(EMPTY, soFar), past) {
      forall later, now, closesThen, closesNow
        | ValidRun(soFar + later) && DatedRun(Run(EMPTY, soFar), later, past) && past <= now
        ensures Continues(soFar, later, accountEquity, past, now, closesThen, closesNow)
      {
        EquityContinues(soFar, later, accountEquity, past, now, closesThen, closesNow);
      }
    } else {
      var later := OpenPastDrifts(soFar, accountEquity, past);
    }
  }

  const SOLD_FIVE := RowData(1, "SPY", Sell, 5.0, 12.0, 0.0, 1, Some(Manual("m")))

  lemma NamedSellTakes(s: Books, row: Row, pid: PositionId)
    requires row.side.Sell? && row.positionId == Some(pid) && pid in s.positions && !HasFill(s.fills, row.key)
    requires SafePosition(s.positions[pid]) && s.positions[pid].status.Open?
    requires Upper(s.positions[pid].symbol) == row.symbol && row.quantity < s.positions[pid].quantity.GetOr(0.0)
    ensures var s' := After(s, Import(row));
      && pid in s'.positions && s'.positions[pid].status.Reduced?
      && s'.fills == s.fills + [FillOfRow(row, pid, Matched)]
  {
    SellSafe(s.positions[pid], row);
  }

  lemma LoneSellIsUnstocked(s: Books, f: Fill, pid: PositionId, past: int)
    requires s.fills == [f] && f.positionId == pid && f.side.Sell?
    requires f.active && !f.reconciliation.Ignored? && f.executedAt <= past
    ensures !Stocked(PastOrder(s, past, pid))
  {
    var order := PastOrder(s, past, pid);
    UntilMembers(s.fills, past);
    FromMembers(Until(s.fills, past), None);
    assert f in s.fills;
    var all := Until(s.fills, past) + Report(s.fills, None, past);
    assert f in all && forall g :: g in all ==> g == f;
    KeptMembers(all, pid);
    assert f in order && forall g :: g in order ==> g == f;
    assert order[0] in order;
    StockedPrefix(order, 1);
    var one := order[..1];
    assert one[..0] == [] && !Stocked(one);
  }

  lemma {:induction false} StockedPrefix(order: seq<Fill>, n: nat)
    requires n <= |order|
    ensures Stocked(order) ==> Stocked(order[..n])
  {
    if n == |order| {
      assert order[..n] == order;
    } else {
      StockedPrefix(order[..|order| - 1], n);
      assert order[..|order| - 1][..n] == order[..n];
    }
  }

  /** Such a ledger is reached by opening a position by hand and importing a sell of it. */
  lemma HandOpenedPastIsOpen()
    ensures WellFormedRow(SOLD_FIVE)
    ensures !PastIsClosed(Run(EMPTY, [Create("m", MANUAL_TEN), Import(SOLD_FIVE)]), 1)
  {
    hide Round6;
    hide Times;
    var pid, manual := Manual("m"), Run(EMPTY, [Create("m", MANUAL_TEN)]);
    CreateOpens("m", MANUAL_TEN);
    assert Upper("SPY") == "SPY";
    NamedSellTakes(manual, SOLD_FIVE, pid);
    var steps := [Create("m", MANUAL_TEN), Import(SOLD_FIVE)];
    assert steps[..1] == [Create("m", MANUAL_TEN)];
    hide Stocked;
    LoneSellIsUnstocked(Run(EMPTY, steps), FillOfRow(SOLD_FIVE, pid, Matched), pid, 1);
  }
}
