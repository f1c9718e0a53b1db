/** The position the import maintains incrementally, compared with the replay analytics
    makes of the same fills. */
module StoredPosition {
  import opened Numbers
  import opened Records
  import opened Rounding
  import opened Wrappers
  import opened Ledger
  import opened LedgerSafety
  import opened CostReplay
  import opened CashConservation

  /** The stored position after importing the fills one by one onto a plan. */
  function Stored(plan: Position, order: seq<Fill>): Result<Position, Error> {
    if order == [] then Success(plan)
    else
      var p :- Stored(plan, order[..|order| - 1]);
      if Terminal(p.status) then Failure(PositionNotActive)
      else ApplyFill(p, RowOfFill(order[|order| - 1], order[|order| - 1].positionId))
  }

  /** What an imported fill satisfies, its fees not negative. */
  predicate PricedFill(f: Fill) {
    CleanFill(f) && f.price > 0.0
  }

  function Buys(order: seq<Fill>): nat {
    if order == [] then 0
    else Buys(order[..|order| - 1]) + (if order[|order| - 1].side.Buy? then 1 else 0)
  }

  function SoldQuantity(order: seq<Fill>): real {
    if order == [] then 0.0
    else
      var f := order[|order| - 1];
      SoldQuantity(order[..|order| - 1]) + (if f.side.Sell? then f.quantity else 0.0)
  }

  /** Entry fees the replay charges to sells; the stored position never charges them. */
  function ChargedFees(order: seq<Fill>): real {
    if order == [] then 0.0
    else
      var before := order[..|order| - 1];
      ChargedFees(before)
        + (if order[|order| - 1].side.Sell? then EntryFees(Replay(before), order[|order| - 1].quantity) else 0.0)
  }

  // ----- scalar facts

  lemma NumeratorsStayClose(held: real, entry: real, cost: real, quantity: real, price: real, d: real)
    requires held >= 0.0 && quantity > 0.0 && d >= 0.0
    requires held > 0.0 ==> -d <= entry - cost <= d
    ensures var gap := (held * entry + quantity * price) - (cost * held + price * quantity);
      -((held + quantity) * d) <= gap <= (held + quantity) * d
  {
    assert -(held * d) <= held * (entry - cost) <= held * d;
    assert quantity * d >= 0.0;
  }

  lemma QuotientsStayClose(x: real, y: real, total: real, d: real)
    requires total > 0.0 && -(total * d) <= x - y <= total * d
    ensures -d <= x / total - y / total <= d
  {
    var z := (x - y) / total;
    assert z * total == x - y;
    assert x / total - y / total == z;
  }

  lemma MeansStayClose(held: real, entry: real, cost: real, quantity: real, price: real, d: real)
    requires held >= 0.0 && quantity > 0.0 && d >= 0.0
    requires held > 0.0 ==> -d <= entry - cost <= d
    ensures -d <= MeanPrice(held, entry, quantity, price, held + quantity) - MeanCost(held, cost, quantity, price) <= d
  {
    NumeratorsStayClose(held, entry, cost, quantity, price, d);
    QuotientsStayClose(held * entry + quantity * price, cost * held + price * quantity, held + quantity, d);
  }

  lemma RoundsAboveZero(x: real)
    requires x > HALF_MICRO
    ensures Round6(x) >= 0.000001
  {
    assert x * 1000000.0 > 0.5;
    assert RoundHalfEven(x * 1000000.0) >= 1;
  }

  lemma GainsStayClose(entry: real, cost: real, price: real, quantity: real, fees: real, entryFees: real, d: real)
    requires quantity > 0.0 && -d <= entry - cost <= d
    ensures var gap := NetGain(entry, price, quantity, fees) - Gain(cost, price, quantity, fees, entryFees) - entryFees;
      -Times(d, quantity) <= gap <= Times(d, quantity)
  {
    assert NetGain(entry, price, quantity, fees) - Gain(cost, price, quantity, fees, entryFees) - entryFees
        == (cost - entry) * quantity;
    assert -(d * quantity) <= (cost - entry) * quantity <= d * quantity;
  }

  // ----- one fill applied to both

  /** The two records agree: exact quantity, entry price within `d` of the average cost. */
  predicate Agree(p: Position, st: CostState, d: real) {
    && SafePosition(p) && GoodState(st) && p.entryPrice.Some?
    && p.quantity == Some(st.quantity)
    && (p.status.Closed? <==> st.quantity == 0.0) && !p.status.Planned? && !p.status.Cancelled?
    && (st.quantity > 0.0 ==> -d <= p.entryPrice.value - st.averageCost <= d)
  }

  /** What the position holds as far as a buy is concerned: a plan holds nothing yet. */
  function HeldBefore(p: Position): real {
    if p.status.Planned? then 0.0 else p.quantity.GetOr(0.0)
  }

  /** The guard of `entry_price or price`: held shares with a stored price of zero lose their cost. */
  predicate KeepsCost(p: Position) {
    HeldBefore(p) > 0.0 ==> p.entryPrice != Some(0.0)
  }

  lemma BoughtEntry(p: Position, row: RowData)
    requires row.side.Buy? && ApplyFill(p, row).Success?
    requires OnGrid(HeldBefore(p)) && OnGrid(row.quantity) && HeldBefore(p) + row.quantity != 0.0
    ensures ApplyFill(p, row).value.entryPrice == Some(Round6(
      MeanPrice(HeldBefore(p), OrElse(p.entryPrice, row.price), row.quantity, row.price, HeldBefore(p) + row.quantity)))
  {
    GridAddExact(HeldBefore(p), row.quantity);
  }

  /** Any position with these facts agrees with the state after the same buy. */
  lemma BoughtAgrees(p': Position, st: CostState, d: real, f: Fill)
    requires GoodState(st) && PricedFill(f) && f.side.Buy?
    requires SafePosition(p') && p'.status.Open? && p'.quantity == Some(st.quantity + f.quantity)
    requires p'.entryPrice.Some?
    requires -d <= p'.entryPrice.value - MeanCost(st.quantity, st.averageCost, f.quantity, f.price) <= d
    ensures Agree(p', ApplyBuy(st, f), d)
  {
    BuyConserves(st, f);
  }

  /** A buy on held shares of known cost, or on a plan, keeps the records together. */
  lemma BuyAgrees(p: Position, st: CostState, d: real, f: Fill)
    requires PricedFill(f) && f.side.Buy? && d >= 0.0 && SafePosition(p) && KeepsCost(p)
    requires (p.status.Planned? && st == FLAT) || (Agree(p, st, d) && !p.status.Closed?)
    requires ApplyFill(p, RowOfFill(f, f.positionId)).Success?
    ensures Agree(ApplyFill(p, RowOfFill(f, f.positionId)).value, ApplyBuy(st, f), d + HALF_MICRO)
    ensures ApplyFill(p, RowOfFill(f, f.positionId)).value.realizedPnl == p.realizedPnl
  {
    assert GoodState(st);
    assert HeldBefore(p) == st.quantity;
    BuySafe(p, RowOfFill(f, f.positionId));
    BoughtEntry(p, RowOfFill(f, f.positionId));
    MeansStayClose(st.quantity, OrElse(p.entryPrice, f.price), st.averageCost, f.quantity, f.price, d);
    BoughtAgrees(ApplyFill(p, RowOfFill(f, f.positionId)).value, st, d + HALF_MICRO, f);
  }

  // ----- exactly when a buy keeps them together

  /** The next buy is applied and leaves the records as close as its own rounding allows. */
  predicate AgreesAfter(p: Position, st: CostState, d: real, f: Fill)
    requires st.quantity >= 0.0
  {
    var p' := ApplyFill(p, RowOfFill(f, f.positionId));
    p'.Success? && Agree(p'.value, ApplyBuy(st, f), d + HALF_MICRO)
  }

  /** A buy that doubles the holding, dear enough to show that the old cost is lost. */
  function DearBuy(st: CostState, d: real): Fill {
    var price := st.averageCost + 2.0 * d + 1.0;
    Fill(0, Manual(""), "", Buy, st.quantity, price, 0.0, 0.0, 0.0, 0, true, Matched)
  }

  lemma DoubledMean(held: real, cost: real, price: real)
    requires held > 0.0
    ensures MeanPrice(held, price, held, price, held + held) == price
    ensures MeanCost(held, cost, held, price) == (cost + price) / 2.0
  {
    assert (held * price + held * price) / (held + held) == price;
    assert (cost * held + price * held) / (held + held) == (cost + price) / 2.0;
  }

  lemma ForgottenCostShows(p: Position, st: CostState, d: real)
    requires Agree(p, st, d) && st.quantity > 0.0 && d >= 0.0 && p.entryPrice == Some(0.0)
    ensures PricedFill(DearBuy(st, d)) && !AgreesAfter(p, st, d, DearBuy(st, d))
  {
    var f := DearBuy(st, d);
    var row := RowOfFill(f, f.positionId);
    NeverDividesByZero(p, row);
    BuySafe(p, row);
    BoughtEntry(p, row);
    DoubledMean(st.quantity, st.averageCost, f.price);
    assert ApplyFill(p, row).value.entryPrice == Some(Round6(f.price));
    assert ApplyBuy(st, f).averageCost == (st.averageCost + f.price) / 2.0;
  }

  /** The records survive every next buy if and only if the stored entry price of the held
      shares is not zero. */
  lemma BuyAgreesExactly(p: Position, st: CostState, d: real)
    requires Agree(p, st, d) && st.quantity > 0.0 && d >= 0.0
    ensures (forall f :: PricedFill(f) && f.side.Buy? ==> AgreesAfter(p, st, d, f)) <==> p.entryPrice != Some(0.0)
  {
    if p.entryPrice == Some(0.0) {
      ForgottenCostShows(p, st, d);
    } else {
      forall f | PricedFill(f) && f.side.Buy?
        ensures AgreesAfter(p, st, d, f)
      {
        NeverDividesByZero(p, RowOfFill(f, f.positionId));
        BuyAgrees(p, st, d, f);
      }
    }
  }

  /** The realized PnL a sell adds to the position, less its leg and its entry fees. */
  lemma SellsStayClose(entry: real, st: CostState, d: real, f: Fill, live: Position)
    requires PricedFill(f) && GoodState(st) && st.quantity > 0.0
    requires -d <= entry - st.averageCost <= d
    ensures LegOf(st, f, live).Some?
    ensures var booked := SellPnl(entry, RowOfFill(f, f.positionId));
      var gap := booked - PnlOf(LegOf(st, f, live)) - EntryFees(st, f.quantity);
      -0.000001 - Times(d, f.quantity) <= gap <= 0.000001 + Times(d, f.quantity)
  {
    GainsStayClose(entry, st.averageCost, f.price, f.quantity, f.fees, EntryFees(st, f.quantity), d);
  }

  lemma SoldAgrees(p: Position, p': Position, st: CostState, d: real, f: Fill)
    requires CleanFill(f) && Agree(p, st, d) && f.quantity <= st.quantity
    requires SafePosition(p') && p'.entryPrice == p.entryPrice
    requires p'.quantity == Some(p.quantity.value - f.quantity)
    requires p'.status == (if p.quantity.value == f.quantity then Closed else Reduced)
    ensures Agree(p', ApplySell(st, f), d)
  {
    hide EntryFees;
    hide ApplySell;
    hide Times;
    hide Round6;
    hide OnGrid;
    SellState(st, f);
    SellSplits(st, f);
  }

  lemma SellAgrees(p: Position, st: CostState, d: real, f: Fill)
    requires PricedFill(f) && f.side.Sell?
    requires Agree(p, st, d) && !p.status.Closed?
    requires ApplyFill(p, RowOfFill(f, f.positionId)).Success?
    ensures Agree(ApplyFill(p, RowOfFill(f, f.positionId)).value, ApplySell(st, f), d)
    ensures ApplyFill(p, RowOfFill(f, f.positionId)).value.realizedPnl
         == Some(p.realizedPnl.GetOr(0.0) + SellPnl(p.entryPrice.value, RowOfFill(f, f.positionId)))
  {
    hide ApplySell;
    hide SellPnl;
    SellSafe(p, RowOfFill(f, f.positionId));
    SoldEntry(p, RowOfFill(f, f.positionId));
    SoldAgrees(p, ApplyFill(p, RowOfFill(f, f.positionId)).value, st, d, f);
  }

  lemma SoldEntry(p: Position, row: RowData)
    requires row.side.Sell? && ApplyFill(p, row).Success?
    ensures ApplyFill(p, row).value.entryPrice == p.entryPrice
    ensures p.quantity.Some? && row.quantity <= p.quantity.value
  {
  }

  // ----- the whole history

  ghost predicate Priced(order: seq<Fill>) {
    forall i :: 0 <= i < |order| ==> PricedFill(order[i])
  }

  /** No buy of the history meets held shares stored at a price of zero. */
  ghost predicate NeverForgets(plan: Position, order: seq<Fill>) {
    order != [] ==>
      var before := order[..|order| - 1];
      && NeverForgets(plan, before)
      && (order[|order| - 1].side.Buy? && Stored(plan, before).Success? ==> KeepsCost(Stored(plan, before).value))
  }

  function EntryBound(order: seq<Fill>): real {
    Buys(order) as real * HALF_MICRO
  }

  function PnlBound(order: seq<Fill>): real {
    Sells(order) as real * 0.000001 + Times(EntryBound(order), SoldQuantity(order))
  }

  /** What the stored realized PnL has beyond the legs and the fees they were charged. */
  function PnlGap(plan: Position, p: Position, order: seq<Fill>, reported: set<nat>, live: Position): real {
    p.realizedPnl.GetOr(0.0) - plan.realizedPnl.GetOr(0.0) - SumPnl(LegsOf(order, reported, live)) - ChargedFees(order)
  }

  lemma {:induction false} SoldNonNegative(order: seq<Fill>)
    requires Priced(order)
    ensures SoldQuantity(order) >= 0.0
  {
    if order != [] {
      SoldNonNegative(order[..|order| - 1]);
      assert PricedFill(order[|order| - 1]);
    }
  }

  /** One more buy widens the entry bound and keeps the PnL bound. */
  lemma BoundsAfterBuy(order: seq<Fill>)
    requires order != [] && Priced(order) && order[|order| - 1].side.Buy?
    ensures EntryBound(order) == EntryBound(order[..|order| - 1]) + HALF_MICRO
    ensures PnlBound(order) >= PnlBound(order[..|order| - 1])
  {
    var before := order[..|order| - 1];
    SoldNonNegative(before);
    assert Buys(order) == Buys(before) + 1;
    assert Times(EntryBound(order), SoldQuantity(order))
        == Times(EntryBound(before), SoldQuantity(before)) + HALF_MICRO * SoldQuantity(before);
  }

  lemma BoundsAfterSell(order: seq<Fill>)
    requires order != [] && order[|order| - 1].side.Sell?
    ensures EntryBound(order) == EntryBound(order[..|order| - 1])
    ensures PnlBound(order) == PnlBound(order[..|order| - 1]) + 0.000001
              + Times(EntryBound(order), order[|order| - 1].quantity)
  {
    var before := order[..|order| - 1];
    assert Sells(order) == Sells(before) + 1;
    assert EntryBound(order) == EntryBound(before);
    assert SoldQuantity(order) == SoldQuantity(before) + order[|order| - 1].quantity;
    AmountSub(EntryBound(order), SoldQuantity(order), SoldQuantity(before));
  }

  /** The stored position refines the replay. For a plan changed only by fills in replay
      order, none of them a buy onto shares stored at zero, quantities agree exactly, the
      entry price stays within 0.0000005 per buy of the average cost while shares are held,
      and stored realized PnL is legs plus charged entry fees within 0.000001 per sell plus
      the entry bound times the quantity sold. */
  lemma {:induction false} StoredRefinesReplay(plan: Position, order: seq<Fill>, reported: set<nat>, live: Position)
    requires plan.status.Planned? && SafePosition(plan) && Priced(order) && NeverForgets(plan, order)
    requires forall i :: 0 <= i < |order| && order[i].side.Sell? ==> order[i].key in reported
    requires Stored(plan, order).Success?
    ensures order != [] ==> Agree(Stored(plan, order).value, Replay(order), EntryBound(order))
    ensures -PnlBound(order) <= PnlGap(plan, Stored(plan, order).value, order, reported, live) <= PnlBound(order)
  {
    if order != [] {
      var before := order[..|order| - 1];
      var f := order[|order| - 1];
      StoredRefinesReplay(plan, before, reported, live);
      assert PricedFill(f);
      LegsAfter(order, reported, live);
      var p := Stored(plan, before).value;
      if f.side.Buy? {
        BuyAgrees(p, Replay(before), EntryBound(before), f);
        BoundsAfterBuy(order);
      } else {
        SellAgrees(p, Replay(before), EntryBound(before), f);
        SellsStayClose(p.entryPrice.value, Replay(before), EntryBound(before), f, live);
        BoundsAfterSell(order);
      }
    }
  }

  // ----- why the two conditions are needed

  /** Journal and analytics measure the same R multiple of an exit at the stored entry. */
  lemma RMultiplesAgree(p: Position, f: Fill)
    requires p.entryPrice.Some? && f.quantity > 0.0
    ensures SellRMultiple(p.entryPrice.value, Or(p.initialStop, p.currentStop), f) == PositionRMultiple(p, f.price)
  {
  }

  function SampleFill(key: nat, side: Side, price: real, ts: int): Fill {
    Fill(key, PlanOf("c"), "SPY", side, 1.0, price, 0.0, price, price, ts, true, Matched)
  }

  const SAMPLE_PLAN := Position(
    "SPY", Planned, None, None, Some(1.0), None, None, Some(0.0), Some(0.0), None)

  lemma FreshMean(entry: real, quantity: real, price: real)
    requires quantity != 0.0
    ensures MeanPrice(0.0, entry, quantity, price, quantity) == price
  {
    assert (quantity * price) / quantity == price;
  }

  /** The first buy stores a zero entry price exactly when its price is at most half a unit:
      the guard on which `entry_price or price` forgets the shares already held. */
  lemma ZeroEntryExactly(plan: Position, f: Fill)
    requires plan.status.Planned? && SafePosition(plan) && CleanFill(f) && f.side.Buy? && f.price > 0.0
    ensures Stored(plan, [f]).Success?
    ensures Stored(plan, [f]).value.entryPrice == Some(0.0) <==> f.price <= HALF_MICRO
  {
    assert [f][..0] == [];
    var row := RowOfFill(f, f.positionId);
    NeverDividesByZero(plan, row);
    BoughtEntry(plan, row);
    FreshMean(OrElse(plan.entryPrice, f.price), f.quantity, f.price);
    if f.price > HALF_MICRO {
      RoundsAboveZero(f.price);
    }
  }

  lemma ZeroEntryReplayed(order: seq<Fill>)
    requires order == [SampleFill(1, Buy, 0.0000001, 0), SampleFill(2, Buy, 100.0, 1)]
    ensures Replay(order).quantity == 2.0 && Replay(order).averageCost < 51.0
  {
    assert order[..1] == [SampleFill(1, Buy, 0.0000001, 0)] && order[..1][..0] == [];
    assert Replay(order[..1]) == CostState(1.0, 0.0000001, 0.0);
  }

  lemma ZeroEntryRebought(p: Position, b: Fill)
    requires SafePosition(p) && p.status.Open? && p.entryPrice == Some(0.0) && p.quantity == Some(1.0)
    requires b == SampleFill(2, Buy, 100.0, 1)
    ensures ApplyFill(p, RowOfFill(b, b.positionId)).Success?
    ensures ApplyFill(p, RowOfFill(b, b.positionId)).value.entryPrice == Some(100.0)
  {
    NeverDividesByZero(p, RowOfFill(b, b.positionId));
    BoughtEntry(p, RowOfFill(b, b.positionId));
    assert MeanPrice(1.0, 100.0, 1.0, 100.0, 2.0) == 100.0;
    assert Round6(100.0) == 100.0;
  }

  lemma ZeroEntryStored(plan: Position, a: Fill, b: Fill)
    requires plan.status.Planned? && SafePosition(plan)
    requires CleanFill(a) && a == SampleFill(1, Buy, a.price, 0) && 0.0 < a.price <= HALF_MICRO
    requires b == SampleFill(2, Buy, 100.0, 1)
    ensures Stored(plan, [a, b]).Success? && Stored(plan, [a, b]).value.entryPrice == Some(100.0)
  {
    ZeroEntryExactly(plan, a);
    assert [a][..0] == [] && [a, b][..1] == [a];
    BuySafe(plan, RowOfFill(a, a.positionId));
    ZeroEntryRebought(Stored(plan, [a]).value, b);
  }

  /** A buy whose price rounds to zero is forgotten: the next buy prices the old shares at
      its own price, and the entry is far from the average cost. */
  lemma ZeroEntryIsForgotten()
    ensures var order := [SampleFill(1, Buy, 0.0000001, 0), SampleFill(2, Buy, 100.0, 1)];
      Stored(SAMPLE_PLAN, order).Success?
      && Stored(SAMPLE_PLAN, order).value.entryPrice == Some(100.0)
      && Replay(order).quantity == 2.0 && Replay(order).averageCost < 51.0
      && !Agree(Stored(SAMPLE_PLAN, order).value, Replay(order), EntryBound(order))
  {
    var a, b := SampleFill(1, Buy, 0.0000001, 0), SampleFill(2, Buy, 100.0, 1);
    ZeroEntryReplayed([a, b]);
    ZeroEntryStored(SAMPLE_PLAN, a, b);
    assert [a, b][..1] == [a] && [a][..0] == [];
    assert Buys([a]) == 1;
  }

  /** Once everything is sold the replay forgets its cost while the position keeps its entry:
      the entry bound is a claim about held shares only. */
  lemma ClosedEntryIsKept()
    ensures var order := [SampleFill(1, Buy, 10.0, 0), SampleFill(2, Sell, 10.0, 1)];
      Stored(SAMPLE_PLAN, order).Success?
      && Stored(SAMPLE_PLAN, order).value.entryPrice == Some(10.0)
      && Replay(order) == FLAT
  {
    var a, b := SampleFill(1, Buy, 10.0, 0), SampleFill(2, Sell, 10.0, 1);
    var order := [a, b];
    assert order[..1] == [a] && order[..1][..0] == [];
    assert Round6(0.0) == 0.0 && Round6(1.0) == 1.0 && Round6(10.0) == 10.0;
    assert MeanPrice(0.0, 10.0, 1.0, 10.0, 1.0) == 10.0;
    assert Stored(SAMPLE_PLAN, [a]).Success?;
    assert Stored(SAMPLE_PLAN, [a]).value.entryPrice == Some(10.0);
    assert Replay([a]).quantity == 1.0;
  }
}
