/** Where the money of a replay goes: legs, cash, and what is left in inventory. */
module CashConservation {
  import opened Numbers
  import opened Records
  import opened Rounding
  import opened Wrappers
  import opened CostReplay

  /** Quantities in the stored unit and non-negative fees: a negative pool would be clamped. */
  predicate CleanFill(f: Fill) {
    f.quantity > 0.0 && OnGrid(f.quantity) && f.fees >= 0.0
  }

  ghost predicate Clean(order: seq<Fill>) {
    forall i :: 0 <= i < |order| ==> CleanFill(order[i])
  }

  function SumPnl(legs: seq<Leg>): real {
    if legs == [] then 0.0 else SumPnl(legs[..|legs| - 1]) + legs[|legs| - 1].pnl
  }

  lemma {:induction false} SumPnlAppend(a: seq<Leg>, b: seq<Leg>)
    ensures SumPnl(a + b) == SumPnl(a) + SumPnl(b)
  {
    if b == [] {
      assert a + b == a;
    } else {
      SumPnlAppend(a, b[..|b| - 1]);
      assert (a + b)[..|a + b| - 1] == a + b[..|b| - 1];
    }
  }

  /** Cash in minus cash out: sells net of fees, buys with fees. */
  function NetCash(order: seq<Fill>): real {
    if order == [] then 0.0
    else
      var f := order[|order| - 1];
      NetCash(order[..|order| - 1])
        + (if f.side.Buy? then -(Times(f.price, f.quantity) + f.fees) else Times(f.price, f.quantity) - f.fees)
  }

  function Sells(order: seq<Fill>): nat {
    if order == [] then 0
    else Sells(order[..|order| - 1]) + (if order[|order| - 1].side.Sell? then 1 else 0)
  }

  /** Cost of what is held, and the entry fees not yet charged. */
  function Inventory(st: CostState): real {
    Times(st.averageCost, st.quantity) + st.entryFeePool
  }

  /** The cost a sell books beyond what it consumes; the whole net cash if it has no cost. */
  function UncoveredBy(st: CostState, f: Fill, p: Position): real {
    var cost := CostBasis(st, p);
    if cost.None? then Times(f.price, f.quantity) - f.fees
    else Times(cost.value, f.quantity - Consumed(st, f.quantity))
  }

  function Uncovered(order: seq<Fill>, p: Position): real {
    if order == [] then 0.0
    else
      var before := order[..|order| - 1];
      var f := order[|order| - 1];
      Uncovered(before, p) + (if f.side.Sell? then UncoveredBy(Replay(before), f, p) else 0.0)
  }

  // ----- one fill

  predicate GoodState(st: CostState) {
    && st.quantity >= 0.0 && OnGrid(st.quantity) && st.entryFeePool >= 0.0
    && (st.quantity == 0.0 ==> st == FLAT)
  }

  lemma MeanTimesTotal(held: real, cost: real, quantity: real, price: real)
    requires held + quantity != 0.0
    ensures MeanCost(held, cost, quantity, price) * (held + quantity) == cost * held + price * quantity
  {
  }

  lemma BuyConserves(st: CostState, f: Fill)
    requires GoodState(st) && CleanFill(f)
    ensures GoodState(ApplyBuy(st, f))
    ensures Inventory(ApplyBuy(st, f)) == Inventory(st) + Times(f.price, f.quantity) + f.fees
  {
    GridAdd(st.quantity, f.quantity);
    MeanTimesTotal(st.quantity, st.averageCost, f.quantity, f.price);
  }

  lemma ShareBounds(pool: real, part: real, whole: real)
    requires pool >= 0.0 && 0.0 <= part <= whole && whole > 0.0
    ensures 0.0 <= Share(pool, part, whole) <= pool
    ensures part == whole ==> Share(pool, part, whole) == pool
  {
    var r := part / whole;
    assert r * whole == part;
    assert 0.0 <= r <= 1.0;
    assert pool * r >= 0.0;
    assert pool * (1.0 - r) >= 0.0;
  }

  lemma GainSplits(cost: real, price: real, quantity: real, consumed: real, fees: real, entryFees: real)
    ensures Gain(cost, price, quantity, fees, entryFees)
         == Times(price, quantity) - fees - Times(cost, consumed) - Times(cost, quantity - consumed) - entryFees
  {
  }

  /** The fees a sell is charged are part of the pool, all of it if nothing is left. */
  lemma FeesWithinPool(st: CostState, quantity: real)
    requires GoodState(st) && quantity > 0.0 && st.quantity > 0.0
    ensures 0.0 <= EntryFees(st, quantity) <= st.entryFeePool
    ensures Consumed(st, quantity) == st.quantity ==> EntryFees(st, quantity) == st.entryFeePool
  {
    ShareBounds(st.entryFeePool, Consumed(st, quantity), st.quantity);
  }

  /** What is left after a sell, up to the rounding of the fee pool. */
  ghost predicate SoldState(st: CostState, quantity: real, st': CostState) {
    var left := Inventory(st) - Times(st.averageCost, Consumed(st, quantity)) - EntryFees(st, quantity);
    && GoodState(st')
    && st'.quantity == st.quantity - Consumed(st, quantity)
    && left - HALF_MICRO <= Inventory(st') <= left + HALF_MICRO
  }

  lemma SoldOut(st: CostState, quantity: real)
    requires GoodState(st) && st.quantity > 0.0 && quantity >= st.quantity
    ensures SoldState(st, quantity, FLAT)
  {
    FeesWithinPool(st, quantity);
    hide EntryFees;
    hide OnGrid;
  }

  lemma SoldPart(st: CostState, quantity: real)
    requires GoodState(st) && 0.0 < quantity < st.quantity && OnGrid(quantity)
    ensures SoldState(st, quantity,
      CostState(st.quantity - quantity, st.averageCost, Round6(st.entryFeePool - EntryFees(st, quantity))))
  {
    hide EntryFees;
    hide Times;
    hide OnGrid;
    hide Round6;
    FeesWithinPool(st, quantity);
    GridSubExact(st.quantity, quantity);
    RoundedNonNegative(st.entryFeePool - EntryFees(st, quantity));
    AmountSub(st.averageCost, st.quantity, quantity);
  }

  lemma SellSplits(st: CostState, f: Fill)
    requires GoodState(st) && CleanFill(f) && st.quantity > 0.0
    ensures ApplySell(st, f) == if f.quantity >= st.quantity then FLAT
      else CostState(st.quantity - f.quantity, st.averageCost, Round6(st.entryFeePool - EntryFees(st, f.quantity)))
  {
    hide EntryFees;
    FeesWithinPool(st, f.quantity);
    GridSubExact(st.quantity, Consumed(st, f.quantity));
    hide OnGrid;
  }

  lemma SellState(st: CostState, f: Fill)
    requires GoodState(st) && CleanFill(f)
    ensures SoldState(st, f.quantity, ApplySell(st, f))
  {
    if st.quantity > 0.0 {
      SellSplits(st, f);
      if f.quantity >= st.quantity {
        SoldOut(st, f.quantity);
      } else {
        SoldPart(st, f.quantity);
      }
    } else {
      AmountSub(st.averageCost, 0.0, 0.0);
    }
  }

  lemma AmountSub(price: real, x: real, y: real)
    ensures Times(price, x - y) == Times(price, x) - Times(price, y)
    ensures x == y ==> Times(price, x - y) == 0.0
  {
  }

  function PnlOf(leg: Option<Leg>): real {
    if leg.Some? then leg.value.pnl else 0.0
  }

  /** One more fill adds its own leg. */
  lemma LegsAfter(order: seq<Fill>, reported: set<nat>, live: Position)
    requires order != []
    ensures var before := order[..|order| - 1]; var f := order[|order| - 1];
      SumPnl(LegsOf(order, reported, live)) == SumPnl(LegsOf(before, reported, live))
        + (if f.side.Sell? && f.key in reported then PnlOf(LegOf(Replay(before), f, live)) else 0.0)
  {
    var before := order[..|order| - 1];
    var f := order[|order| - 1];
    var leg := LegOf(Replay(before), f, live);
    var more := if f.side.Sell? && f.key in reported && leg.Some? then [leg.value] else [];
    SumPnlAppend(LegsOf(before, reported, live), more);
    assert leg.Some? ==> SumPnl([leg.value]) == leg.value.pnl;
  }

  /** A sell from stock: the leg is its net cash less the cost and fees it consumes. */
  lemma StockedLeg(st: CostState, f: Fill, p: Position)
    requires GoodState(st) && CleanFill(f) && st.quantity > 0.0
    ensures LegOf(st, f, p).Some?
    ensures var booked := Times(f.price, f.quantity) - f.fees - Times(st.averageCost, Consumed(st, f.quantity))
                          - UncoveredBy(st, f, p) - EntryFees(st, f.quantity);
      booked - HALF_MICRO <= PnlOf(LegOf(st, f, p)) <= booked + HALF_MICRO
  {
    GainSplits(st.averageCost, f.price, f.quantity, Consumed(st, f.quantity), f.fees, EntryFees(st, f.quantity));
  }

  /** A sell from nothing: the leg, if any, is priced at the stored entry, all of it uncovered. */
  lemma UnstockedLeg(st: CostState, f: Fill, p: Position)
    requires st == FLAT && CleanFill(f)
    ensures var booked := Times(f.price, f.quantity) - f.fees - UncoveredBy(st, f, p);
      booked - HALF_MICRO <= PnlOf(LegOf(st, f, p)) <= booked + HALF_MICRO
  {
    if p.entryPrice.Some? {
      GainSplits(p.entryPrice.value, f.price, f.quantity, 0.0, f.fees, 0.0);
      AmountSub(p.entryPrice.value, 0.0, 0.0);
    }
  }

  /** How far a sell is from conserving cash. */
  function SellDrift(st: CostState, f: Fill, p: Position): real
    requires st.quantity >= 0.0
  {
    PnlOf(LegOf(st, f, p)) + UncoveredBy(st, f, p)
      - (Times(f.price, f.quantity) - f.fees + Inventory(ApplySell(st, f)) - Inventory(st))
  }

  lemma StockedSellConserves(st: CostState, f: Fill, p: Position)
    requires GoodState(st) && CleanFill(f) && st.quantity > 0.0
    ensures -0.000001 <= SellDrift(st, f, p) <= 0.000001
  {
    hide EntryFees;
    hide Times;
    hide LegOf;
    hide UncoveredBy;
    hide ApplySell;
    hide Inventory;
    SellState(st, f);
    StockedLeg(st, f, p);
  }

  lemma SellConserves(st: CostState, f: Fill, p: Position)
    requires GoodState(st) && CleanFill(f)
    ensures GoodState(ApplySell(st, f))
    ensures -0.000001 <= SellDrift(st, f, p) <= 0.000001
  {
    hide Times;
    hide LegOf;
    hide UncoveredBy;
    hide EntryFees;
    SellState(st, f);
    if st.quantity > 0.0 {
      StockedSellConserves(st, f, p);
    } else {
      UnstockedLeg(st, f, p);
    }
  }

  // ----- a whole replay

  /** Legs plus uncovered cost, against net cash plus inventory. */
  function Drift(order: seq<Fill>, reported: set<nat>, p: Position): real {
    SumPnl(LegsOf(order, reported, p)) + Uncovered(order, p) - NetCash(order) - Inventory(Replay(order))
  }

  /** Cash conservation for every clean replay: realized legs are net cash plus inventory,
      less the cost of shares sold but not held, within 0.000001 per sell. */
  lemma {:induction false} CashIsConserved(order: seq<Fill>, reported: set<nat>, p: Position)
    requires Clean(order)
    requires forall i :: 0 <= i < |order| && order[i].side.Sell? ==> order[i].key in reported
    ensures GoodState(Replay(order))
    ensures -0.000001 * Sells(order) as real <= Drift(order, reported, p) <= 0.000001 * Sells(order) as real
  {
    if order != [] {
      var before := order[..|order| - 1];
      var f := order[|order| - 1];
      CashIsConserved(before, reported, p);
      var st := Replay(before);
      if f.side.Buy? {
        BuyConserves(st, f);
        assert LegsOf(order, reported, p) == LegsOf(before, reported, p);
      } else {
        SellConserves(st, f, p);
        var leg := LegOf(st, f, p);
        SumPnlAppend(LegsOf(before, reported, p), if leg.Some? then [leg.value] else []);
        assert leg.Some? ==> SumPnl([leg.value]) == leg.value.pnl;
      }
    }
  }

  /** No sell takes more than is held at its turn. */
  ghost predicate NeverOversells(order: seq<Fill>) {
    forall i :: 0 <= i < |order| && order[i].side.Sell? ==> order[i].quantity <= Replay(order[..i]).quantity
  }

  lemma CoveredSell(st: CostState, f: Fill, p: Position)
    requires CleanFill(f) && f.quantity <= st.quantity
    ensures UncoveredBy(st, f, p) == 0.0
  {
    AmountSub(st.averageCost, f.quantity, f.quantity);
  }

  lemma {:induction false} NothingUncovered(order: seq<Fill>, p: Position)
    requires Clean(order) && NeverOversells(order)
    ensures Uncovered(order, p) == 0.0
  {
    if order != [] {
      var before := order[..|order| - 1];
      var f := order[|order| - 1];
      forall i | 0 <= i < |before| && before[i].side.Sell?
        ensures before[i].quantity <= Replay(before[..i]).quantity
      {
        assert before[..i] == order[..i];
      }
      NothingUncovered(before, p);
      if f.side.Sell? {
        CoveredSell(Replay(before), f, p);
      }
    }
  }

  /** The bound for replays that never oversell. */
  lemma CoveredCashIsConserved(order: seq<Fill>, reported: set<nat>, p: Position)
    requires Clean(order) && NeverOversells(order)
    requires forall i :: 0 <= i < |order| && order[i].side.Sell? ==> order[i].key in reported
    ensures var gap := SumPnl(LegsOf(order, reported, p)) - (NetCash(order) + Inventory(Replay(order)));
      -0.000001 * Sells(order) as real <= gap <= 0.000001 * Sells(order) as real
  {
    CashIsConserved(order, reported, p);
    NothingUncovered(order, p);
  }
}
