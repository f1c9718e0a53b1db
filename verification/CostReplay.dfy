/** The analytics replay: a position's fills in replay order drive an average-cost state,
    and every reported sell yields a realized leg. */
module CostReplay {
  import opened Numbers
  import opened Records
  import opened Rounding
  import opened Wrappers
  import opened ReplayOrder

  datatype CostState = CostState(quantity: real, averageCost: real, entryFeePool: real)

  const FLAT := CostState(0.0, 0.0, 0.0)

  datatype Leg = Leg(pnl: real, rMultiple: Option<real>, quantity: Option<real>)

  // ----- one fill

  function MeanCost(held: real, cost: real, quantity: real, price: real): real
    requires held + quantity != 0.0
  {
    (cost * held + price * quantity) / (held + quantity)
  }

  function ApplyBuy(st: CostState, f: Fill): (r: CostState)
    requires st.quantity >= 0.0
    ensures r.quantity >= 0.0
  {
    if f.quantity <= 0.0 then st
    else CostState(
      st.quantity + f.quantity,
      MeanCost(st.quantity, st.averageCost, f.quantity, f.price),
      st.entryFeePool + f.fees)
  }

  /** The part of a sell covered by what is held. */
  function Consumed(st: CostState, quantity: real): real {
    if st.quantity > 0.0 then Min(quantity, st.quantity) else 0.0
  }

  function Share(pool: real, part: real, whole: real): real
    requires whole != 0.0
  {
    pool * (part / whole)
  }

  /** Entry fees charged to a sell: the pool's share of the quantity consumed. */
  function EntryFees(st: CostState, quantity: real): real {
    if st.quantity > 0.0 then Share(st.entryFeePool, Consumed(st, quantity), st.quantity) else 0.0
  }

  function ApplySell(st: CostState, f: Fill): (r: CostState)
    requires st.quantity >= 0.0
    ensures r.quantity >= 0.0
  {
    if f.quantity <= 0.0 || st.quantity <= 0.0 then st
    else
      var quantity := Round6(Max(0.0, st.quantity - Consumed(st, f.quantity)));
      var pool := Round6(Max(0.0, st.entryFeePool - EntryFees(st, f.quantity)));
      RoundedNonNegative(Max(0.0, st.quantity - Consumed(st, f.quantity)));
      if quantity == 0.0 then FLAT else CostState(quantity, st.averageCost, pool)
  }

  lemma RoundedNonNegative(x: real)
    requires x >= 0.0
    ensures Round6(x) >= 0.0
  {
    Round6Monotone(0.0, x);
  }

  function Gain(cost: real, price: real, quantity: real, fees: real, entryFees: real): real {
    (price - cost) * quantity - fees - entryFees
  }

  function CostBasis(st: CostState, p: Position): Option<real> {
    if st.quantity > 0.0 then Some(st.averageCost) else p.entryPrice
  }

  function SellRMultiple(cost: real, stop: Option<real>, f: Fill): Option<real> {
    if stop.None? || f.quantity <= 0.0 || cost - stop.value <= 0.0 then None
    else Some(Round6((f.price - cost) / (cost - stop.value)))
  }

  /** The leg a sell realizes, if its cost is known at all. */
  function LegOf(st: CostState, f: Fill, p: Position): Option<Leg> {
    var cost := CostBasis(st, p);
    if f.quantity <= 0.0 || cost.None? then None
    else Some(Leg(
      Round6(Gain(cost.value, f.price, f.quantity, f.fees, EntryFees(st, f.quantity))),
      SellRMultiple(cost.value, Or(p.initialStop, p.currentStop), f),
      Some(f.quantity)))
  }

  // ----- a whole replay

  function Replay(order: seq<Fill>): (st: CostState)
    ensures st.quantity >= 0.0
  {
    if order == [] then FLAT
    else
      var f := order[|order| - 1];
      var st := Replay(order[..|order| - 1]);
      if f.side.Buy? then ApplyBuy(st, f) else ApplySell(st, f)
  }

  /** The legs of the reported sells, in replay order. */
  function LegsOf(order: seq<Fill>, reported: set<nat>, p: Position): seq<Leg> {
    if order == [] then []
    else
      var f := order[|order| - 1];
      var before := order[..|order| - 1];
      var leg := LegOf(Replay(before), f, p);
      LegsOf(before, reported, p)
        + (if f.side.Sell? && f.key in reported && leg.Some? then [leg.value] else [])
  }

  /** `FillCostState` and the two helpers that update it. */
  class FillCostState {
    var quantity: real
    var averageCost: real
    var entryFeePool: real

    ghost function Value(): CostState
      reads this
    {
      CostState(quantity, averageCost, entryFeePool)
    }

    constructor ()
      ensures Value() == FLAT
    {
      quantity, averageCost, entryFeePool := 0.0, 0.0, 0.0;
    }

    method Buy(f: Fill)
      requires quantity >= 0.0
      modifies this
      ensures Value() == ApplyBuy(old(Value()), f)
    {
      if f.quantity <= 0.0 {
        return;
      }
      var newQuantity := quantity + f.quantity;
      averageCost := MeanCost(quantity, averageCost, f.quantity, f.price);
      quantity := newQuantity;
      entryFeePool := entryFeePool + f.fees;
    }

    method Sell(f: Fill, p: Position, reported: bool) returns (legs: seq<Leg>)
      requires quantity >= 0.0
      modifies this
      ensures Value() == ApplySell(old(Value()), f)
      ensures var leg := LegOf(old(Value()), f, p);
        legs == if reported && leg.Some? then [leg.value] else []
    {
      legs := [];
      if f.quantity <= 0.0 {
        return;
      }
      var cost := if quantity > 0.0 then Some(averageCost) else p.entryPrice;
      var consumed := if quantity > 0.0 then Min(f.quantity, quantity) else 0.0;
      var entryFees := if quantity > 0.0 then Share(entryFeePool, consumed, quantity) else 0.0;
      if reported && cost.Some? {
        legs := [Leg(
          Round6(Gain(cost.value, f.price, f.quantity, f.fees, entryFees)),
          SellRMultiple(cost.value, Or(p.initialStop, p.currentStop), f),
          Some(f.quantity))];
      }
      if quantity <= 0.0 {
        return;
      }
      quantity := Round6(Max(0.0, quantity - consumed));
      entryFeePool := Round6(Max(0.0, entryFeePool - entryFees));
      if quantity == 0.0 {
        averageCost := 0.0;
        entryFeePool := 0.0;
      }
    }
  }

  // ----- grouping fills by position

  predicate Replayable(f: Fill) {
    !f.reconciliation.Ignored?
  }

  /** `_fills_by_position_id(fills)[pid]`: the last row of each fill id. */
  function Kept(fills: seq<Fill>, pid: PositionId): (m: map<nat, Fill>)
    ensures Keyed(m)
  {
    if fills == [] then map[]
    else
      var f := fills[|fills| - 1];
      var m := Kept(fills[..|fills| - 1], pid);
      if f.positionId == pid && Replayable(f) then m[f.key := f] else m
  }

  method FillsByPosition(fills: seq<Fill>) returns (rows: map<PositionId, map<nat, Fill>>)
    ensures forall pid :: pid in rows <==> Kept(fills, pid) != map[]
    ensures forall pid :: pid in rows ==> rows[pid] == Kept(fills, pid)
  {
    rows := map[];
    for i := 0 to |fills|
      invariant forall pid :: pid in rows <==> Kept(fills[..i], pid) != map[]
      invariant forall pid :: pid in rows ==> rows[pid] == Kept(fills[..i], pid)
    {
      var f := fills[i];
      assert fills[..i + 1][..i] == fills[..i];
      if Replayable(f) {
        var row := if f.positionId in rows then rows[f.positionId] else map[];
        assert f.key in row[f.key := f];
        rows := rows[f.positionId := row[f.key := f]];
      }
    }
    assert fills[..|fills|] == fills;
  }

  function ReportedSells(report: seq<Fill>): set<nat> {
    set f | f in report && f.side.Sell? && Replayable(f) :: f.key
  }

  /** The legs one position contributes to a report. */
  ghost function PositionLegs(report: seq<Fill>, basis: seq<Fill>, pid: PositionId, p: Position): seq<Leg> {
    LegsOf(Ordered(Kept(basis + report, pid)), ReportedSells(report), p)
  }

  lemma {:induction false} NothingReported(order: seq<Fill>, p: Position)
    ensures LegsOf(order, {}, p) == []
  {
    if order != [] {
      NothingReported(order[..|order| - 1], p);
    }
  }

  /** The loop over one position's fills. */
  method ReplayPosition(order: seq<Fill>, reported: set<nat>, p: Position) returns (legs: seq<Leg>)
    ensures legs == LegsOf(order, reported, p)
  {
    var state := new FillCostState();
    legs := [];
    for i := 0 to |order|
      invariant state.Value() == Replay(order[..i])
      invariant legs == LegsOf(order[..i], reported, p)
    {
      assert order[..i + 1][..i] == order[..i];
      if order[i].side.Buy? {
        state.Buy(order[i]);
      } else {
        var more := state.Sell(order[i], p, order[i].key in reported);
        legs := legs + more;
      }
    }
    assert order[..|order|] == order;
  }

  /** The legs of a report, by position; positions without a leg have no entry. */
  ghost function RealizedLegs(report: seq<Fill>, basis: seq<Fill>, positions: map<PositionId, Position>)
    : map<PositionId, seq<Leg>>
  {
    map pid | pid in positions && PositionLegs(report, basis, pid, positions[pid]) != [] ::
      PositionLegs(report, basis, pid, positions[pid])
  }

  lemma NoFillsNoLegs(report: seq<Fill>, basis: seq<Fill>, pid: PositionId, p: Position)
    requires Kept(basis + report, pid) == map[]
    ensures PositionLegs(report, basis, pid, p) == []
  {
    OrderIsUnique(Ordered(Kept(basis + report, pid)), []);
  }

  /** The reported legs among a position's grouped fills. */
  ghost function GroupLegs(m: map<nat, Fill>, reported: set<nat>, p: Position): seq<Leg>
    requires Keyed(m)
  {
    LegsOf(Ordered(m), reported, p)
  }

  method ReplayPositions(
    rows: map<PositionId, map<nat, Fill>>, reported: set<nat>, positions: map<PositionId, Position>)
    returns (legs: map<PositionId, seq<Leg>>)
    requires forall pid :: pid in rows ==> Keyed(rows[pid])
    ensures forall pid :: pid in legs ==> pid in rows && pid in positions
    ensures forall pid :: pid in rows && pid in positions ==>
      var own := GroupLegs(rows[pid], reported, positions[pid]);
      if own == [] then pid !in legs else pid in legs && legs[pid] == own
  {
    legs := map[];
    var todo := rows.Keys;
    while todo != {}
      invariant todo <= rows.Keys
      invariant forall pid :: pid in legs ==> pid in rows && pid !in todo && pid in positions
      invariant forall pid :: pid in rows && pid !in todo && pid in positions ==>
        var own := GroupLegs(rows[pid], reported, positions[pid]);
        if own == [] then pid !in legs else pid in legs && legs[pid] == own
      decreases |todo|
    {
      var pid :| pid in todo;
      todo := todo - {pid};
      if pid in positions {
        var order := SortForReplay(rows[pid]);
        var own := ReplayPosition(order, reported, positions[pid]);
        assert own == GroupLegs(rows[pid], reported, positions[pid]);
        if own != [] {
          legs := legs[pid := own];
        }
      }
    }
  }

  /** `_fill_realized_legs`: the replay over all positions. */
  method FillRealizedLegs(report: seq<Fill>, basis: seq<Fill>, positions: map<PositionId, Position>)
    returns (legs: map<PositionId, seq<Leg>>)
    ensures legs == RealizedLegs(report, basis, positions)
  {
    var reported := ReportedSells(report);
    if reported == {} {
      forall pid | pid in positions
        ensures PositionLegs(report, basis, pid, positions[pid]) == []
      {
        NothingReported(Ordered(Kept(basis + report, pid)), positions[pid]);
      }
      return map[];
    }
    var rows := FillsByPosition(basis + report);
    legs := ReplayPositions(rows, reported, positions);
    AreRealizedLegs(legs, rows, report, basis, positions);
  }

  lemma AreRealizedLegs(
    legs: map<PositionId, seq<Leg>>, rows: map<PositionId, map<nat, Fill>>,
    report: seq<Fill>, basis: seq<Fill>, positions: map<PositionId, Position>)
    requires forall pid :: pid in rows <==> Kept(basis + report, pid) != map[]
    requires forall pid :: pid in rows ==> Keyed(rows[pid]) && rows[pid] == Kept(basis + report, pid)
    requires forall pid :: pid in legs ==> pid in rows && pid in positions
    requires forall pid :: pid in rows && pid in positions ==>
      var own := GroupLegs(rows[pid], ReportedSells(report), positions[pid]);
      if own == [] then pid !in legs else pid in legs && legs[pid] == own
    ensures legs == RealizedLegs(report, basis, positions)
  {
    hide LegsOf;
    hide Ordered;
    hide Kept;
    hide ReportedSells;
    hide Keyed;
    forall pid | pid in positions && pid !in rows
      ensures PositionLegs(report, basis, pid, positions[pid]) == []
    {
      NoFillsNoLegs(report, basis, pid, positions[pid]);
    }
  }
}
