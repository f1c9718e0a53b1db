/** Open quantities as analytics derives them from fills and journal, against the quantities
    the ledger stores. */
module OpenPositions {
  import opened Records
  import opened Rounding
  import opened Wrappers
  import opened Ledger
  import opened LedgerSafety
  import opened LedgerAccounts
  import opened RealizedPnl
  import opened Totals

  // ----- the quantity of one position at a time

  ghost predicate HasActiveFill(fills: seq<Fill>, pid: PositionId) {
    exists f :: f in fills && f.positionId == pid && !f.reconciliation.Ignored?
  }

  /** `_position_exit_quantities_from_journals`. */
  function ExitedBy(trades: seq<Trade>, pid: PositionId, to: int): real {
    if trades == [] then 0.0
    else
      var t := trades[|trades| - 1];
      ExitedBy(trades[..|trades| - 1], pid, to)
        + (if t.exitTs.Some? && t.exitTs.value <= to then Of(t, pid, t.quantity) else 0.0)
  }

  /** The trade was entered by then and not yet exited. */
  predicate Running(t: Trade, pid: PositionId, to: int) {
    && t.positionId == Some(pid) && t.quantity.Some?
    && (t.entryTs.Some? ==> t.entryTs.value <= to)
    && (t.exitTs.Some? ==> t.exitTs.value > to)
  }

  ghost predicate HasRunning(trades: seq<Trade>, pid: PositionId, to: int) {
    exists t :: t in trades && Running(t, pid, to)
  }

  /** `_position_quantities_from_journals`. */
  function RunningQuantity(trades: seq<Trade>, pid: PositionId, to: int): real {
    if trades == [] then 0.0
    else
      var t := trades[|trades| - 1];
      RunningQuantity(trades[..|trades| - 1], pid, to) + (if Running(t, pid, to) then t.quantity.value else 0.0)
  }

  predicate Started(p: Position, to: int) {
    p.entryDate.Some? ==> p.entryDate.value <= to
  }

  /** The quantity `_open_positions_as_of` settles on, before dropping what is not positive. */
  ghost function QuantityAsOf(s: Books, pid: PositionId, to: int): Option<real>
    requires pid in s.positions
  {
    var p := s.positions[pid];
    if HasActiveFill(Until(s.fills, to), pid) then
      Some(Held(Until(s.fills, to), pid) - ExitedBy(s.trades, pid, to))
    else if HasRunning(s.trades, pid, to) then Some(RunningQuantity(s.trades, pid, to))
    else if p.status.Open? || p.status.Reduced? then p.quantity
    else None
  }

  /** The open positions at a time, with their quantities. */
  ghost function OpenAsOf(s: Books, to: int): map<PositionId, real> {
    map pid | pid in s.positions && Started(s.positions[pid], to)
              && QuantityAsOf(s, pid, to).Some? && QuantityAsOf(s, pid, to).value > 0.0 ::
      QuantityAsOf(s, pid, to).value
  }

  // ----- the loops

  method QuantitiesFromFills(fills: seq<Fill>) returns (quantities: map<PositionId, real>)
    ensures forall pid :: pid in quantities <==> HasActiveFill(fills, pid)
    ensures forall pid :: pid in quantities ==> quantities[pid] == Held(fills, pid)
  {
    quantities := map[];
    for i := 0 to |fills|
      invariant forall pid :: pid in quantities <==> HasActiveFill(fills[..i], pid)
      invariant forall pid :: (if pid in quantities then quantities[pid] else 0.0) == Held(fills[..i], pid)
    {
      hide Held;
      var f := fills[i];
      assert fills[..i + 1] == fills[..i] + [f];
      forall pid
        ensures Held(fills[..i + 1], pid) == Held(fills[..i], pid) + Signed(f, pid)
        ensures HasActiveFill(fills[..i + 1], pid)
           <==> HasActiveFill(fills[..i], pid) || (f.positionId == pid && !f.reconciliation.Ignored?)
      {
        HeldAppend(fills[..i], f, pid);
        ActiveAppend(fills[..i], f, pid);
      }
      if !f.reconciliation.Ignored? {
        var signed := if f.side.Buy? then f.quantity else -f.quantity;
        var sofar := if f.positionId in quantities then quantities[f.positionId] else 0.0;
        quantities := quantities[f.positionId := sofar + signed];
      }
    }
    assert fills[..|fills|] == fills;
  }

  lemma ActiveAppend(fills: seq<Fill>, f: Fill, pid: PositionId)
    ensures HasActiveFill(fills + [f], pid)
       <==> HasActiveFill(fills, pid) || (f.positionId == pid && !f.reconciliation.Ignored?)
  {
    assert f in fills + [f];
    if HasActiveFill(fills, pid) {
      var g :| g in fills && g.positionId == pid && !g.reconciliation.Ignored?;
      assert g in fills + [f];
    }
  }

  method ExitQuantities(trades: seq<Trade>, to: int) returns (quantities: map<PositionId, real>)
    ensures forall pid :: (if pid in quantities then quantities[pid] else 0.0) == ExitedBy(trades, pid, to)
  {
    quantities := map[];
    for i := 0 to |trades|
      invariant forall pid :: (if pid in quantities then quantities[pid] else 0.0) == ExitedBy(trades[..i], pid, to)
    {
      hide ExitedBy;
      var t := trades[i];
      ghost var before := quantities;
      if t.positionId.Some? && t.quantity.Some? && t.exitTs.Some? && t.exitTs.value <= to {
        var pid := t.positionId.value;
        var sofar := if pid in quantities then quantities[pid] else 0.0;
        quantities := quantities[pid := sofar + t.quantity.value];
      }
      forall pid
        ensures (if pid in quantities then quantities[pid] else 0.0) == ExitedBy(trades[..i + 1], pid, to)
      {
        ExitedByStep(trades, i, pid, to);
        assert (if pid in before then before[pid] else 0.0) == ExitedBy(trades[..i], pid, to);
      }
    }
    assert trades[..|trades|] == trades;
  }

  lemma ExitedByStep(trades: seq<Trade>, i: nat, pid: PositionId, to: int)
    requires i < |trades|
    ensures var t := trades[i];
      ExitedBy(trades[..i + 1], pid, to) == ExitedBy(trades[..i], pid, to)
        + (if t.exitTs.Some? && t.exitTs.value <= to then Of(t, pid, t.quantity) else 0.0)
  {
    assert trades[..i + 1][..i] == trades[..i];
  }

  method RunningQuantities(trades: seq<Trade>, to: int) returns (quantities: map<PositionId, real>)
    ensures forall pid :: pid in quantities <==> HasRunning(trades, pid, to)
    ensures forall pid :: pid in quantities ==> quantities[pid] == RunningQuantity(trades, pid, to)
  {
    quantities := map[];
    for i := 0 to |trades|
      invariant forall pid :: pid in quantities <==> HasRunning(trades[..i], pid, to)
      invariant forall pid ::
        (if pid in quantities then quantities[pid] else 0.0) == RunningQuantity(trades[..i], pid, to)
    {
      hide RunningQuantity;
      var t := trades[i];
      ghost var before := quantities;
      if t.positionId.Some? && Running(t, t.positionId.value, to) {
        var pid := t.positionId.value;
        var sofar := if pid in quantities then quantities[pid] else 0.0;
        quantities := quantities[pid := sofar + t.quantity.value];
      }
      forall pid
        ensures pid in quantities <==> HasRunning(trades[..i + 1], pid, to)
        ensures (if pid in quantities then quantities[pid] else 0.0) == RunningQuantity(trades[..i + 1], pid, to)
      {
        RunningStep(trades, i, pid, to);
        assert pid in before <==> HasRunning(trades[..i], pid, to);
        assert (if pid in before then before[pid] else 0.0) == RunningQuantity(trades[..i], pid, to);
      }
    }
    assert trades[..|trades|] == trades;
  }

  lemma RunningStep(trades: seq<Trade>, i: nat, pid: PositionId, to: int)
    requires i < |trades|
    ensures var t := trades[i];
      && RunningQuantity(trades[..i + 1], pid, to)
           == RunningQuantity(trades[..i], pid, to) + (if Running(t, pid, to) then t.quantity.value else 0.0)
      && (HasRunning(trades[..i + 1], pid, to) <==> HasRunning(trades[..i], pid, to) || Running(t, pid, to))
  {
    assert trades[..i + 1][..i] == trades[..i];
    assert trades[..i + 1] == trades[..i] + [trades[i]];
    assert trades[i] in trades[..i + 1];
    if HasRunning(trades[..i], pid, to) {
      var t :| t in trades[..i] && Running(t, pid, to);
      assert t in trades[..i + 1];
    }
  }

  /** `_open_positions_as_of`. */
  method OpenPositionsAsOf(s: Books, to: int) returns (open: map<PositionId, real>)
    ensures open == OpenAsOf(s, to)
  {
    var fillQuantities := QuantitiesFromFills(Until(s.fills, to));
    var exitQuantities := ExitQuantities(s.trades, to);
    var runningQuantities := RunningQuantities(s.trades, to);
    open := map[];
    var todo := s.positions.Keys;
    hide Held;
    hide ExitedBy;
    hide RunningQuantity;
    while todo != {}
      invariant todo <= s.positions.Keys
      invariant forall pid :: pid in open ==> pid in s.positions && pid !in todo
      invariant forall pid :: pid in s.positions && pid !in todo ==>
        (pid in open <==> pid in OpenAsOf(s, to)) && (pid in open ==> open[pid] == OpenAsOf(s, to)[pid])
      decreases |todo|
    {
      var pid :| pid in todo;
      todo := todo - {pid};
      var p := s.positions[pid];
      if Started(p, to) {
        var quantity: Option<real> := None;
        if pid in fillQuantities {
          quantity := Some(fillQuantities[pid] - (if pid in exitQuantities then exitQuantities[pid] else 0.0));
        }
        if quantity.None? && pid in runningQuantities {
          quantity := Some(runningQuantities[pid]);
        }
        if quantity.None? && (p.status.Open? || p.status.Reduced?) {
          quantity := p.quantity;
        }
        assert quantity == QuantityAsOf(s, pid, to);
        if quantity.Some? && quantity.value > 0.0 {
          open := open[pid := quantity.value];
        }
      }
    }
  }

  // ----- as of now

  /** Everything in the tables has happened by then. */
  ghost predicate AllPast(s: Books, now: int) {
    && (forall i :: 0 <= i < |s.fills| ==> s.fills[i].executedAt <= now)
    && (forall i :: 0 <= i < |s.trades| ==> s.trades[i].exitTs.Some? && s.trades[i].exitTs.value <= now)
    && (forall pid :: pid in s.positions ==> Started(s.positions[pid], now))
  }

  lemma {:induction false} HeldUntil(fills: seq<Fill>, now: int, pid: PositionId)
    requires forall i :: 0 <= i < |fills| ==>
      fills[i].executedAt <= now && (fills[i].active <==> !fills[i].reconciliation.Ignored?)
    ensures Held(Until(fills, now), pid) == Held(fills, pid)
  {
    if fills != [] {
      var front, f := fills[..|fills| - 1], fills[|fills| - 1];
      HeldUntil(front, now, pid);
      HeldAppend(Until(front, now), f, pid);
      assert Until(front, now) + [] == Until(front, now);
    }
  }

  lemma {:induction false} ExitedByNow(trades: seq<Trade>, now: int, pid: PositionId)
    requires forall i :: 0 <= i < |trades| ==> trades[i].exitTs.Some? && trades[i].exitTs.value <= now
    ensures ExitedBy(trades, pid, now) == Exited(trades, pid)
    ensures !HasRunning(trades, pid, now)
  {
    if trades != [] {
      ExitedByNow(trades[..|trades| - 1], now, pid);
      assert trades == trades[..|trades| - 1] + [trades[|trades| - 1]];
    }
  }

  predicate Live(s: Books, pid: PositionId) {
    pid in s.positions && s.positions[pid].status in {Open, Reduced}
  }

  function StoredQuantity(s: Books, pid: PositionId): real {
    if pid in s.positions then s.positions[pid].quantity.GetOr(0.0) else 0.0
  }

  /** As of now a live position with fills shows its stored quantity less what fills and
      trades do not explain; without fills it shows the stored one. */
  lemma QuantityAsOfNow(s: Books, pid: PositionId, now: int)
    requires Safe(s) && AllPast(s, now) && Live(s, pid)
    ensures QuantityAsOf(s, pid, now) == Some(
      if HasActiveFill(Until(s.fills, now), pid) then StoredQuantity(s, pid) - Unexplained(s, pid)
      else StoredQuantity(s, pid))
  {
    hide Held;
    hide Exited;
    hide ExitedBy;
    assert SafePosition(s.positions[pid]);
    forall i | 0 <= i < |s.fills|
      ensures s.fills[i].active <==> !s.fills[i].reconciliation.Ignored?
    {
      assert SafeFill(s.fills[i]);
    }
    HeldUntil(s.fills, now, pid);
    ExitedByNow(s.trades, now, pid);
  }

  lemma ShownAsOfNow(s: Books, pid: PositionId, now: int)
    requires Safe(s) && AllPast(s, now) && Live(s, pid)
    ensures (pid in OpenAsOf(s, now) && OpenAsOf(s, now)[pid] == StoredQuantity(s, pid))
       <==> (!HasActiveFill(Until(s.fills, now), pid) || Unexplained(s, pid) == 0.0)
  {
    hide Unexplained;
    hide Held;
    hide ExitedBy;
    QuantityAsOfNow(s, pid, now);
    assert SafePosition(s.positions[pid]) && Started(s.positions[pid], now);
  }

  lemma AdmissibleIsValid(steps: seq<Step>)
    requires AdmissibleRun(steps)
    ensures ValidRun(steps)
  {
  }

  /** On every ledger an admissible run reaches, analytics shows as of now exactly the stored
      quantity of a live position if no fill is attached to it or nothing was put on it by
      hand; a hand-opened position shows too little once a fill reaches it. */
  lemma ShowsStoredQuantityExactly(steps: seq<Step>, pid: PositionId, now: int)
    requires AdmissibleRun(steps) && AllPast(Run(EMPTY, steps), now) && Live(Run(EMPTY, steps), pid)
    ensures var s := Run(EMPTY, steps);
      (pid in OpenAsOf(s, now) && OpenAsOf(s, now)[pid] == StoredQuantity(s, pid))
        <==> (!HasActiveFill(Until(s.fills, now), pid) || Baseline(steps, pid) == 0.0)
  {
    hide Run;
    hide OpenAsOf;
    hide Unexplained;
    hide Baseline;
    AdmissibleIsValid(steps);
    RunSafe(steps);
    QuantityIsConserved(steps, pid);
    ShownAsOfNow(Run(EMPTY, steps), pid, now);
  }

  const MANUAL_TEN := Position(
    "SPY", Open, Some(0), Some(10.0), Some(10.0), None, None, Some(0.0), Some(0.0), None)
  const BOUGHT_FIVE := RowData(1, "SPY", Buy, 5.0, 10.0, 0.0, 1, Some(Manual("m")))

  lemma CreateOpens(name: string, p: Position)
    ensures Run(EMPTY, [Create(name, p)]) == Books(map[Manual(name) := p], [], [])
  {
    assert [Create(name, p)][..0] == [];
  }

  /** A position of ten opened by hand and a bought fill of five: the ledger stores fifteen,
      analytics shows five. */
  lemma ManualBaselineIsDropped()
    ensures WellFormedRow(BOUGHT_FIVE) && SafePosition(MANUAL_TEN)
    ensures var s, pid := Run(EMPTY, [Create("m", MANUAL_TEN), Import(BOUGHT_FIVE)]), Manual("m");
      && StoredQuantity(s, pid) == 15.0
      && pid in s.positions && QuantityAsOf(s, pid, 1) == Some(5.0)
  {
    var pid := Manual("m");
    var manual := Run(EMPTY, [Create("m", MANUAL_TEN)]);
    CreateOpens("m", MANUAL_TEN);
    assert Upper("SPY") == "SPY";
    NamedBuyLands(manual, BOUGHT_FIVE, pid);
    var steps := [Create("m", MANUAL_TEN), Import(BOUGHT_FIVE)];
    assert steps[..1] == [Create("m", MANUAL_TEN)];
    hide *;
    assert manual.fills == [];
    OneFillShows(Run(EMPTY, steps), FillOfRow(BOUGHT_FIVE, pid, Matched), pid, 1);
  }

  /** With one bought fill and no journal the fill's quantity is shown. */
  lemma OneFillShows(s: Books, f: Fill, pid: PositionId, to: int)
    requires pid in s.positions && s.fills == [f] && s.trades == []
    requires f.positionId == pid && f.side.Buy? && f.active && !f.reconciliation.Ignored? && f.executedAt <= to
    ensures QuantityAsOf(s, pid, to) == Some(f.quantity)
  {
    HeldAppend([], f, pid);
    assert [] + [f] == [f] && [f][..0] == [];
    assert Until([f], to) == [f];
  }

  // ----- unrealized PnL

  /** What an open position adds: its marked gain, or the stored value of a live position
      without a mark. */
  function MarkedGain(p: Position, quantity: real, closes: map<string, real>): real {
    if p.entryPrice.None? then 0.0
    else if p.symbol in closes then NetGain(p.entryPrice.value, closes[p.symbol], quantity, 0.0)
    else if p.status.Open? || p.status.Reduced? then p.unrealizedPnl.GetOr(0.0)
    else 0.0
  }

  function MarkedGains(s: Books, open: map<PositionId, real>, closes: map<string, real>): map<PositionId, real> {
    map pid | pid in open && pid in s.positions :: MarkedGain(s.positions[pid], open[pid], closes)
  }

  /** `_unrealized_pnl` of the positions open at a time, given the closes up to then. */
  ghost function UnrealizedAsOf(s: Books, to: int, closes: map<string, real>): real {
    Round6(Total(MarkedGains(s, OpenAsOf(s, to), closes)))
  }

  lemma GainsWithout(s: Books, open: map<PositionId, real>, closes: map<string, real>, pid: PositionId)
    requires pid in open && pid in s.positions
    ensures Total(MarkedGains(s, open, closes))
         == MarkedGain(s.positions[pid], open[pid], closes) + Total(MarkedGains(s, open - {pid}, closes))
  {
    hide MarkedGain;
    TotalRemove(MarkedGains(s, open, closes), pid);
    assert MarkedGains(s, open, closes) - {pid} == MarkedGains(s, open - {pid}, closes);
  }

  method SumGains(s: Books, open: map<PositionId, real>, closes: map<string, real>) returns (total: real)
    requires open.Keys <= s.positions.Keys
    ensures total == Total(MarkedGains(s, open, closes))
  {
    hide MarkedGain;
    hide MarkedGains;
    total := 0.0;
    var todo := open;
    while todo != map[]
      invariant todo.Keys <= open.Keys && forall pid :: pid in todo ==> todo[pid] == open[pid]
      invariant total + Total(MarkedGains(s, todo, closes)) == Total(MarkedGains(s, open, closes))
      decreases |todo|
    {
      var pid :| pid in todo;
      GainsWithout(s, todo, closes, pid);
      assert (todo - {pid}).Keys == todo.Keys - {pid};
      total := total + MarkedGain(s.positions[pid], todo[pid], closes);
      todo := todo - {pid};
    }
    NoGains(s, closes);
  }

  lemma NoGains(s: Books, closes: map<string, real>)
    ensures Total(MarkedGains(s, map[], closes)) == 0.0
  {
    assert MarkedGains(s, map[], closes) == map[];
  }

  method UnrealizedPnl(s: Books, to: int, closes: map<string, real>) returns (pnl: real)
    ensures pnl == UnrealizedAsOf(s, to, closes)
  {
    var open := OpenPositionsAsOf(s, to);
    var total := SumGains(s, open, closes);
    pnl := Round6(total);
  }
}
