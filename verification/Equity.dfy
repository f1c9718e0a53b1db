/** Account equity: from scratch, and incrementally from the latest snapshot. */
module Equity {
  import opened Records
  import opened Rounding
  import opened Wrappers
  import opened Totals
  import opened RealizedPnl
  import opened RealizedEvents
  import opened Ledger
  import opened LedgerSafety
  import opened OpenPositions

  const DEFAULT_ACCOUNT_EQUITY: real := 10000.0

  datatype Snapshot = Snapshot(ts: int, equity: real, unrealizedPnl: real)

  /** The event sum of everything up to a time. */
  ghost function RealizedUntil(
    fills: seq<Fill>, trades: seq<Trade>, positions: map<PositionId, Position>, to: int): real
  {
    RealizedSum(Report(fills, None, to), Until(fills, to), TradesWithin(trades, None, to), positions)
  }

  /** The event sum of what happened after a time, at a later one. */
  ghost function RealizedAfter(
    fills: seq<Fill>, trades: seq<Trade>, positions: map<PositionId, Position>, since: int, to: int): real
  {
    var from := Some(since + 1);
    RealizedSum(Report(fills, from, to), Until(fills, to), TradesWithin(trades, from, to), positions)
  }

  /** `_equity_as_of` without a snapshot. */
  ghost function FromScratch(
    accountEquity: Option<real>, fills: seq<Fill>, trades: seq<Trade>, positions: map<PositionId, Position>,
    to: int, unrealized: real): real
  {
    Round6(OrElse(accountEquity, DEFAULT_ACCOUNT_EQUITY) + RealizedUntil(fills, trades, positions, to) + unrealized)
  }

  /** `_equity_as_of` from a snapshot that records its unrealized PnL. */
  ghost function FromSnapshot(
    snapshot: Snapshot, fills: seq<Fill>, trades: seq<Trade>, positions: map<PositionId, Position>,
    to: int, unrealized: real): real
  {
    Round6(snapshot.equity + RealizedAfter(fills, trades, positions, snapshot.ts, to)
           + (unrealized - snapshot.unrealizedPnl))
  }

  /** The equity computation itself, over the event loops. */
  method EquityAsOf(
    snapshot: Option<Snapshot>, accountEquity: Option<real>, fills: seq<Fill>, trades: seq<Trade>,
    positions: map<PositionId, Position>, to: int, unrealized: real)
    returns (equity: real)
    ensures equity == match snapshot
      case None => FromScratch(accountEquity, fills, trades, positions, to, unrealized)
      case Some(s) => FromSnapshot(s, fills, trades, positions, to, unrealized)
  {
    hide RealizedSum;
    hide Until;
    hide From;
    hide TradesWithin;
    var basis := Until(fills, to);
    if snapshot.Some? {
      var since := Some(snapshot.value.ts + 1);
      var _, realizedDelta := Realize(From(basis, since), basis, TradesWithin(trades, since, to), positions);
      var unrealizedDelta := unrealized - snapshot.value.unrealizedPnl;
      return Round6(snapshot.value.equity + realizedDelta + unrealizedDelta);
    }
    var start := OrElse(accountEquity, DEFAULT_ACCOUNT_EQUITY);
    var _, realized := Realize(From(basis, None), basis, TradesWithin(trades, None, to), positions);
    return Round6(start + realized + unrealized);
  }

  // ----- rounding before and after a whole number of units

  /** x lies exactly halfway between two multiples of the unit. */
  predicate HalfUnit(x: real) {
    x * 1000000.0 - (x * 1000000.0).Floor as real == 0.5
  }

  predicate EvenUnits(x: real) {
    OnGrid(x) && (x * 1000000.0).Floor % 2 == 0
  }

  lemma ShiftedHalfEven(x: real, n: int)
    ensures RoundHalfEven(x + n as real) == RoundHalfEven(x) + n
       <==> x - x.Floor as real != 0.5 || n % 2 == 0
  {
    assert (x + n as real).Floor == x.Floor + n;
  }

  /** Rounding first and adding a grid amount gives the same as adding and then rounding,
      unless a half unit meets an odd number of units. */
  lemma RoundThenAdd(x: real, y: real)
    requires OnGrid(y)
    ensures Round6(Round6(x) + y) == Round6(x + y) <==> !HalfUnit(x) || EvenUnits(y)
  {
    var n := (y * 1000000.0).Floor;
    Round6OnGrid(x);
    GridAddExact(Round6(x), y);
    ShiftedHalfEven(x * 1000000.0, n);
    assert (x + y) * 1000000.0 == x * 1000000.0 + n as real;
    assert y == n as real / 1000000.0;
  }

  lemma HalfUnitShift(x: real, y: real)
    requires OnGrid(y)
    ensures HalfUnit(x + y) <==> HalfUnit(x)
  {
    var n := (y * 1000000.0).Floor;
    assert (x + y) * 1000000.0 == x * 1000000.0 + n as real;
    assert (x * 1000000.0 + n as real).Floor == (x * 1000000.0).Floor + n;
  }

  // ----- the theorem

  /** Everything realized up to t is what was realized up to s plus what came after. */
  lemma RealizedSplitsAt(fills: seq<Fill>, trades: seq<Trade>, positions: map<PositionId, Position>, s: int, t: int)
    requires Consistent(fills) && s <= t
    ensures RealizedUntil(fills, trades, positions, t)
         == RealizedUntil(fills, trades, positions, s) + RealizedAfter(fills, trades, positions, s, t)
    ensures OnGrid(RealizedUntil(fills, trades, positions, s))
    ensures OnGrid(RealizedAfter(fills, trades, positions, s, t))
  {
    WindowSumsAdd(fills, trades, positions, None, s, t);
    SumIsOnGrid(Report(fills, None, s), Until(fills, s), TradesWithin(trades, None, s), positions);
    SumIsOnGrid(Report(fills, Some(s + 1), t), Until(fills, t), TradesWithin(trades, Some(s + 1), t), positions);
  }

  /** Incremental equity against equity from scratch. A snapshot at s that holds what the
      scratch computation gives at s yields the scratch equity at every t >= s, for every
      starting equity but one: a half unit, changed by an odd number of units. */
  lemma IncrementalEquity(
    accountEquity: Option<real>, fills: seq<Fill>, trades: seq<Trade>, positions: map<PositionId, Position>,
    s: int, t: int, unrealizedThen: real, unrealizedNow: real)
    requires Consistent(fills) && s <= t
    requires OnGrid(unrealizedThen) && OnGrid(unrealizedNow)
    ensures
      var equity := FromScratch(accountEquity, fills, trades, positions, s, unrealizedThen);
      var snapshot := Snapshot(s, equity, unrealizedThen);
      var change := RealizedAfter(fills, trades, positions, s, t) + (unrealizedNow - unrealizedThen);
      FromSnapshot(snapshot, fills, trades, positions, t, unrealizedNow)
        == FromScratch(accountEquity, fills, trades, positions, t, unrealizedNow)
      <==> !HalfUnit(OrElse(accountEquity, DEFAULT_ACCOUNT_EQUITY)) || EvenUnits(change)
  {
    hide RealizedUntil;
    hide RealizedAfter;
    hide HalfUnit;
    hide EvenUnits;
    hide Round6;
    hide OnGrid;
    var start := OrElse(accountEquity, DEFAULT_ACCOUNT_EQUITY);
    var before := RealizedUntil(fills, trades, positions, s) + unrealizedThen;
    var change := RealizedAfter(fills, trades, positions, s, t) + (unrealizedNow - unrealizedThen);
    RealizedSplitsAt(fills, trades, positions, s, t);
    GridAdd(RealizedUntil(fills, trades, positions, s), unrealizedThen);
    GridSub(unrealizedNow, unrealizedThen);
    GridAdd(RealizedAfter(fills, trades, positions, s, t), unrealizedNow - unrealizedThen);
    HalfUnitShift(start, before);
    RoundThenAdd(start + before, change);
    var equity := FromScratch(accountEquity, fills, trades, positions, s, unrealizedThen);
    var snapshot := Snapshot(s, equity, unrealizedThen);
    assert snapshot.equity == Round6(start + before) by {
      assert start + RealizedUntil(fills, trades, positions, s) + unrealizedThen == start + before;
    }
    assert FromSnapshot(snapshot, fills, trades, positions, t, unrealizedNow)
        == Round6(Round6(start + before) + change) by {
      assert snapshot.equity + RealizedAfter(fills, trades, positions, s, t) + (unrealizedNow - unrealizedThen)
          == Round6(start + before) + change;
    }
    assert FromScratch(accountEquity, fills, trades, positions, t, unrealizedNow)
        == Round6(start + before + change) by {
      assert start + RealizedUntil(fills, trades, positions, t) + unrealizedNow == start + before + change;
    }
  }

  lemma GridIsNoHalfUnit(x: real)
    requires OnGrid(x)
    ensures !HalfUnit(x)
  {
  }

  /** The case promised: a starting equity in whole units. */
  lemma SnapshotEqualsScratch(
    accountEquity: Option<real>, fills: seq<Fill>, trades: seq<Trade>, positions: map<PositionId, Position>,
    s: int, t: int, unrealizedThen: real, unrealizedNow: real)
    requires Consistent(fills) && s <= t
    requires OnGrid(unrealizedThen) && OnGrid(unrealizedNow) && OnGrid(OrElse(accountEquity, DEFAULT_ACCOUNT_EQUITY))
    ensures
      var equity := FromScratch(accountEquity, fills, trades, positions, s, unrealizedThen);
      var snapshot := Snapshot(s, equity, unrealizedThen);
      FromSnapshot(snapshot, fills, trades, positions, t, unrealizedNow)
        == FromScratch(accountEquity, fills, trades, positions, t, unrealizedNow)
  {
    GridIsNoHalfUnit(OrElse(accountEquity, DEFAULT_ACCOUNT_EQUITY));
    IncrementalEquity(accountEquity, fills, trades, positions, s, t, unrealizedThen, unrealizedNow);
  }

  /** The equity analytics reports for a ledger, everything derived from its tables. */
  ghost function LedgerEquity(s: Books, accountEquity: Option<real>, to: int, closes: map<string, real>): real {
    FromScratch(accountEquity, s.fills, s.trades, s.positions, to, UnrealizedAsOf(s, to, closes))
  }

  /** On any safe ledger, storing equity and unrealized PnL at s and continuing from there
      gives at t what a computation over the whole ledger gives at t. */
  lemma LedgerEquityIsIncremental(
    s: Books, accountEquity: Option<real>, past: int, now: int,
    closesThen: map<string, real>, closesNow: map<string, real>)
    requires Safe(s) && past <= now && OnGrid(OrElse(accountEquity, DEFAULT_ACCOUNT_EQUITY))
    ensures
      var equity := LedgerEquity(s, accountEquity, past, closesThen);
      var snapshot := Snapshot(past, equity, UnrealizedAsOf(s, past, closesThen));
      FromSnapshot(snapshot, s.fills, s.trades, s.positions, now, UnrealizedAsOf(s, now, closesNow))
        == LedgerEquity(s, accountEquity, now, closesNow)
  {
    hide RealizedUntil;
    hide RealizedAfter;
    hide OpenAsOf;
    UniqueIsConsistent(s.fills);
    Round6OnGrid(Total(MarkedGains(s, OpenAsOf(s, past), closesThen)));
    Round6OnGrid(Total(MarkedGains(s, OpenAsOf(s, now), closesNow)));
    SnapshotEqualsScratch(accountEquity, s.fills, s.trades, s.positions, past, now,
      UnrealizedAsOf(s, past, closesThen), UnrealizedAsOf(s, now, closesNow));
  }

  lemma UniqueIsConsistent(fills: seq<Fill>)
    requires UniqueKeys(fills)
    ensures Consistent(fills)
  {
    forall f, g | f in fills && g in fills && f.key == g.key
      ensures f == g
    {
      var i :| 0 <= i < |fills| && fills[i] == f;
      var j :| 0 <= j < |fills| && fills[j] == g;
    }
  }

  // ----- the exception on a ledger

  const HALF_UNIT_START: real := 10000.0078125
  const ONE_SHARE := Position("SPY", Open, Some(0), Some(10.0), Some(1.0), None, None, Some(0.0), Some(0.0), None)

  lemma NothingRealized(positions: map<PositionId, Position>, since: int, to: int)
    ensures RealizedAfter([], [], positions, since, to) == 0.0
  {
    var from := Some(since + 1);
    var legs := LegsByKey(Report([], from, to), Until([], to), TradesWithin([], from, to), positions);
    assert legs == map[];
    assert PnlByKey(legs) == map[];
  }

  /** One open share entered at ten shows the gain of its mark. */
  lemma OneShareGains(to: int, close: real)
    requires to >= 0 && OnGrid(close - 10.0)
    ensures UnrealizedAsOf(Books(map[Manual("m") := ONE_SHARE], [], []), to, map["SPY" := close]) == close - 10.0
  {
    var s, pid, closes := Books(map[Manual("m") := ONE_SHARE], [], []), Manual("m"), map["SPY" := close];
    assert QuantityAsOf(s, pid, to) == Some(1.0);
    assert OpenAsOf(s, to) == map[pid := 1.0];
    assert MarkedGain(ONE_SHARE, 1.0, closes) == close - 10.0 by {
      Round6Identity(close - 10.0);
      hide Round6;
    }
    GainsWithout(s, map[pid := 1.0], closes, pid);
    assert map[pid := 1.0] - {pid} == map[];
    NoGains(s, closes);
    Round6Identity(close - 10.0);
  }

  lemma OneUnitIsOdd()
    ensures OnGrid(0.0) && OnGrid(1.0) && OnGrid(0.000001) && !EvenUnits(0.000001) && HalfUnit(HALF_UNIT_START)
  {
    assert HALF_UNIT_START * 1000000.0 == 10000007812.5;
  }

  /** The exception is reachable: an account that starts with 10000.0078125 and opens one
      share, whose close then rises by one unit, shows two different equities. */
  lemma HalfUnitStartDrifts()
    ensures var s := Run(EMPTY, [Create("m", ONE_SHARE)]);
      var closesThen, closesNow := map["SPY" := 10.0], map["SPY" := 10.000001];
      var equity := LedgerEquity(s, Some(HALF_UNIT_START), 0, closesThen);
      var snapshot := Snapshot(0, equity, UnrealizedAsOf(s, 0, closesThen));
      && SafePosition(ONE_SHARE)
      && FromSnapshot(snapshot, s.fills, s.trades, s.positions, 1, UnrealizedAsOf(s, 1, closesNow))
           != LedgerEquity(s, Some(HALF_UNIT_START), 1, closesNow)
  {
    hide UnrealizedAsOf;
    hide RealizedAfter;
    hide RealizedUntil;
    hide Run;
    hide Round6;
    hide HalfUnit;
    hide EvenUnits;
    hide OnGrid;
    CreateOpens("m", ONE_SHARE);
    var positions := map[Manual("m") := ONE_SHARE];
    OneUnitIsOdd();
    OneShareGains(0, 10.0);
    OneShareGains(1, 10.000001);
    NothingRealized(positions, 0, 1);
    IncrementalEquity(Some(HALF_UNIT_START), [], [], positions, 0, 1, 0.0, 0.000001);
  }
}
