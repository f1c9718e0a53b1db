/** Realized PnL of a reporting window: legs of fills and journal trades, grouped by position
    into events; what a sell realizes depends on nothing but the fills replayed before it. */
module RealizedPnl {
  import opened Records
  import opened Rounding
  import opened Wrappers
  import opened Totals
  import opened ReplayOrder
  import opened CostReplay
  import opened CashConservation

  // ----- windows

  /** `fills_until_to`. */
  function Until(fills: seq<Fill>, to: int): seq<Fill> {
    if fills == [] then []
    else
      var f := fills[|fills| - 1];
      Until(fills[..|fills| - 1], to) + (if f.active && f.executedAt <= to then [f] else [])
  }

  /** The fills of a list from a time on; without a time, all of them. */
  function From(fills: seq<Fill>, from: Option<int>): seq<Fill> {
    if fills == [] then []
    else
      var f := fills[|fills| - 1];
      From(fills[..|fills| - 1], from) + (if from.None? || f.executedAt >= from.value then [f] else [])
  }

  predicate ExitsWithin(t: Trade, from: Option<int>, to: int) {
    t.exitTs.Some? && t.exitTs.value <= to && (from.None? || t.exitTs.value >= from.value)
  }

  function TradesWithin(trades: seq<Trade>, from: Option<int>, to: int): seq<Trade> {
    if trades == [] then []
    else
      var t := trades[|trades| - 1];
      TradesWithin(trades[..|trades| - 1], from, to) + (if ExitsWithin(t, from, to) then [t] else [])
  }

  lemma {:induction false} UntilMembers(fills: seq<Fill>, to: int)
    ensures forall f :: f in Until(fills, to) <==> f in fills && f.active && f.executedAt <= to
  {
    if fills != [] {
      UntilMembers(fills[..|fills| - 1], to);
      assert fills == fills[..|fills| - 1] + [fills[|fills| - 1]];
    }
  }

  lemma {:induction false} FromMembers(fills: seq<Fill>, from: Option<int>)
    ensures forall f :: f in From(fills, from) <==> f in fills && (from.None? || f.executedAt >= from.value)
  {
    if fills != [] {
      FromMembers(fills[..|fills| - 1], from);
      assert fills == fills[..|fills| - 1] + [fills[|fills| - 1]];
    }
  }

  // ----- the legs of a position depend on sets of fills only

  /** No fill id stands for two different fills. */
  ghost predicate Consistent(fills: seq<Fill>) {
    forall f, g :: f in fills && g in fills && f.key == g.key ==> f == g
  }

  lemma {:induction false} KeptMembers(fills: seq<Fill>, pid: PositionId)
    requires Consistent(fills)
    ensures forall k :: k in Kept(fills, pid) ==> Kept(fills, pid)[k] in fills
    ensures forall f :: f in fills && f.positionId == pid && Replayable(f) ==>
      f.key in Kept(fills, pid) && Kept(fills, pid)[f.key] == f
    ensures forall k :: k in Kept(fills, pid) ==>
      Kept(fills, pid)[k].positionId == pid && Replayable(Kept(fills, pid)[k])
  {
    if fills != [] {
      var front := fills[..|fills| - 1];
      assert fills == front + [fills[|fills| - 1]];
      KeptMembers(front, pid);
    }
  }

  ghost predicate SameFills(a: seq<Fill>, b: seq<Fill>) {
    forall f :: f in a <==> f in b
  }

  /** What is kept of a position depends on its own fills. */
  lemma KeptOfOwn(a: seq<Fill>, b: seq<Fill>, pid: PositionId)
    requires Consistent(a) && Consistent(b)
    requires forall f: Fill :: f.positionId == pid ==> (f in a <==> f in b)
    ensures Kept(a, pid) == Kept(b, pid)
  {
    KeptMembers(a, pid);
    KeptMembers(b, pid);
    var m, n := Kept(a, pid), Kept(b, pid);
    forall k
      ensures k in m <==> k in n
      ensures k in m ==> m[k] == n[k]
    {
      if k in m {
        assert m[k] in a && m[k] in b;
      }
      if k in n {
        assert n[k] in b && n[k] in a;
      }
    }
  }

  lemma KeptIgnoresOrder(a: seq<Fill>, b: seq<Fill>, pid: PositionId)
    requires Consistent(a) && SameFills(a, b)
    ensures Kept(a, pid) == Kept(b, pid)
  {
    KeptOfOwn(a, b, pid);
  }

  /** Neither the order nor the repetition of the input rows matters to any leg. */
  lemma LegsIgnoreInputOrder(
    report: seq<Fill>, basis: seq<Fill>, report': seq<Fill>, basis': seq<Fill>, pid: PositionId, p: Position)
    requires Consistent(basis + report)
    requires SameFills(report, report') && SameFills(basis, basis')
    ensures PositionLegs(report, basis, pid, p) == PositionLegs(report', basis', pid, p)
  {
    assert SameFills(basis + report, basis' + report');
    KeptIgnoresOrder(basis + report, basis' + report', pid);
    assert ReportedSells(report) == ReportedSells(report');
  }

  // ----- later fills do not matter

  lemma {:induction false} LegsCut(order: seq<Fill>, n: nat, reported: set<nat>, p: Position)
    requires n <= |order|
    requires forall i :: n <= i < |order| ==> order[i].key !in reported
    ensures LegsOf(order, reported, p) == LegsOf(order[..n], reported, p)
  {
    if n == |order| {
      assert order[..n] == order;
    } else {
      var before := order[..|order| - 1];
      LegsCut(before, n, reported, p);
      assert before[..n] == order[..n];
    }
  }

  lemma {:induction false} LegsOfNone(order: seq<Fill>, reported: set<nat>, p: Position)
    requires forall i :: 0 <= i < |order| ==> order[i].key !in reported
    ensures LegsOf(order, reported, p) == []
  {
    if order != [] {
      LegsOfNone(order[..|order| - 1], reported, p);
    }
  }

  lemma {:induction false} LegsSplit(order: seq<Fill>, n: nat, early: set<nat>, late: set<nat>, p: Position)
    requires n <= |order|
    requires forall i :: 0 <= i < n ==> order[i].key !in late
    requires forall i :: n <= i < |order| ==> order[i].key !in early
    ensures LegsOf(order, early + late, p) == LegsOf(order, early, p) + LegsOf(order, late, p)
  {
    if order != [] {
      var before := order[..|order| - 1];
      if n == |order| {
        LegsSplit(before, n - 1, early, late, p);
        LegsOfNone(order, late, p);
        LegsOfNone(before, late, p);
      } else {
        LegsSplit(before, n, early, late, p);
      }
    }
  }

  /** A sorted replay restricted to the fills up to a time is a prefix of it. */
  lemma OrderedPrefix(m: map<nat, Fill>, early: map<nat, Fill>, cut: int) returns (n: nat)
    requires Keyed(m) && Keyed(early)
    requires forall k :: k in early <==> k in m && m[k].executedAt <= cut
    requires forall k :: k in early ==> early[k] == m[k]
    ensures n <= |Ordered(m)| && Ordered(early) == Ordered(m)[..n]
    ensures forall i :: 0 <= i < n ==> Ordered(m)[i].executedAt <= cut
    ensures forall i :: n <= i < |Ordered(m)| ==> Ordered(m)[i].executedAt > cut
  {
    hide Ordered;
    var s := Ordered(m);
    n := OrderedSplits(s, cut);
    var front := s[..n];
    forall f
      ensures f in front <==> f in Ordered(early)
    {
      if f in front {
        assert f in s;
      }
      if f in Ordered(early) {
        assert f in s;
        var i :| 0 <= i < |s| && s[i] == f;
        assert i < n && front[i] == f;
      }
    }
    OrderIsUnique(front, Ordered(early));
  }

  lemma ReportedMembers(report: seq<Fill>)
    ensures forall k :: k in ReportedSells(report) ==>
      exists f :: f in report && f.key == k && f.side.Sell? && Replayable(f)
  {
  }

  /** What the basis up to a time keeps of a position, in a ledger with unique keys. */
  lemma KeptUntil(fills: seq<Fill>, report: seq<Fill>, to: int, pid: PositionId)
    requires Consistent(fills) && forall f :: f in report ==> f in Until(fills, to)
    ensures Consistent(Until(fills, to) + report)
    ensures Kept(Until(fills, to) + report, pid) == Kept(Until(fills, to), pid)
  {
    UntilMembers(fills, to);
    assert SameFills(Until(fills, to) + report, Until(fills, to));
    KeptIgnoresOrder(Until(fills, to), Until(fills, to) + report, pid);
  }

  lemma KeptUntilPrefix(fills: seq<Fill>, b: int, c: int, pid: PositionId) returns (n: nat)
    requires Consistent(fills) && b <= c
    ensures var order := Ordered(Kept(Until(fills, c), pid));
      && n <= |order| && Ordered(Kept(Until(fills, b), pid)) == order[..n]
      && (forall i :: 0 <= i < n ==> order[i].executedAt <= b)
      && (forall i :: n <= i < |order| ==> order[i].executedAt > b)
    ensures forall f :: f in Ordered(Kept(Until(fills, c), pid)) ==> f in fills
  {
    UntilMembers(fills, b);
    UntilMembers(fills, c);
    KeptMembers(Until(fills, b), pid);
    KeptMembers(Until(fills, c), pid);
    n := OrderedPrefix(Kept(Until(fills, c), pid), Kept(Until(fills, b), pid), b);
  }

  /** A sell's leg is settled when it happens: fills after the report change nothing. */
  lemma LegsIgnoreLaterFills(fills: seq<Fill>, report: seq<Fill>, b: int, c: int, pid: PositionId, p: Position)
    requires Consistent(fills) && b <= c
    requires forall f :: f in report ==> f in Until(fills, b)
    ensures PositionLegs(report, Until(fills, c), pid, p) == PositionLegs(report, Until(fills, b), pid, p)
  {
    UntilMembers(fills, b);
    UntilMembers(fills, c);
    KeptUntil(fills, report, b, pid);
    KeptUntil(fills, report, c, pid);
    var n := KeptUntilPrefix(fills, b, c, pid);
    var order := Ordered(Kept(Until(fills, c), pid));
    ReportedMembers(report);
    forall i | n <= i < |order|
      ensures order[i].key !in ReportedSells(report)
    {
      assert order[i] in order;
    }
    LegsCut(order, n, ReportedSells(report), p);
  }

  /** The report of a window of the ledger. */
  function Report(fills: seq<Fill>, from: Option<int>, to: int): seq<Fill> {
    From(Until(fills, to), from)
  }

  lemma ReportMembers(fills: seq<Fill>, from: Option<int>, to: int)
    ensures forall f :: f in Report(fills, from, to) <==>
      f in fills && f.active && f.executedAt <= to && (from.None? || f.executedAt >= from.value)
  {
    UntilMembers(fills, to);
    FromMembers(Until(fills, to), from);
  }

  /** The legs of a window are those of its first part followed by those of its second. */
  lemma WindowLegsConcatenate(fills: seq<Fill>, from: Option<int>, b: int, c: int, pid: PositionId, p: Position)
    requires Consistent(fills) && b <= c && (from.Some? ==> from.value <= b + 1)
    ensures PositionLegs(Report(fills, from, c), Until(fills, c), pid, p)
         == PositionLegs(Report(fills, from, b), Until(fills, b), pid, p)
          + PositionLegs(Report(fills, Some(b + 1), c), Until(fills, c), pid, p)
  {
    hide LegsOf;
    hide Kept;
    hide Ordered;
    var whole, early, late := Report(fills, from, c), Report(fills, from, b), Report(fills, Some(b + 1), c);
    UntilMembers(fills, b);
    UntilMembers(fills, c);
    ReportMembers(fills, from, c);
    ReportMembers(fills, from, b);
    ReportMembers(fills, Some(b + 1), c);
    LegsIgnoreLaterFills(fills, early, b, c, pid, p);
    KeptUntil(fills, whole, c, pid);
    KeptUntil(fills, early, c, pid);
    KeptUntil(fills, late, c, pid);
    SellsOfWindow(whole, early, late);
    var order := Ordered(Kept(Until(fills, c), pid));
    var n := KeptUntilPrefix(fills, b, c, pid);
    SplitKeys(fills, order, n, b, early, late);
    LegsSplit(order, n, ReportedSells(early), ReportedSells(late), p);
  }

  lemma SellsOfWindow(whole: seq<Fill>, early: seq<Fill>, late: seq<Fill>)
    requires forall f :: f in whole <==> f in early || f in late
    ensures ReportedSells(whole) == ReportedSells(early) + ReportedSells(late)
  {
  }

  lemma SplitKeys(fills: seq<Fill>, order: seq<Fill>, n: nat, b: int, early: seq<Fill>, late: seq<Fill>)
    requires Consistent(fills) && n <= |order|
    requires forall f :: f in order ==> f in fills
    requires forall f :: f in early ==> f in fills && f.executedAt <= b
    requires forall f :: f in late ==> f in fills && f.executedAt > b
    requires forall i :: 0 <= i < n ==> order[i].executedAt <= b
    requires forall i :: n <= i < |order| ==> order[i].executedAt > b
    ensures forall i :: 0 <= i < n ==> order[i].key !in ReportedSells(late)
    ensures forall i :: n <= i < |order| ==> order[i].key !in ReportedSells(early)
  {
    ReportedMembers(early);
    ReportedMembers(late);
    forall i | 0 <= i < |order|
      ensures order[i] in fills
    {
      assert order[i] in order;
    }
  }

  // ----- events

  datatype EventKey = OfPosition(position: PositionId) | OfTrade(trade: TradeId)

  datatype Event = Event(pnl: real, rMultiple: Option<real>)

  function KeyOf(t: Trade): EventKey {
    if t.positionId.Some? then OfPosition(t.positionId.value) else OfTrade(t.id)
  }

  function TradePnl(t: Trade): Option<real> {
    if t.netPnl.Some? then t.netPnl else t.grossPnl
  }

  function LegOfTrade(t: Trade): Leg
    requires TradePnl(t).Some?
  {
    Leg(Round6(TradePnl(t).value), t.rMultiple, t.quantity)
  }

  /** The legs the journal adds under a key. */
  function JournalLegs(journal: seq<Trade>, key: EventKey): seq<Leg> {
    if journal == [] then []
    else
      var t := journal[|journal| - 1];
      JournalLegs(journal[..|journal| - 1], key)
        + (if KeyOf(t) == key && TradePnl(t).Some? then [LegOfTrade(t)] else [])
  }

  ghost function FillLegs(
    report: seq<Fill>, basis: seq<Fill>, positions: map<PositionId, Position>, key: EventKey): seq<Leg>
  {
    if key.OfPosition? && key.position in positions
    then PositionLegs(report, basis, key.position, positions[key.position])
    else []
  }

  ghost function KeyLegs(
    report: seq<Fill>, basis: seq<Fill>, journal: seq<Trade>, positions: map<PositionId, Position>, key: EventKey)
    : seq<Leg>
  {
    FillLegs(report, basis, positions, key) + JournalLegs(journal, key)
  }

  /** The keys that may carry legs. */
  function EventKeys(journal: seq<Trade>, positions: map<PositionId, Position>): set<EventKey> {
    (set pid | pid in positions :: OfPosition(pid)) + (set t | t in journal :: KeyOf(t))
  }

  /** `_realized_events` before aggregation: the legs under every key that has some. */
  ghost function LegsByKey(
    report: seq<Fill>, basis: seq<Fill>, journal: seq<Trade>, positions: map<PositionId, Position>)
    : map<EventKey, seq<Leg>>
  {
    map key | key in EventKeys(journal, positions) && KeyLegs(report, basis, journal, positions, key) != [] ::
      KeyLegs(report, basis, journal, positions, key)
  }

  function PnlByKey(legs: map<EventKey, seq<Leg>>): map<EventKey, real> {
    map key | key in legs :: Round6(SumPnl(legs[key]))
  }

  /** The sum of a report's event PnL. */
  ghost function RealizedSum(
    report: seq<Fill>, basis: seq<Fill>, journal: seq<Trade>, positions: map<PositionId, Position>): real
  {
    Total(PnlByKey(LegsByKey(report, basis, journal, positions)))
  }

  /** `realized_pnl` of the overview. */
  ghost function RealizedPnlOf(
    fills: seq<Fill>, trades: seq<Trade>, positions: map<PositionId, Position>, from: int, to: int): real
  {
    var journal := TradesWithin(trades, Some(from), to);
    Round6(RealizedSum(Report(fills, Some(from), to), Until(fills, to), journal, positions))
  }

  // ----- event sums are sums of legs

  ghost predicate GridLegs(legs: seq<Leg>) {
    forall i :: 0 <= i < |legs| ==> OnGrid(legs[i].pnl)
  }

  lemma {:induction false} SumOnGrid(legs: seq<Leg>)
    requires GridLegs(legs)
    ensures OnGrid(SumPnl(legs))
  {
    if legs != [] {
      SumOnGrid(legs[..|legs| - 1]);
      GridAdd(SumPnl(legs[..|legs| - 1]), legs[|legs| - 1].pnl);
    }
  }

  lemma LegOnGrid(st: CostState, f: Fill, p: Position)
    requires LegOf(st, f, p).Some?
    ensures OnGrid(LegOf(st, f, p).value.pnl)
  {
    Round6OnGrid(Gain(CostBasis(st, p).value, f.price, f.quantity, f.fees, EntryFees(st, f.quantity)));
  }

  lemma {:induction false} LegsOnGrid(order: seq<Fill>, reported: set<nat>, p: Position)
    ensures GridLegs(LegsOf(order, reported, p))
  {
    hide LegOf;
    if order != [] {
      var before := order[..|order| - 1];
      LegsOnGrid(before, reported, p);
      if LegOf(Replay(before), order[|order| - 1], p).Some? {
        LegOnGrid(Replay(before), order[|order| - 1], p);
      }
    }
  }

  lemma {:induction false} JournalLegsOnGrid(journal: seq<Trade>, key: EventKey)
    ensures GridLegs(JournalLegs(journal, key))
    ensures JournalLegs(journal, key) != [] ==> exists t :: t in journal && KeyOf(t) == key
  {
    if journal != [] {
      var t := journal[|journal| - 1];
      JournalLegsOnGrid(journal[..|journal| - 1], key);
      if TradePnl(t).Some? {
        Round6OnGrid(TradePnl(t).value);
      }
      assert t in journal;
    }
  }

  /** Under each key the event's PnL is exactly the sum of its legs, zero if it has none. */
  lemma EventIsSumOfLegs(
    report: seq<Fill>, basis: seq<Fill>, journal: seq<Trade>, positions: map<PositionId, Position>, key: EventKey)
    ensures At(PnlByKey(LegsByKey(report, basis, journal, positions)), key)
         == SumPnl(FillLegs(report, basis, positions, key)) + SumPnl(JournalLegs(journal, key))
  {
    hide LegsOf;
    hide JournalLegs;
    var own := FillLegs(report, basis, positions, key);
    var added := JournalLegs(journal, key);
    if key.OfPosition? && key.position in positions {
      LegsOnGrid(Ordered(Kept(basis + report, key.position)), ReportedSells(report), positions[key.position]);
    }
    JournalLegsOnGrid(journal, key);
    SumPnlAppend(own, added);
    SumOnGrid(own + added);
    Round6Identity(SumPnl(own + added));
    if own + added != [] {
      assert key in EventKeys(journal, positions);
    }
  }

  lemma {:induction false} JournalWindowsAdd(trades: seq<Trade>, from: Option<int>, b: int, c: int, key: EventKey)
    requires b <= c && (from.Some? ==> from.value <= b + 1)
    ensures SumPnl(JournalLegs(TradesWithin(trades, from, c), key))
         == SumPnl(JournalLegs(TradesWithin(trades, from, b), key))
          + SumPnl(JournalLegs(TradesWithin(trades, Some(b + 1), c), key))
  {
    if trades != [] {
      var front := trades[..|trades| - 1];
      JournalWindowsAdd(front, from, b, c, key);
      JournalStep(trades, from, c, key);
      JournalStep(trades, from, b, key);
      JournalStep(trades, Some(b + 1), c, key);
    }
  }

  lemma JournalStep(trades: seq<Trade>, from: Option<int>, to: int, key: EventKey)
    requires trades != []
    ensures var t := trades[|trades| - 1];
      SumPnl(JournalLegs(TradesWithin(trades, from, to), key))
        == SumPnl(JournalLegs(TradesWithin(trades[..|trades| - 1], from, to), key))
         + (if ExitsWithin(t, from, to) && KeyOf(t) == key && TradePnl(t).Some? then LegOfTrade(t).pnl else 0.0)
  {
    var t := trades[|trades| - 1];
    var front := TradesWithin(trades[..|trades| - 1], from, to);
    assert front + [] == front;
    if ExitsWithin(t, from, to) {
      assert (front + [t])[..|front|] == front;
      var more := if KeyOf(t) == key && TradePnl(t).Some? then [LegOfTrade(t)] else [];
      SumPnlAppend(JournalLegs(front, key), more);
      assert TradePnl(t).Some? ==> SumPnl([LegOfTrade(t)]) == LegOfTrade(t).pnl;
    }
  }

  // ----- windows add up

  /** The sums of two adjacent windows add up to that of the whole, for every split. */
  lemma WindowSumsAdd(
    fills: seq<Fill>, trades: seq<Trade>, positions: map<PositionId, Position>, from: Option<int>, b: int, c: int)
    requires Consistent(fills) && b <= c && (from.Some? ==> from.value <= b + 1)
    ensures RealizedSum(Report(fills, from, c), Until(fills, c), TradesWithin(trades, from, c), positions)
         == RealizedSum(Report(fills, from, b), Until(fills, b), TradesWithin(trades, from, b), positions)
          + RealizedSum(Report(fills, Some(b + 1), c), Until(fills, c), TradesWithin(trades, Some(b + 1), c), positions)
  {
    hide LegsByKey;
    hide PnlByKey;
    hide SumPnl;
    hide JournalLegs;
    var whole := PnlByKey(LegsByKey(Report(fills, from, c), Until(fills, c), TradesWithin(trades, from, c), positions));
    var early := PnlByKey(LegsByKey(Report(fills, from, b), Until(fills, b), TradesWithin(trades, from, b), positions));
    var late := PnlByKey(LegsByKey(
      Report(fills, Some(b + 1), c), Until(fills, c), TradesWithin(trades, Some(b + 1), c), positions));
    forall key
      ensures At(whole, key) == At(early, key) + At(late, key)
    {
      EventIsSumOfLegs(Report(fills, from, c), Until(fills, c), TradesWithin(trades, from, c), positions, key);
      EventIsSumOfLegs(Report(fills, from, b), Until(fills, b), TradesWithin(trades, from, b), positions, key);
      EventIsSumOfLegs(
        Report(fills, Some(b + 1), c), Until(fills, c), TradesWithin(trades, Some(b + 1), c), positions, key);
      FillWindowsAdd(fills, positions, from, b, c, key);
      JournalWindowsAdd(trades, from, b, c, key);
    }
    TotalAdds(whole, early, late);
  }

  lemma FillWindowsAdd(
    fills: seq<Fill>, positions: map<PositionId, Position>, from: Option<int>, b: int, c: int, key: EventKey)
    requires Consistent(fills) && b <= c && (from.Some? ==> from.value <= b + 1)
    ensures SumPnl(FillLegs(Report(fills, from, c), Until(fills, c), positions, key))
         == SumPnl(FillLegs(Report(fills, from, b), Until(fills, b), positions, key))
          + SumPnl(FillLegs(Report(fills, Some(b + 1), c), Until(fills, c), positions, key))
  {
    hide LegsOf;
    if key.OfPosition? && key.position in positions {
      var pid := key.position;
      var p := positions[pid];
      WindowLegsConcatenate(fills, from, b, c, pid, p);
      SumPnlAppend(
        PositionLegs(Report(fills, from, b), Until(fills, b), pid, p),
        PositionLegs(Report(fills, Some(b + 1), c), Until(fills, c), pid, p));
    }
  }

  lemma SumIsOnGrid(
    report: seq<Fill>, basis: seq<Fill>, journal: seq<Trade>, positions: map<PositionId, Position>)
    ensures OnGrid(RealizedSum(report, basis, journal, positions))
  {
    var legs := LegsByKey(report, basis, journal, positions);
    forall key | key in legs
      ensures OnGrid(PnlByKey(legs)[key])
    {
      Round6OnGrid(SumPnl(legs[key]));
    }
    TotalOnGrid(PnlByKey(legs));
  }

  /** Realized PnL over [a, c] is exactly that over [a, b] plus that over [b + 1, c]. */
  lemma RealizedWindowsAdd(
    fills: seq<Fill>, trades: seq<Trade>, positions: map<PositionId, Position>, a: int, b: int, c: int)
    requires Consistent(fills) && a <= b < c
    ensures RealizedPnlOf(fills, trades, positions, a, c)
         == RealizedPnlOf(fills, trades, positions, a, b) + RealizedPnlOf(fills, trades, positions, b + 1, c)
  {
    hide RealizedSum;
    WindowSumsAdd(fills, trades, positions, Some(a), b, c);
    SumIsOnGrid(Report(fills, Some(a), c), Until(fills, c), TradesWithin(trades, Some(a), c), positions);
    SumIsOnGrid(Report(fills, Some(a), b), Until(fills, b), TradesWithin(trades, Some(a), b), positions);
    SumIsOnGrid(Report(fills, Some(b + 1), c), Until(fills, c), TradesWithin(trades, Some(b + 1), c), positions);
    var whole, first := TradesWithin(trades, Some(a), c), TradesWithin(trades, Some(a), b);
    Round6Identity(RealizedSum(Report(fills, Some(a), c), Until(fills, c), whole, positions));
    Round6Identity(RealizedSum(Report(fills, Some(a), b), Until(fills, b), first, positions));
    Round6Identity(RealizedSum(
      Report(fills, Some(b + 1), c), Until(fills, c), TradesWithin(trades, Some(b + 1), c), positions));
  }
}
