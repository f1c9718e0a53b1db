/** Open risk of the live positions: items, totals and per-symbol buckets. */
module PortfolioRisk {
  import opened Numbers
  import opened Records
  import opened Rounding
  import opened Wrappers
  import opened Totals
  import opened Ledger

  datatype Settings = Settings(
    accountEquity: real,
    maxRiskPerTradePct: real,
    maxTotalRiskPct: real,
    maxOpenPositions: nat,
    maxRiskDistancePct: real,
    shadowOnlyRequiresPaper: bool)

  function RiskPerUnit(entry: Option<real>, stop: Option<real>): Option<real> {
    if entry.None? || stop.None? || entry.value - stop.value <= 0.0 then None
    else Some(Round6(entry.value - stop.value))
  }

  function RiskAmount(entry: Option<real>, stop: Option<real>, quantity: Option<real>): Option<real> {
    var risk := RiskPerUnit(entry, stop);
    if risk.None? || quantity.None? then None else Some(Round6(Times(risk.value, quantity.value)))
  }

  datatype Item = Item(
    symbol: string,
    status: PositionStatus,
    entryPrice: Option<real>,
    stopPrice: Option<real>,
    quantity: Option<real>,
    riskAmount: Option<real>,
    riskPct: Option<real>)

  function MakeItem(
    symbol: string, status: PositionStatus, entry: Option<real>, stop: Option<real>, quantity: Option<real>,
    t: Settings): Item
    requires t.accountEquity > 0.0
  {
    var risk := RiskAmount(entry, stop, quantity);
    Item(symbol, status, entry, stop, quantity, risk,
         if risk.Some? then Some(Round6(risk.value / t.accountEquity)) else None)
  }

  /** `portfolio_risk_item`. */
  function ItemOf(p: Position, t: Settings): Item
    requires t.accountEquity > 0.0
  {
    MakeItem(p.symbol, p.status, p.entryPrice, Or(p.currentStop, p.initialStop), p.quantity, t)
  }

  /** The items of the live positions, by position id. */
  function Items(positions: map<PositionId, Position>, t: Settings): map<PositionId, Item>
    requires t.accountEquity > 0.0
  {
    map pid | pid in positions && IsLive(positions[pid].status) :: ItemOf(positions[pid], t)
  }

  // ----- totals

  function Risks(items: map<PositionId, Item>): map<PositionId, real> {
    map pid | pid in items :: items[pid].riskAmount.GetOr(0.0)
  }

  function WithStatus(items: map<PositionId, Item>, status: PositionStatus): map<PositionId, Item> {
    map pid | pid in items && items[pid].status == status :: items[pid]
  }

  function WithSymbol(items: map<PositionId, Item>, symbol: string): map<PositionId, Item> {
    map pid | pid in items && items[pid].symbol == symbol :: items[pid]
  }

  function Symbols(items: map<PositionId, Item>): set<string> {
    set pid | pid in items :: items[pid].symbol
  }

  ghost function TotalRisk(items: map<PositionId, Item>): real {
    Round6(Total(Risks(items)))
  }

  datatype Tally = Tally(risk: real, count: nat)

  ghost function TallyOf(items: map<PositionId, Item>, symbol: string): Tally {
    Tally(Total(Risks(WithSymbol(items, symbol))), |WithSymbol(items, symbol)|)
  }

  datatype Bucket = Bucket(riskAmount: real, riskPct: real, count: nat)

  function ToBucket(tally: Tally, t: Settings): Bucket
    requires t.accountEquity > 0.0
  {
    Bucket(Round6(tally.risk), Round6(tally.risk / t.accountEquity), tally.count)
  }

  ghost function Buckets(items: map<PositionId, Item>, t: Settings): map<string, Bucket>
    requires t.accountEquity > 0.0
  {
    map symbol | symbol in Symbols(items) :: ToBucket(TallyOf(items, symbol), t)
  }

  datatype Level = Info | Warning | Block

  datatype Notice = Notice(level: Level, code: string)

  datatype Summary = Summary(
    activeCount: nat,
    totalRisk: real,
    totalRiskPct: real,
    maxTotalRisk: real,
    remainingRisk: real,
    remainingRiskPct: real,
    plannedRisk: real,
    openRisk: real,
    reducedRisk: real,
    bySymbol: map<string, Bucket>,
    items: map<PositionId, Item>,
    notices: seq<Notice>)

  ghost function BudgetNotices(total: real, remaining: real, count: nat, t: Settings): seq<Notice>
    requires t.accountEquity > 0.0
  {
    (if Round6(total / t.accountEquity) > t.maxTotalRiskPct then [Notice(Block, "portfolio_risk_budget_exceeded")]
     else if remaining <= Times(t.accountEquity, t.maxRiskPerTradePct)
       then [Notice(Warning, "portfolio_risk_budget_low")]
     else [])
    + if count >= t.maxOpenPositions then [Notice(Warning, "portfolio_position_limit_reached")] else []
  }

  /** `portfolio_risk_summary` of a set of items. */
  ghost function Summarized(items: map<PositionId, Item>, t: Settings): Summary
    requires t.accountEquity > 0.0
  {
    var total, budget := TotalRisk(items), Round6(Times(t.accountEquity, t.maxTotalRiskPct));
    var remaining := Round6(budget - total);
    Summary(
      |items|, total, Round6(total / t.accountEquity), budget, remaining, Round6(remaining / t.accountEquity),
      TotalRisk(WithStatus(items, Planned)),
      TotalRisk(WithStatus(items, Open)),
      TotalRisk(WithStatus(items, Reduced)),
      Buckets(items, t),
      items,
      BudgetNotices(total, remaining, |items|, t))
  }

  // ----- the loops

  method SumRisks(items: map<PositionId, Item>) returns (total: real)
    ensures total == Total(Risks(items))
  {
    total := 0.0;
    var todo := Risks(items);
    while todo != map[]
      invariant total + Total(todo) == Total(Risks(items))
      decreases |todo|
    {
      var pid :| pid in todo;
      TotalRemove(todo, pid);
      total := total + todo[pid];
      assert (todo - {pid}).Keys == todo.Keys - {pid};
      todo := todo - {pid};
    }
  }

  ghost predicate Tallied(tallies: map<string, Tally>, items: map<PositionId, Item>) {
    && tallies.Keys == Symbols(items)
    && forall symbol :: symbol in tallies ==> tallies[symbol] == TallyOf(items, symbol)
  }

  function AddToTally(tallies: map<string, Tally>, item: Item): map<string, Tally> {
    var before := if item.symbol in tallies then tallies[item.symbol] else Tally(0.0, 0);
    tallies[item.symbol := Tally(before.risk + item.riskAmount.GetOr(0.0), before.count + 1)]
  }

  /** The dictionary of running totals per symbol. */
  method TallySymbols(items: map<PositionId, Item>) returns (tallies: map<string, Tally>)
    ensures Tallied(tallies, items)
  {
    hide *;
    tallies := map[];
    var todo := items.Keys;
    NothingTallied(items);
    while todo != {}
      invariant todo <= items.Keys
      invariant Tallied(tallies, items - todo)
      decreases |todo|
    {
      var pid :| pid in todo;
      MoveOne(items, todo, pid);
      TallyStep(tallies, items - todo, pid, items[pid]);
      tallies := AddToTally(tallies, items[pid]);
      todo := todo - {pid};
    }
    MoveNone(items);
  }

  lemma NothingTallied(items: map<PositionId, Item>)
    ensures Tallied(map[], items - items.Keys)
  {
    assert items - items.Keys == map[];
  }

  lemma MoveNone(items: map<PositionId, Item>)
    ensures items - {} == items
  {
  }

  lemma MoveOne(items: map<PositionId, Item>, todo: set<PositionId>, pid: PositionId)
    requires pid in todo && todo <= items.Keys
    ensures pid !in items - todo && items - (todo - {pid}) == (items - todo)[pid := items[pid]]
  {
  }

  lemma TallyStep(tallies: map<string, Tally>, done: map<PositionId, Item>, pid: PositionId, item: Item)
    requires pid !in done && Tallied(tallies, done)
    ensures Tallied(AddToTally(tallies, item), done[pid := item])
  {
    hide TallyOf;
    hide Symbols;
    OwnTallyGrows(done, pid, item);
    SymbolsGrow(done, pid, item);
    var grown, items := AddToTally(tallies, item), done[pid := item];
    forall symbol | symbol in grown
      ensures grown[symbol] == TallyOf(items, symbol)
    {
      if symbol != item.symbol {
        OtherTalliesStay(done, pid, item, symbol);
      }
    }
  }

  lemma SymbolsGrow(done: map<PositionId, Item>, pid: PositionId, item: Item)
    requires pid !in done
    ensures Symbols(done[pid := item]) == Symbols(done) + {item.symbol}
  {
    var grown := done[pid := item];
    forall symbol | symbol in Symbols(done)
      ensures symbol in Symbols(grown)
    {
      var other :| other in done && done[other].symbol == symbol;
      assert grown[other].symbol == symbol;
    }
    assert grown[pid].symbol == item.symbol;
  }

  lemma OwnItemsGrow(done: map<PositionId, Item>, pid: PositionId, item: Item)
    ensures WithSymbol(done[pid := item], item.symbol) == WithSymbol(done, item.symbol)[pid := item]
  {
  }

  lemma CountGrows(items: map<PositionId, Item>, pid: PositionId, item: Item)
    requires pid !in items
    ensures |items[pid := item]| == |items| + 1
  {
    var grown := items[pid := item];
    assert grown.Keys == items.Keys + {pid};
    assert |grown.Keys| == |items.Keys| + 1;
  }

  lemma RiskGrows(items: map<PositionId, Item>, pid: PositionId, item: Item)
    requires pid !in items
    ensures Total(Risks(items[pid := item])) == Total(Risks(items)) + item.riskAmount.GetOr(0.0)
  {
    var grown := Risks(items[pid := item]);
    TotalRemove(grown, pid);
    assert grown - {pid} == Risks(items);
  }

  /** One more item changes the tally of its own symbol. */
  lemma OwnTallyGrows(done: map<PositionId, Item>, pid: PositionId, item: Item)
    requires pid !in done
    ensures var before := if item.symbol in Symbols(done) then TallyOf(done, item.symbol) else Tally(0.0, 0);
      TallyOf(done[pid := item], item.symbol) == Tally(before.risk + item.riskAmount.GetOr(0.0), before.count + 1)
  {
    var own := WithSymbol(done, item.symbol);
    assert pid !in own;
    hide Risks;
    hide Symbols;
    hide WithSymbol;
    OwnItemsGrow(done, pid, item);
    CountGrows(own, pid, item);
    RiskGrows(own, pid, item);
    if item.symbol !in Symbols(done) {
      NothingOfAbsent(done, item.symbol);
    }
  }

  lemma NothingOfAbsent(items: map<PositionId, Item>, symbol: string)
    requires symbol !in Symbols(items)
    ensures TallyOf(items, symbol) == Tally(0.0, 0)
  {
    assert WithSymbol(items, symbol) == map[];
    assert Risks(map[]) == map[];
  }

  /** And of no other symbol. */
  lemma OtherTalliesStay(done: map<PositionId, Item>, pid: PositionId, item: Item, symbol: string)
    requires pid !in done && symbol != item.symbol
    ensures TallyOf(done[pid := item], symbol) == TallyOf(done, symbol)
  {
    assert WithSymbol(done[pid := item], symbol) == WithSymbol(done, symbol);
  }

  /** Buckets sorted by descending risk. */
  ghost predicate Ranked(buckets: seq<(string, Bucket)>) {
    forall i, j :: 0 <= i < j < |buckets| ==> buckets[i].1.riskAmount >= buckets[j].1.riskAmount
  }

  function InsertBucket(buckets: seq<(string, Bucket)>, b: (string, Bucket)): seq<(string, Bucket)> {
    if buckets == [] then [b]
    else if buckets[|buckets| - 1].1.riskAmount < b.1.riskAmount
      then InsertBucket(buckets[..|buckets| - 1], b) + [buckets[|buckets| - 1]]
    else buckets + [b]
  }

  lemma {:induction false} InsertRanks(buckets: seq<(string, Bucket)>, b: (string, Bucket))
    requires Ranked(buckets)
    ensures Ranked(InsertBucket(buckets, b))
    ensures forall x :: x in InsertBucket(buckets, b) <==> x in buckets || x == b
  {
    if buckets != [] && buckets[|buckets| - 1].1.riskAmount < b.1.riskAmount {
      var front, last := buckets[..|buckets| - 1], buckets[|buckets| - 1];
      assert buckets == front + [last];
      InsertRanks(front, b);
      var placed := InsertBucket(front, b);
      forall i | 0 <= i < |placed|
        ensures placed[i].1.riskAmount >= last.1.riskAmount
      {
        assert placed[i] in placed;
      }
    }
  }

  /** The ranking holds each bucket once under its symbol. */
  ghost predicate Lists(ranking: seq<(string, Bucket)>, buckets: map<string, Bucket>) {
    && Ranked(ranking)
    && forall x :: x in ranking <==> x.0 in buckets && buckets[x.0] == x.1
  }

  method RankBuckets(tallies: map<string, Tally>, t: Settings)
    returns (buckets: map<string, Bucket>, ranking: seq<(string, Bucket)>)
    requires t.accountEquity > 0.0
    ensures buckets == map symbol | symbol in tallies :: ToBucket(tallies[symbol], t)
    ensures Lists(ranking, buckets)
  {
    hide ToBucket;
    ranking, buckets := [], map[];
    var todo := tallies;
    while todo != map[]
      invariant todo.Keys <= tallies.Keys && forall symbol :: symbol in todo ==> todo[symbol] == tallies[symbol]
      invariant buckets.Keys == tallies.Keys - todo.Keys
      invariant forall symbol :: symbol in buckets ==> buckets[symbol] == ToBucket(tallies[symbol], t)
      invariant Lists(ranking, buckets)
      decreases |todo|
    {
      var symbol :| symbol in todo;
      var bucket := ToBucket(todo[symbol], t);
      ListsOneMore(ranking, buckets, symbol, bucket);
      ranking := InsertBucket(ranking, (symbol, bucket));
      buckets := buckets[symbol := bucket];
      assert (todo - {symbol}).Keys == todo.Keys - {symbol};
      todo := todo - {symbol};
    }
  }

  lemma ListsOneMore(ranking: seq<(string, Bucket)>, buckets: map<string, Bucket>, symbol: string, bucket: Bucket)
    requires Lists(ranking, buckets) && symbol !in buckets
    ensures Lists(InsertBucket(ranking, (symbol, bucket)), buckets[symbol := bucket])
  {
    hide InsertBucket;
    InsertRanks(ranking, (symbol, bucket));
  }

  method CheckBudget(total: real, remaining: real, count: nat, t: Settings) returns (notices: seq<Notice>)
    requires t.accountEquity > 0.0
    ensures notices == BudgetNotices(total, remaining, count, t)
  {
    notices := [];
    if Round6(total / t.accountEquity) > t.maxTotalRiskPct {
      notices := notices + [Notice(Block, "portfolio_risk_budget_exceeded")];
    } else if remaining <= Times(t.accountEquity, t.maxRiskPerTradePct) {
      notices := notices + [Notice(Warning, "portfolio_risk_budget_low")];
    }
    if count >= t.maxOpenPositions {
      notices := notices + [Notice(Warning, "portfolio_position_limit_reached")];
    }
  }

  lemma TalliesGiveBuckets(tallies: map<string, Tally>, items: map<PositionId, Item>, t: Settings)
    requires t.accountEquity > 0.0 && Tallied(tallies, items)
    ensures (map symbol | symbol in tallies :: ToBucket(tallies[symbol], t)) == Buckets(items, t)
  {
    hide TallyOf;
    hide Symbols;
    hide ToBucket;
  }

  /** The whole summary over the loops; the ranking puts a symbol of the highest risk first. */
  method Summarize(items: map<PositionId, Item>, t: Settings)
    returns (summary: Summary, ranking: seq<(string, Bucket)>)
    requires t.accountEquity > 0.0
    ensures summary == Summarized(items, t)
    ensures Lists(ranking, summary.bySymbol)
  {
    hide *;
    var sum := SumRisks(items);
    var planned := SumRisks(WithStatus(items, Planned));
    var open := SumRisks(WithStatus(items, Open));
    var reduced := SumRisks(WithStatus(items, Reduced));
    var tallies := TallySymbols(items);
    var bySymbol;
    bySymbol, ranking := RankBuckets(tallies, t);
    TalliesGiveBuckets(tallies, items, t);
    var total := Round6(sum);
    var budget := Round6(Times(t.accountEquity, t.maxTotalRiskPct));
    var remaining := Round6(budget - total);
    var notices := CheckBudget(total, remaining, |items|, t);
    summary := Summary(
      |items|, total, Round6(total / t.accountEquity), budget, remaining, Round6(remaining / t.accountEquity),
      Round6(planned), Round6(open), Round6(reduced), bySymbol, items, notices);
    SummaryParts(items, t);
  }

  lemma SummaryParts(items: map<PositionId, Item>, t: Settings)
    requires t.accountEquity > 0.0
    ensures var total, budget := Round6(Total(Risks(items))), Round6(Times(t.accountEquity, t.maxTotalRiskPct));
      var remaining := Round6(budget - total);
      Summarized(items, t) == Summary(
        |items|, total, Round6(total / t.accountEquity), budget, remaining, Round6(remaining / t.accountEquity),
        Round6(Total(Risks(WithStatus(items, Planned)))),
        Round6(Total(Risks(WithStatus(items, Open)))),
        Round6(Total(Risks(WithStatus(items, Reduced)))),
        Buckets(items, t), items, BudgetNotices(total, remaining, |items|, t))
  {
  }

  // ----- what the notices mean

  const EXCEEDED := Notice(Block, "portfolio_risk_budget_exceeded")
  const LOW := Notice(Warning, "portfolio_risk_budget_low")
  const CROWDED := Notice(Warning, "portfolio_position_limit_reached")

  lemma NoticesDiffer()
    ensures EXCEEDED != LOW && EXCEEDED != CROWDED && LOW != CROWDED
  {
    assert |EXCEEDED.code| == 30 && |LOW.code| == 25 && |CROWDED.code| == 32;
  }

  lemma NoticesListed(total: real, remaining: real, count: nat, t: Settings)
    requires t.accountEquity > 0.0
    ensures var notices := BudgetNotices(total, remaining, count, t);
      && (EXCEEDED in notices <==> Round6(total / t.accountEquity) > t.maxTotalRiskPct)
      && (LOW in notices <==> EXCEEDED !in notices && remaining <= Times(t.accountEquity, t.maxRiskPerTradePct))
      && (CROWDED in notices <==> count >= t.maxOpenPositions)
  {
    NoticesDiffer();
    hide Round6;
  }

  /** The notices tell apart three situations of any portfolio: the total is over budget, or
      one more trade of full size would use the budget up, or it fits with something left;
      and separately whether the position limit is reached. */
  lemma NoticesTell(items: map<PositionId, Item>, t: Settings)
    requires t.accountEquity > 0.0
    ensures var summary, trade := Summarized(items, t), Times(t.accountEquity, t.maxRiskPerTradePct);
      && (EXCEEDED in summary.notices <==> summary.totalRiskPct > t.maxTotalRiskPct)
      && (LOW in summary.notices
          <==> summary.totalRiskPct <= t.maxTotalRiskPct && summary.totalRisk + trade >= summary.maxTotalRisk)
      && (CROWDED in summary.notices <==> summary.activeCount >= t.maxOpenPositions)
      && (EXCEEDED !in summary.notices && LOW !in summary.notices ==>
            summary.totalRisk + Round6(trade) <= summary.maxTotalRisk)
  {
    SummaryFigures(items, t);
    hide *;
    var summary := Summarized(items, t);
    RoomLeft(summary.totalRisk, summary.maxTotalRisk, Times(t.accountEquity, t.maxRiskPerTradePct));
    NoticesListed(summary.totalRisk, summary.remainingRisk, summary.activeCount, t);
  }

  lemma SummaryFigures(items: map<PositionId, Item>, t: Settings)
    requires t.accountEquity > 0.0
    ensures var summary := Summarized(items, t);
      && OnGrid(summary.totalRisk) && OnGrid(summary.maxTotalRisk)
      && summary.remainingRisk == Round6(summary.maxTotalRisk - summary.totalRisk)
      && summary.totalRiskPct == Round6(summary.totalRisk / t.accountEquity)
      && summary.notices == BudgetNotices(summary.totalRisk, summary.remainingRisk, summary.activeCount, t)
  {
    Round6OnGrid(Total(Risks(items)));
    Round6OnGrid(Times(t.accountEquity, t.maxTotalRiskPct));
    hide BudgetNotices;
    hide Round6;
    hide OnGrid;
    hide Buckets;
    hide WithStatus;
  }

  lemma RoomLeft(total: real, budget: real, trade: real)
    requires OnGrid(total) && OnGrid(budget)
    ensures Round6(budget - total) <= trade <==> total + trade >= budget
    ensures Round6(budget - total) > trade ==> total + Round6(trade) <= budget
  {
    GridSubExact(budget, total);
    if trade <= budget - total {
      Round6Monotone(trade, budget - total);
    }
  }

  // ----- the parts make up the whole

  ghost predicate GridRisks(items: map<PositionId, Item>) {
    forall pid :: pid in items ==> OnGrid(items[pid].riskAmount.GetOr(0.0))
  }

  lemma TotalIsExact(items: map<PositionId, Item>)
    requires GridRisks(items)
    ensures OnGrid(Total(Risks(items))) && TotalRisk(items) == Total(Risks(items))
  {
    TotalOnGrid(Risks(items));
    Round6Identity(Total(Risks(items)));
  }

  lemma ItemsOnGrid(positions: map<PositionId, Position>, t: Settings)
    requires t.accountEquity > 0.0
    ensures GridRisks(Items(positions, t))
  {
    forall pid | pid in Items(positions, t)
      ensures OnGrid(Items(positions, t)[pid].riskAmount.GetOr(0.0))
    {
      var p := positions[pid];
      RiskOnGrid(p.entryPrice, Or(p.currentStop, p.initialStop), p.quantity);
    }
  }

  lemma RiskOnGrid(entry: Option<real>, stop: Option<real>, quantity: Option<real>)
    ensures OnGrid(RiskAmount(entry, stop, quantity).GetOr(0.0))
  {
    if RiskAmount(entry, stop, quantity).Some? {
      Round6OnGrid(Times(RiskPerUnit(entry, stop).value, quantity.value));
    }
  }

  /** Planned, open and reduced risk add up to the total. */
  lemma StatusesPartition(items: map<PositionId, Item>)
    requires GridRisks(items) && forall pid :: pid in items ==> IsLive(items[pid].status)
    ensures TotalRisk(WithStatus(items, Planned)) + TotalRisk(WithStatus(items, Open))
              + TotalRisk(WithStatus(items, Reduced)) == TotalRisk(items)
  {
    hide OnGrid;
    hide Round6;
    var planned, open, reduced := WithStatus(items, Planned), WithStatus(items, Open), WithStatus(items, Reduced);
    var rest := map pid | pid in items && items[pid].status != Planned :: items[pid];
    TotalAdds(Risks(items), Risks(planned), Risks(rest));
    TotalAdds(Risks(rest), Risks(open), Risks(reduced));
    TotalIsExact(items);
    TotalIsExact(planned);
    TotalIsExact(open);
    TotalIsExact(reduced);
  }

  /** The risk of each symbol. */
  ghost function SymbolRisks(items: map<PositionId, Item>): map<string, real> {
    map symbol | symbol in Symbols(items) :: TallyOf(items, symbol).risk
  }

  /** Grouping by symbol loses nothing. */
  lemma {:induction false} SymbolsPartition(items: map<PositionId, Item>)
    ensures Total(SymbolRisks(items)) == Total(Risks(items))
    decreases |items|
  {
    if items == map[] {
      assert SymbolRisks(items) == map[] && Risks(items) == map[];
    } else {
      hide SymbolRisks;
      var pid :| pid in items;
      var item := items[pid];
      var rest := items - {pid};
      assert rest.Keys == items.Keys - {pid};
      SymbolsPartition(rest);
      assert items == rest[pid := item];
      SymbolStep(rest, pid, item);
      TotalOfOne(item.symbol, item.riskAmount.GetOr(0.0));
      TotalAdds(SymbolRisks(items), SymbolRisks(rest), map[item.symbol := item.riskAmount.GetOr(0.0)]);
      RiskGrows(rest, pid, item);
    }
  }

  lemma TotalOfOne(symbol: string, x: real)
    ensures Total(map[symbol := x]) == x
  {
    TotalRemove(map[symbol := x], symbol);
    assert map[symbol := x] - {symbol} == map[];
  }

  lemma SymbolStep(rest: map<PositionId, Item>, pid: PositionId, item: Item)
    requires pid !in rest
    ensures Adds(SymbolRisks(rest[pid := item]), SymbolRisks(rest), map[item.symbol := item.riskAmount.GetOr(0.0)])
  {
    hide Symbols;
    hide TallyOf;
    var items, own := rest[pid := item], map[item.symbol := item.riskAmount.GetOr(0.0)];
    OwnTallyGrows(rest, pid, item);
    SymbolsGrow(rest, pid, item);
    forall symbol
      ensures At(SymbolRisks(items), symbol) == At(SymbolRisks(rest), symbol) + At(own, symbol)
    {
      if symbol != item.symbol {
        OtherTalliesStay(rest, pid, item, symbol);
      }
    }
  }

  lemma SymbolRiskIsExact(items: map<PositionId, Item>, symbol: string)
    requires GridRisks(items)
    ensures Round6(TallyOf(items, symbol).risk) == TallyOf(items, symbol).risk
  {
    TotalIsExact(WithSymbol(items, symbol));
  }

  /** The symbol buckets add up to the total: amounts on the grid, no rounding lost. */
  lemma BucketsAddUp(items: map<PositionId, Item>, t: Settings)
    requires GridRisks(items) && t.accountEquity > 0.0
    ensures Total(BucketRisks(Buckets(items, t))) == TotalRisk(items)
  {
    SymbolsPartition(items);
    TotalIsExact(items);
    hide OnGrid;
    hide GridRisks;
    hide Round6;
    hide Symbols;
    hide TallyOf;
    hide Risks;
    forall symbol | symbol in Symbols(items)
      ensures Round6(TallyOf(items, symbol).risk) == TallyOf(items, symbol).risk
    {
      SymbolRiskIsExact(items, symbol);
    }
    assert BucketRisks(Buckets(items, t)) == SymbolRisks(items);
  }

  function BucketRisks(buckets: map<string, Bucket>): map<string, real> {
    map symbol | symbol in buckets :: buckets[symbol].riskAmount
  }
}
