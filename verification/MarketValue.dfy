/** Unrealized PnL as money: what the open shares are worth at their closes, less what they
    cost, plus the stored figure of live positions without a close. */
module MarketValue {
  import opened Numbers
  import opened Records
  import opened Rounding
  import opened Wrappers
  import opened Totals
  import opened Ledger
  import opened OpenPositions
  import opened Equity

  /** Open at a time are the positions entered by then that show a positive quantity; one
      entered at that very time is among them. */
  lemma OpenAreEntered(s: Books, to: int, pid: PositionId)
    ensures pid in OpenAsOf(s, to) <==>
      && pid in s.positions && (s.positions[pid].entryDate.None? || s.positions[pid].entryDate.value <= to)
      && QuantityAsOf(s, pid, to).Some? && QuantityAsOf(s, pid, to).value > 0.0
    ensures pid in OpenAsOf(s, to) ==> QuantityAsOf(s, pid, to) == Some(OpenAsOf(s, to)[pid])
  {
    hide QuantityAsOf;
  }

  /** The position is open with a known cost and a close for its symbol. */
  predicate Marked(s: Books, open: map<PositionId, real>, closes: map<string, real>, pid: PositionId) {
    pid in open && pid in s.positions && s.positions[pid].entryPrice.Some? && s.positions[pid].symbol in closes
  }

  /** It is open with a known cost, but there is no close; it is still live. */
  predicate Unmarked(s: Books, open: map<PositionId, real>, closes: map<string, real>, pid: PositionId) {
    && pid in open && pid in s.positions && s.positions[pid].entryPrice.Some? && s.positions[pid].symbol !in closes
    && s.positions[pid].status in {Open, Reduced}
  }

  function Worth(s: Books, open: map<PositionId, real>, closes: map<string, real>): map<PositionId, real> {
    map pid | pid in open && Marked(s, open, closes, pid) :: Times(closes[s.positions[pid].symbol], open[pid])
  }

  function Cost(s: Books, open: map<PositionId, real>, closes: map<string, real>): map<PositionId, real> {
    map pid | pid in open && Marked(s, open, closes, pid) :: Times(s.positions[pid].entryPrice.value, open[pid])
  }

  /** The unrealized PnL stored on live positions without a close. */
  function Remembered(s: Books, open: map<PositionId, real>, closes: map<string, real>): map<PositionId, real> {
    map pid | pid in open && Unmarked(s, open, closes, pid) :: s.positions[pid].unrealizedPnl.GetOr(0.0)
  }

  /** The shares open in a symbol, at a known cost. */
  function SharesIn(s: Books, open: map<PositionId, real>, closes: map<string, real>, symbol: string)
    : map<PositionId, real>
  {
    map pid | pid in open && Marked(s, open, closes, pid) && s.positions[pid].symbol == symbol :: open[pid]
  }

  lemma GainIsWorthLessCost(entry: real, close: real, quantity: real)
    ensures NetGain(entry, close, quantity, 0.0) == Times(close, quantity) - Times(entry, quantity)
  {
  }

  /** Each open position counts as what it is worth less its cost, or what is remembered. */
  lemma GainOfOne(s: Books, open: map<PositionId, real>, closes: map<string, real>, pid: PositionId)
    ensures At(MarkedGains(s, open, closes), pid) + At(Cost(s, open, closes), pid)
         == At(Worth(s, open, closes), pid) + At(Remembered(s, open, closes), pid)
  {
    if Marked(s, open, closes, pid) {
      var p := s.positions[pid];
      GainIsWorthLessCost(p.entryPrice.value, closes[p.symbol], open[pid]);
      hide NetGain;
      hide Times;
    }
  }

  lemma GainsAddUp(s: Books, open: map<PositionId, real>, closes: map<string, real>)
    ensures Total(MarkedGains(s, open, closes))
         == Total(Worth(s, open, closes)) - Total(Cost(s, open, closes)) + Total(Remembered(s, open, closes))
  {
    hide MarkedGains;
    hide Worth;
    hide Cost;
    hide Remembered;
    var gains, cost := MarkedGains(s, open, closes), Cost(s, open, closes);
    var worth, rest := Worth(s, open, closes), Remembered(s, open, closes);
    var all := map pid | pid in gains.Keys + cost.Keys :: At(gains, pid) + At(cost, pid);
    forall pid
      ensures At(all, pid) == At(gains, pid) + At(cost, pid)
      ensures At(all, pid) == At(worth, pid) + At(rest, pid)
    {
      GainOfOne(s, open, closes, pid);
    }
    TotalAdds(all, gains, cost);
    TotalAdds(all, worth, rest);
  }

  /** Unrealized PnL is what the open shares are worth, less their cost, plus the remembered
      figures, rounded once. */
  lemma UnrealizedIsWorthLessCost(s: Books, to: int, closes: map<string, real>)
    ensures var open := OpenAsOf(s, to);
      Near(UnrealizedAsOf(s, to, closes),
           Total(Worth(s, open, closes)) - Total(Cost(s, open, closes)) + Total(Remembered(s, open, closes)), 1)
  {
    GainsAddUp(s, OpenAsOf(s, to), closes);
  }

  lemma {:induction false} TotalScales<K(!new)>(m: map<K, real>, scaled: map<K, real>, d: real)
    requires scaled.Keys == m.Keys && forall k :: k in m ==> scaled[k] == Times(d, m[k])
    ensures Total(scaled) == Times(d, Total(m))
    decreases |m|
  {
    if m == map[] {
      assert scaled == map[];
    } else {
      var k :| k in m;
      Shrinks(m, k);
      TotalRemove(m, k);
      TotalRemove(scaled, k);
      TotalScales(m - {k}, scaled - {k}, d);
      TimesAdds(d, m[k], Total(m - {k}));
    }
  }

  lemma TimesAdds(d: real, x: real, y: real)
    ensures Times(d, x + y) == Times(d, x) + Times(d, y) == Times(x + y, d)
  {
  }

  lemma OneRises(
    s: Books, open: map<PositionId, real>, closes: map<string, real>, symbol: string, d: real, pid: PositionId)
    requires symbol in closes
    ensures var raised, shares := closes[symbol := closes[symbol] + d], SharesIn(s, open, closes, symbol);
      At(Worth(s, open, raised), pid)
        == At(Worth(s, open, closes), pid) + (if pid in shares then Times(d, shares[pid]) else 0.0)
  {
    if pid in SharesIn(s, open, closes, symbol) {
      TimesAdds(open[pid], closes[symbol], d);
    }
    hide Times;
  }

  lemma OnlyWorthRises(s: Books, open: map<PositionId, real>, closes: map<string, real>, symbol: string, close: real)
    requires symbol in closes
    ensures Cost(s, open, closes[symbol := close]) == Cost(s, open, closes)
    ensures Remembered(s, open, closes[symbol := close]) == Remembered(s, open, closes)
  {
    hide Times;
  }

  lemma WorthRises(s: Books, open: map<PositionId, real>, closes: map<string, real>, symbol: string, d: real)
    requires symbol in closes
    ensures Total(Worth(s, open, closes[symbol := closes[symbol] + d]))
         == Total(Worth(s, open, closes)) + Times(d, Total(SharesIn(s, open, closes, symbol)))
  {
    hide Worth;
    hide SharesIn;
    hide Times;
    var raised, shares := closes[symbol := closes[symbol] + d], SharesIn(s, open, closes, symbol);
    var rise := map pid | pid in shares :: Times(d, shares[pid]);
    forall pid
      ensures At(Worth(s, open, raised), pid) == At(Worth(s, open, closes), pid) + At(rise, pid)
    {
      OneRises(s, open, closes, symbol, d, pid);
    }
    TotalAdds(Worth(s, open, raised), Worth(s, open, closes), rise);
    TotalScales(shares, rise, d);
  }

  /** A close that rises by d raises unrealized PnL by d for every share open in the symbol. */
  lemma UnrealizedFollowsCloses(s: Books, to: int, closes: map<string, real>, symbol: string, d: real)
    requires symbol in closes
    ensures var shares := SharesIn(s, OpenAsOf(s, to), closes, symbol);
      Near(UnrealizedAsOf(s, to, closes[symbol := closes[symbol] + d]) - UnrealizedAsOf(s, to, closes),
           Times(d, Total(shares)), 2)
  {
    hide *;
    var open, raised := OpenAsOf(s, to), closes[symbol := closes[symbol] + d];
    UnrealizedIsWorthLessCost(s, to, closes);
    UnrealizedIsWorthLessCost(s, to, raised);
    WorthRises(s, open, closes, symbol, d);
    OnlyWorthRises(s, open, closes, symbol, closes[symbol] + d);
    NearDifference(
      UnrealizedAsOf(s, to, raised), UnrealizedAsOf(s, to, closes),
      Total(Worth(s, open, raised)) - Total(Cost(s, open, closes)) + Total(Remembered(s, open, closes)),
      Total(Worth(s, open, closes)) - Total(Cost(s, open, closes)) + Total(Remembered(s, open, closes)));
  }

  lemma NearDifference(x: real, y: real, a: real, b: real)
    requires Near(x, a, 1) && Near(y, b, 1)
    ensures Near(x - y, a - b, 2)
  {
  }

  // ----- equity as money

  /** The equity of a ledger is what the account started with, what has been realized, and what
      the open shares are worth beyond their cost, with the remembered figures. */
  lemma EquityIsWorth(s: Books, accountEquity: Option<real>, to: int, closes: map<string, real>)
    ensures var open := OpenAsOf(s, to);
      var start := if accountEquity.Some? && accountEquity.value != 0.0 then accountEquity.value else 10000.0;
      Near(LedgerEquity(s, accountEquity, to, closes),
           start + RealizedUntil(s.fills, s.trades, s.positions, to)
             + Total(Worth(s, open, closes)) - Total(Cost(s, open, closes)) + Total(Remembered(s, open, closes)), 2)
  {
    UnrealizedIsWorthLessCost(s, to, closes);
    hide UnrealizedAsOf;
    hide OpenAsOf;
    hide RealizedUntil;
    hide Worth;
    hide Cost;
    hide Remembered;
  }

  /** Carried on from a snapshot it is the snapshot's, what has been realized since, and what
      unrealized PnL has gained since. */
  lemma SnapshotCarriesOn(
    snapshot: Snapshot, s: Books, to: int, closes: map<string, real>)
    ensures Near(FromSnapshot(snapshot, s.fills, s.trades, s.positions, to, UnrealizedAsOf(s, to, closes)),
                 snapshot.equity + RealizedAfter(s.fills, s.trades, s.positions, snapshot.ts, to)
                   + UnrealizedAsOf(s, to, closes) - snapshot.unrealizedPnl, 1)
  {
    hide UnrealizedAsOf;
    hide RealizedAfter;
  }

  /** A close that rises by d raises equity by d for every share open in the symbol. */
  lemma EquityFollowsCloses(
    s: Books, accountEquity: Option<real>, to: int, closes: map<string, real>, symbol: string, d: real)
    requires symbol in closes
    ensures var shares := SharesIn(s, OpenAsOf(s, to), closes, symbol);
      Near(LedgerEquity(s, accountEquity, to, closes[symbol := closes[symbol] + d])
             - LedgerEquity(s, accountEquity, to, closes),
           Times(d, Total(shares)), 4)
  {
    UnrealizedFollowsCloses(s, to, closes, symbol, d);
    hide UnrealizedAsOf;
    hide OpenAsOf;
    hide RealizedUntil;
    hide SharesIn;
    hide Times;
  }
}
