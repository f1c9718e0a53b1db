/** What the replay order promises: time first, and on one timestamp the buys before the
    sells, so that a replay oversells only if the fills themselves do. */
module ReplayCover {
  import opened Numbers
  import opened Records
  import opened Rounding
  import opened Wrappers
  import opened Totals
  import opened Ledger
  import opened ReplayOrder
  import opened CostReplay
  import opened CashConservation
  import opened ExitCash

  // ----- the order in its own terms

  /** Fills ascend in time; on one timestamp no sell is before a buy, and on one timestamp and
      side the ids ascend. */
  ghost predicate Chronological(s: seq<Fill>) {
    && (forall i, j :: 0 <= i < j < |s| ==> s[i].executedAt <= s[j].executedAt)
    && (forall i, j :: 0 <= i < j < |s| && s[i].executedAt == s[j].executedAt && s[j].side.Buy? ==> s[i].side.Buy?)
    && (forall i, j :: 0 <= i < j < |s| && s[i].executedAt == s[j].executedAt && s[i].side == s[j].side ==>
          s[i].key < s[j].key)
  }

  /** The replayed list holds the dictionary's fills chronologically, and is the only such list. */
  lemma OrderIsChronological(m: map<nat, Fill>, s: seq<Fill>)
    requires Keyed(m)
    ensures s == Ordered(m) <==> Chronological(s) && forall f :: f in s <==> f.key in m && m[f.key] == f
  {
    if Chronological(s) && forall f :: f in s <==> f.key in m && m[f.key] == f {
      OrderIsUnique(s, Ordered(m));
    }
  }

  // ----- what is held

  function SignedQuantity(f: Fill): real {
    if f.side.Buy? then f.quantity else -f.quantity
  }

  function Flow(m: map<nat, Fill>, t: int): map<nat, real> {
    map k | k in m && m[k].executedAt <= t :: SignedQuantity(m[k])
  }

  /** Bought less sold up to a time, whatever the order. */
  ghost function NetOf(m: map<nat, Fill>, t: int): real {
    Total(Flow(m, t))
  }

  /** At no time has more been sold than bought. */
  ghost predicate Covered(m: map<nat, Fill>) {
    forall t :: NetOf(m, t) >= 0.0
  }

  function Net(s: seq<Fill>): real {
    if s == [] then 0.0 else Net(s[..|s| - 1]) + SignedQuantity(s[|s| - 1])
  }

  function NetUpTo(s: seq<Fill>, t: int): real {
    if s == [] then 0.0
    else
      var f := s[|s| - 1];
      NetUpTo(s[..|s| - 1], t) + (if f.executedAt <= t then SignedQuantity(f) else 0.0)
  }

  lemma NetWithout(m: map<nat, Fill>, k: nat, t: int)
    requires k in m
    ensures NetOf(m, t) == NetOf(m - {k}, t) + (if m[k].executedAt <= t then SignedQuantity(m[k]) else 0.0)
  {
    hide SignedQuantity;
    TotalRemove(Flow(m, t), k);
    assert Flow(m, t) - {k} == Flow(m - {k}, t);
  }

  lemma FrontIsListed(s: seq<Fill>, m: map<nat, Fill>)
    requires InOrder(s) && Keyed(m) && Lists(s, m) && s != []
    ensures var front, f := s[..|s| - 1], s[|s| - 1];
      && f.key in m && m[f.key] == f
      && InOrder(front) && Keyed(m - {f.key}) && Lists(front, m - {f.key})
  {
    assert s[|s| - 1] in s;
    FrontMembers(s);
  }

  lemma NothingListed(m: map<nat, Fill>)
    requires Keyed(m) && Lists([], m)
    ensures m == map[]
  {
    assert forall k :: k in m ==> m[k] in [];
  }

  lemma {:induction false} ListedNet(s: seq<Fill>, m: map<nat, Fill>, t: int)
    requires InOrder(s) && Keyed(m) && Lists(s, m)
    ensures NetUpTo(s, t) == NetOf(m, t)
  {
    hide InOrder;
    hide Lists;
    hide Keyed;
    hide SignedQuantity;
    if s == [] {
      NothingListed(m);
      assert Flow(m, t) == map[];
    } else {
      FrontIsListed(s, m);
      ListedNet(s[..|s| - 1], m - {s[|s| - 1].key}, t);
      hide NetOf;
      NetWithout(m, s[|s| - 1].key, t);
    }
  }

  /** Where all fills are early enough, the time does not matter. */
  lemma {:induction false} AllInTime(s: seq<Fill>, t: int)
    requires forall i :: 0 <= i < |s| ==> s[i].executedAt <= t
    ensures NetUpTo(s, t) == Net(s)
  {
    if s != [] {
      AllInTime(s[..|s| - 1], t);
    }
  }

  lemma {:induction false} PrefixInTime(s: seq<Fill>, n: nat, t: int)
    requires n <= |s|
    requires forall i :: 0 <= i < n ==> s[i].executedAt <= t
    requires forall i :: n <= i < |s| ==> s[i].executedAt > t
    ensures NetUpTo(s, t) == Net(s[..n])
  {
    if n == |s| {
      assert s[..n] == s;
      AllInTime(s, t);
    } else {
      var front := s[..|s| - 1];
      PrefixInTime(front, n, t);
      assert front[..n] == s[..n];
    }
  }

  /** After a sell, only sells share its timestamp. */
  lemma {:induction false} OnlySellsFollow(s: seq<Fill>, i: nat)
    requires InOrder(s) && Clean(s) && i < |s| && s[i].side.Sell?
    ensures NetUpTo(s, s[i].executedAt) <= Net(s[..i + 1])
  {
    if i + 1 == |s| {
      assert s[..i + 1] == s;
      forall j | 0 <= j < |s|
        ensures s[j].executedAt <= s[i].executedAt
      {
        if j < i {
          assert Precedes(s[j], s[i]);
        }
      }
      AllInTime(s, s[i].executedAt);
    } else {
      var front := s[..|s| - 1];
      OnlySellsFollow(front, i);
      assert front[..i + 1] == s[..i + 1];
      assert Precedes(s[i], s[|s| - 1]);
      assert CleanFill(s[|s| - 1]);
    }
  }

  lemma ShorterNeverOversells(s: seq<Fill>, n: nat)
    requires NeverOversells(s) && n <= |s|
    ensures NeverOversells(s[..n])
  {
    var cut := s[..n];
    forall i | 0 <= i < n && cut[i].side.Sell?
      ensures cut[i].quantity <= Replay(cut[..i]).quantity
    {
      assert cut[..i] == s[..i];
    }
  }

  /** A replay that never oversells holds exactly what was bought less what was sold. */
  lemma {:induction false} ReplayHoldsNet(s: seq<Fill>)
    requires Clean(s) && NeverOversells(s)
    ensures GoodState(Replay(s)) && Replay(s).quantity == Net(s)
  {
    if s != [] {
      var front, f := s[..|s| - 1], s[|s| - 1];
      ShorterNeverOversells(s, |s| - 1);
      assert forall i :: 0 <= i < |front| ==> front[i] == s[i];
      ReplayHoldsNet(front);
      assert CleanFill(f);
      if f.side.Buy? {
        BuyConserves(Replay(front), f);
      } else {
        SellState(Replay(front), f);
      }
    }
  }

  lemma OneMoreNeverOversells(s: seq<Fill>)
    requires s != [] && NeverOversells(s[..|s| - 1])
    requires var f := s[|s| - 1]; f.side.Sell? ==> f.quantity <= Replay(s[..|s| - 1]).quantity
    ensures NeverOversells(s)
  {
    var before := s[..|s| - 1];
    forall i | 0 <= i < |s| && s[i].side.Sell?
      ensures s[i].quantity <= Replay(s[..i]).quantity
    {
      if i < |before| {
        assert s[..i] == before[..i] && s[i] == before[i];
      }
    }
  }

  lemma NextIsCovered(s: seq<Fill>, n: nat)
    requires InOrder(s) && Clean(s) && n < |s| && NetUpTo(s, s[n].executedAt) >= 0.0
    requires NeverOversells(s[..n]) && s[n].side.Sell?
    ensures s[n].quantity <= Replay(s[..n]).quantity
  {
    hide NeverOversells;
    hide Replay;
    hide NetUpTo;
    hide InOrder;
    CleanPrefix(s, n);
    ReplayHoldsNet(s[..n]);
    OnlySellsFollow(s, n);
    NetOfNext(s, n);
  }

  lemma CleanPrefix(s: seq<Fill>, n: nat)
    requires Clean(s) && n <= |s|
    ensures Clean(s[..n])
  {
    assert forall i :: 0 <= i < n ==> s[..n][i] == s[i];
  }

  lemma NetOfNext(s: seq<Fill>, n: nat)
    requires n < |s|
    ensures Net(s[..n + 1]) == Net(s[..n]) + SignedQuantity(s[n])
  {
    assert s[..n + 1][..n] == s[..n];
  }

  lemma {:induction false} CoveredOrder(s: seq<Fill>, n: nat)
    requires InOrder(s) && Clean(s) && n <= |s| && forall t :: NetUpTo(s, t) >= 0.0
    ensures NeverOversells(s[..n])
  {
    hide NeverOversells;
    hide Replay;
    hide InOrder;
    hide Clean;
    if n == 0 {
      NothingOversells();
    } else {
      CoveredOrder(s, n - 1);
      var upTo, f := s[..n], s[n - 1];
      assert upTo[..|upTo| - 1] == s[..n - 1];
      assert NetUpTo(s, f.executedAt) >= 0.0;
      if f.side.Sell? {
        NextIsCovered(s, n - 1);
      }
      OneMoreNeverOversells(upTo);
    }
  }

  lemma NothingOversells()
    ensures NeverOversells([])
  {
  }

  /** The replay of a position's fills never oversells if and only if at no time more had been
      sold than bought: buys on the timestamp of a sell are there to be sold. */
  lemma NeverOversellsExactly(m: map<nat, Fill>)
    requires Keyed(m) && forall k :: k in m ==> CleanFill(m[k])
    ensures NeverOversells(Ordered(m)) <==> Covered(m)
  {
    var s := Ordered(m);
    forall i | 0 <= i < |s|
      ensures CleanFill(s[i])
    {
      assert s[i] in s;
    }
    forall t
      ensures NetUpTo(s, t) == NetOf(m, t)
    {
      ListedNet(s, m, t);
    }
    if Covered(m) {
      assert forall t :: NetUpTo(s, t) >= 0.0;
      CoveredOrder(s, |s|);
      assert s[..|s|] == s;
    }
    if NeverOversells(s) {
      forall t
        ensures NetOf(m, t) >= 0.0
      {
        var n := OrderedSplits(s, t);
        PrefixInTime(s, n, t);
        ShorterNeverOversells(s, n);
        assert forall i :: 0 <= i < n ==> s[..n][i] == s[i];
        ReplayHoldsNet(s[..n]);
      }
    }
  }

  /** So the cash of covered fills is conserved whatever order they are stored in. */
  lemma CoveredFillsConserveCash(m: map<nat, Fill>, reported: set<nat>, p: Position)
    requires Keyed(m) && Covered(m) && forall k :: k in m ==> CleanFill(m[k])
    requires forall k :: k in m && m[k].side.Sell? ==> k in reported
    ensures var order := Ordered(m);
      Near(SumPnl(LegsOf(order, reported, p)), NetCash(order) + Inventory(Replay(order)), 2 * Sells(order))
  {
    var order := Ordered(m);
    NeverOversellsExactly(m);
    forall i | 0 <= i < |order|
      ensures CleanFill(order[i]) && order[i].key in m && m[order[i].key] == order[i]
    {
      assert order[i] in order;
    }
    CoveredCashIsConserved(order, reported, p);
  }

  // ----- one leg

  /** What a sold share costs: the average while something is held, else the stored entry. */
  function CostOfShare(st: CostState, p: Position): Option<real> {
    if st.quantity > 0.0 then Some(st.averageCost) else p.entryPrice
  }

  /** The entry fees charged to a sell are to the pool as what it takes is to what is held. */
  predicate ChargesShare(fees: real, st: CostState, quantity: real) {
    if st.quantity > 0.0
    then Times(fees, st.quantity) == Times(st.entryFeePool, if quantity < st.quantity then quantity else st.quantity)
    else fees == 0.0
  }

  lemma FeesAreShare(st: CostState, quantity: real)
    requires st.quantity >= 0.0
    ensures ChargesShare(EntryFees(st, quantity), st, quantity)
  {
    if st.quantity > 0.0 {
      ShareBack(st.entryFeePool, Consumed(st, quantity), st.quantity);
    }
    hide Times;
    hide Share;
  }

  lemma ShareBack(pool: real, part: real, whole: real)
    requires whole > 0.0
    ensures Times(Share(pool, part, whole), whole) == Times(pool, part)
  {
    var r := part / whole;
    assert r * whole == part;
    assert (pool * r) * whole == pool * (r * whole);
  }

  /** A sell with a known cost realizes its cash, fees off, less the cost of its shares and its
      share of the entry fees; its R multiple is the journal's for an exit at that cost; it
      counts with its whole quantity. */
  lemma LegTells(st: CostState, f: Fill, p: Position)
    requires st.quantity >= 0.0 && f.quantity > 0.0
    ensures var leg, cost, fees := LegOf(st, f, p), CostOfShare(st, p), EntryFees(st, f.quantity);
      && ChargesShare(fees, st, f.quantity)
      && (leg.Some? <==> cost.Some?)
      && (leg.Some? ==>
            && leg.value.quantity == Some(f.quantity)
            && InRisks(leg.value.rMultiple, p.(entryPrice := cost), f.price)
            && Near(leg.value.pnl,
                    Times(f.price, f.quantity) - f.fees - Times(cost.value, f.quantity) - fees, 1))
  {
    FeesAreShare(st, f.quantity);
    var cost := CostOfShare(st, p);
    if cost.Some? {
      MultipleIsInRisks(p.(entryPrice := cost), f.price);
      assert SellRMultiple(cost.value, Or(p.initialStop, p.currentStop), f)
          == PositionRMultiple(p.(entryPrice := cost), f.price) by {
        hide Round6;
      }
      GainInCash(cost.value, f, EntryFees(st, f.quantity));
    }
    hide ChargesShare;
    hide InRisks;
    hide EntryFees;
    hide Times;
    hide Round6;
    hide Gain;
    hide PositionRMultiple;
    hide SellRMultiple;
  }

  lemma GainInCash(cost: real, f: Fill, fees: real)
    ensures Gain(cost, f.price, f.quantity, f.fees, fees)
         == Times(f.price, f.quantity) - f.fees - Times(cost, f.quantity) - fees
  {
  }
}
