/** The loops that turn legs into events and event totals, and how an event's R multiple
    aggregates those of its legs. */
module RealizedEvents {
  import opened Numbers
  import opened Records
  import opened Rounding
  import opened Wrappers
  import opened Totals
  import opened CostReplay
  import opened CashConservation
  import opened RealizedPnl

  // ----- aggregation of R multiples

  predicate Weighs(leg: Leg) {
    leg.rMultiple.Some? && leg.quantity.Some? && leg.quantity.value > 0.0
  }

  function Weight(legs: seq<Leg>): (w: real)
    ensures w >= 0.0
  {
    if legs == [] then 0.0
    else Weight(legs[..|legs| - 1]) + (if Weighs(legs[|legs| - 1]) then legs[|legs| - 1].quantity.value else 0.0)
  }

  function WeightedSum(legs: seq<Leg>): real {
    if legs == [] then 0.0
    else
      var leg := legs[|legs| - 1];
      WeightedSum(legs[..|legs| - 1])
        + (if Weighs(leg) then Times(leg.rMultiple.value, leg.quantity.value) else 0.0)
  }

  function RCount(legs: seq<Leg>): nat {
    if legs == [] then 0
    else RCount(legs[..|legs| - 1]) + (if legs[|legs| - 1].rMultiple.Some? then 1 else 0)
  }

  function RSum(legs: seq<Leg>): real {
    if legs == [] then 0.0
    else RSum(legs[..|legs| - 1]) + legs[|legs| - 1].rMultiple.GetOr(0.0)
  }

  /** The quantity-weighted mean of the legs that carry a quantity, else the plain mean. */
  function AggregateR(legs: seq<Leg>): Option<real> {
    if Weight(legs) > 0.0 then Some(Round6(WeightedSum(legs) / Weight(legs)))
    else if RCount(legs) > 0 then Some(Round6(RSum(legs) / RCount(legs) as real))
    else None
  }

  ghost predicate RWithin(legs: seq<Leg>, lo: real, hi: real) {
    forall i :: 0 <= i < |legs| && legs[i].rMultiple.Some? ==> lo <= legs[i].rMultiple.value <= hi
  }

  lemma {:induction false} WeightedBounds(legs: seq<Leg>, lo: real, hi: real)
    requires RWithin(legs, lo, hi)
    ensures Times(lo, Weight(legs)) <= WeightedSum(legs) <= Times(hi, Weight(legs))
  {
    hide Times;
    if legs == [] {
      AmountOfNothing(lo);
      AmountOfNothing(hi);
    } else {
      var front, leg := legs[..|legs| - 1], legs[|legs| - 1];
      WeightedBounds(front, lo, hi);
      if Weighs(leg) {
        TermBounds(Weight(front), leg.quantity.value, leg.rMultiple.value, lo, hi);
      }
    }
  }

  lemma {:induction false} PlainBounds(legs: seq<Leg>, lo: real, hi: real)
    requires RWithin(legs, lo, hi)
    ensures Times(lo, RCount(legs) as real) <= RSum(legs) <= Times(hi, RCount(legs) as real)
  {
    hide Times;
    if legs == [] {
      AmountOfNothing(lo);
      AmountOfNothing(hi);
    } else {
      var front, leg := legs[..|legs| - 1], legs[|legs| - 1];
      PlainBounds(front, lo, hi);
      if leg.rMultiple.Some? {
        TermBounds(RCount(front) as real, 1.0, leg.rMultiple.value, lo, hi);
      }
    }
  }

  lemma AmountOfNothing(x: real)
    ensures Times(x, 0.0) == 0.0
  {
  }

  lemma TermBounds(weight: real, quantity: real, r: real, lo: real, hi: real)
    requires quantity > 0.0 && lo <= r <= hi
    ensures Times(lo, weight + quantity) <= Times(lo, weight) + Times(r, quantity)
    ensures Times(hi, weight + quantity) >= Times(hi, weight) + Times(r, quantity)
    ensures quantity == 1.0 ==> Times(r, quantity) == r
  {
    assert lo * quantity <= r * quantity <= hi * quantity;
  }

  lemma QuotientBounds(x: real, whole: real, lo: real, hi: real)
    requires whole > 0.0 && Times(lo, whole) <= x <= Times(hi, whole)
    ensures lo <= x / whole <= hi
  {
    var q := x / whole;
    assert q * whole == x;
  }

  /** An event's R multiple lies between those of its legs. */
  lemma AggregateIsBetween(legs: seq<Leg>, lo: real, hi: real)
    requires RWithin(legs, lo, hi) && OnGrid(lo) && OnGrid(hi)
    ensures AggregateR(legs).Some? ==> lo <= AggregateR(legs).value <= hi
    ensures AggregateR(legs).None? <==> RCount(legs) == 0
  {
    hide OnGrid;
    hide Round6;
    hide Times;
    WeightedBounds(legs, lo, hi);
    PlainBounds(legs, lo, hi);
    Round6Identity(lo);
    Round6Identity(hi);
    if Weight(legs) > 0.0 {
      WeightsCount(legs);
      QuotientBounds(WeightedSum(legs), Weight(legs), lo, hi);
      Round6Monotone(lo, WeightedSum(legs) / Weight(legs));
      Round6Monotone(WeightedSum(legs) / Weight(legs), hi);
    } else if RCount(legs) > 0 {
      QuotientBounds(RSum(legs), RCount(legs) as real, lo, hi);
      Round6Monotone(lo, RSum(legs) / RCount(legs) as real);
      Round6Monotone(RSum(legs) / RCount(legs) as real, hi);
    }
  }

  lemma {:induction false} WeightsCount(legs: seq<Leg>)
    ensures Weight(legs) > 0.0 ==> RCount(legs) > 0
  {
    if legs != [] {
      WeightsCount(legs[..|legs| - 1]);
    }
  }

  // ----- the mean is where deviations cancel

  /** How far the R multiples lie above a, weighted by quantity. */
  function WeightedAbove(legs: seq<Leg>, a: real): real {
    if legs == [] then 0.0
    else
      var leg := legs[|legs| - 1];
      WeightedAbove(legs[..|legs| - 1], a)
        + (match leg
           case Leg(_, Some(r), Some(quantity)) => if quantity > 0.0 then Times(r - a, quantity) else 0.0
           case _ => 0.0)
  }

  /** The quantity that counts: of legs with an R multiple and a positive quantity. */
  function Counted(legs: seq<Leg>): real {
    if legs == [] then 0.0
    else
      Counted(legs[..|legs| - 1])
        + (match legs[|legs| - 1]
           case Leg(_, Some(_), Some(quantity)) => if quantity > 0.0 then quantity else 0.0
           case _ => 0.0)
  }

  function PlainAbove(legs: seq<Leg>, a: real): real {
    if legs == [] then 0.0
    else
      PlainAbove(legs[..|legs| - 1], a)
        + (match legs[|legs| - 1]
           case Leg(_, Some(r), _) => r - a
           case _ => 0.0)
  }

  lemma {:induction false} AboveIsSum(legs: seq<Leg>, a: real)
    ensures Counted(legs) == Weight(legs)
    ensures WeightedAbove(legs, a) == WeightedSum(legs) - Times(a, Weight(legs))
    ensures PlainAbove(legs, a) == RSum(legs) - Times(a, RCount(legs) as real)
  {
    hide Times;
    if legs == [] {
      AmountOfNothing(a);
    } else {
      var front, leg := legs[..|legs| - 1], legs[|legs| - 1];
      AboveIsSum(front, a);
      OneMore(a, RCount(front) as real, 1.0);
      if Weighs(leg) {
        OneMore(a, Weight(front), leg.quantity.value);
        Deviation(leg.rMultiple.value, a, leg.quantity.value);
      }
    }
  }

  lemma OneMore(a: real, x: real, y: real)
    ensures Times(a, x + y) == Times(a, x) + Times(a, y) && Times(a, 1.0) == a
  {
  }

  lemma Deviation(r: real, a: real, quantity: real)
    ensures Times(r - a, quantity) == Times(r, quantity) - Times(a, quantity)
  {
  }

  lemma RoundedQuotient(x: real, whole: real)
    requires whole > 0.0
    ensures var off := x - Times(Round6(x / whole), whole);
      -Times(HALF_MICRO, whole) <= off <= Times(HALF_MICRO, whole)
  {
    var exact := x / whole;
    assert exact * whole == x;
    ProductNonNegative(Round6(exact) - exact + HALF_MICRO, whole);
    ProductNonNegative(exact + HALF_MICRO - Round6(exact), whole);
  }

  /** An event's R multiple is the mean of its legs weighted by quantity: around it the weighted
      deviations cancel, up to its rounding. Without any quantity it is the plain mean. */
  lemma AggregateBalances(legs: seq<Leg>)
    ensures AggregateR(legs).Some? ==>
      var a := AggregateR(legs).value;
      if Counted(legs) > 0.0
      then -Times(HALF_MICRO, Counted(legs)) <= WeightedAbove(legs, a) <= Times(HALF_MICRO, Counted(legs))
      else var n := RCount(legs) as real;
        n > 0.0 && -Times(HALF_MICRO, n) <= PlainAbove(legs, a) <= Times(HALF_MICRO, n)
  {
    hide Round6;
    hide Times;
    if AggregateR(legs).Some? {
      AboveIsSum(legs, AggregateR(legs).value);
      if Weight(legs) > 0.0 {
        RoundedQuotient(WeightedSum(legs), Weight(legs));
      } else {
        RoundedQuotient(RSum(legs), RCount(legs) as real);
      }
    }
  }

  /** A journal row counts once, under its position or, without one, under itself, with its net
      PnL, or its gross PnL if that is all it has; without either it counts for nothing. */
  lemma JournalRowCounts(journal: seq<Trade>, t: Trade, key: EventKey)
    ensures var before, after := JournalLegs(journal, key), JournalLegs(journal + [t], key);
      var own := match t.positionId
        case Some(pid) => key == OfPosition(pid)
        case None => key == OfTrade(t.id);
      if own && (t.netPnl.Some? || t.grossPnl.Some?) then
        && |after| == |before| + 1 && after[..|before|] == before
        && Near(after[|before|].pnl, if t.netPnl.Some? then t.netPnl.value else t.grossPnl.value, 1)
        && after[|before|].rMultiple == t.rMultiple && after[|before|].quantity == t.quantity
      else after == before
  {
    assert (journal + [t])[..|journal|] == journal;
  }

  // ----- the loops

  function LegsUnder(legs: map<EventKey, seq<Leg>>, key: EventKey): seq<Leg> {
    if key in legs then legs[key] else []
  }

  ghost predicate NoEmptyEntries(legs: map<EventKey, seq<Leg>>) {
    forall key :: key in legs ==> legs[key] != []
  }

  lemma JournalLegsStep(journal: seq<Trade>, i: nat, key: EventKey)
    requires i < |journal|
    ensures JournalLegs(journal[..i + 1], key) == JournalLegs(journal[..i], key)
      + (if KeyOf(journal[i]) == key && TradePnl(journal[i]).Some? then [LegOfTrade(journal[i])] else [])
  {
    assert journal[..i + 1][..i] == journal[..i];
  }

  /** The legs given so far, followed under each key by those of the journal. */
  ghost predicate Extended(legs: map<EventKey, seq<Leg>>, given: map<EventKey, seq<Leg>>, journal: seq<Trade>) {
    forall key :: LegsUnder(legs, key) == LegsUnder(given, key) + JournalLegs(journal, key)
  }

  function FileTrade(legs: map<EventKey, seq<Leg>>, t: Trade): map<EventKey, seq<Leg>> {
    if TradePnl(t).Some? then legs[KeyOf(t) := LegsUnder(legs, KeyOf(t)) + [LegOfTrade(t)]] else legs
  }

  lemma FileTradeExtends(
    legs: map<EventKey, seq<Leg>>, given: map<EventKey, seq<Leg>>, journal: seq<Trade>, i: nat)
    requires i < |journal| && NoEmptyEntries(legs) && Extended(legs, given, journal[..i])
    ensures NoEmptyEntries(FileTrade(legs, journal[i]))
    ensures Extended(FileTrade(legs, journal[i]), given, journal[..i + 1])
  {
    hide JournalLegs;
    hide LegOfTrade;
    hide TradePnl;
    forall key
      ensures LegsUnder(FileTrade(legs, journal[i]), key) == LegsUnder(given, key) + JournalLegs(journal[..i + 1], key)
    {
      JournalLegsStep(journal, i, key);
      assert LegsUnder(legs, key) == LegsUnder(given, key) + JournalLegs(journal[..i], key);
    }
  }

  /** `_add_journal_realized_legs`. */
  method AddJournalLegs(journal: seq<Trade>, given: map<EventKey, seq<Leg>>) returns (legs: map<EventKey, seq<Leg>>)
    requires NoEmptyEntries(given)
    ensures NoEmptyEntries(legs)
    ensures Extended(legs, given, journal)
  {
    legs := given;
    for i := 0 to |journal|
      invariant NoEmptyEntries(legs)
      invariant Extended(legs, given, journal[..i])
    {
      hide Extended;
      hide NoEmptyEntries;
      FileTradeExtends(legs, given, journal, i);
      var t := journal[i];
      if TradePnl(t).Some? {
        legs := legs[KeyOf(t) := LegsUnder(legs, KeyOf(t)) + [LegOfTrade(t)]];
      }
    }
    assert journal[..|journal|] == journal;
  }

  function OwnUnder(own: map<PositionId, seq<Leg>>, done: set<PositionId>, key: EventKey): seq<Leg> {
    if key.OfPosition? && key.position in own && key.position in done then own[key.position] else []
  }

  /** The legs of fills, filed under their positions' keys. */
  method KeyFillLegs(own: map<PositionId, seq<Leg>>) returns (legs: map<EventKey, seq<Leg>>)
    requires forall pid :: pid in own ==> own[pid] != []
    ensures NoEmptyEntries(legs)
    ensures forall key :: LegsUnder(legs, key) == OwnUnder(own, own.Keys, key)
  {
    legs := map[];
    var todo := own.Keys;
    while todo != {}
      invariant todo <= own.Keys && NoEmptyEntries(legs)
      invariant forall key :: LegsUnder(legs, key) == OwnUnder(own, own.Keys - todo, key)
      decreases |todo|
    {
      var pid :| pid in todo;
      ghost var before, left := legs, todo;
      todo := todo - {pid};
      legs := legs[OfPosition(pid) := own[pid]];
      forall key
        ensures LegsUnder(legs, key) == OwnUnder(own, own.Keys - todo, key)
      {
        assert LegsUnder(before, key) == OwnUnder(own, own.Keys - left, key);
      }
    }
  }

  /** `_realized_events` up to aggregation, proved to build exactly `LegsByKey`. */
  method CollectLegs(report: seq<Fill>, basis: seq<Fill>, journal: seq<Trade>, positions: map<PositionId, Position>)
    returns (legs: map<EventKey, seq<Leg>>)
    ensures legs == LegsByKey(report, basis, journal, positions)
  {
    var own := FillRealizedLegs(report, basis, positions);
    var filed := KeyFillLegs(own);
    legs := AddJournalLegs(journal, filed);
    CollectedAll(legs, filed, own, report, basis, journal, positions);
  }

  lemma CollectedAll(
    legs: map<EventKey, seq<Leg>>, filed: map<EventKey, seq<Leg>>, own: map<PositionId, seq<Leg>>,
    report: seq<Fill>, basis: seq<Fill>, journal: seq<Trade>, positions: map<PositionId, Position>)
    requires own == RealizedLegs(report, basis, positions)
    requires forall key :: LegsUnder(filed, key) == OwnUnder(own, own.Keys, key)
    requires NoEmptyEntries(legs)
    requires Extended(legs, filed, journal)
    ensures legs == LegsByKey(report, basis, journal, positions)
  {
    hide PositionLegs;
    hide JournalLegs;
    var want := LegsByKey(report, basis, journal, positions);
    forall key
      ensures LegsUnder(legs, key) == KeyLegs(report, basis, journal, positions, key)
      ensures key in legs <==> key in want
      ensures key in legs ==> legs[key] == want[key]
    {
      assert LegsUnder(filed, key) == FillLegs(report, basis, positions, key);
      JournalLegsOnGrid(journal, key);
    }
  }

  function EventOf(legs: seq<Leg>): Event {
    Event(Round6(SumPnl(legs)), AggregateR(legs))
  }

  lemma PnlWithout(legs: map<EventKey, seq<Leg>>, key: EventKey)
    requires key in legs
    ensures Total(PnlByKey(legs)) == EventOf(legs[key]).pnl + Total(PnlByKey(legs - {key}))
  {
    hide SumPnl;
    hide AggregateR;
    hide Round6;
    TotalRemove(PnlByKey(legs), key);
    assert PnlByKey(legs) - {key} == PnlByKey(legs - {key});
  }

  /** `_realized_events_from_legs`, and the sum of the events' PnL. */
  method EventsFromLegs(legs: map<EventKey, seq<Leg>>) returns (events: map<EventKey, Event>, total: real)
    ensures events == map key | key in legs :: EventOf(legs[key])
    ensures total == Total(PnlByKey(legs))
  {
    hide EventOf;
    hide PnlByKey;
    events, total := map[], 0.0;
    var todo := legs;
    while todo != map[]
      invariant todo.Keys <= legs.Keys && forall key :: key in todo ==> todo[key] == legs[key]
      invariant events.Keys == legs.Keys - todo.Keys
      invariant forall key :: key in events ==> events[key] == EventOf(legs[key])
      invariant total + Total(PnlByKey(todo)) == Total(PnlByKey(legs))
      decreases |todo|
    {
      var key :| key in todo;
      var event := EventOf(todo[key]);
      PnlWithout(todo, key);
      assert (todo - {key}).Keys == todo.Keys - {key};
      events := events[key := event];
      total := total + event.pnl;
      todo := todo - {key};
    }
    NoPnl();
  }

  lemma NoPnl()
    ensures Total(PnlByKey(map[])) == 0.0
  {
    assert PnlByKey(map[]) == map[];
  }

  /** `_realized_events`: one event per key, and their sum. */
  method Realize(report: seq<Fill>, basis: seq<Fill>, journal: seq<Trade>, positions: map<PositionId, Position>)
    returns (events: map<EventKey, Event>, total: real)
    ensures var legs := LegsByKey(report, basis, journal, positions);
      events == map key | key in legs :: EventOf(legs[key])
    ensures total == RealizedSum(report, basis, journal, positions)
  {
    var legs := CollectLegs(report, basis, journal, positions);
    events, total := EventsFromLegs(legs);
  }
}
