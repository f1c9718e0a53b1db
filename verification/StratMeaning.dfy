/** What Strat signals and plans say, in terms of the highs and lows bars break. */
module StratMeaning {
  import opened Wrappers
  import opened Rounding
  import opened Bars
  import opened StratSignals

  // ----- what a bar breaks

  /** Bar k and the one before it have all their prices. */
  predicate Paired(bars: seq<Bar>, k: int) {
    1 <= k < |bars| && HasOhlc(bars[k]) && HasOhlc(bars[k - 1])
  }

  predicate BreaksHigh(bars: seq<Bar>, k: int) {
    Paired(bars, k) && bars[k].high.value > bars[k - 1].high.value
  }

  predicate BreaksLow(bars: seq<Bar>, k: int) {
    Paired(bars, k) && bars[k].low.value < bars[k - 1].low.value
  }

  predicate BreaksNeither(bars: seq<Bar>, k: int) {
    Paired(bars, k) && !BreaksHigh(bars, k) && !BreaksLow(bars, k)
  }

  predicate BreaksOnlyHigh(bars: seq<Bar>, k: int) {
    BreaksHigh(bars, k) && !BreaksLow(bars, k)
  }

  predicate BreaksOnlyLow(bars: seq<Bar>, k: int) {
    BreaksLow(bars, k) && !BreaksHigh(bars, k)
  }

  /** The type names the sides that bar k breaks; there is none without two whole bars. */
  predicate Names(t: Option<BarType>, bars: seq<Bar>, k: int) {
    && (t.Some? <==> Paired(bars, k))
    && (t == Some(Inside) <==> BreaksNeither(bars, k))
    && (t == Some(TwoUp) <==> BreaksOnlyHigh(bars, k))
    && (t == Some(TwoDown) <==> BreaksOnlyLow(bars, k))
    && (t == Some(Outside) <==> BreaksHigh(bars, k) && BreaksLow(bars, k))
  }

  lemma TypeNames(bars: seq<Bar>, k: int)
    ensures Names(TypeAt(bars, k), bars, k)
  {
  }

  // ----- signals

  /** A long setup: bar k breaks the high only, after one that broke neither side or the high only. */
  predicate LongSetup(bars: seq<Bar>, k: int) {
    BreaksOnlyHigh(bars, k) && (BreaksNeither(bars, k - 1) || BreaksOnlyHigh(bars, k - 1))
  }

  predicate ShortSetup(bars: seq<Bar>, k: int) {
    BreaksOnlyLow(bars, k) && (BreaksNeither(bars, k - 1) || BreaksOnlyLow(bars, k - 1))
  }

  /** The setup of bar k with its direction and pattern: an inside pattern follows a bar that
      broke neither side, and is a continuation if the bar before that went the same way. */
  predicate SetsUp(setup: Option<Setup>, bars: seq<Bar>, k: int) {
    && (setup.Some? <==> LongSetup(bars, k) || ShortSetup(bars, k))
    && (setup.Some? ==>
          var pattern, long := setup.value.pattern, setup.value.direction.Long?;
          && (long <==> LongSetup(bars, k))
          && (pattern.Continuation212? <==>
                BreaksNeither(bars, k - 1)
                && (if long then BreaksOnlyHigh(bars, k - 2) else BreaksOnlyLow(bars, k - 2)))
          && (pattern.InsideBreakout? <==> long && BreaksNeither(bars, k - 1) && !BreaksOnlyHigh(bars, k - 2))
          && (pattern.InsideBreakdown? <==> !long && BreaksNeither(bars, k - 1) && !BreaksOnlyLow(bars, k - 2))
          && (pattern.TwoUpContinuation? <==> long && BreaksOnlyHigh(bars, k - 1))
          && (pattern.TwoDownContinuation? <==> !long && BreaksOnlyLow(bars, k - 1)))
  }

  predicate NearPrice(rounded: Option<real>, price: real) {
    rounded.Some? && Near4(rounded.value, price)
  }

  /** The levels of a setup: entered beyond the bar before, stopped at its other side. */
  predicate Levels(signal: Signal, previous: Bar) {
    match signal.setup
    case None => signal.triggerPrice.None? && signal.triggerStop.None? && signal.invalidation.None?
    case Some(setup) =>
      && HasOhlc(previous)
      && (if setup.direction.Long? then
            && NearPrice(signal.triggerPrice, previous.high.value) && NearPrice(signal.triggerStop, previous.low.value)
            && signal.invalidation == Some(CloseBelowLow)
          else
            && NearPrice(signal.triggerPrice, previous.low.value) && NearPrice(signal.triggerStop, previous.high.value)
            && signal.invalidation == Some(CloseAboveHigh))
  }

  predicate Continues(c: Continuity, bar: Bar) {
    && (c.Bullish? <==> bar.open.Some? && bar.close.Some? && bar.close.value > bar.open.value)
    && (c.Bearish? <==> bar.open.Some? && bar.close.Some? && bar.close.value < bar.open.value)
  }

  /** The signal says of bar k what its bars show. */
  predicate Tells(signal: Signal, bars: seq<Bar>, k: int) {
    && Paired(bars, k) && signal.ts == bars[k].ts
    && Names(Some(signal.barType), bars, k)
    && Names(signal.previousBarType, bars, k - 1)
    && SetsUp(signal.setup, bars, k)
    && Levels(signal, bars[k - 1])
    && Continues(signal.continuity, bars[k])
    && (signal.qualityScore == match signal.setup
        case None => None
        case Some(setup) => Some(if setup.pattern in {InsideBreakout, InsideBreakdown} then 60.0 else 70.0))
  }

  lemma SignalTells(bars: seq<Bar>, k: int)
    ensures SignalAt(bars, k).Some? <==> Paired(bars, k)
    ensures SignalAt(bars, k).Some? ==> Tells(SignalAt(bars, k).value, bars, k)
  {
    hide Round4;
  }

  /** The bars a signal can be given for, in order. */
  function PairedIndices(bars: seq<Bar>, n: nat): seq<nat>
    requires n <= |bars|
  {
    if n == 0 then [] else PairedIndices(bars, n - 1) + (if Paired(bars, n - 1) then [n - 1] else [])
  }

  lemma {:induction false} SignalsOfPrefix(bars: seq<Bar>, n: nat)
    requires n <= |bars|
    ensures var signals, at := Signals(bars[..n]), PairedIndices(bars, n);
      |signals| == |at| && forall i :: 0 <= i < |signals| ==> at[i] < n && Tells(signals[i], bars, at[i])
  {
    hide Tells;
    hide SignalAt;
    hide Paired;
    if n > 0 {
      SignalsOfPrefix(bars, n - 1);
      assert bars[..n][..n - 1] == bars[..n - 1];
      SignalOfPrefix(bars, n, n - 1);
      SignalTells(bars, n - 1);
    }
  }

  /** There is exactly one signal for every bar that has its prices and follows one that has,
      in the order of the bars, and it tells what they break. */
  lemma SignalsTell(bars: seq<Bar>)
    ensures var signals, at := Signals(bars), PairedIndices(bars, |bars|);
      |signals| == |at| && forall i :: 0 <= i < |signals| ==> Tells(signals[i], bars, at[i])
  {
    SignalsOfPrefix(bars, |bars|);
    assert bars[..|bars|] == bars;
  }
}
