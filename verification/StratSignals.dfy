/** The Strat signal loop: three carried variables against a declarative form. */
module StratSignals {
  import opened Wrappers
  import opened Rounding
  import opened Bars

  datatype BarType = Inside | Outside | TwoUp | TwoDown

  datatype Direction = Long | Short

  datatype Pattern = Continuation212 | InsideBreakout | InsideBreakdown | TwoUpContinuation | TwoDownContinuation

  datatype Setup = Setup(pattern: Pattern, direction: Direction)

  datatype Continuity = Bullish | Bearish | Neutral

  datatype Invalidation = CloseBelowLow | CloseAboveHigh

  datatype Signal = Signal(
    ts: int,
    barType: BarType,
    previousBarType: Option<BarType>,
    setup: Option<Setup>,
    triggerPrice: Option<real>,
    triggerStop: Option<real>,
    invalidation: Option<Invalidation>,
    continuity: Continuity,
    qualityScore: Option<real>)

  // ----- one bar

  function TypeOf(bar: Bar, previous: Bar): BarType
    requires HasOhlc(bar) && HasOhlc(previous)
  {
    var high, low := bar.high.value, bar.low.value;
    var previousHigh, previousLow := previous.high.value, previous.low.value;
    if high <= previousHigh && low >= previousLow then Inside
    else if high > previousHigh && low < previousLow then Outside
    else if high > previousHigh && low >= previousLow then TwoUp
    else TwoDown
  }

  function SetupOf(barType: BarType, previous: Option<BarType>, previousTwo: Option<BarType>): Option<Setup> {
    if previous == Some(Inside) && barType.TwoUp? then
      Some(Setup(if previousTwo == Some(TwoUp) then Continuation212 else InsideBreakout, Long))
    else if previous == Some(Inside) && barType.TwoDown? then
      Some(Setup(if previousTwo == Some(TwoDown) then Continuation212 else InsideBreakdown, Short))
    else if previous == Some(TwoUp) && barType.TwoUp? then Some(Setup(TwoUpContinuation, Long))
    else if previous == Some(TwoDown) && barType.TwoDown? then Some(Setup(TwoDownContinuation, Short))
    else None
  }

  function RoundPrice(price: Option<real>): Option<real> {
    if price.Some? then Some(Round4(price.value)) else None
  }

  function ContinuityOf(bar: Bar): Continuity {
    if bar.close.None? || bar.open.None? then Neutral
    else if bar.close.value > bar.open.value then Bullish
    else if bar.close.value < bar.open.value then Bearish
    else Neutral
  }

  function QualityOf(setup: Option<Setup>): Option<real> {
    if setup.None? then None
    else if setup.value.pattern in {Continuation212, TwoUpContinuation, TwoDownContinuation} then Some(70.0)
    else Some(60.0)
  }

  /** The signal of a bar, given its neighbour and the two types before its own. */
  function MakeSignal(bar: Bar, previous: Bar, previousType: Option<BarType>, previousTwo: Option<BarType>): Signal
    requires HasOhlc(bar) && HasOhlc(previous)
  {
    var barType := TypeOf(bar, previous);
    var setup := SetupOf(barType, previousType, previousTwo);
    var long := setup.Some? && setup.value.direction.Long?;
    Signal(
      bar.ts, barType, previousType, setup,
      if setup.None? then None else if long then RoundPrice(previous.high) else RoundPrice(previous.low),
      if setup.None? then None else if long then RoundPrice(previous.low) else RoundPrice(previous.high),
      if setup.None? then None else if long then Some(CloseBelowLow) else Some(CloseAboveHigh),
      ContinuityOf(bar),
      QualityOf(setup))
  }

  // ----- declarative form

  /** The type of bar k, if it and its predecessor are complete. */
  function TypeAt(bars: seq<Bar>, k: int): Option<BarType> {
    if 1 <= k < |bars| && HasOhlc(bars[k]) && HasOhlc(bars[k - 1])
    then Some(TypeOf(bars[k], bars[k - 1]))
    else None
  }

  /** The signal of bar k, if it has one. */
  function SignalAt(bars: seq<Bar>, k: int): Option<Signal> {
    if TypeAt(bars, k).None? then None
    else Some(MakeSignal(bars[k], bars[k - 1], TypeAt(bars, k - 1), TypeAt(bars, k - 2)))
  }

  function Signals(bars: seq<Bar>): seq<Signal> {
    if bars == [] then []
    else
      var signal := SignalAt(bars, |bars| - 1);
      Signals(bars[..|bars| - 1]) + (if signal.Some? then [signal.value] else [])
  }

  lemma SignalOfPrefix(bars: seq<Bar>, n: nat, k: int)
    requires k < n <= |bars|
    ensures TypeAt(bars[..n], k) == TypeAt(bars, k)
    ensures SignalAt(bars[..n], k) == SignalAt(bars, k)
  {
  }

  /** `calculate_signals`: the loop refines the declarative form. */
  method CalculateSignals(bars: seq<Bar>) returns (signals: seq<Signal>)
    ensures signals == Signals(bars)
  {
    signals := [];
    var previousType: Option<BarType> := None;
    var previousTwo: Option<BarType> := None;
    var previous: Option<Bar> := None;
    for k := 0 to |bars|
      invariant previous == if k == 0 then None else Some(bars[k - 1])
      invariant previousType == TypeAt(bars, k - 1)
      invariant previousTwo == TypeAt(bars, k - 2)
      invariant signals == Signals(bars[..k])
    {
      var bar := bars[k];
      assert bars[..k + 1][..k] == bars[..k];
      SignalOfPrefix(bars, k + 1, k);
      if previous.None? {
        previous := Some(bar);
      } else if !HasOhlc(bar) || !HasOhlc(previous.value) {
        previousTwo := previousType;
        previous := Some(bar);
        previousType := None;
      } else {
        signals := signals + [MakeSignal(bar, previous.value, previousType, previousTwo)];
        previousTwo := previousType;
        previousType := Some(TypeOf(bar, previous.value));
        previous := Some(bar);
      }
    }
    assert bars[..|bars|] == bars;
  }

  // ----- locality

  /** A signal is a function of its bar and the three before it. */
  lemma SignalIsLocal(bars: seq<Bar>, k: nat)
    requires 3 <= k < |bars|
    ensures SignalAt(bars, k) == SignalAt(bars[k - 3..k + 1], 3)
  {
  }

  /** Later bars never change a signal already given. */
  lemma {:induction false} SignalsArePrefix(bars: seq<Bar>, later: seq<Bar>)
    ensures Signals(bars) <= Signals(bars + later)
  {
    if later == [] {
      assert bars + later == bars;
    } else {
      var front := later[..|later| - 1];
      SignalsArePrefix(bars, front);
      assert (bars + later)[..|bars + later| - 1] == bars + front;
    }
  }

  // ----- mirror symmetry

  function Negate(price: Option<real>): Option<real> {
    if price.Some? then Some(-price.value) else None
  }

  /** Prices negated: the high becomes the low and the low the high. */
  function MirrorBar(bar: Bar): Bar {
    bar.(open := Negate(bar.open), high := Negate(bar.low), low := Negate(bar.high), close := Negate(bar.close))
  }

  function MirrorBars(bars: seq<Bar>): seq<Bar> {
    seq(|bars|, i requires 0 <= i < |bars| => MirrorBar(bars[i]))
  }

  function MirrorType(t: BarType): BarType {
    match t
    case TwoUp => TwoDown
    case TwoDown => TwoUp
    case _ => t
  }

  function MirrorTypes(t: Option<BarType>): Option<BarType> {
    if t.Some? then Some(MirrorType(t.value)) else None
  }

  function MirrorPattern(p: Pattern): Pattern {
    match p
    case Continuation212 => Continuation212
    case InsideBreakout => InsideBreakdown
    case InsideBreakdown => InsideBreakout
    case TwoUpContinuation => TwoDownContinuation
    case TwoDownContinuation => TwoUpContinuation
  }

  function MirrorSetup(s: Option<Setup>): Option<Setup> {
    if s.None? then None
    else Some(Setup(MirrorPattern(s.value.pattern), if s.value.direction.Long? then Short else Long))
  }

  function MirrorInvalidation(i: Option<Invalidation>): Option<Invalidation> {
    if i.None? then None else if i.value.CloseBelowLow? then Some(CloseAboveHigh) else Some(CloseBelowLow)
  }

  function MirrorContinuity(c: Continuity): Continuity {
    match c
    case Bullish => Bearish
    case Bearish => Bullish
    case Neutral => Neutral
  }

  function MirrorSignal(s: Signal): Signal {
    Signal(s.ts, MirrorType(s.barType), MirrorTypes(s.previousBarType), MirrorSetup(s.setup),
           Negate(s.triggerPrice), Negate(s.triggerStop), MirrorInvalidation(s.invalidation),
           MirrorContinuity(s.continuity), s.qualityScore)
  }

  function MirrorSignals(signals: seq<Signal>): seq<Signal> {
    seq(|signals|, i requires 0 <= i < |signals| => MirrorSignal(signals[i]))
  }

  lemma RoundPriceMirrors(price: Option<real>)
    ensures RoundPrice(Negate(price)) == Negate(RoundPrice(price))
  {
    if price.Some? {
      Round4Odd(price.value);
    }
  }

  lemma SetupMirrors(t: BarType, previous: Option<BarType>, previousTwo: Option<BarType>)
    ensures SetupOf(MirrorType(t), MirrorTypes(previous), MirrorTypes(previousTwo))
         == MirrorSetup(SetupOf(t, previous, previousTwo))
    ensures QualityOf(MirrorSetup(SetupOf(t, previous, previousTwo))) == QualityOf(SetupOf(t, previous, previousTwo))
  {
  }

  lemma TypeMirrors(bars: seq<Bar>, k: int)
    ensures TypeAt(MirrorBars(bars), k) == MirrorTypes(TypeAt(bars, k))
  {
  }

  lemma SignalMirrors(bars: seq<Bar>, k: int)
    ensures SignalAt(MirrorBars(bars), k).Some? == SignalAt(bars, k).Some?
    ensures SignalAt(bars, k).Some? ==> SignalAt(MirrorBars(bars), k).value == MirrorSignal(SignalAt(bars, k).value)
  {
    TypeMirrors(bars, k);
    TypeMirrors(bars, k - 1);
    TypeMirrors(bars, k - 2);
    if TypeAt(bars, k).Some? {
      SetupMirrors(TypeAt(bars, k).value, TypeAt(bars, k - 1), TypeAt(bars, k - 2));
      RoundPriceMirrors(bars[k - 1].high);
      RoundPriceMirrors(bars[k - 1].low);
    }
  }

  /** Turning prices upside down turns every signal into its mirror: long into short,
      2U into 2D, breakout into breakdown, trigger and stop prices negated. */
  lemma {:induction false} SignalsMirror(bars: seq<Bar>)
    ensures Signals(MirrorBars(bars)) == MirrorSignals(Signals(bars))
  {
    if bars != [] {
      var front := bars[..|bars| - 1];
      SignalsMirror(front);
      assert MirrorBars(bars)[..|bars| - 1] == MirrorBars(front);
      SignalMirrors(bars, |bars| - 1);
    }
  }
}
