/** Price bars, whose prices may be missing. */
module Bars {
  import opened Numbers
  import opened Wrappers

  datatype Bar = Bar(
    ts: int,
    open: Option<real>,
    high: Option<real>,
    low: Option<real>,
    close: Option<real>,
    volume: Option<real>)

  predicate HasOhlc(bar: Bar) {
    bar.open.Some? && bar.high.Some? && bar.low.Some? && bar.close.Some?
  }

  ghost predicate Complete(bars: seq<Bar>) {
    forall i :: 0 <= i < |bars| ==> HasOhlc(bars[i])
  }

  /** A bar that trades at one price. */
  function FlatBar(ts: int, price: real): Bar {
    Bar(ts, Some(price), Some(price), Some(price), Some(price), None)
  }

  function Abs(x: real): real {
    if x >= 0.0 then x else -x
  }

  /** The true range of a bar, given the close before it if there is one. */
  function TrueRange(high: real, low: real, previousClose: Option<real>): real {
    if previousClose.None? then high - low
    else Max(high - low, Max(Abs(high - previousClose.value), Abs(low - previousClose.value)))
  }

  function Highs(bars: seq<Bar>): seq<Option<real>> {
    seq(|bars|, i requires 0 <= i < |bars| => bars[i].high)
  }

  function Lows(bars: seq<Bar>): seq<Option<real>> {
    seq(|bars|, i requires 0 <= i < |bars| => bars[i].low)
  }

  function Closes(bars: seq<Bar>): seq<Option<real>> {
    seq(|bars|, i requires 0 <= i < |bars| => bars[i].close)
  }

  function Volumes(bars: seq<Bar>): seq<Option<real>> {
    seq(|bars|, i requires 0 <= i < |bars| => bars[i].volume)
  }

  /** The largest value present, if any. */
  function MaxOf(values: seq<Option<real>>): Option<real> {
    if values == [] then None
    else
      var before, last := MaxOf(values[..|values| - 1]), values[|values| - 1];
      if before.None? then last else if last.None? then before else Some(Max(before.value, last.value))
  }

  /** The smallest value present, if any. */
  function MinOf(values: seq<Option<real>>): Option<real> {
    if values == [] then None
    else
      var before, last := MinOf(values[..|values| - 1]), values[|values| - 1];
      if before.None? then last else if last.None? then before else Some(Min(before.value, last.value))
  }

  /** m is a value present and none is larger. */
  ghost predicate IsMax(values: seq<Option<real>>, m: Option<real>) {
    && (m.Some? ==> m in values)
    && (forall i :: 0 <= i < |values| && values[i].Some? ==> m.Some? && values[i].value <= m.value)
  }

  ghost predicate IsMin(values: seq<Option<real>>, m: Option<real>) {
    && (m.Some? ==> m in values)
    && (forall i :: 0 <= i < |values| && values[i].Some? ==> m.Some? && m.value <= values[i].value)
  }

  lemma {:induction false} MaxOfIsMax(values: seq<Option<real>>)
    ensures IsMax(values, MaxOf(values))
  {
    if values != [] {
      var front := values[..|values| - 1];
      MaxOfIsMax(front);
      assert values == front + [values[|values| - 1]];
    }
  }

  lemma {:induction false} MinOfIsMin(values: seq<Option<real>>)
    ensures IsMin(values, MinOf(values))
  {
    if values != [] {
      var front := values[..|values| - 1];
      MinOfIsMin(front);
      assert values == front + [values[|values| - 1]];
    }
  }

  /** Fewer values have no larger maximum. */
  lemma MaxOfPart(part: seq<Option<real>>, whole: seq<Option<real>>)
    requires forall v :: v in part ==> v in whole
    ensures MaxOf(part).Some? ==> MaxOf(whole).Some? && MaxOf(part).value <= MaxOf(whole).value
  {
    MaxOfIsMax(part);
    MaxOfIsMax(whole);
    if MaxOf(part).Some? {
      assert MaxOf(part) in whole;
      var i :| 0 <= i < |whole| && whole[i] == MaxOf(part);
    }
  }

  lemma MinOfPart(part: seq<Option<real>>, whole: seq<Option<real>>)
    requires forall v :: v in part ==> v in whole
    ensures MinOf(part).Some? ==> MinOf(whole).Some? && MinOf(whole).value <= MinOf(part).value
  {
    MinOfIsMin(part);
    MinOfIsMin(whole);
    if MinOf(part).Some? {
      assert MinOf(part) in whole;
      var i :| 0 <= i < |whole| && whole[i] == MinOf(part);
    }
  }
}
