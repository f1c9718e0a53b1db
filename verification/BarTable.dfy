/** The stored bars of one symbol and timeframe. Their key is the timestamp, and every query
    orders them by it. */
module BarTable {
  import opened Bars
  import opened Wrappers

  ghost predicate ByTimestamp(rows: map<int, Bar>) {
    forall ts :: ts in rows ==> rows[ts].ts == ts
  }

  type Table = rows: map<int, Bar> | ByTimestamp(rows) witness map[]

  /** Ingestion writes rows under their keys: new ones are added, known ones rewritten. */
  function Upsert(table: Table, arriving: Table): (stored: Table)
    ensures stored.Keys == table.Keys + arriving.Keys
  {
    table + arriving
  }

  // ----- ordering

  ghost predicate IsLatest(s: set<int>, m: int) {
    m in s && forall x :: x in s ==> x <= m
  }

  lemma {:induction false} LatestExists(s: set<int>)
    requires s != {}
    ensures exists m :: IsLatest(s, m)
    decreases |s|
  {
    assert exists x :: x in s by {
      if forall x :: x !in s {
        assert false;
      }
    }
    var one :| one in s;
    var rest := s - {one};
    if rest == {} {
      assert s == {one};
      assert IsLatest(s, one);
    } else {
      LatestExists(rest);
      var m :| IsLatest(rest, m);
      forall x | x in s
        ensures x == one || x <= m
      {
        assert x == one || x in rest;
      }
      assert IsLatest(s, if one > m then one else m);
    }
  }

  function Latest(s: set<int>): (m: int)
    requires s != {}
    ensures m in s && forall x :: x in s ==> x <= m
  {
    assert exists m :: m in s && forall x :: x in s ==> x <= m by {
      LatestExists(s);
      var m :| IsLatest(s, m);
    }
    var m :| m in s && forall x :: x in s ==> x <= m;
    m
  }

  ghost predicate Ascending(stamps: seq<int>) {
    forall i, j :: 0 <= i < j < |stamps| ==> stamps[i] < stamps[j]
  }

  /** `order_by(ts.asc())`. */
  function Ascend(s: set<int>): (stamps: seq<int>)
    ensures Ascending(stamps) && |stamps| == |s| && forall x :: x in stamps <==> x in s
    decreases |s|
  {
    if s == {} then []
    else
      var m := Latest(s);
      Ascend(s - {m}) + [m]
  }

  lemma FrontStamps(a: seq<int>)
    requires Ascending(a) && a != []
    ensures Ascending(a[..|a| - 1])
    ensures forall x :: x in a[..|a| - 1] <==> x in a && x != a[|a| - 1]
  {
    var front := a[..|a| - 1];
    assert a == front + [a[|a| - 1]];
    assert forall i :: 0 <= i < |front| ==> front[i] == a[i];
  }

  lemma LastStamp(a: seq<int>, b: seq<int>)
    requires Ascending(a) && a != [] && forall x :: x in a <==> x in b
    ensures b != [] && forall x :: x in b ==> x <= a[|a| - 1]
  {
    assert a[0] in a;
  }

  /** There is one ascending list of a set. */
  lemma {:induction false} AscendingIsUnique(a: seq<int>, b: seq<int>)
    requires Ascending(a) && Ascending(b) && forall x :: x in a <==> x in b
    ensures a == b
  {
    if a == [] {
      assert forall i :: 0 <= i < |b| ==> b[i] in b;
    } else {
      LastStamp(a, b);
      LastStamp(b, a);
      var last := a[|a| - 1];
      assert last in a && b[|b| - 1] in b;
      assert last == b[|b| - 1];
      FrontStamps(a);
      FrontStamps(b);
      var fronta, frontb := a[..|a| - 1], b[..|b| - 1];
      forall x
        ensures x in fronta <==> x in frontb
      {
        assert x in fronta <==> x in a && x != last;
        assert x in frontb <==> x in b && x != last;
      }
      AscendingIsUnique(fronta, frontb);
      assert a == fronta + [last] && b == frontb + [last];
    }
  }

  /** A set all of whose stamps come later is listed behind. */
  lemma AscendJoins(early: set<int>, late: set<int>)
    requires forall x, y :: x in early && y in late ==> x < y
    ensures Ascend(early + late) == Ascend(early) + Ascend(late)
  {
    hide Ascend;
    var a, b := Ascend(early), Ascend(late);
    assert forall i :: 0 <= i < |a| ==> a[i] in a;
    assert forall i :: 0 <= i < |b| ==> b[i] in b;
    AscendingIsUnique(Ascend(early + late), a + b);
  }

  // ----- queries

  function UpTo(s: set<int>, ts: int): set<int> {
    set x | x in s && x <= ts
  }

  function After(s: set<int>, ts: int): set<int> {
    set x | x in s && x > ts
  }

  function Take<T>(s: seq<T>, n: nat): seq<T> {
    if |s| <= n then s else s[..n]
  }

  /** The latest stamp at or before a time. */
  function LatestUpTo(s: set<int>, ts: int): Option<int> {
    if UpTo(s, ts) == {} then None else Some(Latest(UpTo(s, ts)))
  }

  /** The first n stamps after a time. */
  function FirstAfter(s: set<int>, ts: int, n: nat): (stamps: seq<int>)
    ensures Ascending(stamps) && |stamps| <= n
    ensures forall i :: 0 <= i < |stamps| ==> stamps[i] in s && stamps[i] > ts
  {
    var all := Ascend(After(s, ts));
    assert forall i :: 0 <= i < |all| ==> all[i] in all;
    Take(all, n)
  }

  /** The rows under the given stamps. */
  function Rows(table: Table, stamps: seq<int>): seq<Bar>
    requires forall i :: 0 <= i < |stamps| ==> stamps[i] in table
  {
    seq(|stamps|, i requires 0 <= i < |stamps| => table[stamps[i]])
  }

  /** The stamps up to the last of the first n, and the others: a split the listing keeps. */
  lemma FirstAfterSplits(s: set<int>, ts: int, n: nat) returns (rest: set<int>)
    requires FirstAfter(s, ts, n) != []
    ensures var first := FirstAfter(s, ts, n);
      var last := first[|first| - 1];
      && rest == After(s, last)
      && Ascend(UpTo(After(s, ts), last)) == first
      && (|first| < n ==> rest == {})
  {
    hide Ascend;
    var all, first := Ascend(After(s, ts)), FirstAfter(s, ts, n);
    var last := first[|first| - 1];
    rest := After(s, last);
    forall x
      ensures x in first <==> x in UpTo(After(s, ts), last)
    {
      if x in first {
        var i :| 0 <= i < |first| && first[i] == x;
        assert all[i] == x && x in all;
        assert all[|first| - 1] == last;
      }
      if x in UpTo(After(s, ts), last) {
        assert x in all;
        var i :| 0 <= i < |all| && all[i] == x;
        assert all[|first| - 1] == last;
        assert i < |first| && first[i] == x;
      }
    }
    AscendingIsUnique(Ascend(UpTo(After(s, ts), last)), first);
    if |first| < n {
      assert all == first;
      assert forall x :: x in rest ==> x in all;
    }
  }

  /** Stamps added behind the last of the first n, or before the time, keep them. */
  lemma FirstAfterGrows(s: set<int>, more: set<int>, ts: int, n: nat)
    requires var first := FirstAfter(s, ts, n);
      forall x :: x in more ==> x <= ts || first == [] || x > first[|first| - 1]
    ensures var before, after := FirstAfter(s, ts, n), FirstAfter(s + more, ts, n);
      before <= after && (|before| == n ==> after == before)
  {
    var before := FirstAfter(s, ts, n);
    if before != [] {
      var last := before[|before| - 1];
      var rest := FirstAfterSplits(s, ts, n);
      SplitUnion(s, more, ts, last);
      hide FirstAfter;
      hide Ascend;
      AscendJoins(UpTo(After(s, ts), last), After(s + more, last));
      TakeJoined(s + more, ts, n, before, Ascend(After(s + more, last)));
    }
  }

  lemma SplitUnion(s: set<int>, more: set<int>, ts: int, last: int)
    requires last > ts && forall x :: x in more ==> x <= ts || x > last
    ensures After(s + more, ts) == UpTo(After(s, ts), last) + After(s + more, last)
  {
  }

  lemma TakeJoined(s: set<int>, ts: int, n: nat, front: seq<int>, back: seq<int>)
    requires Ascend(After(s, ts)) == front + back && |front| <= n
    ensures front <= FirstAfter(s, ts, n) && (|front| == n ==> FirstAfter(s, ts, n) == front)
  {
    hide Ascend;
  }

  /** A stamp with fewer than n others before it is among the first n. */
  lemma FirstAfterHolds(s: set<int>, ts: int, n: nat, before: set<int>, x: int, rest: set<int>)
    requires After(s, ts) == before + ({x} + rest) && |before| < n
    requires forall y :: y in before ==> y < x
    requires forall y :: y in rest ==> y > x
    ensures x in FirstAfter(s, ts, n)
  {
    hide After;
    OneStamp(x);
    AscendJoins({x}, rest);
    AscendJoins(before, {x} + rest);
    hide Ascend;
    TakeHolds(Ascend(After(s, ts)), Ascend(before), [x] + Ascend(rest), n);
  }

  lemma TakeHolds(all: seq<int>, front: seq<int>, back: seq<int>, n: nat)
    requires all == front + back && back != [] && |front| < n
    ensures back[0] in Take(all, n)
  {
    assert Take(all, n)[|front|] == back[0];
  }

  lemma OneStamp(x: int)
    ensures Ascend({x}) == [x]
  {
    assert Ascend({x})[0] in Ascend({x});
  }

  /** Fewer than n stamps lie between the time and any stamp up to the last of the first n. */
  lemma FewerBefore(s: set<int>, ts: int, n: nat, x: int)
    requires FirstAfter(s, ts, n) != []
    requires var first := FirstAfter(s, ts, n); ts < x <= first[|first| - 1]
    ensures |UpTo(After(s, ts), x - 1)| < n
  {
    var first := FirstAfter(s, ts, n);
    var last := first[|first| - 1];
    var rest := FirstAfterSplits(s, ts, n);
    hide FirstAfter;
    hide Ascend;
    var counted := UpTo(After(s, ts), last);
    var before, late := UpTo(After(s, ts), x - 1), After(counted, x - 1);
    CutAt(After(s, ts), last, x, before, late);
    assert last in first;
    assert last in late;
    hide After;
    hide UpTo;
    AscendJoins(before, late);
    assert |Ascend(late)| > 0;
  }

  lemma CutAt(s: set<int>, last: int, x: int, before: set<int>, late: set<int>)
    requires x <= last && before == UpTo(s, x - 1) && late == After(UpTo(s, last), x - 1)
    ensures UpTo(s, last) == before + late
    ensures forall y, z :: y in before && z in late ==> y < z
  {
  }

  /** The earliest stamp to arrive up to the last of the first n is among the first n. */
  lemma FirstAfterCatches(s: set<int>, more: set<int>, ts: int, n: nat, x: int)
    requires FirstAfter(s, ts, n) != [] && x in more
    requires var first := FirstAfter(s, ts, n);
      ts < x <= first[|first| - 1] && forall y :: y in more && ts < y ==> x <= y
    ensures x in FirstAfter(s + more, ts, n)
  {
    hide FirstAfter;
    FewerBefore(s, ts, n, x);
    var before, rest := UpTo(After(s, ts), x - 1), After(s + more, x);
    assert After(s + more, ts) == before + ({x} + rest);
    FirstAfterHolds(s + more, ts, n, before, x, rest);
  }
}
