/** The order in which analytics replays a position's fills: by time, buys before sells,
    then by fill id. Fill ids are digests, so the order of ids is that of the keys. */
module ReplayOrder {
  import opened Records

  function Rank(side: Side): nat {
    if side.Buy? then 0 else 1
  }

  predicate Precedes(a: Fill, b: Fill) {
    || a.executedAt < b.executedAt
    || (a.executedAt == b.executedAt
        && (Rank(a.side) < Rank(b.side) || (Rank(a.side) == Rank(b.side) && a.key < b.key)))
  }

  ghost predicate InOrder(s: seq<Fill>) {
    forall i, j :: 0 <= i < j < |s| ==> Precedes(s[i], s[j])
  }

  /** A dictionary of fills by fill id. */
  ghost predicate Keyed(m: map<nat, Fill>) {
    forall k :: k in m ==> m[k].key == k
  }

  ghost predicate Lists(s: seq<Fill>, m: map<nat, Fill>) {
    forall f :: f in s <==> f.key in m && m[f.key] == f
  }

  function Insert(s: seq<Fill>, f: Fill): seq<Fill> {
    if s == [] then [f]
    else if Precedes(f, s[|s| - 1]) then Insert(s[..|s| - 1], f) + [s[|s| - 1]]
    else s + [f]
  }

  lemma {:induction false} InsertKeepsOrder(s: seq<Fill>, f: Fill)
    requires InOrder(s) && forall i :: 0 <= i < |s| ==> s[i].key != f.key
    ensures InOrder(Insert(s, f))
    ensures forall g :: g in Insert(s, f) <==> g in s || g == f
  {
    if s != [] {
      var last := s[|s| - 1];
      assert s == s[..|s| - 1] + [last];
      if Precedes(f, last) {
        InsertKeepsOrder(s[..|s| - 1], f);
        var front := Insert(s[..|s| - 1], f);
        forall i | 0 <= i < |front|
          ensures Precedes(front[i], last)
        {
          assert front[i] in front;
        }
      } else {
        assert Precedes(last, f);
      }
    }
  }

  /** `sorted(fills, key=...)` of the dictionary's values. */
  ghost function Ordered(m: map<nat, Fill>): (s: seq<Fill>)
    requires Keyed(m)
    ensures InOrder(s) && Lists(s, m)
    decreases |m|
  {
    if m == map[] then []
    else
      var k :| k in m;
      var rest := Ordered(m - {k});
      InsertKeepsOrder(rest, m[k]);
      Insert(rest, m[k])
  }

  lemma FrontMembers(a: seq<Fill>)
    requires InOrder(a) && a != []
    ensures InOrder(a[..|a| - 1])
    ensures forall f :: f in a[..|a| - 1] <==> f in a && f != a[|a| - 1]
  {
    var front, last := a[..|a| - 1], a[|a| - 1];
    assert a == front + [last];
    forall i | 0 <= i < |front|
      ensures front[i] != last
    {
      assert Precedes(a[i], a[|a| - 1]);
    }
  }

  lemma SameLast(a: seq<Fill>, b: seq<Fill>)
    requires InOrder(a) && InOrder(b) && a != [] && b != [] && forall f :: f in a <==> f in b
    ensures a[|a| - 1] == b[|b| - 1]
  {
    var x, y := a[|a| - 1], b[|b| - 1];
    assert x in b && y in a;
    var i :| 0 <= i < |b| && b[i] == x;
    var j :| 0 <= j < |a| && a[j] == y;
    assert i < |b| - 1 ==> Precedes(b[i], y);
    assert j < |a| - 1 ==> Precedes(a[j], x);
  }

  /** The replay order is unique: two ordered lists of the same fills are the same list. */
  lemma {:induction false} OrderIsUnique(a: seq<Fill>, b: seq<Fill>)
    requires InOrder(a) && InOrder(b) && forall f :: f in a <==> f in b
    ensures a == b
  {
    assert a != [] ==> a[0] in a;
    assert b != [] ==> b[0] in b;
    if a != [] && b != [] {
      FrontMembers(a);
      FrontMembers(b);
      SameLast(a, b);
      var a', b' := a[..|a| - 1], b[..|b| - 1];
      forall f
        ensures f in a' <==> f in b'
      {
        assert f in a <==> f in b;
      }
      OrderIsUnique(a', b');
      assert a == a' + [a[|a| - 1]] && b == b' + [b[|b| - 1]];
    }
  }

  /** Everything up to a time comes before everything after it. */
  lemma {:induction false} OrderedSplits(s: seq<Fill>, cut: int) returns (n: nat)
    requires InOrder(s)
    ensures n <= |s|
    ensures forall i :: 0 <= i < n ==> s[i].executedAt <= cut
    ensures forall i :: n <= i < |s| ==> s[i].executedAt > cut
  {
    n := |s|;
    while n > 0 && s[n - 1].executedAt > cut
      invariant 0 <= n <= |s|
      invariant forall i :: n <= i < |s| ==> s[i].executedAt > cut
    {
      n := n - 1;
    }
  }

  /** Python's `sorted` as insertion of one dictionary value after another. */
  method SortForReplay(m: map<nat, Fill>) returns (s: seq<Fill>)
    requires Keyed(m)
    ensures s == Ordered(m)
  {
    s := [];
    var todo := m;
    while todo != map[]
      invariant todo.Keys <= m.Keys && forall k :: k in todo ==> todo[k] == m[k]
      invariant InOrder(s)
      invariant forall f :: f in s <==> f.key in m && f.key !in todo && m[f.key] == f
      decreases |todo|
    {
      var k :| k in todo;
      forall i | 0 <= i < |s|
        ensures s[i].key != k
      {
        assert s[i] in s;
      }
      InsertKeepsOrder(s, todo[k]);
      s := Insert(s, todo[k]);
      assert (todo - {k}).Keys == todo.Keys - {k};
      todo := todo - {k};
    }
    OrderIsUnique(s, Ordered(m));
  }
}
