/** Cardinalities of initial segments of the naturals and of finite tables:
    the combinatorics behind the generator's period and uniformity results.
    A table is the sequence of a function's values on an initial segment. */
module Counting {
  import opened Sequences

  /** The naturals below `n`. */
  ghost function Below(n: nat): (s: set<nat>)
    ensures forall i: nat :: i in s <==> i < n
  {
    if n == 0 then {} else Below(n - 1) + {n - 1}
  }

  lemma OneMore(s: set<nat>, x: nat)
    requires x !in s
    ensures |s + {x}| == |s| + 1
  {
  }

  lemma {:induction false} BelowSize(n: nat)
    ensures |Below(n)| == n
  {
    if n > 0 {
      BelowSize(n - 1);
      OneMore(Below(n - 1), n - 1);
    }
  }

  ghost function Values(table: seq<nat>): (s: set<nat>)
    ensures forall y :: y in s <==> y in table
  {
    set y | y in table
  }

  /** The positions at which `table` holds a value from `vs`. */
  ghost function Positions(table: seq<nat>, vs: set<nat>): (s: set<nat>)
    ensures forall i: nat :: i in s <==> i < |table| && table[i] in vs
  {
    set i: nat | i < |table| && table[i] in vs
  }

  lemma {:induction false} ValuesSize(table: seq<nat>)
    requires Distinct(table)
    ensures |Values(table)| == |table|
  {
    if table == [] {
      assert Values(table) == {};
    } else {
      var n := |table| - 1;
      var rest, last := table[..n], table[n];
      ValuesSize(rest);
      assert last !in Values(rest);
      assert table == rest + [last];
      assert Values(table) == Values(rest) + {last};
    }
  }

  lemma {:induction false} SubsetSize(s: set<nat>, t: set<nat>)
    requires s <= t
    ensures |s| <= |t|
  {
    if s != {} {
      var x :| x in s;
      SubsetSize(s - {x}, t - {x});
    }
  }

  lemma SubsetOfEqualSize(s: set<nat>, t: set<nat>)
    requires s <= t && |s| == |t|
    ensures s == t
  {
    if x: nat :| x in t && x !in s {
      assert s <= t - {x};
      SubsetSize(s, t - {x});
    }
  }

  /** Distinct values from a finite segment, as many as the segment has,
      leave nothing out. */
  lemma Onto(table: seq<nat>, y: nat)
    requires Distinct(table)
    requires forall i | 0 <= i < |table| :: table[i] < |table|
    requires y < |table|
    ensures y in table
  {
    ValuesSize(table);
    BelowSize(|table|);
    assert Values(table) <= Below(|table|);
    SubsetOfEqualSize(Values(table), Below(|table|));
    assert y in Below(|table|);
  }

  /** Two sets matched element by element have the same size. */
  lemma {:induction false} MatchedSizes(s: set<nat>, t: set<nat>, h: map<nat, nat>)
    requires h.Keys == s
    requires forall i, j | i in s && j in s && i != j :: h[i] != h[j]
    requires forall y :: y in t <==> exists i :: i in s && h[i] == y
    ensures |s| == |t|
  {
    if s == {} {
      assert t == {};
    } else {
      var x :| x in s;
      var h' := h - {x};
      assert h[x] in t;
      forall y | y in t - {h[x]} ensures exists i :: i in s - {x} && h'[i] == y {
        var i :| i in s && h[i] == y;
        assert i in s - {x} && h'[i] == y;
      }
      MatchedSizes(s - {x}, t - {h[x]}, h');
    }
  }

  /** Looking a table up through a rearrangement of its positions does not
      change how often values occur. */
  lemma Reindex(table: seq<nat>, order: seq<nat>, looked: seq<nat>, vs: set<nat>)
    requires |order| == |table| == |looked|
    requires Distinct(order)
    requires forall i | 0 <= i < |order| :: order[i] < |table| && looked[i] == table[order[i]]
    ensures |Positions(looked, vs)| == |Positions(table, vs)|
  {
    var h := map i | i in Positions(looked, vs) :: order[i];
    forall y | y in Positions(table, vs) ensures exists i :: i in h && h[i] == y {
      Onto(order, y);
      var i :| 0 <= i < |order| && order[i] == y;
      assert i in h;
    }
    MatchedSizes(Positions(looked, vs), Positions(table, vs), h);
  }

  lemma SplitPositions(table: seq<nat>, vs: set<nat>, v: nat)
    requires v in vs
    ensures |Positions(table, vs)| == |Positions(table, vs - {v})| + |Positions(table, {v})|
  {
    var rest, one := Positions(table, vs - {v}), Positions(table, {v});
    assert rest !! one;
    assert Positions(table, vs) == rest + one;
  }

  lemma OneMoreTimes(count: nat, size: nat)
    ensures (count + 1) * size == count * size + size
  {
  }

  /** When every value in `vs` occurs equally often, `vs` as a whole occurs
      that many times as often. */
  lemma {:induction false} EqualShares(table: seq<nat>, vs: set<nat>, size: nat)
    requires forall v | v in vs :: |Positions(table, {v})| == size
    ensures |Positions(table, vs)| == |vs| * size
  {
    if vs == {} {
      assert Positions(table, vs) == {};
    } else {
      var v :| v in vs;
      EqualShares(table, vs - {v}, size);
      SplitPositions(table, vs, v);
      assert |vs| == |vs - {v}| + 1;
      OneMoreTimes(|vs - {v}|, size);
    }
  }
}
