/** Sequences: what they hold, where, and in what order. */
module Sequences {
  ghost predicate Distinct<T>(s: seq<T>) {
    forall i, j | 0 <= i < j < |s| :: s[i] != s[j]
  }

  /** Where `x` first occurs, or the length of `s`. */
  function IndexIn<T(==)>(s: seq<T>, x: T): (i: nat)
    ensures i <= |s| && (i < |s| ==> s[i] == x)
    ensures forall j | 0 <= j < i :: s[j] != x
  {
    if s == [] || s[0] == x then 0 else 1 + IndexIn(s[1..], x)
  }

  /** Where the first of some things stands among the same things. */
  lemma FindFirst<T>(a: seq<T>, b: seq<T>) returns (before: seq<T>, after: seq<T>)
    requires a != [] && multiset(a) == multiset(b)
    ensures b == before + [a[0]] + after && multiset(a[1..]) == multiset(before + after)
  {
    var x, rest := a[0], a[1..];
    assert a == [x] + rest;
    assert x in multiset(b);
    var i :| 0 <= i < |b| && b[i] == x;
    before, after := b[..i], b[i + 1..];
    assert b == before + [x] + after;
    assert multiset(before + after) == multiset(before) + multiset(after);
    OneFewer(x, multiset(rest), multiset(before) + multiset(after));
  }

  lemma OneFewer<T>(x: T, a: multiset<T>, b: multiset<T>)
    requires multiset{x} + a == multiset{x} + b
    ensures a == b
  {
    assert a == (multiset{x} + a) - multiset{x} == (multiset{x} + b) - multiset{x} == b;
  }

  lemma SameMembers<T(!new)>(a: seq<T>, b: seq<T>)
    requires multiset(a) == multiset(b)
    ensures forall x :: x in a <==> x in b
  {
    forall x ensures x in a <==> x in b {
      assert x in a <==> x in multiset(a);
      assert x in b <==> x in multiset(b);
    }
  }
}
