/** Sorting rows by a key that no two of them share. */
module Ordering {
  datatype Row<T> = Row(id: nat, value: T)

  ghost predicate Ascending<T>(rows: seq<Row<T>>) {
    forall i, j | 0 <= i < j < |rows| :: rows[i].id < rows[j].id
  }

  ghost predicate DistinctIds<T>(rows: seq<Row<T>>) {
    forall i, j | 0 <= i < j < |rows| :: rows[i].id != rows[j].id
  }

  /** `row` put in its place among ascending rows. */
  function Placed<T>(rows: seq<Row<T>>, row: Row<T>): seq<Row<T>> {
    if rows == [] || row.id <= rows[0].id then [row] + rows else [rows[0]] + Placed(rows[1..], row)
  }

  function Sorted<T>(rows: seq<Row<T>>): seq<Row<T>> {
    if rows == [] then [] else Placed(Sorted(rows[1..]), rows[0])
  }

  lemma {:induction false} PlacedKeeps<T(!new)>(rows: seq<Row<T>>, row: Row<T>)
    ensures forall x :: x in Placed(rows, row) <==> x in rows || x == row
  {
    if rows != [] && row.id > rows[0].id {
      PlacedKeeps(rows[1..], row);
      assert rows == [rows[0]] + rows[1..];
    }
  }

  lemma {:induction false} PlacedAscends<T(!new)>(rows: seq<Row<T>>, row: Row<T>)
    requires Ascending(rows) && forall x | x in rows :: x.id != row.id
    ensures Ascending(Placed(rows, row))
  {
    if rows == [] || row.id <= rows[0].id {
      forall i | 0 <= i < |rows| ensures row.id < rows[i].id {
        assert rows[i] in rows;
        assert rows[0].id <= rows[i].id;
      }
    } else {
      var rest := rows[1..];
      PlacedAscends(rest, row);
      PlacedKeeps(rest, row);
      var placed := Placed(rest, row);
      forall j | 0 <= j < |placed| ensures rows[0].id < placed[j].id {
        assert placed[j] in placed;
      }
    }
  }

  lemma {:induction false} SortedKeeps<T(!new)>(rows: seq<Row<T>>)
    ensures forall x :: x in Sorted(rows) <==> x in rows
  {
    if rows != [] {
      SortedKeeps(rows[1..]);
      PlacedKeeps(Sorted(rows[1..]), rows[0]);
      assert rows == [rows[0]] + rows[1..];
    }
  }

  lemma {:induction false} SortedAscends<T(!new)>(rows: seq<Row<T>>)
    requires DistinctIds(rows)
    ensures Ascending(Sorted(rows))
  {
    if rows != [] {
      var rest := rows[1..];
      SortedAscends(rest);
      SortedKeeps(rest);
      forall x | x in Sorted(rest) ensures x.id != rows[0].id {
        var i :| 0 <= i < |rest| && rest[i] == x;
        assert rest[i] == rows[i + 1];
      }
      PlacedAscends(Sorted(rest), rows[0]);
    }
  }

  /** Ascending rows with the same members are the same rows. */
  lemma {:induction false} AscendingIsUnique<T(!new)>(a: seq<Row<T>>, b: seq<Row<T>>)
    requires Ascending(a) && Ascending(b) && forall x :: x in a <==> x in b
    ensures a == b
  {
    EmptyTogether(a, b);
    if a != [] {
      SmallestFirst(a, b);
      TailsAgree(a, b);
      AscendingIsUnique(a[1..], b[1..]);
    }
  }

  lemma SmallestFirst<T(!new)>(a: seq<Row<T>>, b: seq<Row<T>>)
    requires Ascending(a) && Ascending(b) && a != [] && b != [] && forall x :: x in a <==> x in b
    ensures a[0] == b[0]
  {
    assert a[0] in b && b[0] in a;
    var i :| 0 <= i < |b| && b[i] == a[0];
    var j :| 0 <= j < |a| && a[j] == b[0];
  }

  lemma TailsAgree<T(!new)>(a: seq<Row<T>>, b: seq<Row<T>>)
    requires Ascending(a) && Ascending(b) && a != [] && b != [] && a[0] == b[0]
    requires forall x :: x in a <==> x in b
    ensures forall x :: x in a[1..] <==> x in b[1..]
  {
    assert a == [a[0]] + a[1..] && b == [b[0]] + b[1..];
    TailMembers(a);
    TailMembers(b);
  }

  lemma TailMembers<T(!new)>(a: seq<Row<T>>)
    requires Ascending(a) && a != []
    ensures forall x :: x in a[1..] <==> x in a && x != a[0]
  {
    forall x ensures x in a[1..] <==> x in a && x != a[0] {
      if x in a[1..] {
        var i :| 0 <= i < |a[1..]| && a[1..][i] == x;
        assert a[i + 1] == x && a[0].id < a[i + 1].id;
      }
      if x in a && x != a[0] {
        var i :| 0 <= i < |a| && a[i] == x;
        assert a[1..][i - 1] == x;
      }
    }
  }

  lemma EmptyTogether<T(!new)>(a: seq<T>, b: seq<T>)
    requires forall x :: x in a <==> x in b
    ensures a == [] <==> b == []
  {
    if a != [] {
      assert a[0] in b;
    }
    if b != [] {
      assert b[0] in a;
    }
  }

  /** Whatever order rows with distinct keys come in, sorting gives the same. */
  lemma SortedIsUnique<T(!new)>(a: seq<Row<T>>, b: seq<Row<T>>)
    requires DistinctIds(a) && DistinctIds(b) && forall x :: x in a <==> x in b
    ensures Sorted(a) == Sorted(b)
  {
    SortedKeeps(a);
    SortedKeeps(b);
    SortedAscends(a);
    SortedAscends(b);
    AscendingIsUnique(Sorted(a), Sorted(b));
  }
}
