/**
 * The relational store seen from the handlers: every table is a map from
 * primary key to record. SQLite gives a new row the key one above the largest
 * key in the table (1 in an empty table). SQL leaves the order of a query
 * without ORDER BY unspecified; this model takes it to be ascending key order,
 * the order of a full scan of a rowid table that has no index on the filtered
 * column.
 */
module Store {

  /** A row as a query returns it: its primary key and the record it names. */
  datatype Row<R> = Row(id: nat, record: R)

  /** Keys strictly increase along the sequence. */
  predicate Increasing<R>(rows: seq<Row<R>>) {
    forall i, j :: 0 <= i < j < |rows| ==> rows[i].id < rows[j].id
  }

  /** No row is listed twice. */
  ghost predicate AtMostOnce<R(!new)>(rows: seq<Row<R>>) {
    forall row :: multiset(rows)[row] <= 1
  }

  /** Adding `x` to a set whose least element is `m` gives a set whose least element is the smaller of the two. */
  lemma LeastOfInsert(x: nat, rest: set<nat>, m: nat)
    requires m in rest && forall k :: k in rest ==> m <= k
    ensures var least := if x < m then x else m;
      least in rest + {x} && forall k :: k in rest + {x} ==> least <= k
  {
  }

  lemma {:induction false} MinExists(s: set<nat>)
    requires s != {}
    ensures exists m :: m in s && forall k :: k in s ==> m <= k
  {
    var x :| x in s;
    var rest := s - {x};
    assert s == rest + {x};
    if rest == {} {
      assert s == {x};
      assert forall k :: k in s ==> x <= k;
    } else {
      MinExists(rest);
      var m :| m in rest && forall k :: k in rest ==> m <= k;
      LeastOfInsert(x, rest, m);
    }
  }

  /** The smallest key of a non-empty key set. */
  function Min(s: set<nat>): (m: nat)
    requires s != {}
    ensures m in s && forall k :: k in s ==> m <= k
  {
    MinExists(s);
    var m :| m in s && forall k :: k in s ==> m <= k;
    m
  }

  /** The keys of a table in the order a full scan visits them. */
  function IdsAscending(s: set<nat>): (r: seq<nat>)
    ensures |r| == |s|
    ensures forall k :: k in r <==> k in s
    ensures forall i, j :: 0 <= i < j < |r| ==> r[i] < r[j]
    decreases s
  {
    if s == {} then []
    else
      var m := Min(s);
      [m] + IdsAscending(s - {m})
  }

  /** The key SQLite assigns to the next row inserted into a table with keys `s`. */
  function NextId(s: set<nat>): (id: nat)
    ensures id !in s
    ensures forall k :: k in s ==> k < id
    ensures if s == {} then id == 1 else id - 1 in s
  {
    var ids := IdsAscending(s);
    if ids == [] then 1
    else
      assert forall k :: k in s ==> k <= ids[|ids| - 1] by {
        forall k | k in s ensures k <= ids[|ids| - 1] {
          var i :| 0 <= i < |ids| && ids[i] == k;
        }
      }
      ids[|ids| - 1] + 1
  }

  /** The row of each key of `ids`, in the order of `ids`. */
  function RowsAt<R>(ids: seq<nat>, m: map<nat, R>): (r: seq<Row<R>>)
    requires forall i :: 0 <= i < |ids| ==> ids[i] in m
    ensures |r| == |ids| && forall i :: 0 <= i < |r| ==> r[i] == Row(ids[i], m[ids[i]])
  {
    if ids == [] then [] else [Row(ids[0], m[ids[0]])] + RowsAt(ids[1..], m)
  }

  /** Listing the row of every key of a table lists exactly the table's rows. */
  lemma RowsAtListsTable<R(!new)>(ids: seq<nat>, m: map<nat, R>)
    requires forall k :: k in ids <==> k in m
    ensures forall row :: row in RowsAt(ids, m) <==> row.id in m && m[row.id] == row.record
  {
    var r := RowsAt(ids, m);
    forall row ensures row in r <==> row.id in m && m[row.id] == row.record {
      if row.id in m && m[row.id] == row.record {
        var i :| 0 <= i < |ids| && ids[i] == row.id;
        assert r[i] == row;
      }
    }
  }

  /** All rows of a table, in the order a full scan visits them (ascending key, by assumption). */
  function Rows<R(!new)>(m: map<nat, R>): (r: seq<Row<R>>)
    ensures Increasing(r)
    ensures forall row :: row in r <==> row.id in m && m[row.id] == row.record
  {
    var ids := IdsAscending(m.Keys);
    RowsAtListsTable(ids, m);
    RowsAt(ids, m)
  }

  /** The rows of `rows` whose owner is `uid`, in their original order. */
  function Owned<R(!new)>(rows: seq<Row<R>>, owner: R -> nat, uid: nat): (r: seq<Row<R>>)
    ensures forall row :: row in r <==> row in rows && owner(row.record) == uid
    ensures Increasing(rows) ==> Increasing(r)
  {
    if rows == [] then []
    else
      var rest := Owned(rows[1..], owner, uid);
      assert forall row :: row in rows <==> row == rows[0] || row in rows[1..];
      if owner(rows[0].record) == uid then [rows[0]] + rest else rest
  }

  lemma {:induction false} IncreasingAtMostOnce<R(!new)>(rows: seq<Row<R>>)
    requires Increasing(rows)
    ensures AtMostOnce(rows)
  {
    if rows != [] {
      IncreasingAtMostOnce(rows[1..]);
      assert rows == [rows[0]] + rows[1..];
      assert rows[0] !in rows[1..];
      forall row ensures multiset(rows)[row] <= 1 {
        assert multiset(rows) == multiset{rows[0]} + multiset(rows[1..]);
      }
    }
  }

  /** What `SELECT * FROM table WHERE user_id = uid` returns: exactly the rows the user owns, each once, in key order. */
  function OwnedRows<R(==, !new)>(m: map<nat, R>, owner: R -> nat, uid: nat): (r: seq<Row<R>>)
    ensures forall row :: row in r <==> row.id in m && m[row.id] == row.record && owner(row.record) == uid
    ensures Increasing(r)
    ensures AtMostOnce(r)
    ensures (forall k :: k in m ==> owner(m[k]) != uid) ==> r == []
  {
    var r := Owned(Rows(m), owner, uid);
    IncreasingAtMostOnce(r);
    assert r != [] ==> r[0] in r;
    r
  }

  /** Two key-ordered lists holding the same rows are the same list. */
  lemma {:induction false} IncreasingSameRows<R>(a: seq<Row<R>>, b: seq<Row<R>>)
    requires Increasing(a) && Increasing(b)
    requires forall row :: row in a <==> row in b
    ensures a == b
  {
    assert a == [] <==> b == [] by {
      if a != [] { assert a[0] in a; }
      if b != [] { assert b[0] in b; }
    }
    if a != [] {
      assert a[0] in a;
      var j :| 0 <= j < |b| && b[j] == a[0];
      assert b[0] in b;
      var k :| 0 <= k < |a| && a[k] == b[0];
      assert a[0].id <= a[k].id;
      assert b[0].id <= b[j].id;
      assert k == 0;
      forall row ensures row in a[1..] <==> row in b[1..] {
        if row in a[1..] {
          var i :| 0 <= i < |a[1..]| && a[1..][i] == row;
          assert a[i + 1] == row;
        }
        if row in b[1..] {
          var i :| 0 <= i < |b[1..]| && b[1..][i] == row;
          assert b[i + 1] == row;
        }
        assert row in a <==> row == a[0] || row in a[1..];
        assert row in b <==> row == b[0] || row in b[1..];
      }
      IncreasingSameRows(a[1..], b[1..]);
      assert a == [a[0]] + a[1..] && b == [b[0]] + b[1..];
    }
  }

  /** A user's query result depends only on the rows that user owns. */
  lemma OwnedRowsLocal<R(!new)>(m: map<nat, R>, m': map<nat, R>, owner: R -> nat, uid: nat)
    requires forall k :: k in m && owner(m[k]) == uid ==> k in m' && m'[k] == m[k]
    requires forall k :: k in m' && owner(m'[k]) == uid ==> k in m && m[k] == m'[k]
    ensures OwnedRows(m, owner, uid) == OwnedRows(m', owner, uid)
  {
    IncreasingSameRows(OwnedRows(m, owner, uid), OwnedRows(m', owner, uid));
  }

  lemma {:induction false} CountCopies<R(!new)>(rows: seq<Row<R>>, x: Row<R>)
    requires forall i :: 0 <= i < |rows| ==> rows[i] == x
    ensures multiset(rows)[x] == |rows|
  {
    if rows != [] {
      CountCopies(rows[1..], x);
      assert rows == [x] + rows[1..];
    }
  }

  /** A list in which every row it holds is `x`, and no row twice, is `[x]`. */
  lemma SingleRow<R(!new)>(rows: seq<Row<R>>, x: Row<R>)
    requires AtMostOnce(rows)
    requires forall row :: row in rows <==> row == x
    ensures rows == [x]
  {
    assert x in rows;
    forall i | 0 <= i < |rows| ensures rows[i] == x {
      assert rows[i] in rows;
    }
    CountCopies(rows, x);
  }
}
