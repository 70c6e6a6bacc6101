/**
 * A database table keyed by an auto-increment id.  The rows are kept in
 * creation order, so ids strictly increase along the sequence; the first
 * id handed out is 1.
 */
module Tables {
  import opened Outcomes

  datatype Row<T> = Row(id: nat, val: T)

  /** Ids strictly increase along the rows, so no id occurs twice. */
  predicate Keyed<T(==)>(rows: seq<Row<T>>) {
    forall i, j :: 0 <= i < j < |rows| ==> rows[i].id < rows[j].id
  }

  function Ids<T(==)>(rows: seq<Row<T>>): set<nat> {
    set r | r in rows :: r.id
  }

  /** Lookup by primary key. */
  function Find<T(==)>(rows: seq<Row<T>>, id: nat): (r: Option<Row<T>>)
    ensures r.Some? <==> id in Ids(rows)
    ensures r.Some? ==> r.value in rows && r.value.id == id
  {
    if rows == [] then None
    else if rows[0].id == id then Some(rows[0])
    else
      var rest := Find(rows[1..], id);
      assert Ids(rows) == {rows[0].id} + Ids(rows[1..]);
      rest
  }

  /** In a keyed table, looking up a row's key finds that row. */
  lemma {:induction false} FindKeyed<T>(rows: seq<Row<T>>, k: nat)
    requires Keyed(rows) && k < |rows|
    ensures Find(rows, rows[k].id) == Some(rows[k])
  {
    if k > 0 {
      assert rows[1..][k - 1] == rows[k];
      assert Keyed(rows[1..]);
      FindKeyed(rows[1..], k - 1);
    }
  }

  /** The table without the row whose key is `id`. */
  function Delete<T(==)>(rows: seq<Row<T>>, id: nat): (r: seq<Row<T>>)
    ensures Ids(r) == Ids(rows) - {id}
    ensures forall x | x in r :: x in rows && x.id != id
    ensures forall x | x in rows && x.id != id :: x in r
  {
    if rows == [] then []
    else
      var rest := Delete(rows[1..], id);
      assert Ids(rows) == {rows[0].id} + Ids(rows[1..]);
      if rows[0].id == id then rest
      else
        assert Ids([rows[0]] + rest) == {rows[0].id} + Ids(rest);
        [rows[0]] + rest
  }

  /** A keyed table is its first row followed by a keyed table of larger keys. */
  lemma KeyedTail<T>(rows: seq<Row<T>>)
    requires Keyed(rows) && rows != []
    ensures Keyed(rows[1..])
    ensures forall x | x in rows[1..] :: rows[0].id < x.id
  {
    forall x | x in rows[1..] ensures rows[0].id < x.id {
      var k :| 0 <= k < |rows[1..]| && rows[1..][k] == x;
      assert rows[k + 1] == x;
    }
  }

  /** A row followed by a keyed table of larger keys is a keyed table. */
  lemma KeyedCons<T>(head: Row<T>, rest: seq<Row<T>>)
    requires Keyed(rest)
    requires forall x | x in rest :: head.id < x.id
    ensures Keyed([head] + rest)
  {
    var r := [head] + rest;
    forall i, j | 0 <= i < j < |r| ensures r[i].id < r[j].id {
      assert r[j] == rest[j - 1];
      if i > 0 {
        assert r[i] == rest[i - 1];
      }
    }
  }

  /** Deleting keeps the keys in increasing order. */
  lemma {:induction false} DeleteKeyed<T>(rows: seq<Row<T>>, id: nat)
    requires Keyed(rows)
    ensures Keyed(Delete(rows, id))
  {
    if rows != [] {
      KeyedTail(rows);
      DeleteKeyed(rows[1..], id);
      if rows[0].id != id {
        KeyedCons(rows[0], Delete(rows[1..], id));
      }
    }
  }

  /** After a delete, the deleted key is not found and every other lookup is unchanged. */
  lemma {:induction false} FindAfterDelete<T>(rows: seq<Row<T>>, id: nat, k: nat)
    ensures Find(Delete(rows, id), k) == if k == id then None else Find(rows, k)
  {
    if rows != [] {
      FindAfterDelete(rows[1..], id, k);
      if rows[0].id != id {
        assert Delete(rows, id)[1..] == Delete(rows[1..], id);
      }
    }
  }

  /** The table with the row whose key is `id` holding `v` instead. */
  function Update<T(==)>(rows: seq<Row<T>>, id: nat, v: T): (r: seq<Row<T>>)
    ensures |r| == |rows|
    ensures forall i | 0 <= i < |rows| :: r[i].id == rows[i].id
    ensures forall i | 0 <= i < |rows| && rows[i].id != id :: r[i] == rows[i]
    ensures forall i | 0 <= i < |rows| && rows[i].id == id :: r[i].val == v
  {
    if rows == [] then []
    else
      var head := if rows[0].id == id then Row(id, v) else rows[0];
      [head] + Update(rows[1..], id, v)
  }

  /** An update keeps the key set and the ordering of keys. */
  lemma UpdateKeys<T>(rows: seq<Row<T>>, id: nat, v: T)
    ensures Ids(Update(rows, id, v)) == Ids(rows)
    ensures Keyed(rows) ==> Keyed(Update(rows, id, v))
  {
    var r := Update(rows, id, v);
    forall k | k in Ids(rows) ensures k in Ids(r) {
      var i :| 0 <= i < |rows| && rows[i].id == k;
      assert r[i] in r;
    }
    forall k | k in Ids(r) ensures k in Ids(rows) {
      var i :| 0 <= i < |r| && r[i].id == k;
      assert rows[i] in rows;
    }
  }

  /** After an update, the key holds `v` when it was present; every other lookup is unchanged. */
  lemma {:induction false} FindAfterUpdate<T>(rows: seq<Row<T>>, id: nat, v: T, k: nat)
    ensures Find(Update(rows, id, v), k) == if k == id && id in Ids(rows) then Some(Row(id, v)) else Find(rows, k)
  {
    if rows != [] {
      FindAfterUpdate(rows[1..], id, v, k);
      var r := Update(rows, id, v);
      assert r[1..] == Update(rows[1..], id, v);
      assert Ids(rows) == {rows[0].id} + Ids(rows[1..]);
    }
  }

  /** Number of rows: in a keyed table, the number of distinct ids. */
  function Count<T(==)>(rows: seq<Row<T>>): (n: nat)
    requires Keyed(rows)
    ensures n == |Ids(rows)|
  {
    KeyedIdsCount(rows);
    |rows|
  }

  lemma {:induction false} KeyedIdsCount<T>(rows: seq<Row<T>>)
    requires Keyed(rows)
    ensures |Ids(rows)| == |rows|
  {
    if rows != [] {
      KeyedTail(rows);
      KeyedIdsCount(rows[1..]);
      assert Ids(rows) == {rows[0].id} + Ids(rows[1..]);
      assert rows[0].id !in Ids(rows[1..]);
    }
  }

  /**
   * The table of one entity: its rows and the next id the auto-increment
   * key will hand out.
   */
  class Table<T(==)> {
    var rows: seq<Row<T>>
    var nextId: nat

    ghost predicate Valid()
      reads this
    {
      Keyed(rows) && 0 < nextId && forall k | k in Ids(rows) :: k < nextId
    }

    constructor ()
      ensures Valid() && rows == [] && nextId == 1
    {
      rows := [];
      nextId := 1;
    }

    /** Adds a row holding `v` under a fresh id. */
    method Insert(v: T) returns (row: Row<T>)
      requires Valid()
      modifies this
      ensures Valid()
      ensures row == Row(old(nextId), v) && row.id !in Ids(old(rows))
      ensures rows == old(rows) + [row] && nextId == old(nextId) + 1
    {
      row := Row(nextId, v);
      forall i | 0 <= i < |rows| ensures rows[i].id < nextId {
        assert rows[i] in rows;
        assert rows[i].id in Ids(rows);
      }
      assert Ids(rows + [row]) == Ids(rows) + {row.id};
      rows := rows + [row];
      nextId := nextId + 1;
    }

    /** Deletes the row with key `id`; reports NotFound when there is none. */
    method Remove(id: nat) returns (r: Result<Row<T>>)
      requires Valid()
      modifies this
      ensures Valid() && nextId == old(nextId)
      ensures Find(old(rows), id).None? ==> r == Err(NotFound) && rows == old(rows)
      ensures Find(old(rows), id).Some? ==> r == Ok(Find(old(rows), id).value) && rows == Delete(old(rows), id)
      ensures Find(rows, id).None?
      ensures forall k | k != id :: Find(rows, k) == Find(old(rows), k)
    {
      match Find(rows, id)
      case None =>
        r := Err(NotFound);
      case Some(row) =>
        r := Ok(row);
        DeleteKeyed(rows, id);
        rows := Delete(rows, id);
        forall k ensures Find(rows, k) == if k == id then None else Find(old(rows), k) {
          FindAfterDelete(old(rows), id, k);
        }
    }

    /** Replaces the value held under key `id`; reports NotFound when there is none. */
    method Set(id: nat, v: T) returns (r: Result<Row<T>>)
      requires Valid()
      modifies this
      ensures Valid() && nextId == old(nextId)
      ensures id !in Ids(old(rows)) ==> r == Err(NotFound) && rows == old(rows)
      ensures id in Ids(old(rows)) ==> r == Ok(Row(id, v)) && rows == Update(old(rows), id, v)
      ensures Find(rows, id) == if id in Ids(old(rows)) then Some(Row(id, v)) else None
      ensures forall k | k != id :: Find(rows, k) == Find(old(rows), k)
    {
      forall k ensures Find(Update(rows, id, v), k) == if k == id && id in Ids(rows) then Some(Row(id, v)) else Find(rows, k) {
        FindAfterUpdate(rows, id, v, k);
      }
      UpdateKeys(rows, id, v);
      if id in Ids(rows) {
        rows := Update(rows, id, v);
        r := Ok(Row(id, v));
      } else {
        r := Err(NotFound);
      }
    }
  }
}
