/**
 * Queries over a table whose rows carry autoincrement ids 1, 2, … : `ORDER BY created_at
 * DESC` becomes "highest id first", because each row's created_at is set when it is
 * inserted and ids are handed out in insertion order.
 */
module Rows {

  /** The ids below `next` of the rows that `keep` accepts, highest first. */
  function Select<T>(table: map<int, T>, next: int, keep: T -> bool): (ids: seq<int>)
    decreases next
  {
    if next <= 1 then []
    else (if next - 1 in table && keep(table[next - 1]) then [next - 1] else []) + Select(table, next - 1, keep)
  }

  /** `LIMIT n` */
  function Take<T>(s: seq<T>, n: nat): (r: seq<T>)
    ensures |r| == if n <= |s| then n else |s|
    ensures r == s[..|r|]
  {
    if n <= |s| then s[..n] else s
  }

  /** The rows with the given ids, in that order. */
  function RowsOf<T>(table: map<int, T>, ids: seq<int>): (r: seq<T>)
    requires forall i :: 0 <= i < |ids| ==> ids[i] in table
    ensures |r| == |ids| && forall i :: 0 <= i < |ids| ==> r[i] == table[ids[i]]
  {
    if ids == [] then [] else [table[ids[0]]] + RowsOf(table, ids[1..])
  }

  ghost predicate StrictlyDescending(ids: seq<int>)
  {
    forall i, j :: 0 <= i < j < |ids| ==> ids[i] > ids[j]
  }

  /**
   * `Select` lists exactly the accepted rows with ids in 1 .. next-1, each once, newest first.
   */
  lemma {:induction false} SelectSpec<T>(table: map<int, T>, next: int, keep: T -> bool)
    ensures var ids := Select(table, next, keep);
      && (forall i :: 0 <= i < |ids| ==> ids[i] in table && keep(table[ids[i]]) && 1 <= ids[i] < next)
      && (forall id :: id in table && 1 <= id < next && keep(table[id]) ==> id in ids)
      && StrictlyDescending(ids)
    decreases next
  {
    if next > 1 {
      SelectSpec(table, next - 1, keep);
      var rest := Select(table, next - 1, keep);
      var ids := Select(table, next, keep);
      if next - 1 in table && keep(table[next - 1]) {
        assert ids == [next - 1] + rest;
        forall i, j | 0 <= i < j < |ids| ensures ids[i] > ids[j] {
          if i > 0 {
            assert ids[i] == rest[i - 1] && ids[j] == rest[j - 1];
          } else {
            assert ids[j] == rest[j - 1];
          }
        }
      } else {
        assert ids == rest;
      }
    }
  }

  /**
   * The first `limit` accepted rows, newest first: every listed row is accepted, and an
   * accepted row left out is older than every listed one and the limit was reached.
   */
  lemma NewestLimited<T>(table: map<int, T>, next: int, keep: T -> bool, limit: nat)
    ensures var ids := Take(Select(table, next, keep), limit);
      && |ids| <= limit
      && (forall i :: 0 <= i < |ids| ==> ids[i] in table && keep(table[ids[i]]) && 1 <= ids[i] < next)
      && StrictlyDescending(ids)
      && (forall id :: id in table && 1 <= id < next && keep(table[id]) && id !in ids ==>
            |ids| == limit && forall i :: 0 <= i < |ids| ==> ids[i] > id)
  {
    SelectSpec(table, next, keep);
    var all := Select(table, next, keep);
    var ids := Take(all, limit);
    forall id | id in table && 1 <= id < next && keep(table[id]) && id !in ids
      ensures |ids| == limit && forall i :: 0 <= i < |ids| ==> ids[i] > id
    {
      var k :| 0 <= k < |all| && all[k] == id;
      if k < |ids| {
        assert false;
      }
      forall i | 0 <= i < |ids| ensures ids[i] > id {
        assert ids[i] == all[i];
      }
    }
  }

  /**
   * The rows behind `NewestLimited`, for rows that carry their own id (`idOf`): accepted
   * stored rows, highest id first, at most `limit`, and an accepted row left out is older
   * than every listed one and the limit was reached.
   */
  function NewestRows<T>(table: map<int, T>, next: int, keep: T -> bool, limit: nat, idOf: T -> int): (r: seq<T>)
    requires forall id :: id in table ==> idOf(table[id]) == id
    ensures |r| <= limit
    ensures forall i :: 0 <= i < |r| ==> idOf(r[i]) in table && table[idOf(r[i])] == r[i] && keep(r[i])
    ensures forall i, j :: 0 <= i < j < |r| ==> idOf(r[i]) > idOf(r[j])
    ensures forall id :: id in table && 1 <= id < next && keep(table[id]) && (forall i :: 0 <= i < |r| ==> idOf(r[i]) != id) ==>
      |r| == limit && forall i :: 0 <= i < |r| ==> idOf(r[i]) > id
  {
    NewestLimited(table, next, keep, limit);
    var ids := Take(Select(table, next, keep), limit);
    var r := RowsOf(table, ids);
    assert forall i :: 0 <= i < |r| ==> idOf(r[i]) == ids[i];
    r
  }

  /** Every accepted row with an id below `next`, highest id first (no limit). */
  function AcceptedRows<T>(table: map<int, T>, next: int, keep: T -> bool, idOf: T -> int): (r: seq<T>)
    requires forall id :: id in table ==> idOf(table[id]) == id
    ensures forall i :: 0 <= i < |r| ==> idOf(r[i]) in table && table[idOf(r[i])] == r[i] && keep(r[i])
    ensures forall i, j :: 0 <= i < j < |r| ==> idOf(r[i]) > idOf(r[j])
    ensures forall id :: id in table && 1 <= id < next && keep(table[id]) ==> table[id] in r
  {
    SelectSpec(table, next, keep);
    var ids := Select(table, next, keep);
    RowsCover(table, ids);
    var r := RowsOf(table, ids);
    assert forall i :: 0 <= i < |r| ==> idOf(r[i]) == ids[i];
    r
  }

  /** Every listed id's row is among the rows returned. */
  lemma RowsCover<T>(table: map<int, T>, ids: seq<int>)
    requires forall i :: 0 <= i < |ids| ==> ids[i] in table
    ensures forall id :: id in ids ==> table[id] in RowsOf(table, ids)
  {
    forall id | id in ids ensures table[id] in RowsOf(table, ids) {
      var k :| 0 <= k < |ids| && ids[k] == id;
      assert RowsOf(table, ids)[k] == table[id];
    }
  }
}
