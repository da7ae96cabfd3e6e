/** Database tables addressed by a natural key, as the hosted store's
    `upsert(row, { onConflict: key })` treats them: a write either inserts the
    row for its key or overwrites the one already there. */
module Tables {

  /** One table, at most one row per key. `refused` holds the keys whose writes
      the database rejects during a run (a constraint violation or a failed
      request); the callers in the source only log such errors. */
  class Table<K(==), V> {
    var rows: map<K, V>
    var refused: set<K>

    constructor (rows: map<K, V>, refused: set<K>)
      ensures this.rows == rows && this.refused == refused
    {
      this.rows := rows;
      this.refused := refused;
    }

    /** Insert or overwrite the row for `key`; every other row is left alone. */
    method Upsert(key: K, value: V) returns (ok: bool)
      modifies this`rows
      ensures ok == (key !in refused)
      ensures rows == if ok then old(rows)[key := value] else old(rows)
    {
      ok := key !in refused;
      if ok {
        rows := rows[key := value];
      }
    }
  }

  /** A bulk `upsert(rows, { onConflict })` is one `INSERT … ON CONFLICT DO
      UPDATE` statement, which the database rejects as a whole when two of
      its entries share a conflict key. */
  predicate DistinctKeys<K(==), V>(batch: seq<(K, V)>) {
    forall i, j :: 0 <= i < j < |batch| ==> batch[i].0 != batch[j].0
  }

  /** The rows after a bulk upsert of `batch` that the database accepted,
      entry by entry. */
  function UpsertAll<K, V>(rows: map<K, V>, batch: seq<(K, V)>): map<K, V>
    decreases |batch|
  {
    if batch == [] then rows else UpsertAll(rows[batch[0].0 := batch[0].1], batch[1..])
  }

  /** The rows a batch leaves behind, whatever was there before. */
  function BatchRows<K, V>(batch: seq<(K, V)>): map<K, V> {
    UpsertAll(map[], batch)
  }

  /** A bulk upsert overrides the table with the batch's rows: keys the batch
      does not mention keep their rows, the others take the batch's value. */
  lemma {:induction false} UpsertAllOverrides<K, V>(rows: map<K, V>, batch: seq<(K, V)>)
    ensures UpsertAll(rows, batch) == rows + BatchRows(batch)
    decreases |batch|
  {
    if batch != [] {
      var (k, v) := batch[0];
      UpsertAllOverrides(rows[k := v], batch[1..]);
      UpsertAllOverrides(map[k := v], batch[1..]);
      assert map[][k := v] == map[k := v];
      assert rows + map[k := v] == rows[k := v];
    }
  }

  /** No entry of `batch` other than the `i`-th has its key. */
  ghost predicate KeyOnlyAt<K, V>(batch: seq<(K, V)>, i: nat)
    requires i < |batch|
  {
    forall j :: 0 <= j < |batch| && j != i ==> batch[j].0 != batch[i].0
  }

  /** The keys a batch leaves behind are exactly the keys it mentions, and a
      key mentioned once holds that entry's value. */
  lemma {:induction false} BatchRowsContent<K, V>(batch: seq<(K, V)>)
    ensures forall k :: k in BatchRows(batch) <==> exists i :: 0 <= i < |batch| && batch[i].0 == k
    ensures forall i :: 0 <= i < |batch| && KeyOnlyAt(batch, i) ==> BatchRows(batch)[batch[i].0] == batch[i].1
  {
    if batch != [] {
      var (k, v) := batch[0];
      BatchRowsContent(batch[1..]);
      UpsertAllOverrides(map[k := v], batch[1..]);
      assert BatchRows(batch) == map[k := v] + BatchRows(batch[1..]);
      forall k' ensures k' in BatchRows(batch) <==> exists i :: 0 <= i < |batch| && batch[i].0 == k' {
        if k' in BatchRows(batch[1..]) {
          var i :| 0 <= i < |batch[1..]| && batch[1..][i].0 == k';
          assert batch[i + 1].0 == k';
        }
        if exists i :: 0 <= i < |batch| && batch[i].0 == k' {
          var i :| 0 <= i < |batch| && batch[i].0 == k';
          if i > 0 {
            assert batch[1..][i - 1].0 == k';
          }
        }
      }
      forall i | 0 <= i < |batch| && KeyOnlyAt(batch, i)
        ensures BatchRows(batch)[batch[i].0] == batch[i].1
      {
        if i == 0 {
          assert forall j :: 0 <= j < |batch[1..]| ==> batch[1..][j].0 == batch[j + 1].0;
        } else {
          assert batch[1..][i - 1] == batch[i];
          assert forall j :: 0 <= j < |batch[1..]| && j != i - 1 ==> batch[1..][j].0 == batch[j + 1].0;
        }
      }
    }
  }

  /** Running the same bulk upsert twice leaves the table as running it once. */
  lemma UpsertAllIdempotent<K, V>(rows: map<K, V>, batch: seq<(K, V)>)
    ensures UpsertAll(UpsertAll(rows, batch), batch) == UpsertAll(rows, batch)
  {
    UpsertAllOverrides(rows, batch);
    UpsertAllOverrides(UpsertAll(rows, batch), batch);
    var b := BatchRows(batch);
    assert (rows + b) + b == rows + b;
  }
}
