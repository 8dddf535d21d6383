/** The copy as one transaction of the target: batches, statements, verification, commit or rollback. */
module CopyRun {
  import opened CopyModel
  import opened CopyProofs
  import opened CopySound
  import opened CopyTheorems
  import opened RowDigest

  /** A table missing on either side, different columns, a missing constraint, or rows in the target. */
  predicate Preflight(columns: map<string, set<string>>, constraints: bool, db: Tables, src: map<string, Source>,
                      order: seq<string>)
  {
    (forall t :: t in order ==>
       t in src && t in db && t in columns && columns[t] == ComparisonColumns(t, src[t].columns))
    && constraints && Ready(db, order)
  }

  /** The tables after the transaction, if it commits. */
  function Executed(hash: Hash, cs: Constraints, columns: map<string, set<string>>, constraints: bool, db: Tables,
                    src: map<string, Source>, order: seq<string>, expected: Manifest): Option<Tables>
  {
    if !Preflight(columns, constraints, db, src, order) then None
    else
      match Copy(cs, db, src, order, STAGED)
      case None => None
      case Some(d) => if Differs(expected, TargetManifest(hash, d, order)) then None else Some(d)
  }

  // ---------------------------------------------------------------- a failed statement fails the whole

  lemma {:induction false} InsertAllStops(cs: Constraints, db: Tables, table: string, rows: seq<Row>, k: nat)
    requires k <= |rows| && InsertAll(cs, db, table, rows[..k]).None?
    ensures InsertAll(cs, db, table, rows).None?
    decreases |rows|
  {
    hide InsertRow;
    if k < |rows| {
      var n := |rows| - 1;
      assert rows[..n][..k] == rows[..k];
      InsertAllStops(cs, db, table, rows[..n], k);
    } else {
      assert rows[..k] == rows;
    }
  }

  lemma {:induction false} CopyAllStops(cs: Constraints, db: Tables, src: map<string, Source>, order: seq<string>,
                                        staged: seq<Ref>, k: nat)
    requires k <= |order| && CopyAll(cs, db, src, order[..k], staged).None?
    ensures CopyAll(cs, db, src, order, staged).None?
    decreases |order|
  {
    hide CopyTable;
    if k < |order| {
      var n := |order| - 1;
      assert order[..n][..k] == order[..k];
      CopyAllStops(cs, db, src, order[..n], staged, k);
    } else {
      assert order[..k] == order;
    }
  }

  lemma {:induction false} RestoreColumnStops(cs: Constraints, db: Tables, r: Ref, rows: seq<Row>, k: nat)
    requires k <= |rows| && RestoreColumn(cs, db, r, rows[..k]).None?
    ensures RestoreColumn(cs, db, r, rows).None?
    decreases |rows|
  {
    hide RestoreRow;
    if k < |rows| {
      var n := |rows| - 1;
      assert rows[..n][..k] == rows[..k];
      RestoreColumnStops(cs, db, r, rows[..n], k);
    } else {
      assert rows[..k] == rows;
    }
  }

  lemma RestoreColumnNext(cs: Constraints, db: Tables, r: Ref, rows: seq<Row>, k: nat)
    requires k < |rows| && RestoreColumn(cs, db, r, rows[..k]).Some?
    ensures RestoreColumn(cs, db, r, rows[..k + 1])
            == RestoreRow(cs, RestoreColumn(cs, db, r, rows[..k]).value, r, rows[k])
  {
    assert rows[..k + 1][..k] == rows[..k];
  }

  lemma InsertAllNext(cs: Constraints, db: Tables, table: string, rows: seq<Row>, k: nat)
    requires k < |rows| && InsertAll(cs, db, table, rows[..k]).Some?
    ensures InsertAll(cs, db, table, rows[..k + 1])
            == InsertRow(cs, InsertAll(cs, db, table, rows[..k]).value, table, rows[k])
  {
    assert rows[..k + 1][..k] == rows[..k];
  }

  /** Two batches in a row are one. */
  lemma {:induction false} InsertAllJoins(cs: Constraints, db: Tables, table: string, a: seq<Row>, b: seq<Row>)
    requires InsertAll(cs, db, table, a).Some?
    ensures InsertAll(cs, db, table, a + b) == InsertAll(cs, InsertAll(cs, db, table, a).value, table, b)
  {
    hide InsertRow;
    if b == [] {
      assert a + b == a;
    } else {
      var n := |b| - 1;
      InsertAllJoins(cs, db, table, a, b[..n]);
      assert (a + b)[..|a + b| - 1] == a + b[..n];
    }
  }

  class Transfer {
    const cs: Constraints
    const columns: map<string, set<string>>
    const constraints: bool
    var committed: Tables
    var working: Tables

    constructor (cs: Constraints, columns: map<string, set<string>>, constraints: bool, db: Tables)
      ensures this.cs == cs && this.columns == columns && this.constraints == constraints
      ensures committed == db && working == db
    {
      this.cs, this.columns, this.constraints := cs, columns, constraints;
      committed, working := db, db;
    }

    method Insert(table: string, row: Row) returns (ok: bool)
      modifies this`working
      ensures ok == InsertRow(cs, old(working), table, row).Some?
      ensures if ok then Some(working) == InsertRow(cs, old(working), table, row) else working == old(working)
    {
      var next := InsertRow(cs, working, table, row);
      ok := next.Some?;
      if ok {
        working := next.value;
      }
    }

    method Update(r: Ref, id: Value, value: Value) returns (ok: bool)
      modifies this`working
      ensures ok == RestoreOne(cs, old(working), r, id, value).Some?
      ensures if ok then Some(working) == RestoreOne(cs, old(working), r, id, value) else working == old(working)
    {
      var next := RestoreOne(cs, working, r, id, value);
      ok := next.Some?;
      if ok {
        working := next.value;
      }
    }

    /** executemany: one INSERT per row of the batch. */
    method InsertBatch(table: string, batch: seq<Row>) returns (ok: bool)
      modifies this`working
      ensures ok == InsertAll(cs, old(working), table, batch).Some?
      ensures ok ==> Some(working) == InsertAll(cs, old(working), table, batch)
    {
      hide InsertRow;
      ghost var start := working;
      for k := 0 to |batch|
        invariant InsertAll(cs, start, table, batch[..k]) == Some(working)
      {
        hide InsertAll;
        InsertAllNext(cs, start, table, batch, k);
        ok := Insert(table, batch[k]);
        if !ok {
          InsertAllStops(cs, start, table, batch, k + 1);
          return;
        }
      }
      assert batch[..|batch|] == batch;
      ok := true;
    }

    /** Fetch, transform and insert the rows of one table, batch by batch. */
    method CopyOne(src: map<string, Source>, table: string, batchSize: nat) returns (ok: bool)
      requires table in src && batchSize > 0
      modifies this`working
      ensures ok == CopyTable(cs, old(working), src, table, STAGED).Some?
      ensures ok ==> Some(working) == CopyTable(cs, old(working), src, table, STAGED)
    {
      hide InsertRow, TransformRow, STAGED;
      var rows := src[table].rows;
      ghost var start, all := working, Transformed(STAGED, table, rows);
      var fetched := 0;
      while fetched < |rows|
        invariant fetched <= |rows| && InsertAll(cs, start, table, all[..fetched]) == Some(working)
      {
        var end := if fetched + batchSize <= |rows| then fetched + batchSize else |rows|;
        var batch := Transformed(STAGED, table, rows[fetched..end]);
        assert batch == all[fetched..end];
        hide InsertAll, Transformed;
        InsertAllJoins(cs, start, table, all[..fetched], batch);
        assert all[..fetched] + batch == all[..end];
        ok := InsertBatch(table, batch);
        if !ok {
          InsertAllStops(cs, start, table, all, end);
          return;
        }
        fetched := end;
      }
      assert all[..|rows|] == all;
      ok := true;
    }

    method RestoreStaged(src: map<string, Source>, order: seq<string>, r: Ref) returns (ok: bool)
      modifies this`working
      ensures ok == RestoreRef(cs, old(working), src, order, r).Some?
      ensures ok ==> Some(working) == RestoreRef(cs, old(working), src, order, r)
    {
      ok := true;
      if r.table in order && r.table in src && r.column in src[r.table].columns {
        hide RestoreOne;
        var rows := src[r.table].rows;
        ghost var start := working;
        for k := 0 to |rows|
          invariant RestoreColumn(cs, start, r, rows[..k]) == Some(working)
        {
          hide RestoreColumn;
          RestoreColumnNext(cs, start, r, rows, k);
          if At(rows[k], r.column) != Null {
            ok := Update(r, At(rows[k], "id"), At(rows[k], r.column));
            if !ok {
              RestoreColumnStops(cs, start, r, rows, k + 1);
              return;
            }
          }
        }
        assert rows[..|rows|] == rows;
        ok := true;
      }
    }

    method RestoreStagedReferences(src: map<string, Source>, order: seq<string>) returns (ok: bool)
      modifies this`working
      ensures ok == RestoreAll(cs, old(working), src, order, STAGED).Some?
      ensures ok ==> Some(working) == RestoreAll(cs, old(working), src, order, STAGED)
    {
      hide RestoreRef, STAGED;
      var n := 0;
      while n < |STAGED|
        invariant n <= |STAGED|
        invariant RestoreAll(cs, old(working), src, order, STAGED) == RestoreAll(cs, working, src, order, STAGED[n..])
      {
        ok := RestoreStaged(src, order, STAGED[n]);
        assert STAGED[n..][1..] == STAGED[n + 1..];
        if !ok {
          return;
        }
        n := n + 1;
      }
      ok := true;
    }

    method CopyTables(src: map<string, Source>, order: seq<string>, batchSize: nat) returns (ok: bool)
      requires batchSize > 0
      modifies this`working
      ensures ok == Copy(cs, old(working), src, order, STAGED).Some?
      ensures ok ==> Some(working) == Copy(cs, old(working), src, order, STAGED)
    {
      hide InsertAll, RestoreAll, STAGED, Transformed;
      for n := 0 to |order|
        invariant Ready(working, order[..n]) && working == old(working)
      {
        if order[n] !in working || working[order[n]] != [] {
          assert order[n] in order;
          return false;
        }
      }
      assert order[..|order|] == order;
      ghost var start := working;
      for n := 0 to |order|
        invariant CopyAll(cs, start, src, order[..n], STAGED) == Some(working)
      {
        assert order[..n + 1][..n] == order[..n];
        if order[n] in src {
          ok := CopyOne(src, order[n], batchSize);
          if !ok {
            CopyAllStops(cs, start, src, order, STAGED, n + 1);
            return;
          }
        }
      }
      assert order[..|order|] == order;
      ok := RestoreStagedReferences(src, order);
    }

    /** Commit exactly what the copy promises, or leave the target as it was. */
    method ExecuteCopyAndVerify(hash: Hash, src: map<string, Source>, order: seq<string>, batchSize: nat,
                                expected: Manifest)
      returns (ok: bool)
      requires batchSize > 0 && working == committed
      modifies this
      ensures ok == Executed(hash, cs, columns, constraints, old(committed), src, order, expected).Some?
      ensures ok ==> Some(committed) == Executed(hash, cs, columns, constraints, old(committed), src, order, expected)
      ensures !ok ==> committed == old(committed)
      ensures working == committed
    {
      hide Copy, Preflight, Differs, TargetManifest;
      ok := Preflight(columns, constraints, working, src, order);
      if ok {
        ok := CopyTables(src, order, batchSize);
      }
      if ok {
        ok := Same(expected, TargetManifest(hash, working, order));
      }
      if ok {
        committed := working;
      } else {
        working := committed;
      }
    }
  }

  /** The comparison that lists the tables which differ. */
  method Same(source: Manifest, target: Manifest) returns (same: bool)
    ensures same == !Differs(source, target)
  {
    var left := source.Keys;
    same := true;
    while left != {}
      invariant left <= source.Keys
      invariant same == !exists t :: t in source.Keys - left && (t !in target || target[t] != source[t])
      decreases left
    {
      var t :| t in left;
      left := left - {t};
      if t !in target || target[t] != source[t] {
        same := false;
      }
    }
  }

  // ---------------------------------------------------------------- what a commit means

  /** A committed target has the row count and digest of every table of the manifest it was checked against. */
  lemma CommittedMatches(hash: Hash, cs: Constraints, columns: map<string, set<string>>, constraints: bool, db: Tables,
                         src: map<string, Source>, order: seq<string>, expected: Manifest, t: string)
    requires Executed(hash, cs, columns, constraints, db, src, order, expected).Some? && t in expected
    ensures var d := Executed(hash, cs, columns, constraints, db, src, order, expected).value;
            t in order && expected[t] == (if t in d then Counted(|d[t]|, Aggregate(hash, d[t])) else Missing)
  {
    hide Copy, Preflight, Aggregate;
  }

  lemma VerifyPasses(hash: Hash, db: Tables, src: map<string, Source>, order: seq<string>)
    requires forall t :: t in order ==> t in src && t in db
    ensures !Differs(SourceManifest(hash, src, order), TargetManifest(hash, Expected(db, src, order), order))
  {
    hide Aggregate;
  }

  /** Checked against the manifest of the same source, the run commits exactly when the preflight passes and the source
      is copyable, and then every listed table holds exactly its materialized source rows. */
  lemma ExecuteCommitsExactly(hash: Hash, cs: Constraints, columns: map<string, set<string>>, constraints: bool,
                              db: Tables, src: map<string, Source>, order: seq<string>)
    requires SourceOk(src) && Schema(cs, db, order, STAGED) && Sound(cs, db)
    ensures var r := Executed(hash, cs, columns, constraints, db, src, order, SourceManifest(hash, src, order));
            (r.Some? <==> Preflight(columns, constraints, db, src, order)
                          && Copyable(cs, db, src, order, STAGED))
            && (r.Some? ==> r.value == Expected(db, src, order))
  {
    hide Copy, StagingOk, Copyable, Sound, OrderOk, KeysKept, ParentsThere, Expected, SourceManifest, TargetManifest,
      Differs, SourceOk, STAGED;
    StagedIsOk();
    CopySucceedsExactly(cs, db, src, order, STAGED);
    if Copy(cs, db, src, order, STAGED).Some? {
      CopyIsExact(cs, db, src, order, STAGED);
      if Preflight(columns, constraints, db, src, order) {
        VerifyPasses(hash, db, src, order);
      }
    }
  }
}
