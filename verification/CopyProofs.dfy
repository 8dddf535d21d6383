/** The copy reproduces every materialized row, and succeeds exactly when the source references are sound. */
module CopyProofs {
  import opened CopyModel

  // ---------------------------------------------------------------- what the target must hold

  predicate DistinctRefs(staged: seq<Ref>) { forall i, j :: 0 <= i < j < |staged| ==> staged[i] != staged[j] }

  /** A staged column, and the id, keep their source value when a row is materialized, and default to NULL. */
  ghost predicate Plain(r: Ref) {
    forall row: Row :: At(Materialize(r.table, row), r.column) == At(row, r.column)
                       && At(Materialize(r.table, row), "id") == At(row, "id")
  }

  ghost predicate StagingOk(staged: seq<Ref>) {
    DistinctRefs(staged) && (forall r :: r in staged ==> r.column != "id" && Plain(r))
  }

  lemma PlainColumn(r: Ref)
    requires r.table != "request_steps" && r.column != "progress" && "id" !in Defaults(r.table)
    requires r.column in Defaults(r.table) ==> Defaults(r.table)[r.column] == Null
    ensures Plain(r)
  {
    hide Defaults, NormalizeStep;
  }

  /** The staging list of the script meets this. */
  lemma StagedIsOk()
    ensures StagingOk(STAGED)
  {
    hide Plain, Materialize, Normalize;
    forall r | r in STAGED ensures r.column != "id" && Plain(r) {
      assert r == STAGED[0] || r == STAGED[1] || r == STAGED[2] || r == STAGED[3] || r == STAGED[4];
      PlainColumn(r);
    }
  }

  /** A materialized row has exactly the columns it is inserted and compared with. */
  lemma MaterializedColumns(table: string, row: Row)
    ensures Materialize(table, row).Keys == ComparisonColumns(table, row.Keys)
  {
    StepColumns(row);
    DefaultNames();
    hide NormalizeStep, Defaults;
  }

  lemma StepColumns(row: Row)
    ensures NormalizeStep(row).Keys == row.Keys + {"is_optional"}
  {
    if SaysOptional(At(row, "blocked_reason")) {
      assert "blocked_reason" in row;
    }
    hide SaysOptional, Lower;
  }

  lemma DefaultNames()
    ensures "is_optional" in Defaults("request_steps") && "progress" in Defaults("request_work_items")
  {
  }

  /** Materializing a canonical row changes nothing, so an already migrated file copies as it is. */
  lemma MaterializeTwice(table: string, row: Row)
    ensures Materialize(table, Materialize(table, row)) == Materialize(table, row)
  {
    var m := Materialize(table, row);
    StepMeaning(row);
    DefaultNames();
    if table == "request_steps" {
      hide Defaults;
      NormalizedStep(m);
    } else {
      hide Defaults, NormalizeStep;
    }
  }

  lemma NormalizedStep(row: Row)
    requires !SaysOptional(At(row, "blocked_reason")) && At(row, "is_optional") != Null
    ensures NormalizeStep(row) == row
  {
  }

  /** Of an old request step only the blocked reason "true" or "false" is reinterpreted: it becomes the optional flag
      unless one is there, and no flag means not optional. */
  lemma StepMeaning(row: Row)
    ensures var m, reason := Materialize("request_steps", row), At(row, "blocked_reason");
            !SaysOptional(At(m, "blocked_reason"))
            && (!SaysOptional(reason) ==> At(m, "blocked_reason") == reason)
            && At(m, "is_optional") == (if At(row, "is_optional") != Null then At(row, "is_optional")
                                        else Flag(SaysOptional(reason) && Lower(reason.text) == "true"))
            && forall c :: c != "blocked_reason" && c != "is_optional" ==> At(m, c) == At(row, c)
  {
    OneDefault();
    hide Defaults, Lower;
  }

  lemma OneDefault()
    ensures Defaults("request_steps") == map["is_optional" := Flag(false)]
  {
  }

  function Cleared(table: string, rows: seq<Row>, columns: set<string>): seq<Row> {
    seq(|rows|, i requires 0 <= i < |rows| => NullOut(Materialize(table, rows[i]), columns))
  }

  /** The target with the listed tables filled, and the given references still NULL. */
  function Filled(db: Tables, src: map<string, Source>, order: seq<string>, refs: seq<Ref>): Tables {
    map t | t in db :: if t in order && t in src then Cleared(t, src[t].rows, StagedColumns(refs, t)) else db[t]
  }

  function MaterializedRows(table: string, rows: seq<Row>): seq<Row> {
    seq(|rows|, i requires 0 <= i < |rows| => Materialize(table, rows[i]))
  }

  /** What the copy is meant to produce: the materialized source rows of every listed table. */
  function Expected(db: Tables, src: map<string, Source>, order: seq<string>): Tables {
    map t | t in db :: if t in order && t in src then MaterializedRows(t, src[t].rows) else db[t]
  }

  lemma NothingCleared(row: Row)
    ensures NullOut(row, {}) == row
  {
  }

  lemma FilledIsExpected(db: Tables, src: map<string, Source>, order: seq<string>)
    ensures Filled(db, src, order, []) == Expected(db, src, order)
  {
    forall t | t in db && t in order && t in src ensures Filled(db, src, order, [])[t] == Expected(db, src, order)[t] {
      assert StagedColumns([], t) == {};
      forall i | 0 <= i < |src[t].rows| ensures Cleared(t, src[t].rows, {})[i] == MaterializedRows(t, src[t].rows)[i] {
        NothingCleared(Materialize(t, src[t].rows[i]));
      }
    }
  }

  // ---------------------------------------------------------------- inserting

  lemma {:induction false} InsertAllIs(cs: Constraints, db: Tables, table: string, rows: seq<Row>)
    requires table in db && InsertAll(cs, db, table, rows).Some?
    ensures InsertAll(cs, db, table, rows).value == db[table := db[table] + rows]
  {
    if rows == [] {
      assert db[table] + rows == db[table];
    } else {
      var n := |rows| - 1;
      InsertAllIs(cs, db, table, rows[..n]);
      assert db[table] + rows[..n] + [rows[n]] == db[table] + rows;
    }
  }

  lemma TransformedIs(staged: seq<Ref>, table: string, rows: seq<Row>)
    ensures Transformed(staged, table, rows) == Cleared(table, rows, StagedColumns(staged, table))
  {
  }

  predicate NoRepeats(order: seq<string>) { forall i, j :: 0 <= i < j < |order| ==> order[i] != order[j] }

  lemma {:induction false} CopyAllIs(cs: Constraints, db: Tables, src: map<string, Source>, order: seq<string>,
                                     staged: seq<Ref>)
    requires Ready(db, order) && NoRepeats(order) && CopyAll(cs, db, src, order, staged).Some?
    ensures CopyAll(cs, db, src, order, staged).value == Filled(db, src, order, staged)
  {
    hide InsertAll, Transformed, Cleared, StagedColumns;
    if order == [] {
      assert Filled(db, src, order, staged) == db;
    } else {
      var n := |order| - 1;
      var t := order[n];
      CopyAllIs(cs, db, src, order[..n], staged);
      var d := Filled(db, src, order[..n], staged);
      assert t !in order[..n];
      assert forall u :: u in order <==> u in order[..n] || u == t;
      if t in src {
        InsertAllIs(cs, d, t, Transformed(staged, t, src[t].rows));
        TransformedIs(staged, t, src[t].rows);
        assert d[t] == [];
        assert d[t] + Transformed(staged, t, src[t].rows) == Transformed(staged, t, src[t].rows);
      }
      assert CopyAll(cs, db, src, order, staged).value == Filled(db, src, order, staged);
    }
  }

  // ---------------------------------------------------------------- restoring

  /** The rows of a table while one column is being restored: done before k, still NULL from k on. */
  function Halfway(table: string, rows: seq<Row>, columns: set<string>, column: string, k: nat): seq<Row> {
    seq(|rows|, i requires 0 <= i < |rows| =>
      NullOut(Materialize(table, rows[i]), if i < k then columns - {column} else columns))
  }

  lemma SingleMatch(rows: seq<Row>, id: Value, column: string, k: nat)
    requires k in Matches(rows, id, column) && |Matches(rows, id, column)| == 1
    ensures Matches(rows, id, column) == {k}
  {
    var rest := Matches(rows, id, column) - {k};
    assert |rest| == 0;
    assert Matches(rows, id, column) == rest + {k};
  }

  lemma NullMatchesNothing(rows: seq<Row>, column: string)
    ensures Matches(rows, Null, column) == {}
  {
  }

  /** Clearing one column less is putting the value back. */
  lemma PutBack(row: Row, columns: set<string>, column: string)
    requires column in row && column in columns
    ensures NullOut(row, columns)[column := row[column]] == NullOut(row, columns - {column})
    ensures At(NullOut(row, columns), column) == Null
    ensures "id" !in columns ==> At(NullOut(row, columns), "id") == At(row, "id")
  {
  }

  lemma NothingToPutBack(row: Row, columns: set<string>, column: string)
    requires At(row, column) == Null
    ensures NullOut(row, columns - {column}) == NullOut(row, columns)
  {
  }

  /** Row k itself matches, so a row count of one means that no other row does. */
  lemma HitsOnlyItself(cs: Constraints, db: Tables, r: Ref, rows: seq<Row>, columns: set<string>, k: nat)
    requires r.table in db && k < |rows| && Plain(r) && r.column in columns && "id" !in columns
    requires db[r.table] == Halfway(r.table, rows, columns, r.column, k)
    requires At(rows[k], r.column) != Null && RestoreRow(cs, db, r, rows[k]).Some?
    ensures At(rows[k], "id") != Null && Matches(db[r.table], At(rows[k], "id"), r.column) == {k}
  {
    var row := Materialize(r.table, rows[k]);
    hide Materialize;
    var before := db[r.table];
    PutBack(row, columns, r.column);
    NullMatchesNothing(before, r.column);
    assert k in Matches(before, At(rows[k], "id"), r.column);
    SingleMatch(before, At(rows[k], "id"), r.column, k);
  }

  /** Whichever row the UPDATE hits, it is the one whose reference is being restored. */
  lemma RestoreRowIs(cs: Constraints, db: Tables, r: Ref, rows: seq<Row>, columns: set<string>, k: nat)
    requires r.table in db && k < |rows| && Plain(r) && r.column in columns && "id" !in columns
    requires db[r.table] == Halfway(r.table, rows, columns, r.column, k)
    requires RestoreRow(cs, db, r, rows[k]).Some?
    ensures RestoreRow(cs, db, r, rows[k]).value == db[r.table := Halfway(r.table, rows, columns, r.column, k + 1)]
  {
    var row := Materialize(r.table, rows[k]);
    var before, next := db[r.table], Halfway(r.table, rows, columns, r.column, k + 1);
    if At(rows[k], r.column) == Null {
      NothingToPutBack(row, columns, r.column);
      assert before == next;
      assert db == db[r.table := next];
    } else {
      PutBack(row, columns, r.column);
      HitsOnlyItself(cs, db, r, rows, columns, k);
      hide Materialize, Matches;
      assert UpdateRows(before, At(rows[k], "id"), r.column, At(rows[k], r.column)) == next;
    }
  }

  lemma {:induction false} RestoreColumnIs(cs: Constraints, db: Tables, r: Ref, rows: seq<Row>, columns: set<string>,
                                           k: nat)
    requires r.table in db && k <= |rows| && Plain(r) && r.column in columns && "id" !in columns
    requires db[r.table] == Halfway(r.table, rows, columns, r.column, 0)
    requires RestoreColumn(cs, db, r, rows[..k]).Some?
    ensures RestoreColumn(cs, db, r, rows[..k]).value == db[r.table := Halfway(r.table, rows, columns, r.column, k)]
  {
    hide Halfway, RestoreRow, Plain;
    if k == 0 {
      assert db == db[r.table := db[r.table]];
    } else {
      assert rows[..k][..k - 1] == rows[..k - 1];
      RestoreColumnIs(cs, db, r, rows, columns, k - 1);
      RestoreRowIs(cs, RestoreColumn(cs, db, r, rows[..k - 1]).value, r, rows, columns, k - 1);
    }
  }

  lemma HalfwayEnds(table: string, rows: seq<Row>, columns: set<string>, column: string)
    ensures Halfway(table, rows, columns, column, 0) == Cleared(table, rows, columns)
    ensures Halfway(table, rows, columns, column, |rows|) == Cleared(table, rows, columns - {column})
  {
  }

  /** Dropping the first reference of the list un-stages its column and nothing else. */
  lemma StagedStep(refs: seq<Ref>, table: string)
    requires refs != [] && DistinctRefs(refs)
    ensures StagedColumns(refs[1..], table)
         == if table == refs[0].table then StagedColumns(refs, table) - {refs[0].column} else StagedColumns(refs, table)
  {
    forall c | c in StagedColumns(refs, table) && (table != refs[0].table || c != refs[0].column)
      ensures c in StagedColumns(refs[1..], table)
    {
      var r :| r in refs && r.table == table && r.column == c;
      assert r in refs[1..];
    }
    forall c | c in StagedColumns(refs[1..], table)
      ensures c in StagedColumns(refs, table) && (table != refs[0].table || c != refs[0].column)
    {
      var r :| r in refs[1..] && r.table == table && r.column == c;
      assert r in refs;
    }
  }

  predicate SourceOk(src: map<string, Source>) { forall t :: t in src ==> src[t].Valid() }

  /** A staged column the source does not have was NULL in the target all along. */
  lemma AbsentColumn(src: map<string, Source>, r: Ref, columns: set<string>)
    requires r.table in src && src[r.table].Valid() && r.column !in src[r.table].columns && Plain(r)
    ensures Cleared(r.table, src[r.table].rows, columns - {r.column}) == Cleared(r.table, src[r.table].rows, columns)
  {
    var rows := src[r.table].rows;
    forall i | 0 <= i < |rows|
      ensures NullOut(Materialize(r.table, rows[i]), columns - {r.column})
              == NullOut(Materialize(r.table, rows[i]), columns)
    {
      NothingToPutBack(Materialize(r.table, rows[i]), columns, r.column);
    }
  }

  /** The filled target when the first reference is un-staged. */
  lemma FilledStep(db: Tables, src: map<string, Source>, order: seq<string>, refs: seq<Ref>)
    requires refs != [] && DistinctRefs(refs)
    ensures var d, e, t := Filled(db, src, order, refs), Filled(db, src, order, refs[1..]), refs[0].table;
            if t in db && t in order && t in src
            then e == d[t := Cleared(t, src[t].rows, StagedColumns(refs, t) - {refs[0].column})]
            else e == d
  {
    hide Cleared, StagedColumns;
    forall t ensures StagedColumns(refs[1..], t)
        == (if t == refs[0].table then StagedColumns(refs, t) - {refs[0].column} else StagedColumns(refs, t)) {
      StagedStep(refs, t);
    }
  }

  lemma RestoreRefIs(cs: Constraints, db: Tables, src: map<string, Source>, order: seq<string>, refs: seq<Ref>)
    requires refs != [] && StagingOk(refs) && SourceOk(src) && Ready(db, order)
    requires RestoreRef(cs, Filled(db, src, order, refs), src, order, refs[0]).Some?
    ensures RestoreRef(cs, Filled(db, src, order, refs), src, order, refs[0]).value == Filled(db, src, order, refs[1..])
  {
    hide Cleared, RestoreColumn, Materialize, Plain, Halfway, StagedColumns, DistinctRefs;
    var r := refs[0];
    FilledStep(db, src, order, refs);
    if r.table in order && r.table in src {
      var rows, columns := src[r.table].rows, StagedColumns(refs, r.table);
      var d := Filled(db, src, order, refs);
      assert d[r.table] == Cleared(r.table, rows, columns);
      hide Filled;
      if r.column in src[r.table].columns {
        HalfwayEnds(r.table, rows, columns, r.column);
        InStaged(refs, r.table);
        assert rows[..|rows|] == rows;
        RestoreColumnIs(cs, d, r, rows, columns, |rows|);
      } else {
        AbsentColumn(src, r, columns);
        assert d[r.table := d[r.table]] == d;
      }
    }
  }

  lemma InStaged(refs: seq<Ref>, table: string)
    requires refs != [] && StagingOk(refs)
    ensures refs[0].column in StagedColumns(refs, refs[0].table)
    ensures "id" !in StagedColumns(refs, table)
  {
    assert refs[0] in refs;
  }

  lemma {:induction false} RestoreAllIs(cs: Constraints, db: Tables, src: map<string, Source>, order: seq<string>,
                                        refs: seq<Ref>)
    requires StagingOk(refs) && SourceOk(src) && Ready(db, order)
    requires RestoreAll(cs, Filled(db, src, order, refs), src, order, refs).Some?
    ensures RestoreAll(cs, Filled(db, src, order, refs), src, order, refs).value == Expected(db, src, order)
    decreases |refs|
  {
    hide RestoreRef, Filled, Expected, StagingOk;
    if refs == [] {
      FilledIsExpected(db, src, order);
    } else {
      RestoreRefIs(cs, db, src, order, refs);
      Fewer(refs);
      RestoreAllIs(cs, db, src, order, refs[1..]);
    }
  }

  lemma Fewer(refs: seq<Ref>)
    requires refs != [] && StagingOk(refs)
    ensures StagingOk(refs[1..])
  {
    hide Plain;
  }

  /** Whenever the copy succeeds, every listed table holds exactly its materialized source rows and no other table
      has changed; nothing is assumed about the references of the source. */
  lemma CopyIsExact(cs: Constraints, db: Tables, src: map<string, Source>, order: seq<string>, staged: seq<Ref>)
    requires StagingOk(staged) && SourceOk(src) && NoRepeats(order)
    requires Copy(cs, db, src, order, staged).Some?
    ensures Copy(cs, db, src, order, staged).value == Expected(db, src, order)
  {
    hide CopyAll, RestoreAll, StagingOk, Expected;
    CopyAllIs(cs, db, src, order, staged);
    RestoreAllIs(cs, db, src, order, staged);
  }
}
