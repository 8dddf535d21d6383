/** No statement of the copy breaks a constraint of the target, and what a copy that succeeds shows of its source. */
module CopySound {
  import opened CopyModel
  import opened CopyProofs

  /** Referenced columns are never staged, so they never change once inserted. */
  predicate KeysKept(cs: Constraints, staged: seq<Ref>) {
    forall fk, k :: fk in cs.fks && k in fk.keys ==> Ref(fk.parent, k) !in staged
  }

  predicate UsesStaged(fk: ForeignKey, staged: seq<Ref>) { exists c :: c in fk.columns && Ref(fk.table, c) in staged }

  /** Every reference that is not staged points to an earlier table, or to one the copy does not touch. */
  predicate OrderOk(cs: Constraints, order: seq<string>, staged: seq<Ref>) {
    forall i, fk :: 0 <= i < |order| && fk in cs.fks && fk.table == order[i] ==>
      UsesStaged(fk, staged) || fk.parent !in order[i..]
  }

  predicate ParentsThere(cs: Constraints, db: Tables) { forall fk :: fk in cs.fks ==> fk.parent in db }

  /** The id under which a reference is restored belongs to one row only. */
  predicate IdentifiedRow(rows: seq<Row>, k: nat)
    requires k < |rows|
  {
    At(rows[k], "id") != Null && forall i :: 0 <= i < |rows| && At(rows[i], "id") == At(rows[k], "id") ==> i == k
  }

  predicate IdentifiedColumn(rows: seq<Row>, column: string, n: nat)
    requires n <= |rows|
  {
    forall k: nat :: k < n && At(rows[k], column) != Null ==> IdentifiedRow(rows, k)
  }

  predicate Identified(src: map<string, Source>, order: seq<string>, refs: seq<Ref>) {
    forall r :: r in refs && r.table in order && r.table in src && r.column in src[r.table].columns ==>
      IdentifiedColumn(src[r.table].rows, r.column, |src[r.table].rows|)
  }

  // ---------------------------------------------------------------- the rows the target goes through

  /** The rows as they are inserted, staged columns NULL, are acceptable and collide nowhere. */
  predicate InsertsFit(cs: Constraints, src: map<string, Source>, order: seq<string>, staged: seq<Ref>) {
    forall t :: t in order && t in src ==> RowsFit(cs, t, Cleared(t, src[t].rows, StagedColumns(staged, t)))
  }

  /** So are they while one column is put back row by row. */
  predicate RefFits(cs: Constraints, src: map<string, Source>, order: seq<string>, refs: seq<Ref>)
    requires refs != []
  {
    var r := refs[0];
    r.table in order && r.table in src && r.column in src[r.table].columns ==>
      forall k :: 0 <= k <= |src[r.table].rows| ==>
        RowsFit(cs, r.table, Halfway(r.table, src[r.table].rows, StagedColumns(refs, r.table), r.column, k))
  }

  predicate RestoresFit(cs: Constraints, src: map<string, Source>, order: seq<string>, refs: seq<Ref>)
    decreases |refs|
  {
    refs == [] || (RefFits(cs, src, order, refs) && RestoresFit(cs, src, order, refs[1..]))
  }

  // ---------------------------------------------------------------- every statement keeps integrity

  lemma InsertKeeps(cs: Constraints, db: Tables, table: string, row: Row)
    requires Integrity(cs, db) && InsertRow(cs, db, table, row).Some?
    ensures Integrity(cs, InsertRow(cs, db, table, row).value)
  {
    hide KeyOf;
    var next := InsertRow(cs, db, table, row).value;
    forall fk, x | fk in cs.fks && fk.table in next && x in next[fk.table] ensures RefHolds(next, fk, x) {
      if x in db[fk.table] {
        assert RefHolds(db, fk, x);
      }
    }
  }

  lemma SameKey(a: Row, b: Row, columns: seq<string>)
    requires forall c :: c in columns ==> At(a, c) == At(b, c)
    ensures KeyOf(a, columns) == KeyOf(b, columns)
  {
    forall i | 0 <= i < |columns| ensures KeyOf(a, columns)[i] == KeyOf(b, columns)[i] {
      assert columns[i] in columns;
    }
  }

  /** The updated parent offers the same keys as before. */
  lemma UpdateKeepsParent(db: Tables, fk: ForeignKey, r: Ref, id: Value, value: Value, row: Row)
    requires r.table in db && (fk.parent == r.table ==> r.column !in fk.keys)
    requires RefHolds(db, fk, row)
    ensures RefHolds(db[r.table := UpdateRows(db[r.table], id, r.column, value)], fk, row)
  {
    var rows := UpdateRows(db[r.table], id, r.column, value);
    hide KeyOf, Matches;
    if Null !in KeyOf(row, fk.columns) && fk.parent == r.table {
      var p :| p in db[fk.parent] && KeyOf(p, fk.keys) == KeyOf(row, fk.columns);
      var i :| 0 <= i < |db[r.table]| && db[r.table][i] == p;
      SameKey(rows[i], p, fk.keys);
      assert rows[i] in rows;
    }
  }

  lemma RestoreOneKeeps(cs: Constraints, db: Tables, r: Ref, id: Value, value: Value)
    requires Integrity(cs, db) && RestoreOne(cs, db, r, id, value).Some? && KeysKept(cs, [r])
    ensures Integrity(cs, RestoreOne(cs, db, r, id, value).value)
  {
    hide KeyOf, Matches, RefHolds;
    var rows := UpdateRows(db[r.table], id, r.column, value);
    var next := RestoreOne(cs, db, r, id, value).value;
    forall fk, x | fk in cs.fks && fk.table in next && x in next[fk.table] ensures RefHolds(next, fk, x) {
      assert fk.parent == r.table ==> r.column !in fk.keys by {
        assert Ref(r.table, r.column) in [r];
      }
      if fk.table == r.table {
        var i :| 0 <= i < |rows| && rows[i] == x;
        if i !in Matches(db[r.table], id, r.column) || r.column !in fk.columns {
          SameReference(db, fk, db[r.table][i], x);
          UpdateKeepsParent(db, fk, r, id, value, x);
        }
      } else {
        UpdateKeepsParent(db, fk, r, id, value, x);
      }
    }
  }

  lemma SameReference(db: Tables, fk: ForeignKey, a: Row, b: Row)
    requires RefHolds(db, fk, a) && forall c :: c in fk.columns ==> At(a, c) == At(b, c)
    ensures RefHolds(db, fk, b)
  {
    SameKey(a, b, fk.columns);
  }

  lemma CompatibleBothWays(cs: Constraints, table: string, a: Row, b: Row)
    ensures Compatible(cs, table, a, b) <==> Compatible(cs, table, b, a)
  {
    hide KeyOf;
  }

  lemma OneMoreFits(cs: Constraints, table: string, rows: seq<Row>, row: Row)
    requires RowsFit(cs, table, rows) && Admits(cs, table, rows + [row], |rows|)
    ensures RowsFit(cs, table, rows + [row])
  {
    var all := rows + [row];
    hide Compatible;
    forall i | 0 <= i < |all| ensures Admits(cs, table, all, i) {
      if i < |rows| {
        assert Admits(cs, table, rows, i) && all[i] == rows[i];
        CompatibleBothWays(cs, table, rows[i], row);
        assert Compatible(cs, table, all[|rows|], all[i]);
      }
    }
  }

  lemma OneChangedFits(cs: Constraints, table: string, rows: seq<Row>, later: seq<Row>, k: nat)
    requires RowsFit(cs, table, rows) && |later| == |rows| && k < |rows| && Admits(cs, table, later, k)
    requires forall i :: 0 <= i < |rows| && i != k ==> later[i] == rows[i]
    ensures RowsFit(cs, table, later)
  {
    hide Compatible;
    forall i | 0 <= i < |later| && i != k ensures Admits(cs, table, later, i) {
      assert Admits(cs, table, rows, i);
      CompatibleBothWays(cs, table, later[k], later[i]);
    }
  }

  lemma InsertSound(cs: Constraints, db: Tables, table: string, row: Row)
    requires Sound(cs, db) && InsertRow(cs, db, table, row).Some?
    ensures Sound(cs, InsertRow(cs, db, table, row).value)
  {
    hide Integrity, RowHolds, RowsFit, Admits;
    InsertKeeps(cs, db, table, row);
    OneMoreFits(cs, table, db[table], row);
  }

  lemma OnlyMatch(rows: seq<Row>, id: Value, column: string) returns (k: nat)
    requires |Matches(rows, id, column)| == 1
    ensures k < |rows| && Matches(rows, id, column) == {k}
  {
    k :| k in Matches(rows, id, column);
    SingleMatch(rows, id, column, k);
  }

  lemma RestoreOneSound(cs: Constraints, db: Tables, r: Ref, id: Value, value: Value)
    requires Sound(cs, db) && RestoreOne(cs, db, r, id, value).Some? && KeysKept(cs, [r])
    ensures Sound(cs, RestoreOne(cs, db, r, id, value).value)
  {
    hide Integrity, RowHolds, RowsFit, Admits, KeysKept, Matches;
    RestoreOneKeeps(cs, db, r, id, value);
    var k := OnlyMatch(db[r.table], id, r.column);
    OneChangedFits(cs, r.table, db[r.table], UpdateRows(db[r.table], id, r.column, value), k);
  }

  lemma {:induction false} InsertAllKeeps(cs: Constraints, db: Tables, table: string, rows: seq<Row>)
    requires Sound(cs, db) && InsertAll(cs, db, table, rows).Some?
    ensures Sound(cs, InsertAll(cs, db, table, rows).value)
  {
    hide Sound, InsertRow;
    if rows != [] {
      var n := |rows| - 1;
      InsertAllKeeps(cs, db, table, rows[..n]);
      InsertSound(cs, InsertAll(cs, db, table, rows[..n]).value, table, rows[n]);
    }
  }

  lemma {:induction false} CopyAllKeeps(cs: Constraints, db: Tables, src: map<string, Source>, order: seq<string>,
                                        staged: seq<Ref>)
    requires Sound(cs, db) && CopyAll(cs, db, src, order, staged).Some?
    ensures Sound(cs, CopyAll(cs, db, src, order, staged).value)
  {
    hide Sound, InsertAll;
    if order != [] {
      var n := |order| - 1;
      CopyAllKeeps(cs, db, src, order[..n], staged);
      if order[n] in src {
        InsertAllKeeps(cs, CopyAll(cs, db, src, order[..n], staged).value, order[n],
                       Transformed(staged, order[n], src[order[n]].rows));
      }
    }
  }

  lemma {:induction false} RestoreColumnKeeps(cs: Constraints, db: Tables, r: Ref, rows: seq<Row>)
    requires Sound(cs, db) && KeysKept(cs, [r]) && RestoreColumn(cs, db, r, rows).Some?
    ensures Sound(cs, RestoreColumn(cs, db, r, rows).value)
  {
    hide Sound, RestoreOne, KeysKept;
    if rows != [] {
      var n := |rows| - 1;
      RestoreColumnKeeps(cs, db, r, rows[..n]);
      var d := RestoreColumn(cs, db, r, rows[..n]).value;
      if At(rows[n], r.column) != Null {
        RestoreOneSound(cs, d, r, At(rows[n], "id"), At(rows[n], r.column));
      }
    }
  }

  lemma RestoreRefKeeps(cs: Constraints, db: Tables, src: map<string, Source>, order: seq<string>, r: Ref)
    requires Sound(cs, db) && KeysKept(cs, [r]) && RestoreRef(cs, db, src, order, r).Some?
    ensures Sound(cs, RestoreRef(cs, db, src, order, r).value)
  {
    hide Sound, RestoreColumn, KeysKept;
    if r.table in order && r.table in src && r.column in src[r.table].columns {
      RestoreColumnKeeps(cs, db, r, src[r.table].rows);
    }
  }

  lemma {:induction false} RestoreAllKeeps(cs: Constraints, db: Tables, src: map<string, Source>, order: seq<string>,
                                           refs: seq<Ref>)
    requires Sound(cs, db) && KeysKept(cs, refs) && RestoreAll(cs, db, src, order, refs).Some?
    ensures Sound(cs, RestoreAll(cs, db, src, order, refs).value)
    decreases |refs|
  {
    hide Sound, RestoreRef;
    if refs != [] {
      assert forall r :: r in [refs[0]] || r in refs[1..] ==> r in refs;
      RestoreRefKeeps(cs, db, src, order, refs[0]);
      RestoreAllKeeps(cs, RestoreRef(cs, db, src, order, refs[0]).value, src, order, refs[1..]);
    }
  }

  // ---------------------------------------------------------------- success needs identified rows

  lemma {:induction false} RestoredIdentified(cs: Constraints, db: Tables, r: Ref, rows: seq<Row>,
                                              columns: set<string>, k: nat)
    requires r.table in db && k <= |rows| && Plain(r) && r.column in columns && "id" !in columns
    requires db[r.table] == Halfway(r.table, rows, columns, r.column, 0)
    requires RestoreColumn(cs, db, r, rows[..k]).Some?
    ensures IdentifiedColumn(rows, r.column, k)
  {
    hide Halfway, RestoreRow, Matches, Plain;
    if k > 0 {
      assert rows[..k][..k - 1] == rows[..k - 1];
      RestoredIdentified(cs, db, r, rows, columns, k - 1);
      RestoreColumnIs(cs, db, r, rows, columns, k - 1);
      var d := RestoreColumn(cs, db, r, rows[..k - 1]).value;
      if At(rows[k - 1], r.column) != Null {
        HitsOnlyItself(cs, d, r, rows, columns, k - 1);
        OthersDiffer(d[r.table], r, rows, columns, k - 1);
      }
    }
  }

  lemma EarlierNull(rows: seq<Row>, column: string, k: nat, i: nat)
    requires i < k < |rows| && IdentifiedColumn(rows, column, k) && At(rows[i], "id") == At(rows[k], "id")
    ensures At(rows[i], column) == Null
  {
  }

  lemma OthersDiffer(shown: seq<Row>, r: Ref, rows: seq<Row>, columns: set<string>, k: nat)
    requires k < |rows| && Plain(r) && r.column in columns && "id" !in columns
    requires shown == Halfway(r.table, rows, columns, r.column, k)
    requires At(rows[k], "id") != Null && Matches(shown, At(rows[k], "id"), r.column) == {k}
    requires IdentifiedColumn(rows, r.column, k) && At(rows[k], r.column) != Null
    ensures IdentifiedRow(rows, k)
  {
    hide Materialize, IdentifiedColumn;
    forall i | 0 <= i < |rows| && At(rows[i], "id") == At(rows[k], "id") ensures i == k {
      var row := Materialize(r.table, rows[i]);
      assert At(row, "id") == At(rows[i], "id");
      assert At(shown[i], "id") == At(rows[k], "id");
      if i < k {
        EarlierNull(rows, r.column, k, i);
      }
      assert At(shown[i], r.column) == Null;
      assert i in Matches(shown, At(rows[k], "id"), r.column);
    }
  }

  lemma {:induction false} AllIdentified(cs: Constraints, db: Tables, src: map<string, Source>, order: seq<string>,
                                         refs: seq<Ref>)
    requires StagingOk(refs) && SourceOk(src) && Ready(db, order)
    requires RestoreAll(cs, Filled(db, src, order, refs), src, order, refs).Some?
    ensures Identified(src, order, refs)
    decreases |refs|
  {
    hide Cleared, RestoreColumn, Plain, Halfway, StagedColumns, IdentifiedColumn, StagingOk;
    if refs != [] {
      var d, r := Filled(db, src, order, refs), refs[0];
      RestoreRefIs(cs, db, src, order, refs);
      Fewer(refs);
      AllIdentified(cs, db, src, order, refs[1..]);
      if r.table in order && r.table in src && r.column in src[r.table].columns {
        var rows, columns := src[r.table].rows, StagedColumns(refs, r.table);
        HalfwayEnds(r.table, rows, columns, r.column);
        InStaged(refs, r.table);
        FirstIsPlain(refs);
        assert rows[..|rows|] == rows;
        RestoredIdentified(cs, d, r, rows, columns, |rows|);
      }
    }
  }

  // ---------------------------------------------------------------- success needs rows that fit at every stage

  lemma {:induction false} RestoredFits(cs: Constraints, db: Tables, r: Ref, rows: seq<Row>, columns: set<string>,
                                        k: nat)
    requires r.table in db && k <= |rows| && Plain(r) && r.column in columns && "id" !in columns
    requires Sound(cs, db) && KeysKept(cs, [r]) && db[r.table] == Halfway(r.table, rows, columns, r.column, 0)
    requires RestoreColumn(cs, db, r, rows[..k]).Some?
    ensures forall m :: 0 <= m <= k ==> RowsFit(cs, r.table, Halfway(r.table, rows, columns, r.column, m))
  {
    hide Halfway, RestoreRow, Plain, KeysKept, Integrity, RowsFit;
    RestoreColumnKeeps(cs, db, r, rows[..k]);
    RestoreColumnIs(cs, db, r, rows, columns, k);
    var d := RestoreColumn(cs, db, r, rows[..k]).value;
    assert r.table in d && d[r.table] == Halfway(r.table, rows, columns, r.column, k);
    if k > 0 {
      assert rows[..k][..k - 1] == rows[..k - 1];
      RestoredFits(cs, db, r, rows, columns, k - 1);
    }
  }

  lemma FirstFits(cs: Constraints, db: Tables, src: map<string, Source>, order: seq<string>, refs: seq<Ref>)
    requires refs != [] && StagingOk(refs) && SourceOk(src) && Ready(db, order) && KeysKept(cs, [refs[0]])
    requires Sound(cs, Filled(db, src, order, refs))
    requires RestoreRef(cs, Filled(db, src, order, refs), src, order, refs[0]).Some?
    ensures RefFits(cs, src, order, refs)
  {
    hide Cleared, RestoreColumn, Plain, Halfway, StagedColumns, StagingOk, KeysKept, Sound, RowsFit;
    var d, r := Filled(db, src, order, refs), refs[0];
    if r.table in order && r.table in src && r.column in src[r.table].columns {
      var rows, columns := src[r.table].rows, StagedColumns(refs, r.table);
      HalfwayEnds(r.table, rows, columns, r.column);
      InStaged(refs, r.table);
      FirstIsPlain(refs);
      assert rows[..|rows|] == rows;
      RestoredFits(cs, d, r, rows, columns, |rows|);
    }
  }

  lemma {:induction false} AllFit(cs: Constraints, db: Tables, src: map<string, Source>, order: seq<string>,
                                  refs: seq<Ref>)
    requires StagingOk(refs) && SourceOk(src) && Ready(db, order) && KeysKept(cs, refs)
    requires Sound(cs, Filled(db, src, order, refs))
    requires RestoreAll(cs, Filled(db, src, order, refs), src, order, refs).Some?
    ensures RestoresFit(cs, src, order, refs)
    decreases |refs|
  {
    hide Filled, RestoreRef, StagingOk, Sound, RefFits, SourceOk;
    if refs != [] {
      assert forall r :: r in [refs[0]] || r in refs[1..] ==> r in refs;
      FirstFits(cs, db, src, order, refs);
      RestoreRefIs(cs, db, src, order, refs);
      RestoreRefKeeps(cs, Filled(db, src, order, refs), src, order, refs[0]);
      Fewer(refs);
      AllFit(cs, db, src, order, refs[1..]);
    }
  }

  lemma FilledFits(cs: Constraints, db: Tables, src: map<string, Source>, order: seq<string>, staged: seq<Ref>)
    requires Ready(db, order) && Sound(cs, Filled(db, src, order, staged))
    ensures InsertsFit(cs, src, order, staged)
  {
    hide Integrity, RowsFit, Cleared, StagedColumns;
    forall t | t in order && t in src ensures RowsFit(cs, t, Cleared(t, src[t].rows, StagedColumns(staged, t))) {
      assert t in Filled(db, src, order, staged);
    }
  }

  lemma FirstIsPlain(refs: seq<Ref>)
    requires refs != [] && StagingOk(refs)
    ensures Plain(refs[0])
  {
    hide Plain;
    assert refs[0] in refs;
  }

  // ---------------------------------------------------------------- sound references never fail

  /** Two tables with the same rows up to the given columns. */
  ghost predicate SameBut(rows: seq<Row>, whole: seq<Row>, columns: set<string>) {
    |rows| == |whole| && forall i, c :: 0 <= i < |rows| && c !in columns ==> At(rows[i], c) == At(whole[i], c)
  }

  /** A reference that holds in the finished target also holds earlier: the parent's keys are already there, and the
      referencing columns that are not are NULL. */
  lemma HoldsEarly(d: Tables, e: Tables, fk: ForeignKey, columns: set<string>, row: Row, whole: Row)
    requires RefHolds(e, fk, whole)
    requires fk.parent in d && fk.parent in e && SameBut(d[fk.parent], e[fk.parent], columns)
    requires forall k :: k in fk.keys ==> k !in columns
    requires forall c :: c in fk.columns ==> At(row, c) == Null || At(row, c) == At(whole, c)
    ensures RefHolds(d, fk, row)
  {
    if c :| c in fk.columns && At(row, c) == Null {
      var i :| 0 <= i < |fk.columns| && fk.columns[i] == c;
      assert KeyOf(row, fk.columns)[i] == Null;
    } else {
      SameKey(row, whole, fk.columns);
      hide KeyOf;
      if Null !in KeyOf(row, fk.columns) {
        var p :| p in e[fk.parent] && KeyOf(p, fk.keys) == KeyOf(whole, fk.columns);
        var j :| 0 <= j < |e[fk.parent]| && e[fk.parent][j] == p;
        SameKey(d[fk.parent][j], p, fk.keys);
        assert d[fk.parent][j] in d[fk.parent];
      }
    }
  }

  lemma ClearedSameBut(table: string, rows: seq<Row>, columns: set<string>)
    ensures SameBut(Cleared(table, rows, columns), MaterializedRows(table, rows), columns)
  {
    hide Materialize;
  }

  lemma FilledSameBut(db: Tables, src: map<string, Source>, order: seq<string>, done: seq<string>, refs: seq<Ref>,
                      t: string)
    requires t in db && (t in done <==> t in order)
    ensures Filled(db, src, done, refs).Keys == db.Keys
    ensures SameBut(Filled(db, src, done, refs)[t], Expected(db, src, order)[t], StagedColumns(refs, t))
  {
    hide Cleared, SameBut;
    if t in order && t in src {
      ClearedSameBut(t, src[t].rows, StagedColumns(refs, t));
    } else {
      SameAsItself(db[t], StagedColumns(refs, t));
    }
  }

  lemma SameAsItself(rows: seq<Row>, columns: set<string>)
    ensures SameBut(rows, rows, columns)
  {
  }

  lemma KeyNotStaged(cs: Constraints, fk: ForeignKey, staged: seq<Ref>, k: string)
    requires KeysKept(cs, staged) && fk in cs.fks && k in fk.keys
    ensures k !in StagedColumns(staged, fk.parent)
  {
    forall r | r in staged && r.table == fk.parent ensures r.column != k {
      assert r == Ref(fk.parent, r.column);
    }
  }

  predicate SameElsewhere(next: Tables, db: Tables, table: string) {
    next.Keys == db.Keys && forall t :: t in db && t != table ==> next[t] == db[t]
  }

  /** A row about to be inserted passes the immediate checks. */
  lemma InsertPasses(cs: Constraints, db: Tables, src: map<string, Source>, order: seq<string>, n: nat,
                     staged: seq<Ref>, k: nat, next: Tables)
    requires ParentsThere(cs, db) && OrderOk(cs, order, staged) && KeysKept(cs, staged) && NoRepeats(order)
    requires n < |order| && order[n] in src && order[n] in db && k < |src[order[n]].rows|
    requires Integrity(cs, Expected(db, src, order))
    requires SameElsewhere(next, Filled(db, src, order[..n], staged), order[n])
    ensures RowHolds(cs, next, order[n], TransformRow(staged, order[n], src[order[n]].rows[k]), None)
  {
    hide Integrity, Materialize, Filled, SameBut, RefHolds, KeyOf, OrderOk, KeysKept, NoRepeats, TransformRow;
    var t := order[n];
    var row, whole := TransformRow(staged, t, src[t].rows[k]), Materialize(t, src[t].rows[k]);
    var e := Expected(db, src, order);
    forall fk | fk in cs.fks && fk.table == t ensures RefHolds(next, fk, row) {
      if UsesStaged(fk, staged) {
        var c :| c in fk.columns && Ref(fk.table, c) in staged;
        StagedIsNull(staged, Ref(t, c), src[t].rows[k]);
        NullHolds(next, fk, row, c);
      } else {
        ParentIsDone(cs, order, n, fk, staged);
        FilledSameBut(db, src, order, order[..n], staged, fk.parent);
        WholeHolds(cs, e, fk, src, order, db, k);
        forall x | x in fk.keys ensures x !in StagedColumns(staged, fk.parent) {
          KeyNotStaged(cs, fk, staged, x);
        }
        forall c | c in fk.columns ensures At(row, c) == At(whole, c) {
          UnstagedIsSame(staged, Ref(t, c), src[t].rows[k]);
        }
        HoldsEarly(next, e, fk, StagedColumns(staged, fk.parent), row, whole);
      }
    }
  }

  lemma StagedIsNull(staged: seq<Ref>, r: Ref, row: Row)
    requires r in staged
    ensures At(TransformRow(staged, r.table, row), r.column) == Null
  {
    hide Materialize;
  }

  lemma UnstagedIsSame(staged: seq<Ref>, r: Ref, row: Row)
    requires r !in staged
    ensures At(TransformRow(staged, r.table, row), r.column) == At(Materialize(r.table, row), r.column)
  {
    hide Materialize;
  }

  lemma NullHolds(db: Tables, fk: ForeignKey, row: Row, c: string)
    requires c in fk.columns && At(row, c) == Null
    ensures RefHolds(db, fk, row)
  {
    var i :| 0 <= i < |fk.columns| && fk.columns[i] == c;
    assert KeyOf(row, fk.columns)[i] == Null;
  }

  lemma ParentIsDone(cs: Constraints, order: seq<string>, n: nat, fk: ForeignKey, staged: seq<Ref>)
    requires OrderOk(cs, order, staged) && n < |order| && fk in cs.fks && fk.table == order[n]
             && !UsesStaged(fk, staged)
    ensures fk.parent != order[n] && (fk.parent in order[..n] <==> fk.parent in order)
  {
    assert order == order[..n] + order[n..];
    assert order[n] in order[n..];
  }

  lemma WholeHolds(cs: Constraints, e: Tables, fk: ForeignKey, src: map<string, Source>, order: seq<string>,
                   db: Tables, k: nat)
    requires e == Expected(db, src, order) && Integrity(cs, e) && fk in cs.fks
    requires fk.table in order && fk.table in src && fk.table in db && k < |src[fk.table].rows|
    ensures RefHolds(e, fk, Materialize(fk.table, src[fk.table].rows[k]))
  {
    hide Materialize;
    assert e[fk.table][k] in e[fk.table];
  }

  lemma PrefixFits(cs: Constraints, table: string, rows: seq<Row>, n: nat)
    requires RowsFit(cs, table, rows) && n <= |rows|
    ensures RowsFit(cs, table, rows[..n])
  {
    hide Compatible;
    forall i | 0 <= i < n ensures Admits(cs, table, rows[..n], i) {
      assert Admits(cs, table, rows, i);
    }
  }

  lemma {:induction false} InsertAllWorks(cs: Constraints, db: Tables, table: string, rows: seq<Row>)
    requires table in db && RowsFit(cs, table, db[table] + rows)
    requires forall k, next: Tables :: 0 <= k < |rows| && SameElsewhere(next, db, table) ==>
               RowHolds(cs, next, table, rows[k], None)
    ensures InsertAll(cs, db, table, rows).Some?
  {
    hide RowHolds, Compatible;
    if rows != [] {
      var n := |rows| - 1;
      forall k, next: Tables | 0 <= k < |rows[..n]| && SameElsewhere(next, db, table)
        ensures RowHolds(cs, next, table, rows[..n][k], None)
      {
        assert rows[..n][k] == rows[k];
      }
      var all := db[table] + rows;
      PrefixFits(cs, table, all, |all| - 1);
      assert all[..|all| - 1] == db[table] + rows[..n];
      InsertAllWorks(cs, db, table, rows[..n]);
      InsertAllIs(cs, db, table, rows[..n]);
      var before := db[table] + rows[..n];
      assert before + [rows[n]] == all && Admits(cs, table, all, |before|);
      LastWorks(cs, db[table := before], table, rows[n], db);
    }
  }

  lemma LastWorks(cs: Constraints, d: Tables, table: string, row: Row, db: Tables)
    requires table in db && SameElsewhere(d, db, table) && Admits(cs, table, d[table] + [row], |d[table]|)
    requires forall next: Tables :: SameElsewhere(next, db, table) ==> RowHolds(cs, next, table, row, None)
    ensures InsertRow(cs, d, table, row).Some?
  {
    hide RowHolds, Admits;
    assert SameElsewhere(d[table := d[table] + [row]], db, table);
  }

  lemma StartsEmpty(cs: Constraints, db: Tables, src: map<string, Source>, order: seq<string>, n: nat, staged: seq<Ref>)
    requires n < |order| && order[n] in src && Ready(db, order) && NoRepeats(order)
             && InsertsFit(cs, src, order, staged)
    ensures var d := Filled(db, src, order[..n], staged);
            order[n] in d && RowsFit(cs, order[n], d[order[n]] + Transformed(staged, order[n], src[order[n]].rows))
  {
    var t, d := order[n], Filled(db, src, order[..n], staged);
    TransformedIs(staged, t, src[t].rows);
    hide RowsFit, Transformed, Cleared, StagedColumns;
    assert t !in order[..n] && t in order && d[t] == [];
    assert d[t] + Transformed(staged, t, src[t].rows) == Transformed(staged, t, src[t].rows);
  }

  lemma OrderPrefix(cs: Constraints, db: Tables, src: map<string, Source>, order: seq<string>, n: nat, staged: seq<Ref>)
    requires n < |order| && Ready(db, order) && NoRepeats(order)
    requires ParentsThere(cs, db) && OrderOk(cs, order, staged) && KeysKept(cs, staged)
    requires Integrity(cs, Expected(db, src, order)) && InsertsFit(cs, src, order, staged)
    ensures CopyTable(cs, Filled(db, src, order[..n], staged), src, order[n], staged).Some?
  {
    hide Integrity, InsertAll, TransformRow, Cleared, OrderOk, KeysKept, RowHolds, InsertsFit, RowsFit;
    var t, d := order[n], Filled(db, src, order[..n], staged);
    if t in src {
      var rows := Transformed(staged, t, src[t].rows);
      forall k, next: Tables | 0 <= k < |rows| && SameElsewhere(next, d, t)
        ensures RowHolds(cs, next, t, rows[k], None)
      {
        InsertPasses(cs, db, src, order, n, staged, k, next);
      }
      StartsEmpty(cs, db, src, order, n, staged);
      InsertAllWorks(cs, d, t, rows);
    }
  }

  lemma {:induction false} CopyAllWorks(cs: Constraints, db: Tables, src: map<string, Source>, order: seq<string>,
                                        n: nat, staged: seq<Ref>)
    requires n <= |order| && Ready(db, order) && NoRepeats(order)
    requires ParentsThere(cs, db) && OrderOk(cs, order, staged) && KeysKept(cs, staged)
    requires Integrity(cs, Expected(db, src, order)) && InsertsFit(cs, src, order, staged)
    ensures CopyAll(cs, db, src, order[..n], staged).Some?
  {
    hide Integrity, CopyTable, OrderOk, KeysKept, InsertsFit;
    if n > 0 {
      assert order[..n][..n - 1] == order[..n - 1];
      CopyAllWorks(cs, db, src, order, n - 1, staged);
      CopyAllIs(cs, db, src, order[..n - 1], staged);
      OrderPrefix(cs, db, src, order, n - 1, staged);
    }
  }
}
