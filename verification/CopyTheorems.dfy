/** When the copy succeeds, and that nothing it does on the way breaks a reference. */
module CopyTheorems {
  import opened CopyModel
  import opened CopyProofs
  import opened CopySound

  lemma HalfwaySameBut(table: string, rows: seq<Row>, columns: set<string>, column: string, k: nat)
    ensures SameBut(Halfway(table, rows, columns, column, k), MaterializedRows(table, rows), columns)
  {
    hide Materialize;
  }

  lemma OnlyOneMatches(r: Ref, rows: seq<Row>, columns: set<string>, k: nat)
    requires k < |rows| && Plain(r) && r.column in columns && "id" !in columns
    requires At(rows[k], r.column) != Null && IdentifiedRow(rows, k)
    ensures Matches(Halfway(r.table, rows, columns, r.column, k), At(rows[k], "id"), r.column) == {k}
  {
    var shown := Halfway(r.table, rows, columns, r.column, k);
    PutBack(Materialize(r.table, rows[k]), columns, r.column);
    hide Materialize;
    forall i | 0 <= i < |rows| ensures At(shown[i], "id") == At(rows[i], "id") {
      assert At(Materialize(r.table, rows[i]), "id") == At(rows[i], "id");
    }
    assert k in Matches(shown, At(rows[k], "id"), r.column);
  }

  lemma UpdatesOne(r: Ref, rows: seq<Row>, columns: set<string>, k: nat)
    requires k < |rows| && Plain(r) && r.column in columns && "id" !in columns
    requires At(rows[k], r.column) != Null && IdentifiedRow(rows, k)
    ensures UpdateRows(Halfway(r.table, rows, columns, r.column, k), At(rows[k], "id"), r.column, At(rows[k], r.column))
         == Halfway(r.table, rows, columns, r.column, k + 1)
  {
    PutBack(Materialize(r.table, rows[k]), columns, r.column);
    assert At(Materialize(r.table, rows[k]), r.column) == At(rows[k], r.column);
    OnlyOneMatches(r, rows, columns, k);
    hide Materialize, Matches, IdentifiedRow, Plain;
  }

  /** The finished row, some of its references still NULL, passes the check of an UPDATE. */
  lemma UpdatePasses(cs: Constraints, db: Tables, src: map<string, Source>, order: seq<string>, refs: seq<Ref>,
                     t: string, column: string, k: nat)
    requires ParentsThere(cs, db) && KeysKept(cs, refs) && Integrity(cs, Expected(db, src, order))
    requires t in order && t in src && t in db && k < |src[t].rows|
    ensures var rows := Halfway(t, src[t].rows, StagedColumns(refs, t), column, k + 1);
            RowHolds(cs, Filled(db, src, order, refs)[t := rows], t, rows[k], Some(column))
  {
    hide Integrity, Materialize, Filled, SameBut, RefHolds, KeyOf, KeysKept, MaterializedRows;
    var columns := StagedColumns(refs, t);
    var rows := Halfway(t, src[t].rows, columns, column, k + 1);
    var next, e := Filled(db, src, order, refs)[t := rows], Expected(db, src, order);
    forall fk | fk in cs.fks && fk.table == t ensures RefHolds(next, fk, rows[k]) {
      FilledSameBut(db, src, order, order, refs, fk.parent);
      HalfwaySameBut(t, src[t].rows, columns, column, k + 1);
      WholeHolds(cs, e, fk, src, order, db, k);
      forall x | x in fk.keys ensures x !in StagedColumns(refs, fk.parent) {
        KeyNotStaged(cs, fk, refs, x);
      }
      HoldsEarly(next, e, fk, StagedColumns(refs, fk.parent), rows[k], Materialize(t, src[t].rows[k]));
    }
  }

  lemma RowWorks(cs: Constraints, f: Tables, r: Ref, shown: seq<Row>, next: seq<Row>, row: Row, k: nat)
    requires At(row, r.column) != Null && Matches(shown, At(row, "id"), r.column) == {k}
    requires k < |next| && next == UpdateRows(shown, At(row, "id"), r.column, At(row, r.column))
    requires RowHolds(cs, f[r.table := next], r.table, next[k], Some(r.column)) && Admits(cs, r.table, next, k)
    ensures RestoreRow(cs, f[r.table := shown], r, row).Some?
  {
    hide Matches, UpdateRows, RowHolds, Admits;
    assert f[r.table := shown][r.table := next] == f[r.table := next];
  }

  lemma AdmittedAt(cs: Constraints, src: map<string, Source>, order: seq<string>, refs: seq<Ref>, k: nat)
    requires refs != [] && refs[0].table in order && refs[0].table in src
             && refs[0].column in src[refs[0].table].columns
    requires RefFits(cs, src, order, refs) && k < |src[refs[0].table].rows|
    ensures var r := refs[0];
            Admits(cs, r.table, Halfway(r.table, src[r.table].rows, StagedColumns(refs, r.table), r.column, k + 1), k)
  {
    hide Admits, StagedColumns, Materialize;
    var r := refs[0];
    assert RowsFit(cs, r.table, Halfway(r.table, src[r.table].rows, StagedColumns(refs, r.table), r.column, k + 1));
  }

  lemma RestoreRowWorks(cs: Constraints, db: Tables, src: map<string, Source>, order: seq<string>, refs: seq<Ref>,
                        k: nat)
    requires ParentsThere(cs, db) && KeysKept(cs, refs) && Integrity(cs, Expected(db, src, order))
    requires refs != [] && StagingOk(refs) && refs[0].table in order && refs[0].table in src && refs[0].table in db
    requires k < |src[refs[0].table].rows|
    requires IdentifiedColumn(src[refs[0].table].rows, refs[0].column, |src[refs[0].table].rows|)
    requires refs[0].column in src[refs[0].table].columns && RefFits(cs, src, order, refs)
    ensures var r := refs[0];
            var rows := src[r.table].rows;
            var half := Halfway(r.table, rows, StagedColumns(refs, r.table), r.column, k);
            var d := Filled(db, src, order, refs)[r.table := half];
            RestoreRow(cs, d, r, rows[k]).Some?
  {
    var r := refs[0];
    var rows, columns := src[r.table].rows, StagedColumns(refs, r.table);
    InStaged(refs, r.table);
    FirstIsPlain(refs);
    if At(rows[k], r.column) != Null {
      OnlyOneMatches(r, rows, columns, k);
      UpdatesOne(r, rows, columns, k);
      UpdatePasses(cs, db, src, order, refs, r.table, r.column, k);
      AdmittedAt(cs, src, order, refs, k);
      hide *;
      RowWorks(cs, Filled(db, src, order, refs), r, Halfway(r.table, rows, columns, r.column, k),
               Halfway(r.table, rows, columns, r.column, k + 1), rows[k], k);
    }
  }

  lemma {:induction false} RestoreColumnWorks(cs: Constraints, db: Tables, src: map<string, Source>,
                                              order: seq<string>, refs: seq<Ref>, k: nat)
    requires ParentsThere(cs, db) && KeysKept(cs, refs) && Integrity(cs, Expected(db, src, order))
    requires refs != [] && StagingOk(refs) && refs[0].table in order && refs[0].table in src && refs[0].table in db
    requires k <= |src[refs[0].table].rows|
    requires IdentifiedColumn(src[refs[0].table].rows, refs[0].column, |src[refs[0].table].rows|)
    requires refs[0].column in src[refs[0].table].columns && RefFits(cs, src, order, refs)
    ensures RestoreColumn(cs, Filled(db, src, order, refs), refs[0], src[refs[0].table].rows[..k]).Some?
  {
    hide Halfway, RestoreRow, Plain, StagedColumns, Integrity, KeysKept, IdentifiedColumn, Cleared, RefFits;
    if k > 0 {
      var r := refs[0];
      var rows, columns := src[r.table].rows, StagedColumns(refs, r.table);
      assert rows[..k][..k - 1] == rows[..k - 1];
      RestoreColumnWorks(cs, db, src, order, refs, k - 1);
      HalfwayEnds(r.table, rows, columns, r.column);
      InStaged(refs, r.table);
      FirstIsPlain(refs);
      RestoreColumnIs(cs, Filled(db, src, order, refs), r, rows, columns, k - 1);
      RestoreRowWorks(cs, db, src, order, refs, k - 1);
    }
  }

  lemma {:induction false} RestoreAllWorks(cs: Constraints, db: Tables, src: map<string, Source>, order: seq<string>,
                                           refs: seq<Ref>)
    requires ParentsThere(cs, db) && KeysKept(cs, refs) && Integrity(cs, Expected(db, src, order))
    requires StagingOk(refs) && SourceOk(src) && Ready(db, order) && Identified(src, order, refs)
    requires RestoresFit(cs, src, order, refs)
    ensures RestoreAll(cs, Filled(db, src, order, refs), src, order, refs).Some?
    decreases |refs|
  {
    hide Filled, RestoreColumn, Integrity, StagingOk, IdentifiedColumn, SourceOk, ParentsThere, Expected, RefFits;
    if refs != [] {
      var r := refs[0];
      if r.table in order && r.table in src && r.column in src[r.table].columns {
        assert src[r.table].rows[..|src[r.table].rows|] == src[r.table].rows;
        RestoreColumnWorks(cs, db, src, order, refs, |src[r.table].rows|);
      }
      RestoreRefIs(cs, db, src, order, refs);
      Fewer(refs);
      assert forall x :: x in refs[1..] ==> x in refs;
      RestoreAllWorks(cs, db, src, order, refs[1..]);
    }
  }

  // ---------------------------------------------------------------- the theorem

  /** The target schema: parents exist, referenced columns are not staged, tables are listed parents first. */
  predicate Schema(cs: Constraints, db: Tables, order: seq<string>, staged: seq<Ref>) {
    ParentsThere(cs, db) && KeysKept(cs, staged) && OrderOk(cs, order, staged) && NoRepeats(order)
  }

  /** What the source must satisfy: its materialized rows respect every foreign key, they are acceptable and collide in
      no unique key at any stage of the copy, and every staged reference sits in a row its id identifies. */
  predicate Copyable(cs: Constraints, db: Tables, src: map<string, Source>, order: seq<string>, staged: seq<Ref>) {
    Integrity(cs, Expected(db, src, order)) && Identified(src, order, staged)
    && InsertsFit(cs, src, order, staged) && RestoresFit(cs, src, order, staged)
  }

  lemma CopyNeedsSound(cs: Constraints, db: Tables, src: map<string, Source>, order: seq<string>, staged: seq<Ref>)
    requires StagingOk(staged) && SourceOk(src) && Schema(cs, db, order, staged) && Sound(cs, db)
    requires Copy(cs, db, src, order, staged).Some?
    ensures Copyable(cs, db, src, order, staged) && Sound(cs, Expected(db, src, order))
  {
    hide CopyAll, RestoreAll, StagingOk, Expected, Sound, Identified, InsertsFit, RestoresFit;
    CopyIsExact(cs, db, src, order, staged);
    CopyAllKeeps(cs, db, src, order, staged);
    CopyAllIs(cs, db, src, order, staged);
    var d := CopyAll(cs, db, src, order, staged).value;
    RestoreAllKeeps(cs, d, src, order, staged);
    AllIdentified(cs, db, src, order, staged);
    FilledFits(cs, db, src, order, staged);
    AllFit(cs, db, src, order, staged);
    SoundIsIntegrity(cs, Expected(db, src, order));
  }

  lemma SoundIsIntegrity(cs: Constraints, db: Tables)
    requires Sound(cs, db)
    ensures Integrity(cs, db)
  {
  }

  /** Into empty tables, for any order in which unstaged references point backwards, the copy succeeds exactly when the
      source is copyable in this sense, whatever the target's unique keys and row checks are. */
  lemma CopySucceedsExactly(cs: Constraints, db: Tables, src: map<string, Source>, order: seq<string>, staged: seq<Ref>)
    requires StagingOk(staged) && SourceOk(src) && Schema(cs, db, order, staged) && Sound(cs, db)
    ensures Copy(cs, db, src, order, staged).Some? <==> Ready(db, order) && Copyable(cs, db, src, order, staged)
  {
    hide CopyAll, RestoreAll, StagingOk, Expected, Integrity, Identified, Ready, SourceOk, Sound, InsertsFit,
      RestoresFit;
    if Copy(cs, db, src, order, staged).Some? {
      CopyNeedsSound(cs, db, src, order, staged);
    }
    if Ready(db, order) && Copyable(cs, db, src, order, staged) {
      assert order[..|order|] == order;
      CopyAllWorks(cs, db, src, order, |order|, staged);
      CopyAllIs(cs, db, src, order, staged);
      RestoreAllWorks(cs, db, src, order, staged);
    }
  }

  /** Two rows that collide in a unique key of the target make the copy fail, also where the source file allows them. */
  lemma CollidingRowsFail(cs: Constraints, db: Tables, src: map<string, Source>, order: seq<string>, staged: seq<Ref>,
                          j: nat, i: nat, k: nat)
    requires StagingOk(staged) && SourceOk(src) && Schema(cs, db, order, staged) && Sound(cs, db)
    requires j < |cs.uniques| && cs.uniques[j].table in order && cs.uniques[j].table in src
    requires i < k < |src[cs.uniques[j].table].rows|
    requires var t := cs.uniques[j].table;
             Collide(cs.uniques[j], Materialize(t, src[t].rows[i]), Materialize(t, src[t].rows[k]))
    ensures Copy(cs, db, src, order, staged).None?
  {
    hide Copy, StagingOk, SourceOk, Schema, Materialize, Collide, Copyable;
    if Copy(cs, db, src, order, staged).Some? {
      CopyNeedsSound(cs, db, src, order, staged);
      CopyIsReady(cs, db, src, order, staged);
      ExpectedFits(cs, db, src, order, cs.uniques[j].table);
      NoCollision(cs, MaterializedRows(cs.uniques[j].table, src[cs.uniques[j].table].rows), j, i, k);
    }
  }

  lemma CopyIsReady(cs: Constraints, db: Tables, src: map<string, Source>, order: seq<string>, staged: seq<Ref>)
    requires Copy(cs, db, src, order, staged).Some?
    ensures Ready(db, order)
  {
  }

  lemma NoCollision(cs: Constraints, rows: seq<Row>, j: nat, i: nat, k: nat)
    requires j < |cs.uniques| && RowsFit(cs, cs.uniques[j].table, rows) && i < k < |rows|
    ensures !Collide(cs.uniques[j], rows[i], rows[k])
  {
    hide Collide;
    assert Admits(cs, cs.uniques[j].table, rows, i);
    assert Compatible(cs, cs.uniques[j].table, rows[i], rows[k]);
  }

  /** The partial unique index on open project invitations, which a DuckDB file does not have. */
  function OpenInvitations(): UniqueKey {
    UniqueKey("project_invitations", ["project_id", "employee_id"],
              (row: Row) => At(row, "status") in {Text("PENDING_ACCOUNT"), Text("PENDING_APPROVAL"), Text("READY")})
  }

  /** Two READY invitations of one employee to one project. */
  lemma DoubleInvitationCollides(a: Row, b: Row, project: string, employee: string)
    requires At(a, "project_id") == At(b, "project_id") == Text(project)
    requires At(a, "employee_id") == At(b, "employee_id") == Text(employee)
    requires At(a, "status") == At(b, "status") == Text("READY")
    ensures Collide(OpenInvitations(), Materialize("project_invitations", a), Materialize("project_invitations", b))
  {
    assert Materialize("project_invitations", a) == a && Materialize("project_invitations", b) == b;
    hide Materialize;
    var columns := ["project_id", "employee_id"];
    assert KeyOf(a, columns) == [Text(project), Text(employee)] == KeyOf(b, columns);
  }

  // ---------------------------------------------------------------- schemas that do not look at staged columns

  /** Clearing staged columns makes no row unacceptable and brings no row under a unique key. */
  ghost predicate Lenient(cs: Constraints, staged: seq<Ref>) {
    (forall t, row: Row, columns ::
       columns <= StagedColumns(staged, t) && cs.accepts(t, row) ==> cs.accepts(t, NullOut(row, columns)))
    && forall j, row: Row, columns ::
         (0 <= j < |cs.uniques| && columns <= StagedColumns(staged, cs.uniques[j].table)
          && cs.uniques[j].covers(NullOut(row, columns))) ==> cs.uniques[j].covers(row)
  }

  lemma ClearedKey(row: Row, columns: set<string>, key: seq<string>)
    requires Null !in KeyOf(NullOut(row, columns), key)
    ensures KeyOf(NullOut(row, columns), key) == KeyOf(row, key)
  {
    forall i | 0 <= i < |key| ensures At(NullOut(row, columns), key[i]) == At(row, key[i]) {
      assert KeyOf(NullOut(row, columns), key)[i] != Null;
    }
  }

  lemma ClearedCompatible(cs: Constraints, staged: seq<Ref>, t: string, a: Row, b: Row, p: set<string>, q: set<string>)
    requires Lenient(cs, staged) && Compatible(cs, t, a, b)
    requires p <= StagedColumns(staged, t) && q <= StagedColumns(staged, t)
    ensures Compatible(cs, t, NullOut(a, p), NullOut(b, q))
  {
    hide NullOut, KeyOf, StagedColumns;
    forall j | 0 <= j < |cs.uniques| && cs.uniques[j].table == t
      ensures !Collide(cs.uniques[j], NullOut(a, p), NullOut(b, q))
    {
      var u := cs.uniques[j];
      if Collide(u, NullOut(a, p), NullOut(b, q)) {
        CollisionStays(u, a, b, p, q);
      }
    }
  }

  lemma CollisionStays(u: UniqueKey, a: Row, b: Row, p: set<string>, q: set<string>)
    requires Collide(u, NullOut(a, p), NullOut(b, q))
    requires u.covers(NullOut(a, p)) ==> u.covers(a)
    requires u.covers(NullOut(b, q)) ==> u.covers(b)
    ensures Collide(u, a, b)
  {
    ClearedKey(a, p, u.columns);
    ClearedKey(b, q, u.columns);
  }

  /** Rows that fit still fit with any staged columns cleared in any of them. */
  lemma ClearedFits(cs: Constraints, staged: seq<Ref>, t: string, whole: seq<Row>, rows: seq<Row>,
                    cleared: seq<set<string>>)
    requires Lenient(cs, staged) && RowsFit(cs, t, whole) && |rows| == |whole| == |cleared|
    requires forall i :: 0 <= i < |rows| ==>
               cleared[i] <= StagedColumns(staged, t) && rows[i] == NullOut(whole[i], cleared[i])
    ensures RowsFit(cs, t, rows)
  {
    hide NullOut, StagedColumns, Compatible;
    forall i | 0 <= i < |rows| ensures Admits(cs, t, rows, i) {
      assert Admits(cs, t, whole, i);
      forall k | 0 <= k < |rows| && k != i ensures Compatible(cs, t, rows[i], rows[k]) {
        ClearedCompatible(cs, staged, t, whole[i], whole[k], cleared[i], cleared[k]);
      }
    }
  }

  lemma LaterStaged(staged: seq<Ref>, n: nat, t: string)
    requires n <= |staged|
    ensures StagedColumns(staged[n..], t) <= StagedColumns(staged, t)
  {
    forall c | c in StagedColumns(staged[n..], t) ensures c in StagedColumns(staged, t) {
      var r :| r in staged[n..] && r.table == t && r.column == c;
      assert r in staged;
    }
  }

  lemma ExpectedFits(cs: Constraints, db: Tables, src: map<string, Source>, order: seq<string>, t: string)
    requires Sound(cs, Expected(db, src, order)) && Ready(db, order) && t in order && t in src
    ensures RowsFit(cs, t, MaterializedRows(t, src[t].rows))
  {
    hide Integrity, RowsFit, Materialize;
    assert t in Expected(db, src, order);
  }

  lemma LenientInserts(cs: Constraints, db: Tables, src: map<string, Source>, order: seq<string>, staged: seq<Ref>)
    requires Lenient(cs, staged) && Sound(cs, Expected(db, src, order)) && Ready(db, order)
    ensures InsertsFit(cs, src, order, staged)
  {
    hide RowsFit, Sound, Expected, Materialize, NullOut, StagedColumns, Lenient, Ready;
    forall t | t in order && t in src ensures RowsFit(cs, t, Cleared(t, src[t].rows, StagedColumns(staged, t))) {
      ExpectedFits(cs, db, src, order, t);
      var n := |src[t].rows|;
      ClearedFits(cs, staged, t, MaterializedRows(t, src[t].rows), Cleared(t, src[t].rows, StagedColumns(staged, t)),
                  seq(n, i => StagedColumns(staged, t)));
    }
  }

  lemma {:induction false} LenientRestores(cs: Constraints, db: Tables, src: map<string, Source>, order: seq<string>,
                                           staged: seq<Ref>, n: nat)
    requires Lenient(cs, staged) && Sound(cs, Expected(db, src, order)) && Ready(db, order) && n <= |staged|
    ensures RestoresFit(cs, src, order, staged[n..])
    decreases |staged| - n
  {
    hide RowsFit, Sound, Expected, Materialize, NullOut, StagedColumns, Lenient, Ready;
    if n < |staged| {
      var refs := staged[n..];
      assert refs[1..] == staged[n + 1..];
      LenientRestores(cs, db, src, order, staged, n + 1);
      var r := refs[0];
      if r.table in order && r.table in src {
        var rows, columns := src[r.table].rows, StagedColumns(refs, r.table);
        ExpectedFits(cs, db, src, order, r.table);
        LaterStaged(staged, n, r.table);
        forall k | 0 <= k <= |rows| ensures RowsFit(cs, r.table, Halfway(r.table, rows, columns, r.column, k)) {
          ClearedFits(cs, staged, r.table, MaterializedRows(r.table, rows),
                      Halfway(r.table, rows, columns, r.column, k),
                      seq(|rows|, i => if i < k then columns - {r.column} else columns));
        }
      }
    }
  }

  /** For such schemas the intermediate stages need no attention: the copy succeeds exactly when the target may hold the
      materialized source at all and every staged reference sits in a row its id identifies. */
  lemma CopySucceedsLenient(cs: Constraints, db: Tables, src: map<string, Source>, order: seq<string>, staged: seq<Ref>)
    requires StagingOk(staged) && SourceOk(src) && Schema(cs, db, order, staged) && Sound(cs, db) && Lenient(cs, staged)
    ensures Copy(cs, db, src, order, staged).Some?
       <==> Ready(db, order) && Sound(cs, Expected(db, src, order)) && Identified(src, order, staged)
  {
    hide Copy, StagingOk, Expected, Integrity, Identified, Ready, SourceOk, InsertsFit, RestoresFit, Lenient, Sound;
    CopySucceedsExactly(cs, db, src, order, staged);
    if Copy(cs, db, src, order, staged).Some? {
      CopyNeedsSound(cs, db, src, order, staged);
    }
    if Ready(db, order) && Sound(cs, Expected(db, src, order)) {
      SoundIsIntegrity(cs, Expected(db, src, order));
      LenientInserts(cs, db, src, order, staged);
      LenientRestores(cs, db, src, order, staged, 0);
      assert staged[0..] == staged;
    }
  }
}
