/** Copying every table of a DuckDB file into an empty PostgreSQL schema whose references form cycles. */
module CopyModel {

  datatype Option<+T> = None | Some(value: T)

  datatype Value = Null | Flag(flag: bool) | Num(num: int) | Text(text: string)

  type Row = map<string, Value>
  type Tables = map<string, seq<Row>>

  function At(row: Row, column: string): Value { if column in row then row[column] else Null }

  /** A source table; every row has exactly its columns. */
  datatype Source = Source(columns: set<string>, rows: seq<Row>) {
    predicate Valid() { forall row :: row in rows ==> row.Keys == columns }
  }

  /** A reference that is inserted as NULL and restored once every table is there. */
  datatype Ref = Ref(table: string, column: string)

  const STAGED: seq<Ref> := [
    Ref("media_assets", "blob_id"),
    Ref("request_work_items", "demo_run_id"),
    Ref("workflow_runs", "batch_attempt_id"),
    Ref("batch_execution_attempts", "workflow_run_id"),
    Ref("batch_dispatches", "attempt_id")
  ]

  // ---------------------------------------------------------------- the canonical row

  /** Columns an older file may lack, with the value they then stand for. */
  function Defaults(table: string): map<string, Value> {
    if table == "request_steps" then map["is_optional" := Flag(false)]
    else if table == "media_assets" then map["blob_id" := Null, "original_filename" := Null]
    else if table == "request_work_items" then
      map["progress" := Num(0), "progress_updated_by" := Null, "progress_updated_at" := Null, "demo_run_id" := Null]
    else if table == "workflow_runs" then map["batch_attempt_id" := Null]
    else if table == "batch_dispatches" then map["attempt_id" := Null]
    else if table == "batch_execution_attempts" then
      map["recovery_lease_owner_id" := Null, "recovery_lease_token" := Null, "recovery_lease_generation" := Num(0),
          "recovery_lease_acquired_at" := Null, "recovery_lease_expires_at" := Null]
    else if table == "folder_import_jobs" then
      map["source_type" := Null, "source_checksum" := Null, "source_run_id" := Null, "conflict_policy" := Null,
          "outcome_reason" := Null, "replaced_analysis_run_id" := Null, "completed_at" := Null]
    else if table == "batch_path_profiles" then
      map["version" := Num(1), "task_type_id" := Null, "task_type_version" := Num(1)]
    else if table == "batch_path_profile_versions" then map["task_type_id" := Null, "task_type_version" := Num(1)]
    else map[]
  }

  function Lower(s: string): string {
    seq(|s|, i requires 0 <= i < |s| => if 'A' <= s[i] <= 'Z' then (s[i] as int + 32) as char else s[i])
  }

  predicate SaysOptional(v: Value) { v.Text? && (Lower(v.text) == "true" || Lower(v.text) == "false") }

  /** Old request steps kept the optional flag in the blocked reason. */
  function NormalizeStep(row: Row): Row {
    var reason := At(row, "blocked_reason");
    var moved :=
      if SaysOptional(reason) then
        var flagged := if At(row, "is_optional") == Null then row["is_optional" := Flag(Lower(reason.text) == "true")]
          else row;
        flagged["blocked_reason" := Null]
      else row;
    if At(moved, "is_optional") == Null then moved["is_optional" := Flag(false)] else moved
  }

  function NormalizeItem(row: Row): Row {
    if "progress" in row then row
    else row["progress" := if At(row, "status") == Text("COMPLETED") then Num(100) else Num(0)]
  }

  function Normalize(table: string, row: Row): Row {
    if table == "request_steps" then NormalizeStep(row)
    else if table == "request_work_items" then NormalizeItem(row)
    else row
  }

  /** The row used both for the copy and for the checksums. */
  function Materialize(table: string, row: Row): Row { Defaults(table) + Normalize(table, row) }

  /** The columns a source table is copied and compared with. */
  function ComparisonColumns(table: string, columns: set<string>): set<string> { columns + Defaults(table).Keys }

  function NullOut(row: Row, columns: set<string>): Row { map c | c in row :: if c in columns then Null else row[c] }

  function StagedColumns(staged: seq<Ref>, table: string): set<string> {
    set r | r in staged && r.table == table :: r.column
  }

  function TransformRow(staged: seq<Ref>, table: string, row: Row): Row {
    NullOut(Materialize(table, row), StagedColumns(staged, table))
  }

  // ---------------------------------------------------------------- foreign keys

  datatype ForeignKey = ForeignKey(table: string, columns: seq<string>, parent: string, keys: seq<string>)

  /** A unique index or a primary key; with a filter it covers only some rows. */
  datatype UniqueKey = UniqueKey(table: string, columns: seq<string>, covers: Row -> bool)

  /** What the target schema demands: references, unique keys, and of each row by itself NOT NULL, types and CHECKs. */
  datatype Constraints = Constraints(fks: set<ForeignKey>, uniques: seq<UniqueKey>, accepts: (string, Row) -> bool)

  function KeyOf(row: Row, columns: seq<string>): seq<Value> {
    seq(|columns|, i requires 0 <= i < |columns| => At(row, columns[i]))
  }

  /** A reference with a NULL part is not checked. */
  predicate RefHolds(db: Tables, fk: ForeignKey, row: Row) {
    Null in KeyOf(row, fk.columns)
    || (fk.parent in db && exists p :: p in db[fk.parent] && KeyOf(p, fk.keys) == KeyOf(row, fk.columns))
  }

  /** The references of one row; with a column, only those that use it. */
  predicate RowHolds(cs: Constraints, db: Tables, table: string, row: Row, column: Option<string>) {
    forall fk :: fk in cs.fks && fk.table == table && (column.Some? ==> column.value in fk.columns)
      ==> RefHolds(db, fk, row)
  }

  predicate Integrity(cs: Constraints, db: Tables) {
    forall fk :: fk in cs.fks && fk.table in db ==> forall row :: row in db[fk.table] ==> RefHolds(db, fk, row)
  }

  /** Keys with a NULL part are distinct from every other. */
  predicate Collide(u: UniqueKey, a: Row, b: Row) {
    u.covers(a) && u.covers(b) && Null !in KeyOf(a, u.columns) && KeyOf(a, u.columns) == KeyOf(b, u.columns)
  }

  predicate Compatible(cs: Constraints, table: string, a: Row, b: Row) {
    forall j :: 0 <= j < |cs.uniques| && cs.uniques[j].table == table ==> !Collide(cs.uniques[j], a, b)
  }

  /** Row i is acceptable by itself and next to the others. */
  predicate Admits(cs: Constraints, table: string, rows: seq<Row>, i: nat)
    requires i < |rows|
  {
    cs.accepts(table, rows[i]) && forall k :: 0 <= k < |rows| && k != i ==> Compatible(cs, table, rows[i], rows[k])
  }

  predicate RowsFit(cs: Constraints, table: string, rows: seq<Row>) {
    forall i :: 0 <= i < |rows| ==> Admits(cs, table, rows, i)
  }

  /** The whole target satisfies its schema. */
  predicate Sound(cs: Constraints, db: Tables) { Integrity(cs, db) && forall t :: t in db ==> RowsFit(cs, t, db[t]) }

  // ---------------------------------------------------------------- statements

  /** INSERT of one row; an immediate foreign key, a unique key or the row's own checks can refuse it. */
  function InsertRow(cs: Constraints, db: Tables, table: string, row: Row): Option<Tables> {
    if table !in db then None
    else
      var rows := db[table] + [row];
      var next := db[table := rows];
      if RowHolds(cs, next, table, row, None) && Admits(cs, table, rows, |db[table]|) then Some(next) else None
  }

  function Matches(rows: seq<Row>, id: Value, column: string): set<nat> {
    set i: nat | i < |rows| && id != Null && At(rows[i], "id") == id && At(rows[i], column) == Null
  }

  function UpdateRows(rows: seq<Row>, id: Value, column: string, value: Value): seq<Row> {
    seq(|rows|, i requires 0 <= i < |rows| => if i in Matches(rows, id, column) then rows[i][column := value]
        else rows[i])
  }

  /** UPDATE of the one row with this id whose column is NULL; any other number of rows is an error. */
  function RestoreOne(cs: Constraints, db: Tables, r: Ref, id: Value, value: Value): Option<Tables> {
    if r.table !in db || |Matches(db[r.table], id, r.column)| != 1 then None
    else
      var rows := UpdateRows(db[r.table], id, r.column, value);
      var next := db[r.table := rows];
      if forall i :: i in Matches(db[r.table], id, r.column) ==>
           RowHolds(cs, next, r.table, rows[i], Some(r.column)) && Admits(cs, r.table, rows, i)
      then Some(next)
      else None
  }

  // ---------------------------------------------------------------- copy_tables and restore_staged_references

  function InsertAll(cs: Constraints, db: Tables, table: string, rows: seq<Row>): Option<Tables> {
    if rows == [] then Some(db)
    else
      match InsertAll(cs, db, table, rows[..|rows| - 1])
      case None => None
      case Some(d) => InsertRow(cs, d, table, rows[|rows| - 1])
  }

  function Transformed(staged: seq<Ref>, table: string, rows: seq<Row>): seq<Row> {
    seq(|rows|, i requires 0 <= i < |rows| => TransformRow(staged, table, rows[i]))
  }

  function CopyTable(cs: Constraints, db: Tables, src: map<string, Source>, table: string,
                     staged: seq<Ref>): Option<Tables>
  {
    if table in src then InsertAll(cs, db, table, Transformed(staged, table, src[table].rows)) else Some(db)
  }

  function CopyAll(cs: Constraints, db: Tables, src: map<string, Source>, order: seq<string>,
                   staged: seq<Ref>): Option<Tables>
  {
    if order == [] then Some(db)
    else
      match CopyAll(cs, db, src, order[..|order| - 1], staged)
      case None => None
      case Some(d) => CopyTable(cs, d, src, order[|order| - 1], staged)
  }

  function RestoreRow(cs: Constraints, db: Tables, r: Ref, row: Row): Option<Tables> {
    if At(row, r.column) == Null then Some(db) else RestoreOne(cs, db, r, At(row, "id"), At(row, r.column))
  }

  function RestoreColumn(cs: Constraints, db: Tables, r: Ref, rows: seq<Row>): Option<Tables> {
    if rows == [] then Some(db)
    else
      match RestoreColumn(cs, db, r, rows[..|rows| - 1])
      case None => None
      case Some(d) => RestoreRow(cs, d, r, rows[|rows| - 1])
  }

  function RestoreRef(cs: Constraints, db: Tables, src: map<string, Source>, order: seq<string>,
                      r: Ref): Option<Tables>
  {
    if r.table in order && r.table in src && r.column in src[r.table].columns then
      RestoreColumn(cs, db, r, src[r.table].rows)
    else Some(db)
  }

  function RestoreAll(cs: Constraints, db: Tables, src: map<string, Source>, order: seq<string>,
                      refs: seq<Ref>): Option<Tables>
    decreases |refs|
  {
    if refs == [] then Some(db)
    else
      match RestoreRef(cs, db, src, order, refs[0])
      case None => None
      case Some(d) => RestoreAll(cs, d, src, order, refs[1..])
  }

  /** Every listed table exists in the target and is empty. */
  predicate Ready(db: Tables, order: seq<string>) { forall t :: t in order ==> t in db && db[t] == [] }

  function Copy(cs: Constraints, db: Tables, src: map<string, Source>, order: seq<string>,
                staged: seq<Ref>): Option<Tables>
  {
    if !Ready(db, order) then None
    else
      match CopyAll(cs, db, src, order, staged)
      case None => None
      case Some(d) => RestoreAll(cs, d, src, order, staged)
  }
}
