/** What each storage operation does to the tables, as a function from tables to tables. */
module RunnerTables {
  import opened RunnerTypes

  // ---------------------------------------------------------------- run_events

  /** The events of one run, in insertion order. */
  function Of(events: seq<Event>, id: RunId): (r: seq<Event>)
    ensures |r| <= |events|
    ensures forall e :: e in r ==> e in events && e.runId == id
  {
    if events == [] then []
    else
      var rest := Of(events[..|events| - 1], id);
      var e := events[|events| - 1];
      if e.runId == id then rest + [e] else rest
  }

  function MaxSequence(events: seq<Event>): (m: nat)
    ensures forall e :: e in events ==> e.sequence <= m
  {
    if events == [] then 0
    else
      var m := MaxSequence(events[..|events| - 1]);
      if events[|events| - 1].sequence > m then events[|events| - 1].sequence else m
  }

  function NextSequence(events: seq<Event>, id: RunId): nat { MaxSequence(Of(events, id)) + 1 }

  predicate HasKey(events: seq<Event>, id: RunId, sequence: nat) {
    exists e :: e in events && e.runId == id && e.sequence == sequence
  }

  lemma OfAppend(events: seq<Event>, e: Event, id: RunId)
    ensures Of(events + [e], id) == if e.runId == id then Of(events, id) + [e] else Of(events, id)
  {
    assert (events + [e])[..|events|] == events;
  }

  lemma {:induction false} OfConcat(a: seq<Event>, b: seq<Event>, id: RunId)
    ensures Of(a + b, id) == Of(a, id) + Of(b, id)
  {
    if b == [] {
      assert a + b == a;
    } else {
      var n := |b| - 1;
      assert (a + b)[..|a + b| - 1] == a + b[..n];
      OfConcat(a, b[..n], id);
    }
  }

  lemma {:induction false} OfHas(events: seq<Event>, e: Event)
    requires e in events
    ensures e in Of(events, e.runId)
  {
    var n := |events| - 1;
    if e != events[n] {
      assert e in events[..n];
      OfHas(events[..n], e);
    }
  }

  // ---------------------------------------------------------------- runs

  function Actives(runs: map<RunId, Row>): set<RunId> {
    set id | id in runs && Active(runs[id].run.status)
  }

  predicate LiveTarget(runs: map<RunId, Row>, programId: string, inputPath: string) {
    exists id :: id in runs && runs[id].run.mode.Direct? && Live(runs[id].run.status)
                 && runs[id].run.program.id == programId && runs[id].run.inputPath == inputPath
  }

  predicate Known(runs: map<RunId, Row>, ids: seq<RunId>) { forall i :: 0 <= i < |ids| ==> ids[i] in runs }

  function Fetch(runs: map<RunId, Row>, ids: seq<RunId>): (r: seq<Run>)
    requires Known(runs, ids)
    ensures |r| == |ids| && forall i :: 0 <= i < |ids| ==> r[i] == runs[ids[i]].run
  {
    seq(|ids|, i requires 0 <= i < |ids| => runs[ids[i]].run)
  }

  datatype Reply = Reply(runs: seq<Run>, reused: bool)

  /** The tables after a transaction and what the caller gets: an error leaves the tables as they were. */
  datatype Commit<+T> = Commit(db: Db, reply: Result<T>)

  function NewRun(id: RunId, source: Option<RunId>, batch: nat, mode: Mode, program: Program, item: Item,
                  context: Context, now: int): Run
  {
    Run(id, source, if mode.Batch? then Some(batch) else None, mode, Queued, program,
        item.inputPath, item.workingDirectory, now, None, None, None, None, None, context)
  }

  function NewRuns(req: RunCreate, program: Program, ids: seq<RunId>, batch: nat, now: int): (r: seq<Run>)
    requires |ids| == |req.items|
    ensures |r| == |ids|
    ensures forall i :: 0 <= i < |ids| ==>
              r[i] == NewRun(ids[i], None, batch, req.mode, program, req.items[i], req.context, now)
  {
    seq(|ids|, i requires 0 <= i < |ids| => NewRun(ids[i], None, batch, req.mode, program, req.items[i], req.context,
                                                   now))
  }

  // A new row or a new first event would hit an existing primary key.
  predicate RowClash(runs: map<RunId, Row>, ids: seq<RunId>) {
    exists i :: 0 <= i < |ids| && (ids[i] in runs || ids[i] in ids[..i])
  }

  predicate EventClash(events: seq<Event>, ids: seq<RunId>) {
    exists i :: 0 <= i < |ids| && HasKey(events, ids[i], 1)
  }

  predicate Clash(db: Db, ids: seq<RunId>) { RowClash(db.runs, ids) || EventClash(db.events, ids) }

  function InsertRow(db: Db, run: Run, grant: string): Db {
    db.(runs := db.runs[run.id := Row(run, Some(grant), |db.runs|)],
        events := db.events + [Event(run.id, 1, grant, run)])
  }

  /** Insert queued runs with their grant and first event, one after another. */
  function Insert(db: Db, added: seq<Run>, grant: string): Db {
    if added == [] then db
    else
      InsertRow(Insert(db, added[..|added| - 1], grant), added[|added| - 1], grant)
  }

  function Replay(db: Db, key: string, asked: Fingerprint): Result<Option<seq<Run>>> {
    if key !in db.requests then Ok(None)
    else if db.requests[key].asked != asked then Err(KeyReused)
    else if !Known(db.runs, db.requests[key].ids) then Err(RunMissing)
    else Ok(Some(Fetch(db.runs, db.requests[key].ids)))
  }

  function CreateRuns(db: Db, host: string, req: RunCreate, grant: Option<string>,
                      ids: seq<RunId>, batch: nat, now: int): Commit<Reply>
    requires |ids| == |req.items| >= 1
  {
    match Replay(db, req.key, PrintOf(req))
    case Err(e) => Commit(db, Err(e))
    case Ok(Some(runs)) => Commit(db, Ok(Reply(runs, true)))
    case Ok(None) =>
      if |Actives(db.runs)| + |req.items| > QUEUE_LIMIT then Commit(db, Err(QueueFull))
      else if req.mode.Direct? && LiveTarget(db.runs, req.programId, req.items[0].inputPath) then
        Commit(db, Err(DuplicateDirect))
      else if req.programId !in db.programs || db.programs[req.programId].hostId != host then
        Commit(db, Err(ProgramMissing))
      else if RowClash(db.runs, ids) then Commit(db, Err(PrimaryKeyTaken))
      else if grant.None? then Commit(db, Err(GrantMissing))
      else if EventClash(db.events, ids) then Commit(db, Err(PrimaryKeyTaken))
      else
        var added := NewRuns(req, Snapshot(req.programId, db.programs[req.programId]), ids, batch, now);
        var d := Insert(db, added, grant.value);
        Commit(d.(requests := d.requests[req.key := Record(PrintOf(req), ids)]), Ok(Reply(added, false)))
  }

  function RetryOf(source: Run, id: RunId, batch: nat, context: Option<Context>, now: int): Run {
    NewRun(id, Some(source.id), batch, source.mode, source.program, Item(source.inputPath, source.workingDirectory),
           if context.Some? then context.value else source.context, now)
  }

  function RetryRun(db: Db, host: string, source: RunId, key: string, grant: Option<string>,
                    context: Option<Context>, id: RunId, batch: nat, now: int): Commit<Reply>
  {
    match Replay(db, key, RetryPrint(source))
    case Err(e) => Commit(db, Err(e))
    case Ok(Some(runs)) => Commit(db, Ok(Reply(runs, true)))
    case Ok(None) =>
      if source !in db.runs then Commit(db, Err(RunMissing))
      else
        var was := db.runs[source].run;
        if !Retryable(was.status) then Commit(db, Err(NotRetryable))
        else if was.program.hostId != host then Commit(db, Err(ForeignHost))
        else if |Actives(db.runs)| >= QUEUE_LIMIT then Commit(db, Err(QueueFull))
        else if was.mode.Direct? && LiveTarget(db.runs, was.program.id, was.inputPath) then
          Commit(db, Err(DuplicateDirect))
        else if RowClash(db.runs, [id]) then Commit(db, Err(PrimaryKeyTaken))
        else if grant.None? then Commit(db, Err(GrantMissing))
        else if EventClash(db.events, [id]) then Commit(db, Err(PrimaryKeyTaken))
        else
          var run := RetryOf(was, id, batch, context, now);
          var d := Insert(db, [run], grant.value);
          Commit(d.(requests := d.requests[key := Record(RetryPrint(source), [id])]), Ok(Reply([run], false)))
  }

  /** Queue one more event for a run that has a grant. */
  function Enqueue(db: Db, run: Run, grant: Option<string>): Db {
    if grant.None? then db
    else db.(events := db.events + [Event(run.id, NextSequence(db.events, run.id), grant.value, run)])
  }

  /** Replace a run's row and queue its snapshot, in one commit. */
  function Advance(db: Db, id: RunId, run: Run): Db
    requires id in db.runs
  {
    Enqueue(db.(runs := db.runs[id := db.runs[id].(run := run)]), run, db.runs[id].grant)
  }

  function Transitioned(run: Run, status: Status, exitCode: Option<int>, error: Option<string>, now: int): Run {
    run.(status := status,
         startedAt := if status.Running? && run.startedAt.None? then Some(now) else run.startedAt,
         completedAt := if Active(status) then None else Some(now),
         exitCode := exitCode, error := error)
  }

  function TransitionRun(db: Db, id: RunId, status: Status, exitCode: Option<int>, error: Option<string>,
                         now: int): Commit<Run>
  {
    if id !in db.runs then Commit(db, Err(RunMissing))
    else
      var run := Transitioned(db.runs[id].run, status, exitCode, error, now);
      Commit(Advance(db, id, run), Ok(run))
  }

  predicate ExecutorStatus(s: Status) { s.AwaitingCompletion? || s.Succeeded? || s.Failed? || s.Interrupted? }

  function MarkFinished(db: Db, id: RunId, status: Status, exitCode: Option<int>, error: Option<string>,
                        now: int): Commit<Run>
  {
    if !ExecutorStatus(status) then Commit(db, Err(NotAnExecutorStatus))
    else TransitionRun(db, id, status, exitCode, error, now)
  }

  function CompleteDirect(db: Db, id: RunId, note: string, now: int): Commit<Run> {
    if id !in db.runs then Commit(db, Err(RunMissing))
    else
      var was := db.runs[id].run;
      if !was.mode.Direct? || !was.status.AwaitingCompletion? then Commit(db, Err(NotAwaiting))
      else
        var run := was.(status := Completed, note := Some(note), completedAt := Some(now));
        Commit(Advance(db, id, run), Ok(run))
  }

  // ---------------------------------------------------------------- restart

  const RESTART_ERROR := "helper restarted; run state unknown"

  function InterruptedRun(run: Run, now: int): Run {
    if !Active(run.status) then run
    else run.(status := Interrupted, completedAt := Some(now),
              error := if run.error.None? then Some(RESTART_ERROR) else run.error)
  }

  /** The bulk UPDATE of a restart. */
  function InterruptActive(db: Db, now: int): Db {
    db.(runs := map id | id in db.runs :: db.runs[id].(run := InterruptedRun(db.runs[id].run, now)))
  }

  predicate Present(events: seq<Event>, run: Run) {
    exists e :: e in events && e.runId == run.id && e.run == run
  }

  function ReconcileOne(db: Db, id: RunId): Db
    requires id in db.runs
  {
    var row := db.runs[id];
    if Present(db.events, row.run) then db else Enqueue(db, row.run, row.grant)
  }

  function Reconcile(db: Db, todo: seq<RunId>): (d: Db)
    requires Known(db.runs, todo)
    ensures d == db.(events := d.events)
  {
    if todo == [] then db
    else
      var d := Reconcile(db, todo[..|todo| - 1]);
      ReconcileOne(d, todo[|todo| - 1])
  }

  /** Some order of the rows the recovery query selects. */
  ghost predicate ListsGranted(runs: map<RunId, Row>, todo: seq<RunId>) {
    Known(runs, todo) && forall id :: id in todo <==> id in runs && runs[id].grant.Some?
  }

  // ---------------------------------------------------------------- outbox delivery

  predicate Before(a: Event, b: Event) { a.runId < b.runId || (a.runId == b.runId && a.sequence <= b.sequence) }

  function Place(e: Event, sorted: seq<Event>): (r: seq<Event>)
    ensures |r| == |sorted| + 1
  {
    if sorted == [] || Before(e, sorted[0]) then [e] + sorted else [sorted[0]] + Place(e, sorted[1..])
  }

  /** Unsent events ORDER BY run_id, sequence. */
  function Unsent(events: seq<Event>, sent: set<(RunId, nat)>): (r: seq<Event>)
    ensures |r| <= |events|
  {
    if events == [] then []
    else
      var e := events[0];
      if (e.runId, e.sequence) in sent then Unsent(events[1..], sent) else Place(e, Unsent(events[1..], sent))
  }

  function Pending(db: Db, limit: nat): (r: seq<Event>)
    ensures |r| <= limit
  {
    var all := Unsent(db.events, db.sent);
    if |all| <= limit then all else all[..limit]
  }

  function PendingCount(db: Db): nat { |Unsent(db.events, db.sent)| }

  function KeysOf(batch: seq<Event>): (r: seq<(RunId, nat)>)
    ensures |r| == |batch| && forall i :: 0 <= i < |batch| ==> r[i] == (batch[i].run.id, batch[i].sequence)
  {
    seq(|batch|, i requires 0 <= i < |batch| => (batch[i].run.id, batch[i].sequence))
  }

  function MarkSent(db: Db, accepted: seq<(RunId, nat)>): Db {
    db.(sent := db.sent + set k | k in accepted && HasKey(db.events, k.0, k.1))
  }
}
