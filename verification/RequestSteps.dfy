/** Creating, retrying and completing runs keep the system invariant. */
module RequestSteps {
  import opened RunnerTypes
  import opened RunnerTables
  import opened Central
  import opened RunnerSystem
  import opened HistoryInvariant
  import opened OutboxInvariant
  import opened DeliveryInvariant
  import opened OwnerInvariant
  import opened SystemInvariant

  lemma FreshIds(db: Db, added: seq<Run>, ids: seq<RunId>)
    requires !Clash(db, ids) && |added| == |ids|
    requires forall i :: 0 <= i < |ids| ==> added[i].id == ids[i] && added[i].status.Queued?
    ensures Newcomers(db, added) && Distinct(ids)
  {
    forall i, j | 0 <= i < j < |ids| ensures ids[i] != ids[j] {
      assert ids[..j][i] == ids[i];
    }
  }

  lemma RowsAdded(db: Db, added: seq<Run>, grant: string)
    requires Newcomers(db, added)
    ensures var d := Insert(db, added, grant);
            (forall id :: id in db.runs ==> id in d.runs && d.runs[id] == db.runs[id])
            && (forall i :: 0 <= i < |added| ==> added[i].id in d.runs && d.runs[added[i].id].run == added[i])
  {
    InsertExtends(db, added, grant);
  }

  /** What a request adds: queued runs under fresh ids, answering to its record. */
  ghost predicate NewWork(db: Db, added: seq<Run>, rec: Record, context: Context, direct: bool) {
    |added| == |rec.ids| >= 1 && !Clash(db, rec.ids)
    && (forall i :: 0 <= i < |added| ==>
         added[i].id == rec.ids[i] && added[i].status.Queued? && added[i].context == context
         && added[i].mode.Direct? == direct)
    && |Actives(db.runs)| + |added| <= QUEUE_LIMIT
    && (direct ==> |added| == 1 && !LiveTarget(db.runs, added[0].program.id, added[0].inputPath))
    && (forall i :: 0 <= i < |added| && added[i].source.Some? ==>
         added[i].source.value in db.runs && Retryable(db.runs[added[i].source.value].run.status)
         && SameWork(db.runs[added[i].source.value].run, added[i]))
  }

  lemma CommittedTables(db: Db, added: seq<Run>, grant: string, context: Context, key: string, rec: Record,
                        direct: bool)
    requires OutboxOk(db, {}) && HistoryOk(db) && NewWork(db, added, rec, context, direct) && key !in db.requests
    requires RecordOk(Insert(db, added, grant).runs, key, rec)
    ensures var d := Insert(db, added, grant).(requests := db.requests[key := rec]); OutboxOk(d, {}) && HistoryOk(d)
  {
    hide OutboxOk, HistoryOk, RecordOk, SameWork, LiveTarget, RowClash, EventClash;
    FreshIds(db, added, rec.ids);
    NewHistory(db, added, grant, key, rec);
    AddedOutbox(db, added, grant, Insert(db, added, grant).(requests := db.requests[key := rec]));
  }

  lemma CommittedTasks(db: Db, tasks: map<string, Task>, added: seq<Run>, grant: string, context: Context,
                       key: string, rec: Record, direct: bool)
    requires NewWork(db, added, rec, context, direct) && key !in db.requests
    requires forall k :: k in tasks ==> TaskOk(db, k, tasks[k])
    ensures var d := Insert(db, added, grant).(requests := db.requests[key := rec]);
            var later := tasks[key := Task(rec.ids, 0, direct, Waiting)];
            forall k :: k in later ==> TaskOk(d, k, later[k])
    ensures |SlotHolders(tasks[key := Task(rec.ids, 0, direct, Waiting)])| <= |SlotHolders(tasks)|
  {
    hide TaskOk, SameWork, LiveTarget, RowClash, EventClash, Actives, Newcomers;
    var d := Insert(db, added, grant).(requests := db.requests[key := rec]);
    var later := tasks[key := Task(rec.ids, 0, direct, Waiting)];
    FreshIds(db, added, rec.ids);
    RowsAdded(db, added, grant);
    FewerHolders(tasks, later);
    forall k | k in later ensures TaskOk(d, k, later[k]) {
      if k == key {
        NewTask(d, added, key, rec, direct);
      } else {
        Keyed(db, k, tasks[k]);
        OldTask(db, d, k, tasks[k]);
      }
    }
  }

  lemma Keyed(db: Db, key: string, t: Task)
    requires TaskOk(db, key, t)
    ensures key in db.requests
  {
  }

  lemma CommittedDelivery(s: System, added: seq<Run>, grant: string, context: Context, rec: Record, direct: bool, d: Db)
    requires DeliveryOk(s) && NewWork(s.db, added, rec, context, direct) && Approved(s.server, grant, context)
    requires d.events == Insert(s.db, added, grant).events && d.sent == s.db.sent
    ensures ServerOk(d.events, s.server) && SentOk(d.events, d.sent, s.server) && SyncsOk(d, s.server, s.syncs)
  {
    hide ServerOk, SentOk, SyncsOk, Granted, Approved, RowClash, EventClash, LiveTarget, SameWork;
    InsertGranted(s.db, s.server, added, grant, context);
    DeliveryStays(s.db, d, s.server, s.syncs);
  }

  /** The commit of a new request: its runs and its record, with everything older untouched. */
  lemma Committed(s: System, added: seq<Run>, grant: string, context: Context, key: string, rec: Record, direct: bool)
    requires SystemOk(s) && s.life.Up? && key !in s.db.requests && Approved(s.server, grant, context)
    requires NewWork(s.db, added, rec, context, direct) && RecordOk(Insert(s.db, added, grant).runs, key, rec)
    ensures SystemOk(s.(db := Insert(s.db, added, grant).(requests := s.db.requests[key := rec]),
                        tasks := s.tasks[key := Task(rec.ids, 0, direct, Waiting)]))
  {
    hide OutboxOk, HistoryOk, RecordOk, TaskOk, ServerOk, SentOk, SyncsOk, NewWork, Approved, SlotHolders, Insert;
    var d := Insert(s.db, added, grant).(requests := s.db.requests[key := rec]);
    var t := s.(db := d, tasks := s.tasks[key := Task(rec.ids, 0, direct, Waiting)]);
    NewWorkIsNew(s.db, added, rec, context, direct);
    Inserted(s.db, added, grant);
    CommittedTables(s.db, added, grant, context, key, rec, direct);
    assert TablesOk(t);
    CommittedTasks(s.db, s.tasks, added, grant, context, key, rec, direct);
    assert OwnerOk(t);
    CommittedDelivery(s, added, grant, context, rec, direct, d);
    assert DeliveryOk(t);
  }

  lemma NewWorkIsNew(db: Db, added: seq<Run>, rec: Record, context: Context, direct: bool)
    requires NewWork(db, added, rec, context, direct)
    ensures Newcomers(db, added)
  {
    FreshIds(db, added, rec.ids);
  }

  lemma AddedOutbox(db: Db, added: seq<Run>, grant: string, d: Db)
    requires OutboxOk(db, {}) && Newcomers(db, added)
    requires d.runs == Insert(db, added, grant).runs && d.events == Insert(db, added, grant).events
    ensures OutboxOk(d, {})
  {
    InsertOutbox(db, added, grant);
  }

  lemma NewTask(d: Db, added: seq<Run>, key: string, rec: Record, direct: bool)
    requires key in d.requests && d.requests[key] == rec && |added| == |rec.ids| >= 1
    requires forall i :: 0 <= i < |added| ==>
               added[i].id == rec.ids[i] && added[i].status.Queued? && added[i].mode.Direct? == direct
    requires forall i :: 0 <= i < |added| ==> added[i].id in d.runs && d.runs[added[i].id].run == added[i]
    requires direct ==> |added| == 1
    ensures TaskOk(d, key, Task(rec.ids, 0, direct, Waiting))
  {
  }

  lemma OldTask(db: Db, d: Db, key: string, t: Task)
    requires TaskOk(db, key, t) && key in d.requests && d.requests[key] == db.requests[key]
    requires forall id :: id in db.runs ==> id in d.runs && d.runs[id] == db.runs[id]
    ensures TaskOk(d, key, t)
  {
    TaskStays(db, d, key, t);
  }

  lemma CreateRecord(db: Db, req: RunCreate, program: Program, ids: seq<RunId>, batch: nat, now: int, grant: string)
    requires |ids| == |req.items| && Admitted(req) && !Clash(db, ids) && program.id == req.programId
    ensures RecordOk(Insert(db, NewRuns(req, program, ids, batch, now), grant).runs, req.key, Record(PrintOf(req), ids))
  {
    var added := NewRuns(req, program, ids, batch, now);
    FreshIds(db, added, ids);
    RowsAdded(db, added, grant);
    forall i | 0 <= i < |ids|
      ensures ids[i] in Insert(db, added, grant).runs
      ensures Made(Insert(db, added, grant).runs[ids[i]].run, req.programId, req.mode, req.items[i])
    {
      assert added[i].id == ids[i];
    }
  }

  lemma CreateOk(s: System, req: RunCreate, grant: string, ids: seq<RunId>, batch: nat, now: int)
    requires SystemOk(s) && s.life.Up?
    ensures SystemOk(RequestStep(s, Create(req, grant, ids, batch, now)))
  {
    hide SystemOk, RecordOk, Insert, RowClash, EventClash, LiveTarget, Replay, Approved, Actives;
    if Admitted(req) && Approved(s.server, grant, req.context) && |ids| == |req.items| {
      var c := CreateRuns(s.db, s.host, req, Some(grant), ids, batch, now);
      if c.reply.Ok? && !c.reply.value.reused {
        UnseenKey(s.db, req.key, PrintOf(req));
        var program := Snapshot(req.programId, s.db.programs[req.programId]);
        var added := NewRuns(req, program, ids, batch, now);
        CreateRecord(s.db, req, program, ids, batch, now, grant);
        Inserted(s.db, added, grant);
        Committed(s, added, grant, req.context, req.key, Record(PrintOf(req), ids), req.mode.Direct?);
      }
    }
  }

  lemma UnseenKey(db: Db, key: string, asked: Fingerprint)
    ensures Replay(db, key, asked) == Ok(None) <==> key !in db.requests
    ensures Replay(db, key, asked).Ok? && Replay(db, key, asked).value.Some? ==> key in db.requests
  {
  }

  lemma RetryRecord(db: Db, source: RunId, run: Run, key: string, grant: string)
    requires !Clash(db, [run.id]) && run.status.Queued? && run.source == Some(source)
    ensures RecordOk(Insert(db, [run], grant).runs, key, Record(RetryPrint(source), [run.id]))
  {
    FreshIds(db, [run], [run.id]);
    RowsAdded(db, [run], grant);
    assert [run][0].id in Insert(db, [run], grant).runs;
  }

  lemma RetryOk(s: System, source: RunId, key: string, grant: string, id: RunId, batch: nat, now: int)
    requires SystemOk(s) && s.life.Up?
    ensures SystemOk(RequestStep(s, Retry(source, key, grant, id, batch, now)))
  {
    hide SystemOk, RecordOk, Insert, RowClash, EventClash, LiveTarget, Replay, Actives;
    if grant in s.server.grants {
      var context := s.server.grants[grant];
      var c := RetryRun(s.db, s.host, source, key, Some(grant), Some(context), id, batch, now);
      if c.reply.Ok? && !c.reply.value.reused {
        UnseenKey(s.db, key, RetryPrint(source));
        RowIds(s, source);
        var run := RetryOf(s.db.runs[source].run, id, batch, Some(context), now);
        RetryRecord(s.db, source, run, key, grant);
        Inserted(s.db, [run], grant);
        Committed(s, [run], grant, context, key, Record(RetryPrint(source), [id]), run.mode.Direct?);
      }
    }
  }

  lemma RowIds(s: System, id: RunId)
    requires SystemOk(s) && id in s.db.runs
    ensures s.db.runs[id].run.id == id
  {
    hide RunOk, HistoryOk, OwnerOk, DeliveryOk;
    At(s.db, Lag(s), id);
    LastEvent(s.db.runs[id], id, Of(s.db.events, id), id in Lag(s));
  }

  lemma CompleteOk(s: System, id: RunId, note: string, now: int)
    requires SystemOk(s) && s.life.Up?
    ensures SystemOk(RequestStep(s, Complete(id, note, now)))
  {
    hide OutboxOk, HistoryOk, TaskOk, DeliveryOk, Advance, ServerOk, SentOk, SyncsOk;
    if CompleteDirect(s.db, id, note, now).reply.Ok? {
      var row := s.db.runs[id].run;
      var run := row.(status := Completed, note := Some(note), completedAt := Some(now));
      CompleteMoves(s.db, id, run);
      AdvanceDelivery(s, id, run);
      SameRequests(s.db, id, run);
      forall k | k in s.tasks ensures TaskOk(Advance(s.db, id, run), k, s.tasks[k]) {
        CompleteTasks(s.db, id, run, k, s.tasks[k]);
      }
      DeliveryParts(s.(db := Advance(s.db, id, run)));
    }
  }

  lemma SameRequests(db: Db, id: RunId, run: Run)
    requires id in db.runs
    ensures Advance(db, id, run).requests == db.requests
  {
  }

  lemma DeliveryParts(s: System)
    requires ServerOk(s.db.events, s.server) && SentOk(s.db.events, s.db.sent, s.server)
    requires SyncsOk(s.db, s.server, s.syncs)
    ensures DeliveryOk(s)
  {
  }

  lemma ProgramsChange(s: System, programs: map<string, Registration>)
    requires SystemOk(s) && s.life.Up?
    ensures SystemOk(s.(db := s.db.(programs := programs)))
  {
    hide RunOk, RequestsOk, LineagesOk, AdmissionOk, OrdersOk, ServerOk, SentOk, BatchOk, Delivered, TaskOk;
    var d := s.db.(programs := programs);
    forall k | k in s.tasks ensures TaskOk(d, k, s.tasks[k]) {
      SameTables(s.db, d, k, s.tasks[k]);
    }
    forall t | t in s.syncs.threads ensures SyncOk(d, s.server, s.syncs.threads[t]) {
      assert SyncOk(s.db, s.server, s.syncs.threads[t]);
    }
  }

  lemma SameTables(db: Db, d: Db, key: string, t: Task)
    requires TaskOk(db, key, t) && d.requests == db.requests && d.runs == db.runs
    ensures TaskOk(d, key, t)
  {
  }

  lemma RequestStepOk(s: System, step: Step)
    requires SystemOk(s) && s.life.Up? && IsRequestStep(step)
    ensures SystemOk(RequestStep(s, step))
  {
    hide SystemOk, CreateRuns, RetryRun, CompleteDirect, Admitted, Approved;
    match step {
      case Create(req, grant, ids, batch, now) => CreateOk(s, req, grant, ids, batch, now);
      case Retry(source, key, grant, id, batch, now) => RetryOk(s, source, key, grant, id, batch, now);
      case Complete(id, note, now) => CompleteOk(s, id, note, now);
      case ChangePrograms(programs) => ProgramsChange(s, programs);
      case _ =>
    }
  }
}
