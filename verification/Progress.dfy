/** Nothing is forgotten and no run goes back: how any later state relates to an earlier one. */
module Progress {
  import opened RunnerTypes
  import opened RunnerTables
  import opened Central
  import opened RunnerSystem
  import opened HistoryInvariant
  import opened OutboxInvariant
  import opened OutboxOrder
  import opened DeliveryInvariant
  import opened DeliverySteps
  import opened OwnerInvariant
  import opened SystemInvariant
  import opened LifeSteps
  import SystemSteps
  import RequestSteps

  /** A run keeps its identity and grant, and any change raises its rank: a final row never changes again. */
  predicate RowLater(a: Row, b: Row) {
    a.grant == b.grant && a.rowid == b.rowid && SameIdentity(a.run, b.run)
    && (a.run == b.run || Rank(a.run.status) < Rank(b.run.status))
  }

  ghost predicate RowsLater(a: map<RunId, Row>, b: map<RunId, Row>) {
    forall id :: id in a ==> id in b && RowLater(a[id], b[id])
  }

  ghost predicate RequestsLater(a: map<string, Record>, b: map<string, Record>) {
    forall key :: key in a ==> key in b && b[key] == a[key]
  }

  ghost predicate DbLater(a: Db, b: Db) {
    RowsLater(a.runs, b.runs) && RequestsLater(a.requests, b.requests) && a.events <= b.events && a.sent <= b.sent
  }

  /** The server forgets no deletion, and no receipt of a run whose grant it has not deleted. */
  ghost predicate ReceiptsLater(a: Server, b: Server) {
    a.gone <= b.gone
    && forall id: RunId :: Of(a.log, id) != [] && Of(a.log, id)[0].grant !in b.gone ==> Of(a.log, id) <= Of(b.log, id)
  }

  ghost predicate Later(s: System, t: System) { DbLater(s.db, t.db) && ReceiptsLater(s.server, t.server) }

  lemma LaterTrans(s: System, t: System, u: System)
    requires Later(s, t) && Later(t, u)
    ensures Later(s, u)
  {
    hide SameIdentity, ReceiptsLater;
    forall id | id in s.db.runs ensures id in u.db.runs && RowLater(s.db.runs[id], u.db.runs[id]) {
      RowTrans(s.db.runs[id], t.db.runs[id], u.db.runs[id]);
    }
    ReceiptsTrans(s.server, t.server, u.server);
  }

  lemma ReceiptsTrans(a: Server, b: Server, c: Server)
    requires ReceiptsLater(a, b) && ReceiptsLater(b, c)
    ensures ReceiptsLater(a, c)
  {
    forall id: RunId | Of(a.log, id) != [] && Of(a.log, id)[0].grant !in c.gone
      ensures Of(a.log, id) <= Of(c.log, id)
    {
      assert Of(a.log, id) <= Of(b.log, id);
      assert Of(b.log, id)[0] == Of(a.log, id)[0];
    }
  }

  lemma RowTrans(a: Row, b: Row, c: Row)
    requires RowLater(a, b) && RowLater(b, c)
    ensures RowLater(a, c)
  {
  }

  lemma SameLater(db: Db)
    ensures DbLater(db, db)
  {
  }

  lemma MovesLater(a: map<RunId, Row>, b: map<RunId, Row>)
    requires Moves(a, b)
    ensures RowsLater(a, b)
  {
    forall id | id in a ensures id in b && RowLater(a[id], b[id]) {
      assert RowMoves(a[id], b[id]);
    }
  }

  lemma AdvanceLater(db: Db, id: RunId, run: Run)
    requires id in db.runs && SameIdentity(run, db.runs[id].run)
    requires Arrow(run.mode, db.runs[id].run.status, run.status)
    ensures DbLater(db, Advance(db, id, run))
  {
    hide Moves, SameIdentity, Arrow, RowsLater;
    AdvanceMoves(db, id, run);
    MovesLater(db.runs, Advance(db, id, run).runs);
    SameEvents(db, id, run);
  }

  lemma EndRunLater(s: System, key: string, v: Verdict, now: int)
    requires AtRun(s, key) && ExecutorStatus(v.status)
    requires s.tasks[key].runs[s.tasks[key].pos] in s.db.runs
    requires var r := s.db.runs[s.tasks[key].runs[s.tasks[key].pos]].run; Arrow(r.mode, r.status, v.status)
    ensures DbLater(s.db, EndRun(s, key, v, now).db)
  {
    hide SameIdentity, Arrow, DbLater, Advance, Transitioned;
    var id := s.tasks[key].runs[s.tasks[key].pos];
    var row := s.db.runs[id].run;
    SystemSteps.TransitionKeeps(row, v.status, v.exitCode, v.error, now);
    AdvanceLater(s.db, id, Transitioned(row, v.status, v.exitCode, v.error, now));
  }

  lemma TaskStepLater(s: System, step: Step)
    requires SystemOk(s) && s.life.Up? && IsTaskStep(step)
    ensures DbLater(s.db, TaskStep(s, step).db)
  {
    hide SystemOk, DbLater, EndRun, Advance, Transitioned, SameIdentity;
    SameLater(s.db);
    match step {
      case PrepareFails(key, error, now) =>
        if AtRun(s, key) && s.tasks[key].phase.Waiting? {
          SystemSteps.OwnedHead(s, key);
          EndRunLater(s, key, Verdict(Failed, None, Some(error)), now);
        }
      case Start(key, now) =>
        if AtRun(s, key) && s.tasks[key].phase.Holding? {
          SystemSteps.OwnedHead(s, key);
          var id := s.tasks[key].runs[s.tasks[key].pos];
          SystemSteps.TransitionKeeps(s.db.runs[id].run, Running, None, None, now);
          AdvanceLater(s.db, id, Transitioned(s.db.runs[id].run, Running, None, None, now));
        }
      case Finish(key, now) =>
        if AtRun(s, key) && s.tasks[key].phase.Exited? {
          SystemSteps.OwnedHead(s, key);
          EndRunLater(s, key, VerdictOf(s.tasks[key].direct, s.tasks[key].phase.outcome), now);
        }
      case _ =>
    }
  }

  lemma {:induction false} InsertLater(db: Db, added: seq<Run>, grant: string)
    requires Newcomers(db, added)
    ensures DbLater(db, Insert(db, added, grant))
  {
    Inserted(db, added, grant);
    InsertExtends(db, added, grant);
    InsertGrows(db, added, grant);
  }

  lemma {:induction false} InsertGrows(db: Db, added: seq<Run>, grant: string)
    ensures db.events <= Insert(db, added, grant).events
  {
    if added != [] {
      InsertGrows(db, added[..|added| - 1], grant);
    }
  }

  lemma RecordLater(db: Db, d: Db, key: string, rec: Record)
    requires DbLater(db, d) && d.requests == db.requests && key !in db.requests
    ensures DbLater(db, d.(requests := d.requests[key := rec]))
  {
  }

  lemma CreateLater(db: Db, host: string, req: RunCreate, grant: Option<string>, ids: seq<RunId>, batch: nat, now: int)
    requires |ids| == |req.items| >= 1
    ensures DbLater(db, CreateRuns(db, host, req, grant, ids, batch, now).db)
  {
    hide DbLater, Insert, RowClash, EventClash, LiveTarget, Actives, Replay;
    SameLater(db);
    var c := CreateRuns(db, host, req, grant, ids, batch, now);
    if c.reply.Ok? && !c.reply.value.reused {
      RequestSteps.UnseenKey(db, req.key, PrintOf(req));
      var added := NewRuns(req, Snapshot(req.programId, db.programs[req.programId]), ids, batch, now);
      RequestSteps.FreshIds(db, added, ids);
      InsertLater(db, added, grant.value);
      Inserted(db, added, grant.value);
      RecordLater(db, Insert(db, added, grant.value), req.key, Record(PrintOf(req), ids));
    }
  }

  lemma RetryLater(db: Db, host: string, source: RunId, key: string, grant: Option<string>,
                   context: Option<Context>, id: RunId, batch: nat, now: int)
    ensures DbLater(db, RetryRun(db, host, source, key, grant, context, id, batch, now).db)
  {
    hide DbLater, Insert, RowClash, EventClash, LiveTarget, Actives, Replay;
    SameLater(db);
    var c := RetryRun(db, host, source, key, grant, context, id, batch, now);
    if c.reply.Ok? && !c.reply.value.reused {
      RequestSteps.UnseenKey(db, key, RetryPrint(source));
      var run := RetryOf(db.runs[source].run, id, batch, context, now);
      RequestSteps.FreshIds(db, [run], [id]);
      InsertLater(db, [run], grant.value);
      Inserted(db, [run], grant.value);
      RecordLater(db, Insert(db, [run], grant.value), key, Record(RetryPrint(source), [id]));
    }
  }

  lemma RequestStepLater(s: System, step: Step)
    requires SystemOk(s) && s.life.Up? && IsRequestStep(step)
    ensures DbLater(s.db, RequestStep(s, step).db)
  {
    hide SystemOk, DbLater, CreateRuns, RetryRun, Advance;
    SameLater(s.db);
    match step {
      case Create(req, grant, ids, batch, now) =>
        if Admitted(req) && Approved(s.server, grant, req.context) && |ids| == |req.items| {
          CreateLater(s.db, s.host, req, Some(grant), ids, batch, now);
        }
      case Retry(source, key, grant, id, batch, now) =>
        if grant in s.server.grants {
          RetryLater(s.db, s.host, source, key, Some(grant), Some(s.server.grants[grant]), id, batch, now);
        }
      case Complete(id, note, now) =>
        if CompleteDirect(s.db, id, note, now).reply.Ok? {
          AdvanceLater(s.db, id, s.db.runs[id].run.(status := Completed, note := Some(note), completedAt := Some(now)));
        }
      case ChangePrograms(programs) => ProgramsLater(s.db, programs);
      case _ =>
    }
  }

  lemma ProgramsLater(db: Db, programs: map<string, Registration>)
    ensures DbLater(db, db.(programs := programs))
  {
  }

  lemma {:induction false} AcceptLogGrows(c: Server, batch: seq<Event>)
    requires AcceptEach(c, batch).Ok?
    ensures c.log <= AcceptEach(c, batch).value.log && AcceptEach(c, batch).value.gone == c.gone
    decreases |batch|
  {
    if batch != [] {
      AcceptLogGrows(AcceptOne(c, batch[0]).value, batch[1..]);
    }
  }

  lemma AcceptLater(c: Server, batch: seq<Event>)
    requires Accept(c, batch).Ok?
    ensures ReceiptsLater(c, Accept(c, batch).value)
  {
    AcceptLogGrows(c, batch);
    var d := AcceptEach(c, batch).value;
    forall id: RunId ensures Of(c.log, id) <= Of(d.log, id) {
      assert d.log[..|c.log|] == c.log;
      OfTake(d.log, |c.log|, id);
    }
  }

  lemma CleanedLater(events: seq<Event>, c: Server, grants: set<string>)
    requires Chained(events) && ServerOk(events, c)
    ensures ReceiptsLater(c, Cleaned(c, grants))
  {
    var d := Cleaned(c, grants);
    forall id: RunId | Of(c.log, id) != [] && Of(c.log, id)[0].grant !in d.gone ensures Of(c.log, id) <= Of(d.log, id) {
      var x := Of(c.log, id)[0];
      assert x in Of(c.log, id);
      hide Chained, ServerOk, Gone;
      Logged(events, c, x);
      GoneAll(events, d.gone, x);
      CleanedRun(events, c, grants, id);
    }
  }

  lemma MarkLater(db: Db, keys: seq<(RunId, nat)>)
    ensures DbLater(db, MarkSent(db, keys))
  {
  }

  lemma SyncStepLater(s: System, step: Step)
    requires IsSyncStep(step)
    ensures Later(s, SyncStep(s, step))
  {
    hide DbLater, ReceiptsLater, MarkSent, Accept, Pending, FrontPart;
    SameLater(s.db);
    SameReceipts(s.server);
    match step {
      case SyncPost(thread, part) =>
        if Accept(s.server, part).Ok? {
          AcceptLater(s.server, part);
        }
      case SyncMark(thread) =>
        if thread in s.syncs.threads {
          if s.syncs.threads[thread].Answered? {
            MarkLater(s.db, KeysOf(s.syncs.threads[thread].batch));
          }
        }
      case _ =>
    }
  }

  lemma InterruptLater(db: Db, now: int)
    ensures DbLater(db, InterruptActive(db, now))
  {
    hide Moves, RowsLater, InterruptedRun;
    InterruptMoves(db, now);
    MovesLater(db.runs, InterruptActive(db, now).runs);
  }

  lemma ReconcileLater(db: Db, id: RunId)
    requires id in db.runs
    ensures DbLater(db, ReconcileOne(db, id))
  {
    hide Present;
  }

  lemma LifeStepLater(s: System, step: Step)
    requires SystemOk(s) && IsLifeStep(step)
    ensures Later(s, LifeStep(s, step))
  {
    hide SystemOk, DbLater, ReceiptsLater, InterruptActive, ReconcileOne, ListsGranted, FrontPart, Accept, Cleaned,
      Removable;
    SameLater(s.db);
    SameReceipts(s.server);
    match step {
      case Approve(grant, context) => ApproveLater(s.server, grant, context);
      case WireArrives(batch, part) =>
        if Accept(s.server, part).Ok? {
          AcceptLater(s.server, part);
        }
      case Cleanup(grants) => CleanupLater(s, grants);
      case Restart(now, todo) => InterruptLater(s.db, now);
      case ReconcileNext =>
        if s.life.Recovering? && s.life.todo != [] && s.life.todo[0] in s.db.runs {
          ReconcileLater(s.db, s.life.todo[0]);
        }
      case _ =>
    }
  }

  lemma SameReceipts(c: Server)
    ensures ReceiptsLater(c, c)
  {
  }

  lemma ApproveLater(c: Server, grant: string, context: Context)
    ensures ReceiptsLater(c, c.(grants := c.grants[grant := context]))
  {
  }

  lemma CleanupLater(s: System, grants: set<string>)
    requires SystemOk(s)
    ensures ReceiptsLater(s.server, Cleaned(s.server, grants))
  {
    hide OutboxOk, HistoryOk, OwnerOk, ServerOk, SentOk, SyncsOk, Cleaned, Chained, ReceiptsLater;
    OutboxIsChained(s.db, Lag(s));
    CleanedLater(s.db.events, s.server, grants);
  }

  lemma ServerUntouched(s: System, step: Step)
    requires s.life.Up? && (IsTaskStep(step) || IsRequestStep(step))
    ensures Apply(s, step).server == s.server
  {
    hide CreateRuns, RetryRun, CompleteDirect, MarkFinished, TransitionRun;
  }

  lemma StepLater(s: System, step: Step)
    requires SystemOk(s)
    ensures Later(s, Apply(s, step))
  {
    hide SystemOk, LifeStep, TaskStep, RequestStep, SyncStep, DbLater, ReceiptsLater;
    SameReceipts(s.server);
    if IsLifeStep(step) {
      LifeStepLater(s, step);
    } else if !s.life.Up? {
      SameLater(s.db);
    } else if IsTaskStep(step) {
      TaskStepLater(s, step);
      ServerUntouched(s, step);
    } else if IsRequestStep(step) {
      RequestStepLater(s, step);
      ServerUntouched(s, step);
    } else {
      SyncStepLater(s, step);
    }
  }

  lemma {:induction false} RunsLater(s: System, steps: seq<Step>)
    requires SystemOk(s)
    ensures Later(s, After(s, steps))
  {
    hide SystemOk, Later, Apply;
    if steps == [] {
      StaysLater(s);
    } else {
      var n := |steps| - 1;
      RunsLater(s, steps[..n]);
      AlwaysOk(s, steps[..n]);
      StepLater(After(s, steps[..n]), steps[n]);
      LaterTrans(s, After(s, steps[..n]), After(s, steps));
    }
  }

  lemma StaysLater(s: System)
    ensures Later(s, s)
  {
    SameLater(s.db);
    SameReceipts(s.server);
  }
}
