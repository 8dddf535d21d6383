/** Delivery threads, crashes and recovery keep the system invariant; so does every run of steps. */
module LifeSteps {
  import opened RunnerTypes
  import opened RunnerTables
  import opened Central
  import opened RunnerSystem
  import opened HistoryInvariant
  import opened OutboxInvariant
  import opened DeliveryInvariant
  import opened DeliverySteps
  import opened OwnerInvariant
  import opened SystemInvariant
  import SystemSteps
  import RequestSteps

  // ---------------------------------------------------------------- delivery threads

  lemma SyncsChange(s: System, syncs: Flight)
    requires SystemOk(s) && s.life.Up? && SyncsOk(s.db, s.server, syncs)
    ensures SystemOk(s.(syncs := syncs))
  {
    hide OutboxOk, HistoryOk, TaskOk, ServerOk, SentOk, SyncsOk;
  }

  lemma OneSync(db: Db, server: Server, syncs: Flight, thread: nat, d: Delivery)
    requires SyncsOk(db, server, syncs) && SyncOk(db, server, d)
    ensures SyncsOk(db, server, syncs.(threads := syncs.threads[thread := d]))
  {
    hide SyncOk, BatchOk;
  }

  lemma WireGrows(db: Db, server: Server, syncs: Flight, batch: seq<Event>)
    requires SyncsOk(db, server, syncs) && BatchOk(db.events, db.sent, batch)
    ensures SyncsOk(db, server, syncs.(wire := syncs.wire + {batch}))
  {
    hide SyncOk, BatchOk;
  }

  lemma FewerSyncs(db: Db, server: Server, syncs: Flight, thread: nat)
    requires SyncsOk(db, server, syncs)
    ensures SyncsOk(db, server, syncs.(threads := syncs.threads - {thread}))
    ensures SyncsOk(db, server, syncs.(threads := map[]))
  {
    hide SyncOk, BatchOk;
  }

  lemma PendingIsFront(db: Db, limit: nat, count: nat)
    requires count <= |Pending(db, limit)|
    ensures count <= |Unsent(db.events, db.sent)|
    ensures Pending(db, limit)[..count] == Unsent(db.events, db.sent)[..count]
  {
  }

  lemma SyncReadOk(s: System, thread: nat, count: nat)
    requires SystemOk(s) && s.life.Up? && count <= |Pending(s.db, BATCH_LIMIT)|
    ensures var batch := Pending(s.db, BATCH_LIMIT)[..count];
            SystemOk(s.(syncs := s.syncs.(threads := s.syncs.threads[thread := Posting(batch)],
                                          wire := s.syncs.wire + {batch})))
  {
    hide OutboxOk, HistoryOk, TaskOk, ServerOk, SentOk, SyncsOk, BatchOk, Pending, Chained;
    var all := Unsent(s.db.events, s.db.sent);
    PendingIsFront(s.db, BATCH_LIMIT, count);
    OutboxIsChained(s.db, Lag(s));
    ReadBatch(s.db.events, s.db.sent, s.server, all, count);
    var more := s.syncs.(wire := s.syncs.wire + {all[..count]});
    WireGrows(s.db, s.server, s.syncs, all[..count]);
    OneSync(s.db, s.server, more, thread, Posting(all[..count]));
    SyncsChange(s, more.(threads := more.threads[thread := Posting(all[..count])]));
  }

  /** A front part of a batch is a batch that could have been read. */
  lemma FrontIsBatch(events: seq<Event>, sent: set<(RunId, nat)>, part: seq<Event>, batch: seq<Event>)
    requires BatchOk(events, sent, batch) && FrontPart(part, batch)
    ensures BatchOk(events, sent, part)
  {
    forall id: RunId ensures Segment(Of(events, id), sent, id, Of(part, id)) {
      assert Segment(Of(events, id), sent, id, Of(batch, id)) && Of(part, id) <= Of(batch, id);
    }
  }

  lemma ServerMoves(s: System, server: Server, syncs: Flight)
    requires SystemOk(s) && (s.life.Up? || syncs == s.syncs)
    requires ServerOk(s.db.events, server) && SentOk(s.db.events, s.db.sent, server) && SyncsOk(s.db, server, syncs)
    ensures SystemOk(s.(server := server, syncs := syncs))
  {
    hide OutboxOk, HistoryOk, TaskOk, ServerOk, SentOk, SyncsOk;
  }

  lemma SyncsFurther(db: Db, server: Server, later: Server, syncs: Flight)
    requires SyncsOk(db, server, syncs) && Further(server.log, later.log) && later.gone == server.gone
    ensures SyncsOk(db, later, syncs)
  {
    hide BatchOk, Delivered, Further;
    forall t | t in syncs.threads ensures SyncOk(db, later, syncs.threads[t]) {
      assert SyncOk(db, server, syncs.threads[t]);
      if syncs.threads[t].Answered? {
        DeliveredStays(server, later, syncs.threads[t].batch);
      }
    }
  }

  /** In every state the invariant allows, the server accepts every batch the runner can have posted, unless it holds
      an event under a deleted grant: then the answer is that the grant is invalid. */
  lemma AnswersPosted(s: System, batch: seq<Event>)
    requires SystemOk(s) && BatchOk(s.db.events, s.db.sent, batch)
    ensures Answers(s.db.events, s.server, batch, Accept(s.server, batch))
  {
    hide OutboxOk, HistoryOk, OwnerOk, ServerOk, SentOk, BatchOk, Chained, Accept, Answers;
    OutboxIsChained(s.db, Lag(s));
    BatchAccepted(s.db.events, s.db.sent, s.server, batch);
  }

  /** A front part of a posted batch, arriving now or long after its thread and process are gone. */
  lemma ArrivalOk(s: System, batch: seq<Event>, part: seq<Event>)
    requires SystemOk(s) && BatchOk(s.db.events, s.db.sent, batch) && FrontPart(part, batch)
    ensures BatchOk(s.db.events, s.db.sent, part) && Answers(s.db.events, s.server, part, Accept(s.server, part))
    ensures Accept(s.server, part).Ok? ==>
              var later := Accept(s.server, part).value;
              SystemOk(s.(server := later)) && ServerOk(s.db.events, later)
              && SentOk(s.db.events, s.db.sent, later) && SyncsOk(s.db, later, s.syncs) && Delivered(later, part)
  {
    hide OutboxOk, HistoryOk, OwnerOk, ServerOk, SentOk, SyncsOk, BatchOk, FrontPart, Accept, Delivered, Further;
    FrontIsBatch(s.db.events, s.db.sent, part, batch);
    AnswersPosted(s, part);
    if Accept(s.server, part).Ok? {
      var later := Accept(s.server, part).value;
      SyncsFurther(s.db, s.server, later, s.syncs);
      SentStays(s.db.events, s.db.sent, s.server, later);
      ServerMoves(s, later, s.syncs);
    }
  }

  lemma BatchOf(s: System, thread: nat)
    requires SystemOk(s) && thread in s.syncs.threads && !s.syncs.threads[thread].Reading?
    ensures BatchOk(s.db.events, s.db.sent, s.syncs.threads[thread].batch)
  {
    assert SyncOk(s.db, s.server, s.syncs.threads[thread]);
  }

  lemma OnWire(s: System, batch: seq<Event>)
    requires SystemOk(s) && batch in s.syncs.wire
    ensures BatchOk(s.db.events, s.db.sent, batch)
  {
    hide SyncOk, BatchOk;
  }

  lemma SyncPostOk(s: System, thread: nat, part: seq<Event>)
    requires SystemOk(s) && s.life.Up?
    ensures SystemOk(SyncStep(s, SyncPost(thread, part)))
  {
    hide OutboxOk, HistoryOk, OwnerOk, ServerOk, SentOk, SyncsOk, BatchOk, FrontPart, Accept, Delivered, Answers;
    if thread in s.syncs.threads && s.syncs.threads[thread].Posting? && FrontPart(part, s.syncs.threads[thread].batch) {
      BatchOf(s, thread);
      ArrivalOk(s, s.syncs.threads[thread].batch, part);
      var result := Accept(s.server, part);
      if result.Ok? {
        OneSync(s.db, result.value, s.syncs, thread, Answered(part));
        ServerMoves(s, result.value, s.syncs.(threads := s.syncs.threads[thread := Answered(part)]));
      } else {
        FewerSyncs(s.db, s.server, s.syncs, thread);
        Disabling(s, s.syncs.(threads := s.syncs.threads - {thread}), s.syncs.disabled || result.error.GrantInvalid?);
      }
    }
  }

  lemma Disabling(s: System, syncs: Flight, disabled: bool)
    requires SystemOk(s) && s.life.Up? && SyncsOk(s.db, s.server, syncs)
    ensures SystemOk(s.(syncs := syncs.(disabled := disabled)))
  {
    hide OutboxOk, HistoryOk, TaskOk, ServerOk, SentOk, SyncOk, BatchOk;
  }

  lemma WireArrivesOk(s: System, batch: seq<Event>, part: seq<Event>)
    requires SystemOk(s)
    ensures SystemOk(LifeStep(s, WireArrives(batch, part)))
  {
    hide SystemOk, BatchOk, FrontPart, Accept, ServerOk, SentOk, SyncsOk, Delivered;
    if batch in s.syncs.wire && FrontPart(part, batch) {
      OnWire(s, batch);
      ArrivalOk(s, batch, part);
    }
  }

  lemma MarkedTables(s: System, keys: set<(RunId, nat)>, syncs: Flight)
    requires SystemOk(s) && s.life.Up?
    requires SentOk(s.db.events, s.db.sent + keys, s.server)
             && SyncsOk(s.db.(sent := s.db.sent + keys), s.server, syncs)
    ensures SystemOk(s.(db := s.db.(sent := s.db.sent + keys), syncs := syncs))
  {
    hide RunOk, RequestsOk, LineagesOk, AdmissionOk, OrdersOk, TaskOk, ServerOk, SentOk, SyncsOk;
    var d := s.db.(sent := s.db.sent + keys);
    forall k | k in s.tasks ensures TaskOk(d, k, s.tasks[k]) {
      RequestSteps.SameTables(s.db, d, k, s.tasks[k]);
    }
  }

  lemma SyncsMarked(db: Db, server: Server, syncs: Flight, keys: set<(RunId, nat)>)
    requires SyncsOk(db, server, syncs)
    ensures SyncsOk(db.(sent := db.sent + keys), server, syncs)
  {
    hide BatchOk, Delivered;
    forall t | t in syncs.threads ensures SyncOk(db.(sent := db.sent + keys), server, syncs.threads[t]) {
      assert SyncOk(db, server, syncs.threads[t]);
      if !syncs.threads[t].Reading? {
        BatchStays(db.events, db.events, db.sent, db.sent + keys, syncs.threads[t].batch);
      }
    }
    forall batch | batch in syncs.wire ensures BatchOk(db.events, db.sent + keys, batch) {
      BatchStays(db.events, db.events, db.sent, db.sent + keys, batch);
    }
  }

  lemma SyncMarkOk(s: System, thread: nat)
    requires SystemOk(s) && s.life.Up?
    ensures SystemOk(SyncStep(s, SyncMark(thread)))
  {
    hide OutboxOk, HistoryOk, OwnerOk, ServerOk, SentOk, SyncsOk, BatchOk, Delivered, MarkSent, Chained;
    if thread in s.syncs.threads && s.syncs.threads[thread].Answered? {
      var batch := s.syncs.threads[thread].batch;
      var next := s.syncs.(threads := s.syncs.threads[thread := Reading]);
      BatchOf(s, thread);
      AnsweredDelivered(s, thread);
      OutboxIsChained(s.db, Lag(s));
      forall e | e in batch ensures e.run.id == e.runId && e in s.db.events {
        InBatch(s.db.events, s.db.sent, batch, e);
      }
      MarkIsUnion(s.db, batch);
      MarkKeepsSent(s.db.events, s.db.sent, s.server, batch);
      OneSync(s.db, s.server, s.syncs, thread, Reading);
      SyncsMarked(s.db, s.server, next, Keys(batch));
      MarkedTables(s, Keys(batch), next);
    }
  }

  lemma AnsweredDelivered(s: System, thread: nat)
    requires SystemOk(s) && thread in s.syncs.threads && s.syncs.threads[thread].Answered?
    ensures Delivered(s.server, s.syncs.threads[thread].batch)
  {
    assert SyncOk(s.db, s.server, s.syncs.threads[thread]);
  }

  predicate IsSyncStep(step: Step) {
    step.SyncEnters? || step.SyncRead? || step.SyncPost? || step.SyncAgain? || step.SyncMark? || step.SyncStops?
  }

  lemma SyncStepOk(s: System, step: Step)
    requires SystemOk(s) && s.life.Up? && IsSyncStep(step)
    ensures SystemOk(SyncStep(s, step))
  {
    hide TablesOk, OwnerOk, ServerOk, SentOk, SyncsOk, Accept, Pending, MarkSent, FrontPart;
    match step {
      case SyncEnters(thread) =>
        OneSync(s.db, s.server, s.syncs, thread, Reading);
        SyncsChange(s, s.syncs.(threads := s.syncs.threads[thread := Reading]));
      case SyncAgain(thread) =>
        OneSync(s.db, s.server, s.syncs, thread, Reading);
        SyncsChange(s, s.syncs.(threads := s.syncs.threads[thread := Reading]));
      case SyncRead(thread, count) =>
        if thread in s.syncs.threads && s.syncs.threads[thread].Reading? && 1 <= count <= |Pending(s.db, BATCH_LIMIT)| {
          SyncReadOk(s, thread, count);
        }
      case SyncPost(thread, part) => SyncPostOk(s, thread, part);
      case SyncMark(thread) => SyncMarkOk(s, thread);
      case SyncStops(thread) =>
        FewerSyncs(s.db, s.server, s.syncs, thread);
        SyncsChange(s, s.syncs.(threads := s.syncs.threads - {thread}));
    }
  }

  // ---------------------------------------------------------------- crash and recovery

  lemma Idle(s: System)
    requires s.tasks == map[] && s.syncs.threads == map[]
    ensures OwnerOk(s)
  {
    assert SlotHolders(s.tasks) == {};
  }

  lemma CrashOk(s: System)
    requires SystemOk(s)
    ensures SystemOk(s.(life := Down, tasks := map[], syncs := s.syncs.(threads := map[])))
  {
    hide OutboxOk, HistoryOk, OwnerOk, ServerOk, SentOk, SyncsOk;
    DropLag(s.db, Lag(s), s.db.runs.Keys);
    FewerSyncs(s.db, s.server, s.syncs, 0);
    Idle(s.(life := Down, tasks := map[], syncs := s.syncs.(threads := map[])));
  }

  lemma InterruptHistory(db: Db, now: int)
    requires HistoryOk(db)
    ensures HistoryOk(InterruptActive(db, now))
  {
    hide RequestsOk, LineagesOk, AdmissionOk, OrdersOk, Moves, InterruptedRun;
    var b := InterruptActive(db, now).runs;
    InterruptMoves(db, now);
    RequestsMove(db.runs, b, db.requests);
    LineagesMove(db.runs, b);
    AdmissionMoves(db.runs, b);
    InterruptOrders(db.runs, db.requests, b, now);
  }

  lemma AllGranted(db: Db, lagging: set<RunId>, id: RunId)
    requires OutboxOk(db, lagging) && id in db.runs
    ensures db.runs[id].grant.Some?
  {
    hide RunOk;
    At(db, lagging, id);
    LastEvent(db.runs[id], id, Of(db.events, id), id in lagging);
  }

  lemma SyncsSame(db: Db, d: Db, server: Server, syncs: Flight)
    requires SyncsOk(db, server, syncs) && d.events == db.events && d.sent == db.sent
    ensures SyncsOk(d, server, syncs)
  {
    hide BatchOk, Delivered;
    forall t | t in syncs.threads ensures SyncOk(d, server, syncs.threads[t]) {
      assert SyncOk(db, server, syncs.threads[t]);
    }
  }

  lemma RestartOk(s: System, now: int, todo: seq<RunId>)
    requires SystemOk(s) && s.life.Down? && ListsGranted(InterruptActive(s.db, now).runs, todo)
    ensures SystemOk(s.(life := Recovering(todo), db := InterruptActive(s.db, now)))
  {
    hide OutboxOk, HistoryOk, OwnerOk, ServerOk, SentOk, SyncsOk, InterruptedRun;
    var d := InterruptActive(s.db, now);
    IdleOnly(s);
    SyncsSame(s.db, d, s.server, s.syncs);
    InterruptOutbox(s.db, Lag(s), now);
    InterruptHistory(s.db, now);
    var next := s.(life := Recovering(todo), db := d);
    forall id | id in d.runs ensures id in Lag(next) {
      AllGranted(d, s.db.runs.Keys, id);
    }
    DropLag(d, s.db.runs.Keys, Lag(next));
    Idle(next);
  }

  lemma IdleOnly(s: System)
    requires OwnerOk(s) && !s.life.Up?
    ensures s.tasks == map[] && s.syncs.threads == map[]
  {
  }

  lemma ReconcileNextOk(s: System)
    requires SystemOk(s) && s.life.Recovering? && s.life.todo != [] && s.life.todo[0] in s.db.runs
    ensures SystemOk(s.(life := Recovering(s.life.todo[1..]), db := ReconcileOne(s.db, s.life.todo[0])))
  {
    hide OutboxOk, RequestsOk, LineagesOk, AdmissionOk, OrdersOk, OwnerOk, ServerOk, SentOk, SyncsOk, Granted, Enqueue,
      Present;
    var id := s.life.todo[0];
    var next := s.(life := Recovering(s.life.todo[1..]), db := ReconcileOne(s.db, id));
    IdleOnly(s);
    ReconcileOutbox(s.db, Lag(s), id);
    DropLag(next.db, Lag(s) - {id}, Lag(next));
    Idle(next);
    EnqueueGranted(s.db, Lag(s), s.server, id, s.db.runs[id].run);
    EnqueueOnlyEvents(s.db, s.db.runs[id].run, s.db.runs[id].grant);
    ReconcileServer(s, id);
  }

  lemma EnqueueOnlyEvents(db: Db, run: Run, grant: Option<string>)
    ensures Enqueue(db, run, grant) == db.(events := Enqueue(db, run, grant).events)
  {
  }

  lemma ReconcileServer(s: System, id: RunId)
    requires DeliveryOk(s) && id in s.db.runs
    requires Granted(s.server, s.db.events, Enqueue(s.db, s.db.runs[id].run, s.db.runs[id].grant).events)
    requires s.db.events <= Enqueue(s.db, s.db.runs[id].run, s.db.runs[id].grant).events
    ensures ServerOk(ReconcileOne(s.db, id).events, s.server) && SyncsOk(ReconcileOne(s.db, id), s.server, s.syncs)
    ensures SentOk(ReconcileOne(s.db, id).events, ReconcileOne(s.db, id).sent, s.server)
  {
    hide ServerOk, SyncsOk, SentOk, Present, Enqueue;
    EnqueueOnlyEvents(s.db, s.db.runs[id].run, s.db.runs[id].grant);
    DeliveryStays(s.db, Enqueue(s.db, s.db.runs[id].run, s.db.runs[id].grant), s.server, s.syncs);
  }

  lemma ApproveOk(s: System, grant: string, context: Context)
    requires SystemOk(s) && grant !in s.server.grants
    ensures SystemOk(s.(server := s.server.(grants := s.server.grants[grant := context])))
  {
    hide OutboxOk, HistoryOk, TaskOk, ServerOk, SentOk, BatchOk, Delivered;
    ApproveStays(s.db.events, s.server, grant, context);
    ApproveSent(s.db.events, s.db.sent, s.server, grant, context);
    var server := s.server.(grants := s.server.grants[grant := context]);
    forall t | t in s.syncs.threads ensures SyncOk(s.db, server, s.syncs.threads[t]) {
      assert SyncOk(s.db, s.server, s.syncs.threads[t]);
      if s.syncs.threads[t].Answered? {
        ApproveDelivered(s.server, grant, context, s.syncs.threads[t].batch);
      }
    }
  }

  lemma CleanupOk(s: System, grants: set<string>)
    requires SystemOk(s)
    ensures SystemOk(s.(server := Cleaned(s.server, grants)))
  {
    hide OutboxOk, HistoryOk, OwnerOk, ServerOk, SentOk, BatchOk, Delivered, Cleaned, Chained, Posted;
    var d := Cleaned(s.server, grants);
    OutboxIsChained(s.db, Lag(s));
    CleanedServer(s.db.events, s.server, grants);
    CleanedSent(s.db.events, s.db.sent, s.server, grants);
    forall t | t in s.syncs.threads ensures SyncOk(s.db, d, s.syncs.threads[t]) {
      assert SyncOk(s.db, s.server, s.syncs.threads[t]);
      if s.syncs.threads[t].Answered? {
        BatchAscends(s.db.events, s.db.sent, s.syncs.threads[t].batch);
        CleanedDelivered(s.db.events, s.server, grants, s.syncs.threads[t].batch);
      }
    }
    ServerMoves(s, d, s.syncs);
  }

  lemma LifeStepOk(s: System, step: Step)
    requires SystemOk(s) && IsLifeStep(step)
    ensures SystemOk(LifeStep(s, step))
  {
    hide SystemOk, ReconcileOne, InterruptActive, ListsGranted, FrontPart, Accept, Cleaned, Removable;
    match step {
      case WireArrives(batch, part) => WireArrivesOk(s, batch, part);
      case Cleanup(grants) => CleanupOk(s, grants);
      case Approve(grant, context) =>
        if grant !in s.server.grants {
          ApproveOk(s, grant, context);
        }
      case Crash => CrashOk(s);
      case Restart(now, todo) =>
        if s.life.Down? && ListsGranted(InterruptActive(s.db, now).runs, todo) {
          RestartOk(s, now, todo);
        }
      case ReconcileNext =>
        if s.life.Recovering? && s.life.todo != [] && s.life.todo[0] in s.db.runs {
          ReconcileNextOk(s);
        }
      case Recovered =>
        if s.life.Recovering? && s.life.todo == [] {
          RecoveredOk(s);
        }
      case _ =>
    }
  }

  lemma RecoveredOk(s: System)
    requires SystemOk(s) && s.life == Recovering([])
    ensures SystemOk(s.(life := Up))
  {
    hide OutboxOk, HistoryOk, OwnerOk, ServerOk, SentOk, SyncsOk;
    IdleOnly(s);
    assert Lag(s) == {};
    Idle(s.(life := Up));
  }

  // ---------------------------------------------------------------- every step, every run

  lemma StepOk(s: System, step: Step)
    requires SystemOk(s)
    ensures SystemOk(Apply(s, step))
  {
    hide SystemOk, LifeStep, TaskStep, RequestStep, SyncStep;
    if IsLifeStep(step) {
      LifeStepOk(s, step);
    } else if s.life.Up? {
      if IsTaskStep(step) {
        SystemSteps.TaskStepOk(s, step);
      } else if IsRequestStep(step) {
        RequestSteps.RequestStepOk(s, step);
      } else {
        SyncStepOk(s, step);
      }
    }
  }

  lemma InstalledOk(s: System)
    requires Installed(s)
    ensures SystemOk(s)
  {
    assert Actives(s.db.runs) == {};
    Idle(s);
  }

  lemma {:induction false} AlwaysOk(s: System, steps: seq<Step>)
    requires SystemOk(s)
    ensures SystemOk(After(s, steps))
  {
    hide SystemOk, Apply;
    if steps != [] {
      AlwaysOk(s, steps[..|steps| - 1]);
      StepOk(After(s, steps[..|steps| - 1]), steps[|steps| - 1]);
    }
  }
}
