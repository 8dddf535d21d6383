/** The invariant of the whole system and its preservation by every step. */
module SystemInvariant {
  import opened RunnerTypes
  import opened RunnerTables
  import opened Central
  import opened RunnerSystem
  import opened HistoryInvariant
  import opened OutboxInvariant
  import opened DeliveryInvariant
  import opened DeliverySteps
  import opened OwnerInvariant

  function Lag(s: System): set<RunId> {
    match s.life
    case Up => {}
    case Recovering(todo) => set id | id in todo
    case Down => s.db.runs.Keys
  }

  ghost predicate TablesOk(s: System) { OutboxOk(s.db, Lag(s)) && HistoryOk(s.db) }

  ghost predicate SyncOk(db: Db, server: Server, d: Delivery) {
    d.Reading? || (BatchOk(db.events, db.sent, d.batch) && (d.Answered? ==> Delivered(server, d.batch)))
  }

  ghost predicate SyncsOk(db: Db, server: Server, syncs: Flight) {
    (forall t :: t in syncs.threads ==> SyncOk(db, server, syncs.threads[t]))
    && forall batch :: batch in syncs.wire ==> BatchOk(db.events, db.sent, batch)
  }

  ghost predicate DeliveryOk(s: System) {
    ServerOk(s.db.events, s.server) && SentOk(s.db.events, s.db.sent, s.server) && SyncsOk(s.db, s.server, s.syncs)
  }

  /** Everything that holds between any two commits of any run of the system. */
  ghost predicate SystemOk(s: System) { TablesOk(s) && OwnerOk(s) && DeliveryOk(s) }

  // ---------------------------------------------------------------- the outbox is a chain per run

  lemma OutboxIsChained(db: Db, lagging: set<RunId>)
    requires OutboxOk(db, lagging)
    ensures Chained(db.events)
  {
    hide RunOk;
    forall id: RunId, i | 0 <= i < |Of(db.events, id)| ensures ChainAt(Of(db.events, id), id, i) {
      if id in db.runs {
        At(db, lagging, id);
        RunChained(db.runs[id], id, Of(db.events, id), id in lagging, i);
      } else {
        NoEvents(db.events, id);
      }
    }
  }

  lemma RunChained(row: Row, id: RunId, evs: seq<Event>, lagging: bool, i: nat)
    requires RunOk(row, id, evs, lagging) && i < |evs|
    ensures ChainAt(evs, id, i)
  {
    assert EventOk(row, id, evs[i], i);
    if i > 0 {
      assert EventOk(row, id, evs[i - 1], i - 1);
    }
  }

  // ---------------------------------------------------------------- new events come with an approved grant

  ghost predicate Granted(server: Server, events: seq<Event>, more: seq<Event>) {
    forall e :: e in more && e !in events ==> e.grant in server.grants && server.grants[e.grant] == e.run.context
  }

  lemma EnqueueGranted(db: Db, lagging: set<RunId>, server: Server, id: RunId, run: Run)
    requires OutboxOk(db, lagging) && ServerOk(db.events, server) && id in db.runs
    requires SameIdentity(run, db.runs[id].run)
    ensures Granted(server, db.events, Enqueue(db, run, db.runs[id].grant).events)
    ensures db.events <= Enqueue(db, run, db.runs[id].grant).events
  {
    hide RunOk;
    At(db, lagging, id);
    var evs := Of(db.events, id);
    FirstOk(db.runs[id], id, evs, id in lagging);
    assert evs[0] in evs && evs[0] in db.events;
  }

  lemma FirstOk(row: Row, id: RunId, evs: seq<Event>, lagging: bool)
    requires RunOk(row, id, evs, lagging)
    ensures |evs| > 0 && row.grant == Some(evs[0].grant) && evs[0].run.context == row.run.context
  {
    assert EventOk(row, id, evs[0], 0);
  }

  lemma {:induction false} InsertGranted(db: Db, server: Server, added: seq<Run>, grant: string, context: Context)
    requires Approved(server, grant, context)
    requires forall i :: 0 <= i < |added| ==> added[i].context == context
    ensures Granted(server, db.events, Insert(db, added, grant).events)
    ensures db.events <= Insert(db, added, grant).events && Insert(db, added, grant).sent == db.sent
  {
    if added != [] {
      InsertGranted(db, server, added[..|added| - 1], grant, context);
    }
  }

  /** New events leave everything in flight and everything received as it was. */
  lemma DeliveryStays(db: Db, d: Db, server: Server, syncs: Flight)
    requires ServerOk(db.events, server) && SentOk(db.events, db.sent, server) && SyncsOk(db, server, syncs)
    requires db.events <= d.events && d.sent == db.sent && Granted(server, db.events, d.events)
    ensures ServerOk(d.events, server) && SentOk(d.events, d.sent, server) && SyncsOk(d, server, syncs)
  {
    hide ServerOk, SentOk, BatchOk, Delivered;
    ServerStays(db.events, d.events, server);
    SentMore(db.events, d.events, db.sent, server);
    forall t | t in syncs.threads ensures SyncOk(d, server, syncs.threads[t]) {
      assert SyncOk(db, server, syncs.threads[t]);
      if !syncs.threads[t].Reading? {
        BatchStays(db.events, d.events, db.sent, d.sent, syncs.threads[t].batch);
      }
    }
    forall batch | batch in syncs.wire ensures BatchOk(d.events, d.sent, batch) {
      BatchStays(db.events, d.events, db.sent, d.sent, batch);
    }
  }

  // ---------------------------------------------------------------- executor threads

  lemma AdvanceDelivery(s: System, id: RunId, run: Run)
    requires OutboxOk(s.db, {}) && DeliveryOk(s) && id in s.db.runs && SameIdentity(run, s.db.runs[id].run)
    ensures var d := Advance(s.db, id, run);
            ServerOk(d.events, s.server) && SentOk(d.events, d.sent, s.server) && SyncsOk(d, s.server, s.syncs)
  {
    hide OutboxOk, ServerOk, SentOk, SyncsOk, Granted, SameIdentity;
    EnqueueGranted(s.db, {}, s.server, id, run);
    SameEvents(s.db, id, run);
    DeliveryStays(s.db, Advance(s.db, id, run), s.server, s.syncs);
  }

  lemma SameEvents(db: Db, id: RunId, run: Run)
    requires id in db.runs
    ensures Advance(db, id, run).events == Enqueue(db, run, db.runs[id].grant).events
    ensures Advance(db, id, run).sent == db.sent
  {
  }

  /** A thread records its run's next status and goes on as `next` says, or ends. */
  lemma ThreadMoves(s: System, key: string, run: Run, next: Option<Task>)
    requires SystemOk(s) && s.life.Up? && key in s.tasks
    requires var t := s.tasks[key];
             t.pos < |t.runs| && t.runs[t.pos] in s.db.runs && SameIdentity(run, s.db.runs[t.runs[t.pos]].run)
             && Arrow(run.mode, s.db.runs[t.runs[t.pos]].run.status, run.status)
    requires next.Some? ==> TaskOk(Advance(s.db, s.tasks[key].runs[s.tasks[key].pos], run), key, next.value)
    requires next.Some? && HoldsSlot(next.value) ==> HoldsSlot(s.tasks[key])
    ensures SystemOk(s.(db := Advance(s.db, s.tasks[key].runs[s.tasks[key].pos], run),
                        tasks := if next.Some? then s.tasks[key := next.value] else s.tasks - {key}))
  {
    hide TaskOk, OutboxOk, HistoryOk, ServerOk, SentOk, SyncsOk, Advance, SameIdentity, Arrow;
    var t := s.tasks[key];
    var d := Advance(s.db, t.runs[t.pos], run);
    var later := if next.Some? then s.tasks[key := next.value] else s.tasks - {key};
    RunMoves(s.db, key, t, run);
    AdvanceDelivery(s, t.runs[t.pos], run);
    FewerHolders(s.tasks, later);
    forall l | l in later ensures TaskOk(d, l, later[l]) {
      if l != key {
        OtherMoves(s.db, key, t, l, s.tasks[l], run);
      }
    }
  }

  lemma OtherMoves(db: Db, k: string, t: Task, l: string, u: Task, run: Run)
    requires HistoryOk(db) && TaskOk(db, k, t) && TaskOk(db, l, u) && k != l
    ensures t.pos < |t.runs| && t.runs[t.pos] in db.runs && TaskOk(Advance(db, t.runs[t.pos], run), l, u)
  {
    OtherTasks(db, k, t, l, u, run);
  }
}
