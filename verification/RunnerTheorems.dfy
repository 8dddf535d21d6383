/** What holds in every state a fresh installation can reach, through any interleaving and any crashes. */
module RunnerTheorems {
  import opened RunnerTypes
  import opened RunnerTables
  import opened Central
  import opened RunnerSystem
  import opened HistoryInvariant
  import opened OutboxInvariant
  import opened OutboxOrder
  import opened DeliveryInvariant
  import opened OwnerInvariant
  import opened SystemInvariant
  import opened LifeSteps
  import opened Progress
  import RequestSteps

  lemma Reachable(s: System, steps: seq<Step>)
    requires Installed(s)
    ensures SystemOk(After(s, steps))
  {
    InstalledOk(s);
    AlwaysOk(s, steps);
  }

  // ---------------------------------------------------------------- life cycle and outbox

  /** Every run has a grant and one to four events, numbered from 1, that follow the documented life cycle;
      while the runner is up the last one shows the run's row. */
  lemma LifeCycle(s: System, steps: seq<Step>, id: RunId)
    requires Installed(s) && id in After(s, steps).db.runs
    ensures var t := After(s, steps);
            var row, evs := t.db.runs[id], Of(t.db.events, id);
            row.grant.Some? && 1 <= |evs| <= 4
            && (forall i :: 0 <= i < |evs| ==>
                 evs[i].sequence == i + 1 && Some(evs[i].grant) == row.grant && SameIdentity(evs[i].run, row.run))
            && evs[0].run.status.Queued?
            && (forall i :: 1 <= i < |evs| ==> Arrow(row.run.mode, evs[i - 1].run.status, evs[i].run.status))
            && (t.life.Up? ==> evs[|evs| - 1].run == row.run)
  {
    hide SystemOk, After, SameIdentity, Arrow, HistoryOk, OwnerOk, DeliveryOk;
    Reachable(s, steps);
    RowOfRun(After(s, steps), id);
    var t := After(s, steps);
    var row, evs := t.db.runs[id], Of(t.db.events, id);
    FourAtMost(row, id, evs, id in Lag(t));
    forall i | 0 <= i < |evs|
      ensures evs[i].sequence == i + 1 && Some(evs[i].grant) == row.grant && SameIdentity(evs[i].run, row.run)
    {
      assert EventOk(row, id, evs[i], i);
    }
  }

  lemma RowOfRun(t: System, id: RunId)
    requires SystemOk(t) && id in t.db.runs
    ensures RunOk(t.db.runs[id], id, Of(t.db.events, id), id in Lag(t))
  {
    hide RunOk, HistoryOk, OwnerOk, DeliveryOk;
    At(t.db, Lag(t), id);
  }

  /** Rows change only forward, identities never, and events, flags and records are never lost.  The server's receipts
      of a run stay as well, up to the cleanup that deletes its grant: then all of them are gone, with the
      stored run. */
  lemma NothingIsLost(s: System, before: seq<Step>, after: seq<Step>)
    requires Installed(s)
    ensures DbLater(After(s, before).db, After(s, before + after).db)
    ensures var a, b := After(s, before).server, After(s, before + after).server;
            a.gone <= b.gone
            && forall id: RunId :: Of(a.log, id) != [] ==>
                 if Of(a.log, id)[0].grant in b.gone then Of(b.log, id) == [] && id !in b.runs
                 else Of(a.log, id) <= Of(b.log, id) && id in b.runs
  {
    hide DbLater, SystemOk, After;
    Reachable(s, before);
    RunsLater(After(s, before), after);
    AfterConcat(s, before, after);
    var a, b := After(s, before), After(s, before + after);
    Reachable(s, before + after);
    forall id: RunId | Of(a.server.log, id) != []
      ensures if Of(a.server.log, id)[0].grant in b.server.gone then Of(b.server.log, id) == [] && id !in b.server.runs
              else Of(a.server.log, id) <= Of(b.server.log, id) && id in b.server.runs
    {
      ReceiptsOf(a, b, id);
    }
  }

  lemma ReceiptsOf(a: System, b: System, id: RunId)
    requires SystemOk(a) && SystemOk(b) && Later(a, b) && Of(a.server.log, id) != []
    ensures if Of(a.server.log, id)[0].grant in b.server.gone then Of(b.server.log, id) == [] && id !in b.server.runs
            else Of(a.server.log, id) <= Of(b.server.log, id) && id in b.server.runs
  {
    hide OutboxOk, HistoryOk, OwnerOk, ServerOk, SentOk, SyncsOk, Chained, RowsLater, RequestsLater, Gone;
    var x := Of(a.server.log, id)[0];
    assert x in Of(a.server.log, id);
    Logged(a.db.events, a.server, x);
    assert x in b.db.events;
    OutboxIsChained(b.db, Lag(b));
    GoneAll(b.db.events, b.server.gone, x);
    if x.grant in b.server.gone {
      GoneNothing(b.db.events, b.server, id);
    } else {
      Stored(b, id);
    }
  }

  lemma Stored(t: System, id: RunId)
    requires SystemOk(t)
    ensures LatestAt(t.server, id)
  {
    hide TablesOk, OwnerOk, SentOk, SyncsOk, LatestAt;
  }

  lemma {:induction false} AfterConcat(s: System, before: seq<Step>, after: seq<Step>)
    ensures After(s, before + after) == After(After(s, before), after)
  {
    hide Apply;
    if after == [] {
      assert before + after == before;
    } else {
      var n := |after| - 1;
      assert (before + after)[..|before + after| - 1] == before + after[..n];
      AfterConcat(s, before, after[..n]);
    }
  }

  // ---------------------------------------------------------------- recovery

  lemma {:induction false} ReconcileSettles(db: Db, lagging: set<RunId>, todo: seq<RunId>)
    requires OutboxOk(db, lagging) && Known(db.runs, todo)
    ensures OutboxOk(Reconcile(db, todo), lagging - set id | id in todo)
  {
    hide OutboxOk, ReconcileOne;
    if todo == [] {
      assert lagging - (set id | id in todo) == lagging;
    } else {
      var n := |todo| - 1;
      ReconcileSettles(db, lagging, todo[..n]);
      ReconcileOutbox(Reconcile(db, todo[..n]), lagging - (set id | id in todo[..n]), todo[n]);
      assert (lagging - set id | id in todo[..n]) - {todo[n]} == lagging - set id | id in todo;
    }
  }

  lemma ReconcileQuiet(db: Db, id: RunId)
    requires OutboxOk(db, {}) && id in db.runs
    ensures ReconcileOne(db, id) == db
  {
    hide RunOk, OutboxOk, Enqueue;
    PresentIsLatest(db, {}, id);
    At(db, {}, id);
    LastEvent(db.runs[id], id, Of(db.events, id), false);
  }

  lemma {:induction false} ReconcileNothing(db: Db, todo: seq<RunId>)
    requires OutboxOk(db, {}) && Known(db.runs, todo)
    ensures Reconcile(db, todo) == db
  {
    hide OutboxOk, ReconcileOne;
    if todo != [] {
      ReconcileNothing(db, todo[..|todo| - 1]);
      ReconcileQuiet(db, todo[|todo| - 1]);
    }
  }

  lemma InterruptReconciled(db: Db, events: seq<Event>, now: int)
    requires forall id :: id in db.runs ==> !Active(db.runs[id].run.status)
    ensures InterruptActive(db.(events := events), now) == db.(events := events)
  {
    assert InterruptActive(db.(events := events), now).runs == db.runs;
  }

  /** A restart, whatever state the crash left, ends with each run's last event showing its row and no run active;
      restarting again, in any order of rows, adds nothing. */
  lemma RecoverySettles(s: System, steps: seq<Step>, now: int, todo: seq<RunId>, again: int, redo: seq<RunId>)
    requires Installed(s)
    requires var d := InterruptActive(After(s, steps).db, now); ListsGranted(d.runs, todo) && ListsGranted(d.runs, redo)
    ensures var d := InterruptActive(After(s, steps).db, now);
            var r := Reconcile(d, todo);
            OutboxOk(r, {}) && (forall id :: id in r.runs ==> !Active(r.runs[id].run.status))
            && InterruptActive(r, again) == r && Reconcile(r, redo) == r
  {
    hide After, OutboxOk, HistoryOk, OwnerOk, DeliveryOk, InterruptedRun;
    Reachable(s, steps);
    var t := After(s, steps);
    var d := InterruptActive(t.db, now);
    InterruptOutbox(t.db, Lag(t), now);
    ReconcileSettles(d, t.db.runs.Keys, todo);
    forall id | id in d.runs ensures id in todo && !Active(d.runs[id].run.status) {
      AllGranted(d, t.db.runs.Keys, id);
      NotActive(t.db.runs[id].run, now);
    }
    var r := Reconcile(d, todo);
    DropLag(r, t.db.runs.Keys - (set id | id in todo), {});
    ReconcileNothing(r, redo);
    InterruptReconciled(d, r.events, again);
  }

  lemma NotActive(run: Run, now: int)
    ensures !Active(InterruptedRun(run, now).status)
  {
  }

  function Repeat(n: nat): (r: seq<Step>)
    ensures |r| == n && forall i :: 0 <= i < n ==> r[i] == ReconcileNext
  {
    seq(n, i => ReconcileNext)
  }

  /** The recovery steps compute what the storage class's reconciliation computes. */
  lemma {:induction false} RecoverySteps(s: System, todo: seq<RunId>, n: nat)
    requires s.life == Recovering(todo) && Known(s.db.runs, todo) && n <= |todo|
    ensures After(s, Repeat(n)) == s.(life := Recovering(todo[n..]), db := Reconcile(s.db, todo[..n]))
  {
    hide Apply, ReconcileOne;
    if n == 0 {
      assert todo[0..] == todo;
      assert todo[..0] == [];
    } else {
      RecoverySteps(s, todo, n - 1);
      assert Repeat(n)[..n - 1] == Repeat(n - 1);
      assert todo[..n][..n - 1] == todo[..n - 1];
      assert todo[n - 1..][1..] == todo[n..];
      OneRecoveryStep(After(s, Repeat(n - 1)));
    }
  }

  lemma OneRecoveryStep(s: System)
    requires s.life.Recovering? && s.life.todo != [] && s.life.todo[0] in s.db.runs
    ensures Apply(s, ReconcileNext)
         == s.(life := Recovering(s.life.todo[1..]), db := ReconcileOne(s.db, s.life.todo[0]))
  {
    hide ReconcileOne;
  }

  // ---------------------------------------------------------------- delivery to the central server

  /** Receipts are, run by run, a gap-free front part of the events; marked events were received and form a front part
      of the receipts; the server's copy of a run is the last event it received.  Of a run whose grant a cleanup has
      deleted nothing is on record any more. */
  lemma OrderedDelivery(s: System, steps: seq<Step>, id: RunId)
    requires Installed(s)
    ensures var t := After(s, steps);
            var got, evs := Of(t.server.log, id), Of(t.db.events, id);
            got <= evs
            && (forall n: nat :: (id, n) in t.db.sent ==> 1 <= n <= |evs|)
            && (if evs != [] && evs[0].grant in t.server.gone then got == []
                else forall n: nat :: (id, n) in t.db.sent ==> n <= |got|)
            && (forall m: nat, n: nat :: (id, n) in t.db.sent && 1 <= m < n ==> (id, m) in t.db.sent)
            && (id in t.server.runs <==> got != [])
            && (got != [] ==> t.server.runs[id] == CentralRun(got[|got| - 1].grant, got[|got| - 1].run))
  {
    hide After, SystemOk;
    Reachable(s, steps);
    DeliveryFacts(After(s, steps), id);
    GoneFacts(After(s, steps), id);
  }

  lemma DeliveryFacts(t: System, id: RunId)
    requires SystemOk(t)
    ensures Of(t.server.log, id) <= Of(t.db.events, id) && LatestAt(t.server, id)
    ensures forall n: nat :: (id, n) in t.db.sent ==> 1 <= n <= |Of(t.db.events, id)|
    ensures !Gone(t.db.events, t.server.gone, id) ==>
              forall n: nat :: (id, n) in t.db.sent ==> n <= |Of(t.server.log, id)|
    ensures forall m: nat, n: nat :: (id, n) in t.db.sent && 1 <= m < n ==> (id, m) in t.db.sent
  {
    hide TablesOk, OwnerOk, SyncsOk, LatestAt, Of, Gone;
    forall n: nat | (id, n) in t.db.sent
      ensures 1 <= n <= |Of(t.db.events, id)|
      ensures !Gone(t.db.events, t.server.gone, id) ==> n <= |Of(t.server.log, id)|
    {
      assert (id, n).1 == n;
    }
  }

  /** A run is gone when its first event is under a deleted grant, and then nothing of it is on record. */
  lemma GoneFacts(t: System, id: RunId)
    requires SystemOk(t)
    ensures var evs := Of(t.db.events, id);
            Gone(t.db.events, t.server.gone, id) <==> evs != [] && evs[0].grant in t.server.gone
    ensures Gone(t.db.events, t.server.gone, id) ==> Of(t.server.log, id) == [] && id !in t.server.runs
  {
    hide OutboxOk, HistoryOk, OwnerOk, SentOk, SyncsOk, ServerOk, Chained;
    OutboxIsChained(t.db, Lag(t));
    var evs := Of(t.db.events, id);
    if evs != [] {
      assert evs[0] in evs;
      GoneAll(t.db.events, t.server.gone, evs[0]);
    }
    if Gone(t.db.events, t.server.gone, id) {
      var e :| e in t.db.events && e.runId == id && e.grant in t.server.gone;
      OfHas(t.db.events, e);
      GoneNothing(t.db.events, t.server, id);
    }
  }

  /** Every batch the runner ever posted, and every front part of one, arriving in time, after other batches, twice, or
      after the process that sent it is gone, is accepted if and only if none of its events is under a deleted grant;
      otherwise it is refused because of the grant. */
  lemma RefusedExactly(s: System, steps: seq<Step>, batch: seq<Event>, part: seq<Event>)
    requires Installed(s) && batch in After(s, steps).syncs.wire && FrontPart(part, batch)
    ensures var t := After(s, steps);
            if exists e :: e in part && e.grant in t.server.gone then Accept(t.server, part) == Err(GrantInvalid)
            else Accept(t.server, part).Ok?
  {
    hide SystemOk, After, Accept, FrontPart, BatchOk, ServerOk, Delivered, Further;
    Reachable(s, steps);
    OnWire(After(s, steps), batch);
    ArrivalOk(After(s, steps), batch, part);
  }

  /** When nothing is pending, the central server shows exactly the runs whose grant it has not deleted, each as the
      runner's table does. */
  lemma DrainedMeansEqual(s: System, steps: seq<Step>, id: RunId)
    requires Installed(s) && After(s, steps).life.Up? && PendingCount(After(s, steps).db) == 0
    ensures Mirrored(After(s, steps), id)
  {
    hide After, SystemOk, Unsent;
    Reachable(s, steps);
    var t := After(s, steps);
    if id in t.db.runs {
      DrainedRun(t, id);
    } else {
      hide *;
      UnknownRun(t, id);
      NotMirrored(t, id);
    }
  }

  ghost predicate Mirrored(t: System, id: RunId) {
    (id in t.server.runs <==>
       id in t.db.runs && t.db.runs[id].grant.Some? && t.db.runs[id].grant.value !in t.server.gone)
    && (id in t.server.runs ==>
          t.server.runs[id].run == t.db.runs[id].run && Some(t.server.runs[id].grant) == t.db.runs[id].grant)
  }

  lemma NotMirrored(t: System, id: RunId)
    requires id !in t.server.runs && id !in t.db.runs
    ensures Mirrored(t, id)
  {
  }

  lemma DrainedRun(t: System, id: RunId)
    requires SystemOk(t) && t.life.Up? && PendingCount(t.db) == 0 && id in t.db.runs
    ensures Mirrored(t, id)
  {
    hide SystemOk, RunOk, Gone;
    RowOfRun(t, id);
    DeliveryFacts(t, id);
    GoneFacts(t, id);
    var got, evs := Of(t.server.log, id), Of(t.db.events, id);
    LastEvent(t.db.runs[id], id, evs, false);
    LastIsNumbered(t.db.runs[id], id, evs, false);
    FirstOk(t.db.runs[id], id, evs, false);
    if !Gone(t.db.events, t.server.gone, id) {
      LastReceived(t, id, evs[|evs| - 1]);
      assert |got| == |evs| && got == evs;
    }
  }

  /** Nothing pending means that every event is marked, and what is marked was received. */
  lemma LastReceived(t: System, id: RunId, e: Event)
    requires SystemOk(t) && PendingCount(t.db) == 0 && e in Of(t.db.events, id)
    requires !Gone(t.db.events, t.server.gone, id)
    ensures e.sequence <= |Of(t.server.log, id)|
  {
    hide SystemOk;
    DeliveryFacts(t, id);
    hide Of, Gone;
    UnsentAre(t.db.events, t.db.sent, e);
    assert IsSent(t.db.sent, e);
  }

  lemma UnknownRun(t: System, id: RunId)
    requires SystemOk(t) && id !in t.db.runs
    ensures id !in t.server.runs
  {
    hide RunOk, HistoryOk, OwnerOk;
    NoEvents(t.db.events, id);
    hide OutboxOk;
    assert Of(t.server.log, id) <= Of(t.db.events, id) && LatestAt(t.server, id);
  }

  lemma LastIsNumbered(row: Row, id: RunId, evs: seq<Event>, lagging: bool)
    requires RunOk(row, id, evs, lagging)
    ensures |evs| > 0 && evs[|evs| - 1].sequence == |evs| && Some(evs[|evs| - 1].grant) == row.grant
  {
    assert EventOk(row, id, evs[|evs| - 1], |evs| - 1);
  }

  // ---------------------------------------------------------------- admission

  /** At most 100 runs are queued or running, and no two live direct runs share a program and an input. */
  lemma Admission(s: System, steps: seq<Step>, a: RunId, b: RunId)
    requires Installed(s)
    ensures var runs := After(s, steps).db.runs;
            |Actives(runs)| <= 100
            && (a in runs && b in runs && a != b && Live(runs[a].run.status) && Live(runs[b].run.status)
                && runs[a].run.mode.Direct? && runs[b].run.mode.Direct?
                ==> runs[a].run.program.id != runs[b].run.program.id || runs[a].run.inputPath != runs[b].run.inputPath)
  {
    hide After, OutboxOk, RequestsOk, LineagesOk, OrdersOk, OwnerOk, DeliveryOk;
    Reachable(s, steps);
    assert NoDoubles(After(s, steps).db.runs);
  }

  /** No two items share an input and none is live already. */
  ghost predicate TargetsFree(runs: map<RunId, Row>, programId: string, inputs: seq<string>) {
    (forall i, j :: 0 <= i < j < |inputs| ==> inputs[i] != inputs[j])
    && forall i :: 0 <= i < |inputs| ==> !LiveTarget(runs, programId, inputs[i])
  }

  lemma DoublesNeedTargets(a: map<RunId, Row>, b: map<RunId, Row>, added: seq<Run>, programId: string,
                           inputs: seq<string>)
    requires Extends(a, b, added) && NoDoubles(b) && |inputs| == |added|
    requires forall i :: 0 <= i < |added| ==>
               added[i].mode.Direct? && added[i].program.id == programId && added[i].inputPath == inputs[i]
    ensures TargetsFree(a, programId, inputs)
  {
    forall i, j | 0 <= i < j < |inputs| ensures inputs[i] != inputs[j] {
      assert b[added[i].id].rowid != b[added[j].id].rowid;
      assert SameTarget(b[added[i].id].run, b[added[j].id].run) <==> inputs[i] == inputs[j];
    }
    forall i | 0 <= i < |inputs| ensures !LiveTarget(a, programId, inputs[i]) {
      if x :| (x in a && a[x].run.mode.Direct? && Live(a[x].run.status) && a[x].run.program.id == programId
               && a[x].run.inputPath == inputs[i]) {
        assert x != added[i].id && SameTarget(b[x].run, b[added[i].id].run);
      }
    }
  }

  lemma TargetsAvoidDoubles(a: map<RunId, Row>, b: map<RunId, Row>, added: seq<Run>, programId: string,
                            inputs: seq<string>)
    requires Extends(a, b, added) && NoDoubles(a) && |inputs| == |added| && TargetsFree(a, programId, inputs)
    requires forall i :: 0 <= i < |added| ==>
               added[i].mode.Direct? && added[i].program.id == programId && added[i].inputPath == inputs[i]
    ensures NoDoubles(b)
  {
    forall p, q | p in b && q in b && p != q && SameTarget(b[p].run, b[q].run)
      ensures !(Live(b[p].run.status) && Live(b[q].run.status))
    {
      if p !in a {
        var i := Newcomer(a, b, added, p);
        if q !in a {
          var j := Newcomer(a, b, added, q);
        } else {
          assert !LiveTarget(a, programId, inputs[i]);
        }
      } else if q !in a {
        var j := Newcomer(a, b, added, q);
        assert !LiveTarget(a, programId, inputs[j]);
      }
    }
  }

  /** A committed direct request of any number of items keeps live targets single exactly when its inputs differ from
      each other and none of them is live: the storage itself only looks at the first. */
  lemma DirectItemsExactly(db: Db, host: string, req: RunCreate, grant: string, ids: seq<RunId>, batch: nat, now: int)
    requires |ids| == |req.items| >= 1 && req.mode.Direct? && NoDoubles(db.runs)
    requires var c := CreateRuns(db, host, req, Some(grant), ids, batch, now); c.reply.Ok? && !c.reply.value.reused
    ensures NoDoubles(CreateRuns(db, host, req, Some(grant), ids, batch, now).db.runs)
       <==> TargetsFree(db.runs, req.programId,
                        seq(|req.items|, i requires 0 <= i < |req.items| => req.items[i].inputPath))
  {
    hide RowClash, EventClash, LiveTarget, Actives, Insert, NoDoubles, TargetsFree;
    RequestSteps.UnseenKey(db, req.key, PrintOf(req));
    var added := NewRuns(req, Snapshot(req.programId, db.programs[req.programId]), ids, batch, now);
    var inputs := seq(|req.items|, i requires 0 <= i < |req.items| => req.items[i].inputPath);
    RequestSteps.FreshIds(db, added, ids);
    InsertExtends(db, added, grant);
    var b := Insert(db, added, grant).runs;
    if NoDoubles(b) {
      DoublesNeedTargets(db.runs, b, added, req.programId, inputs);
    }
    if TargetsFree(db.runs, req.programId, inputs) {
      TargetsAvoidDoubles(db.runs, b, added, req.programId, inputs);
    }
  }

  /** Admission rests on the create handler's rule of one item per direct request: the storage by itself accepts two
      equal direct items in one request. */
  lemma DirectGuardIsNeeded(program: Registration, item: Item, context: Context, grant: string, now: int)
    ensures var db := Db(map["p" := program], map[], [], {}, map[]);
            var c := CreateRuns(db, program.hostId, RunCreate("p", Direct, [item, item], context, "k"), Some(grant),
                                [0, 1], 0, now);
            c.reply.Ok? && !NoDoubles(c.db.runs)
  {
    var db := Db(map["p" := program], map[], [], {}, map[]);
    var req := RunCreate("p", Direct, [item, item], context, "k");
    var added := NewRuns(req, Snapshot("p", program), [0, 1], 0, now);
    assert Actives(db.runs) == {};
    assert [0, 1][0] == 0 && [0, 1][1] == 1 && [0, 1][..1] == [0];
    var one, d := Insert(db, added[..1], grant), Insert(db, added, grant);
    assert added[..1][0] == added[0];
    assert d == InsertRow(one, added[1], grant)
      && one == InsertRow(Insert(db, added[..1][..0], grant), added[0], grant);
    assert d.runs[0].run == added[0] && d.runs[1].run == added[1];
  }

  // ---------------------------------------------------------------- idempotency

  /** The runs are partitioned by the records, and a create record and a retry record never share a run. */
  lemma RecordsPartitionRuns(s: System, steps: seq<Step>, id: RunId)
    requires Installed(s) && id in After(s, steps).db.runs
    ensures var db := After(s, steps).db;
            exists key :: key in db.requests && id in db.requests[key].ids
              && (forall l :: l in db.requests && id in db.requests[l].ids ==> l == key)
              && (db.requests[key].asked.RetryPrint? <==> db.runs[id].run.source.Some?)
  {
    hide SystemOk, After;
    Reachable(s, steps);
    var key := RecordFor(After(s, steps), id);
  }

  lemma RecordFor(t: System, id: RunId) returns (key: string)
    requires SystemOk(t) && id in t.db.runs
    ensures key in t.db.requests && id in t.db.requests[key].ids
    ensures forall l :: l in t.db.requests && id in t.db.requests[l].ids ==> l == key
    ensures t.db.requests[key].asked.RetryPrint? <==> t.db.runs[id].run.source.Some?
  {
    hide OutboxOk, LineagesOk, AdmissionOk, OrdersOk, OwnerOk, DeliveryOk, RecordOk;
    assert Covered(t.db.requests, id);
    key :| key in t.db.requests && id in t.db.requests[key].ids;
    AskedBy(t.db.runs, key, t.db.requests[key], id);
  }

  lemma AskedBy(runs: map<RunId, Row>, key: string, rec: Record, id: RunId)
    requires RecordOk(runs, key, rec) && id in rec.ids
    ensures id in runs && (rec.asked.RetryPrint? <==> runs[id].run.source.Some?)
  {
    var i :| 0 <= i < |rec.ids| && rec.ids[i] == id;
  }

  lemma RecordKnown(db: Db, key: string)
    requires RequestsOk(db.runs, db.requests) && key in db.requests
    ensures Known(db.runs, db.requests[key].ids)
  {
    assert RecordOk(db.runs, key, db.requests[key]);
  }

  lemma RecordOf(t: System, key: string)
    requires SystemOk(t) && key in t.db.requests
    ensures Known(t.db.runs, t.db.requests[key].ids)
  {
    hide OutboxOk, RequestsOk, LineagesOk, AdmissionOk, OrdersOk, OwnerOk, DeliveryOk;
    RecordKnown(t.db, key);
  }

  /** Once a key has been used, at every later time the same request gets the same runs in the same order and
      changes nothing; any other request under that key is refused and changes nothing. */
  lemma KeyAnswersForever(s: System, before: seq<Step>, after: seq<Step>, key: string, req: RunCreate,
                          source: RunId, grant: Option<string>, ids: seq<RunId>, batch: nat, now: int)
    requires Installed(s) && key in After(s, before).db.requests
    requires req.key == key && |ids| == |req.items| >= 1
    ensures var first := After(s, before).db.requests[key];
            var db := After(s, before + after).db;
            var c := CreateRuns(db, s.host, req, grant, ids, batch, now);
            c.db == db
            && (if first.asked == PrintOf(req)
                then Known(db.runs, first.ids) && c.reply == Ok(Reply(Fetch(db.runs, first.ids), true))
                else c.reply == Err(KeyReused))
    ensures var first := After(s, before).db.requests[key];
            var db := After(s, before + after).db;
            var c := RetryRun(db, s.host, source, key, grant, None, if |ids| > 0 then ids[0] else 0, batch, now);
            c.db == db
            && (if first.asked == RetryPrint(source)
                then Known(db.runs, first.ids) && c.reply == Ok(Reply(Fetch(db.runs, first.ids), true))
                else c.reply == Err(KeyReused))
  {
    hide SystemOk, After, RowsLater;
    NothingIsLost(s, before, after);
    Reachable(s, before + after);
    RecordOf(After(s, before + after), key);
  }

  /** The create handler replays with the caller's context but stores under the approved one: the caller's repeat is
      answered exactly when the approval left the request and the work item alone. */
  lemma RepeatIsAnswered(db: Db, host: string, req: RunCreate, approved: Context, grant: string,
                         ids: seq<RunId>, batch: nat, now: int)
    requires |ids| == |req.items| >= 1
    requires var c := CreateRuns(db, host, req.(context := approved), Some(grant), ids, batch, now);
             c.reply.Ok? && !c.reply.value.reused
    ensures var c := CreateRuns(db, host, req.(context := approved), Some(grant), ids, batch, now);
            Replay(c.db, req.key, PrintOf(req)) == Ok(Some(c.reply.value.runs))
            <==> approved.requestId == req.context.requestId && approved.workItemId == req.context.workItemId
  {
    hide RowClash, EventClash, LiveTarget, Actives, Insert;
    var sent := req.(context := approved);
    var program := Snapshot(req.programId, db.programs[req.programId]);
    var added := NewRuns(sent, program, ids, batch, now);
    RequestSteps.UnseenKey(db, req.key, PrintOf(sent));
    RequestSteps.FreshIds(db, added, ids);
    RequestSteps.RowsAdded(db, added, grant);
    var runs := Insert(db, added, grant).runs;
    forall i | 0 <= i < |ids| ensures ids[i] in runs && runs[ids[i]].run == added[i] {
      assert added[i].id == ids[i];
    }
    assert Fetch(runs, ids) == added;
  }

  // ---------------------------------------------------------------- retry chains

  /** The run a chain of retries started from. */
  ghost function Origin(runs: map<RunId, Row>, id: RunId): RunId
    requires LineagesOk(runs) && id in runs
    decreases runs[id].rowid
  {
    assert LineageOk(runs, id);
    if runs[id].run.source.None? then id else Origin(runs, runs[id].run.source.value)
  }

  lemma {:induction false} OriginWork(runs: map<RunId, Row>, id: RunId)
    requires LineagesOk(runs) && id in runs
    ensures var o := Origin(runs, id);
            o in runs && runs[o].run.source.None? && SameWork(runs[o].run, runs[id].run)
            && (o != id ==> Retryable(runs[o].run.status))
    decreases runs[id].rowid
  {
    assert LineageOk(runs, id);
    if runs[id].run.source.Some? {
      OriginWork(runs, runs[id].run.source.value);
    }
  }

  /** Every chain of retries ends at a run that is no retry; they all do the same work, and a run that has been
      retried is FAILED or INTERRUPTED from then on. */
  lemma RetryChain(s: System, before: seq<Step>, after: seq<Step>, id: RunId)
    requires Installed(s) && id in After(s, before).db.runs
    ensures LineagesOk(After(s, before).db.runs)
    ensures var runs := After(s, before).db.runs;
            var o := Origin(runs, id);
            o in runs && runs[o].run.source.None? && SameWork(runs[o].run, runs[id].run)
    ensures var runs, later := After(s, before).db.runs, After(s, before + after).db.runs;
            runs[id].run.source.Some? ==>
              var source := runs[id].run.source.value;
              source in runs && Retryable(runs[source].run.status)
              && source in later && later[source].run == runs[source].run
  {
    hide After, OutboxOk, RequestsOk, AdmissionOk, OrdersOk, OwnerOk, DeliveryOk, SameIdentity, SameWork;
    Reachable(s, before);
    NothingIsLost(s, before, after);
    var runs, later := After(s, before).db.runs, After(s, before + after).db.runs;
    OriginWork(runs, id);
    assert LineageOk(runs, id);
    if runs[id].run.source.Some? {
      var source := runs[id].run.source.value;
      assert RowLater(runs[source], later[source]);
    }
  }

  // ---------------------------------------------------------------- executor

  /** Never more slot holders than slots; each list is worked through in order; no two threads share a run, and a
      thread's current run is QUEUED before its start is recorded and RUNNING until its end is. */
  lemma Executor(s: System, steps: seq<Step>, k: string, l: string)
    requires Installed(s)
    ensures var t := After(s, steps);
            |SlotHolders(t.tasks)| <= t.slots
            && (k in t.db.requests
                ==> Known(t.db.runs, t.db.requests[k].ids) && InOrder(t.db.runs, t.db.requests[k].ids))
            && (k in t.tasks && l in t.tasks && k != l ==>
                  forall id :: id in t.tasks[k].runs ==> id !in t.tasks[l].runs)
            && (k in t.tasks ==>
                 AtRun(t, k) && t.tasks[k].runs[t.tasks[k].pos] in t.db.runs
                 && t.db.runs[t.tasks[k].runs[t.tasks[k].pos]].run.status
                    == if t.tasks[k].phase.Waiting? || t.tasks[k].phase.Holding? then Queued else Running)
  {
    hide After, OutboxOk, LineagesOk, AdmissionOk, DeliveryOk;
    Reachable(s, steps);
    var t := After(s, steps);
    if k in t.tasks {
      assert TaskOk(t.db, k, t.tasks[k]);
      if l in t.tasks && k != l {
        Apart(t, k, l);
      }
    }
  }

  lemma Apart(t: System, k: string, l: string)
    requires SystemOk(t) && k in t.tasks && l in t.tasks && k != l
    ensures forall id :: id in t.tasks[k].runs ==> id !in t.tasks[l].runs
  {
    hide OutboxOk, RequestsOk, LineagesOk, AdmissionOk, OrdersOk, DeliveryOk, TaskOk;
    forall id | id in t.tasks[k].runs ensures id !in t.tasks[l].runs {
      if id in t.tasks[l].runs {
        TasksApart(t.db, k, t.tasks[k], l, t.tasks[l], id);
      }
    }
  }

  /** Each row changes at most three times after it is created, and a final row never: one terminal write per run. */
  lemma OneTerminalWrite(s: System, before: seq<Step>, after: seq<Step>, id: RunId)
    requires Installed(s) && id in After(s, before).db.runs
    ensures var a, b := After(s, before).db.runs[id], After(s, before + after).db.runs;
            id in b && Rank(a.run.status) <= Rank(b[id].run.status)
            && (Rank(a.run.status) == Rank(b[id].run.status) ==> b[id] == a)
  {
    hide SystemOk, After, SameIdentity;
    NothingIsLost(s, before, after);
    assert RowLater(After(s, before).db.runs[id], After(s, before + after).db.runs[id]);
  }
}
