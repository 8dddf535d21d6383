/** Each active row belongs to at most one executor thread, and a thread's rows are where the thread thinks they are. */
module OwnerInvariant {
  import opened RunnerTypes
  import opened RunnerTables
  import opened RunnerSystem
  import opened HistoryInvariant
  import opened OutboxInvariant

  /** The thread works through the runs its request made: finished before its position, queued after it. */
  ghost predicate TaskOk(db: Db, key: string, t: Task) {
    key in db.requests && t.runs == db.requests[key].ids && t.pos < |t.runs| && Known(db.runs, t.runs)
    && (t.direct ==> |t.runs| == 1)
    && (forall i :: 0 <= i < |t.runs| ==> t.direct == db.runs[t.runs[i]].run.mode.Direct?)
    && (forall i :: 0 <= i < t.pos ==> Finished(db.runs[t.runs[i]].run.status))
    && (forall i :: t.pos < i < |t.runs| ==> db.runs[t.runs[i]].run.status.Queued?)
    && (if t.phase.Waiting? || t.phase.Holding? then db.runs[t.runs[t.pos]].run.status.Queued?
        else db.runs[t.runs[t.pos]].run.status.Running?)
  }

  ghost predicate OwnerOk(s: System) {
    (!s.life.Up? ==> s.tasks == map[] && s.syncs.threads == map[])
    && (forall key :: key in s.tasks ==> TaskOk(s.db, key, s.tasks[key]))
    && |SlotHolders(s.tasks)| <= s.slots
  }

  /** Two threads never own the same run. */
  lemma TasksApart(db: Db, k: string, t: Task, l: string, u: Task, id: RunId)
    requires RequestsOk(db.runs, db.requests) && TaskOk(db, k, t) && TaskOk(db, l, u)
    requires id in t.runs && id in u.runs
    ensures k == l
  {
  }

  lemma TaskStays(db: Db, d: Db, key: string, t: Task)
    requires TaskOk(db, key, t) && key in d.requests && d.requests[key] == db.requests[key]
    requires forall i :: 0 <= i < |t.runs| ==> t.runs[i] in d.runs && d.runs[t.runs[i]] == db.runs[t.runs[i]]
    ensures TaskOk(d, key, t)
  {
  }

  lemma RunsApart(db: Db, k: string, t: Task, l: string, u: Task, id: RunId)
    requires RequestsOk(db.runs, db.requests) && TaskOk(db, k, t) && TaskOk(db, l, u) && k != l && id in t.runs
    ensures id !in u.runs
  {
    hide RequestsOk, TaskOk;
    if id in u.runs {
      TasksApart(db, k, t, l, u, id);
    }
  }

  lemma Position(db: Db, key: string, t: Task)
    requires TaskOk(db, key, t)
    ensures t.pos < |t.runs| && t.runs[t.pos] in t.runs && t.runs[t.pos] in db.runs
    ensures forall i :: 0 <= i < |t.runs| ==> t.runs[i] in db.runs
  {
  }

  /** Advancing the run at the thread's position leaves every other thread's rows alone. */
  lemma OtherTasks(db: Db, k: string, t: Task, l: string, u: Task, run: Run)
    requires RequestsOk(db.runs, db.requests) && TaskOk(db, k, t) && TaskOk(db, l, u) && k != l
    ensures t.pos < |t.runs| && t.runs[t.pos] in db.runs
    ensures TaskOk(Advance(db, t.runs[t.pos], run), l, u)
  {
    Position(db, k, t);
    Position(db, l, u);
    RunsApart(db, k, t, l, u, t.runs[t.pos]);
    AdvancedRows(db, t.runs[t.pos], run);
    SameRecords(db, t.runs[t.pos], run, l, u);
    hide Advance, RequestsOk, TaskOk;
    TaskStays(db, Advance(db, t.runs[t.pos], run), l, u);
  }

  lemma SameRecords(db: Db, id: RunId, run: Run, l: string, u: Task)
    requires id in db.runs && TaskOk(db, l, u)
    ensures l in Advance(db, id, run).requests && Advance(db, id, run).requests[l] == db.requests[l]
  {
    hide NextSequence;
  }

  lemma OwnTask(db: Db, key: string, t: Task, run: Run)
    requires TaskOk(db, key, t) && Distinct(t.runs)
    requires run.mode == db.runs[t.runs[t.pos]].run.mode
    ensures var d := Advance(db, t.runs[t.pos], run);
            (run.status.Running? ==> TaskOk(d, key, t.(phase := Alive)))
    ensures var d := Advance(db, t.runs[t.pos], run);
            Finished(run.status) && t.pos + 1 < |t.runs| ==> TaskOk(d, key, t.(pos := t.pos + 1, phase := Waiting))
  {
    var d := Advance(db, t.runs[t.pos], run);
    forall i | 0 <= i < |t.runs| && i != t.pos
      ensures t.runs[i] in d.runs && d.runs[t.runs[i]] == db.runs[t.runs[i]]
    {
      assert if i < t.pos then t.runs[i] != t.runs[t.pos] else t.runs[t.pos] != t.runs[i];
    }
  }

  lemma RecordDistinct(db: Db, key: string)
    requires RequestsOk(db.runs, db.requests) && key in db.requests
    ensures Distinct(db.requests[key].ids)
  {
    assert RecordOk(db.runs, key, db.requests[key]);
  }

  // ---------------------------------------------------------------- process slots

  lemma FewerHolders(tasks: map<string, Task>, later: map<string, Task>)
    requires forall k :: k in later && HoldsSlot(later[k]) ==> k in tasks && HoldsSlot(tasks[k])
    ensures |SlotHolders(later)| <= |SlotHolders(tasks)|
  {
    assert SlotHolders(later) <= SlotHolders(tasks);
    Smaller(SlotHolders(later), SlotHolders(tasks));
  }

  lemma OneMoreHolder(tasks: map<string, Task>, key: string)
    requires key in tasks
    ensures |SlotHolders(tasks[key := tasks[key].(phase := Holding)])| <= |SlotHolders(tasks)| + 1
  {
    var later := tasks[key := tasks[key].(phase := Holding)];
    assert SlotHolders(later) <= SlotHolders(tasks) + {key};
    Smaller(SlotHolders(later), SlotHolders(tasks) + {key});
  }

  // ---------------------------------------------------------------- one run moves on

  /** The tables after a thread records the next status of the run at its position. */
  lemma RunMoves(db: Db, key: string, t: Task, run: Run)
    requires OutboxOk(db, {}) && HistoryOk(db) && TaskOk(db, key, t)
    requires SameIdentity(run, db.runs[t.runs[t.pos]].run)
    requires Arrow(run.mode, db.runs[t.runs[t.pos]].run.status, run.status)
    ensures OutboxOk(Advance(db, t.runs[t.pos], run), {}) && HistoryOk(Advance(db, t.runs[t.pos], run))
  {
    hide OutboxOk, RequestsOk, LineagesOk, AdmissionOk, OrdersOk, Moves, Advance, SameIdentity;
    var id := t.runs[t.pos];
    AdvanceOutbox(db, id, run);
    AdvanceMoves(db, id, run);
    var b := Advance(db, id, run).runs;
    RequestsMove(db.runs, b, db.requests);
    LineagesMove(db.runs, b);
    AdmissionMoves(db.runs, b);
    AdvanceOrders(db, key, t.pos, run);
  }

  /** Completing a direct run touches no thread: its row waits, and no thread owns a waiting row. */
  lemma CompleteMoves(db: Db, id: RunId, run: Run)
    requires OutboxOk(db, {}) && HistoryOk(db) && id in db.runs && db.runs[id].run.status.AwaitingCompletion?
    requires SameIdentity(run, db.runs[id].run) && run.mode.Direct? && run.status.Completed?
    ensures OutboxOk(Advance(db, id, run), {}) && HistoryOk(Advance(db, id, run))
  {
    hide OutboxOk, LineagesOk, AdmissionOk, OrdersOk, Moves, Advance;
    AdvanceOutbox(db, id, run);
    AdvanceMoves(db, id, run);
    var b := Advance(db, id, run).runs;
    RequestsMove(db.runs, b, db.requests);
    LineagesMove(db.runs, b);
    AdmissionMoves(db.runs, b);
    CompleteOrders(db, id, run);
  }

  lemma CompleteOrders(db: Db, id: RunId, run: Run)
    requires RequestsOk(db.runs, db.requests) && OrdersOk(db.runs, db.requests)
    requires id in db.runs && db.runs[id].run.status.AwaitingCompletion?
    ensures OrdersOk(Advance(db, id, run).runs, db.requests)
  {
    var b := Advance(db, id, run).runs;
    AdvancedRows(db, id, run);
    hide Advance, RequestsOk, InOrder;
    forall l | l in db.requests ensures Known(b, db.requests[l].ids) && InOrder(b, db.requests[l].ids) {
      WaitingOrder(db.runs, b, db.requests[l].ids, id);
    }
  }

  /** A waiting run counts as started and not as finished, so nothing behind it can have been started. */
  lemma WaitingOrder(a: map<RunId, Row>, b: map<RunId, Row>, ids: seq<RunId>, id: RunId)
    requires Known(a, ids) && InOrder(a, ids) && b.Keys == a.Keys && id in a && a[id].run.status.AwaitingCompletion?
    requires forall x :: x in a && x != id ==> b[x] == a[x]
    ensures Known(b, ids) && InOrder(b, ids)
  {
    forall i, j | 0 <= i < j < |ids| && Touched(b[ids[j]].run.status)
      ensures Finished(b[ids[i]].run.status)
    {
      assert Touched(a[ids[j]].run.status);
      assert Finished(a[ids[i]].run.status);
    }
  }

  lemma CompleteTasks(db: Db, id: RunId, run: Run, key: string, t: Task)
    requires TaskOk(db, key, t) && id in db.runs && db.runs[id].run.status.AwaitingCompletion?
    ensures TaskOk(Advance(db, id, run), key, t)
  {
    TaskStays(db, Advance(db, id, run), key, t);
  }
}
