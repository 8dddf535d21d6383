/** What a project cleanup on the central server does to the outbox of a runner. */
module RunnerCleanup {
  import opened RunnerTypes
  import opened RunnerTables
  import opened Central
  import opened RunnerSystem
  import opened OutboxOrder
  import opened DeliveryInvariant
  import opened DeliverySteps
  import opened OwnerInvariant
  import opened SystemInvariant
  import opened LifeSteps
  import opened RunnerTheorems
  import opened RunnerDrain
  import opened Progress
  import HistoryInvariant
  import OutboxInvariant

  // ---------------------------------------------------------------- syncing is disabled for good

  ghost predicate SomeGone(t: System) { exists e :: e in t.db.events && e.grant in t.server.gone }

  lemma GoneLater(s: System, t: System)
    requires Later(s, t) && SomeGone(s)
    ensures SomeGone(t)
  {
    hide RowsLater, RequestsLater;
    var e :| e in s.db.events && e.grant in s.server.gone;
    assert e in t.db.events;
  }

  /** Only a refused post disables. */
  lemma DisabledNow(s: System, step: Step)
    requires SystemOk(s) && !s.syncs.disabled && Apply(s, step).syncs.disabled
    ensures step.SyncPost? && s.life.Up? && step.thread in s.syncs.threads && s.syncs.threads[step.thread].Posting?
            && FrontPart(step.part, s.syncs.threads[step.thread].batch)
            && Accept(s.server, step.part) == Err(GrantInvalid)
  {
    hide SystemOk, CreateRuns, RetryRun, CompleteDirect, Accept, Pending, MarkSent, TransitionRun, MarkFinished,
      InterruptActive, ReconcileOne, FrontPart, Cleaned, Removable, ListsGranted;
  }

  /** Syncing is disabled in no reachable state unless a cleanup deleted the grant of some event. */
  lemma {:induction false} DisabledByCleanup(s: System, steps: seq<Step>)
    requires Installed(s) && After(s, steps).syncs.disabled
    ensures SomeGone(After(s, steps))
  {
    if steps != [] {
      var n := |steps| - 1;
      var a := After(s, steps[..n]);
      hide Apply, SystemOk, Later, SomeGone, FrontPart, Accept, BatchOk, ServerOk, Delivered, Further;
      Reachable(s, steps[..n]);
      if a.syncs.disabled {
        DisabledByCleanup(s, steps[..n]);
      } else {
        DisabledNow(a, steps[n]);
        BatchOf(a, steps[n].thread);
        ArrivalOk(a, a.syncs.threads[steps[n].thread].batch, steps[n].part);
        RefusedIsGone(a, steps[n].part);
      }
      StepLater(a, steps[n]);
      GoneLater(a, After(s, steps));
    }
  }

  lemma RefusedIsGone(s: System, part: seq<Event>)
    requires SystemOk(s) && BatchOk(s.db.events, s.db.sent, part) && exists e :: e in part && e.grant in s.server.gone
    ensures SomeGone(s)
  {
    hide OutboxInvariant.OutboxOk, HistoryInvariant.HistoryOk, OwnerOk, DeliveryOk, BatchOk, Chained;
    OutboxIsChained(s.db, Lag(s));
    BatchAscends(s.db.events, s.db.sent, part);
  }

  /** Disabled, with no call of `sync` left in progress. */
  predicate Frozen(t: System) { t.syncs.disabled && t.syncs.threads == map[] }

  lemma StaysFrozen(s: System, step: Step)
    requires Frozen(s)
    ensures Frozen(Apply(s, step)) && Apply(s, step).db.sent == s.db.sent
  {
    hide CreateRuns, RetryRun, CompleteDirect, Accept, Pending, TransitionRun, MarkFinished, ReconcileOne, FrontPart,
      Cleaned, Removable, ListsGranted, SlotHolders;
    SentOnlyMarked(s, step);
  }

  lemma {:induction false} InsertSent(db: Db, added: seq<Run>, grant: string)
    ensures Insert(db, added, grant).sent == db.sent
  {
    if added != [] {
      InsertSent(db, added[..|added| - 1], grant);
    }
  }

  lemma CreateSent(db: Db, host: string, req: RunCreate, grant: Option<string>, ids: seq<RunId>, batch: nat, now: int)
    requires |ids| == |req.items| >= 1
    ensures CreateRuns(db, host, req, grant, ids, batch, now).db.sent == db.sent
  {
    hide RowClash, EventClash, LiveTarget, Actives, Replay, Insert;
    forall added: seq<Run>, g: string ensures Insert(db, added, g).sent == db.sent {
      InsertSent(db, added, g);
    }
  }

  lemma RetrySent(db: Db, host: string, source: RunId, key: string, grant: Option<string>, context: Option<Context>,
                  id: RunId, batch: nat, now: int)
    ensures RetryRun(db, host, source, key, grant, context, id, batch, now).db.sent == db.sent
  {
    hide RowClash, EventClash, LiveTarget, Actives, Replay, Insert;
    forall added: seq<Run>, g: string ensures Insert(db, added, g).sent == db.sent {
      InsertSent(db, added, g);
    }
  }

  lemma TaskSent(s: System, step: Step)
    requires IsTaskStep(step)
    ensures TaskStep(s, step).db.sent == s.db.sent
  {
    hide Transitioned, NextSequence, SlotHolders;
  }

  lemma RequestSent(s: System, step: Step)
    requires IsRequestStep(step)
    ensures RequestStep(s, step).db.sent == s.db.sent
  {
    hide CreateRuns, RetryRun, NextSequence, Approved;
    match step {
      case Create(req, grant, ids, batch, now) =>
        if Admitted(req) && |ids| == |req.items| {
          CreateSent(s.db, s.host, req, Some(grant), ids, batch, now);
        }
      case Retry(source, key, grant, id, batch, now) =>
        if grant in s.server.grants {
          RetrySent(s.db, s.host, source, key, Some(grant), Some(s.server.grants[grant]), id, batch, now);
        }
      case _ =>
    }
  }

  /** Marking an answered batch is the only step that sets a flag. */
  lemma SentOnlyMarked(s: System, step: Step)
    ensures var t := Apply(s, step);
            if step.SyncMark? && s.life.Up? && step.thread in s.syncs.threads && s.syncs.threads[step.thread].Answered?
            then t.db == MarkSent(s.db, KeysOf(s.syncs.threads[step.thread].batch)) else t.db.sent == s.db.sent
  {
    hide TaskStep, RequestStep, MarkSent, Accept, Pending, FrontPart, Cleaned, Removable, ListsGranted, Present,
      NextSequence;
    if IsTaskStep(step) {
      TaskSent(s, step);
    } else if IsRequestStep(step) {
      RequestSent(s, step);
    }
  }

  /** Once syncing is disabled and the calls in progress have ended, no event is ever marked again: whatever else
      happens, restarts included, the pending events of every run of the binding stay pending. */
  lemma {:induction false} FrozenForever(s: System, steps: seq<Step>)
    requires Frozen(s)
    ensures Frozen(After(s, steps)) && After(s, steps).db.sent == s.db.sent
  {
    hide Apply, Frozen;
    if steps != [] {
      FrozenForever(s, steps[..|steps| - 1]);
      StaysFrozen(After(s, steps[..|steps| - 1]), steps[|steps| - 1]);
    }
  }

  // ---------------------------------------------------------------- events that can never be delivered

  /** Pending under a deleted grant, and no thread holds an answer that names it. */
  ghost predicate Stuck(t: System, e: Event) {
    e in t.db.events && e.grant in t.server.gone && !IsSent(t.db.sent, e)
    && forall k :: k in t.syncs.threads && t.syncs.threads[k].Answered? ==> e !in t.syncs.threads[k].batch
  }

  /** Events of a batch and of the outbox with the same key are the same. */
  lemma SameKeySame(events: seq<Event>, sent: set<(RunId, nat)>, batch: seq<Event>, x: Event, e: Event)
    requires Chained(events) && BatchOk(events, sent, batch) && x in batch && e in events
    requires x.run.id == e.runId && x.sequence == e.sequence
    ensures x == e
  {
    hide BatchOk;
    InBatch(events, sent, batch, x);
    Sequenced(events, sent, batch, x);
    OfHas(events, e);
    var i :| 0 <= i < |Of(events, e.runId)| && Of(events, e.runId)[i] == e;
    assert ChainAt(Of(events, e.runId), e.runId, i);
  }

  lemma KeyHolder(batch: seq<Event>, key: (RunId, nat)) returns (x: Event)
    requires key in KeysOf(batch)
    ensures x in batch && (x.run.id, x.sequence) == key
  {
    var i :| 0 <= i < |KeysOf(batch)| && KeysOf(batch)[i] == key;
    x := batch[i];
  }

  lemma NotMarked(s: System, step: Step, e: Event)
    requires SystemOk(s) && Stuck(s, e)
    ensures !IsSent(Apply(s, step).db.sent, e)
  {
    hide OutboxInvariant.OutboxOk, HistoryInvariant.HistoryOk, OwnerOk, ServerOk, SentOk, SyncsOk, Chained, BatchOk,
      Apply;
    SentOnlyMarked(s, step);
    if step.SyncMark? && step.thread in s.syncs.threads && s.syncs.threads[step.thread].Answered? {
      var batch := s.syncs.threads[step.thread].batch;
      if (e.runId, e.sequence) in KeysOf(batch) {
        var x := KeyHolder(batch, (e.runId, e.sequence));
        BatchOf(s, step.thread);
        OutboxIsChained(s.db, Lag(s));
        SameKeySame(s.db.events, s.db.sent, batch, x, e);
      }
    }
  }

  /** A thread comes to hold an answer only when the server accepted. */
  lemma AnsweredOnly(s: System, step: Step, k: nat)
    requires k in Apply(s, step).syncs.threads && Apply(s, step).syncs.threads[k].Answered?
    ensures var batch := Apply(s, step).syncs.threads[k].batch;
            (k in s.syncs.threads && s.syncs.threads[k] == Answered(batch))
            || (s.life.Up? && k in s.syncs.threads && s.syncs.threads[k].Posting?
                && FrontPart(batch, s.syncs.threads[k].batch) && Accept(s.server, batch).Ok?)
  {
    hide CreateRuns, RetryRun, CompleteDirect, Accept, Pending, MarkSent, TransitionRun, MarkFinished,
      InterruptActive, ReconcileOne, FrontPart, Cleaned, Removable, ListsGranted, SlotHolders;
  }

  lemma AcceptedClean(s: System, k: nat, part: seq<Event>)
    requires SystemOk(s) && k in s.syncs.threads && s.syncs.threads[k].Posting?
    requires FrontPart(part, s.syncs.threads[k].batch) && Accept(s.server, part).Ok?
    ensures forall e :: e in part ==> e.grant !in s.server.gone
  {
    hide SystemOk, Accept, FrontPart, BatchOk, ServerOk, SentOk, SyncsOk, Delivered, Further;
    BatchOf(s, k);
    ArrivalOk(s, s.syncs.threads[k].batch, part);
  }

  lemma NotAnswered(s: System, step: Step, e: Event, k: nat)
    requires SystemOk(s) && Stuck(s, e) && k in Apply(s, step).syncs.threads
    requires Apply(s, step).syncs.threads[k].Answered?
    ensures e !in Apply(s, step).syncs.threads[k].batch
  {
    hide SystemOk, Apply, Accept, FrontPart;
    AnsweredOnly(s, step, k);
    if s.syncs.threads[k].Posting? {
      AcceptedClean(s, k, Apply(s, step).syncs.threads[k].batch);
    }
  }

  lemma StaysStuck(s: System, step: Step, e: Event)
    requires SystemOk(s) && Stuck(s, e)
    ensures Stuck(Apply(s, step), e)
  {
    hide SystemOk, Apply, RowsLater, RequestsLater;
    StepLater(s, step);
    NotMarked(s, step, e);
    forall k | k in Apply(s, step).syncs.threads && Apply(s, step).syncs.threads[k].Answered?
      ensures e !in Apply(s, step).syncs.threads[k].batch
    {
      NotAnswered(s, step, e, k);
    }
  }

  lemma {:induction false} StuckForever(s: System, steps: seq<Step>, e: Event)
    requires SystemOk(s) && Stuck(s, e)
    ensures Stuck(After(s, steps), e)
  {
    hide SystemOk, Apply, Stuck;
    if steps != [] {
      StuckForever(s, steps[..|steps| - 1], e);
      AlwaysOk(s, steps[..|steps| - 1]);
      StaysStuck(After(s, steps[..|steps| - 1]), steps[|steps| - 1], e);
    }
  }

  lemma StuckIsPending(t: System, e: Event)
    requires Stuck(t, e)
    ensures PendingCount(t.db) > 0
  {
    UnsentAre(t.db.events, t.db.sent, e);
  }

  // ---------------------------------------------------------------- which outboxes can drain

  function AnsweredThreads(t: System): set<nat> { set k | k in t.syncs.threads && t.syncs.threads[k].Answered? }

  lemma MarkKeeps(db: Db, keys: seq<(RunId, nat)>)
    ensures var d := MarkSent(db, keys); d.runs == db.runs && d.events == db.events && db.sent <= d.sent
  {
  }

  function Marked(s: System, k: nat): System
    requires k in s.syncs.threads && s.syncs.threads[k].Answered?
  {
    s.(db := MarkSent(s.db, KeysOf(s.syncs.threads[k].batch)),
       syncs := s.syncs.(threads := s.syncs.threads[k := Reading]))
  }

  lemma StuckBefore(s: System, k: nat, e: Event)
    requires SystemOk(s) && k in s.syncs.threads && s.syncs.threads[k].Answered? && Stuck(Marked(s, k), e)
    ensures Stuck(s, e)
  {
    hide SystemOk, MarkSent;
    MarkKeeps(s.db, KeysOf(s.syncs.threads[k].batch));
    forall j | j in s.syncs.threads && s.syncs.threads[j].Answered? ensures e !in s.syncs.threads[j].batch {
      if j != k {
        assert Marked(s, k).syncs.threads[j] == s.syncs.threads[j];
      } else if e in s.syncs.threads[k].batch {
        MarkHits(s, k, e);
      }
    }
  }

  /** One thread marks what its answer names. */
  lemma MarkOne(s: System, before: seq<Step>, k: nat) returns (steps: seq<Step>)
    requires Installed(s) && After(s, before).life.Up? && forall e :: !Stuck(After(s, before), e)
    requires k in AnsweredThreads(After(s, before))
    ensures before <= steps && After(s, steps) == Marked(After(s, before), k)
    ensures forall e :: !Stuck(After(s, steps), e)
  {
    hide After, Stuck, Apply, SystemOk, MarkSent;
    var a := After(s, before);
    Reachable(s, before);
    steps := Pushed(s, before, SyncMark(k));
    MarkIs(a, k, a.syncs.threads[k].batch);
    forall e ensures !Stuck(After(s, steps), e) {
      if Stuck(After(s, steps), e) {
        StuckBefore(a, k, e);
      }
    }
  }

  lemma {:induction false} MarkAnswers(s: System, before: seq<Step>) returns (steps: seq<Step>)
    requires Installed(s) && After(s, before).life.Up? && forall e :: !Stuck(After(s, before), e)
    ensures var b := After(s, steps);
            before <= steps && b.life.Up? && AnsweredThreads(b) == {}
            && b.syncs.disabled == After(s, before).syncs.disabled && forall e :: !Stuck(b, e)
    decreases |AnsweredThreads(After(s, before))|
  {
    hide After, Stuck;
    steps := before;
    if k :| k in AnsweredThreads(After(s, before)) {
      steps := MarkOne(s, before, k);
      assert AnsweredThreads(After(s, steps)) == AnsweredThreads(After(s, before)) - {k};
      steps := MarkAnswers(s, steps);
    }
  }

  lemma MarkHits(s: System, k: nat, e: Event)
    requires SystemOk(s) && k in s.syncs.threads && s.syncs.threads[k].Answered? && e in s.syncs.threads[k].batch
    ensures IsSent(MarkSent(s.db, KeysOf(s.syncs.threads[k].batch)).sent, e)
  {
    hide OutboxInvariant.OutboxOk, HistoryInvariant.HistoryOk, OwnerOk, ServerOk, SentOk, SyncsOk, Chained, BatchOk,
      Posted;
    var batch := s.syncs.threads[k].batch;
    BatchOf(s, k);
    OutboxIsChained(s.db, Lag(s));
    BatchAscends(s.db.events, s.db.sent, batch);
    IsPosted(s.db.events, batch, e);
    var i :| 0 <= i < |batch| && batch[i] == e;
    assert KeysOf(batch)[i] == (e.runId, e.sequence);
    assert HasKey(s.db.events, e.runId, e.sequence);
  }

  lemma NoneStuck(t: System)
    requires AnsweredThreads(t) == {} && forall e :: !Stuck(t, e)
    ensures Deliverable(t)
  {
    forall e | e in Unsent(t.db.events, t.db.sent) ensures e.grant !in t.server.gone {
      UnsentAre(t.db.events, t.db.sent, e);
      assert !Stuck(t, e);
      assert forall k :: k in t.syncs.threads && t.syncs.threads[k].Answered? ==> k in AnsweredThreads(t);
    }
  }

  /** Some further steps end with nothing pending. */
  ghost predicate DrainedBy(s: System, before: seq<Step>, after: seq<Step>) {
    PendingCount(After(s, before + after).db) == 0
  }

  /** While syncing is not disabled, the outbox of a reachable state can still be emptied if and only if no pending
      event is under a deleted grant without an answer for it being held. */
  lemma DrainableExactly(s: System, before: seq<Step>)
    requires Installed(s) && After(s, before).life.Up? && !After(s, before).syncs.disabled
    ensures (exists after :: DrainedBy(s, before, after)) <==> forall e :: !Stuck(After(s, before), e)
  {
    hide After, Stuck, PendingCount, SystemOk;
    var a := After(s, before);
    Reachable(s, before);
    if after :| DrainedBy(s, before, after) {
      forall e ensures !Stuck(a, e) {
        if Stuck(a, e) {
          AfterConcat(s, before, after);
          StuckForever(a, after, e);
          StuckIsPending(After(s, before + after), e);
        }
      }
    }
    if forall e :: !Stuck(a, e) {
      var steps := MarkAnswers(s, before);
      NoneStuck(After(s, steps));
      var more := Drains(s, steps);
      assert before + more[|before|..] == more;
      assert DrainedBy(s, before, more[|before|..]);
    }
  }
}
