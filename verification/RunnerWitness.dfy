/** The step relation is alive: every installed runner can take a batch run from its request to SUCCEEDED. */
module RunnerWitness {
  import opened RunnerTypes
  import opened RunnerTables
  import opened Central
  import opened RunnerSystem
  import opened RunnerTheorems
  import opened RunnerSlots
  import opened RunnerDrain
  import opened RunnerCleanup
  import HistoryInvariant

  datatype Work = Work(program: Registration, item: Item, context: Context, grant: string)

  function Request(w: Work): RunCreate { RunCreate("p", Batch, [w.item], w.context, "k") }

  function FirstRun(w: Work): Run {
    NewRun(0, None, 0, Batch, Snapshot("p", w.program), w.item, w.context, 0)
  }

  function Programs(w: Work): Db { Db(map["p" := w.program], map[], [], {}, map[]) }

  lemma InsertsOne(w: Work)
    ensures var d := Insert(Programs(w), [FirstRun(w)], w.grant);
            d.runs == map[0 := Row(FirstRun(w), Some(w.grant), 0)] && d.events == [Event(0, 1, w.grant, FirstRun(w))]
            && d.programs == Programs(w).programs && d.requests == map[] && d.sent == {}
  {
    assert [FirstRun(w)][..0] == [];
    assert Insert(Programs(w), [], w.grant) == Programs(w);
  }

  lemma RequestCommits(w: Work, host: string)
    requires w.program.hostId == host
    ensures var c := CreateRuns(Programs(w), host, Request(w), Some(w.grant), [0], 0, 0);
            c.reply == Ok(Reply([FirstRun(w)], false)) && |c.db.events| == 1
            && c.db.runs == map[0 := Row(FirstRun(w), Some(w.grant), 0)]
  {
    var db, added := Programs(w), NewRuns(Request(w), Snapshot("p", w.program), [0], 0, 0);
    assert Actives(db.runs) == {};
    assert [0][..0] == [] && added == [FirstRun(w)];
    InsertsOne(w);
    hide Insert;
  }

  // ---------------------------------------------------------------- one step at a time

  lemma Pushed(s: System, steps: seq<Step>, x: Step) returns (more: seq<Step>)
    ensures After(s, more) == Apply(After(s, steps), x)
  {
    more := steps + [x];
    assert more[..|steps|] == steps;
  }

  lemma Boots(s: System)
    requires Installed(s)
    ensures Apply(s, Restart(0, [])) == s.(life := Recovering([]))
    ensures Apply(s.(life := Recovering([])), Recovered) == s.(life := Up)
  {
    assert InterruptActive(s.db, 0).runs == map[];
    assert InterruptActive(s.db, 0) == s.db;
  }

  lemma Prepares(s: System, w: Work)
    requires s.life.Up? && s.db == Db(map[], map[], [], {}, map[]) && w.grant !in s.server.grants
    ensures Apply(s, ChangePrograms(map["p" := w.program])) == s.(db := Programs(w))
    ensures Apply(s.(db := Programs(w)), Approve(w.grant, w.context))
         == s.(db := Programs(w), server := s.server.(grants := s.server.grants[w.grant := w.context]))
  {
  }

  /** One batch run of one item, with its state in the executor. */
  predicate OneTask(s: System, phase: Phase) {
    s.life.Up? && s.slots > 0 && s.tasks == map["k" := Task([0], 0, false, phase)]
    && 0 in s.db.runs && s.db.runs[0].grant.Some?
  }

  lemma Requested(s: System, w: Work)
    requires s.life.Up? && s.slots > 0 && s.db == Programs(w) && s.tasks == map[]
    requires Approved(s.server, w.grant, w.context) && w.program.hostId == s.host
    ensures var t := Apply(s, Create(Request(w), w.grant, [0], 0, 0)); OneTask(t, Waiting) && |t.db.events| == 1
  {
    RequestCommits(w, s.host);
    hide CreateRuns;
  }

  lemma TakesSlot(s: System)
    requires OneTask(s, Waiting)
    ensures OneTask(Apply(s, TakeSlot("k")), Holding) && Apply(s, TakeSlot("k")).db == s.db
  {
    assert SlotHolders(s.tasks) == {};
  }

  lemma Starts(s: System)
    requires OneTask(s, Holding)
    ensures OneTask(Apply(s, Start("k", 1)), Alive) && |Apply(s, Start("k", 1)).db.events| == |s.db.events| + 1
  {
    hide NextSequence, Transitioned;
  }

  lemma Exits(s: System)
    requires OneTask(s, Alive)
    ensures OneTask(Apply(s, ProcessEnds("k", Code(0))), Exited(Code(0)))
            && Apply(s, ProcessEnds("k", Code(0))).db == s.db
  {
  }

  lemma Ends(s: System)
    requires OneTask(s, Exited(Code(0)))
    ensures var t := Apply(s, Finish("k", 2));
            0 in t.db.runs && t.db.runs[0].run.status.Succeeded? && |t.db.events| == |s.db.events| + 1
              && t.tasks == map[]
  {
    hide NextSequence;
  }

  /** From every fresh installation with a slot, any program of this host, any item and any newly approved context: nine
      steps take a run from its request to SUCCEEDED, with one event per status. */
  lemma SomeRunSucceeds(s: System, w: Work) returns (steps: seq<Step>)
    requires Installed(s) && s.slots > 0 && w.grant !in s.server.grants && w.program.hostId == s.host
    ensures var t := After(s, steps);
            0 in t.db.runs && t.db.runs[0].run.status.Succeeded? && |t.db.events| == 3 && t.tasks == map[]
  {
    steps := [];
    assert After(s, []) == s;
    Boots(s);
    Prepares(s.(life := Up), w);
    hide After, Apply, OneTask;
    steps := Pushed(s, steps, Restart(0, []));
    steps := Pushed(s, steps, Recovered);
    steps := Pushed(s, steps, ChangePrograms(map["p" := w.program]));
    steps := Pushed(s, steps, Approve(w.grant, w.context));
    Requested(After(s, steps), w);
    steps := Pushed(s, steps, Create(Request(w), w.grant, [0], 0, 0));
    TakesSlot(After(s, steps));
    steps := Pushed(s, steps, TakeSlot("k"));
    Starts(After(s, steps));
    steps := Pushed(s, steps, Start("k", 1));
    Exits(After(s, steps));
    steps := Pushed(s, steps, ProcessEnds("k", Code(0)));
    Ends(After(s, steps));
    steps := Pushed(s, steps, Finish("k", 2));
  }

  // ---------------------------------------------------------------- many rows on few slots

  /** A different idempotency key for every n. */
  function KeyFor(n: nat): string { seq(n, i => 'k') }

  /** Everything the next request needs: the program, the approved context, a slot. */
  predicate Equipped(s: System, w: Work) {
    s.life.Up? && s.slots > 0 && Approved(s.server, w.grant, w.context)
    && w.program.hostId == s.host && s.db.programs == Programs(w).programs
  }

  /** The first n runs are RUNNING, and nothing beyond them is stored. */
  ghost predicate RowsPiled(db: Db, n: nat) {
    (forall id: RunId :: id in db.runs <==> id < n)
    && (forall id :: id in db.runs ==> db.runs[id].run.status.Running?)
    && (forall e :: e in db.events ==> e.runId < n)
    && (forall k :: k in db.requests ==> |k| < n)
  }

  ghost predicate TasksPiled(tasks: map<string, Task>, n: nat) {
    forall k :: k in tasks ==> |k| < n && !HoldsSlot(tasks[k])
  }

  /** n requests have run their subprocesses to the end, and no thread has stored a result yet. */
  ghost predicate Piled(s: System, w: Work, n: nat) { Equipped(s, w) && RowsPiled(s.db, n) && TasksPiled(s.tasks, n) }

  function NthRequest(w: Work, n: nat): RunCreate { RunCreate("p", Batch, [w.item], w.context, KeyFor(n)) }

  function NthRun(w: Work, n: nat): Run { NewRun(n, None, 0, Batch, Snapshot("p", w.program), w.item, w.context, 0) }

  function Below(n: nat): (r: set<nat>)
    ensures |r| == n && forall id: nat :: id in r <==> id < n
  {
    if n == 0 then {} else Below(n - 1) + {n - 1}
  }

  lemma BelowSize(x: set<nat>, n: nat)
    requires forall id: nat :: id in x ==> id < n
    ensures |x| <= n && ((forall id: nat :: id < n ==> id in x) ==> |x| == n)
  {
    HistoryInvariant.Smaller(x, Below(n));
    if forall id: nat :: id < n ==> id in x {
      assert x == Below(n);
    }
  }

  lemma InsertIsRow(db: Db, run: Run, grant: string)
    ensures Insert(db, [run], grant) == InsertRow(db, run, grant)
  {
    assert [run][..0] == [];
  }

  lemma NoClash(db: Db, n: nat)
    requires n !in db.runs && forall e :: e in db.events ==> e.runId < n
    ensures !RowClash(db.runs, [n]) && !EventClash(db.events, [n])
  {
    assert [n][..0] == [];
  }

  /** The queue has room for the n-th request, and nothing clashes. */
  lemma NthCommits(s: System, w: Work, n: nat)
    requires Piled(s, w, n) && n < 100
    ensures var c := CreateRuns(s.db, s.host, NthRequest(w, n), Some(w.grant), [n], 0, 0);
            c.reply == Ok(Reply([NthRun(w, n)], false)) && c.db == JoinedDb(s, w, n)
  {
    var added := NewRuns(NthRequest(w, n), Snapshot("p", w.program), [n], 0, 0);
    assert added == [NthRun(w, n)];
    BelowSize(Actives(s.db.runs), n);
    NoClash(s.db, n);
    InsertIsRow(s.db, NthRun(w, n), w.grant);
    assert KeyFor(n) !in s.db.requests;
    hide InsertRow, Insert, RowClash, EventClash, Actives, LiveTarget, TasksPiled;
  }

  /** The n-th request is in; everything older as it was. */
  ghost predicate RowsJoined(db: Db, n: nat, status: Status) {
    (forall id: RunId :: id in db.runs <==> id <= n)
    && (forall id :: id in db.runs && id < n ==> db.runs[id].run.status.Running?)
    && db.runs[n].run.status == status && db.runs[n].run.id == n
    && (forall e :: e in db.events ==> e.runId <= n)
    && (forall k :: k in db.requests ==> |k| <= n)
  }

  ghost predicate TasksJoined(tasks: map<string, Task>, n: nat, phase: Phase) {
    KeyFor(n) in tasks && tasks[KeyFor(n)] == Task([n], 0, false, phase)
    && forall k :: k in tasks ==> |k| <= n && (k != KeyFor(n) ==> !HoldsSlot(tasks[k]))
  }

  ghost predicate Joined(s: System, w: Work, n: nat, phase: Phase, status: Status) {
    Equipped(s, w) && RowsJoined(s.db, n, status) && TasksJoined(s.tasks, n, phase)
  }

  function JoinedDb(s: System, w: Work, n: nat): Db {
    InsertRow(s.db, NthRun(w, n),
              w.grant).(requests := s.db.requests[KeyFor(n) := Record(PrintOf(NthRequest(w, n)), [n])])
  }

  function JoinedTasks(s: System, n: nat): map<string, Task> { s.tasks[KeyFor(n) := Task([n], 0, false, Waiting)] }

  lemma JoinedRows(s: System, w: Work, n: nat)
    requires RowsPiled(s.db, n)
    ensures RowsJoined(JoinedDb(s, w, n), n, Queued) && JoinedDb(s, w, n).programs == s.db.programs
  {
    hide PrintOf, NthRequest;
  }

  lemma JoinedState(s: System, w: Work, n: nat)
    requires Piled(s, w, n)
    ensures Joined(s.(db := JoinedDb(s, w, n), tasks := JoinedTasks(s, n)), w, n, Waiting, Queued)
  {
    JoinedRows(s, w, n);
    hide RowsPiled, RowsJoined, JoinedDb;
  }

  lemma Joins(s: System, w: Work, n: nat)
    requires Piled(s, w, n) && n < 100
    ensures Joined(Apply(s, Create(NthRequest(w, n), w.grant, [n], 0, 0)), w, n, Waiting, Queued)
  {
    NthCommits(s, w, n);
    JoinedState(s, w, n);
    PiledFacts(s, w, n);
    hide *;
    CreateIs(s, w, n);
  }

  lemma CreateIs(s: System, w: Work, n: nat)
    requires s.life.Up? && Approved(s.server, w.grant, w.context)
    requires var c := CreateRuns(s.db, s.host, NthRequest(w, n), Some(w.grant), [n], 0, 0);
             c.reply == Ok(Reply([NthRun(w, n)], false)) && c.db == JoinedDb(s, w, n)
    ensures Apply(s, Create(NthRequest(w, n), w.grant, [n], 0, 0))
         == s.(db := JoinedDb(s, w, n), tasks := JoinedTasks(s, n))
  {
    hide CreateRuns, JoinedDb, NthRun, KeyFor;
  }

  lemma PiledFacts(s: System, w: Work, n: nat)
    requires Piled(s, w, n)
    ensures s.life.Up? && Approved(s.server, w.grant, w.context)
  {
  }

  lemma JoinedTakes(s: System, w: Work, n: nat)
    requires Joined(s, w, n, Waiting, Queued)
    ensures Joined(Apply(s, TakeSlot(KeyFor(n))), w, n, Holding, Queued)
  {
    hide KeyFor, RowsJoined;
    assert SlotHolders(s.tasks) == {};
  }

  lemma AdvancedJoined(db: Db, n: nat, run: Run)
    requires RowsJoined(db, n, Queued) && run.status.Running? && run.id == n
    ensures RowsJoined(Advance(db, n, run), n, Running) && Advance(db, n, run).programs == db.programs
  {
    hide NextSequence;
  }

  lemma JoinedStarts(s: System, w: Work, n: nat)
    requires Joined(s, w, n, Holding, Queued)
    ensures Joined(Apply(s, Start(KeyFor(n), 1)), w, n, Alive, Running)
  {
    AdvancedJoined(s.db, n, Transitioned(s.db.runs[n].run, Running, None, None, 1));
    InRuns(s.db, n);
    StartIs(s, KeyFor(n), n);
    PhaseJoined(s.tasks, n);
    hide KeyFor, RowsJoined, TasksJoined, Advance, Apply, Transitioned;
  }

  lemma StartIs(s: System, k: string, n: nat)
    requires s.life.Up? && k in s.tasks && s.tasks[k] == Task([n], 0, false, Holding) && n in s.db.runs
    ensures Apply(s, Start(k, 1))
         == s.(db := Advance(s.db, n, Transitioned(s.db.runs[n].run, Running, None, None, 1)),
               tasks := s.tasks[k := Task([n], 0, false, Alive)])
  {
    hide Advance, Transitioned;
  }

  lemma PhaseJoined(tasks: map<string, Task>, n: nat)
    requires TasksJoined(tasks, n, Holding)
    ensures TasksJoined(tasks[KeyFor(n) := Task([n], 0, false, Alive)], n, Alive)
  {
    hide KeyFor;
  }

  lemma InRuns(db: Db, n: nat)
    requires RowsJoined(db, n, Queued)
    ensures n in db.runs
  {
  }

  lemma JoinedExits(s: System, w: Work, n: nat)
    requires Joined(s, w, n, Alive, Running)
    ensures Piled(Apply(s, ProcessEnds(KeyFor(n), Code(0))), w, n + 1)
  {
    RowsDone(s.db, n);
    hide KeyFor, RowsJoined, RowsPiled;
  }

  lemma RowsDone(db: Db, n: nat)
    requires RowsJoined(db, n, Running)
    ensures RowsPiled(db, n + 1)
  {
  }

  lemma BootedIsPiled(s: System, w: Work)
    requires Installed(s) && s.slots > 0 && w.program.hostId == s.host
    ensures var t := s.(life := Up);
            Piled(t.(db := Programs(w), server := s.server.(grants := s.server.grants[w.grant := w.context])), w, 0)
  {
  }

  lemma {:induction false} PilesUp(s: System, w: Work, n: nat) returns (steps: seq<Step>)
    requires Installed(s) && s.slots > 0 && w.grant !in s.server.grants && w.program.hostId == s.host && n <= 100
    ensures Piled(After(s, steps), w, n) && After(s, steps).slots == s.slots
  {
    if n == 0 {
      steps := [];
      assert After(s, []) == s;
      Boots(s);
      Prepares(s.(life := Up), w);
      BootedIsPiled(s, w);
      hide After, Apply, Piled;
      steps := Pushed(s, steps, Restart(0, []));
      steps := Pushed(s, steps, Recovered);
      steps := Pushed(s, steps, ChangePrograms(map["p" := w.program]));
      steps := Pushed(s, steps, Approve(w.grant, w.context));
    } else {
      hide After, Apply, Piled, Joined, KeyFor, NthRequest;
      steps := PilesUp(s, w, n - 1);
      Joins(After(s, steps), w, n - 1);
      SameSlots(After(s, steps), Create(NthRequest(w, n - 1), w.grant, [n - 1], 0, 0));
      steps := Pushed(s, steps, Create(NthRequest(w, n - 1), w.grant, [n - 1], 0, 0));
      JoinedTakes(After(s, steps), w, n - 1);
      SameSlots(After(s, steps), TakeSlot(KeyFor(n - 1)));
      steps := Pushed(s, steps, TakeSlot(KeyFor(n - 1)));
      JoinedStarts(After(s, steps), w, n - 1);
      SameSlots(After(s, steps), Start(KeyFor(n - 1), 1));
      steps := Pushed(s, steps, Start(KeyFor(n - 1), 1));
      JoinedExits(After(s, steps), w, n - 1);
      SameSlots(After(s, steps), ProcessEnds(KeyFor(n - 1), Code(0)));
      steps := Pushed(s, steps, ProcessEnds(KeyFor(n - 1), Code(0)));
    }
  }

  lemma SameSlots(s: System, step: Step)
    ensures Apply(s, step).slots == s.slots
  {
    hide CreateRuns, RetryRun, CompleteDirect, Accept, Pending, MarkSent, TransitionRun, MarkFinished, InterruptActive,
         ReconcileOne, FrontPart;
  }

  /** For every n up to the queue limit, any number of slots, one included, lets n rows be RUNNING at once: results are
      stored after the slot is given back.  By admission no more than that is ever possible. */
  lemma SlotsDoNotBoundRows(s: System, w: Work, n: nat) returns (steps: seq<Step>)
    requires Installed(s) && s.slots > 0 && w.grant !in s.server.grants && w.program.hostId == s.host && n <= 100
    ensures var t := After(s, steps); t.life.Up? && t.slots == s.slots && |RunningRows(t.db.runs)| == n
  {
    steps := PilesUp(s, w, n);
    hide After;
    BelowSize(RunningRows(After(s, steps).db.runs), n);
  }

  // ---------------------------------------------------------------- a cleanup before the first event arrives

  lemma RequestedDb(s: System, w: Work)
    requires s.life.Up? && s.slots > 0 && s.db == Programs(w) && s.tasks == map[]
    requires Approved(s.server, w.grant, w.context) && w.program.hostId == s.host
    ensures var t := Apply(s, Create(Request(w), w.grant, [0], 0, 0));
            t.db.events == [Event(0, 1, w.grant, FirstRun(w))] && t.db.sent == {} && t.life.Up?
            && t.server == s.server && t.syncs == s.syncs && 0 in t.db.runs && t.db.runs[0].run.status.Queued?
  {
    RequestCommits(w, s.host);
    RequestEvents(w, s.host);
    hide CreateRuns;
  }

  lemma RequestEvents(w: Work, host: string)
    requires w.program.hostId == host
    ensures var c := CreateRuns(Programs(w), host, Request(w), Some(w.grant), [0], 0, 0);
            c.db.events == [Event(0, 1, w.grant, FirstRun(w))] && c.db.sent == {}
  {
    var db, added := Programs(w), NewRuns(Request(w), Snapshot("p", w.program), [0], 0, 0);
    assert Actives(db.runs) == {};
    assert [0][..0] == [] && added == [FirstRun(w)];
    InsertsOne(w);
    hide Insert;
  }

  lemma OnePending(db: Db, e: Event)
    requires db.events == [e] && db.sent == {}
    ensures Unsent(db.events, db.sent) == [e] && Pending(db, BATCH_LIMIT) == [e] && Pending(db, BATCH_LIMIT)[..1] == [e]
  {
    assert db.events[1..] == [];
  }

  lemma CleanedUp(s: System, grant: string)
    requires s.server.runs == map[] && grant in s.server.grants
    ensures var t := Apply(s, Cleanup({grant}));
            t == s.(server := t.server) && grant in t.server.gone
  {
    assert RunsUnder(s.server, {grant}) == {};
  }

  lemma Entered(s: System, thread: nat)
    requires s.life.Up? && thread !in s.syncs.threads && !s.syncs.disabled
    ensures Apply(s, SyncEnters(thread)) == s.(syncs := s.syncs.(threads := s.syncs.threads[thread := Reading]))
  {
  }

  /** From every fresh installation: a run is requested, the cleanup deletes its grant before its first event has
      arrived, which nothing blocks, and the next post disables syncing for good with that event pending and the run
      still QUEUED. */
  lemma CleanupStrands(s: System, w: Work) returns (steps: seq<Step>)
    requires Installed(s) && s.slots > 0 && w.grant !in s.server.grants && w.program.hostId == s.host
    ensures var t := After(s, steps);
            Frozen(t) && w.grant in t.server.gone && 0 in t.db.runs && t.db.runs[0].run.status.Queued?
            && t.db.sent == {} && Unsent(t.db.events, t.db.sent) == [Event(0, 1, w.grant, FirstRun(w))]
  {
    steps := [];
    assert After(s, []) == s;
    Boots(s);
    Prepares(s.(life := Up), w);
    hide After, Apply, Unsent, FirstRun, Frozen;
    steps := Pushed(s, steps, Restart(0, []));
    steps := Pushed(s, steps, Recovered);
    steps := Pushed(s, steps, ChangePrograms(map["p" := w.program]));
    steps := Pushed(s, steps, Approve(w.grant, w.context));
    RequestedDb(After(s, steps), w);
    steps := Pushed(s, steps, Create(Request(w), w.grant, [0], 0, 0));
    CleanedUp(After(s, steps), w.grant);
    steps := Pushed(s, steps, Cleanup({w.grant}));
    Entered(After(s, steps), 0);
    steps := Pushed(s, steps, SyncEnters(0));
    steps := Refused(s, steps, Event(0, 1, w.grant, FirstRun(w)));
  }

  lemma Refused(s: System, before: seq<Step>, e: Event) returns (steps: seq<Step>)
    requires Installed(s) && After(s, before).life.Up? && After(s, before).syncs.threads == map[0 := Reading]
    requires After(s, before).db.events == [e] && After(s, before).db.sent == {}
    requires e.grant in After(s, before).server.gone
    ensures var a, t := After(s, before), After(s, steps);
            Frozen(t) && t.db == a.db && t.server == a.server && Unsent(t.db.events, t.db.sent) == [e]
  {
    hide After, Apply, HistoryInvariant.HistoryOk, Unsent;
    var a := After(s, before);
    Reachable(s, before);
    OnePending(a.db, e);
    RoundMarks(a, 0, 1);
    assert e in [e] && UnderGone(a.server, [e]);
    steps := Pushed(s, before, SyncRead(0, 1));
    steps := Pushed(s, steps, SyncPost(0, [e]));
    steps := Pushed(s, steps, SyncMark(0));
    assert a.syncs.threads - {0} == map[];
  }
}
