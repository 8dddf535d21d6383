/** The runner, its threads and the central server as one system: who may do what next, and what it changes. */
module RunnerSystem {
  import opened RunnerTypes
  import opened RunnerTables
  import opened Central

  datatype Outcome = Code(code: int) | Broken(error: string)

  /** Where an executor thread stands with the run at its list position. */
  datatype Phase =
    | Waiting            // created; no process slot yet
    | Holding            // slot taken, start not yet recorded
    | Alive              // start recorded, subprocess running in the slot
    | Exited(outcome: Outcome)  // slot released, result not yet recorded

  datatype Task = Task(runs: seq<RunId>, pos: nat, direct: bool, phase: Phase)

  /** A thread inside `sync`: at the top of its loop, with a batch on the wire, or with an answer that names what was
      accepted and is about to be marked. */
  datatype Delivery = Reading | Posting(batch: seq<Event>) | Answered(batch: seq<Event>)

  /** The threads inside `sync`; every batch ever posted: the network may deliver one late, again, or never, whatever
      has become of the thread that sent it; and whether syncing has been disabled, which no restart undoes. */
  datatype Flight = Flight(threads: map<nat, Delivery>, wire: set<seq<Event>>, disabled: bool)

  datatype Life = Down | Recovering(todo: seq<RunId>) | Up

  // Executor threads are named by the idempotency key of the request that started them.
  datatype System = System(host: string, slots: nat, life: Life, db: Db, tasks: map<string, Task>,
                           syncs: Flight, server: Server)

  datatype Step =
    | Approve(grant: string, context: Context)
    | Create(req: RunCreate, grant: string, ids: seq<RunId>, batch: nat, now: int)
    | Retry(source: RunId, key: string, grant: string, id: RunId, batch: nat, now: int)
    | PrepareFails(key: string, error: string, now: int)
    | TakeSlot(key: string)
    | Start(key: string, now: int)
    | ProcessEnds(key: string, outcome: Outcome)
    | Finish(key: string, now: int)
    | ThreadDies(key: string)
    | Complete(id: RunId, note: string, now: int)
    | SyncEnters(thread: nat)
    | SyncRead(thread: nat, count: nat)
    | SyncPost(thread: nat, part: seq<Event>)
    | SyncAgain(thread: nat)
    | SyncMark(thread: nat)
    | SyncStops(thread: nat)
    | ChangePrograms(programs: map<string, Registration>)
    | WireArrives(posted: seq<Event>, part: seq<Event>)
    | Cleanup(grants: set<string>)
    | Crash
    | Restart(now: int, todo: seq<RunId>)
    | ReconcileNext
    | Recovered

  const BATCH_LIMIT: nat := 100

  predicate HoldsSlot(t: Task) { t.phase.Holding? || t.phase.Alive? }

  function SlotHolders(tasks: map<string, Task>): set<string> { set k | k in tasks && HoldsSlot(tasks[k]) }

  /** What the create handler checks before the storage call. */
  predicate Admitted(req: RunCreate) {
    1 <= |req.items| <= 100 && (req.mode.Direct? ==> |req.items| == 1)
  }

  predicate Approved(server: Server, grant: string, context: Context) {
    grant in server.grants && server.grants[grant] == context
  }

  function NextRun(tasks: map<string, Task>, key: string): map<string, Task>
    requires key in tasks
  {
    var t := tasks[key];
    if t.pos + 1 < |t.runs| then tasks[key := t.(pos := t.pos + 1, phase := Waiting)] else tasks - {key}
  }

  datatype Verdict = Verdict(status: Status, exitCode: Option<int>, error: Option<string>)

  function VerdictOf(direct: bool, outcome: Outcome): Verdict {
    match outcome
    case Broken(error) => Verdict(Failed, None, Some(error))
    case Code(code) =>
      if code != 0 then Verdict(Failed, Some(code), None)
      else if direct then Verdict(AwaitingCompletion, Some(0), None)
      else Verdict(Succeeded, Some(0), None)
  }

  /** Record the end of the current run and move to the next; a storage error ends the thread. */
  function EndRun(s: System, key: string, v: Verdict, now: int): System
    requires key in s.tasks && s.tasks[key].pos < |s.tasks[key].runs|
  {
    var t := s.tasks[key];
    var c := MarkFinished(s.db, t.runs[t.pos], v.status, v.exitCode, v.error, now);
    if c.reply.Err? then s.(tasks := s.tasks - {key}) else s.(db := c.db, tasks := NextRun(s.tasks, key))
  }

  predicate AtRun(s: System, key: string) {
    key in s.tasks && s.tasks[key].pos < |s.tasks[key].runs|
  }

  function TaskStep(s: System, step: Step): System {
    match step
    case PrepareFails(key, error, now) =>
      if AtRun(s, key) && s.tasks[key].phase.Waiting? then EndRun(s, key, Verdict(Failed, None, Some(error)), now)
        else s
    case TakeSlot(key) =>
      if AtRun(s, key) && s.tasks[key].phase.Waiting? && |SlotHolders(s.tasks)| < s.slots then
        s.(tasks := s.tasks[key := s.tasks[key].(phase := Holding)])
      else s
    case Start(key, now) =>
      if AtRun(s, key) && s.tasks[key].phase.Holding? then
        var c := TransitionRun(s.db, s.tasks[key].runs[s.tasks[key].pos], Running, None, None, now);
        if c.reply.Err? then s.(tasks := s.tasks - {key})
        else s.(db := c.db, tasks := s.tasks[key := s.tasks[key].(phase := Alive)])
      else s
    case ProcessEnds(key, outcome) =>
      if AtRun(s, key) && s.tasks[key].phase.Alive? then
        s.(tasks := s.tasks[key := s.tasks[key].(phase := Exited(outcome))])
      else s
    case Finish(key, now) =>
      if AtRun(s, key) && s.tasks[key].phase.Exited? then
        EndRun(s, key, VerdictOf(s.tasks[key].direct, s.tasks[key].phase.outcome), now)
      else s
    case ThreadDies(key) => s.(tasks := s.tasks - {key})
    case _ => s
  }

  function RequestStep(s: System, step: Step): System {
    match step
    case Create(req, grant, ids, batch, now) =>
      if Admitted(req) && Approved(s.server, grant, req.context) && |ids| == |req.items| then
        var c := CreateRuns(s.db, s.host, req, Some(grant), ids, batch, now);
        if c.reply.Ok? && !c.reply.value.reused then
          s.(db := c.db, tasks := s.tasks[req.key := Task(ids, 0, req.mode.Direct?, Waiting)])
        else s
      else s
    case Retry(source, key, grant, id, batch, now) =>
      if grant in s.server.grants then
        var c := RetryRun(s.db, s.host, source, key, Some(grant), Some(s.server.grants[grant]), id, batch, now);
        if c.reply.Ok? && !c.reply.value.reused then
          s.(db := c.db, tasks := s.tasks[key := Task([id], 0, c.reply.value.runs[0].mode.Direct?, Waiting)])
        else s
      else s
    case Complete(id, note, now) => s.(db := CompleteDirect(s.db, id, note, now).db)
    case ChangePrograms(programs) => s.(db := s.db.(programs := programs))
    case _ => s
  }

  /** What a server may accept of a batch: of each run a front part.  The central server accepts all or nothing. */
  ghost predicate FrontPart(part: seq<Event>, batch: seq<Event>) { forall id: RunId :: Of(part, id) <= Of(batch, id) }

  ghost function SyncStep(s: System, step: Step): System {
    match step
    case SyncEnters(thread) =>
      if thread !in s.syncs.threads && !s.syncs.disabled then
        s.(syncs := s.syncs.(threads := s.syncs.threads[thread := Reading]))
      else s
    case SyncRead(thread, count) =>
      var pending := Pending(s.db, BATCH_LIMIT);
      if thread in s.syncs.threads && s.syncs.threads[thread].Reading? && 1 <= count <= |pending| then
        s.(syncs := s.syncs.(threads := s.syncs.threads[thread := Posting(pending[..count])],
                             wire := s.syncs.wire + {pending[..count]}))
      else s
    case SyncPost(thread, part) =>
      if thread in s.syncs.threads && s.syncs.threads[thread].Posting?
        && FrontPart(part, s.syncs.threads[thread].batch) then
        var result := Accept(s.server, part);
        if result.Err? then
          s.(syncs := s.syncs.(threads := s.syncs.threads - {thread},
                               disabled := s.syncs.disabled || result.error.GrantInvalid?))
        else s.(server := result.value, syncs := s.syncs.(threads := s.syncs.threads[thread := Answered(part)]))
      else s
    case SyncAgain(thread) =>
      if thread in s.syncs.threads && s.syncs.threads[thread].Posting? then
        s.(syncs := s.syncs.(threads := s.syncs.threads[thread := Reading]))
      else s
    case SyncMark(thread) =>
      if thread in s.syncs.threads && s.syncs.threads[thread].Answered? then
        s.(db := MarkSent(s.db, KeysOf(s.syncs.threads[thread].batch)),
           syncs := s.syncs.(threads := s.syncs.threads[thread := Reading]))
      else s
    case SyncStops(thread) => s.(syncs := s.syncs.(threads := s.syncs.threads - {thread}))
    case _ => s
  }

  ghost function LifeStep(s: System, step: Step): System {
    match step
    case Approve(grant, context) =>
      if grant in s.server.grants then s
      else s.(server := s.server.(grants := s.server.grants[grant := context]))
    case WireArrives(batch, part) =>
      if batch in s.syncs.wire && FrontPart(part, batch) then
        var result := Accept(s.server, part);
        if result.Ok? then s.(server := result.value) else s
      else s
    case Cleanup(grants) =>
      if Removable(s.server, grants) then s.(server := Cleaned(s.server, grants)) else s
    case Crash => s.(life := Down, tasks := map[], syncs := s.syncs.(threads := map[]))
    case Restart(now, todo) =>
      var db := InterruptActive(s.db, now);
      if s.life.Down? && ListsGranted(db.runs, todo) then s.(life := Recovering(todo), db := db) else s
    case ReconcileNext =>
      if s.life.Recovering? && s.life.todo != [] && s.life.todo[0] in s.db.runs then
        s.(life := Recovering(s.life.todo[1..]), db := ReconcileOne(s.db, s.life.todo[0]))
      else s
    case Recovered => if s.life.Recovering? && s.life.todo == [] then s.(life := Up) else s
    case _ => s
  }

  predicate IsLifeStep(step: Step) {
    step.Approve? || step.WireArrives? || step.Cleanup? || step.Crash? || step.Restart? || step.ReconcileNext?
    || step.Recovered?
  }

  predicate IsTaskStep(step: Step) {
    step.PrepareFails? || step.TakeSlot? || step.Start? || step.ProcessEnds? || step.Finish? || step.ThreadDies?
  }

  predicate IsRequestStep(step: Step) {
    step.Create? || step.Retry? || step.Complete? || step.ChangePrograms?
  }

  /** One step; a step that is not enabled changes nothing. */
  ghost function Apply(s: System, step: Step): System {
    if IsLifeStep(step) then LifeStep(s, step)
    else if !s.life.Up? then s
    else if IsTaskStep(step) then TaskStep(s, step)
    else if IsRequestStep(step) then RequestStep(s, step)
    else SyncStep(s, step)
  }

  /** The state after a run of steps from a fresh installation. */
  ghost function After(s: System, steps: seq<Step>): System {
    if steps == [] then s else Apply(After(s, steps[..|steps| - 1]), steps[|steps| - 1])
  }

  ghost predicate Installed(s: System) {
    s.life.Down? && s.db == Db(map[], map[], [], {}, map[]) && s.tasks == map[]
    && s.syncs == Flight(map[], {}, false) && s.server.log == [] && s.server.runs == map[]
  }
}
