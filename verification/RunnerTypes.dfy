/** The values the local runner keeps: runs, their life cycle, requests and outbox events. */
module RunnerTypes {

  datatype Option<+T> = None | Some(value: T)

  datatype Result<+T> = Ok(value: T) | Err(error: Error)

  // One constructor per exception the modelled code raises.
  datatype Error =
    | KeyReused | QueueFull | DuplicateDirect | ProgramMissing | RunMissing | NotRetryable | ForeignHost
    | GrantMissing | NotAwaiting | NotAnExecutorStatus | PrimaryKeyTaken
    | SequenceReused | SequenceNotMonotonic | GrantInvalid | RunIdConflict | ImmutableChanged | StatusRegression

  // Ids are text in the tables; only equality and the ORDER BY order matter here.
  type RunId = nat

  datatype Mode = Direct | Batch

  datatype Status = Queued | Running | AwaitingCompletion | Succeeded | Failed | Completed | Interrupted

  predicate Active(s: Status) { s.Queued? || s.Running? }

  predicate Live(s: Status) { Active(s) || s.AwaitingCompletion? }

  predicate Finished(s: Status) { s.Succeeded? || s.Failed? }

  predicate Retryable(s: Status) { s.Failed? || s.Interrupted? }

  function Rank(s: Status): nat {
    match s
    case Queued => 0
    case Running => 1
    case AwaitingCompletion => 2
    case _ => 3
  }

  /** The documented life cycle of a run, as one step. */
  predicate Arrow(mode: Mode, a: Status, b: Status) {
    match a
    case Queued => b.Running? || b.Failed? || b.Interrupted?
    case Running => b.Failed? || b.Interrupted? || (if mode.Batch? then b.Succeeded? else b.AwaitingCompletion?)
    case AwaitingCompletion => mode.Direct? && b.Completed?
    case _ => false
  }

  datatype Program = Program(id: string, hostId: string, name: string, version: string)

  /** A row of the programs table, which is keyed by the program's id. */
  datatype Registration = Registration(hostId: string, name: string, version: string)

  function Snapshot(id: string, r: Registration): Program { Program(id, r.hostId, r.name, r.version) }

  datatype Context = Context(requestId: Option<string>, workItemId: Option<string>,
                             taskName: Option<string>, actor: Option<string>)

  datatype Item = Item(inputPath: string, workingDirectory: string)

  datatype Run = Run(id: RunId, source: Option<RunId>, batch: Option<nat>, mode: Mode, status: Status,
                     program: Program, inputPath: string, workingDirectory: string,
                     createdAt: int, startedAt: Option<int>, completedAt: Option<int>,
                     exitCode: Option<int>, note: Option<string>, error: Option<string>, context: Context)

  /** The fields a run keeps for life; the central server hashes exactly these, with the id as the key. */
  predicate SameIdentity(a: Run, b: Run) {
    a.id == b.id && a.source == b.source && a.batch == b.batch && a.mode == b.mode && a.program == b.program
    && a.inputPath == b.inputPath && a.workingDirectory == b.workingDirectory
    && a.createdAt == b.createdAt && a.context == b.context
  }

  /** What a retry takes over from the run it repeats. */
  predicate SameWork(a: Run, b: Run) {
    a.mode == b.mode && a.program == b.program && a.inputPath == b.inputPath && a.workingDirectory == b.workingDirectory
  }

  /** Two direct executions that must not be live together. */
  predicate SameTarget(a: Run, b: Run) {
    a.mode.Direct? && b.mode.Direct? && a.program.id == b.program.id && a.inputPath == b.inputPath
  }

  datatype RunCreate = RunCreate(programId: string, mode: Mode, items: seq<Item>, context: Context, key: string)

  /** What the SHA-256 fingerprint of a request depends on: creation drops the two server-corrected display
      fields, a retry hashes only the run it repeats. */
  datatype Fingerprint =
    | CreatePrint(programId: string, mode: Mode, items: seq<Item>,
                  requestId: Option<string>, workItemId: Option<string>, key: string)
    | RetryPrint(source: RunId)

  function PrintOf(req: RunCreate): Fingerprint {
    CreatePrint(req.programId, req.mode, req.items, req.context.requestId, req.context.workItemId, req.key)
  }

  /** One idempotency record: the request it answers and the runs it answers with. */
  datatype Record = Record(asked: Fingerprint, ids: seq<RunId>)

  // The implicit rowid counts insertions; rows of this table are never deleted.
  datatype Row = Row(run: Run, grant: Option<string>, rowid: nat)

  datatype Event = Event(runId: RunId, sequence: nat, grant: string, run: Run)

  /** The tables of one binding.  The `sent` column is kept as the set of primary keys whose flag is 1. */
  datatype Db = Db(programs: map<string, Registration>, runs: map<RunId, Row>, events: seq<Event>,
                   sent: set<(RunId, nat)>, requests: map<string, Record>)

  const QUEUE_LIMIT: nat := 100
}
