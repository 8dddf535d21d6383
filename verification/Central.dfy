/** The central server's side of the outbox: the checks it makes on a posted batch and what it records. */
module Central {
  import opened RunnerTypes
  import opened RunnerTables

  datatype CentralRun = CentralRun(grant: string, run: Run)

  /** Received sequence numbers with the event each hash stands for, the latest snapshot per run, every grant ever
      issued, and those of them that a project cleanup has deleted since.  Grant ids are never issued twice. */
  datatype Server = Server(log: seq<Event>, runs: map<RunId, CentralRun>, grants: map<string, Context>,
                           gone: set<string>)

  // The wire form of an event has no run id of its own; the server reads it from the snapshot.
  function Received(e: Event): Event { Event(e.run.id, e.sequence, e.grant, e.run) }

  predicate Ascending(batch: seq<Event>) {
    forall i, j :: 0 <= i < j < |batch| && batch[i].run.id == batch[j].run.id ==> batch[i].sequence < batch[j].sequence
  }

  predicate TransitionAllowed(a: Status, b: Status) {
    match a
    case Queued => !b.Completed?
    case Running => !b.Completed? && !b.Queued?
    case AwaitingCompletion => b.AwaitingCompletion? || b.Completed? || b.Failed? || b.Interrupted?
    case _ => a == b
  }

  function AcceptOne(c: Server, e: Event): Result<Server> {
    var id := e.run.id;
    if HasKey(c.log, id, e.sequence) then
      if Received(e) in c.log then Ok(c) else Err(SequenceReused)
    else if Of(c.log, id) != [] && e.sequence <= MaxSequence(Of(c.log, id)) then Err(SequenceNotMonotonic)
    else if e.grant !in c.grants || e.grant in c.gone || c.grants[e.grant] != e.run.context then Err(GrantInvalid)
    else if id in c.runs && c.runs[id].grant != e.grant then Err(RunIdConflict)
    else if id in c.runs && !SameIdentity(c.runs[id].run, e.run) then Err(ImmutableChanged)
    else if id in c.runs && !TransitionAllowed(c.runs[id].run.status, e.run.status) then Err(StatusRegression)
    else Ok(c.(log := c.log + [Received(e)], runs := c.runs[id := CentralRun(e.grant, e.run)]))
  }

  function AcceptEach(c: Server, batch: seq<Event>): Result<Server>
    decreases |batch|
  {
    if batch == [] then Ok(c)
    else
      match AcceptOne(c, batch[0])
      case Err(e) => Err(e)
      case Ok(d) => AcceptEach(d, batch[1..])
  }

  /** One atomic transaction: the whole batch is recorded or nothing is. */
  function Accept(c: Server, batch: seq<Event>): Result<Server> {
    if !Ascending(batch) then Err(SequenceNotMonotonic) else AcceptEach(c, batch)
  }

  // ---------------------------------------------------------------- the administrator's project cleanup

  /** The stored runs of the deleted work. */
  function RunsUnder(c: Server, grants: set<string>): set<RunId> { set id | id in c.runs && c.runs[id].grant in grants }

  /** Stored runs that are still live block a cleanup; runs the server has not heard of do not. */
  predicate Removable(c: Server, grants: set<string>) {
    forall id :: id in RunsUnder(c, grants) ==> !Live(c.runs[id].run.status)
  }

  function Without(log: seq<Event>, ids: set<RunId>): seq<Event> {
    if log == [] then []
    else
      var n := |log| - 1;
      if log[n].runId in ids then Without(log[..n], ids) else Without(log[..n], ids) + [log[n]]
  }

  /** Receipts, runs and grants of the deleted work are deleted together. */
  function Cleaned(c: Server, grants: set<string>): Server {
    var ids := RunsUnder(c, grants);
    Server(Without(c.log, ids), c.runs - ids, c.grants, c.gone + grants * c.grants.Keys)
  }
}
