/** The create and retry handlers around the storage: replay first, then the central approval, then the request. */
module RunnerHandlers {
  import opened RunnerTypes
  import opened RunnerTables
  import opened Central
  import opened RunnerSystem
  import opened HistoryInvariant
  import opened SystemInvariant
  import opened Progress
  import opened RunnerTheorems
  import RequestSteps

  // ---------------------------------------------------------------- the approval

  /** A row of the server's work items. */
  datatype WorkItem = WorkItem(requestId: string, displayName: string)

  /** The context the server approves: the submitted ids if they belong together, with its own task name and actor.
      `permitted` stands for the checks of assignment and progress. */
  function ServerContext(items: map<string, WorkItem>, submitted: Context, actor: string,
                         permitted: bool): (r: Option<Context>)
    ensures r.Some? ==> r.value.requestId == submitted.requestId && r.value.workItemId == submitted.workItemId
    ensures r.Some? ==> r.value.actor == Some(actor)
  {
    if submitted.workItemId.None? || submitted.workItemId.value !in items then None
    else
      var item := items[submitted.workItemId.value];
      if Some(item.requestId) != submitted.requestId || !permitted then None
      else Some(Context(submitted.requestId, submitted.workItemId, Some(item.displayName), Some(actor)))
  }

  // ---------------------------------------------------------------- the handlers

  datatype Answer = Runs(runs: seq<Run>) | Conflict(error: Error) | NotApproved

  /** What the server answers to the execute request of one call: its grant, and the ids the runner would use. */
  datatype Call = Call(items: map<string, WorkItem>, actor: string, permitted: bool, grant: string, ids: seq<RunId>,
                       batch: nat, now: int)

  ghost function CreateHandler(s: System, asked: RunCreate, c: Call): (System, Answer)
    requires |c.ids| == |asked.items| >= 1
  {
    match Replay(s.db, asked.key, PrintOf(asked))
    case Err(e) => (s, Conflict(e))
    case Ok(Some(runs)) => (s, Runs(runs))
    case Ok(None) =>
      var context := ServerContext(c.items, asked.context, c.actor, c.permitted);
      if context.None? then (s, NotApproved)
      else
        var approved := asked.(context := context.value);
        var a := Apply(s, Approve(c.grant, context.value));
        var reply := CreateRuns(a.db, a.host, approved, Some(c.grant), c.ids, c.batch, c.now).reply;
        (Apply(a, Create(approved, c.grant, c.ids, c.batch, c.now)),
         if reply.Ok? then Runs(reply.value.runs) else Conflict(reply.error))
  }

  ghost function RetryHandler(s: System, source: RunId, key: string, c: Call): (System, Answer)
    requires |c.ids| == 1
  {
    match Replay(s.db, key, RetryPrint(source))
    case Err(e) => (s, Conflict(e))
    case Ok(Some(runs)) => (s, Runs(runs))
    case Ok(None) =>
      if source !in s.db.runs then (s, Conflict(RunMissing))
      else if !Retryable(s.db.runs[source].run.status) then (s, Conflict(NotRetryable))
      else
        var context := ServerContext(c.items, s.db.runs[source].run.context, c.actor, c.permitted);
        if context.None? then (s, NotApproved)
        else
          var a := Apply(s, Approve(c.grant, context.value));
          var reply := RetryRun(a.db, a.host, source, key, Some(c.grant), context, c.ids[0], c.batch, c.now).reply;
          (Apply(a, Retry(source, key, c.grant, c.ids[0], c.batch, c.now)),
           if reply.Ok? then Runs(reply.value.runs) else Conflict(reply.error))
  }

  // ---------------------------------------------------------------- repeats

  lemma CommitsRecord(s: System, asked: RunCreate, context: Context, grant: string, ids: seq<RunId>, batch: nat,
                      now: int)
    requires s.life.Up? && asked.key !in s.db.requests
    requires asked.key in Apply(s, Create(asked.(context := context), grant, ids, batch, now)).db.requests
    ensures Apply(s, Create(asked.(context := context), grant, ids, batch, now)).db.requests[asked.key]
         == Record(PrintOf(asked.(context := context)), ids)
  {
    hide RowClash, EventClash, LiveTarget, Actives, Insert, Approved, PrintOf;
    var req := asked.(context := context);
    if Admitted(req) && Approved(s.server, grant, req.context) && |ids| == |req.items| {
      RequestSteps.UnseenKey(s.db, req.key, PrintOf(req));
    }
  }

  lemma RecordLasts(s: System, before: seq<Step>, after: seq<Step>, key: string)
    requires Installed(s) && key in After(s, before).db.requests
    ensures var t := After(s, before + after);
            key in t.db.requests && t.db.requests[key] == After(s, before).db.requests[key]
            && Known(t.db.runs, t.db.requests[key].ids)
  {
    hide SystemOk, After, RowsLater;
    NothingIsLost(s, before, after);
    Reachable(s, before + after);
    RecordOf(After(s, before + after), key);
  }

  /** A create request that was committed under the server's approval is answered, at every later time and to the very
      request the caller sent, with the same runs in the same order; no run, task or grant comes of it. */
  lemma RepeatStartsNothing(s: System, before: seq<Step>, after: seq<Step>, asked: RunCreate, first: Call, again: Call)
    requires Installed(s) && After(s, before).life.Up? && |again.ids| == |asked.items| >= 1
    requires var context := ServerContext(first.items, asked.context, first.actor, first.permitted);
             context.Some? && asked.key !in After(s, before).db.requests
             && asked.key in
                Apply(After(s, before),
                      Create(asked.(context := context.value), first.grant, first.ids, first.batch,
                             first.now)).db.requests
    ensures var context := ServerContext(first.items, asked.context, first.actor, first.permitted).value;
            var step := Create(asked.(context := context), first.grant, first.ids, first.batch, first.now);
            var t := After(s, before + [step] + after);
            Known(t.db.runs, first.ids) && CreateHandler(t, asked, again) == (t, Runs(Fetch(t.db.runs, first.ids)))
  {
    hide After, Apply, SystemOk;
    var context := ServerContext(first.items, asked.context, first.actor, first.permitted).value;
    var step := Create(asked.(context := context), first.grant, first.ids, first.batch, first.now);
    CommitsRecord(After(s, before), asked, context, first.grant, first.ids, first.batch, first.now);
    Extended(s, before, step);
    RecordLasts(s, before + [step], after, asked.key);
  }

  lemma Extended(s: System, steps: seq<Step>, step: Step)
    ensures After(s, steps + [step]) == Apply(After(s, steps), step)
  {
    assert (steps + [step])[..|steps|] == steps;
  }

  /** Once a key is taken, no other request under it, created or retried, ever changes or starts anything. */
  lemma TakenKeyIsInert(s: System, before: seq<Step>, after: seq<Step>, key: string, asked: RunCreate, c: Call,
                        source: RunId, d: Call)
    requires Installed(s) && key in After(s, before).db.requests && asked.key == key
    requires |c.ids| == |asked.items| >= 1 && |d.ids| == 1
    ensures var first := After(s, before).db.requests[key];
            var t := After(s, before + after);
            Known(t.db.runs, first.ids)
            && CreateHandler(t, asked, c)
               == (t, if first.asked == PrintOf(asked) then Runs(Fetch(t.db.runs, first.ids)) else Conflict(KeyReused))
            && RetryHandler(t, source, key, d)
               == (t, if first.asked == RetryPrint(source) then Runs(Fetch(t.db.runs, first.ids))
                   else Conflict(KeyReused))
  {
    hide After, Apply, SystemOk, PrintOf;
    RecordLasts(s, before, after, key);
  }

  /** The storage step itself, reached by a handler that read before another thread committed the key, starts nothing
      either: neither tables nor threads change. */
  lemma LateStepsAreInert(s: System, steps: seq<Step>, req: RunCreate, source: RunId, grant: string, ids: seq<RunId>,
                          batch: nat, now: int)
    requires Installed(s) && req.key in After(s, steps).db.requests
    ensures var t := After(s, steps);
            Apply(t, Create(req, grant, ids, batch, now)) == t
            && (ids != [] ==> Apply(t, Retry(source, req.key, grant, ids[0], batch, now)) == t)
  {
    hide After;
    var t := After(s, steps);
    hide RowClash, EventClash, LiveTarget, Actives, Insert, PrintOf, Fetch;
  }
}
