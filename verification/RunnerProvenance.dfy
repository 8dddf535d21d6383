/** Where runs come from: this host's programs and centrally approved contexts. */
module RunnerProvenance {
  import opened RunnerTypes
  import opened RunnerTables
  import opened Central
  import opened RunnerSystem
  import opened HistoryInvariant
  import opened OutboxInvariant
  import opened DeliveryInvariant
  import opened OwnerInvariant
  import opened SystemInvariant
  import opened LifeSteps
  import opened Progress
  import opened RunnerTheorems
  import RequestSteps

  // ---------------------------------------------------------------- contexts

  /** Every run of every reachable state is stored under a grant the central server issued, for exactly the context the
      server approved: actor and work are never the caller's own. */
  lemma ContextIsApproved(s: System, steps: seq<Step>, id: RunId)
    requires Installed(s) && id in After(s, steps).db.runs
    ensures var t := After(s, steps);
            t.db.runs[id].grant.Some? && Approved(t.server, t.db.runs[id].grant.value, t.db.runs[id].run.context)
  {
    hide After, SystemOk, RunOk;
    Reachable(s, steps);
    var t := After(s, steps);
    RowOfRun(t, id);
    FirstOk(t.db.runs[id], id, Of(t.db.events, id), id in Lag(t));
    GrantOf(t, Of(t.db.events, id)[0], id);
  }

  lemma GrantOf(t: System, e: Event, id: RunId)
    requires SystemOk(t) && e in Of(t.db.events, id)
    ensures Approved(t.server, e.grant, e.run.context)
  {
    hide TablesOk, OwnerOk, SentOk, SyncsOk, LatestAt;
  }

  // ---------------------------------------------------------------- hosts

  ghost predicate HostOk(runs: map<RunId, Row>, host: string) {
    forall id :: id in runs ==> runs[id].run.program.hostId == host
  }

  /** Rows that were there keep their program. */
  lemma KeptHost(a: map<RunId, Row>, b: map<RunId, Row>, host: string)
    requires HostOk(a, host) && RowsLater(a, b) && b.Keys == a.Keys
    ensures HostOk(b, host)
  {
    forall id | id in b ensures b[id].run.program.hostId == host {
      assert RowLater(a[id], b[id]);
    }
  }

  lemma AddedHost(a: map<RunId, Row>, b: map<RunId, Row>, added: seq<Run>, host: string)
    requires HostOk(a, host) && Extends(a, b, added) && forall i :: 0 <= i < |added| ==> added[i].program.hostId == host
    ensures HostOk(b, host)
  {
    forall id | id in b ensures b[id].run.program.hostId == host {
      if id !in a {
        var i := Newcomer(a, b, added, id);
      }
    }
  }

  lemma CreateHost(db: Db, host: string, req: RunCreate, grant: Option<string>, ids: seq<RunId>, batch: nat, now: int)
    requires |ids| == |req.items| >= 1 && HostOk(db.runs, host)
    ensures HostOk(CreateRuns(db, host, req, grant, ids, batch, now).db.runs, host)
  {
    hide RowClash, EventClash, LiveTarget, Actives, Replay, Insert, HostOk, Extends;
    var c := CreateRuns(db, host, req, grant, ids, batch, now);
    if c.reply.Ok? && !c.reply.value.reused {
      RequestSteps.UnseenKey(db, req.key, PrintOf(req));
      var added := NewRuns(req, Snapshot(req.programId, db.programs[req.programId]), ids, batch, now);
      RequestSteps.FreshIds(db, added, ids);
      InsertExtends(db, added, grant.value);
      AddedHost(db.runs, Insert(db, added, grant.value).runs, added, host);
    }
  }

  lemma RetryHost(db: Db, host: string, source: RunId, key: string, grant: Option<string>,
                  context: Option<Context>, id: RunId, batch: nat, now: int)
    requires HostOk(db.runs, host)
    ensures HostOk(RetryRun(db, host, source, key, grant, context, id, batch, now).db.runs, host)
  {
    hide RowClash, EventClash, LiveTarget, Actives, Replay, Insert, HostOk, Extends;
    var c := RetryRun(db, host, source, key, grant, context, id, batch, now);
    if c.reply.Ok? && !c.reply.value.reused {
      RequestSteps.UnseenKey(db, key, RetryPrint(source));
      var run := RetryOf(db.runs[source].run, id, batch, context, now);
      RequestSteps.FreshIds(db, [run], [id]);
      InsertExtends(db, [run], grant.value);
      AddedHost(db.runs, Insert(db, [run], grant.value).runs, [run], host);
    }
  }

  /** Only a new request adds rows. */
  lemma SameKeys(s: System, step: Step)
    requires !step.Create? && !step.Retry?
    ensures Apply(s, step).db.runs.Keys == s.db.runs.Keys
  {
    hide Transitioned, NextSequence, Accept, Pending, SlotHolders, Present;
    if IsTaskStep(step) {
      TaskKeys(s, step);
    } else if step.Restart? {
      InterruptedKeys(s.db, step.now);
    }
  }

  lemma TaskKeys(s: System, step: Step)
    requires IsTaskStep(step)
    ensures TaskStep(s, step).db.runs.Keys == s.db.runs.Keys
  {
    hide Transitioned, NextSequence;
  }

  lemma InterruptedKeys(db: Db, now: int)
    ensures InterruptActive(db, now).runs.Keys == db.runs.Keys
  {
  }

  lemma HostStays(s: System, step: Step)
    requires SystemOk(s) && HostOk(s.db.runs, s.host)
    ensures HostOk(Apply(s, step).db.runs, s.host) && Apply(s, step).host == s.host
  {
    SameHost(s, step);
    if step.Create? || step.Retry? {
      hide HostOk, SystemOk, CreateRuns, RetryRun, Admitted, Approved;
      if step.Create? && |step.ids| == |step.req.items| && Admitted(step.req) {
        SomeItem(step.req);
        CreateHost(s.db, s.host, step.req, Some(step.grant), step.ids, step.batch, step.now);
      } else if step.Retry? && step.grant in s.server.grants {
        RetryHost(s.db, s.host, step.source, step.key, Some(step.grant), Some(s.server.grants[step.grant]), step.id,
                  step.batch, step.now);
      }
    } else {
      hide HostOk, SystemOk, Apply, RowsLater;
      StepLater(s, step);
      SameKeys(s, step);
      KeptHost(s.db.runs, Apply(s, step).db.runs, s.host);
    }
  }

  lemma SomeItem(req: RunCreate)
    requires Admitted(req)
    ensures |req.items| >= 1
  {
  }

  lemma SameHost(s: System, step: Step)
    ensures Apply(s, step).host == s.host
  {
    hide CreateRuns, RetryRun, CompleteDirect, Accept, Pending, MarkSent, TransitionRun, MarkFinished, InterruptActive,
      ReconcileOne;
  }

  /** Every run of every reachable state executes a program of this PC: records of another PC are neither created nor
      retried here, and no later change of the program table reaches a run. */
  lemma {:induction false} RunsAreOwn(s: System, steps: seq<Step>)
    requires Installed(s)
    ensures After(s, steps).host == s.host && HostOk(After(s, steps).db.runs, s.host)
  {
    if steps != [] {
      RunsAreOwn(s, steps[..|steps| - 1]);
      hide Apply, SystemOk, HostOk;
      Reachable(s, steps[..|steps| - 1]);
      HostStays(After(s, steps[..|steps| - 1]), steps[|steps| - 1]);
    }
  }
}
