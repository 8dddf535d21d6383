/** The storage of one binding: each method is one transaction over the tables, with the effect RunnerTables gives. */
module RunnerStorage {
  import opened RunnerTypes
  import opened RunnerTables
  import opened HistoryInvariant
  import opened OutboxOrder
  import OutboxInvariant

  // ---------------------------------------------------------------- what the loops have done so far

  /** The first loop of a request: rows without a grant. */
  function Bare(runs: map<RunId, Row>, added: seq<Run>): map<RunId, Row> {
    if added == [] then runs
    else
      var table := Bare(runs, added[..|added| - 1]);
      table[added[|added| - 1].id := Row(added[|added| - 1], None, |table|)]
  }

  function SetGrant(table: map<RunId, Row>, id: RunId, grant: string): map<RunId, Row> {
    if id in table then table[id := table[id].(grant := Some(grant))] else table
  }

  /** The second loop: the grant column of the new rows. */
  function SetGrants(table: map<RunId, Row>, added: seq<Run>, grant: string): (r: map<RunId, Row>)
    ensures r.Keys == table.Keys
  {
    if added == [] then table
    else SetGrant(SetGrants(table, added[..|added| - 1], grant), added[|added| - 1].id, grant)
  }

  lemma {:induction false} OtherRow(table: map<RunId, Row>, added: seq<Run>, grant: string, id: RunId, row: Row)
    requires forall i :: 0 <= i < |added| ==> added[i].id != id
    ensures SetGrants(table[id := row], added, grant) == SetGrants(table, added, grant)[id := row]
  {
    if added != [] {
      OtherRow(table, added[..|added| - 1], grant, id, row);
    }
  }

  /** The two loops together do what inserting granted rows one after another does. */
  lemma {:induction false} LoopsInsert(db: Db, added: seq<Run>, grant: string)
    requires Newcomers(db, added)
    ensures SetGrants(Bare(db.runs, added), added, grant) == Insert(db, added, grant).runs
  {
    if added != [] {
      var n := |added| - 1;
      var run := added[n];
      LoopsInsert(db, added[..n], grant);
      var table := Bare(db.runs, added[..n]);
      OtherRow(table, added[..n], grant, run.id, Row(run, None, |table|));
      assert |table.Keys| == |SetGrants(table, added[..n], grant).Keys|;
    }
  }

  lemma {:induction false} BareKeys(runs: map<RunId, Row>, added: seq<Run>, id: RunId)
    ensures id in Bare(runs, added) <==> id in runs || Among(added, id)
  {
    if added != [] {
      var n := |added| - 1;
      BareKeys(runs, added[..n], id);
      assert added == added[..n] + [added[n]];
      if Among(added[..n], id) || id == added[n].id {
        AmongMore(added[..n], added[n], id);
      }
      if i :| 0 <= i < |added| && added[i].id == id {
        assert i == n || added[..n][i].id == id;
      }
    }
  }

  lemma InsertEvents(db: Db, added: seq<Run>, n: nat, grant: string)
    requires n < |added|
    ensures Insert(db, added[..n + 1], grant).events
         == Insert(db, added[..n], grant).events + [Event(added[n].id, 1, grant, added[n])]
  {
    assert added[..n + 1][..n] == added[..n];
  }

  /** Earlier rows of the same request have other ids, so the key is taken exactly when it was taken before. */
  lemma {:induction false} KeyStillFree(db: Db, added: seq<Run>, grant: string, id: RunId)
    requires forall i :: 0 <= i < |added| ==> added[i].id != id
    ensures HasKey(Insert(db, added, grant).events, id, 1) <==> HasKey(db.events, id, 1)
  {
    if added != [] {
      var n := |added| - 1;
      KeyStillFree(db, added[..n], grant, id);
      var before := Insert(db, added[..n], grant).events;
      var e := Event(added[n].id, 1, grant, added[n]);
      assert Insert(db, added, grant).events == before + [e];
      if HasKey(before, id, 1) {
        var x :| x in before && x.runId == id && x.sequence == 1;
        assert x in before + [e];
      }
    }
  }

  /** Insert one queued row per item; `free` is false when an id is taken. */
  method InsertRows(runs: map<RunId, Row>, req: RunCreate, program: Program, ids: seq<RunId>, batch: nat, now: int)
    returns (table: map<RunId, Row>, added: seq<Run>, free: bool)
    requires |ids| == |req.items|
    ensures free <==> !RowClash(runs, ids)
    ensures free ==> added == NewRuns(req, program, ids, batch, now) && table == Bare(runs, added)
  {
    table, added, free := runs, [], true;
    ghost var all := NewRuns(req, program, ids, batch, now);
    for n := 0 to |ids|
      invariant added == all[..n] && table == Bare(runs, all[..n])
      invariant !RowClash(runs, ids[..n])
    {
      var run := NewRun(ids[n], None, batch, req.mode, program, req.items[n], req.context, now);
      TakenRow(runs, all, ids, n);
      if run.id in table {
        free := false;
        return;
      }
      assert all[..n + 1][..n] == all[..n];
      table := table[run.id := Row(run, None, |table|)];
      added := added + [run];
    }
    assert ids[..|ids|] == ids && all[..|ids|] == all;
  }

  /** Store the grant and the first event of each new run; `ok` is false when a key is taken. */
  method PersistInitialRuns(ghost db: Db, start: map<RunId, Row>, log: seq<Event>, added: seq<Run>, grant: string)
    returns (table: map<RunId, Row>, events: seq<Event>, ok: bool)
    requires Newcomers(db, added) && start == Bare(db.runs, added) && log == db.events
    ensures ok <==> forall i :: 0 <= i < |added| ==> !HasKey(db.events, added[i].id, 1)
    ensures ok ==> table == Insert(db, added, grant).runs && events == Insert(db, added, grant).events
  {
    hide Bare, SetGrant, Insert, HasKey;
    table, events, ok := start, log, true;
    NothingYet(db, start, added, grant);
    for n := 0 to |added|
      invariant table == SetGrants(start, added[..n], grant)
      invariant events == Insert(db, added[..n], grant).events
      invariant forall i :: 0 <= i < n ==> !HasKey(db.events, added[i].id, 1)
    {
      var run := added[n];
      assert added[..n + 1][..n] == added[..n];
      table := SetGrant(table, run.id, grant);
      KeyStillFree(db, added[..n], grant, run.id);
      if HasKey(events, run.id, 1) {
        ok := false;
        return;
      }
      events := events + [Event(run.id, 1, grant, run)];
      InsertEvents(db, added, n, grant);
    }
    assert added[..|added|] == added;
    LoopsInsert(db, added, grant);
  }

  lemma NothingYet(db: Db, start: map<RunId, Row>, added: seq<Run>, grant: string)
    ensures added[..0] == [] && SetGrants(start, [], grant) == start && Insert(db, [], grant) == db
  {
  }

  class ManagedStorage {
    const host: string
    var programs: map<string, Registration>
    var runs: map<RunId, Row>
    var events: seq<Event>
    var sent: set<(RunId, nat)>
    var requests: map<string, Record>

    function Tables(): Db
      reads this
    {
      Db(programs, runs, events, sent, requests)
    }

    constructor (host: string)
      ensures this.host == host && Tables() == Db(map[], map[], [], {}, map[])
    {
      this.host := host;
      programs, runs, events, sent, requests := map[], map[], [], {}, map[];
    }

    method CreateRuns(req: RunCreate, grant: Option<string>, ids: seq<RunId>, batch: nat, now: int)
      returns (reply: Result<Reply>)
      requires |ids| == |req.items| >= 1
      modifies this
      ensures Commit(Tables(), reply) == RunnerTables.CreateRuns(old(Tables()), host, req, grant, ids, batch, now)
    {
      var earlier := Replay(Tables(), req.key, PrintOf(req));
      if earlier.Err? {
        return Err(earlier.error);
      }
      if earlier.value.Some? {
        return Ok(Reply(earlier.value.value, true));
      }
      if |Actives(runs)| + |req.items| > QUEUE_LIMIT {
        return Err(QueueFull);
      }
      if req.mode.Direct? && LiveTarget(runs, req.programId, req.items[0].inputPath) {
        return Err(DuplicateDirect);
      }
      if req.programId !in programs || programs[req.programId].hostId != host {
        return Err(ProgramMissing);
      }
      var program := Snapshot(req.programId, programs[req.programId]);
      var table, added, free := InsertRows(runs, req, program, ids, batch, now);
      if !free {
        return Err(PrimaryKeyTaken);
      }
      if grant.None? {
        return Err(GrantMissing);
      }
      ApartIds(Tables(), added, ids);
      var granted, log, ok := PersistInitialRuns(Tables(), table, events, added, grant.value);
      EventClashes(events, added, ids);
      if !ok {
        return Err(PrimaryKeyTaken);
      }
      OutboxInvariantInserted(Tables(), added, grant.value);
      runs, events := granted, log;
      requests := requests[req.key := Record(PrintOf(req), ids)];
      reply := Ok(Reply(added, false));
    }

    method RetryRun(source: RunId, key: string, grant: Option<string>, context: Option<Context>, id: RunId,
                    batch: nat, now: int)
      returns (reply: Result<Reply>)
      modifies this
      ensures Commit(Tables(), reply)
           == RunnerTables.RetryRun(old(Tables()), host, source, key, grant, context, id, batch, now)
    {
      var earlier := Replay(Tables(), key, RetryPrint(source));
      if earlier.Err? {
        return Err(earlier.error);
      }
      if earlier.value.Some? {
        return Ok(Reply(earlier.value.value, true));
      }
      if source !in runs {
        return Err(RunMissing);
      }
      var was := runs[source].run;
      if !Retryable(was.status) {
        return Err(NotRetryable);
      }
      if was.program.hostId != host {
        return Err(ForeignHost);
      }
      if |Actives(runs)| >= QUEUE_LIMIT {
        return Err(QueueFull);
      }
      if was.mode.Direct? && LiveTarget(runs, was.program.id, was.inputPath) {
        return Err(DuplicateDirect);
      }
      var run := RetryOf(was, id, batch, context, now);
      OneRow(runs, run);
      if id in runs {
        return Err(PrimaryKeyTaken);
      }
      var table := runs[id := Row(run, None, |runs|)];
      if grant.None? {
        return Err(GrantMissing);
      }
      ApartIds(Tables(), [run], [id]);
      var granted, log, ok := PersistInitialRuns(Tables(), table, events, [run], grant.value);
      EventClashes(events, [run], [id]);
      if !ok {
        return Err(PrimaryKeyTaken);
      }
      OutboxInvariantInserted(Tables(), [run], grant.value);
      runs, events := granted, log;
      requests := requests[key := Record(RetryPrint(source), [id])];
      reply := Ok(Reply([run], false));
    }

    method TransitionRun(id: RunId, status: Status, exitCode: Option<int>, error: Option<string>, now: int)
      returns (reply: Result<Run>)
      modifies this`runs, this`events
      ensures Commit(Tables(), reply) == RunnerTables.TransitionRun(old(Tables()), id, status, exitCode, error, now)
    {
      if id !in runs {
        return Err(RunMissing);
      }
      var row := runs[id];
      var startedAt := if status.Running? && row.run.startedAt.None? then Some(now) else row.run.startedAt;
      var completedAt := if status in {AwaitingCompletion, Succeeded, Failed, Completed, Interrupted} then Some(now)
        else None;
      var run := row.run.(status := status, startedAt := startedAt, completedAt := completedAt,
                          exitCode := exitCode, error := error);
      runs := runs[id := row.(run := run)];
      if row.grant.Some? {
        events := events + [Event(run.id, NextSequence(events, run.id), row.grant.value, run)];
      }
      reply := Ok(run);
    }

    method MarkStarted(id: RunId, now: int) returns (reply: Result<Run>)
      modifies this`runs, this`events
      ensures Commit(Tables(), reply) == RunnerTables.TransitionRun(old(Tables()), id, Running, None, None, now)
    {
      reply := TransitionRun(id, Running, None, None, now);
    }

    method MarkFinished(id: RunId, status: Status, exitCode: Option<int>, error: Option<string>, now: int)
      returns (reply: Result<Run>)
      modifies this`runs, this`events
      ensures Commit(Tables(), reply) == RunnerTables.MarkFinished(old(Tables()), id, status, exitCode, error, now)
    {
      if !ExecutorStatus(status) {
        return Err(NotAnExecutorStatus);
      }
      reply := TransitionRun(id, status, exitCode, error, now);
    }

    method CompleteDirectRun(id: RunId, note: string, now: int) returns (reply: Result<Run>)
      modifies this`runs, this`events
      ensures Commit(Tables(), reply) == CompleteDirect(old(Tables()), id, note, now)
    {
      if id !in runs {
        return Err(RunMissing);
      }
      var row := runs[id];
      if !row.run.mode.Direct? || !row.run.status.AwaitingCompletion? {
        return Err(NotAwaiting);
      }
      var run := row.run.(status := Completed, note := Some(note), completedAt := Some(now));
      runs := runs[id := row.(run := run)];
      if row.grant.Some? {
        events := events + [Event(run.id, NextSequence(events, run.id), row.grant.value, run)];
      }
      reply := Ok(run);
    }

    /** Restart: interrupt what was active, then queue every row whose snapshot is not queued, row by row. */
    method Initialize(now: int, todo: seq<RunId>)
      requires forall id :: id in todo ==> id in runs
      modifies this`runs, this`events
      ensures Tables() == Reconcile(InterruptActive(old(Tables()), now), todo)
    {
      runs := map id | id in runs :: runs[id].(run := InterruptedRun(runs[id].run, now));
      ghost var start := Tables();
      assert start == InterruptActive(old(Tables()), now);
      ReconcileSnapshots(todo);
    }

    method ReconcileSnapshots(todo: seq<RunId>)
      requires forall id :: id in todo ==> id in runs
      modifies this`events
      ensures Tables() == Reconcile(old(Tables()), todo)
    {
      ghost var start := Tables();
      assert todo[..0] == [];
      for n := 0 to |todo|
        invariant Known(start.runs, todo)
        invariant Tables() == Reconcile(start, todo[..n])
      {
        var row := runs[todo[n]];
        assert todo[..n + 1][..n] == todo[..n];
        if !Present(events, row.run) && row.grant.Some? {
          events := events + [Event(row.run.id, NextSequence(events, row.run.id), row.grant.value, row.run)];
        }
      }
      assert todo[..|todo|] == todo;
    }

    /** Unsent events in order of run and sequence: the first `limit` of them, and all of them when there are fewer. */
    method PendingEvents(limit: nat) returns (r: seq<Event>)
      ensures |r| <= limit && forall e :: e in r ==> e in events && (e.runId, e.sequence) !in sent
      ensures forall i, j :: 0 <= i < j < |r| ==> Before(r[i], r[j])
      ensures KeysUnique(events) ==> KeysUnique(r)
      ensures forall e :: e in events && (e.runId, e.sequence) !in sent && e !in r ==>
                |r| == limit && forall x :: x in r ==> Before(x, e)
    {
      r := Pending(Tables(), limit);
      PendingIs(Tables(), limit);
    }

    method MarkEventsSent(accepted: seq<(RunId, nat)>)
      modifies this`sent
      ensures Tables() == MarkSent(old(Tables()), accepted)
    {
      for n := 0 to |accepted|
        invariant sent == old(sent) + set k | k in accepted[..n] && HasKey(events, k.0, k.1)
      {
        ghost var before := sent;
        if HasKey(events, accepted[n].0, accepted[n].1) {
          sent := sent + {accepted[n]};
        }
        assert accepted[..n + 1] == accepted[..n] + [accepted[n]];
      }
      assert accepted[..|accepted|] == accepted;
    }
  }

  lemma PendingIs(db: Db, limit: nat)
    ensures var r := Pending(db, limit);
            (forall e :: e in r ==> e in db.events && (e.runId, e.sequence) !in db.sent)
            && (forall i, j :: 0 <= i < j < |r| ==> Before(r[i], r[j]))
            && (KeysUnique(db.events) ==> KeysUnique(r))
    ensures var r := Pending(db, limit);
            forall e :: e in db.events && (e.runId, e.sequence) !in db.sent && e !in r ==>
              |r| == limit && forall x :: x in r ==> Before(x, e)
  {
    var all, r := Unsent(db.events, db.sent), Pending(db, limit);
    UnsentSorted(db.events, db.sent);
    if KeysUnique(db.events) {
      UnsentUnique(db.events, db.sent);
    }
    forall e: Event ensures e in all <==> e in db.events && (e.runId, e.sequence) !in db.sent {
      UnsentAre(db.events, db.sent, e);
    }
    hide Unsent, Before, Place;
    forall e | e in all && e !in r ensures |r| == limit && forall x :: x in r ==> Before(x, e) {
      var j :| 0 <= j < |all| && all[j] == e;
      assert j >= |r|;
      forall x | x in r ensures Before(x, e) {
        var i :| 0 <= i < |r| && r[i] == x;
        assert all[i] == x;
      }
    }
  }

  lemma OneRow(runs: map<RunId, Row>, run: Run)
    ensures RowClash(runs, [run.id]) <==> run.id in runs
    ensures Bare(runs, [run]) == runs[run.id := Row(run, None, |runs|)]
  {
    var one := [run.id];
    assert one[..0] == [] && [run][..0] == [];
    if run.id in runs {
      assert one[0] in runs;
    }
  }

  lemma EventClashes(events: seq<Event>, added: seq<Run>, ids: seq<RunId>)
    requires |added| == |ids| && forall i :: 0 <= i < |ids| ==> added[i].id == ids[i]
    ensures EventClash(events, ids) <==> exists i :: 0 <= i < |added| && HasKey(events, added[i].id, 1)
  {
  }

  /** The insert of the n-th row hits a key exactly when the ids clash at that point. */
  lemma TakenRow(runs: map<RunId, Row>, all: seq<Run>, ids: seq<RunId>, n: nat)
    requires n < |ids| == |all| && forall i :: 0 <= i < |ids| ==> all[i].id == ids[i]
    requires !RowClash(runs, ids[..n])
    ensures ids[n] in Bare(runs, all[..n]) ==> RowClash(runs, ids)
    ensures ids[n] !in Bare(runs, all[..n]) ==> !RowClash(runs, ids[..n + 1])
  {
    BareKeys(runs, all[..n], ids[n]);
    if ids[n] in Bare(runs, all[..n]) {
      if ids[n] !in runs {
        var i :| 0 <= i < n && all[..n][i].id == ids[n];
        assert ids[..n][i] == ids[n];
      }
    } else {
      var some := ids[..n + 1];
      forall i | 0 <= i < n + 1 ensures some[i] !in runs && some[i] !in some[..i] {
        assert some[..i] == ids[..i];
        if i < n {
          assert ids[..n][i] == some[i] && ids[..n][..i] == ids[..i];
        } else {
          forall k | 0 <= k < n ensures ids[k] != ids[n] {
            assert all[..n][k].id == ids[k];
          }
        }
      }
    }
  }

  lemma ApartIds(db: Db, added: seq<Run>, ids: seq<RunId>)
    requires !RowClash(db.runs, ids) && |added| == |ids|
    requires forall i :: 0 <= i < |ids| ==> added[i].id == ids[i] && added[i].status.Queued?
    ensures Newcomers(db, added)
  {
    forall i, j | 0 <= i < j < |ids| ensures ids[i] != ids[j] {
      assert ids[..j][i] == ids[i];
    }
  }

  lemma OutboxInvariantInserted(db: Db, added: seq<Run>, grant: string)
    requires Newcomers(db, added)
    ensures var d := Insert(db, added, grant); d == db.(runs := d.runs, events := d.events)
  {
    OutboxInvariant.Inserted(db, added, grant);
  }
}
