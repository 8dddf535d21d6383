/** The rows of the runs table and the events queued for them stay in step. */
module OutboxInvariant {
  import opened RunnerTypes
  import opened RunnerTables

  predicate EventOk(row: Row, id: RunId, e: Event, index: nat) {
    e.runId == id && e.sequence == index + 1 && row.grant == Some(e.grant) && SameIdentity(e.run, row.run)
  }

  /** The last event shows the row; only a restart that has not yet reconciled the row may be ahead of it. */
  predicate Settled(row: Row, last: Run, lagging: bool) {
    last == row.run || (lagging && row.run.status.Interrupted? && Active(last.status))
  }

  /** One run's events: numbered 1..n, starting QUEUED, following the life cycle, ending at the row. */
  ghost predicate RunOk(row: Row, id: RunId, evs: seq<Event>, lagging: bool) {
    row.run.id == id && row.grant.Some? && |evs| > 0
    && (forall i :: 0 <= i < |evs| ==> EventOk(row, id, evs[i], i))
    && evs[0].run.status.Queued?
    && (forall i :: 1 <= i < |evs| ==> Arrow(row.run.mode, evs[i - 1].run.status, evs[i].run.status))
    && Settled(row, evs[|evs| - 1].run, lagging)
  }

  ghost predicate OutboxOk(db: Db, lagging: set<RunId>) {
    (forall id :: id in db.runs ==> RunOk(db.runs[id], id, Of(db.events, id), id in lagging))
    && (forall e :: e in db.events ==> e.runId in db.runs)
  }

  // ---------------------------------------------------------------- consequences

  lemma {:induction false} Numbered(evs: seq<Event>)
    requires forall i :: 0 <= i < |evs| ==> evs[i].sequence == i + 1
    ensures MaxSequence(evs) == |evs|
  {
    if evs != [] {
      Numbered(evs[..|evs| - 1]);
    }
  }

  lemma {:induction false} RankRises(row: Row, id: RunId, evs: seq<Event>, lagging: bool, i: nat, j: nat)
    requires RunOk(row, id, evs, lagging) && i <= j < |evs|
    ensures Rank(evs[i].run.status) + (j - i) <= Rank(evs[j].run.status)
    decreases j
  {
    if i < j {
      RankRises(row, id, evs, lagging, i, j - 1);
      assert Arrow(row.run.mode, evs[j - 1].run.status, evs[j].run.status);
    }
  }

  lemma LastEvent(row: Row, id: RunId, evs: seq<Event>, lagging: bool)
    requires RunOk(row, id, evs, lagging)
    ensures |evs| > 0 && row.grant.Some? && row.run.id == id
    ensures Settled(row, evs[|evs| - 1].run, lagging) && SameIdentity(evs[|evs| - 1].run, row.run)
  {
    assert EventOk(row, id, evs[|evs| - 1], |evs| - 1);
  }

  /** A run never has more than four events. */
  lemma FourAtMost(row: Row, id: RunId, evs: seq<Event>, lagging: bool)
    requires RunOk(row, id, evs, lagging)
    ensures |evs| <= 4
  {
    RankRises(row, id, evs, lagging, 0, |evs| - 1);
  }

  lemma Next(db: Db, lagging: set<RunId>, id: RunId)
    requires OutboxOk(db, lagging) && id in db.runs
    ensures NextSequence(db.events, id) == |Of(db.events, id)| + 1
  {
    Numbered(Of(db.events, id));
  }

  lemma {:induction false} NoEvents(events: seq<Event>, id: RunId)
    requires forall e :: e in events ==> e.runId != id
    ensures Of(events, id) == []
  {
    if events != [] {
      NoEvents(events[..|events| - 1], id);
    }
  }

  lemma RunGrows(row: Row, newer: Row, id: RunId, evs: seq<Event>, lagging: bool)
    requires RunOk(row, id, evs, lagging)
    requires newer.grant == row.grant && SameIdentity(newer.run, row.run)
    requires Arrow(row.run.mode, evs[|evs| - 1].run.status, newer.run.status)
    ensures RunOk(newer, id, evs + [Event(id, |evs| + 1, row.grant.value, newer.run)], false)
  {
    var all := evs + [Event(id, |evs| + 1, row.grant.value, newer.run)];
    forall i | 0 <= i < |all| ensures EventOk(newer, id, all[i], i) {
      assert i < |evs| ==> EventOk(row, id, evs[i], i);
    }
    forall i | 1 <= i < |all| ensures Arrow(newer.run.mode, all[i - 1].run.status, all[i].run.status) {
      assert all[i - 1] == evs[i - 1];
      assert i < |evs| ==> Arrow(row.run.mode, evs[i - 1].run.status, evs[i].run.status);
    }
  }

  // ---------------------------------------------------------------- insertion

  lemma InsertOne(db: Db, run: Run, grant: string)
    requires OutboxOk(db, {}) && run.id !in db.runs && run.status.Queued?
    ensures OutboxOk(InsertRow(db, run, grant), {})
  {
    hide RunOk;
    var e := Event(run.id, 1, grant, run);
    NoEvents(db.events, run.id);
    FirstEvent(run, grant, |db.runs|);
    assert [] + [e] == [e];
    OthersKeep(db, {}, InsertRow(db, run, grant), e);
  }

  lemma FirstEvent(run: Run, grant: string, rowid: nat)
    requires run.status.Queued?
    ensures RunOk(Row(run, Some(grant), rowid), run.id, [Event(run.id, 1, grant, run)], false)
  {
  }

  lemma {:induction false} InsertOutbox(db: Db, added: seq<Run>, grant: string)
    requires OutboxOk(db, {})
    requires forall i :: 0 <= i < |added| ==> added[i].id !in db.runs && added[i].status.Queued?
    requires forall i, j :: 0 <= i < j < |added| ==> added[i].id != added[j].id
    ensures OutboxOk(Insert(db, added, grant), {})
  {
    hide OutboxOk;
    if added != [] {
      var n := |added| - 1;
      InsertOutbox(db, added[..n], grant);
      Inserted(db, added[..n], grant);
      InsertOne(Insert(db, added[..n], grant), added[n], grant);
    }
  }

  /** What `Insert` adds to the tables. */
  lemma {:induction false} Inserted(db: Db, added: seq<Run>, grant: string)
    ensures var d := Insert(db, added, grant);
            && d == db.(runs := d.runs, events := d.events)
            && (forall id :: id in d.runs <==> id in db.runs || exists i :: 0 <= i < |added| && added[i].id == id)
    ensures var d := Insert(db, added, grant);
            forall id :: id in db.runs && (forall i :: 0 <= i < |added| ==> added[i].id != id)
              ==> d.runs[id] == db.runs[id]
  {
    if added != [] {
      var n := |added| - 1;
      Inserted(db, added[..n], grant);
      var d0 := Insert(db, added[..n], grant);
      var d := Insert(db, added, grant);
      assert d.runs == d0.runs[added[n].id := Row(added[n], Some(grant), |d0.runs|)];
      forall id
        ensures id in d.runs <==> id in db.runs || exists i :: 0 <= i < |added| && added[i].id == id
      {
        if id in d.runs && id !in db.runs && id != added[n].id {
          var i :| 0 <= i < n && added[..n][i].id == id;
          assert added[i].id == id;
        }
        if i :| 0 <= i < |added| && added[i].id == id {
          assert i == n || added[..n][i].id == id;
        }
      }
    }
  }

  // ---------------------------------------------------------------- advancing, restart

  lemma AdvanceOutbox(db: Db, id: RunId, run: Run)
    requires OutboxOk(db, {}) && id in db.runs
    requires SameIdentity(run, db.runs[id].run) && Arrow(run.mode, db.runs[id].run.status, run.status)
    ensures OutboxOk(Advance(db, id, run), {})
  {
    hide RunOk;
    Next(db, {}, id);
    var row, evs, d := db.runs[id], Of(db.events, id), Advance(db, id, run);
    assert RunOk(row, id, evs, false);
    LastEvent(row, id, evs, false);
    RunGrows(row, d.runs[id], id, evs, false);
    OthersKeep(db, {}, d, Event(id, |evs| + 1, row.grant.value, run));
  }

  lemma OthersKeep(db: Db, lagging: set<RunId>, d: Db, e: Event)
    requires OutboxOk(db, lagging)
    requires d.events == db.events + [e] && db.runs.Keys <= d.runs.Keys
    requires e.runId in d.runs && RunOk(d.runs[e.runId], e.runId, Of(db.events, e.runId) + [e], false)
    requires forall q :: q in d.runs && q != e.runId ==> q in db.runs && d.runs[q] == db.runs[q]
    ensures OutboxOk(d, lagging - {e.runId})
  {
    hide RunOk;
    forall q | q in d.runs
      ensures RunOk(d.runs[q], q, Of(d.events, q), q in lagging - {e.runId})
    {
      OfAppend(db.events, e, q);
      if q != e.runId {
        assert RunOk(db.runs[q], q, Of(db.events, q), q in lagging);
      }
    }
  }

  lemma InterruptOutbox(db: Db, lagging: set<RunId>, now: int)
    requires OutboxOk(db, lagging)
    ensures OutboxOk(InterruptActive(db, now), db.runs.Keys)
  {
    hide RunOk;
    var d := InterruptActive(db, now);
    forall id | id in d.runs
      ensures RunOk(d.runs[id], id, Of(d.events, id), id in db.runs.Keys)
    {
      assert RunOk(db.runs[id], id, Of(db.events, id), id in lagging);
      RunInterrupted(db.runs[id], id, Of(db.events, id), id in lagging, now);
    }
  }

  lemma RunInterrupted(row: Row, id: RunId, evs: seq<Event>, lagging: bool, now: int)
    requires RunOk(row, id, evs, lagging)
    ensures RunOk(row.(run := InterruptedRun(row.run, now)), id, evs, true)
  {
    var newer := row.(run := InterruptedRun(row.run, now));
    forall i | 0 <= i < |evs| ensures EventOk(newer, id, evs[i], i) {
      assert EventOk(row, id, evs[i], i);
    }
  }

  lemma LatestOnly(row: Row, id: RunId, evs: seq<Event>, lagging: bool, i: nat)
    requires RunOk(row, id, evs, lagging) && i < |evs| && evs[i].run == row.run
    ensures evs[|evs| - 1].run == row.run
  {
    RankRises(row, id, evs, lagging, i, |evs| - 1);
  }

  lemma At(db: Db, lagging: set<RunId>, id: RunId)
    requires OutboxOk(db, lagging) && id in db.runs
    ensures RunOk(db.runs[id], id, Of(db.events, id), id in lagging)
  {
  }

  /** The recovery test "this snapshot is queued somewhere" means "it is the latest one". */
  lemma PresentIsLatest(db: Db, lagging: set<RunId>, id: RunId)
    requires OutboxOk(db, lagging) && id in db.runs
    ensures |Of(db.events, id)| > 0
    ensures Present(db.events, db.runs[id].run) <==> Of(db.events, id)[|Of(db.events, id)| - 1].run == db.runs[id].run
  {
    hide *;
    var row, evs := db.runs[id], Of(db.events, id);
    At(db, lagging, id);
    LastEvent(row, id, evs, id in lagging);
    if evs[|evs| - 1].run == row.run {
      LatestIsPresent(db.events, row.run);
    }
    if Present(db.events, row.run) {
      var i := Somewhere(db.events, row.run);
      LatestOnly(row, id, evs, id in lagging, i);
    }
  }

  lemma LatestIsPresent(events: seq<Event>, run: Run)
    requires Of(events, run.id) != [] && Of(events, run.id)[|Of(events, run.id)| - 1].run == run
    ensures Present(events, run)
  {
    assert Of(events, run.id)[|Of(events, run.id)| - 1] in Of(events, run.id);
  }

  lemma Somewhere(events: seq<Event>, run: Run) returns (i: nat)
    requires Present(events, run)
    ensures i < |Of(events, run.id)| && Of(events, run.id)[i].run == run
  {
    var e :| e in events && e.runId == run.id && e.run == run;
    OfHas(events, e);
    i :| i < |Of(events, run.id)| && Of(events, run.id)[i] == e;
  }

  lemma ReconcileOutbox(db: Db, lagging: set<RunId>, id: RunId)
    requires OutboxOk(db, lagging) && id in db.runs
    ensures OutboxOk(ReconcileOne(db, id), lagging - {id})
  {
    hide RunOk;
    PresentIsLatest(db, lagging, id);
    Next(db, lagging, id);
    var row, evs := db.runs[id], Of(db.events, id);
    assert RunOk(row, id, evs, id in lagging);
    LastEvent(row, id, evs, id in lagging);
    if Present(db.events, row.run) {
      CaughtUp(row, id, evs, id in lagging);
      forall q | q in db.runs
        ensures RunOk(db.runs[q], q, Of(db.events, q), q in lagging - {id})
      {
        assert q != id ==> (q in lagging - {id}) == (q in lagging);
      }
    } else {
      RunGrows(row, row, id, evs, id in lagging);
      OthersKeep(db, lagging, ReconcileOne(db, id), Event(id, |evs| + 1, row.grant.value, row.run));
    }
  }

  lemma CaughtUp(row: Row, id: RunId, evs: seq<Event>, lagging: bool)
    requires RunOk(row, id, evs, lagging) && evs[|evs| - 1].run == row.run
    ensures RunOk(row, id, evs, false)
  {
  }

  lemma DropLag(db: Db, lagging: set<RunId>, fewer: set<RunId>)
    requires OutboxOk(db, lagging)
    requires forall id :: id in db.runs && id in lagging ==> id in fewer
    ensures OutboxOk(db, fewer)
  {
    hide RunOk;
    forall id | id in db.runs
      ensures RunOk(db.runs[id], id, Of(db.events, id), id in fewer)
    {
      Relax(db.runs[id], id, Of(db.events, id), id in lagging, id in fewer);
    }
  }

  lemma Relax(row: Row, id: RunId, evs: seq<Event>, lagging: bool, more: bool)
    requires RunOk(row, id, evs, lagging) && (lagging ==> more)
    ensures RunOk(row, id, evs, more)
  {
  }
}
