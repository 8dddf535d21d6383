/** What the tables remember: idempotency records, retry lineage, the admission limits, the order within a batch. */
module HistoryInvariant {
  import opened RunnerTypes
  import opened RunnerTables
  import OutboxInvariant

  predicate Distinct(ids: seq<RunId>) { forall i, j :: 0 <= i < j < |ids| ==> ids[i] != ids[j] }

  predicate Made(run: Run, programId: string, mode: Mode, item: Item) {
    run.source.None? && run.mode == mode && run.program.id == programId
    && run.inputPath == item.inputPath && run.workingDirectory == item.workingDirectory
  }

  /** A record answers with the runs its own request made. */
  predicate RecordOk(runs: map<RunId, Row>, key: string, rec: Record) {
    |rec.ids| > 0 && Distinct(rec.ids) && Known(runs, rec.ids)
    && match rec.asked
       case CreatePrint(programId, mode, items, _, _, asked) =>
         asked == key && |items| == |rec.ids| && (mode.Direct? ==> |rec.ids| == 1)
         && forall i :: 0 <= i < |rec.ids| ==> Made(runs[rec.ids[i]].run, programId, mode, items[i])
       case RetryPrint(source) => |rec.ids| == 1 && runs[rec.ids[0]].run.source == Some(source)
  }

  predicate Covered(requests: map<string, Record>, id: RunId) {
    exists key :: key in requests && id in requests[key].ids
  }

  /** The runs are partitioned by the records that answer for them. */
  ghost predicate RequestsOk(runs: map<RunId, Row>, requests: map<string, Record>) {
    (forall key :: key in requests ==> RecordOk(runs, key, requests[key]))
    && (forall k, l, id :: k in requests && l in requests && id in requests[k].ids && id in requests[l].ids ==> k == l)
    && (forall id :: id in runs ==> Covered(requests, id))
  }

  /** A retry repeats an earlier run that failed or was interrupted, with the same work. */
  predicate LineageOk(runs: map<RunId, Row>, id: RunId)
    requires id in runs
  {
    runs[id].rowid < |runs| &&
    (runs[id].run.source.Some? ==>
      var s := runs[id].run.source.value;
      s in runs && runs[s].rowid < runs[id].rowid && Retryable(runs[s].run.status)
        && SameWork(runs[s].run, runs[id].run))
  }

  ghost predicate LineagesOk(runs: map<RunId, Row>) { forall id :: id in runs ==> LineageOk(runs, id) }

  ghost predicate NoDoubles(runs: map<RunId, Row>) {
    forall a, b :: a in runs && b in runs && a != b && SameTarget(runs[a].run, runs[b].run)
      ==> !(Live(runs[a].run.status) && Live(runs[b].run.status))
  }

  ghost predicate AdmissionOk(runs: map<RunId, Row>) { |Actives(runs)| <= QUEUE_LIMIT && NoDoubles(runs) }

  predicate Touched(s: Status) { !s.Queued? && !s.Interrupted? }

  /** No run of a list is started before all runs in front of it are finished. */
  predicate InOrder(runs: map<RunId, Row>, ids: seq<RunId>)
    requires Known(runs, ids)
  {
    forall i, j :: 0 <= i < j < |ids| && Touched(runs[ids[j]].run.status) ==> Finished(runs[ids[i]].run.status)
  }

  ghost predicate OrdersOk(runs: map<RunId, Row>, requests: map<string, Record>) {
    forall key :: key in requests ==> Known(runs, requests[key].ids) && InOrder(runs, requests[key].ids)
  }

  ghost predicate HistoryOk(db: Db) {
    RequestsOk(db.runs, db.requests) && LineagesOk(db.runs) && AdmissionOk(db.runs) && OrdersOk(db.runs, db.requests)
  }

  // ---------------------------------------------------------------- rows that move along the life cycle

  predicate RowMoves(a: Row, b: Row) {
    a.grant == b.grant && a.rowid == b.rowid && SameIdentity(b.run, a.run)
    && (a.run == b.run || Arrow(a.run.mode, a.run.status, b.run.status))
  }

  ghost predicate Moves(a: map<RunId, Row>, b: map<RunId, Row>) {
    a.Keys == b.Keys && forall id :: id in a ==> RowMoves(a[id], b[id])
  }

  lemma RequestsMove(a: map<RunId, Row>, b: map<RunId, Row>, requests: map<string, Record>)
    requires Moves(a, b) && RequestsOk(a, requests)
    ensures RequestsOk(b, requests)
  {
    forall key | key in requests ensures RecordOk(b, key, requests[key]) {
      RecordMoves(a, b, key, requests[key]);
    }
  }

  lemma RecordMoves(a: map<RunId, Row>, b: map<RunId, Row>, key: string, rec: Record)
    requires Moves(a, b) && RecordOk(a, key, rec)
    ensures RecordOk(b, key, rec)
  {
    forall i | 0 <= i < |rec.ids| ensures RowMoves(a[rec.ids[i]], b[rec.ids[i]]) {
      assert rec.ids[i] in a;
    }
  }

  lemma LineagesMove(a: map<RunId, Row>, b: map<RunId, Row>)
    requires Moves(a, b) && LineagesOk(a)
    ensures LineagesOk(b)
  {
    assert |a.Keys| == |b.Keys|;
    forall id | id in b ensures LineageOk(b, id) {
      assert LineageOk(a, id) && RowMoves(a[id], b[id]);
      if a[id].run.source.Some? {
        assert RowMoves(a[a[id].run.source.value], b[a[id].run.source.value]);
      }
    }
  }

  lemma AdmissionMoves(a: map<RunId, Row>, b: map<RunId, Row>)
    requires Moves(a, b) && AdmissionOk(a)
    ensures AdmissionOk(b)
  {
    forall id | id in b
      ensures Live(b[id].run.status) ==> Live(a[id].run.status)
      ensures Active(b[id].run.status) ==> Active(a[id].run.status)
      ensures SameIdentity(b[id].run, a[id].run)
    {
      assert RowMoves(a[id], b[id]);
    }
    assert Actives(b) <= Actives(a);
    Smaller(Actives(b), Actives(a));
  }

  lemma Smaller<T>(a: set<T>, b: set<T>)
    requires a <= b
    ensures |a| <= |b|
  {
    assert b == a + (b - a);
  }

  lemma AdvanceMoves(db: Db, id: RunId, run: Run)
    requires id in db.runs && SameIdentity(run, db.runs[id].run)
    requires Arrow(run.mode, db.runs[id].run.status, run.status)
    ensures Moves(db.runs, Advance(db, id, run).runs) && Advance(db, id, run).requests == db.requests
  {
  }

  lemma InterruptMoves(db: Db, now: int)
    ensures Moves(db.runs, InterruptActive(db, now).runs)
  {
    forall id | id in db.runs
      ensures RowMoves(db.runs[id], InterruptActive(db, now).runs[id])
    {
    }
  }

  lemma InterruptOrders(runs: map<RunId, Row>, requests: map<string, Record>, b: map<RunId, Row>, now: int)
    requires OrdersOk(runs, requests) && b.Keys == runs.Keys
    requires forall id :: id in runs ==> b[id].run == InterruptedRun(runs[id].run, now)
    ensures OrdersOk(b, requests)
  {
    forall key | key in requests ensures Known(b, requests[key].ids) && InOrder(b, requests[key].ids) {
      var ids := requests[key].ids;
      assert InOrder(runs, ids);
      forall i, j | 0 <= i < j < |ids| && Touched(b[ids[j]].run.status)
        ensures Finished(b[ids[i]].run.status)
      {
        assert Touched(runs[ids[j]].run.status);
        assert Finished(runs[ids[i]].run.status);
      }
    }
  }

  /** A list that does not hold the moved run keeps its order. */
  lemma OtherOrder(a: map<RunId, Row>, b: map<RunId, Row>, ids: seq<RunId>, id: RunId)
    requires Known(a, ids) && InOrder(a, ids) && b.Keys == a.Keys && id !in ids
    requires forall x :: x in a && x != id ==> b[x] == a[x]
    ensures Known(b, ids) && InOrder(b, ids)
  {
    forall i | 0 <= i < |ids| ensures b[ids[i]] == a[ids[i]] {
      assert ids[i] in ids;
    }
  }

  /** The list that holds it keeps its order when everything in front of it is finished. */
  lemma OwnOrder(a: map<RunId, Row>, b: map<RunId, Row>, ids: seq<RunId>, pos: nat)
    requires Known(a, ids) && InOrder(a, ids) && Distinct(ids) && b.Keys == a.Keys && pos < |ids|
    requires forall x :: x in a && x != ids[pos] ==> b[x] == a[x]
    requires !Finished(a[ids[pos]].run.status) && forall i :: 0 <= i < pos ==> Finished(a[ids[i]].run.status)
    ensures Known(b, ids) && InOrder(b, ids)
  {
    forall i | 0 <= i < |ids| && i != pos ensures b[ids[i]] == a[ids[i]] {
      assert if i < pos then ids[i] != ids[pos] else ids[pos] != ids[i];
    }
  }

  lemma ListFacts(runs: map<RunId, Row>, requests: map<string, Record>, l: string, key: string, id: RunId)
    requires RequestsOk(runs, requests) && l in requests && key in requests && id in requests[key].ids
    ensures Distinct(requests[l].ids) && (id in requests[l].ids ==> l == key)
  {
    assert RecordOk(runs, l, requests[l]);
  }

  lemma AdvancedRows(db: Db, id: RunId, run: Run)
    requires id in db.runs
    ensures Advance(db, id, run).runs == db.runs[id := db.runs[id].(run := run)]
  {
  }

  lemma MovedOrder(a: map<RunId, Row>, b: map<RunId, Row>, requests: map<string, Record>, key: string, pos: nat,
                   l: string)
    requires RequestsOk(a, requests) && key in requests && l in requests && pos < |requests[key].ids|
    requires Known(a, requests[key].ids) && Known(a, requests[l].ids) && InOrder(a, requests[l].ids) && b.Keys == a.Keys
    requires forall x :: x in a && x != requests[key].ids[pos] ==> b[x] == a[x]
    requires !Finished(a[requests[key].ids[pos]].run.status)
    requires forall i :: 0 <= i < pos ==> Finished(a[requests[key].ids[i]].run.status)
    ensures Known(b, requests[l].ids) && InOrder(b, requests[l].ids)
  {
    var id := requests[key].ids[pos];
    assert id in requests[key].ids;
    ListFacts(a, requests, l, key, id);
    hide InOrder, RequestsOk;
    if l == key {
      OwnOrder(a, b, requests[l].ids, pos);
    } else {
      OtherOrder(a, b, requests[l].ids, id);
    }
  }

  /** Moving one run keeps the order of every request's list. */
  lemma AdvanceOrders(db: Db, key: string, pos: nat, run: Run)
    requires RequestsOk(db.runs, db.requests) && OrdersOk(db.runs, db.requests)
    requires key in db.requests && pos < |db.requests[key].ids|
    requires Known(db.runs, db.requests[key].ids) && !Finished(db.runs[db.requests[key].ids[pos]].run.status)
    requires forall i :: 0 <= i < pos ==> Finished(db.runs[db.requests[key].ids[i]].run.status)
    ensures OrdersOk(Advance(db, db.requests[key].ids[pos], run).runs, db.requests)
  {
    var id := db.requests[key].ids[pos];
    AdvancedRows(db, id, run);
    hide InOrder, Advance, RequestsOk, Finished;
    var b := Advance(db, id, run).runs;
    assert b.Keys == db.runs.Keys;
    forall l | l in db.requests ensures Known(b, db.requests[l].ids) && InOrder(b, db.requests[l].ids) {
      MovedOrder(db.runs, b, db.requests, key, pos, l);
    }
  }

  // ---------------------------------------------------------------- insertion

  ghost predicate Newcomers(db: Db, added: seq<Run>) {
    (forall i :: 0 <= i < |added| ==> added[i].id !in db.runs && added[i].status.Queued?)
    && (forall i, j :: 0 <= i < j < |added| ==> added[i].id != added[j].id)
  }

  /** The rows after an insertion: the old ones, and the new ones numbered on from them. */
  ghost predicate Extends(a: map<RunId, Row>, b: map<RunId, Row>, added: seq<Run>) {
    |b| == |a| + |added|
    && (forall id :: id in a ==> id in b && b[id] == a[id])
    && (forall i :: 0 <= i < |added| ==> added[i].id !in a && added[i].status.Queued?)
    && (forall i :: 0 <= i < |added| ==> added[i].id in b && b[added[i].id].run == added[i]
                                         && b[added[i].id].rowid == |a| + i)
    && (forall id :: id in b && id !in a ==> Among(added, id))
  }

  predicate Among(added: seq<Run>, id: RunId) { exists i :: 0 <= i < |added| && added[i].id == id }

  lemma {:induction false} InsertExtends(db: Db, added: seq<Run>, grant: string)
    requires Newcomers(db, added)
    ensures Extends(db.runs, Insert(db, added, grant).runs, added)
    ensures Insert(db, added, grant).requests == db.requests
  {
    hide Extends;
    if added == [] {
      NoneAdded(db.runs);
    } else {
      var n := |added| - 1;
      InsertExtends(db, added[..n], grant);
      assert !Among(added[..n], added[n].id);
      OneMore(db.runs, Insert(db, added[..n], grant).runs, added[..n], added[n], grant);
      assert added[..n] + [added[n]] == added;
    }
  }

  lemma NoneAdded(a: map<RunId, Row>)
    ensures Extends(a, a, [])
  {
  }

  lemma OneMore(a: map<RunId, Row>, b: map<RunId, Row>, rest: seq<Run>, run: Run, grant: string)
    requires Extends(a, b, rest) && !Among(rest, run.id) && run.id !in a && run.status.Queued?
    ensures Extends(a, b[run.id := Row(run, Some(grant), |b|)], rest + [run])
  {
    hide Among;
    var d := b[run.id := Row(run, Some(grant), |b|)];
    assert run.id !in b;
    assert d.Keys == b.Keys + {run.id};
    forall id | id in d && id !in a ensures Among(rest + [run], id) {
      AmongMore(rest, run, id);
    }
    NotAmong(rest, run.id);
  }

  lemma NotAmong(rest: seq<Run>, id: RunId)
    requires !Among(rest, id)
    ensures forall i :: 0 <= i < |rest| ==> rest[i].id != id
  {
  }

  lemma AmongMore(rest: seq<Run>, run: Run, id: RunId)
    requires Among(rest, id) || id == run.id
    ensures Among(rest + [run], id)
  {
    if Among(rest, id) {
      var i :| 0 <= i < |rest| && rest[i].id == id;
      assert (rest + [run])[i].id == id;
    } else {
      assert (rest + [run])[|rest|].id == id;
    }
  }

  lemma RequestsExtend(a: map<RunId, Row>, b: map<RunId, Row>, added: seq<Run>, requests: map<string, Record>,
                       key: string, rec: Record)
    requires RequestsOk(a, requests) && Extends(a, b, added) && key !in requests
    requires |rec.ids| == |added| && forall i :: 0 <= i < |added| ==> rec.ids[i] == added[i].id
    requires RecordOk(b, key, rec)
    ensures RequestsOk(b, requests[key := rec])
  {
    hide RecordOk, Covered;
    var after := requests[key := rec];
    forall k | k in after ensures RecordOk(b, k, after[k]) {
      if k != key {
        RecordKept(a, b, k, requests[k]);
      }
    }
    forall k, l, id | k in after && l in after && id in after[k].ids && id in after[l].ids
      ensures k == l
    {
      if k != key || l != key {
        OldIds(a, requests, if k != key then k else l);
        NewIds(a, b, added, rec);
      }
    }
    forall id | id in b ensures Covered(after, id) {
      if id in a {
        StillCovered(requests, key, rec, id);
      } else {
        NewlyCovered(b, a, added, requests, key, rec, id);
      }
    }
  }

  lemma OldIds(a: map<RunId, Row>, requests: map<string, Record>, key: string)
    requires RequestsOk(a, requests) && key in requests
    ensures forall id :: id in requests[key].ids ==> id in a
  {
    assert RecordOk(a, key, requests[key]);
  }

  lemma NewIds(a: map<RunId, Row>, b: map<RunId, Row>, added: seq<Run>, rec: Record)
    requires Extends(a, b, added)
    requires |rec.ids| == |added| && forall i :: 0 <= i < |added| ==> rec.ids[i] == added[i].id
    ensures forall id :: id in rec.ids ==> id !in a
  {
  }

  lemma StillCovered(requests: map<string, Record>, key: string, rec: Record, id: RunId)
    requires Covered(requests, id) && key !in requests
    ensures Covered(requests[key := rec], id)
  {
    var k :| k in requests && id in requests[k].ids;
    assert k in requests[key := rec] && id in requests[key := rec][k].ids;
  }

  lemma NewlyCovered(b: map<RunId, Row>, a: map<RunId, Row>, added: seq<Run>, requests: map<string, Record>,
                     key: string, rec: Record, id: RunId)
    requires Extends(a, b, added) && id in b && id !in a
    requires |rec.ids| == |added| && forall i :: 0 <= i < |added| ==> rec.ids[i] == added[i].id
    ensures Covered(requests[key := rec], id)
  {
    var i :| 0 <= i < |added| && added[i].id == id;
    assert rec.ids[i] in requests[key := rec][key].ids;
  }

  lemma RecordKept(a: map<RunId, Row>, b: map<RunId, Row>, key: string, rec: Record)
    requires RecordOk(a, key, rec) && forall id :: id in a ==> id in b && b[id] == a[id]
    ensures RecordOk(b, key, rec)
  {
    forall i | 0 <= i < |rec.ids| ensures rec.ids[i] in b && b[rec.ids[i]] == a[rec.ids[i]] {
      assert rec.ids[i] in a;
    }
  }

  lemma LineagesExtend(a: map<RunId, Row>, b: map<RunId, Row>, added: seq<Run>)
    requires LineagesOk(a) && Extends(a, b, added)
    requires forall i :: 0 <= i < |added| && added[i].source.Some? ==>
               added[i].source.value in a && Retryable(a[added[i].source.value].run.status)
               && SameWork(a[added[i].source.value].run, added[i])
    ensures LineagesOk(b)
  {
    forall id | id in b ensures LineageOk(b, id) {
      if id in a {
        assert LineageOk(a, id);
      } else {
        var i :| 0 <= i < |added| && added[i].id == id;
        if added[i].source.Some? {
          assert LineageOk(a, added[i].source.value);
        }
      }
    }
  }

  lemma AdmissionExtends(a: map<RunId, Row>, b: map<RunId, Row>, added: seq<Run>)
    requires AdmissionOk(a) && Extends(a, b, added)
    requires |Actives(a)| + |added| <= QUEUE_LIMIT
    requires forall i :: 0 <= i < |added| && added[i].mode.Direct? ==>
               |added| == 1 && !LiveTarget(a, added[i].program.id, added[i].inputPath)
    ensures AdmissionOk(b)
  {
    ActivesExtend(a, b, added);
    forall p, q | p in b && q in b && p != q && SameTarget(b[p].run, b[q].run)
      ensures !(Live(b[p].run.status) && Live(b[q].run.status))
    {
      if p !in a {
        NewTarget(a, b, added, p, q);
      } else if q !in a {
        NewTarget(a, b, added, q, p);
      }
    }
  }

  lemma NewTarget(a: map<RunId, Row>, b: map<RunId, Row>, added: seq<Run>, p: RunId, q: RunId)
    requires Extends(a, b, added) && p in b && p !in a && q in b && p != q && SameTarget(b[p].run, b[q].run)
    requires forall i :: 0 <= i < |added| && added[i].mode.Direct? ==>
               |added| == 1 && !LiveTarget(a, added[i].program.id, added[i].inputPath)
    ensures !Live(b[q].run.status)
  {
    var i := Newcomer(a, b, added, p);
    if q !in a {
      var j := Newcomer(a, b, added, q);
    }
    hide Extends;
    OldRow(a, b, added, q);
  }

  lemma Newcomer(a: map<RunId, Row>, b: map<RunId, Row>, added: seq<Run>, id: RunId) returns (i: nat)
    requires Extends(a, b, added) && id in b && id !in a
    ensures i < |added| && added[i].id == id && b[id].run == added[i]
  {
    i :| 0 <= i < |added| && added[i].id == id;
  }

  lemma OldRow(a: map<RunId, Row>, b: map<RunId, Row>, added: seq<Run>, id: RunId)
    requires Extends(a, b, added) && id in a
    ensures id in b && b[id] == a[id]
  {
  }

  lemma ActivesExtend(a: map<RunId, Row>, b: map<RunId, Row>, added: seq<Run>)
    requires Extends(a, b, added)
    ensures |Actives(b)| <= |Actives(a)| + |added|
  {
    var ids := set i | 0 <= i < |added| :: added[i].id;
    assert Actives(b) <= Actives(a) + ids;
    ImageSize(added);
    Smaller(Actives(b), Actives(a) + ids);
    assert |Actives(a) + ids| <= |Actives(a)| + |ids|;
  }

  lemma {:induction false} ImageSize(added: seq<Run>)
    ensures |set i | 0 <= i < |added| :: added[i].id| <= |added|
  {
    if added != [] {
      var n := |added| - 1;
      ImageSize(added[..n]);
      var part := set i | 0 <= i < n :: added[..n][i].id;
      assert (set i | 0 <= i < |added| :: added[i].id) == part + {added[n].id};
    }
  }

  lemma OrdersExtend(a: map<RunId, Row>, b: map<RunId, Row>, added: seq<Run>, requests: map<string, Record>,
                     key: string, rec: Record)
    requires OrdersOk(a, requests) && Extends(a, b, added)
    requires |rec.ids| == |added| && forall i :: 0 <= i < |added| ==> rec.ids[i] == added[i].id
    ensures OrdersOk(b, requests[key := rec])
  {
    var after := requests[key := rec];
    forall k | k in after ensures Known(b, after[k].ids) && InOrder(b, after[k].ids) {
      if k != key {
        assert InOrder(a, requests[k].ids);
      }
    }
  }

  lemma NewHistory(db: Db, added: seq<Run>, grant: string, key: string, rec: Record)
    requires HistoryOk(db) && Newcomers(db, added) && key !in db.requests
    requires |Actives(db.runs)| + |added| <= QUEUE_LIMIT
    requires forall i :: 0 <= i < |added| && added[i].mode.Direct? ==>
               |added| == 1 && !LiveTarget(db.runs, added[i].program.id, added[i].inputPath)
    requires forall i :: 0 <= i < |added| && added[i].source.Some? ==>
               added[i].source.value in db.runs && Retryable(db.runs[added[i].source.value].run.status)
               && SameWork(db.runs[added[i].source.value].run, added[i])
    requires |rec.ids| == |added| && forall i :: 0 <= i < |added| ==> rec.ids[i] == added[i].id
    requires RecordOk(Insert(db, added, grant).runs, key, rec)
    ensures HistoryOk(Insert(db, added, grant).(requests := db.requests[key := rec]))
  {
    hide RequestsOk, LineagesOk, AdmissionOk, OrdersOk, RecordOk, Extends;
    var b := Insert(db, added, grant).runs;
    InsertExtends(db, added, grant);
    RequestsExtend(db.runs, b, added, db.requests, key, rec);
    LineagesExtend(db.runs, b, added);
    AdmissionExtends(db.runs, b, added);
    OrdersExtend(db.runs, b, added, db.requests, key, rec);
  }
}
