/** Reading, posting and marking keep the delivery invariant, whatever other threads do in between. */
module DeliverySteps {
  import opened RunnerTypes
  import opened RunnerTables
  import opened Central
  import opened OutboxOrder
  import opened DeliveryInvariant

  // ---------------------------------------------------------------- reading a batch

  lemma ChainedRises(events: seq<Event>)
    requires Chained(events)
    ensures Rising(events)
  {
    forall id: RunId, i, j | 0 <= i < j < |Of(events, id)|
      ensures Of(events, id)[i].sequence < Of(events, id)[j].sequence
    {
      assert ChainAt(Of(events, id), id, i) && ChainAt(Of(events, id), id, j);
    }
    RunsRise(events);
  }

  lemma TailIsSegment(evs: seq<Event>, sent: set<(RunId, nat)>, id: RunId, part: seq<Event>)
    requires forall i :: 0 <= i < |evs| ==> evs[i].runId == id && evs[i].sequence == i + 1
    requires forall j, n: nat :: (id, n) in sent && 1 <= j < n ==> (id, j) in sent
    requires part <= Keep(evs, sent)
    ensures Segment(evs, sent, id, part)
  {
    var n := SentCount(evs, sent);
    KeepIsTail(evs, sent);
    forall i | 0 <= i < |part| ensures part[i] == evs[n + i] {
    }
    if part != [] {
      forall j: nat | 1 <= j < part[0].sequence ensures (id, j) in sent {
        assert IsSent(sent, evs[j - 1]);
      }
    }
  }

  /** Any front part of the pending list is, run by run, the next events not yet marked. */
  lemma ReadBatch(events: seq<Event>, sent: set<(RunId, nat)>, c: Server, all: seq<Event>, n: nat)
    requires Chained(events) && SentOk(events, sent, c) && all == Unsent(events, sent) && n <= |all|
    ensures BatchOk(events, sent, all[..n])
  {
    hide Segment;
    ChainedRises(events);
    forall id: RunId ensures Segment(Of(events, id), sent, id, Of(all[..n], id)) {
      OfTake(all, n, id);
      UnsentOf(events, sent, id);
      forall i | 0 <= i < |Of(events, id)| ensures Of(events, id)[i].sequence == i + 1 {
        assert ChainAt(Of(events, id), id, i);
      }
      TailIsSegment(Of(events, id), sent, id, Of(all[..n], id));
    }
  }

  // ---------------------------------------------------------------- marking an answered batch

  function Keys(batch: seq<Event>): set<(RunId, nat)> { set e | e in batch :: (e.runId, e.sequence) }

  lemma MarkIsUnion(db: Db, batch: seq<Event>)
    requires forall e :: e in batch ==> e.run.id == e.runId && e in db.events
    ensures MarkSent(db, KeysOf(batch)) == db.(sent := db.sent + Keys(batch))
  {
    var ks := KeysOf(batch);
    forall k | k in Keys(batch) ensures k in ks && HasKey(db.events, k.0, k.1) {
      var e :| e in batch && k == (e.runId, e.sequence);
      var i :| 0 <= i < |batch| && batch[i] == e;
      assert ks[i] == k;
    }
    forall k | k in ks ensures k in Keys(batch) {
      var i :| 0 <= i < |ks| && ks[i] == k;
      assert batch[i] in batch;
    }
    assert (set k | k in ks && HasKey(db.events, k.0, k.1)) == Keys(batch);
  }

  lemma InSegment(evs: seq<Event>, sent: set<(RunId, nat)>, id: RunId, part: seq<Event>, e: Event, j: nat)
    requires Segment(evs, sent, id, part) && e in part && 1 <= j < e.sequence
    ensures e.sequence <= |evs| && e == evs[e.sequence - 1]
    ensures (id, j) in sent || exists i :: 0 <= i < |part| && part[i].sequence == j && part[i] in part
  {
    var i :| 0 <= i < |part| && part[i] == e;
    if j >= part[0].sequence {
      assert part[j - part[0].sequence].sequence == j;
    }
  }

  lemma EarlierMarked(events: seq<Event>, sent: set<(RunId, nat)>, batch: seq<Event>, e: Event, j: nat)
    requires BatchOk(events, sent, batch) && e in batch && 1 <= j < e.sequence
    ensures (e.runId, j) in sent + Keys(batch)
  {
    hide Segment;
    var part := Of(batch, e.runId);
    OfHas(batch, e);
    assert Segment(Of(events, e.runId), sent, e.runId, part);
    InSegment(Of(events, e.runId), sent, e.runId, part, e, j);
    if i :| 0 <= i < |part| && part[i].sequence == j && part[i] in part {
      assert part[i] in batch && part[i].runId == e.runId;
    }
  }

  lemma Sequenced(events: seq<Event>, sent: set<(RunId, nat)>, batch: seq<Event>, e: Event)
    requires BatchOk(events, sent, batch) && e in batch
    ensures 1 <= e.sequence <= |Of(events, e.runId)| && Of(events, e.runId)[e.sequence - 1] == e
  {
    hide Segment;
    OfHas(batch, e);
    assert Segment(Of(events, e.runId), sent, e.runId, Of(batch, e.runId));
    Numbered(Of(events, e.runId), sent, e.runId, Of(batch, e.runId), e);
  }

  lemma Numbered(evs: seq<Event>, sent: set<(RunId, nat)>, id: RunId, part: seq<Event>, e: Event)
    requires Segment(evs, sent, id, part) && e in part
    ensures 1 <= e.sequence <= |evs| && evs[e.sequence - 1] == e
  {
    var i :| 0 <= i < |part| && part[i] == e;
  }

  lemma InBatch(events: seq<Event>, sent: set<(RunId, nat)>, batch: seq<Event>, e: Event)
    requires Chained(events) && BatchOk(events, sent, batch) && e in batch
    ensures e in events && e.run.id == e.runId && 1 <= e.sequence <= |Of(events, e.runId)|
    ensures forall j: nat :: 1 <= j < e.sequence ==> (e.runId, j) in sent + Keys(batch)
  {
    hide *;
    BatchAscends(events, sent, batch);
    IsPosted(events, batch, e);
    Sequenced(events, sent, batch, e);
    forall j: nat | 1 <= j < e.sequence ensures (e.runId, j) in sent + Keys(batch) {
      EarlierMarked(events, sent, batch, e, j);
    }
  }

  lemma IsPosted(events: seq<Event>, batch: seq<Event>, e: Event)
    requires Posted(events, batch) && e in batch
    ensures e in events && e.run.id == e.runId
  {
  }

  lemma MarkKeepsSent(events: seq<Event>, sent: set<(RunId, nat)>, c: Server, batch: seq<Event>)
    requires Chained(events) && SentOk(events, sent, c) && BatchOk(events, sent, batch) && Delivered(c, batch)
    ensures SentOk(events, sent + Keys(batch), c)
  {
    hide Chained, BatchOk, Gone;
    forall k | k in sent + Keys(batch)
      ensures 1 <= k.1 <= |Of(events, k.0)| && (!Gone(events, c.gone, k.0) ==> k.1 <= |Of(c.log, k.0)|)
      ensures forall j: nat :: 1 <= j < k.1 ==> (k.0, j) in sent + Keys(batch)
    {
      if k !in sent {
        var e :| e in batch && k == (e.runId, e.sequence);
        InBatch(events, sent, batch, e);
        GoneAll(events, c.gone, e);
      }
    }
  }

  // ---------------------------------------------------------------- what other steps do not disturb

  lemma BatchStays(events: seq<Event>, more: seq<Event>, sent: set<(RunId, nat)>, also: set<(RunId, nat)>,
                   batch: seq<Event>)
    requires BatchOk(events, sent, batch) && events <= more && sent <= also
    ensures BatchOk(more, also, batch)
  {
    forall id: RunId ensures Segment(Of(more, id), also, id, Of(batch, id)) {
      assert Segment(Of(events, id), sent, id, Of(batch, id));
      assert more[..|events|] == events;
      OfTake(more, |events|, id);
    }
  }

  lemma SentStays(events: seq<Event>, sent: set<(RunId, nat)>, c: Server, d: Server)
    requires SentOk(events, sent, c) && Further(c.log, d.log) && d.gone == c.gone
    ensures SentOk(events, sent, d)
  {
    hide Gone;
    forall k | k in sent && !Gone(events, c.gone, k.0) ensures k.1 <= |Of(d.log, k.0)| {
      assert Of(c.log, k.0) <= Of(d.log, k.0);
    }
  }

  /** Marked stays marked when events are added. */
  lemma SentMore(events: seq<Event>, more: seq<Event>, sent: set<(RunId, nat)>, c: Server)
    requires SentOk(events, sent, c) && events <= more
    ensures SentOk(more, sent, c)
  {
    forall k | k in sent
      ensures 1 <= k.1 <= |Of(more, k.0)| && (!Gone(more, c.gone, k.0) ==> !Gone(events, c.gone, k.0))
    {
      assert more[..|events|] == events;
      OfTake(more, |events|, k.0);
      if Gone(events, c.gone, k.0) {
        var e :| e in events && e.runId == k.0 && e.grant in c.gone;
        assert e in more;
      }
    }
    hide Gone;
  }

  lemma DeliveredStays(c: Server, d: Server, batch: seq<Event>)
    requires Delivered(c, batch) && Further(c.log, d.log) && d.gone == c.gone
    ensures Delivered(d, batch)
  {
    forall e | e in batch && e.grant !in d.gone ensures 1 <= e.sequence <= |Of(d.log, e.runId)| {
      assert Of(c.log, e.runId) <= Of(d.log, e.runId);
    }
  }

  lemma ServerStays(events: seq<Event>, more: seq<Event>, c: Server)
    requires ServerOk(events, c) && events <= more
    requires forall e :: e in more && e !in events ==> e.grant in c.grants && c.grants[e.grant] == e.run.context
    ensures ServerOk(more, c)
  {
    hide LatestAt;
    forall id: RunId ensures Of(c.log, id) <= Of(more, id) && LatestAt(c, id) {
      assert more[..|events|] == events;
      OfTake(more, |events|, id);
      assert Of(c.log, id) <= Of(events, id);
    }
  }

  lemma ApproveStays(events: seq<Event>, c: Server, grant: string, context: Context)
    requires ServerOk(events, c) && grant !in c.grants
    ensures ServerOk(events, c.(grants := c.grants[grant := context]))
  {
    var d := c.(grants := c.grants[grant := context]);
    forall id: RunId ensures Of(d.log, id) <= Of(events, id) && LatestAt(d, id) {
      assert LatestAt(c, id);
      assert Of(c.log, id) <= Of(events, id);
    }
  }

  lemma ApproveSent(events: seq<Event>, sent: set<(RunId, nat)>, c: Server, grant: string, context: Context)
    requires SentOk(events, sent, c)
    ensures SentOk(events, sent, c.(grants := c.grants[grant := context]))
  {
    hide Gone;
  }

  lemma ApproveDelivered(c: Server, grant: string, context: Context, batch: seq<Event>)
    requires Delivered(c, batch)
    ensures Delivered(c.(grants := c.grants[grant := context]), batch)
  {
  }

  // ---------------------------------------------------------------- a project cleanup

  lemma {:induction false} WithoutOf(log: seq<Event>, ids: set<RunId>, id: RunId)
    ensures Of(Without(log, ids), id) == if id in ids then [] else Of(log, id)
  {
    if log != [] {
      var n := |log| - 1;
      WithoutOf(log[..n], ids, id);
      assert log[..n] + [log[n]] == log;
      OfAppend(log[..n], log[n], id);
      OfAppend(Without(log[..n], ids), log[n], id);
    }
  }

  lemma {:induction false} WithoutHas(log: seq<Event>, ids: set<RunId>, e: Event)
    ensures e in Without(log, ids) <==> e in log && e.runId !in ids
  {
    if log != [] {
      WithoutHas(log[..|log| - 1], ids, e);
    }
  }

  /** A deleted run is one whose events are under a deleted grant, and the other way round. */
  lemma RunsAreUnder(events: seq<Event>, c: Server, grants: set<string>, e: Event)
    requires Chained(events) && ServerOk(events, c) && e in events && e.runId in c.runs
    ensures e.runId in RunsUnder(c, grants) <==> e.grant in grants * c.grants.Keys
  {
    hide SameIdentity, Arrow;
    var got := Of(c.log, e.runId);
    assert LatestAt(c, e.runId);
    var x := got[|got| - 1];
    assert x in got;
    Logged(events, c, x);
    OneGrant(events, x, e);
  }

  lemma CleanedServer(events: seq<Event>, c: Server, grants: set<string>)
    requires Chained(events) && ServerOk(events, c)
    ensures ServerOk(events, Cleaned(c, grants))
  {
    hide Chained;
    var ids, d := RunsUnder(c, grants), Cleaned(c, grants);
    forall id: RunId ensures Of(d.log, id) <= Of(events, id) && LatestAt(d, id) {
      WithoutOf(c.log, ids, id);
      assert LatestAt(c, id) && Of(c.log, id) <= Of(events, id);
    }
    forall e | e in d.log ensures e.grant !in d.gone {
      WithoutHas(c.log, ids, e);
      LoggedRun(events, c, e);
      RunsAreUnder(events, c, grants, e);
    }
  }

  lemma LoggedRun(events: seq<Event>, c: Server, e: Event)
    requires ServerOk(events, c) && e in c.log
    ensures e in events && e.runId in c.runs
  {
    Logged(events, c, e);
    OfHas(c.log, e);
    assert LatestAt(c, e.runId);
  }

  lemma GoneMore(events: seq<Event>, gone: set<string>, more: set<string>, id: RunId)
    requires gone <= more && Gone(events, gone, id)
    ensures Gone(events, more, id)
  {
  }

  /** A run that is not gone keeps its receipts. */
  lemma CleanedRun(events: seq<Event>, c: Server, grants: set<string>, id: RunId)
    requires Chained(events) && ServerOk(events, c) && !Gone(events, Cleaned(c, grants).gone, id)
    ensures Of(Cleaned(c, grants).log, id) == Of(c.log, id) && !Gone(events, c.gone, id)
  {
    var d := Cleaned(c, grants);
    if Gone(events, c.gone, id) {
      GoneMore(events, c.gone, d.gone, id);
    }
    WithoutOf(c.log, RunsUnder(c, grants), id);
    assert LatestAt(c, id);
    if id in RunsUnder(c, grants) {
      var x := Of(c.log, id)[0];
      assert x in Of(c.log, id);
      hide Chained, ServerOk, Gone;
      Logged(events, c, x);
      RunsAreUnder(events, c, grants, x);
      GoneAll(events, d.gone, x);
    }
  }

  lemma CleanedSent(events: seq<Event>, sent: set<(RunId, nat)>, c: Server, grants: set<string>)
    requires Chained(events) && ServerOk(events, c) && SentOk(events, sent, c)
    ensures SentOk(events, sent, Cleaned(c, grants))
  {
    hide Gone, Cleaned, Chained, ServerOk;
    forall k | k in sent && !Gone(events, Cleaned(c, grants).gone, k.0)
      ensures k.1 <= |Of(Cleaned(c, grants).log, k.0)|
    {
      CleanedRun(events, c, grants, k.0);
    }
  }

  lemma CleanedDelivered(events: seq<Event>, c: Server, grants: set<string>, batch: seq<Event>)
    requires Chained(events) && ServerOk(events, c) && Delivered(c, batch) && Posted(events, batch)
    ensures Delivered(Cleaned(c, grants), batch)
  {
    var d := Cleaned(c, grants);
    assert c.gone <= d.gone;
    hide Gone, Cleaned, Chained, ServerOk;
    forall e | e in batch && e.grant !in d.gone ensures 1 <= e.sequence <= |Of(d.log, e.runId)| {
      GoneAll(events, d.gone, e);
      CleanedRun(events, c, grants, e.runId);
    }
  }
}
