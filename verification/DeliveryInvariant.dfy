/** What the central server has received is, run by run, a prefix of the outbox. */
module DeliveryInvariant {
  import opened RunnerTypes
  import opened RunnerTables
  import opened Central
  import opened OutboxOrder

  predicate Link(a: Event, b: Event) {
    a.grant == b.grant && SameIdentity(a.run, b.run) && Arrow(b.run.mode, a.run.status, b.run.status)
  }

  predicate ChainAt(evs: seq<Event>, id: RunId, i: nat)
    requires i < |evs|
  {
    evs[i].sequence == i + 1 && evs[i].run.id == id && (i > 0 ==> Link(evs[i - 1], evs[i]))
  }

  /** Each run's events are numbered from 1 and linked by the life cycle. */
  ghost predicate Chained(events: seq<Event>) {
    forall id: RunId, i :: 0 <= i < |Of(events, id)| ==> ChainAt(Of(events, id), id, i)
  }

  predicate LatestAt(c: Server, id: RunId) {
    var got := Of(c.log, id);
    (id in c.runs <==> got != [])
    && (got != [] ==> c.runs[id] == CentralRun(got[|got| - 1].grant, got[|got| - 1].run))
  }

  ghost predicate ServerOk(events: seq<Event>, c: Server) {
    (forall id: RunId :: Of(c.log, id) <= Of(events, id))
    && (forall id: RunId :: LatestAt(c, id))
    && (forall e :: e in events ==> e.grant in c.grants && c.grants[e.grant] == e.run.context)
    && (forall e :: e in c.log ==> e.grant !in c.gone)
  }

  /** The run's grant has been deleted by a cleanup. */
  ghost predicate Gone(events: seq<Event>, gone: set<string>, id: RunId) {
    exists e :: e in events && e.runId == id && e.grant in gone
  }

  /** Only events that were received, and are still on record unless cleaned up, are marked; each run's marked events
      come first. */
  ghost predicate SentOk(events: seq<Event>, sent: set<(RunId, nat)>, c: Server) {
    (forall k :: k in sent ==> 1 <= k.1 <= |Of(events, k.0)|)
    && (forall k :: k in sent && !Gone(events, c.gone, k.0) ==> k.1 <= |Of(c.log, k.0)|)
    && (forall k, j: nat :: k in sent && 1 <= j < k.1 ==> (k.0, j) in sent)
  }

  /** One run's share of a posted batch: consecutive events, all earlier ones already marked. */
  ghost predicate Segment(evs: seq<Event>, sent: set<(RunId, nat)>, id: RunId, part: seq<Event>) {
    (forall i :: 0 <= i < |part| ==>
      1 <= part[i].sequence <= |evs| && part[i] == evs[part[i].sequence - 1]
        && part[i].sequence == part[0].sequence + i)
    && (part != [] ==> forall j: nat :: 1 <= j < part[0].sequence ==> (id, j) in sent)
  }

  ghost predicate BatchOk(events: seq<Event>, sent: set<(RunId, nat)>, batch: seq<Event>) {
    forall id: RunId :: Segment(Of(events, id), sent, id, Of(batch, id))
  }

  ghost predicate Delivered(c: Server, batch: seq<Event>) {
    forall e :: e in batch && e.grant !in c.gone ==> 1 <= e.sequence <= |Of(c.log, e.runId)|
  }

  ghost predicate Further(a: seq<Event>, b: seq<Event>) { forall id: RunId :: Of(a, id) <= Of(b, id) }

  // ---------------------------------------------------------------- the server accepts every such batch

  lemma {:induction false} FirstGrant(evs: seq<Event>, id: RunId, i: nat)
    requires i < |evs| && forall k :: 0 <= k < |evs| ==> ChainAt(evs, id, k)
    ensures evs[i].grant == evs[0].grant
  {
    hide SameIdentity, Arrow;
    if i > 0 {
      FirstGrant(evs, id, i - 1);
      assert ChainAt(evs, id, i);
    }
  }

  /** All events of one run are under one grant. */
  lemma OneGrant(events: seq<Event>, a: Event, b: Event)
    requires Chained(events) && a in events && b in events && a.runId == b.runId
    ensures a.grant == b.grant
  {
    hide ChainAt;
    var evs := Of(events, a.runId);
    OfHas(events, a);
    OfHas(events, b);
    var i :| 0 <= i < |evs| && evs[i] == a;
    var j :| 0 <= j < |evs| && evs[j] == b;
    FirstGrant(evs, a.runId, i);
    FirstGrant(evs, a.runId, j);
  }

  lemma GoneAll(events: seq<Event>, gone: set<string>, e: Event)
    requires Chained(events) && e in events
    ensures Gone(events, gone, e.runId) <==> e.grant in gone
  {
    if Gone(events, gone, e.runId) {
      var x :| x in events && x.runId == e.runId && x.grant in gone;
      OneGrant(events, x, e);
    }
  }

  /** What is on record was posted by the runner. */
  lemma Logged(events: seq<Event>, c: Server, x: Event)
    requires ServerOk(events, c) && x in c.log
    ensures x in events
  {
    hide LatestAt;
    OfHas(c.log, x);
    assert Of(c.log, x.runId) <= Of(events, x.runId);
    var i :| 0 <= i < |Of(c.log, x.runId)| && Of(c.log, x.runId)[i] == x;
    assert Of(events, x.runId)[i] == x;
  }

  /** Nothing is on record of a run whose grant is gone. */
  lemma GoneNothing(events: seq<Event>, c: Server, id: RunId)
    requires Chained(events) && ServerOk(events, c) && Gone(events, c.gone, id)
    ensures Of(c.log, id) == [] && id !in c.runs
  {
    assert LatestAt(c, id);
    if Of(c.log, id) != [] {
      var x := Of(c.log, id)[0];
      assert x in Of(c.log, id);
      hide ServerOk, Chained, Gone;
      Logged(events, c, x);
      GoneAll(events, c.gone, x);
      NotGone(events, c, x);
    }
  }

  lemma NotGone(events: seq<Event>, c: Server, x: Event)
    requires ServerOk(events, c) && x in c.log
    ensures x.grant !in c.gone
  {
  }

  lemma LogKey(events: seq<Event>, c: Server, id: RunId, n: nat)
    requires Chained(events) && ServerOk(events, c) && n >= 1
    ensures HasKey(c.log, id, n) <==> n <= |Of(c.log, id)|
    ensures n <= |Of(c.log, id)| ==> Of(events, id)[n - 1] in c.log
  {
    var got := Of(c.log, id);
    assert got <= Of(events, id);
    if n <= |got| {
      assert ChainAt(Of(events, id), id, n - 1);
      assert got[n - 1] in got;
    }
    if HasKey(c.log, id, n) {
      var e :| e in c.log && e.runId == id && e.sequence == n;
      OfHas(c.log, e);
      var i :| 0 <= i < |got| && got[i] == e;
      assert ChainAt(Of(events, id), id, i);
    }
  }

  lemma {:induction false} NumberedMax(evs: seq<Event>, id: RunId, all: seq<Event>)
    requires evs <= all && forall i :: 0 <= i < |evs| ==> ChainAt(all, id, i)
    ensures MaxSequence(evs) == |evs|
  {
    if evs != [] {
      NumberedMax(evs[..|evs| - 1], id, all);
      assert ChainAt(all, id, |evs| - 1);
    }
  }

  lemma ArrowIsAllowed(mode: Mode, a: Status, b: Status)
    requires Arrow(mode, a, b)
    ensures TransitionAllowed(a, b)
  {
  }

  function Recorded(c: Server, e: Event): Server {
    c.(log := c.log + [Received(e)], runs := c.runs[e.run.id := CentralRun(e.grant, e.run)])
  }

  lemma RecordedAt(c: Server, e: Event, id: RunId, evs: seq<Event>)
    requires LatestAt(c, id) && Of(c.log, id) <= evs && e.run.id == e.runId
    requires id == e.runId ==> Of(c.log, id) + [e] <= evs
    ensures LatestAt(Recorded(c, e), id) && Of(c.log, id) <= Of(Recorded(c, e).log, id) <= evs
    ensures id == e.runId ==> Of(Recorded(c, e).log, id) == Of(c.log, id) + [e]
  {
    hide Of;
    var got := Of(c.log, id);
    assert Received(e) == e;
    OfAppend(c.log, e, id);
    if id == e.runId {
      assert (got + [e])[|got|] == e;
    }
  }

  lemma RecordNext(events: seq<Event>, c: Server, e: Event)
    requires ServerOk(events, c)
    requires e.run.id == e.runId && Of(c.log, e.runId) + [e] <= Of(events, e.runId) && e.grant !in c.gone
    ensures var d := Recorded(c, e);
            ServerOk(events, d) && Further(c.log, d.log) && Of(d.log, e.runId) == Of(c.log, e.runId) + [e]
            && d.gone == c.gone && d.grants == c.grants
  {
    hide LatestAt, Of;
    var d := Recorded(c, e);
    forall id: RunId
      ensures LatestAt(d, id) && Of(c.log, id) <= Of(d.log, id) <= Of(events, id)
      ensures id == e.runId ==> Of(d.log, id) == Of(c.log, id) + [e]
    {
      RecordedAt(c, e, id, Of(events, id));
    }
  }

  lemma AcceptOneOk(events: seq<Event>, c: Server, e: Event)
    requires Chained(events) && ServerOk(events, c)
    requires 1 <= e.sequence <= |Of(events, e.runId)| && Of(events, e.runId)[e.sequence - 1] == e
    requires e.sequence <= |Of(c.log, e.runId)| + 1 && e.grant !in c.gone
    ensures AcceptOne(c, e).Ok?
    ensures var d := AcceptOne(c, e).value;
            ServerOk(events, d) && Further(c.log, d.log) && e.sequence <= |Of(d.log, e.runId)|
            && d.gone == c.gone && d.grants == c.grants
  {
    hide *;
    AtIndex(events, c, e.runId, e.sequence);
    LogKey(events, c, e.runId, e.sequence);
    if e.sequence == |Of(c.log, e.runId)| + 1 {
      NextPasses(events, c, e);
      RecordNext(events, c, e);
    } else {
      RepeatPasses(c, e);
    }
  }

  lemma AtIndex(events: seq<Event>, c: Server, id: RunId, n: nat)
    requires Chained(events) && ServerOk(events, c) && 1 <= n <= |Of(events, id)|
    ensures Of(c.log, id) <= Of(events, id) && Of(events, id)[n - 1].run.id == id
  {
    assert ChainAt(Of(events, id), id, n - 1);
  }

  lemma RepeatPasses(c: Server, e: Event)
    requires HasKey(c.log, e.run.id, e.sequence) && e in c.log && e.run.id == e.runId
    ensures AcceptOne(c, e) == Ok(c) && Further(c.log, c.log)
  {
  }

  lemma NextPasses(events: seq<Event>, c: Server, e: Event)
    requires Chained(events) && ServerOk(events, c)
    requires e.sequence == |Of(c.log, e.runId)| + 1 <= |Of(events, e.runId)|
    requires Of(events, e.runId)[e.sequence - 1] == e && e.run.id == e.runId && e.grant !in c.gone
    requires !HasKey(c.log, e.runId, e.sequence)
    ensures AcceptOne(c, e) == Ok(Recorded(c, e))
  {
    hide Link, TransitionAllowed, Received, HasKey;
    var id, n := e.runId, e.sequence;
    var evs, got := Of(events, id), Of(c.log, id);
    assert got <= evs && LatestAt(c, id);
    forall i | 0 <= i < |got| ensures ChainAt(evs, id, i) {
    }
    NumberedMax(got, id, evs);
    assert e in evs && e in events;
    if got != [] {
      assert ChainAt(evs, id, n - 1) && got[|got| - 1] == evs[n - 2];
      Linked(evs[n - 2], e);
    }
  }

  lemma Linked(a: Event, b: Event)
    requires Link(a, b)
    ensures a.grant == b.grant && SameIdentity(a.run, b.run) && TransitionAllowed(a.run.status, b.run.status)
  {
    ArrowIsAllowed(b.run.mode, a.run.status, b.run.status);
  }

  /** A batch share that starts no later than the next event the server expects. */
  ghost predicate Fits(evs: seq<Event>, got: nat, part: seq<Event>) {
    (forall i :: 0 <= i < |part| ==>
      1 <= part[i].sequence <= |evs| && part[i] == evs[part[i].sequence - 1]
        && part[i].sequence == part[0].sequence + i)
    && (part != [] ==> part[0].sequence <= got + 1)
  }

  ghost predicate BatchFits(events: seq<Event>, c: Server, batch: seq<Event>) {
    forall id: RunId :: !Gone(events, c.gone, id) ==> Fits(Of(events, id), |Of(c.log, id)|, Of(batch, id))
  }

  lemma SegmentFits(events: seq<Event>, sent: set<(RunId, nat)>, c: Server, batch: seq<Event>)
    requires SentOk(events, sent, c) && BatchOk(events, sent, batch)
    ensures BatchFits(events, c, batch)
  {
    hide Gone, Of;
    forall id: RunId | !Gone(events, c.gone, id) ensures Fits(Of(events, id), |Of(c.log, id)|, Of(batch, id)) {
      var part := Of(batch, id);
      assert Segment(Of(events, id), sent, id, part);
      if part != [] && part[0].sequence > 1 {
        assert (id, part[0].sequence - 1) in sent;
      }
    }
  }

  lemma FitsHead(events: seq<Event>, c: Server, batch: seq<Event>)
    requires BatchFits(events, c, batch) && batch != [] && !Gone(events, c.gone, batch[0].runId)
    ensures var e := batch[0];
            1 <= e.sequence <= |Of(events, e.runId)| && Of(events, e.runId)[e.sequence - 1] == e
            && e.sequence <= |Of(c.log, e.runId)| + 1
  {
    hide Gone;
    var e := batch[0];
    assert [e] + batch[1..] == batch;
    OfHead(e, batch[1..], e.runId);
    assert Fits(Of(events, e.runId), |Of(c.log, e.runId)|, Of(batch, e.runId));
    assert Of(batch, e.runId)[0] == e;
  }

  lemma FitsRest(events: seq<Event>, c: Server, d: Server, batch: seq<Event>)
    requires BatchFits(events, c, batch) && batch != [] && Further(c.log, d.log) && d.gone == c.gone
    requires batch[0].sequence <= |Of(d.log, batch[0].runId)|
    ensures BatchFits(events, d, batch[1..])
  {
    hide Fits, Gone;
    var e, rest := batch[0], batch[1..];
    var log, further := c.log, d.log;
    assert [e] + rest == batch;
    forall id: RunId | !Gone(events, c.gone, id) ensures Fits(Of(events, id), |Of(further, id)|, Of(rest, id)) {
      OfHead(e, rest, id);
      assert Fits(Of(events, id), |Of(log, id)|, Of(batch, id)) && Of(log, id) <= Of(further, id);
      if id == e.runId {
        FitsTail(Of(events, id), |Of(log, id)|, |Of(further, id)|, e, Of(rest, id));
      } else {
        FitsMore(Of(events, id), |Of(log, id)|, |Of(further, id)|, Of(rest, id));
      }
    }
  }

  lemma FitsTail(evs: seq<Event>, got: nat, more: nat, e: Event, tail: seq<Event>)
    requires Fits(evs, got, [e] + tail) && e.sequence <= more
    ensures Fits(evs, more, tail)
  {
    forall i | 0 <= i < |tail| ensures tail[i] == ([e] + tail)[i + 1] {
    }
  }

  lemma FitsMore(evs: seq<Event>, got: nat, more: nat, part: seq<Event>)
    requires Fits(evs, got, part) && got <= more
    ensures Fits(evs, more, part)
  {
  }

  lemma FurtherTrans(a: seq<Event>, b: seq<Event>, c: seq<Event>)
    requires Further(a, b) && Further(b, c)
    ensures Further(a, c)
  {
    forall id: RunId ensures Of(a, id) <= Of(c, id) {
      assert Of(a, id) <= Of(b, id) && Of(b, id) <= Of(c, id);
    }
  }

  /** What the server says to a batch: it refuses the whole of it when some event is under a deleted grant, for that
      reason and no other, and takes the whole of it otherwise. */
  ghost predicate Answers(events: seq<Event>, c: Server, batch: seq<Event>, r: Result<Server>) {
    if exists e :: e in batch && e.grant in c.gone then r == Err(GrantInvalid)
    else
      r.Ok? && ServerOk(events, r.value) && Further(c.log, r.value.log) && Delivered(r.value, batch)
      && r.value.gone == c.gone && r.value.grants == c.grants
  }

  ghost predicate Posted(events: seq<Event>, batch: seq<Event>) {
    forall e :: e in batch ==> e in events && e.run.id == e.runId
  }

  lemma GoneRefused(events: seq<Event>, c: Server, e: Event)
    requires Chained(events) && ServerOk(events, c) && e in events && e.run.id == e.runId && e.grant in c.gone
    ensures AcceptOne(c, e) == Err(GrantInvalid)
  {
    GoneAll(events, c.gone, e);
    GoneNothing(events, c, e.runId);
    if HasKey(c.log, e.runId, e.sequence) {
      var x :| x in c.log && x.runId == e.runId && x.sequence == e.sequence;
      OfHas(c.log, x);
    }
    hide Chained, ServerOk, Gone, Received, HasKey, Of;
  }

  lemma {:induction false} AcceptEachOk(events: seq<Event>, c: Server, batch: seq<Event>)
    requires Chained(events) && ServerOk(events, c) && BatchFits(events, c, batch) && Posted(events, batch)
    ensures Answers(events, c, batch, AcceptEach(c, batch))
    decreases |batch|
  {
    hide Chained, ServerOk, BatchFits, Further, AcceptOne, Delivered, Gone;
    if batch == [] {
      NothingLeft(c);
    } else if batch[0].grant in c.gone {
      GoneRefused(events, c, batch[0]);
    } else {
      GoneAll(events, c.gone, batch[0]);
      FitsHead(events, c, batch);
      AcceptOneOk(events, c, batch[0]);
      var d := AcceptOne(c, batch[0]).value;
      FitsRest(events, c, d, batch);
      AcceptEachOk(events, d, batch[1..]);
      AnswersBoth(events, c, d, batch, AcceptEach(d, batch[1..]));
    }
  }

  lemma AnswersBoth(events: seq<Event>, c: Server, d: Server, batch: seq<Event>, r: Result<Server>)
    requires batch != [] && batch[0].grant !in c.gone && Further(c.log, d.log) && d.gone == c.gone
    requires 1 <= batch[0].sequence <= |Of(d.log, batch[0].runId)| && d.grants == c.grants
    requires Answers(events, d, batch[1..], r)
    ensures Answers(events, c, batch, r)
  {
    hide ServerOk, Further, Delivered;
    assert forall e :: e in batch <==> e == batch[0] || e in batch[1..];
    if !exists e :: e in batch && e.grant in c.gone {
      FurtherTrans(c.log, d.log, r.value.log);
      HeadDelivered(d, r.value, batch);
    }
  }

  lemma NothingLeft(c: Server)
    ensures Further(c.log, c.log) && Delivered(c, [])
  {
  }

  lemma HeadDelivered(c: Server, d: Server, batch: seq<Event>)
    requires batch != [] && Further(c.log, d.log) && Delivered(d, batch[1..])
    requires 1 <= batch[0].sequence <= |Of(c.log, batch[0].runId)|
    ensures Delivered(d, batch)
  {
    assert Of(c.log, batch[0].runId) <= Of(d.log, batch[0].runId);
    forall e | e in batch && e.grant !in d.gone ensures 1 <= e.sequence <= |Of(d.log, e.runId)| {
      assert e == batch[0] || e in batch[1..];
    }
  }

  lemma BatchAscends(events: seq<Event>, sent: set<(RunId, nat)>, batch: seq<Event>)
    requires Chained(events) && BatchOk(events, sent, batch)
    ensures Ascending(batch) && Posted(events, batch)
  {
    forall id: RunId, i, j | 0 <= i < j < |Of(batch, id)|
      ensures Of(batch, id)[i].sequence < Of(batch, id)[j].sequence
    {
      assert Segment(Of(events, id), sent, id, Of(batch, id));
    }
    RunsRise(batch);
    forall e | e in batch ensures e in events && e.run.id == e.runId {
      OfHas(batch, e);
      var part, evs := Of(batch, e.runId), Of(events, e.runId);
      assert Segment(evs, sent, e.runId, part);
      var i :| 0 <= i < |part| && part[i] == e;
      assert ChainAt(evs, e.runId, e.sequence - 1);
      assert evs[e.sequence - 1] in evs;
    }
  }

  /** The server never refuses a batch the runner sends but for a deleted grant, whatever was in flight: no 409. */
  lemma BatchAccepted(events: seq<Event>, sent: set<(RunId, nat)>, c: Server, batch: seq<Event>)
    requires Chained(events) && ServerOk(events, c) && SentOk(events, sent, c) && BatchOk(events, sent, batch)
    ensures Answers(events, c, batch, Accept(c, batch))
  {
    hide *;
    SegmentFits(events, sent, c, batch);
    BatchAscends(events, sent, batch);
    AcceptEachOk(events, c, batch);
    AcceptIsEach(c, batch);
  }

  lemma AcceptIsEach(c: Server, batch: seq<Event>)
    requires Ascending(batch)
    ensures Accept(c, batch) == AcceptEach(c, batch)
  {
  }
}
