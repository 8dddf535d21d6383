/** One round of `sync` is three steps of the system, and calls of it drain the outbox to a mirror of the runner. */
module RunnerDrain {
  import opened RunnerTypes
  import opened RunnerTables
  import opened Central
  import opened RunnerSystem
  import opened OutboxOrder
  import opened DeliveryInvariant
  import opened OwnerInvariant
  import opened SystemInvariant
  import opened LifeSteps
  import opened RunnerTheorems
  import DeliverySteps
  import HistoryInvariant
  import Progress
  import SyncRuntime

  /** The thread is at the top of the loop of its call. */
  predicate InLoop(s: System, thread: nat) {
    s.life.Up? && thread in s.syncs.threads && s.syncs.threads[thread].Reading?
  }

  ghost predicate UnderGone(c: Server, batch: seq<Event>) { exists e :: e in batch && e.grant in c.gone }

  ghost function Round(s: System, thread: nat, batch: seq<Event>): System {
    Apply(Apply(Apply(s, SyncRead(thread, |batch|)), SyncPost(thread, batch)), SyncMark(thread))
  }

  // ---------------------------------------------------------------- one round

  lemma WholeIsFront(batch: seq<Event>)
    ensures FrontPart(batch, batch)
  {
  }

  lemma ReadIs(s: System, thread: nat, count: nat)
    requires InLoop(s, thread) && 1 <= count <= |Pending(s.db, BATCH_LIMIT)|
    ensures var batch := Pending(s.db, BATCH_LIMIT)[..count];
            Apply(s, SyncRead(thread, count))
            == s.(syncs := s.syncs.(threads := s.syncs.threads[thread := Posting(batch)],
                                    wire := s.syncs.wire + {batch}))
  {
    hide Pending;
  }

  lemma PostIs(s: System, thread: nat, batch: seq<Event>)
    requires s.life.Up? && thread in s.syncs.threads && s.syncs.threads[thread] == Posting(batch)
    requires FrontPart(batch, batch)
    ensures Apply(s, SyncPost(thread, batch))
         == match Accept(s.server, batch)
            case Ok(server) =>
              s.(server := server, syncs := s.syncs.(threads := s.syncs.threads[thread := Answered(batch)]))
            case Err(error) =>
              s.(syncs := s.syncs.(threads := s.syncs.threads - {thread},
                                   disabled := s.syncs.disabled || error.GrantInvalid?))
  {
    hide Accept, FrontPart;
  }

  lemma MarkIs(s: System, thread: nat, batch: seq<Event>)
    requires s.life.Up? && thread in s.syncs.threads && s.syncs.threads[thread] == Answered(batch)
    ensures Apply(s, SyncMark(thread))
         == s.(db := MarkSent(s.db, KeysOf(batch)), syncs := s.syncs.(threads := s.syncs.threads[thread := Reading]))
  {
    hide MarkSent;
  }

  lemma MarkIsNothing(s: System, thread: nat)
    requires thread !in s.syncs.threads && s.life.Up?
    ensures Apply(s, SyncMark(thread)) == s
  {
  }

  /** What a round leaves: the whole batch received and marked, or, when an event of it is under a deleted grant,
      nothing but syncing disabled. */
  ghost predicate RoundEnds(s: System, thread: nat, batch: seq<Event>, t: System) {
    t.life.Up? && t.tasks == s.tasks && t.syncs.wire == s.syncs.wire + {batch}
    && if UnderGone(s.server, batch) then
         t.db == s.db && t.server == s.server
         && t.syncs.threads == s.syncs.threads - {thread} && t.syncs.disabled
       else
         t.db == MarkSent(s.db, KeysOf(batch)) && Accept(s.server, batch) == Ok(t.server)
         && t.server.gone == s.server.gone
         && t.syncs.threads == s.syncs.threads && t.syncs.disabled == s.syncs.disabled
  }

  lemma RoundMarks(s: System, thread: nat, count: nat)
    requires SystemOk(s) && InLoop(s, thread) && 1 <= count <= |Pending(s.db, BATCH_LIMIT)|
    ensures var batch := Pending(s.db, BATCH_LIMIT)[..count]; RoundEnds(s, thread, batch, Round(s, thread, batch))
  {
    hide SystemOk, Accept, Pending, MarkSent, FrontPart, BatchOk, ServerOk, SentOk, SyncsOk, Delivered, Further, Apply;
    var batch := Pending(s.db, BATCH_LIMIT)[..count];
    WholeIsFront(batch);
    SyncReadOk(s, thread, count);
    ReadIs(s, thread, count);
    var a := Apply(s, SyncRead(thread, count));
    BatchOf(a, thread);
    ArrivalOk(a, batch, batch);
    PostIs(a, thread, batch);
    var b := Apply(a, SyncPost(thread, batch));
    if UnderGone(s.server, batch) {
      MarkIsNothing(b, thread);
      assert s.syncs.threads[thread := Posting(batch)] - {thread} == s.syncs.threads - {thread};
    } else {
      MarkIs(b, thread, batch);
      assert s.syncs.threads[thread := Posting(batch)][thread := Answered(batch)][thread := Reading] == s.syncs.threads;
    }
  }

  // ---------------------------------------------------------------- the loop in `sync`

  /** What the central client gets back when both sides hear each other. */
  function AnswerOf(c: Server, batch: seq<Event>): SyncRuntime.Answer {
    match Accept(c, batch)
    case Ok(_) => SyncRuntime.Accepted(KeysOf(batch))
    case Err(error) => SyncRuntime.Refused(if error.GrantInvalid? then 403 else 409)
  }

  /** A round of the loop in `sync` that gets the server's answer leaves the tables and the disabled flag that the three
      steps of its thread leave, and the loop goes on exactly when the batch was accepted. */
  lemma RoundIsThreeSteps(s: System, thread: nat, enc: SyncRuntime.Encoding, w: SyncRuntime.World,
                          q: SyncRuntime.SyncState, k: nat)
    requires SystemOk(s) && InLoop(s, thread) && q.db == s.db && Pending(s.db, 100) != [] && !q.disabled
    requires var batch := SyncRuntime.NextBatch(enc, q); w.answer(k, batch) == AnswerOf(s.server, batch)
    ensures var batch := SyncRuntime.NextBatch(enc, q);
            var (r, more) := SyncRuntime.OnePost(enc, w, q, k);
            RoundEnds(s, thread, batch, Round(s, thread, batch)) && r.db == Round(s, thread, batch).db
            && r.disabled == UnderGone(s.server, batch) && more == !UnderGone(s.server, batch)
  {
    var batch := SyncRuntime.NextBatch(enc, q);
    SyncRuntime.BatchIsLongestFit(enc, q, 0);
    assert batch == Pending(s.db, 100)[..|batch|];
    hide *;
    RoundMarks(s, thread, |batch|);
    Answering(s, thread, batch);
    PostIsAnswered(enc, w, q, k, s.server);
    EndsWith(s, thread, batch);
  }

  lemma Answering(s: System, thread: nat, batch: seq<Event>)
    requires SystemOk(s) && InLoop(s, thread) && 1 <= |batch| <= |Pending(s.db, BATCH_LIMIT)|
    requires batch == Pending(s.db, BATCH_LIMIT)[..|batch|]
    ensures if UnderGone(s.server, batch) then Accept(s.server, batch) == Err(GrantInvalid)
            else Accept(s.server, batch).Ok?
  {
    hide SystemOk, Accept, Pending, BatchOk, ServerOk, Delivered, Further, Apply;
    SyncReadOk(s, thread, |batch|);
    ReadIs(s, thread, |batch|);
    var a := Apply(s, SyncRead(thread, |batch|));
    BatchOf(a, thread);
    AnswersPosted(a, batch);
  }

  lemma PostIsAnswered(enc: SyncRuntime.Encoding, w: SyncRuntime.World, q: SyncRuntime.SyncState, k: nat, c: Server)
    requires var batch := SyncRuntime.NextBatch(enc, q); batch != [] && w.answer(k, batch) == AnswerOf(c, batch)
    requires Accept(c, SyncRuntime.NextBatch(enc, q)) == Err(GrantInvalid)
             || Accept(c, SyncRuntime.NextBatch(enc, q)).Ok?
    ensures SyncRuntime.OnePost(enc, w, q, k)
         == if Accept(c, SyncRuntime.NextBatch(enc, q)).Ok? then
              (q.(db := MarkSent(q.db, KeysOf(SyncRuntime.NextBatch(enc, q))), attempts := 0, nextAt := 0), true)
            else (q.(disabled := true), false)
  {
    hide SyncRuntime.NextBatch, MarkSent, Accept;
  }

  lemma EndsWith(s: System, thread: nat, batch: seq<Event>)
    requires RoundEnds(s, thread, batch, Round(s, thread, batch))
    ensures Round(s, thread, batch).db
         == if UnderGone(s.server, batch) then s.db else MarkSent(s.db, KeysOf(batch))
  {
  }

  // ---------------------------------------------------------------- whole calls

  /** Both sides hear each other, and the server accepts. */
  ghost predicate Accepting(w: SyncRuntime.World) {
    forall k: nat, batch: seq<Event> :: OwnIds(batch) ==> w.answer(k, batch) == SyncRuntime.Accepted(KeysOf(batch))
  }

  /** Such a network, whose clock stands still. */
  function AcceptAll(): SyncRuntime.World {
    SyncRuntime.World((k, batch: seq<Event>) =>
                        SyncRuntime.Accepted(seq(|batch|, i requires 0 <= i < |batch| =>
                                                            (batch[i].runId, batch[i].sequence))),
                      k => 0)
  }

  lemma AcceptAllAccepts()
    ensures Accepting(AcceptAll()) && SyncRuntime.AcceptsSome(AcceptAll())
  {
    var w := AcceptAll();
    forall k: nat, batch: seq<Event> | OwnIds(batch) ensures w.answer(k, batch) == SyncRuntime.Accepted(KeysOf(batch)) {
      assert w.answer(k, batch).keys == KeysOf(batch);
    }
    forall k: nat, batch: seq<Event> | batch != [] ensures SyncRuntime.Helps(w.answer(k, batch), batch) {
      assert w.answer(k, batch).keys[0] == (batch[0].runId, batch[0].sequence);
      assert batch[0] in batch;
    }
  }

  /** No pending event is under a deleted grant. */
  ghost predicate Deliverable(s: System) { !UnderGone(s.server, Unsent(s.db.events, s.db.sent)) }

  ghost predicate OwnIds(events: seq<Event>) { forall e :: e in events ==> e.run.id == e.runId }

  lemma AllOwnIds(s: System)
    requires SystemOk(s)
    ensures OwnIds(s.db.events)
  {
    hide HistoryInvariant.HistoryOk, OwnerOk, DeliveryOk;
    OutboxIsChained(s.db, Lag(s));
    forall e | e in s.db.events ensures e.run.id == e.runId {
      OfHas(s.db.events, e);
      var evs := Of(s.db.events, e.runId);
      var i :| 0 <= i < |evs| && evs[i] == e;
      assert ChainAt(evs, e.runId, i);
    }
  }

  lemma PendingIsOwn(db: Db, count: nat)
    requires OwnIds(db.events) && count <= |Pending(db, 100)|
    ensures OwnIds(Pending(db, 100)[..count])
  {
    var batch := Pending(db, 100)[..count];
    forall e | e in batch ensures e in db.events {
      assert e in Unsent(db.events, db.sent);
      UnsentAre(db.events, db.sent, e);
    }
  }

  lemma PendingFront(s: System, count: nat)
    requires Deliverable(s) && count <= |Pending(s.db, 100)|
    ensures !UnderGone(s.server, Pending(s.db, 100)[..count])
  {
    PendingIsFront(s.db, 100, count);
    var all := Unsent(s.db.events, s.db.sent);
    assert forall e :: e in all[..count] ==> e in all;
  }

  /** Marking makes no further event pending. */
  lemma StaysDeliverable(s: System, t: System, keys: seq<(RunId, nat)>)
    requires Deliverable(s) && t.db == MarkSent(s.db, keys) && t.server.gone == s.server.gone
    ensures Deliverable(t) && t.db.runs == s.db.runs
  {
    forall e | e in Unsent(t.db.events, t.db.sent) ensures e.grant !in t.server.gone {
      UnsentAre(t.db.events, t.db.sent, e);
      UnsentAre(s.db.events, s.db.sent, e);
    }
  }

  lemma Pushed(s: System, steps: seq<Step>, x: Step) returns (more: seq<Step>)
    ensures more == steps + [x] && After(s, more) == Apply(After(s, steps), x)
  {
    more := steps + [x];
    assert more[..|steps|] == steps;
  }

  /** The state of a call between two rounds. */
  ghost predicate Calling(t: System, thread: nat, q: SyncRuntime.SyncState) {
    InLoop(t, thread) && Deliverable(t) && q.db == t.db && !q.disabled && !t.syncs.disabled
  }

  /** Nothing but delivery has happened. */
  ghost predicate OnlyDelivered(a: System, b: System) {
    b.db.runs == a.db.runs && b.tasks == a.tasks && b.server.gone == a.server.gone
  }

  lemma OneRound(s: System, before: seq<Step>, thread: nat, enc: SyncRuntime.Encoding, w: SyncRuntime.World,
                 q: SyncRuntime.SyncState, k: nat)
    returns (steps: seq<Step>)
    requires Installed(s) && Calling(After(s, before), thread, q) && Accepting(w) && Pending(q.db, 100) != []
    ensures var (r, more) := SyncRuntime.OnePost(enc, w, q, k);
            before <= steps && more && Calling(After(s, steps), thread, r)
            && OnlyDelivered(After(s, before), After(s, steps))
            && After(s, steps).syncs.threads == After(s, before).syncs.threads
  {
    hide After, Apply, SystemOk, Deliverable, UnderGone, Accept;
    Reachable(s, before);
    var a := After(s, before);
    var batch := SyncRuntime.NextBatch(enc, q);
    SyncRuntime.BatchIsLongestFit(enc, q, 0);
    assert batch == Pending(a.db, 100)[..|batch|];
    PendingFront(a, |batch|);
    AllOwnIds(a);
    PendingIsOwn(a.db, |batch|);
    Answering(a, thread, batch);
    RoundIsThreeSteps(a, thread, enc, w, q, k);
    steps := Pushed(s, before, SyncRead(thread, |batch|));
    steps := Pushed(s, steps, SyncPost(thread, batch));
    steps := Pushed(s, steps, SyncMark(thread));
    StaysDeliverable(a, After(s, steps), KeysOf(batch));
  }

  /** The rounds of one call. */
  lemma {:induction false} RoundsAreSteps(s: System, before: seq<Step>, thread: nat, enc: SyncRuntime.Encoding,
                                          w: SyncRuntime.World, q: SyncRuntime.SyncState, k: nat)
    returns (steps: seq<Step>)
    requires Installed(s) && Calling(After(s, before), thread, q) && Accepting(w) && k <= SyncRuntime.MAX_POSTS
    ensures before <= steps && Calling(After(s, steps), thread, SyncRuntime.Rounds(enc, w, q, k).0)
            && OnlyDelivered(After(s, before), After(s, steps))
            && After(s, steps).syncs.threads == After(s, before).syncs.threads
    decreases SyncRuntime.MAX_POSTS - k
  {
    hide After, Accepting, SyncRuntime.OnePost, InLoop, Deliverable, Pending;
    steps := before;
    if k < SyncRuntime.MAX_POSTS && Pending(q.db, 100) != [] {
      steps := OneRound(s, before, thread, enc, w, q, k);
      steps := RoundsAreSteps(s, steps, thread, enc, w, SyncRuntime.OnePost(enc, w, q, k).0, k + 1);
    }
  }

  /** A reachable state in which a call can begin, with the tables of the runtime. */
  ghost predicate Idling(t: System, thread: nat, q: SyncRuntime.SyncState) {
    t.life.Up? && thread !in t.syncs.threads && Deliverable(t) && q.db == t.db && !q.disabled && !t.syncs.disabled
  }

  lemma CallIsSteps(s: System, before: seq<Step>, thread: nat, enc: SyncRuntime.Encoding, w: SyncRuntime.World,
                    q: SyncRuntime.SyncState, now: int)
    returns (steps: seq<Step>)
    requires Installed(s) && Idling(After(s, before), thread, q) && Accepting(w) && now >= q.nextAt
    ensures before <= steps && Idling(After(s, steps), thread, SyncRuntime.SyncCall(enc, w, q, now).0)
            && OnlyDelivered(After(s, before), After(s, steps))
  {
    hide After, Accepting, SyncRuntime.Rounds;
    steps := Pushed(s, before, SyncEnters(thread));
    assert Calling(After(s, steps), thread, q);
    steps := RoundsAreSteps(s, steps, thread, enc, w, q, 0);
    var b := After(s, steps);
    steps := Pushed(s, steps, SyncStops(thread));
    assert After(s, steps) == b.(syncs := b.syncs.(threads := b.syncs.threads - {thread}));
  }

  /** Calls made one after another, to an accepting server and with no backoff pending, are steps of the system. */
  lemma {:induction false} CallsAreSteps(s: System, before: seq<Step>, thread: nat, enc: SyncRuntime.Encoding,
                                         q: SyncRuntime.SyncState, calls: seq<(SyncRuntime.World, int)>)
    returns (steps: seq<Step>)
    requires Installed(s) && Idling(After(s, before), thread, q) && SyncRuntime.Helpful(q, calls)
    requires forall i :: 0 <= i < |calls| ==> Accepting(calls[i].0)
    ensures before <= steps && Idling(After(s, steps), thread, SyncRuntime.Calls(enc, q, calls))
            && OnlyDelivered(After(s, before), After(s, steps))
    decreases |calls|
  {
    hide After, Accepting, SyncRuntime.SyncCall, Idling;
    steps := before;
    if calls != [] {
      var n := |calls| - 1;
      steps := CallsAreSteps(s, before, thread, enc, q, calls[..n]);
      SyncRuntime.CallsDrain(enc, q, calls[..n]);
      steps := CallIsSteps(s, steps, thread, enc, calls[n].0, SyncRuntime.Calls(enc, q, calls[..n]), calls[n].1);
    }
  }

  // ---------------------------------------------------------------- the outbox drains

  lemma {:induction false} Above(x: set<nat>) returns (t: nat)
    ensures forall y: nat :: y in x ==> y < t
    decreases |x|
  {
    if x == {} {
      t := 0;
    } else {
      var y :| y in x;
      var u := Above(x - {y});
      t := if u > y then u else y + 1;
      assert forall z: nat :: z in x ==> z == y || z in x - {y};
    }
  }

  /** From every reachable state in which the runner is up, syncing is not disabled and no pending event is under a
      deleted grant: calls of `sync` to an accepting server, one for each hundred pending events, bring the central
      server to show exactly the runs whose grant it has not deleted, each as the runner does, without any run
      changing. */
  lemma CallsReachEqual(s: System, before: seq<Step>, enc: SyncRuntime.Encoding, q: SyncRuntime.SyncState,
                        calls: seq<(SyncRuntime.World, int)>)
    returns (steps: seq<Step>)
    requires Installed(s)
    requires var a := After(s, before); a.life.Up? && !a.syncs.disabled && Deliverable(a) && q.db == a.db
    requires SyncRuntime.Helpful(q, calls) && forall i :: 0 <= i < |calls| ==> Accepting(calls[i].0)
    requires SyncRuntime.MAX_POSTS * |calls| >= PendingCount(q.db)
    ensures before <= steps && After(s, steps).db == SyncRuntime.Calls(enc, q, calls).db
            && OnlyDelivered(After(s, before), After(s, steps)) && PendingCount(After(s, steps).db) == 0
    ensures forall id: RunId :: Mirrored(After(s, steps), id)
  {
    hide After, PendingCount, Mirrored, Accepting, SyncRuntime.AcceptsSome, SyncRuntime.Calls, Deliverable;
    var thread := Above(After(s, before).syncs.threads.Keys);
    steps := CallsAreSteps(s, before, thread, enc, q, calls);
    SyncRuntime.CallsDrain(enc, q, calls);
    forall id: RunId ensures Mirrored(After(s, steps), id) {
      DrainedMeansEqual(s, steps, id);
    }
  }

  /** There are such calls, so that the outbox can always be drained in these states. */
  lemma Drains(s: System, before: seq<Step>) returns (steps: seq<Step>)
    requires Installed(s)
    requires var a := After(s, before); a.life.Up? && !a.syncs.disabled && Deliverable(a)
    ensures before <= steps && OnlyDelivered(After(s, before), After(s, steps))
            && PendingCount(After(s, steps).db) == 0
    ensures forall id: RunId :: Mirrored(After(s, steps), id)
  {
    hide After, PendingCount, Mirrored, Accepting, SyncRuntime.AcceptsSome, SyncRuntime.Calls, Deliverable, AcceptAll;
    AcceptAllAccepts();
    var q := SyncRuntime.SyncState(After(s, before).db, SyncRuntime.START_BUDGET, 0, 0, false);
    var calls := seq(PendingCount(q.db), i => (AcceptAll(), 0));
    steps := CallsReachEqual(s, before, SyncRuntime.Encoding(0, (e: Event) => 0), q, calls);
  }
}
