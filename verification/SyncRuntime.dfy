/** One call of `sync`: byte-bounded batches, shrinking on 413, backing off, disabling. */
module SyncRuntime {
  import opened RunnerTypes
  import opened RunnerTables
  import opened OutboxOrder

  const MAX_POSTS: nat := 100
  const FLOOR: nat := 64 * 1024
  const START_BUDGET: nat := 900 * 1024

  /** The encoded size of a payload: an envelope, the events, and a comma between neighbours. */
  datatype Encoding = Encoding(envelope: nat, size: Event -> nat)

  function EventsSize(enc: Encoding, batch: seq<Event>): nat {
    if batch == [] then 0 else EventsSize(enc, batch[..|batch| - 1]) + enc.size(batch[|batch| - 1])
  }

  function PayloadSize(enc: Encoding, batch: seq<Event>): nat {
    enc.envelope + EventsSize(enc, batch) + if |batch| > 1 then |batch| - 1 else 0
  }

  /** What the central client gets back from one post. */
  datatype Answer =
    | Accepted(keys: seq<(RunId, nat)>)  // an empty list counts as an invalid response
    | Refused(status: nat)
    | Unreachable

  /** The network and the clock: the answer to the k-th post of a batch, and the time it comes back. */
  datatype World = World(answer: (nat, seq<Event>) -> Answer, time: nat -> int)

  datatype SyncState = SyncState(db: Db, budget: nat, attempts: nat, nextAt: int, disabled: bool)

  function Power2(n: nat): nat { if n == 0 then 1 else 2 * Power2(n - 1) }

  function Min(a: int, b: int): int { if a < b then a else b }

  function Backoff(s: SyncState, now: int): SyncState {
    s.(attempts := s.attempts + 1, nextAt := now + Min(300, Power2(if s.attempts + 1 < 8 then s.attempts + 1 else 8)))
  }

  function Shrunk(budget: nat, payload: nat): nat {
    var half := if payload / 2 < budget / 2 then payload / 2 else budget / 2;
    if half < FLOOR then FLOOR else half
  }

  /** How many events the batch loop takes, having taken n. */
  function FitFrom(enc: Encoding, events: seq<Event>, budget: nat, n: nat): (m: nat)
    requires n <= |events|
    ensures n <= m <= |events|
    decreases |events| - n
  {
    if n == |events| || (n > 0 && PayloadSize(enc, events[..n + 1]) > budget) then n
    else FitFrom(enc, events, budget, n + 1)
  }

  function NextBatch(enc: Encoding, s: SyncState): seq<Event> {
    var events := Pending(s.db, 100);
    events[..FitFrom(enc, events, s.budget, 0)]
  }

  /** The state after one post, and whether the loop goes on. */
  function OnePost(enc: Encoding, w: World, s: SyncState, k: nat): (SyncState, bool) {
    var batch := NextBatch(enc, s);
    match w.answer(k, batch)
    case Accepted(keys) =>
      if keys == [] then (Backoff(s, w.time(k)), false)
      else (s.(db := MarkSent(s.db, keys), attempts := 0, nextAt := 0), true)
    case Unreachable => (Backoff(s, w.time(k)), false)
    case Refused(status) =>
      if status == 401 || status == 403 then (s.(disabled := true), false)
      else if status == 413 && |batch| > 1 then (s.(budget := Shrunk(s.budget, PayloadSize(enc, batch))), true)
      else (Backoff(s, w.time(k)), false)
  }

  /** The loop from its k-th round, with the number of posts made. */
  function Rounds(enc: Encoding, w: World, s: SyncState, k: nat): (SyncState, nat)
    requires k <= MAX_POSTS
    decreases MAX_POSTS - k
  {
    if k == MAX_POSTS then (s, k)
    else if Pending(s.db, 100) == [] then (s.(attempts := 0, nextAt := 0), k)
    else
      var (t, more) := OnePost(enc, w, s, k);
      if more then Rounds(enc, w, t, k + 1) else (t, k + 1)
  }

  function SyncCall(enc: Encoding, w: World, s: SyncState, now: int): (SyncState, nat) {
    if s.disabled || now < s.nextAt then (s, 0) else Rounds(enc, w, s, 0)
  }

  // ---------------------------------------------------------------- the runtime object

  class BindingRuntime {
    var db: Db
    var syncMaxBytes: nat
    var syncAttempts: nat
    var nextSyncAt: int
    var syncDisabled: bool

    function State(): SyncState
      reads this
    {
      SyncState(db, syncMaxBytes, syncAttempts, nextSyncAt, syncDisabled)
    }

    constructor (db: Db)
      ensures State() == SyncState(db, START_BUDGET, 0, 0, false)
    {
      this.db := db;
      syncMaxBytes, syncAttempts, nextSyncAt, syncDisabled := START_BUDGET, 0, 0, false;
    }

    method BuildBatch(enc: Encoding, events: seq<Event>) returns (batch: seq<Event>)
      ensures batch == events[..FitFrom(enc, events, syncMaxBytes, 0)]
    {
      batch := [];
      var n := 0;
      while n < |events|
        invariant n <= |events| && batch == events[..n]
        invariant FitFrom(enc, events, syncMaxBytes, n) == FitFrom(enc, events, syncMaxBytes, 0)
      {
        var candidate := batch + [events[n]];
        assert candidate == events[..n + 1];
        if n > 0 && PayloadSize(enc, candidate) > syncMaxBytes {
          return;
        }
        batch := candidate;
        n := n + 1;
      }
    }

    method BackOff(now: int)
      modifies this`syncAttempts, this`nextSyncAt
      ensures State() == Backoff(old(State()), now)
    {
      syncAttempts := syncAttempts + 1;
      nextSyncAt := now + Min(300, Power2(if syncAttempts < 8 then syncAttempts else 8));
    }

    /** Post one batch and act on the answer; `more` is false when the loop must stop. */
    method PostBatch(enc: Encoding, w: World, k: nat, batch: seq<Event>) returns (more: bool)
      requires batch == NextBatch(enc, State())
      modifies this
      ensures (State(), more) == OnePost(enc, w, old(State()), k)
    {
      hide NextBatch, MarkSent, PayloadSize, Backoff;
      match w.answer(k, batch) {
        case Accepted(keys) =>
          if keys == [] {
            BackOff(w.time(k));
            return false;
          }
          db := MarkSent(db, keys);
          syncAttempts, nextSyncAt := 0, 0;
        case Unreachable =>
          BackOff(w.time(k));
          return false;
        case Refused(status) =>
          if status == 401 || status == 403 {
            syncDisabled := true;
            return false;
          }
          if status != 413 || |batch| <= 1 {
            BackOff(w.time(k));
            return false;
          }
          var half := PayloadSize(enc, batch) / 2;
          if syncMaxBytes / 2 < half {
            half := syncMaxBytes / 2;
          }
          syncMaxBytes := if half < FLOOR then FLOOR else half;
      }
      more := true;
    }

    method Sync(enc: Encoding, w: World, now: int) returns (posts: nat)
      modifies this
      ensures (State(), posts) == SyncCall(enc, w, old(State()), now)
    {
      hide OnePost, Pending, FitFrom;
      posts := 0;
      if syncDisabled || now < nextSyncAt {
        return;
      }
      ghost var start := State();
      while posts < MAX_POSTS
        invariant posts <= MAX_POSTS
        invariant Rounds(enc, w, State(), posts) == Rounds(enc, w, start, 0)
      {
        var events := Pending(db, 100);
        if events == [] {
          syncAttempts, nextSyncAt := 0, 0;
          return;
        }
        var batch := BuildBatch(enc, events);
        var more := PostBatch(enc, w, posts, batch);
        posts := posts + 1;
        if !more {
          return;
        }
      }
    }
  }

  // ---------------------------------------------------------------- the batch is the longest that fits

  lemma {:induction false} LargerCostsMore(enc: Encoding, events: seq<Event>, m: nat, n: nat)
    requires m <= n <= |events|
    ensures PayloadSize(enc, events[..m]) <= PayloadSize(enc, events[..n])
    decreases n
  {
    if m < n {
      LargerCostsMore(enc, events, m, n - 1);
      assert events[..n][..n - 1] == events[..n - 1];
    }
  }

  lemma {:induction false} FitStops(enc: Encoding, events: seq<Event>, budget: nat, n: nat)
    requires n <= |events| && (n > 1 ==> PayloadSize(enc, events[..n]) <= budget)
    ensures var m := FitFrom(enc, events, budget, n);
            (m > 1 ==> PayloadSize(enc, events[..m]) <= budget)
            && (events != [] ==> m > 0)
            && (m < |events| ==> PayloadSize(enc, events[..m + 1]) > budget)
    decreases |events| - n
  {
    if !(n == |events| || (n > 0 && PayloadSize(enc, events[..n + 1]) > budget)) {
      FitStops(enc, events, budget, n + 1);
    }
  }

  /** The batch is the longest non-empty prefix within the budget, or the first event alone. */
  lemma BatchIsLongestFit(enc: Encoding, s: SyncState, n: nat)
    requires n <= |Pending(s.db, 100)|
    ensures var events, batch := Pending(s.db, 100), NextBatch(enc, s);
            batch <= events && (events != [] ==> batch != [])
            && (|batch| > 1 ==> PayloadSize(enc, batch) <= s.budget)
            && (n > |batch| ==> PayloadSize(enc, events[..n]) > s.budget)
  {
    var events := Pending(s.db, 100);
    FitStops(enc, events, s.budget, 0);
    var m := FitFrom(enc, events, s.budget, 0);
    if n > m {
      LargerCostsMore(enc, events, m + 1, n);
    }
  }

  // ---------------------------------------------------------------- the byte budget

  /** The budget never grows and never leaves [64 KiB, what it was]. */
  lemma {:induction false} BudgetStays(enc: Encoding, w: World, s: SyncState, k: nat)
    requires k <= MAX_POSTS && s.budget >= FLOOR
    ensures FLOOR <= Rounds(enc, w, s, k).0.budget <= s.budget
    ensures k <= Rounds(enc, w, s, k).1 <= MAX_POSTS
    decreases MAX_POSTS - k
  {
    if k < MAX_POSTS && Pending(s.db, 100) != [] {
      var (t, more) := OnePost(enc, w, s, k);
      if more {
        BudgetStays(enc, w, t, k + 1);
      }
    }
  }

  function ShrunkBy(budget: nat, payloads: seq<nat>): nat
    decreases |payloads|
  {
    if payloads == [] then budget else ShrunkBy(Shrunk(budget, payloads[0]), payloads[1..])
  }

  /** The payload sizes that drew a shrinking 413 in the rounds from the k-th on. */
  function Oversized(enc: Encoding, w: World, s: SyncState, k: nat): (r: seq<nat>)
    requires k <= MAX_POSTS
    decreases MAX_POSTS - k
  {
    if k == MAX_POSTS || Pending(s.db, 100) == [] then []
    else
      var (t, more) := OnePost(enc, w, s, k);
      if !more then []
      else
        (if w.answer(k, NextBatch(enc, s)).Refused? then [PayloadSize(enc, NextBatch(enc, s))] else [])
        + Oversized(enc, w, t, k + 1)
  }

  lemma {:induction false} BudgetIsShrunk(enc: Encoding, w: World, s: SyncState, k: nat)
    requires k <= MAX_POSTS
    ensures Rounds(enc, w, s, k).0.budget == ShrunkBy(s.budget, Oversized(enc, w, s, k))
    decreases MAX_POSTS - k
  {
    hide NextBatch, PayloadSize, Shrunk, Pending, MarkSent;
    if k < MAX_POSTS && Pending(s.db, 100) != [] {
      var (t, more) := OnePost(enc, w, s, k);
      if more {
        BudgetIsShrunk(enc, w, t, k + 1);
        if w.answer(k, NextBatch(enc, s)).Refused? {
          var rest := Oversized(enc, w, t, k + 1);
          assert ([PayloadSize(enc, NextBatch(enc, s))] + rest)[1..] == rest;
        } else {
          assert [] + Oversized(enc, w, t, k + 1) == Oversized(enc, w, t, k + 1);
        }
      }
    }
  }

  lemma {:induction false} StaysAtFloor(payloads: seq<nat>)
    ensures ShrunkBy(FLOOR, payloads) == FLOOR
  {
    if payloads != [] {
      StaysAtFloor(payloads[1..]);
    }
  }

  /** Whatever was posted, four shrinking answers take any budget the runner can have to its floor. */
  lemma FourShrinks(enc: Encoding, w: World, s: SyncState)
    requires FLOOR <= s.budget <= START_BUDGET && |Oversized(enc, w, s, 0)| >= 4
    ensures Rounds(enc, w, s, 0).0.budget == FLOOR
  {
    BudgetIsShrunk(enc, w, s, 0);
    FourSteps(s.budget, Oversized(enc, w, s, 0));
  }

  lemma FourSteps(budget: nat, p: seq<nat>)
    requires FLOOR <= budget <= START_BUDGET && |p| >= 4
    ensures ShrunkBy(budget, p) == FLOOR
  {
    var a := Shrunk(budget, p[0]);
    var b := Shrunk(a, p[1]);
    var c := Shrunk(b, p[2]);
    assert a <= 460800;
    assert b <= 230400;
    assert c <= 115200;
    hide Shrunk;
    assert p[1..][0] == p[1] && p[1..][1..] == p[2..];
    assert p[2..][0] == p[2] && p[2..][1..] == p[3..];
    assert p[3..][0] == p[3] && p[3..][1..] == p[4..];
    assert ShrunkBy(budget, p) == ShrunkBy(a, p[1..]);
    assert ShrunkBy(a, p[1..]) == ShrunkBy(b, p[2..]);
    assert ShrunkBy(b, p[2..]) == ShrunkBy(c, p[3..]);
    Quarter(c, p[3]);
    StaysAtFloor(p[4..]);
  }

  lemma Quarter(budget: nat, payload: nat)
    requires budget <= 115200
    ensures Shrunk(budget, payload) == FLOOR
  {
  }

  // ---------------------------------------------------------------- the budget over many calls

  /** Shrinking answers that follow one another, whichever calls they belong to: the budget stays in its range, further
      answers never raise it, and four take it to its floor. */
  lemma {:induction false} BudgetOfShrinks(budget: nat, payloads: seq<nat>, more: seq<nat>)
    requires FLOOR <= budget <= START_BUDGET
    ensures FLOOR <= ShrunkBy(budget, payloads + more) <= ShrunkBy(budget, payloads) <= budget
    ensures |payloads| >= 4 ==> ShrunkBy(budget, payloads) == FLOOR
    decreases |payloads| + |more|
  {
    if |payloads| >= 4 {
      FourSteps(budget, payloads);
    }
    if payloads != [] {
      assert (payloads + more)[1..] == payloads[1..] + more;
      BudgetOfShrinks(Shrunk(budget, payloads[0]), payloads[1..], more);
    } else {
      assert payloads + more == more;
      if more != [] {
        BudgetOfShrinks(Shrunk(budget, more[0]), [], more[1..]);
        assert [] + more[1..] == more[1..];
      }
    }
  }

  /** Calls made one after another, each with its own network and start time. */
  function Calls(enc: Encoding, s: SyncState, calls: seq<(World, int)>): SyncState {
    if calls == [] then s
    else SyncCall(enc, calls[|calls| - 1].0, Calls(enc, s, calls[..|calls| - 1]), calls[|calls| - 1].1).0
  }

  /** The payload sizes that drew a shrinking 413 in any of the calls. */
  function AllOversized(enc: Encoding, s: SyncState, calls: seq<(World, int)>): seq<nat> {
    if calls == [] then []
    else
      var t := Calls(enc, s, calls[..|calls| - 1]);
      var (w, now) := calls[|calls| - 1];
      AllOversized(enc, s, calls[..|calls| - 1])
        + (if t.disabled || now < t.nextAt then [] else Oversized(enc, w, t, 0))
  }

  lemma {:induction false} ShrunkInTwo(budget: nat, a: seq<nat>, b: seq<nat>)
    ensures ShrunkBy(budget, a + b) == ShrunkBy(ShrunkBy(budget, a), b)
    decreases |a|
  {
    if a == [] {
      assert a + b == b;
    } else {
      assert (a + b)[1..] == a[1..] + b;
      ShrunkInTwo(Shrunk(budget, a[0]), a[1..], b);
    }
  }

  lemma {:induction false} CallsShrink(enc: Encoding, s: SyncState, calls: seq<(World, int)>)
    ensures Calls(enc, s, calls).budget == ShrunkBy(s.budget, AllOversized(enc, s, calls))
  {
    hide Rounds, Oversized, Shrunk;
    if calls != [] {
      var rest := calls[..|calls| - 1];
      CallsShrink(enc, s, rest);
      var t := Calls(enc, s, rest);
      var (w, now) := calls[|calls| - 1];
      if t.disabled || now < t.nextAt {
        assert AllOversized(enc, s, calls) == AllOversized(enc, s, rest);
      } else {
        BudgetIsShrunk(enc, w, t, 0);
        ShrunkInTwo(s.budget, AllOversized(enc, s, rest), Oversized(enc, w, t, 0));
      }
    }
  }

  /** Four shrinking answers in any number of calls made one after another take the budget to its floor, and it stays
      there. */
  lemma FourShrinksInCalls(enc: Encoding, s: SyncState, calls: seq<(World, int)>)
    requires FLOOR <= s.budget <= START_BUDGET
    ensures FLOOR <= Calls(enc, s, calls).budget <= s.budget
    ensures |AllOversized(enc, s, calls)| >= 4 ==> Calls(enc, s, calls).budget == FLOOR
  {
    var p := AllOversized(enc, s, calls);
    CallsShrink(enc, s, calls);
    BudgetOfShrinks(s.budget, p, []);
    assert p + [] == p;
  }

  // ---------------------------------------------------------------- the budget under overlapping calls

  /** The values the budget had.  The statement that shrinks it reads it and writes it; a thread that is interrupted
      between the two computes the new value from one that was the latest when it read. */
  predicate ShrinkHistory(h: seq<nat>, from: seq<nat>, payloads: seq<nat>) {
    |h| == |from| + 1 == |payloads| + 1 && h[0] == START_BUDGET
    && forall i :: 0 <= i < |from| ==> from[i] <= i && h[i + 1] == Shrunk(h[from[i]], payloads[i])
  }

  /** A shrinking answer writes more than c exactly when both halves are more. */
  lemma ShrunkAbove(budget: nat, payload: nat, c: nat)
    requires c >= FLOOR
    ensures Shrunk(budget, payload) > c <==> budget / 2 > c && payload / 2 > c
  {
  }

  lemma {:induction false} StaleReadsStayInRange(h: seq<nat>, from: seq<nat>, payloads: seq<nat>, i: nat)
    requires ShrinkHistory(h, from, payloads) && i < |h|
    ensures FLOOR <= h[i] <= START_BUDGET
    decreases i
  {
    if i > 0 {
      StaleReadsStayInRange(h, from, payloads, from[i - 1]);
    }
  }

  /** A write raises the budget if and only if half the value it read and half the payload exceed the latest value; so
      a write that read the latest value never does. */
  lemma RaisesExactly(h: seq<nat>, from: seq<nat>, payloads: seq<nat>, i: nat)
    requires ShrinkHistory(h, from, payloads) && i < |from|
    ensures h[i + 1] > h[i] <==> h[from[i]] / 2 > h[i] && payloads[i] / 2 > h[i]
    ensures from[i] == i ==> h[i + 1] <= h[i]
  {
    StaleReadsStayInRange(h, from, payloads, i);
    ShrunkAbove(h[from[i]], payloads[i], h[i]);
  }

  /** Before the payload is known: a value read cannot raise the budget, whatever is posted, if and only if its half is
      no more than the latest value. */
  lemma CannotRaiseExactly(read: nat, latest: nat)
    requires latest >= FLOOR
    ensures (forall payload: nat :: Shrunk(read, payload) <= latest) <==> read / 2 <= latest
  {
    forall payload: nat ensures Shrunk(read, payload) > latest <==> read / 2 > latest && payload / 2 > latest {
      ShrunkAbove(read, payload, latest);
    }
    assert Shrunk(read, read) > latest <==> read / 2 > latest;
  }

  /** It takes a thread that stops inside the statement while another call makes two posts. */
  lemma StaleReadRaises()
    ensures ShrinkHistory([START_BUDGET, 460800, 230400, 460800], [0, 1, 0], [START_BUDGET, 460800, START_BUDGET])
  {
    var h, from, payloads := [START_BUDGET, 460800, 230400, 460800], [0, 1, 0], [START_BUDGET, 460800, START_BUDGET];
    forall i | 0 <= i < |from| ensures from[i] <= i && h[i + 1] == Shrunk(h[from[i]], payloads[i]) {
      assert i == 0 || i == 1 || i == 2;
    }
  }

  /** The payloads along the reads that led to the i-th value. */
  function ReadChain(from: seq<nat>, payloads: seq<nat>, i: nat): seq<nat>
    requires i <= |from| == |payloads| && forall j :: 0 <= j < |from| ==> from[j] <= j
    decreases i
  {
    if i == 0 then [] else ReadChain(from, payloads, from[i - 1]) + [payloads[i - 1]]
  }

  /** Only the answers along the reads count: each value is what they make of the first, and four of them on one chain
      make it the floor. */
  lemma {:induction false} ChainDecides(h: seq<nat>, from: seq<nat>, payloads: seq<nat>, i: nat)
    requires ShrinkHistory(h, from, payloads) && i < |h|
    ensures h[i] == ShrunkBy(START_BUDGET, ReadChain(from, payloads, i))
    ensures |ReadChain(from, payloads, i)| >= 4 ==> h[i] == FLOOR
    decreases i
  {
    hide Shrunk;
    if i > 0 {
      ChainDecides(h, from, payloads, from[i - 1]);
      ShrunkInTwo(START_BUDGET, ReadChain(from, payloads, from[i - 1]), [payloads[i - 1]]);
      assert [payloads[i - 1]][1..] == [];
    }
    if |ReadChain(from, payloads, i)| >= 4 {
      FourSteps(START_BUDGET, ReadChain(from, payloads, i));
    }
  }

  /** Four answers of overlapping calls that all read the same value shrink it only once. */
  lemma OverlapShrinksOnce()
    ensures ShrinkHistory([START_BUDGET, 460800, 460800, 460800, 460800], [0, 0, 0, 0],
                          [START_BUDGET, START_BUDGET, START_BUDGET, START_BUDGET])
  {
    var h, from := [START_BUDGET, 460800, 460800, 460800, 460800], [0, 0, 0, 0];
    var payloads := [START_BUDGET, START_BUDGET, START_BUDGET, START_BUDGET];
    forall i | 0 <= i < |from| ensures from[i] <= i && h[i + 1] == Shrunk(h[from[i]], payloads[i]) {
      assert i == 0 || i == 1 || i == 2 || i == 3;
    }
  }

  // ---------------------------------------------------------------- progress

  lemma {:induction false} FewerUnsent(events: seq<Event>, sent: set<(RunId, nat)>, more: set<(RunId, nat)>)
    requires sent <= more
    ensures |Unsent(events, more)| <= |Unsent(events, sent)|
    ensures (exists e :: e in events && !IsSent(sent, e) && IsSent(more, e))
            ==> |Unsent(events, more)| < |Unsent(events, sent)|
  {
    if events != [] {
      FewerUnsent(events[1..], sent, more);
      if e :| e in events && !IsSent(sent, e) && IsSent(more, e) {
        assert e == events[0] || e in events[1..];
      }
    }
  }

  /** The server's promise: it accepts at least one event of every batch. */
  ghost predicate AcceptsSome(w: World) {
    forall k: nat, batch: seq<Event> :: batch != [] ==> Helps(w.answer(k, batch), batch)
  }

  predicate Helps(a: Answer, batch: seq<Event>) {
    a.Accepted? && exists e :: e in batch && (e.runId, e.sequence) in a.keys
  }

  lemma PostLowers(enc: Encoding, w: World, s: SyncState, k: nat)
    requires AcceptsSome(w) && Pending(s.db, 100) != []
    ensures OnePost(enc, w, s, k).1
    ensures PendingCount(OnePost(enc, w, s, k).0.db) < PendingCount(s.db)
  {
    var batch := NextBatch(enc, s);
    BatchIsLongestFit(enc, s, 0);
    assert Helps(w.answer(k, batch), batch);
    var keys := w.answer(k, batch).keys;
    var e :| e in batch && (e.runId, e.sequence) in keys;
    assert e in Unsent(s.db.events, s.db.sent);
    UnsentAre(s.db.events, s.db.sent, e);
    assert HasKey(s.db.events, e.runId, e.sequence);
    FewerUnsent(s.db.events, s.db.sent, MarkSent(s.db, keys).sent);
  }

  /** With such a server every post lowers the number of pending events, and a call makes at most 100 posts: it ends
      with nothing pending unless it used them all. */
  lemma {:induction false} SyncDrains(enc: Encoding, w: World, s: SyncState, k: nat)
    requires k <= MAX_POSTS && AcceptsSome(w)
    ensures var (t, posts) := Rounds(enc, w, s, k);
            PendingCount(t.db) + (posts - k) <= PendingCount(s.db) && k <= posts <= MAX_POSTS
            && (PendingCount(t.db) == 0 || posts == MAX_POSTS)
    decreases MAX_POSTS - k
  {
    if k < MAX_POSTS && Pending(s.db, 100) != [] {
      PostLowers(enc, w, s, k);
      SyncDrains(enc, w, OnePost(enc, w, s, k).0, k + 1);
    }
  }

  lemma {:induction false} HelpedRounds(enc: Encoding, w: World, s: SyncState, k: nat)
    requires k <= MAX_POSTS && AcceptsSome(w) && !s.disabled
    ensures var t := Rounds(enc, w, s, k).0; !t.disabled && (k < MAX_POSTS || s.nextAt == 0 ==> t.nextAt == 0)
    decreases MAX_POSTS - k
  {
    if k < MAX_POSTS && Pending(s.db, 100) != [] {
      PostLowers(enc, w, s, k);
      var batch := NextBatch(enc, s);
      BatchIsLongestFit(enc, s, 0);
      assert Helps(w.answer(k, batch), batch);
      HelpedRounds(enc, w, OnePost(enc, w, s, k).0, k + 1);
    }
  }

  /** The calls are made when no backoff is pending, to a server that accepts some of every batch. */
  ghost predicate Helpful(s: SyncState, calls: seq<(World, int)>) {
    !s.disabled && forall i :: 0 <= i < |calls| ==> AcceptsSome(calls[i].0) && calls[i].1 >= 0 && calls[i].1 >= s.nextAt
  }

  /** Such calls, made one after another, take at least a hundred events each off the pending list until it is empty. */
  lemma {:induction false} CallsDrain(enc: Encoding, s: SyncState, calls: seq<(World, int)>)
    requires Helpful(s, calls)
    ensures var t := Calls(enc, s, calls);
            !t.disabled && (t.nextAt == 0 || t.nextAt == s.nextAt)
            && (PendingCount(t.db) == 0 || PendingCount(t.db) + MAX_POSTS * |calls| <= PendingCount(s.db))
  {
    hide AcceptsSome, Rounds, PendingCount;
    if calls != [] {
      var n := |calls| - 1;
      CallsDrain(enc, s, calls[..n]);
      var t := Calls(enc, s, calls[..n]);
      SyncDrains(enc, calls[n].0, t, 0);
      HelpedRounds(enc, calls[n].0, t, 0);
    }
  }

  // ---------------------------------------------------------------- backing off and disabling

  lemma {:induction false} Power2Grows(m: nat, n: nat)
    requires m <= n
    ensures 1 <= Power2(m) <= Power2(n)
    decreases n
  {
    if m < n {
      Power2Grows(m, n - 1);
    } else if n > 0 {
      Power2Grows(n - 1, n - 1);
    }
  }

  /** The delay doubles from 2 to 256 seconds and stays there: the limit of 300 is never reached. */
  lemma BackoffDoubles(s: SyncState, now: int)
    ensures var delay := Backoff(s, now).nextAt - now;
            2 <= delay <= 256 && (s.attempts >= 7 ==> delay == 256)
            && (s.attempts < 7 ==> Backoff(Backoff(s, now), now).nextAt - now == 2 * delay)
  {
    var n := if s.attempts + 1 < 8 then s.attempts + 1 else 8;
    assert Power2(8) == 256;
    Power2Grows(1, n);
    Power2Grows(n, 8);
  }

  predicate Revokes(a: Answer) { a.Refused? && (a.status == 401 || a.status == 403) }

  /** A call never drops an event or a flag, and it disables syncing only when the server revoked the device. */
  lemma {:induction false} CallKeepsHistory(enc: Encoding, w: World, s: SyncState, k: nat)
    requires k <= MAX_POSTS
    ensures var t := Rounds(enc, w, s, k).0;
            t.db == s.db.(sent := t.db.sent) && s.db.sent <= t.db.sent
            && (t.disabled && !s.disabled ==> exists j, batch :: Revokes(w.answer(j, batch)))
    decreases MAX_POSTS - k
  {
    hide NextBatch, PayloadSize, Shrunk, Pending, Power2;
    if k < MAX_POSTS && Pending(s.db, 100) != [] {
      var batch := NextBatch(enc, s);
      assert OnePost(enc, w, s, k).0.disabled && !s.disabled ==> Revokes(w.answer(k, batch));
      var (t, more) := OnePost(enc, w, s, k);
      if more {
        CallKeepsHistory(enc, w, t, k + 1);
      }
    }
  }
}
