/** Giving the rows of an old local database their batch-attempt identity, or refusing to guess. */
module BatchIdentity {

  datatype Option<+T> = None | Some(value: T)

  datatype Status = Preflight | Queued | Running | Succeeded | Failed | Cancelled | Rejected

  datatype Attempt = Attempt(workItem: string, run: Option<string>, profile: string, status: Status,
                             createdBy: string, completed: bool)

  /** What the first node of a run definition says; a missing entry is NULL. */
  datatype Node = Node(key: Option<string>, taskType: Option<string>, version: Option<int>, dependsOn: Option<nat>)

  datatype Run = Run(request: Option<string>, attempt: Option<string>, createdBy: string, mode: string,
                     status: string, nodes: seq<Node>)

  datatype Item = Item(request: string, nodeKey: string, taskType: string, version: int)

  datatype Dispatch = Dispatch(workItem: string, run: string, profile: string, attempt: Option<string>)

  /** Tables by primary key. */
  datatype Store = Store(attempts: map<string, Attempt>, runs: map<string, Run>, items: map<string, Item>,
                         dispatches: map<string, Dispatch>)

  /** The UNIQUE constraint of batch_dispatches.workflow_run_id. */
  predicate DispatchRunsUnique(s: Store) {
    forall d, e :: d in s.dispatches && e in s.dispatches && s.dispatches[d].run == s.dispatches[e].run ==> d == e
  }

  // ---------------------------------------------------------------- the checks

  predicate Dispatched(s: Store, run: Option<string>) {
    run.Some? && exists d :: d in s.dispatches && s.dispatches[d].run == run.value
  }

  predicate LinksAllowed(s: Store) {
    forall a :: a in s.attempts && s.attempts[a].run.Some? ==> s.attempts[a].status in {Queued, Succeeded}
  }

  predicate LinksUnambiguous(s: Store) {
    forall a, b :: (a in s.attempts && b in s.attempts && s.attempts[a].run.Some?
                    && s.attempts[a].run == s.attempts[b].run
                    && s.attempts[a].status == Succeeded && s.attempts[b].status == Succeeded) ==> a == b
  }

  /** A run that names an attempt: the attempt names the run, and its work item has the same request. */
  predicate RunIdentityOk(s: Store, r: string)
    requires r in s.runs && s.runs[r].attempt.Some?
  {
    var a := s.runs[r].attempt.value;
    a in s.attempts && s.attempts[a].run == Some(r) && s.attempts[a].workItem in s.items
    && s.runs[r].request == Some(s.items[s.attempts[a].workItem].request)
  }

  predicate RunIdentitiesOk(s: Store) { forall r :: r in s.runs && s.runs[r].attempt.Some? ==> RunIdentityOk(s, r) }

  predicate DispatchIdentityOk(s: Store, d: string)
    requires d in s.dispatches && s.dispatches[d].attempt.Some?
  {
    var x := s.dispatches[d];
    var a := x.attempt.value;
    a in s.attempts && s.attempts[a].run == Some(x.run) && s.attempts[a].workItem == x.workItem
      && s.attempts[a].profile == x.profile
  }

  predicate DispatchIdentitiesOk(s: Store) {
    forall d :: d in s.dispatches && s.dispatches[d].attempt.Some? ==> DispatchIdentityOk(s, d)
  }

  function RequestOf(s: Store, item: string): Option<string> {
    if item in s.items then Some(s.items[item].request) else None
  }
  function KeyOf(s: Store, item: string): Option<string> {
    if item in s.items then Some(s.items[item].nodeKey) else None
  }
  function TypeOf(s: Store, item: string): Option<string> {
    if item in s.items then Some(s.items[item].taskType) else None
  }
  function VersionOf(s: Store, item: string): Option<int> {
    if item in s.items then Some(s.items[item].version) else None
  }

  /** The linked run names the attempt back and is the finished single-node demo run of its work item; NULL equals NULL,
      so a missing work item is compared as NULL. */
  predicate RunFits(s: Store, a: string)
    requires a in s.attempts
  {
    var x := s.attempts[a];
    x.run.Some? && x.run.value in s.runs &&
    var run := s.runs[x.run.value];
    run.attempt == Some(a) && run.request == RequestOf(s, x.workItem) && run.mode == "DEMO_ONLY"
      && run.status == "SUCCEEDED"
    && run.createdBy == x.createdBy && |run.nodes| == 1 && run.nodes[0].key == KeyOf(s, x.workItem)
    && run.nodes[0].taskType == TypeOf(s, x.workItem) && run.nodes[0].version == VersionOf(s, x.workItem)
    && run.nodes[0].dependsOn == Some(0)
  }

  predicate QueuedLinksOk(s: Store) {
    forall a :: a in s.attempts && s.attempts[a].status == Queued && s.attempts[a].run.Some? ==>
      RunFits(s, a) && !s.attempts[a].completed && !Dispatched(s, s.attempts[a].run)
  }

  predicate SucceededDispatched(s: Store) {
    forall a :: a in s.attempts && s.attempts[a].status == Succeeded ==> Dispatched(s, s.attempts[a].run)
  }

  predicate ProvenanceOk(s: Store) {
    forall a, d :: a in s.attempts && d in s.dispatches && s.attempts[a].run == Some(s.dispatches[d].run)
                   && s.attempts[a].status == Succeeded ==>
      s.dispatches[d].workItem == s.attempts[a].workItem && s.dispatches[d].profile == s.attempts[a].profile
  }

  predicate ChecksPass(s: Store) {
    LinksAllowed(s) && LinksUnambiguous(s) && RunIdentitiesOk(s) && DispatchIdentitiesOk(s) && QueuedLinksOk(s)
    && SucceededDispatched(s) && ProvenanceOk(s)
  }

  /** The check after the backfill. */
  predicate SucceededLinksOk(s: Store) {
    forall a :: a in s.attempts && s.attempts[a].status == Succeeded ==> RunFits(s, a)
  }

  // ---------------------------------------------------------------- the backfill

  predicate Feeds(s: Store, a: string, run: string) {
    a in s.attempts && s.attempts[a].status == Succeeded && s.attempts[a].run == Some(run)
  }

  /** The old value, or the succeeded attempt linked to the run; with several it would be any of them. */
  ghost function Named(s: Store, was: Option<string>, run: string): Option<string> {
    if was.None? && exists a :: Feeds(s, a, run) then
      var a :| Feeds(s, a, run);
      Some(a)
    else was
  }

  ghost function BackfillRuns(s: Store): Store {
    s.(runs := map r | r in s.runs :: s.runs[r].(attempt := Named(s, s.runs[r].attempt, r)))
  }

  ghost function BackfillDispatches(s: Store): Store {
    s.(dispatches := map d | d in s.dispatches ::
      s.dispatches[d].(attempt := Named(s, s.dispatches[d].attempt, s.dispatches[d].run)))
  }

  ghost function Backfill(s: Store): Store { BackfillDispatches(BackfillRuns(s)) }

  datatype Outcome = Refused | RefusedAfterBackfill | Initialized

  ghost function Initialize(s: Store): (Store, Outcome) {
    if !ChecksPass(s) then (s, Refused)
    else if !SucceededLinksOk(Backfill(s)) then (Backfill(s), RefusedAfterBackfill)
    else (Backfill(s), Initialized)
  }

  class LegacyDatabase {
    var attempts: map<string, Attempt>
    var runs: map<string, Run>
    var items: map<string, Item>
    var dispatches: map<string, Dispatch>

    function Rows(): Store
      reads this
    {
      Store(attempts, runs, items, dispatches)
    }

    /** UPDATE workflow_runs FROM batch_execution_attempts: joined rows in any order. */
    method UpdateRuns()
      requires LinksUnambiguous(Rows())
      modifies this`runs
      ensures Rows() == BackfillRuns(old(Rows()))
    {
      ghost var start := Rows();
      ghost var full := BackfillRuns(start);
      var left := attempts.Keys;
      while left != {}
        invariant left <= attempts.Keys && runs.Keys == start.runs.Keys
        invariant forall r :: r in runs ==> runs[r] == start.runs[r] || runs[r] == full.runs[r]
        invariant forall a, r :: a in attempts.Keys - left && r in runs && Feeds(start, a, r) ==>
                    runs[r] == full.runs[r]
        decreases left
      {
        var a :| a in left;
        left := left - {a};
        var x := attempts[a];
        if x.status == Succeeded && x.run.Some? && x.run.value in runs {
          var r := x.run.value;
          OnlyFeeder(start, a, r);
          if runs[r].attempt.None? {
            runs := runs[r := runs[r].(attempt := Some(a))];
          }
        }
      }
      assert runs == full.runs;
    }

    method UpdateDispatches()
      requires LinksUnambiguous(Rows())
      modifies this`dispatches
      ensures Rows() == BackfillDispatches(old(Rows()))
    {
      ghost var start := Rows();
      ghost var full := BackfillDispatches(start);
      var left := dispatches.Keys;
      while left != {}
        invariant left <= dispatches.Keys && dispatches.Keys == start.dispatches.Keys
        invariant forall d :: d in left ==> dispatches[d] == start.dispatches[d]
        invariant forall d :: d in dispatches.Keys - left ==> dispatches[d] == full.dispatches[d]
        decreases left
      {
        var d :| d in left;
        left := left - {d};
        var run := dispatches[d].run;
        if dispatches[d].attempt.None? && exists a :: a in attempts && Feeds(Rows(), a, run) {
          var a :| a in attempts && Feeds(Rows(), a, run);
          OnlyFeeder(start, a, run);
          dispatches := dispatches[d := dispatches[d].(attempt := Some(a))];
        }
      }
      assert dispatches == full.dispatches;
    }

    /** Refuses before touching anything, or backfills; a refusal after the backfill leaves the backfilled rows. */
    method InitializeIdentity() returns (outcome: Outcome)
      modifies this
      ensures (Rows(), outcome) == Initialize(old(Rows()))
      ensures outcome == Initialized && DispatchRunsUnique(old(Rows())) ==> OneToOne(Rows())
    {
      hide *;
      ghost var start := Rows();
      InitializeIs(start);
      if Initialize(start).1 == Initialized && DispatchRunsUnique(start) {
        IdentityIsOneToOne(start);
      }
      if !ChecksPass(Rows()) {
        return Refused;
      }
      UnambiguousStays(start);
      UpdateRuns();
      UpdateDispatches();
      outcome := if SucceededLinksOk(Rows()) then Initialized else RefusedAfterBackfill;
    }
  }

  lemma InitializeIs(s: Store)
    ensures !ChecksPass(s) ==> Initialize(s) == (s, Refused)
    ensures ChecksPass(s) ==>
              var b := BackfillDispatches(BackfillRuns(s));
              Initialize(s) == (b, if SucceededLinksOk(b) then Initialized else RefusedAfterBackfill)
  {
  }

  lemma UnambiguousStays(s: Store)
    requires ChecksPass(s)
    ensures LinksUnambiguous(s) && LinksUnambiguous(BackfillRuns(s))
  {
  }

  lemma OnlyFeeder(s: Store, a: string, run: string)
    requires LinksUnambiguous(s) && Feeds(s, a, run)
    ensures Named(s, None, run) == Some(a)
    ensures forall b :: Feeds(s, b, run) ==> b == a
  {
  }

  // ---------------------------------------------------------------- what a passing bootstrap guarantees

  /** Attempts and runs name each other one to one, and so do succeeded attempts and dispatches. */
  predicate OneToOne(s: Store) {
    && (forall a, b ::
          a in s.attempts && b in s.attempts && s.attempts[a].run.Some? && s.attempts[a].run == s.attempts[b].run
          ==> a == b)
    && (forall a :: a in s.attempts && s.attempts[a].run.Some? ==>
          s.attempts[a].run.value in s.runs && s.runs[s.attempts[a].run.value].attempt == Some(a))
    && (forall r :: r in s.runs && s.runs[r].attempt.Some? ==>
          s.runs[r].attempt.value in s.attempts && s.attempts[s.runs[r].attempt.value].run == Some(r))
    && (forall a :: a in s.attempts && s.attempts[a].status == Succeeded ==>
          exists d :: d in s.dispatches && s.dispatches[d].attempt == Some(a))
    && (forall d :: d in s.dispatches && s.dispatches[d].attempt.Some? ==>
          s.dispatches[d].attempt.value in s.attempts && s.attempts[s.dispatches[d].attempt.value].status == Succeeded)
    && UniqueIndexes(s)
  }

  /** No non-NULL value occurs twice in either indexed column. */
  predicate UniqueIndexes(s: Store) {
    && (forall r, q ::
          r in s.runs && q in s.runs && s.runs[r].attempt.Some? && s.runs[r].attempt == s.runs[q].attempt
          ==> r == q)
    && (forall d, e :: (d in s.dispatches && e in s.dispatches && s.dispatches[d].attempt.Some?
                        && s.dispatches[d].attempt == s.dispatches[e].attempt) ==> d == e)
  }

  lemma NamedIs(s: Store, was: Option<string>, run: string)
    requires LinksUnambiguous(s)
    ensures was.Some? ==> Named(s, was, run) == was
    ensures was.None? && Named(s, was, run).Some? ==> Feeds(s, Named(s, was, run).value, run)
    ensures forall a :: was.None? && Feeds(s, a, run) ==> Named(s, was, run) == Some(a)
  {
    if a :| Feeds(s, a, run) {
      OnlyFeeder(s, a, run);
    }
  }

  /** What the backfilled tables are, row by row. */
  lemma BackfillIs(s: Store)
    requires ChecksPass(s)
    ensures Backfill(s).attempts == s.attempts && Backfill(s).items == s.items
    ensures Backfill(s).runs == map r | r in s.runs :: s.runs[r].(attempt := Named(s, s.runs[r].attempt, r))
    ensures Backfill(s).dispatches
         == map d | d in s.dispatches ::
              s.dispatches[d].(attempt := Named(s, s.dispatches[d].attempt, s.dispatches[d].run))
  {
    var m := BackfillRuns(s);
    forall d | d in s.dispatches
      ensures Named(m, s.dispatches[d].attempt, s.dispatches[d].run)
              == Named(s, s.dispatches[d].attempt, s.dispatches[d].run)
    {
      NamedIs(s, s.dispatches[d].attempt, s.dispatches[d].run);
      NamedIs(m, s.dispatches[d].attempt, s.dispatches[d].run);
      assert forall a :: Feeds(m, a, s.dispatches[d].run) <==> Feeds(s, a, s.dispatches[d].run);
    }
  }

  /** Two attempts never share a run: queued ones are named back by it, and a queued one has no dispatch to share. */
  lemma LinksDistinct(s: Store, a: string, b: string)
    requires ChecksPass(s) && a in s.attempts && b in s.attempts
    requires s.attempts[a].run.Some? && s.attempts[a].run == s.attempts[b].run
    ensures a == b
  {
  }

  /** After the backfill the run of every linked attempt names it. */
  lemma RunsNameBack(s: Store)
    requires ChecksPass(s) && SucceededLinksOk(Backfill(s))
    ensures var t := Backfill(s);
            (forall a :: a in t.attempts && t.attempts[a].run.Some? ==>
               t.attempts[a].run.value in t.runs && t.runs[t.attempts[a].run.value].attempt == Some(a))
            && (forall r :: r in t.runs && t.runs[r].attempt.Some? ==>
                  t.runs[r].attempt.value in t.attempts && t.attempts[t.runs[r].attempt.value].run == Some(r))
  {
    BackfillIs(s);
    hide Backfill, Named;
    var t := Backfill(s);
    forall a | a in t.attempts && t.attempts[a].run.Some?
      ensures t.attempts[a].run.value in t.runs && t.runs[t.attempts[a].run.value].attempt == Some(a)
    {
      if t.attempts[a].status == Succeeded {
        assert RunFits(t, a);
      } else {
        assert RunFits(s, a);
        NamedIs(s, s.runs[s.attempts[a].run.value].attempt, s.attempts[a].run.value);
      }
    }
    forall r | r in t.runs && t.runs[r].attempt.Some?
      ensures t.runs[r].attempt.value in t.attempts && t.attempts[t.runs[r].attempt.value].run == Some(r)
    {
      NamedIs(s, s.runs[r].attempt, r);
      if s.runs[r].attempt.Some? {
        assert RunIdentityOk(s, r);
      }
    }
  }

  /** A dispatch names an attempt exactly when that attempt succeeded and is linked to the run of the dispatch. */
  lemma DispatchNames(s: Store, d: string, a: string)
    requires ChecksPass(s) && d in s.dispatches
    ensures d in Backfill(s).dispatches
    ensures Backfill(s).dispatches[d].attempt == Some(a) <==> Feeds(s, a, s.dispatches[d].run)
  {
    BackfillIs(s);
    hide Backfill, Named;
    var x := s.dispatches[d];
    NamedIs(s, x.attempt, x.run);
    if x.attempt.Some? {
      var b := x.attempt.value;
      assert DispatchIdentityOk(s, d);
      assert Dispatched(s, s.attempts[b].run);
      assert s.attempts[b].status == Succeeded;
      if Feeds(s, a, x.run) {
        LinksDistinct(s, a, b);
      }
    }
  }

  lemma IdentityIsOneToOne(s: Store)
    requires Initialize(s).1 == Initialized && DispatchRunsUnique(s)
    ensures OneToOne(Initialize(s).0)
  {
    BackfillIs(s);
    RunsNameBack(s);
    hide Backfill, Named, SucceededLinksOk, RunFits, QueuedLinksOk;
    var t := Backfill(s);
    forall d, a: string | d in s.dispatches
      ensures t.dispatches[d].attempt == Some(a) <==> Feeds(s, a, s.dispatches[d].run)
    {
      DispatchNames(s, d, a);
    }
    forall a | a in t.attempts && t.attempts[a].status == Succeeded
      ensures exists d :: d in t.dispatches && t.dispatches[d].attempt == Some(a)
    {
      assert Dispatched(s, s.attempts[a].run);
      var d :| d in s.dispatches && s.dispatches[d].run == s.attempts[a].run.value;
      assert Feeds(s, a, s.dispatches[d].run);
      assert t.dispatches[d].attempt == Some(a);
    }
    forall d | d in t.dispatches && t.dispatches[d].attempt.Some?
      ensures t.dispatches[d].attempt.value in t.attempts
              && t.attempts[t.dispatches[d].attempt.value].status == Succeeded
    {
      assert Feeds(s, t.dispatches[d].attempt.value, s.dispatches[d].run);
    }
    forall d, e | d in t.dispatches && e in t.dispatches && t.dispatches[d].attempt.Some?
                  && t.dispatches[d].attempt == t.dispatches[e].attempt
      ensures d == e
    {
      assert Feeds(s, t.dispatches[d].attempt.value, s.dispatches[d].run);
      assert Feeds(s, t.dispatches[d].attempt.value, s.dispatches[e].run);
    }
  }

  // ---------------------------------------------------------------- starting again

  /** The next start accepts the tables this one left, and changes nothing, if and only if the work item of every
      succeeded attempt exists: a missing one slips through the NULL comparisons once, but not twice. */
  lemma SecondStart(s: Store)
    requires Initialize(s).1 == Initialized
    ensures var t := Initialize(s).0;
            Initialize(t) == (t, Initialized)
            <==> forall a :: a in t.attempts && t.attempts[a].status == Succeeded ==> t.attempts[a].workItem in t.items
  {
    var t := Initialize(s).0;
    BackfillIs(s);
    RunsNameBack(s);
    SecondChecks(s);
    if ChecksPass(t) {
      SecondBackfill(s);
    }
    hide Backfill, Named;
    if Initialize(t).1 == Initialized {
      forall a | a in t.attempts && t.attempts[a].status == Succeeded ensures t.attempts[a].workItem in t.items {
        assert RunFits(t, a);
        assert RunIdentityOk(t, t.attempts[a].run.value);
      }
    }
  }

  lemma SecondBackfill(s: Store)
    requires ChecksPass(s) && SucceededLinksOk(Backfill(s)) && ChecksPass(Backfill(s))
    ensures Backfill(Backfill(s)) == Backfill(s)
  {
    var t := Backfill(s);
    BackfillIs(s);
    BackfillIs(t);
    RunsNameBack(s);
    hide Backfill, Named, ChecksPass;
    forall r | r in t.runs ensures Named(t, t.runs[r].attempt, r) == t.runs[r].attempt {
      UnambiguousStays(t);
      NamedIs(t, t.runs[r].attempt, r);
    }
    forall d | d in t.dispatches
      ensures Named(t, t.dispatches[d].attempt, t.dispatches[d].run) == t.dispatches[d].attempt
    {
      UnambiguousStays(t);
      NamedIs(t, t.dispatches[d].attempt, t.dispatches[d].run);
      if t.dispatches[d].attempt.None? && Named(t, None, t.dispatches[d].run).Some? {
        DispatchNames(s, d, Named(t, None, t.dispatches[d].run).value);
      }
    }
  }

  lemma SecondChecks(s: Store)
    requires ChecksPass(s) && SucceededLinksOk(Backfill(s))
    ensures var t := Backfill(s);
            ChecksPass(t)
            <==> forall a :: a in t.attempts && t.attempts[a].status == Succeeded ==> t.attempts[a].workItem in t.items
  {
    var t := Backfill(s);
    BackfillIs(s);
    RunsNameBack(s);
    hide Backfill, Named;
    assert LinksAllowed(t) && LinksUnambiguous(t);
    assert SucceededDispatched(t) by {
      forall a | a in t.attempts && t.attempts[a].status == Succeeded ensures Dispatched(t, t.attempts[a].run) {
        assert Dispatched(s, s.attempts[a].run);
        var d :| d in s.dispatches && s.dispatches[d].run == s.attempts[a].run.value;
        assert d in t.dispatches && t.dispatches[d].run == s.dispatches[d].run;
      }
    }
    assert ProvenanceOk(t);
    assert DispatchIdentitiesOk(t) by {
      forall d | d in t.dispatches && t.dispatches[d].attempt.Some? ensures DispatchIdentityOk(t, d) {
        DispatchNames(s, d, t.dispatches[d].attempt.value);
      }
    }
    SecondQueued(s);
    SecondRuns(s);
  }

  lemma SecondQueued(s: Store)
    requires ChecksPass(s) && SucceededLinksOk(Backfill(s))
    ensures QueuedLinksOk(Backfill(s))
  {
    var t := Backfill(s);
    BackfillIs(s);
    RunsNameBack(s);
    hide Backfill, Named;
    forall a | a in t.attempts && t.attempts[a].status == Queued && t.attempts[a].run.Some?
      ensures RunFits(t, a) && !t.attempts[a].completed && !Dispatched(t, t.attempts[a].run)
    {
      assert RunFits(s, a) && !Dispatched(s, s.attempts[a].run);
    }
  }

  lemma SecondRuns(s: Store)
    requires ChecksPass(s) && SucceededLinksOk(Backfill(s))
    ensures var t := Backfill(s);
            RunIdentitiesOk(t)
            <==> forall a :: a in t.attempts && t.attempts[a].status == Succeeded ==> t.attempts[a].workItem in t.items
  {
    var t := Backfill(s);
    BackfillIs(s);
    RunsNameBack(s);
    hide Backfill, Named;
    if RunIdentitiesOk(t) {
      forall a | a in t.attempts && t.attempts[a].status == Succeeded ensures t.attempts[a].workItem in t.items {
        assert RunFits(t, a);
        assert RunIdentityOk(t, t.attempts[a].run.value);
      }
    } else {
      var r :| r in t.runs && t.runs[r].attempt.Some? && !RunIdentityOk(t, r);
      var a := t.runs[r].attempt.value;
      if t.attempts[a].status == Succeeded {
        assert RunFits(t, a);
      } else {
        assert RunFits(s, a);
        assert RunIdentityOk(s, r);
      }
    }
  }

  /** A run without request whose node says nothing, and a work item that is gone. */
  function Orphaned(): Store {
    Store(map["a" := Attempt("w", Some("r"), "p", Succeeded, "u", true)],
          map["r" := Run(None, None, "u", "DEMO_ONLY", "SUCCEEDED", [Node(None, None, None, Some(0))])],
          map[], map["d" := Dispatch("w", "r", "p", None)])
  }

  lemma OrphanedPasses()
    ensures ChecksPass(Orphaned()) && DispatchRunsUnique(Orphaned())
  {
    assert Orphaned().dispatches["d"].run == "r" && Dispatched(Orphaned(), Some("r"));
  }

  lemma OrphanedFits()
    requires ChecksPass(Orphaned())
    ensures SucceededLinksOk(Backfill(Orphaned()))
  {
    var s := Orphaned();
    BackfillIs(s);
    NamedIs(s, None, "r");
    assert Feeds(s, "a", "r");
    hide Backfill, Named, ChecksPass;
  }

  /** It passes the first start and is refused by the second. */
  lemma MissingItemSlipsThrough()
    ensures Initialize(Orphaned()).1 == Initialized && Initialize(Initialize(Orphaned()).0).1 == Refused
  {
    hide ChecksPass, Backfill, SucceededLinksOk;
    OrphanedPasses();
    OrphanedFits();
    SecondChecks(Orphaned());
    BackfillIs(Orphaned());
    assert Backfill(Orphaned()).attempts["a"].workItem !in Backfill(Orphaned()).items;
  }
}
