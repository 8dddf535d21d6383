/** The cutover never leaves a mixed installation unmarked, except after one double fault, which is named exactly. */
module CutoverProofs {
  import opened Cutover

  // ---------------------------------------------------------------- the swap

  function Oids(c: map<string, Database>): set<nat> { set n | n in c :: c[n].oid }

  /** Everything under names other than the three the swap may touch. */
  ghost predicate Elsewhere(c: map<string, Database>, d: map<string, Database>, n: Names) {
    forall x :: x != n.target && x != n.staging && x != n.previous ==> (x in c <==> x in d) && (x in c ==> d[x] == c[x])
  }

  /** The catalog with the two databases that were closed open again. */
  function Reopened(c: map<string, Database>, n: Names, flags: Flags): map<string, Database> {
    var d := if flags.stageDisabled then Accepting(c, n.staging, true) else c;
    if flags.targetDisabled then Accepting(d, n.target, true) else d
  }

  /** The new database answers to the target name, closed; the old one is kept closed under the previous name. */
  ghost predicate Promoted(c: map<string, Database>, d: map<string, Database>, n: Names, previous: Option<string>)
    requires n.staging in c
  {
    n.target in d && d[n.target] == c[n.staging].(accepts := false) && n.staging !in d && Elsewhere(c, d, n)
    && previous == (if n.target in c then Some(n.previous) else None)
    && (n.target in c ==> n.previous in d && d[n.previous] == c[n.target].(accepts := false))
    && (n.target !in c ==> n.previous !in d)
  }

  lemma RenameKeepsOids(c: map<string, Database>, a: string, b: string)
    requires a in c && b !in c && a != b
    ensures Oids(Renamed(c, a, b)) == Oids(c)
  {
    var d := Renamed(c, a, b);
    forall o | o in Oids(c) ensures o in Oids(d) {
      var n :| n in c && c[n].oid == o;
      assert (if n == a then b else n) in d;
    }
  }

  lemma AcceptKeepsOids(c: map<string, Database>, a: string, accepts: bool)
    ensures Oids(Accepting(c, a, accepts)) == Oids(c)
  {
    var d := Accepting(c, a, accepts);
    forall o | o in Oids(c) ensures o in Oids(d) {
      var n :| n in c && c[n].oid == o;
      assert n in d;
    }
  }

  predicate OnlyCatalog(m: Machine, e: Machine) { e.site == m.site.(catalog := e.site.catalog) }

  /** The catalog after the try block stopped where the flags say. */
  function Progressed(c: map<string, Database>, n: Names, flags: Flags): map<string, Database> {
    var c := if flags.stageDisabled then Accepting(c, n.staging, false) else c;
    var c := if flags.targetDisabled then Accepting(c, n.target, false) else c;
    var c := if flags.oldRenamed then Renamed(c, n.target, n.previous) else c;
    if flags.promoted then Renamed(c, n.staging, n.target) else c
  }

  lemma TryProgress(f: Faults, m: Machine, n: Names)
    requires Distinct(n) && n.staging in m.site.catalog && n.previous !in m.site.catalog
    ensures var exists0 := n.target in m.site.catalog;
            var (e, flags) := SwapTry(f, m, n, exists0);
            OnlyCatalog(m, e) && e.site.catalog == Progressed(m.site.catalog, n, flags)
            && (flags.promoted ==> flags.stageDisabled && (exists0 ==> flags.oldRenamed))
            && (flags.oldRenamed ==> flags.targetDisabled) && (flags.targetDisabled ==> flags.stageDisabled && exists0)
  {
  }

  /** Where an except block that failed too can stop: with everything as the try block left it, with the staging
      database open again, or with the old database back under the target name but still closed. */
  predicate HalfReopened(c: map<string, Database>, d: map<string, Database>, n: Names, flags: Flags) {
    var closed := Progressed(c, n, flags);
    flags.stageDisabled
    && (d == closed || (flags.targetDisabled && d == Accepting(closed, n.staging, true))
        || (flags.targetDisabled && d == Accepting(Accepting(c, n.staging, true), n.target, false)))
  }

  /** When the whole except block runs, only the accept flags of the databases it closed can differ from before. */
  lemma UndoReopens(f: Faults, m: Machine, n: Names, flags: Flags, c: map<string, Database>)
    requires Distinct(n) && n.staging in c && n.previous !in c && m.site.catalog == Progressed(c, n, flags)
    requires !flags.promoted && (flags.oldRenamed ==> flags.targetDisabled)
    requires flags.targetDisabled ==> flags.stageDisabled && n.target in c
    ensures var (e, ok) := SwapUndo(f, m, n, flags);
            OnlyCatalog(m, e) && (ok ==> e.site.catalog == Reopened(c, n, flags))
            && (!ok ==> HalfReopened(c, e.site.catalog, n, flags))
  {
    if flags.oldRenamed {
      BackAgain(c, n);
    } else {
      ClosedAgain(c, n);
    }
    hide Accepting, Renamed;
  }

  /** Opening the staging database and renaming the old one back. */
  lemma BackAgain(c: map<string, Database>, n: Names)
    requires Distinct(n) && n.staging in c && n.previous !in c && n.target in c
    ensures var closed := Accepting(Accepting(c, n.staging, false), n.target, false);
            var cut := Renamed(closed, n.target, n.previous);
            n.staging in cut && n.previous in Accepting(cut, n.staging, true)
            && n.target !in Accepting(cut, n.staging, true)
            && Renamed(Accepting(cut, n.staging, true), n.previous, n.target)
               == Accepting(Accepting(c, n.staging, true), n.target, false)
            && n.target in Accepting(Accepting(c, n.staging, true), n.target, false)
            && Accepting(Accepting(Accepting(c, n.staging, true), n.target, false), n.target, true)
               == Accepting(Accepting(c, n.staging, true), n.target, true)
  {
  }

  /** Opening what was closed without renaming. */
  lemma ClosedAgain(c: map<string, Database>, n: Names)
    requires Distinct(n) && n.staging in c
    ensures n.staging in Accepting(c, n.staging, false)
            && Accepting(Accepting(c, n.staging, false), n.staging, true) == Accepting(c, n.staging, true)
    ensures n.target in c ==>
              var closed := Accepting(Accepting(c, n.staging, false), n.target, false);
              n.staging in closed && n.target in Accepting(closed, n.staging, true)
              && Accepting(closed, n.staging, true) == Accepting(Accepting(c, n.staging, true), n.target, false)
              && Accepting(Accepting(closed, n.staging, true), n.target, true)
                 == Accepting(Accepting(c, n.staging, true), n.target, true)
  {
  }

  /** What each ending of the swap says about the catalog; nothing but the catalog changes. */
  lemma SwapEnds(f: Faults, m: Machine, n: Names, stagingOid: Option<nat>, targetOid: Option<nat>)
    requires Distinct(n) && n.previous !in m.site.catalog
    ensures var (e, swap) := SwapDatabases(f, m, n, stagingOid, targetOid);
            var c := m.site.catalog;
            OnlyCatalog(m, e)
            && (swap.Swapped? ==> n.staging in c && Promoted(c, e.site.catalog, n, swap.previous))
            && (swap.Untouched? ==> e.site.catalog == c)
            && (swap.Undone? ==> n.staging in c && (swap.flags.targetDisabled ==> n.target in c)
                                 && e.site.catalog == Reopened(c, n, swap.flags))
            && (swap.HalfUndone? ==> n.staging in c && !swap.flags.promoted
                                     && HalfReopened(c, e.site.catalog, n, swap.flags))
  {
    hide SwapTry, SwapUndo, Progressed, Reopened, HalfReopened, Promoted;
    var (q, ok) := Check(f, m);
    if ok && n.staging in q.site.catalog {
      TryProgress(f, q, n);
      var (t, flags) := SwapTry(f, q, n, n.target in q.site.catalog);
      if flags.promoted {
        ProgressPromotes(q.site.catalog, n, flags);
      } else {
        UndoReopens(f, t, n, flags, q.site.catalog);
      }
    }
  }

  lemma ProgressPromotes(c: map<string, Database>, n: Names, flags: Flags)
    requires Distinct(n) && n.staging in c && n.previous !in c && flags.promoted && flags.stageDisabled
    requires if n.target in c then flags.oldRenamed && flags.targetDisabled
             else !flags.oldRenamed && !flags.targetDisabled
    ensures Promoted(c, Progressed(c, n, flags), n, if n.target in c then Some(n.previous) else None)
  {
  }

  /** A swap whose except block ran restored the exact catalog if and only if every database it had closed had been
      accepting connections before. */
  lemma UndoneIsExact(f: Faults, m: Machine, n: Names, stagingOid: Option<nat>, targetOid: Option<nat>)
    requires Distinct(n) && n.previous !in m.site.catalog
    requires SwapDatabases(f, m, n, stagingOid, targetOid).1.Undone?
    ensures var (e, swap) := SwapDatabases(f, m, n, stagingOid, targetOid);
            var c := m.site.catalog;
            n.staging in c && (swap.flags.targetDisabled ==> n.target in c)
            && (e.site.catalog == c
                <==> (swap.flags.stageDisabled ==> c[n.staging].accepts)
                     && (swap.flags.targetDisabled ==> c[n.target].accepts))
  {
    hide SwapDatabases;
    SwapEnds(f, m, n, stagingOid, targetOid);
    var flags := SwapDatabases(f, m, n, stagingOid, targetOid).1.flags;
    ReopenedIsSame(m.site.catalog, n, flags);
  }

  lemma ReopenedIsSame(c: map<string, Database>, n: Names, flags: Flags)
    requires n.target != n.staging && n.staging in c && (flags.targetDisabled ==> n.target in c)
    ensures Reopened(c, n, flags) == c
       <==> (flags.stageDisabled ==> c[n.staging].accepts) && (flags.targetDisabled ==> c[n.target].accepts)
  {
    var d := Reopened(c, n, flags);
    if d == c {
      assert d[n.staging] == c[n.staging];
    }
  }

  /** The fault pattern in which only the last rename of the try block fails. */
  function LastRenameFails(m: Machine, targetExists: bool): Faults {
    (t: nat) => t == m.tick + (if targetExists then 6 else 3)
  }

  lemma TryStopsLast(f: Faults, m: Machine, n: Names)
    requires Distinct(n) && n.staging in m.site.catalog && n.previous !in m.site.catalog
    requires forall t: nat :: f(t) <==> t == m.tick + (if n.target in m.site.catalog then 5 else 2)
    ensures var exists0 := n.target in m.site.catalog;
            var (e, flags) := SwapTry(f, m, n, exists0);
            flags == Flags(true, exists0, exists0, false) && e.tick == m.tick + (if exists0 then 6 else 3)
  {
  }

  /** Then the swap undoes everything it did, having closed both databases. */
  lemma LastFaultUndone(m: Machine, n: Names, stagingOid: Option<nat>, targetOid: Option<nat>)
    requires Distinct(n) && n.previous !in m.site.catalog && n.staging in m.site.catalog
    requires OidIs(m.site.catalog, n.staging, stagingOid) && OidIs(m.site.catalog, n.target, targetOid)
    ensures var exists0 := n.target in m.site.catalog;
            SwapDatabases(LastRenameFails(m, exists0), m, n, stagingOid, targetOid).1
              == Undone(Flags(true, exists0, exists0, false))
  {
    hide SwapTry, SwapUndo, Progressed;
    var f := LastRenameFails(m, n.target in m.site.catalog);
    var (q, ok) := Check(f, m);
    assert q.site == m.site && q.tick == m.tick + 1 && ok;
    TryProgress(f, q, n);
    TryStopsLast(f, q, n);
    var (t, flags) := SwapTry(f, q, n, n.target in q.site.catalog);
    UndoWorks(f, t, n, flags, q.site.catalog);
  }

  /** Every undone swap, under every fault pattern, leaves the exact catalog it found, if and only if the staging
      database and the target, if there is one, were accepting connections before the call. */
  lemma UndoneIsExactWhenOpen(m: Machine, n: Names, stagingOid: Option<nat>, targetOid: Option<nat>)
    requires Distinct(n) && n.previous !in m.site.catalog && n.staging in m.site.catalog
    requires OidIs(m.site.catalog, n.staging, stagingOid) && OidIs(m.site.catalog, n.target, targetOid)
    ensures var c := m.site.catalog;
            (forall f: Faults :: SwapDatabases(f, m, n, stagingOid, targetOid).1.Undone? ==>
               SwapDatabases(f, m, n, stagingOid, targetOid).0.site.catalog == c)
            <==> c[n.staging].accepts && (n.target in c ==> c[n.target].accepts)
  {
    hide SwapDatabases, LastRenameFails;
    var c := m.site.catalog;
    forall f: Faults | SwapDatabases(f, m, n, stagingOid, targetOid).1.Undone?
      ensures var (e, swap) := SwapDatabases(f, m, n, stagingOid, targetOid);
              (swap.flags.targetDisabled ==> n.target in c)
              && (e.site.catalog == c <==> (swap.flags.stageDisabled ==> c[n.staging].accepts)
                                           && (swap.flags.targetDisabled ==> c[n.target].accepts))
    {
      UndoneIsExact(f, m, n, stagingOid, targetOid);
    }
    LastFaultUndone(m, n, stagingOid, targetOid);
    var f := LastRenameFails(m, n.target in c);
    assert SwapDatabases(f, m, n, stagingOid, targetOid).1.Undone?;
  }

  ghost predicate AtMostOneFault(f: Faults) { forall i, j :: f(i) && f(j) ==> i == j }

  lemma TryFault(f: Faults, m: Machine, n: Names)
    requires Distinct(n) && n.staging in m.site.catalog && n.previous !in m.site.catalog
    ensures var (e, flags) := SwapTry(f, m, n, n.target in m.site.catalog);
            m.tick <= e.tick && (flags.promoted || exists t :: m.tick <= t < e.tick && f(t))
  {
    var (e, flags) := SwapTry(f, m, n, n.target in m.site.catalog);
    if !flags.promoted {
      assert f(e.tick - 1);
    }
  }

  lemma UndoWorks(f: Faults, m: Machine, n: Names, flags: Flags, c: map<string, Database>)
    requires Distinct(n) && n.staging in c && n.previous !in c && m.site.catalog == Progressed(c, n, flags)
    requires !flags.promoted && (flags.oldRenamed ==> flags.targetDisabled)
    requires flags.targetDisabled ==> flags.stageDisabled && n.target in c
    requires forall t :: t >= m.tick ==> !f(t)
    ensures SwapUndo(f, m, n, flags).1
  {
  }

  /** With one failing statement anywhere, the swap either promotes the staging database or, when both databases were
      accepting connections, leaves the exact catalog it found. */
  lemma OneFaultSwap(f: Faults, m: Machine, n: Names, stagingOid: Option<nat>, targetOid: Option<nat>)
    requires Distinct(n) && n.previous !in m.site.catalog && AtMostOneFault(f)
    ensures var (e, swap) := SwapDatabases(f, m, n, stagingOid, targetOid);
            var c := m.site.catalog;
            !swap.HalfUndone?
            && ((n.staging in c ==> c[n.staging].accepts) && (n.target in c ==> c[n.target].accepts) && !swap.Swapped?
                ==> e.site.catalog == c)
  {
    hide SwapTry, SwapUndo;
    SwapEnds(f, m, n, stagingOid, targetOid);
    var (q, ok) := Check(f, m);
    if ok && n.staging in q.site.catalog {
      TryProgress(f, q, n);
      TryFault(f, q, n);
      var (t, flags) := SwapTry(f, q, n, n.target in q.site.catalog);
      if !flags.promoted {
        UndoWorks(f, t, n, flags, q.site.catalog);
        ReopenedIsSame(m.site.catalog, n, flags);
      }
    }
  }

  // ---------------------------------------------------------------- identities

  /** The swap touches nothing unless staging and target are still the databases that were recorded. */
  lemma SwapGuards(f: Faults, m: Machine, n: Names, stagingOid: Option<nat>, targetOid: Option<nat>)
    ensures var (e, swap) := SwapDatabases(f, m, n, stagingOid, targetOid);
            var c := m.site.catalog;
            e.site != m.site || !swap.Untouched? ==>
              n.staging in c && OidIs(c, n.staging, stagingOid) && OidIs(c, n.target, targetOid)
  {
    hide SwapTry, SwapUndo;
  }

  /** Neither does the rollback, unless promoted and previous database are still the recorded ones. */
  lemma RollbackGuards(f: Faults, m: Machine, n: Names, previous: Option<string>, promotedOid: Option<nat>,
                       previousOid: Option<nat>)
    ensures var (e, ok) := RollbackDatabase(f, m, n, previous, promotedOid, previousOid);
            var c := m.site.catalog;
            e.site != m.site || ok ==>
              OidIs(c, n.target, promotedOid)
              && (previousOid.Some? ==> previous.Some? && OidIs(c, previous.value, previousOid))
  {
  }

  /** The promoted database is opened only while it is still the recorded one and still closed. */
  lemma FinalizeGuards(f: Faults, m: Machine, n: Names, oid: nat)
    ensures var (e, ok) := FinalizePromoted(f, m, n, oid);
            var c := m.site.catalog;
            e.site != m.site || ok ==> n.target in c && c[n.target] == Database(oid, false)
  {
  }

  // ---------------------------------------------------------------- no database is ever lost

  lemma AllowOids(f: Faults, m: Machine, name: string, accepts: bool)
    ensures Oids(Allow(f, m, name, accepts).0.site.catalog) == Oids(m.site.catalog)
  {
    AcceptKeepsOids(m.site.catalog, name, accepts);
  }

  lemma RenameOids(f: Faults, m: Machine, a: string, b: string)
    requires a != b
    ensures Oids(RenameDatabase(f, m, a, b).0.site.catalog) == Oids(m.site.catalog)
  {
    if a in m.site.catalog && b !in m.site.catalog {
      RenameKeepsOids(m.site.catalog, a, b);
    }
  }

  lemma TryOids(f: Faults, m: Machine, n: Names, targetExists: bool)
    requires Distinct(n)
    ensures Oids(SwapTry(f, m, n, targetExists).0.site.catalog) == Oids(m.site.catalog)
  {
    hide Allow, RenameDatabase, Oids;
    var (q, ok) := Check(f, m);
    AllowOids(f, q, n.staging, false);
    var (a, _) := Allow(f, q, n.staging, false);
    RenameOids(f, a, n.staging, n.target);
    var (b, _) := Check(f, a);
    AllowOids(f, b, n.target, false);
    var (d, _) := Allow(f, b, n.target, false);
    RenameOids(f, d, n.target, n.previous);
    RenameOids(f, RenameDatabase(f, d, n.target, n.previous).0, n.staging, n.target);
  }

  lemma UndoOids(f: Faults, m: Machine, n: Names, flags: Flags)
    requires Distinct(n)
    ensures Oids(SwapUndo(f, m, n, flags).0.site.catalog) == Oids(m.site.catalog)
  {
    hide Allow, RenameDatabase, Oids;
    RenameOids(f, m, n.target, n.staging);
    var a := if flags.promoted then RenameDatabase(f, m, n.target, n.staging).0 else m;
    AllowOids(f, a, n.staging, true);
    var b := if flags.stageDisabled then Allow(f, a, n.staging, true).0 else a;
    RenameOids(f, b, n.previous, n.target);
    var d := if flags.oldRenamed then RenameDatabase(f, b, n.previous, n.target).0 else b;
    AllowOids(f, d, n.target, true);
  }

  /** Whatever fails, the swap keeps every database of the catalog. */
  lemma SwapKeepsOids(f: Faults, m: Machine, n: Names, stagingOid: Option<nat>, targetOid: Option<nat>)
    requires Distinct(n)
    ensures Oids(SwapDatabases(f, m, n, stagingOid, targetOid).0.site.catalog) == Oids(m.site.catalog)
  {
    hide Oids, SwapTry, SwapUndo;
    var (q, ok) := Check(f, m);
    TryOids(f, q, n, n.target in q.site.catalog);
    var (t, flags) := SwapTry(f, q, n, n.target in q.site.catalog);
    UndoOids(f, t, n, flags);
  }

  // ---------------------------------------------------------------- rolling the database back

  function RolledBack(c: map<string, Database>, n: Names): map<string, Database> {
    Accepting(Renamed(Renamed(Accepting(c, n.target, false), n.target, n.failed), n.previous, n.target), n.target, true)
  }

  lemma RollbackProgress(f: Faults, m: Machine, n: Names, promotedOid: Option<nat>, previousOid: Option<nat>)
    ensures var (e, ok) := RollbackDatabase(f, m, n, Some(n.previous), promotedOid, previousOid);
            OnlyCatalog(m, e) && (ok ==> e.site.catalog == RolledBack(m.site.catalog, n))
  {
  }

  /** The old database is back under the target name, open; the promoted one is kept, closed; the rest is untouched. */
  ghost predicate Restored(c: map<string, Database>, d: map<string, Database>, n: Names)
    requires n.staging in c && n.target in c
  {
    n.target in d && d[n.target] == c[n.target].(accepts := true)
    && n.failed in d && d[n.failed] == c[n.staging].(accepts := false)
    && n.staging !in d && n.previous !in d
    && forall x :: x != n.target && x != n.staging && x != n.previous && x != n.failed ==>
         (x in c <==> x in d) && (x in c ==> d[x] == c[x])
  }

  lemma RolledBackIs(c: map<string, Database>, x: map<string, Database>, n: Names)
    requires Distinct(n) && n.staging in c && n.target in c && n.failed !in c
    requires Promoted(c, x, n, Some(n.previous)) || Opened(c, x, n)
    ensures Restored(c, RolledBack(x, n), n)
  {
  }

  /** The promoted catalog after the new database has been opened. */
  ghost predicate Opened(c: map<string, Database>, d: map<string, Database>, n: Names)
    requires n.staging in c
  {
    n.target in d && d[n.target] == c[n.staging].(accepts := true) && n.staging !in d && Elsewhere(c, d, n)
    && n.target in c && n.previous in d && d[n.previous] == c[n.target].(accepts := false)
  }

  /** After a promotion, opened or not, a rollback that does not fail restores the old database. */
  lemma RollbackRestores(f: Faults, m: Machine, n: Names, c: map<string, Database>,
                         promotedOid: Option<nat>, previousOid: Option<nat>)
    requires Distinct(n) && n.staging in c && n.target in c && n.failed !in c
    requires Promoted(c, m.site.catalog, n, Some(n.previous)) || Opened(c, m.site.catalog, n)
    ensures var (e, ok) := RollbackDatabase(f, m, n, Some(n.previous), promotedOid, previousOid);
            OnlyCatalog(m, e) && (ok ==> Restored(c, e.site.catalog, n))
  {
    hide *;
    RollbackProgress(f, m, n, promotedOid, previousOid);
    RolledBackIs(c, m.site.catalog, n);
  }

  // ---------------------------------------------------------------- the marker stays until the last statement

  /** The marker is there and was there after every statement since m. */
  ghost predicate Marked(m: Machine, e: Machine) {
    m.trail <= e.trail && e.site.marker && forall i :: |m.trail| <= i < |e.trail| ==> e.trail[i].marker
  }

  lemma DoMarked(base: Machine, f: Faults, m: Machine, enabled: bool, next: Site)
    requires Marked(base, m) && next.marker
    ensures Marked(base, Do(f, m, enabled, next).0)
  {
  }

  lemma StatementsMarked(base: Machine, f: Faults)
    ensures forall m: Machine, enabled: bool, next: Site :: Marked(base, m) && next.marker ==>
              Marked(base, Do(f, m, enabled, next).0)
    ensures forall m :: Marked(base, m) ==> m.site.marker
  {
    forall m: Machine, enabled: bool, next: Site | Marked(base, m) && next.marker
      ensures Marked(base, Do(f, m, enabled, next).0)
    {
      DoMarked(base, f, m, enabled, next);
    }
  }

  lemma SwapMarked(base: Machine, f: Faults, m: Machine, n: Names, stagingOid: Option<nat>, targetOid: Option<nat>)
    requires Marked(base, m)
    ensures Marked(base, SwapDatabases(f, m, n, stagingOid, targetOid).0)
  {
    hide SwapTry, SwapUndo, Marked, Do;
    StatementsMarked(base, f);
    var (q, ok) := Check(f, m);
    TryMarked(base, f, q, n, n.target in q.site.catalog);
    var (t, flags) := SwapTry(f, q, n, n.target in q.site.catalog);
    UndoMarked(base, f, t, n, flags);
  }

  lemma TryMarked(base: Machine, f: Faults, m: Machine, n: Names, targetExists: bool)
    requires Marked(base, m)
    ensures Marked(base, SwapTry(f, m, n, targetExists).0)
  {
    hide Marked, Do, Accepting, Renamed;
    StatementsMarked(base, f);
  }

  lemma UndoMarked(base: Machine, f: Faults, m: Machine, n: Names, flags: Flags)
    requires Marked(base, m)
    ensures Marked(base, SwapUndo(f, m, n, flags).0)
  {
    hide Marked, Do, Accepting, Renamed;
    StatementsMarked(base, f);
  }

  lemma ActivateMarked(base: Machine, f: Faults, m: Machine)
    requires Marked(base, m)
    ensures Marked(base, ActivateAssets(f, m).0)
  {
    hide Marked, Do, Moved;
    StatementsMarked(base, f);
  }

  lemma RollbackAssetsMarked(base: Machine, f: Faults, m: Machine, moved: bool)
    requires Marked(base, m)
    ensures Marked(base, RollbackAssets(f, m, moved).0)
  {
    hide Marked, Do, Moved;
    StatementsMarked(base, f);
  }

  lemma RollbackMarked(base: Machine, f: Faults, m: Machine, n: Names, previous: Option<string>,
                       promotedOid: Option<nat>, previousOid: Option<nat>)
    requires Marked(base, m)
    ensures Marked(base, RollbackDatabase(f, m, n, previous, promotedOid, previousOid).0)
  {
    hide Marked, Do, Accepting, Renamed;
    StatementsMarked(base, f);
  }
}
