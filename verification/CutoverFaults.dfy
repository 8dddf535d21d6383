/** Exactly which faults leave a mixed installation without a marker. */
module CutoverFaults {
  import opened Cutover
  import opened CutoverProofs
  import opened CutoverSafety

  predicate Clean(f: Faults, from: nat, count: nat) { forall t :: from <= t < from + count ==> !f(t) }

  // ---------------------------------------------------------------- when a block runs to its end

  lemma TryTicks(f: Faults, m: Machine, n: Names)
    requires Distinct(n) && n.staging in m.site.catalog && n.target in m.site.catalog && n.previous !in m.site.catalog
    ensures var (e, flags) := SwapTry(f, m, n, true);
            (flags.promoted <==> Clean(f, m.tick, 6)) && (flags.promoted ==> e.tick == m.tick + 6)
  {
  }

  lemma FilesTicks(f: Faults, m: Machine, p: Plan)
    ensures var (e, ok) := RestoreFiles(f, m, p);
            (ok <==> Clean(f, m.tick, 2)) && (ok ==> e.tick == m.tick + 2)
  {
  }

  lemma RollbackTicks(f: Faults, m: Machine, n: Names, c: map<string, Database>, promotedOid: nat, previousOid: nat)
    requires Distinct(n) && n.staging in c && n.target in c && n.failed !in c
    requires Promoted(c, m.site.catalog, n, Some(n.previous))
    requires c[n.staging].oid == promotedOid && c[n.target].oid == previousOid
    ensures var (e, ok) := RollbackDatabase(f, m, n, Some(n.previous), Some(promotedOid), Some(previousOid));
            (ok <==> Clean(f, m.tick, 7)) && (ok ==> e.tick == m.tick + 7)
  {
  }

  lemma SwapTicks(f: Faults, m: Machine, p: Plan)
    requires Prepared(m.site, p) && p.names.target in m.site.catalog
    ensures var (e, swap) := SwapDatabases(f, m, p.names, Some(p.stagingOid), p.targetOid);
            OnlyCatalog(m, e)
            && (swap.Swapped? <==> Clean(f, m.tick, 7))
            && (swap.Swapped? ==> e.tick == m.tick + 7 && swap.previous == Some(p.names.previous)
                                  && Promoted(m.site.catalog, e.site.catalog, p.names, swap.previous))
  {
    hide SwapTry, SwapUndo;
    SwapEnds(f, m, p.names, Some(p.stagingOid), p.targetOid);
    hide Promoted;
    var (q, ok) := Check(f, m);
    TryTicks(f, q, p.names);
  }

  /** For every fault pattern: the swap leaves no database under the target name exactly when its first six statements
      work, the rename that promotes fails, and so does one of the first two statements that undo. */
  lemma TargetLostExactly(f: Faults, m: Machine, n: Names, stagingOid: Option<nat>, targetOid: Option<nat>)
    requires Distinct(n) && n.previous !in m.site.catalog && n.staging in m.site.catalog && n.target in m.site.catalog
    requires OidIs(m.site.catalog, n.staging, stagingOid) && OidIs(m.site.catalog, n.target, targetOid)
    ensures var (e, swap) := SwapDatabases(f, m, n, stagingOid, targetOid);
            (n.target !in e.site.catalog
             <==> Clean(f, m.tick, 6) && f(m.tick + 6) && (f(m.tick + 7) || f(m.tick + 8)))
            && (n.target !in e.site.catalog ==>
                  swap.HalfUndone? && n.previous in e.site.catalog
                  && e.site.catalog[n.previous] == m.site.catalog[n.target].(accepts := false))
  {
    hide SwapTry, SwapUndo;
    var (q, ok) := Check(f, m);
    TryLoses(f, q, n);
    var (t, flags) := SwapTry(f, q, n, true);
    UndoLoses(f, t, n, flags, m.site.catalog);
    if flags.promoted {
      TryTicks(f, q, n);
    }
  }

  lemma TryLoses(f: Faults, m: Machine, n: Names)
    requires Distinct(n) && n.staging in m.site.catalog && n.target in m.site.catalog && n.previous !in m.site.catalog
    ensures var (e, flags) := SwapTry(f, m, n, true);
            (flags.oldRenamed && !flags.promoted <==> Clean(f, m.tick, 5) && f(m.tick + 5))
            && (flags.oldRenamed && !flags.promoted ==> e.tick == m.tick + 6)
            && (flags.promoted ==> n.target in e.site.catalog)
            && e.site.catalog == Progressed(m.site.catalog, n, flags)
            && (flags.oldRenamed ==> flags.targetDisabled) && (flags.targetDisabled ==> flags.stageDisabled)
  {
  }

  lemma UndoLoses(f: Faults, m: Machine, n: Names, flags: Flags, c: map<string, Database>)
    requires Distinct(n) && n.staging in c && n.target in c && n.previous !in c
    requires m.site.catalog == Progressed(c, n, flags)
    requires (flags.oldRenamed ==> flags.targetDisabled) && (flags.targetDisabled ==> flags.stageDisabled)
    ensures var (e, ok) := SwapUndo(f, m, n, flags);
            !flags.promoted ==>
              (n.target !in e.site.catalog <==> flags.oldRenamed && (f(m.tick) || f(m.tick + 1)))
              && (n.target !in e.site.catalog ==>
                    !ok && n.previous in e.site.catalog
                    && e.site.catalog[n.previous] == c[n.target].(accepts := false))
  {
  }

  /** The previous assets are moved away; neither the new nor the previous ones can be moved in. */
  lemma StrandedTicks(f: Faults, m: Machine)
    requires Staged in m.site.dirs && Previous !in m.site.dirs && Assets in m.site.dirs
    ensures var (e, move) := ActivateAssets(f, m);
            (move.AssetsOut? && Stranded(e.site) <==> !f(m.tick) && f(m.tick + 1) && f(m.tick + 2))
            && (move.AssetsOut? && Stranded(e.site) ==> e.tick == m.tick + 3)
  {
  }

  /** The forward part double-faults exactly when its first nine statements work and the next two do not. */
  lemma ForwardTicks(f: Faults, m: Machine, p: Plan)
    requires Prepared(m.site, p) && p.names.target in m.site.catalog && Assets in m.site.dirs
    ensures DoubleFault(f, m, p) <==> Clean(f, m.tick, 9) && f(m.tick + 9) && f(m.tick + 10)
    ensures DoubleFault(f, m, p) ==>
              var (e, r) := Forward(f, m, p);
              e.tick == m.tick + 11 && r == Reached(true, Some(p.names.previous), false, false, false)
              && Promoted(m.site.catalog, e.site.catalog, p.names, Some(p.names.previous))
  {
    hide SwapDatabases, ActivateAssets, Promoted, SwitchOver;
    var (a, ok) := WriteMarker(f, m);
    assert a.site == m.site;
    SwapTicks(f, a, p);
    var (b, swap) := SwapDatabases(f, a, p.names, Some(p.stagingOid), p.targetOid);
    if ok && swap.Swapped? {
      StrandedTicks(f, b);
      ActivateEnds(f, b);
    }
  }

  /** After a double fault the rollback completes exactly when all its ten statements work. */
  lemma RollBackTicks(f: Faults, m: Machine, start: Site, p: Plan, r: Reached)
    requires Prepared(start, p) && p.names.target in start.catalog
    requires Promoted(start.catalog, m.site.catalog, p.names, Some(p.names.previous))
    requires r == Reached(true, Some(p.names.previous), false, false, false)
    ensures RollBack(f, m, p, r).1.RolledBack? <==> Clean(f, m.tick, 10)
  {
    hide RestoreFiles, RollbackDatabase, Promoted;
    FilesTicks(f, m, p);
    RestoreFilesEnds(f, m, p);
    var (a, ok) := RestoreFiles(f, m, p);
    RollbackTicks(f, a, p.names, start.catalog, p.stagingOid, p.targetOid.value);
  }

  lemma WithoutTarget(f: Faults, m: Machine, p: Plan)
    requires Prepared(m.site, p) && p.names.target !in m.site.catalog
    ensures !Activate(f, m, p).1.RolledBack?
  {
    hide Forward, RollBack;
    ForwardEnds(f, m, p);
    var (a, r) := Forward(f, m, p);
    if !r.done && RollBack(f, a, p, r).1.RolledBack? {
      OnlySwapped(f, a, p, r);
    }
  }

  /** Of the twenty-one statements, the tenth and the eleventh fail and no other. */
  ghost predicate OnlyTheRestoringRename(f: Faults, t: nat) {
    forall u :: t <= u < t + 21 ==> (f(u) <==> u == t + 9 || u == t + 10)
  }

  lemma WindowSplits(f: Faults, t: nat)
    ensures OnlyTheRestoringRename(f, t) <==> Clean(f, t, 9) && f(t + 9) && f(t + 10) && Clean(f, t + 11, 10)
  {
  }

  /** For every fault pattern and every death of the process, the installation is all new, all old or marked, unless
      there was something to replace and the faults hit the move of the new assets and the move back, and only these. */
  lemma MixedExactly(f: Faults, m: Machine, p: Plan)
    requires Prepared(m.site, p)
    ensures var (e, outcome) := Activate(f, m, p);
            (Safe(e.site, m.site, p) && forall i :: |m.trail| <= i < |e.trail| ==> Safe(e.trail[i], m.site, p))
            <==> !(p.names.target in m.site.catalog && Assets in m.site.dirs && OnlyTheRestoringRename(f, m.tick))
  {
    hide Safe, Forward, RollBack, Promoted, Clean, OnlyTheRestoringRename;
    NeverMixed(f, m, p);
    WindowSplits(f, m.tick);
    if p.names.target !in m.site.catalog {
      WithoutTarget(f, m, p);
    } else if Assets in m.site.dirs {
      ForwardTicks(f, m, p);
      var (a, r) := Forward(f, m, p);
      if DoubleFault(f, m, p) {
        RollBackTicks(f, a, m.site, p, r);
      }
    }
  }

  /** An installation with a database, assets and a prepared replacement. */
  function Running(): Machine {
    Machine(Site(map["app" := Database(1, true), "stage" := Database(2, true)],
                 map[Assets := "old assets", Staged := "new assets"], map[Env := "old env"], true), 0, [])
  }

  function Replacement(): Plan {
    Plan(Names("app", "stage", "previous", "failed"), 2, Some(1), "new env", "new owner env", Some("old env"), None)
  }

  lemma RunningIsPrepared()
    ensures Prepared(Running().site, Replacement())
  {
  }

  /** Here the two faults do it: the import reports a completed rollback, the marker is gone, and so are the assets. */
  lemma MixedInstallation()
    ensures var f: Faults := (t: nat) => t == 9 || t == 10;
            var (e, outcome) := Activate(f, Running(), Replacement());
            outcome.RolledBack? && !Safe(e.site, Running().site, Replacement())
  {
    var f: Faults := (t: nat) => t == 9 || t == 10;
    var m, p := Running(), Replacement();
    RunningIsPrepared();
    assert p.names.target in m.site.catalog && Assets in m.site.dirs && OnlyTheRestoringRename(f, m.tick);
    hide Safe, Activate, DoubleFault, Running, Replacement, OnlyTheRestoringRename, Prepared;
    MixedExactly(f, m, p);
    NeverMixed(f, m, p);
    ActivationEnds(f, m, p);
    NotNew(f, m, p);
    NotSafe(Activate(f, m, p).0.site, m.site, p);
  }

  lemma NotSafe(s: Site, start: Site, p: Plan)
    requires !s.marker && !IsNew(s, start, p) && !IsOld(s, start, p)
    ensures !Safe(s, start, p)
  {
  }

  // ---------------------------------------------------------------- no database is ever lost

  lemma RollbackOids(f: Faults, m: Machine, n: Names, previous: Option<string>,
                     promotedOid: Option<nat>, previousOid: Option<nat>)
    requires Distinct(n) && (previous.Some? ==> previous.value == n.previous)
    ensures Oids(RollbackDatabase(f, m, n, previous, promotedOid, previousOid).0.site.catalog) == Oids(m.site.catalog)
  {
    hide Allow, RenameDatabase, Oids;
    var (a, _) := Check(f, m);
    var (b, _) := Check(f, a);
    AllowOids(f, b, n.target, false);
    var (d, _) := Allow(f, b, n.target, false);
    RenameOids(f, d, n.target, n.failed);
    var (e, _) := RenameDatabase(f, d, n.target, n.failed);
    if previous.Some? {
      var (g, _) := Check(f, e);
      RenameOids(f, g, previous.value, n.target);
      AllowOids(f, RenameDatabase(f, g, previous.value, n.target).0, n.target, true);
    }
  }

  lemma SwitchOverOids(f: Faults, m: Machine, p: Plan)
    ensures Oids(SwitchOver(f, m, p).0.site.catalog) == Oids(m.site.catalog)
  {
    hide Oids, Allow, Put;
    forall q: Machine ensures Oids(Allow(f, q, p.names.target, true).0.site.catalog) == Oids(q.site.catalog) {
      AllowOids(f, q, p.names.target, true);
    }
  }

  lemma ForwardOids(f: Faults, m: Machine, p: Plan)
    requires Distinct(p.names)
    ensures Oids(Forward(f, m, p).0.site.catalog) == Oids(m.site.catalog)
    ensures Forward(f, m, p).1.previous.Some? ==> Forward(f, m, p).1.previous.value == p.names.previous
  {
    hide Oids, SwitchOver, SwapTry, SwapUndo;
    var (a, _) := WriteMarker(f, m);
    SwapKeepsOids(f, a, p.names, Some(p.stagingOid), p.targetOid);
    var (b, _) := SwapDatabases(f, a, p.names, Some(p.stagingOid), p.targetOid);
    SwitchOverOids(f, ActivateAssets(f, b).0, p);
  }

  /** Whatever fails, forward or while undoing, every database that existed still exists under some name. */
  lemma ActivateKeepsOids(f: Faults, m: Machine, p: Plan)
    requires Distinct(p.names)
    ensures Oids(Activate(f, m, p).0.site.catalog) == Oids(m.site.catalog)
  {
    hide Oids, Forward, RollbackDatabase, Put;
    ForwardOids(f, m, p);
    var (a, r) := Forward(f, m, p);
    var (b, _) := RestoreFiles(f, a, p);
    var d := if r.assetsIn then RollbackAssets(f, b, r.moved).0 else b;
    RollbackOids(f, d, p.names, r.previous, Some(p.stagingOid), p.targetOid);
  }
}
