/** The cutover as the scripts run it: statement by statement, with the flags their handlers look at. */
module CutoverScript {
  import opened Cutover
  import opened CutoverProofs
  import opened CutoverSafety
  import CutoverFaults

  class Installation {
    var catalog: map<string, Database>
    var dirs: map<Place, string>
    var files: map<File, string>
    var marker: bool
    var tick: nat
    ghost var trail: seq<Site>

    ghost function State(): Machine
      reads this
    {
      Machine(Site(catalog, dirs, files, marker), tick, trail)
    }

    constructor (site: Site)
      ensures State() == Machine(site, 0, [])
    {
      catalog, dirs, files, marker, tick, trail := site.catalog, site.dirs, site.files, site.marker, 0, [];
    }

    // ---------------------------------------------------------------- statements

    method Passed()
      modifies this`tick, this`trail
      ensures State() == Machine(old(State()).site, old(tick) + 1, old(trail) + [Site(catalog, dirs, files, marker)])
    {
      tick := tick + 1;
      trail := trail + [Site(catalog, dirs, files, marker)];
    }

    method Query(f: Faults) returns (ok: bool)
      modifies this
      ensures (State(), ok) == Check(f, old(State()))
    {
      ok := !f(tick);
      Passed();
    }

    method AllowConnections(f: Faults, name: string, accepts: bool) returns (ok: bool)
      modifies this
      ensures (State(), ok) == Allow(f, old(State()), name, accepts)
    {
      ok := !f(tick) && name in catalog;
      if ok {
        catalog := catalog[name := catalog[name].(accepts := accepts)];
      }
      Passed();
    }

    method Rename(f: Faults, a: string, b: string) returns (ok: bool)
      modifies this
      ensures (State(), ok) == RenameDatabase(f, old(State()), a, b)
    {
      ok := !f(tick) && a in catalog && b !in catalog;
      if ok {
        catalog := (catalog - {a})[b := catalog[a]];
      }
      Passed();
    }

    method Replace(f: Faults, a: Place, b: Place) returns (ok: bool)
      modifies this
      ensures (State(), ok) == MoveDir(f, old(State()), a, b)
    {
      ok := !f(tick) && a in dirs && b !in dirs;
      if ok {
        dirs := (dirs - {a})[b := dirs[a]];
      }
      Passed();
    }

    method RestoreFileState(f: Faults, file: File, content: Option<string>) returns (ok: bool)
      modifies this
      ensures (State(), ok) == WriteFile(f, old(State()), file, content)
    {
      ok := !f(tick);
      if ok {
        files := if content.Some? then files[file := content.value] else files - {file};
      }
      Passed();
    }

    method SetMarker(f: Faults, present: bool) returns (ok: bool)
      modifies this
      ensures (State(), ok) == if present then WriteMarker(f, old(State())) else UnlinkMarker(f, old(State()))
    {
      ok := !f(tick);
      if ok {
        marker := present;
      }
      Passed();
    }

    // ---------------------------------------------------------------- the database

    method SwapDatabases(f: Faults, n: Names, stagingOid: Option<nat>, targetOid: Option<nat>) returns (swap: Swap)
      modifies this
      ensures (State(), swap) == Cutover.SwapDatabases(f, old(State()), n, stagingOid, targetOid)
      ensures State().site == old(State()).site.(catalog := catalog)
              && (Distinct(n) ==> Oids(catalog) == old(Oids(catalog)))
      ensures catalog != old(catalog)
              ==> OidIs(old(catalog), n.staging, stagingOid) && OidIs(old(catalog), n.target, targetOid)
    {
      SwapFacts(f, State(), n, stagingOid, targetOid);
      hide Check, Allow, RenameDatabase, SwapTry, SwapUndo;
      var ok := Query(f);
      if !ok || n.staging !in catalog || !OidIs(catalog, n.staging, stagingOid)
        || !OidIs(catalog, n.target, targetOid) {
        return Untouched;
      }
      var targetExists := n.target in catalog;
      var flags := TryToSwap(f, n, targetExists);
      if flags.promoted {
        return Swapped(if targetExists then Some(n.previous) else None);
      }
      ok := UndoSwap(f, n, flags);
      swap := if ok then Undone(flags) else HalfUndone(flags);
    }

    method TryToSwap(f: Faults, n: Names, targetExists: bool) returns (flags: Flags)
      modifies this
      ensures (State(), flags) == SwapTry(f, old(State()), n, targetExists)
      ensures State().site == old(State()).site.(catalog := catalog)
      ensures Distinct(n) && n.staging in old(catalog) && n.previous !in old(catalog)
              && targetExists == (n.target in old(catalog))
              ==> catalog == Progressed(old(catalog), n, flags)
    {
      TryFacts(f, State(), n, targetExists);
      hide Check, Allow, RenameDatabase, Progressed;
      var stageDisabled, targetDisabled, oldRenamed, promoted := false, false, false, false;
      var ok := Query(f);
      if ok {
        ok := AllowConnections(f, n.staging, false);
        stageDisabled := ok;
      }
      if ok && targetExists {
        ok := Query(f);
        if ok {
          ok := AllowConnections(f, n.target, false);
          targetDisabled := ok;
        }
        if ok {
          ok := Rename(f, n.target, n.previous);
          oldRenamed := ok;
        }
      }
      if ok {
        promoted := Rename(f, n.staging, n.target);
      }
      flags := Flags(stageDisabled, targetDisabled, oldRenamed, promoted);
    }

    method UndoSwap(f: Faults, n: Names, flags: Flags) returns (ok: bool)
      modifies this
      ensures (State(), ok) == SwapUndo(f, old(State()), n, flags)
      ensures State().site == old(State()).site.(catalog := catalog)
      ensures forall c :: Interrupted(c, n, flags) && old(catalog) == Progressed(c, n, flags) ==>
                if ok then catalog == Reopened(c, n, flags) else HalfReopened(c, catalog, n, flags)
    {
      UndoFacts(f, State(), n, flags);
      hide Check, Allow, RenameDatabase, Progressed, Reopened, HalfReopened;
      ok := true;
      if flags.promoted {
        ok := Rename(f, n.target, n.staging);
      }
      if ok && flags.stageDisabled {
        ok := AllowConnections(f, n.staging, true);
      }
      if ok && flags.oldRenamed {
        ok := Rename(f, n.previous, n.target);
      }
      if ok && flags.targetDisabled {
        ok := AllowConnections(f, n.target, true);
      }
    }

    method FinalizePromotedDatabase(f: Faults, n: Names, oid: nat) returns (ok: bool)
      modifies this
      ensures (State(), ok) == FinalizePromoted(f, old(State()), n, oid)
      ensures catalog != old(catalog) ==> n.target in old(catalog) && old(catalog)[n.target] == Database(oid, false)
    {
      FinalizeGuards(f, State(), n, oid);
      ok := Query(f);
      if !ok || n.target !in catalog || catalog[n.target].oid != oid || catalog[n.target].accepts {
        return false;
      }
      ok := AllowConnections(f, n.target, true);
    }

    method RollbackDatabaseSwap(f: Faults, n: Names, previous: Option<string>,
                                promotedOid: Option<nat>, previousOid: Option<nat>) returns (ok: bool)
      modifies this
      ensures (State(), ok) == RollbackDatabase(f, old(State()), n, previous, promotedOid, previousOid)
      ensures catalog != old(catalog) ==> OidIs(old(catalog), n.target, promotedOid)
      ensures Distinct(n) && (previous.Some? ==> previous.value == n.previous) ==> Oids(catalog) == old(Oids(catalog))
    {
      RollbackFacts(f, State(), n, previous, promotedOid, previousOid);
      hide Check, Allow, RenameDatabase;
      ok := Query(f);
      if !ok || !OidIs(catalog, n.target, promotedOid) {
        return false;
      }
      if previousOid.Some? && (previous.None? || !OidIs(catalog, previous.value, previousOid)) {
        return false;
      }
      ok := Query(f);
      if ok {
        ok := AllowConnections(f, n.target, false);
      }
      if ok {
        ok := Rename(f, n.target, n.failed);
      }
      if ok && previous.Some? {
        ok := Query(f);
        if ok {
          ok := Rename(f, previous.value, n.target);
        }
        if ok {
          ok := AllowConnections(f, n.target, true);
        }
      }
    }

    // ---------------------------------------------------------------- the assets

    method ActivateStagedAssets(f: Faults) returns (move: AssetMove)
      modifies this
      ensures (State(), move) == ActivateAssets(f, old(State()))
      ensures Staged in old(dirs) && Previous !in old(dirs) && Failed !in old(dirs) ==>
                State().site == old(State()).site.(dirs := dirs)
                && match move
                   case AssetsIn(moved) => AssetsMoved(old(dirs), dirs, moved)
                   case AssetsOut => dirs == old(dirs) || (Assets in old(dirs) && Stranded(State().site))
    {
      if Staged in dirs && Previous !in dirs && Failed !in dirs {
        ActivateEnds(f, State());
      }
      hide MoveDir;
      var movedPrevious := false;
      var ok := true;
      if Assets in dirs {
        ok := Replace(f, Assets, Previous);
        movedPrevious := ok;
      }
      if ok {
        ok := Replace(f, Staged, Assets);
      }
      if ok {
        return AssetsIn(movedPrevious);
      }
      if movedPrevious && Previous in dirs && Assets !in dirs {
        ok := Replace(f, Previous, Assets);
      }
      move := AssetsOut;
    }

    method RollbackSwappedAssets(f: Faults, moved: bool) returns (ok: bool)
      modifies this
      ensures (State(), ok) == RollbackAssets(f, old(State()), moved)
      ensures forall start :: AssetsMoved(start, old(dirs), moved) && ok ==> AssetsOf(dirs) == AssetsOf(start)
    {
      forall start | AssetsMoved(start, dirs, moved)
        ensures RollbackAssets(f, State(), moved).1 ==>
                  AssetsOf(RollbackAssets(f, State(), moved).0.site.dirs) == AssetsOf(start)
      {
        RollbackAssetsEnds(f, State(), start, moved);
      }
      hide MoveDir, AssetsMoved, AssetsOf;
      ok := true;
      if Assets in dirs {
        ok := Replace(f, Assets, Failed);
      }
      if ok && moved && Previous in dirs {
        ok := Replace(f, Previous, Assets);
      }
    }

    // ---------------------------------------------------------------- import_bundle

    method SwitchService(f: Faults, p: Plan) returns (ok: bool)
      modifies this
      ensures (State(), ok) == SwitchOver(f, old(State()), p)
    {
      hide Check, WriteFile, FinalizePromoted, UnlinkMarker;
      ok := RestoreFileState(f, OwnerEnv, Some(p.newOwnerEnv));
      if ok {
        ok := RestoreFileState(f, Env, Some(p.newEnv));
      }
      if ok {
        ok := Query(f);
        ok := ok && OidIs(catalog, p.names.target, Some(p.stagingOid));
      }
      if ok {
        ok := FinalizePromotedDatabase(f, p.names, p.stagingOid);
      }
      if ok {
        ok := Query(f);
      }
      if ok {
        ok := SetMarker(f, false);
      }
    }

    method TryToActivate(f: Faults, p: Plan) returns (reached: Reached)
      modifies this
      ensures (State(), reached) == Forward(f, old(State()), p)
      ensures Prepared(old(State()).site, p) ==> Stopped(old(State()).site, State().site, reached, p)
      ensures old(marker) ==> (marker <==> !reached.done)
    {
      ForwardFacts(f, State(), p);
      hide WriteMarker, Cutover.SwapDatabases, ActivateAssets, SwitchOver, Stopped, Prepared;
      var databaseSwapped, assetsSwapped, done := false, false, false;
      var previousDatabase: Option<string>, movedAssets := None, false;
      var ok := SetMarker(f, true);
      if ok {
        var swap := SwapDatabases(f, p.names, Some(p.stagingOid), p.targetOid);
        if swap.Swapped? {
          previousDatabase := swap.previous;
          databaseSwapped := true;
          var move := ActivateStagedAssets(f);
          if move.AssetsIn? {
            movedAssets := move.moved;
            assetsSwapped := true;
            done := SwitchService(f, p);
          }
        }
      }
      reached := Reached(databaseSwapped, previousDatabase, assetsSwapped, movedAssets, done);
    }

    method RollBackActivation(f: Faults, p: Plan, r: Reached) returns (outcome: Outcome)
      modifies this
      ensures (State(), outcome) == RollBack(f, old(State()), p, r)
      ensures old(marker) ==> (marker <==> !outcome.RolledBack?) && !outcome.Activated?
    {
      if marker {
        MarkerAtEnd(f, State(), p, r);
      }
      hide WriteMarker, UnlinkMarker, WriteFile, RollbackAssets, RollbackDatabase;
      var errors := 0;
      var ok := RestoreFileState(f, Env, p.oldEnv);
      if ok {
        ok := RestoreFileState(f, OwnerEnv, p.oldOwnerEnv);
      }
      if !ok {
        errors := errors + 1;
      }
      if r.assetsIn {
        ok := RollbackSwappedAssets(f, r.moved);
        if !ok {
          errors := errors + 1;
        }
      }
      if r.swapped {
        ok := RollbackDatabaseSwap(f, p.names, r.previous, Some(p.stagingOid), p.targetOid);
        if !ok {
          errors := errors + 1;
        }
      }
      if errors > 0 || !r.swapped || r.previous.None? {
        ok := SetMarker(f, true);
        return ManualRecovery;
      }
      ok := SetMarker(f, false);
      outcome := if ok then RolledBack else ManualRecovery;
    }

    /** The activation part of the import.  Prepared installations end all new and unmarked, all old and unmarked,
        or marked for recovery, after whichever statement the process dies, unless the double fault happened. */
    method ActivateImport(f: Faults, p: Plan) returns (outcome: Outcome)
      modifies this
      ensures (State(), outcome) == Activate(f, old(State()), p)
      ensures var start := old(State()).site;
              Prepared(start, p) && !DoubleFault(f, old(State()), p) ==>
                Safe(State().site, start, p)
                && forall i :: |old(State()).trail| <= i < |State().trail| ==> Safe(State().trail[i], start, p)
      ensures Distinct(p.names) ==> Oids(State().site.catalog) == old(Oids(State().site.catalog))
    {
      hide *;
      ActivateIs(f, State(), p);
      if Distinct(p.names) {
        CutoverFaults.ActivateKeepsOids(f, State(), p);
      }
      if Prepared(State().site, p) {
        NeverMixed(f, State(), p);
      }
      var reached := TryToActivate(f, p);
      if reached.done {
        return Activated;
      }
      outcome := RollBackActivation(f, p, reached);
    }
  }

  /** Flags a try block that did not promote can stop with. */
  predicate Interrupted(c: map<string, Database>, n: Names, flags: Flags) {
    Distinct(n) && n.staging in c && n.previous !in c && !flags.promoted && (flags.oldRenamed ==> flags.targetDisabled)
    && (flags.targetDisabled ==> flags.stageDisabled && n.target in c)
  }

  lemma TryFacts(f: Faults, m: Machine, n: Names, targetExists: bool)
    ensures var (e, flags) := SwapTry(f, m, n, targetExists);
            OnlyCatalog(m, e)
            && (Distinct(n) && n.staging in m.site.catalog && n.previous !in m.site.catalog
                && targetExists == (n.target in m.site.catalog)
                ==> e.site.catalog == Progressed(m.site.catalog, n, flags))
  {
    TryOnlyCatalog(f, m, n, targetExists);
    if Distinct(n) && n.staging in m.site.catalog && n.previous !in m.site.catalog {
      TryProgress(f, m, n);
    }
  }

  lemma UndoFacts(f: Faults, m: Machine, n: Names, flags: Flags)
    ensures var (e, ok) := SwapUndo(f, m, n, flags);
            OnlyCatalog(m, e)
            && forall c :: Interrupted(c, n, flags) && m.site.catalog == Progressed(c, n, flags) ==>
                 if ok then e.site.catalog == Reopened(c, n, flags) else HalfReopened(c, e.site.catalog, n, flags)
  {
    UndoOnlyCatalog(f, m, n, flags);
    hide SwapUndo, Progressed, Reopened, HalfReopened;
    var (e, ok) := SwapUndo(f, m, n, flags);
    forall c | Interrupted(c, n, flags) && m.site.catalog == Progressed(c, n, flags)
      ensures if ok then e.site.catalog == Reopened(c, n, flags) else HalfReopened(c, e.site.catalog, n, flags)
    {
      UndoReopens(f, m, n, flags, c);
    }
  }

  lemma ForwardFacts(f: Faults, m: Machine, p: Plan)
    ensures var (e, r) := Forward(f, m, p);
            (Prepared(m.site, p) ==> Stopped(m.site, e.site, r, p)) && (m.site.marker ==> (e.site.marker <==> !r.done))
  {
    if Prepared(m.site, p) {
      ForwardEnds(f, m, p);
    }
    if m.site.marker {
      ForwardMarked(f, m, p);
      if Forward(f, m, p).1.done {
        DoneUnmarks(f, m, p);
      }
    }
  }

  lemma DoneUnmarks(f: Faults, m: Machine, p: Plan)
    requires Forward(f, m, p).1.done
    ensures !Forward(f, m, p).0.site.marker
  {
    hide Cutover.SwapDatabases, ActivateAssets, WriteMarker, FinalizePromoted, WriteFile;
  }

  lemma ActivateIs(f: Faults, m: Machine, p: Plan)
    ensures Activate(f, m, p)
         == var (e, r) := Forward(f, m, p);
            if r.done then (e, Activated) else RollBack(f, e, p, r)
  {
  }

  lemma SwapFacts(f: Faults, m: Machine, n: Names, stagingOid: Option<nat>, targetOid: Option<nat>)
    ensures var (e, swap) := Cutover.SwapDatabases(f, m, n, stagingOid, targetOid);
            OnlyCatalog(m, e) && (Distinct(n) ==> Oids(e.site.catalog) == Oids(m.site.catalog))
            && (e.site != m.site ==>
                  OidIs(m.site.catalog, n.staging, stagingOid) && OidIs(m.site.catalog, n.target, targetOid))
  {
    SwapGuards(f, m, n, stagingOid, targetOid);
    SwapOnlyCatalog(f, m, n, stagingOid, targetOid);
    if Distinct(n) {
      SwapKeepsOids(f, m, n, stagingOid, targetOid);
    }
  }

  lemma SwapOnlyCatalog(f: Faults, m: Machine, n: Names, stagingOid: Option<nat>, targetOid: Option<nat>)
    ensures OnlyCatalog(m, Cutover.SwapDatabases(f, m, n, stagingOid, targetOid).0)
  {
    hide SwapTry, SwapUndo;
    var (q, _) := Check(f, m);
    TryOnlyCatalog(f, q, n, n.target in q.site.catalog);
    var (t, flags) := SwapTry(f, q, n, n.target in q.site.catalog);
    UndoOnlyCatalog(f, t, n, flags);
  }

  lemma TryOnlyCatalog(f: Faults, m: Machine, n: Names, targetExists: bool)
    ensures OnlyCatalog(m, SwapTry(f, m, n, targetExists).0)
  {
    hide Accepting, Renamed;
  }

  lemma UndoOnlyCatalog(f: Faults, m: Machine, n: Names, flags: Flags)
    ensures OnlyCatalog(m, SwapUndo(f, m, n, flags).0)
  {
    hide Accepting, Renamed;
  }

  lemma RollbackFacts(f: Faults, m: Machine, n: Names, previous: Option<string>, promotedOid: Option<nat>,
                      previousOid: Option<nat>)
    ensures var (e, ok) := RollbackDatabase(f, m, n, previous, promotedOid, previousOid);
            (e.site != m.site ==> OidIs(m.site.catalog, n.target, promotedOid))
            && (Distinct(n) && (previous.Some? ==> previous.value == n.previous)
                ==> Oids(e.site.catalog) == Oids(m.site.catalog))
  {
    RollbackGuards(f, m, n, previous, promotedOid, previousOid);
    hide RollbackDatabase;
    if Distinct(n) && (previous.Some? ==> previous.value == n.previous) {
      CutoverFaults.RollbackOids(f, m, n, previous, promotedOid, previousOid);
    }
  }
}
