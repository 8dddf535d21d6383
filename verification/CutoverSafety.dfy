/** Wherever activation fails or the process dies: all new, all old, or marked for recovery. */
module CutoverSafety {
  import opened Cutover
  import opened CutoverProofs

  function Get(files: map<File, string>, file: File): Option<string> {
    if file in files then Some(files[file]) else None
  }

  function AssetsOf(dirs: map<Place, string>): Option<string> { if Assets in dirs then Some(dirs[Assets]) else None }

  predicate Serves(c: map<string, Database>, name: string, oid: nat) { name in c && c[name] == Database(oid, true) }

  /** The new installation: new files, the staged assets, the staging database open under the target name. */
  predicate IsNew(s: Site, start: Site, p: Plan) {
    Get(s.files, Env) == Some(p.newEnv) && Get(s.files, OwnerEnv) == Some(p.newOwnerEnv)
    && Staged in start.dirs && AssetsOf(s.dirs) == Some(start.dirs[Staged])
    && Serves(s.catalog, p.names.target, p.stagingOid)
  }

  /** The previous installation: its files, its assets, its database open under the target name. */
  predicate IsOld(s: Site, start: Site, p: Plan) {
    Get(s.files, Env) == Get(start.files, Env) && Get(s.files, OwnerEnv) == Get(start.files, OwnerEnv)
    && AssetsOf(s.dirs) == AssetsOf(start.dirs)
    && p.targetOid.Some? && Serves(s.catalog, p.names.target, p.targetOid.value)
  }

  /** What the preparation has established when activation begins. */
  predicate Prepared(s: Site, p: Plan) {
    var n := p.names;
    s.marker && Distinct(n) && n.staging in s.catalog && s.catalog[n.staging].oid == p.stagingOid
    && n.previous !in s.catalog && n.failed !in s.catalog
    && p.targetOid == (if n.target in s.catalog then Some(s.catalog[n.target].oid) else None)
    && Staged in s.dirs && Previous !in s.dirs && Failed !in s.dirs
    && p.oldEnv == Get(s.files, Env) && p.oldOwnerEnv == Get(s.files, OwnerEnv)
  }

  /** The double fault: the previous assets were moved away, the new ones did not arrive, moving back failed too. */
  predicate Stranded(s: Site) { Assets !in s.dirs && Previous in s.dirs }

  // ---------------------------------------------------------------- assets and files

  predicate AssetsMoved(a: map<Place, string>, b: map<Place, string>, moved: bool) {
    Staged in a && Assets in b && b[Assets] == a[Staged] && moved == (Assets in a) && Failed !in b
    && (if moved then Previous in b && b[Previous] == a[Assets] else Previous !in b)
  }

  lemma ActivateEnds(f: Faults, m: Machine)
    requires Staged in m.site.dirs && Previous !in m.site.dirs && Failed !in m.site.dirs
    ensures var (e, move) := ActivateAssets(f, m);
            e.site == m.site.(dirs := e.site.dirs)
            && match move
               case AssetsIn(moved) => AssetsMoved(m.site.dirs, e.site.dirs, moved)
               case AssetsOut => e.site.dirs == m.site.dirs || (Assets in m.site.dirs && Stranded(e.site))
  {
  }

  lemma RollbackAssetsEnds(f: Faults, m: Machine, start: map<Place, string>, moved: bool)
    requires AssetsMoved(start, m.site.dirs, moved)
    ensures var (e, ok) := RollbackAssets(f, m, moved);
            e.site == m.site.(dirs := e.site.dirs) && (ok ==> AssetsOf(e.site.dirs) == AssetsOf(start))
  {
  }

  lemma RestoreFilesEnds(f: Faults, m: Machine, p: Plan)
    ensures var (e, ok) := RestoreFiles(f, m, p);
            e.site == m.site.(files := e.site.files)
            && (ok ==> Get(e.site.files, Env) == p.oldEnv && Get(e.site.files, OwnerEnv) == p.oldOwnerEnv)
  {
  }

  lemma RestoreFilesMarked(base: Machine, f: Faults, m: Machine, p: Plan)
    requires Marked(base, m)
    ensures Marked(base, RestoreFiles(f, m, p).0)
  {
    hide Marked, Do, Put;
    StatementsMarked(base, f);
  }

  // ---------------------------------------------------------------- the last steps forward

  /** The catalog between promotion and the end: the old database is still there under the previous name. */
  ghost predicate Cut(c: map<string, Database>, d: map<string, Database>, n: Names)
    requires n.staging in c
  {
    n.target in c ==> Promoted(c, d, n, Some(n.previous)) || Opened(c, d, n)
  }

  lemma OpenTarget(c: map<string, Database>, d: map<string, Database>, n: Names)
    requires n.staging in c && Distinct(n) && n.target in c && Promoted(c, d, n, Some(n.previous))
    ensures Opened(c, Accepting(d, n.target, true), n)
  {
  }

  lemma FinalizeEnds(f: Faults, m: Machine, n: Names, oid: nat)
    ensures var (e, ok) := FinalizePromoted(f, m, n, oid);
            OnlyCatalog(m, e)
            && (if ok then Serves(e.site.catalog, n.target, oid)
                && e.site.catalog == Accepting(m.site.catalog, n.target, true)
                else e.site.catalog == m.site.catalog)
  {
  }

  lemma SwitchOverEnds(f: Faults, m: Machine, p: Plan, c: map<string, Database>)
    requires Distinct(p.names) && p.names.staging in c && Promoted(c, m.site.catalog, p.names, PreviousName(c, p.names))
    ensures var (e, ok) := SwitchOver(f, m, p);
            e.site.dirs == m.site.dirs && Cut(c, e.site.catalog, p.names)
            && (ok ==> Get(e.site.files, Env) == Some(p.newEnv) && Get(e.site.files, OwnerEnv) == Some(p.newOwnerEnv)
                       && Serves(e.site.catalog, p.names.target, p.stagingOid) && !e.site.marker)
  {
    hide Promoted, Opened, FinalizePromoted, Accepting;
    var (a, _) := WriteFile(f, m, OwnerEnv, Some(p.newOwnerEnv));
    var (b, _) := WriteFile(f, a, Env, Some(p.newEnv));
    var (d, _) := Check(f, b);
    FinalizeEnds(f, d, p.names, p.stagingOid);
    if p.names.target in c {
      OpenTarget(c, m.site.catalog, p.names);
    }
  }

  function PreviousName(c: map<string, Database>, n: Names): Option<string> {
    if n.target in c then Some(n.previous) else None
  }

  /** All statements but a successful unlink leave the marker in place. */
  ghost predicate MarkedButLast(base: Machine, e: Machine, last: bool) {
    if last then
      && base.trail <= e.trail
      && forall i :: |base.trail| <= i < |e.trail| ==> e.trail[i].marker || e.trail[i] == e.site
    else Marked(base, e)
  }

  lemma UnlinkMarked(base: Machine, f: Faults, m: Machine)
    requires Marked(base, m)
    ensures var (e, ok) := UnlinkMarker(f, m);
            MarkedButLast(base, e, ok) && e.site == m.site.(marker := !ok)
  {
  }

  lemma SwitchOverMarked(base: Machine, f: Faults, m: Machine, p: Plan)
    requires Marked(base, m)
    ensures MarkedButLast(base, SwitchOver(f, m, p).0, SwitchOver(f, m, p).1)
  {
    hide Marked, Do, Put, Accepting, UnlinkMarker;
    StatementsMarked(base, f);
    hide MarkedButLast;
    Unlinks(base, f);
  }

  lemma Unlinks(base: Machine, f: Faults)
    ensures forall m: Machine :: Marked(base, m) ==> MarkedButLast(base, UnlinkMarker(f, m).0, UnlinkMarker(f, m).1)
    ensures forall m: Machine :: Marked(base, m) ==> MarkedButLast(base, m, false)
  {
    forall m: Machine | Marked(base, m)
      ensures MarkedButLast(base, UnlinkMarker(f, m).0, UnlinkMarker(f, m).1)
    {
      UnlinkMarked(base, f, m);
    }
  }

  // ---------------------------------------------------------------- activation as a whole

  /** Where the forward part can stop. */
  ghost predicate Stopped(start: Site, e: Site, r: Reached, p: Plan) {
    var c := start.catalog;
    p.names.staging in c && Staged in start.dirs
    && (!r.swapped ==> !r.assetsIn && !r.done)
    && (r.swapped ==> r.previous == PreviousName(c, p.names) && Cut(c, e.catalog, p.names))
    && (r.swapped && r.assetsIn ==> AssetsMoved(start.dirs, e.dirs, r.moved))
    && (r.swapped && !r.assetsIn ==> !r.done && (e.dirs == start.dirs || (Assets in start.dirs && Stranded(e))))
    && (r.done ==> !e.marker && IsNew(e, start, p))
  }

  lemma AfterSwap(f: Faults, m: Machine, start: Site, p: Plan, previous: Option<string>)
    requires Prepared(start, p) && Promoted(start.catalog, m.site.catalog, p.names, previous)
    requires m.site == start.(catalog := m.site.catalog) && previous == PreviousName(start.catalog, p.names)
    ensures var (a, move) := ActivateAssets(f, m);
            (move.AssetsOut? ==> Stopped(start, a.site, Reached(true, previous, false, false, false), p))
            && (move.AssetsIn? ==>
                 var (e, ok) := SwitchOver(f, a, p);
                 Stopped(start, e.site, Reached(true, previous, true, move.moved, ok), p))
  {
    hide Promoted, Opened, ActivateAssets, SwitchOver;
    ActivateEnds(f, m);
    SwitchOverEnds(f, ActivateAssets(f, m).0, p, start.catalog);
  }

  lemma ForwardEnds(f: Faults, m: Machine, p: Plan)
    requires Prepared(m.site, p)
    ensures Stopped(m.site, Forward(f, m, p).0.site, Forward(f, m, p).1, p)
  {
    hide Promoted, Opened, Cut, SwapDatabases, ActivateAssets, SwitchOver;
    var (a, ok) := WriteMarker(f, m);
    assert a.site == m.site;
    SwapEnds(f, a, p.names, Some(p.stagingOid), p.targetOid);
    var (b, swap) := SwapDatabases(f, a, p.names, Some(p.stagingOid), p.targetOid);
    if ok && swap.Swapped? {
      PreviousIs(m.site.catalog, b.site.catalog, p.names, swap.previous);
      AfterSwap(f, b, m.site, p, swap.previous);
      var (d, move) := ActivateAssets(f, b);
      assert move.AssetsOut? ==> Forward(f, m, p) == (d, Reached(true, swap.previous, false, false, false));
      assert move.AssetsIn? ==> Forward(f, m, p).0 == SwitchOver(f, d, p).0;
      assert move.AssetsIn?
        ==> Forward(f, m, p).1 == Reached(true, swap.previous, true, move.moved, SwitchOver(f, d, p).1);
    }
  }

  lemma PreviousIs(c: map<string, Database>, d: map<string, Database>, n: Names, previous: Option<string>)
    requires n.staging in c && Promoted(c, d, n, previous)
    ensures previous == PreviousName(c, n)
  {
  }

  lemma ForwardMarked(f: Faults, m: Machine, p: Plan)
    requires m.site.marker
    ensures MarkedButLast(m, Forward(f, m, p).0, Forward(f, m, p).1.done)
  {
    hide SwapDatabases, ActivateAssets, SwitchOver, MarkedButLast;
    MarkedStart(m);
    var (a, _) := WriteMarker(f, m);
    hide Marked;
    Unlinks(m, f);
    SwapMarked(m, f, a, p.names, Some(p.stagingOid), p.targetOid);
    var (b, _) := SwapDatabases(f, a, p.names, Some(p.stagingOid), p.targetOid);
    ActivateMarked(m, f, b);
    SwitchOverMarked(m, f, ActivateAssets(f, b).0, p);
  }

  lemma MarkedStart(m: Machine)
    requires m.site.marker
    ensures Marked(m, m)
  {
  }

  lemma RollBackMarked(base: Machine, f: Faults, m: Machine, p: Plan, r: Reached)
    requires Marked(base, m)
    ensures MarkedButLast(base, RollBack(f, m, p, r).0, RollBack(f, m, p, r).1.RolledBack?)
  {
    hide RestoreFiles, RollbackAssets, RollbackDatabase, Marked, MarkedButLast, Do, UnlinkMarker;
    StatementsMarked(base, f);
    Unlinks(base, f);
    RestoreFilesMarked(base, f, m, p);
    var (a, _) := RestoreFiles(f, m, p);
    RollbackAssetsMarked(base, f, a, r.moved);
    var b := if r.assetsIn then RollbackAssets(f, a, r.moved).0 else a;
    RollbackMarked(base, f, b, p.names, r.previous, Some(p.stagingOid), p.targetOid);
  }

  lemma MarkerAtEnd(f: Faults, m: Machine, p: Plan, r: Reached)
    requires m.site.marker
    ensures RollBack(f, m, p, r).0.site.marker <==> !RollBack(f, m, p, r).1.RolledBack?
    ensures !RollBack(f, m, p, r).1.Activated?
  {
    hide RestoreFiles, RollbackAssets, RollbackDatabase, Marked, Do, UnlinkMarker;
    MarkedStart(m);
    StatementsMarked(m, f);
    RestoreFilesMarked(m, f, m, p);
    var (a, _) := RestoreFiles(f, m, p);
    RollbackAssetsMarked(m, f, a, r.moved);
    var b := if r.assetsIn then RollbackAssets(f, a, r.moved).0 else a;
    RollbackMarked(m, f, b, p.names, r.previous, Some(p.stagingOid), p.targetOid);
    var d := if r.swapped then RollbackDatabase(f, b, p.names, r.previous, Some(p.stagingOid), p.targetOid).0 else b;
    UnlinkMarked(m, f, d);
  }

  /** A completed rollback restored files and database, and the assets unless they had been stranded. */
  lemma RollBackEnds(f: Faults, m: Machine, start: Site, p: Plan, r: Reached)
    requires Prepared(start, p) && Stopped(start, m.site, r, p) && m.site.marker
    requires RollBack(f, m, p, r).1.RolledBack?
    ensures IsOld(RollBack(f, m, p, r).0.site, start, p) <==> r.assetsIn || !Stranded(m.site) || Assets !in start.dirs
  {
    hide RestoreFiles, RollbackAssets, RollbackDatabase, Promoted, Opened, Restored;
    RestoreFilesEnds(f, m, p);
    var (a, filesOk) := RestoreFiles(f, m, p);
    if r.assetsIn {
      RollbackAssetsEnds(f, a, start.dirs, r.moved);
    }
    var b := if r.assetsIn then RollbackAssets(f, a, r.moved).0 else a;
    assert b.site.catalog == m.site.catalog;
    RollbackRestores(f, b, p.names, start.catalog, Some(p.stagingOid), p.targetOid);
    RestoredServes(start.catalog,
                   RollbackDatabase(f, b, p.names, r.previous, Some(p.stagingOid), p.targetOid).0.site.catalog, p);
  }

  lemma RestoredServes(c: map<string, Database>, d: map<string, Database>, p: Plan)
    requires p.names.staging in c && p.names.target in c && Restored(c, d, p.names)
    ensures Serves(d, p.names.target, c[p.names.target].oid)
  {
  }

  predicate Safe(s: Site, start: Site, p: Plan) { s.marker || IsNew(s, start, p) || IsOld(s, start, p) }

  /** The forward part ended with the previous assets moved away and the restoring rename failed as well. */
  predicate DoubleFault(f: Faults, m: Machine, p: Plan) {
    var (e, r) := Forward(f, m, p);
    r.swapped && !r.assetsIn && Assets in m.site.dirs && Stranded(e.site)
  }

  /** Every ending: activated means all new and unmarked, rolled back means unmarked and, unless the double fault
      happened, all old; otherwise the marker is there.  No earlier state is unmarked. */
  lemma ActivationEnds(f: Faults, m: Machine, p: Plan)
    requires Prepared(m.site, p)
    ensures var (e, outcome) := Activate(f, m, p);
            m.trail <= e.trail
            && (outcome.Activated? ==> !e.site.marker && IsNew(e.site, m.site, p))
            && (outcome.RolledBack? ==> !e.site.marker && (IsOld(e.site, m.site, p) <==> !DoubleFault(f, m, p)))
            && (outcome.ManualRecovery? ==> e.site.marker)
            && forall i :: |m.trail| <= i < |e.trail| ==> e.trail[i].marker || e.trail[i] == e.site
  {
    hide Forward, RollBack, Cut, IsNew, IsOld;
    ForwardEnds(f, m, p);
    ForwardMarked(f, m, p);
    var (a, r) := Forward(f, m, p);
    if !r.done {
      RollBackMarked(m, f, a, p, r);
      MarkerAtEnd(f, a, p, r);
      if RollBack(f, a, p, r).1.RolledBack? {
        RollBackEnds(f, a, m.site, p, r);
        OnlySwapped(f, a, p, r);
      }
    }
  }

  lemma OnlySwapped(f: Faults, m: Machine, p: Plan, r: Reached)
    requires RollBack(f, m, p, r).1.RolledBack?
    ensures r.swapped && r.previous.Some?
  {
    hide RestoreFiles, RollbackAssets, RollbackDatabase;
  }

  /** The process may die after any statement: what it leaves is marked, all new or all old, exactly unless the
      double fault happened and the rest of the rollback then removed the marker. */
  lemma NeverMixed(f: Faults, m: Machine, p: Plan)
    requires Prepared(m.site, p)
    ensures var (e, outcome) := Activate(f, m, p);
            (Safe(e.site, m.site, p) && forall i :: |m.trail| <= i < |e.trail| ==> Safe(e.trail[i], m.site, p))
            <==> !(DoubleFault(f, m, p) && outcome.RolledBack?)
  {
    hide Activate, DoubleFault, IsNew, IsOld;
    ActivationEnds(f, m, p);
    var (e, outcome) := Activate(f, m, p);
    if outcome.RolledBack? && DoubleFault(f, m, p) {
      NotNew(f, m, p);
    }
  }

  lemma NotNew(f: Faults, m: Machine, p: Plan)
    requires Prepared(m.site, p) && DoubleFault(f, m, p) && Activate(f, m, p).1.RolledBack?
    ensures !IsNew(Activate(f, m, p).0.site, m.site, p)
  {
    hide Forward, RestoreFiles, RollbackDatabase;
    var (a, r) := Forward(f, m, p);
    ForwardEnds(f, m, p);
    var (b, _) := RestoreFiles(f, a, p);
    RestoreFilesEnds(f, a, p);
    SameDirs(f, b, p.names, r.previous, Some(p.stagingOid), p.targetOid);
  }

  lemma SameDirs(f: Faults, m: Machine, n: Names, previous: Option<string>, promotedOid: Option<nat>,
                 previousOid: Option<nat>)
    ensures RollbackDatabase(f, m, n, previous, promotedOid, previousOid).0.site.dirs == m.site.dirs
  {
    hide Accepting, Renamed;
  }
}
