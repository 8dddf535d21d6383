/** Replacing a database, an assets directory and two env files, when any statement may fail and the process may die
    between any two of them. */
module Cutover {

  datatype Option<+T> = None | Some(value: T)

  datatype Database = Database(oid: nat, accepts: bool)

  datatype Place = Assets | Staged | Previous | Failed
  datatype File = Env | OwnerEnv

  /** What survives the process: catalog, directories, env files, recovery marker. */
  datatype Site = Site(catalog: map<string, Database>, dirs: map<Place, string>, files: map<File, string>, marker: bool)

  /** The site, the number of statements tried, and the site as each of them left it. */
  datatype Machine = Machine(site: Site, tick: nat, trail: seq<Site>)

  // Statement number t fails, without effect, when the fault pattern says so.
  type Faults = nat -> bool

  /** One statement: it takes effect as a whole or not at all. */
  function Do(f: Faults, m: Machine, enabled: bool, next: Site): (Machine, bool) {
    if f(m.tick) || !enabled then (Machine(m.site, m.tick + 1, m.trail + [m.site]), false)
    else (Machine(next, m.tick + 1, m.trail + [next]), true)
  }

  // ---------------------------------------------------------------- statements

  /** A query or a check that changes nothing; a check that finds a problem counts as a failed statement. */
  function Check(f: Faults, m: Machine): (Machine, bool) { Do(f, m, true, m.site) }

  function Accepting(c: map<string, Database>, name: string, accepts: bool): map<string, Database> {
    if name in c then c[name := c[name].(accepts := accepts)] else c
  }

  function Renamed(c: map<string, Database>, a: string, b: string): map<string, Database> {
    if a in c then (c - {a})[b := c[a]] else c
  }

  function Allow(f: Faults, m: Machine, name: string, accepts: bool): (Machine, bool) {
    Do(f, m, name in m.site.catalog, m.site.(catalog := Accepting(m.site.catalog, name, accepts)))
  }

  function RenameDatabase(f: Faults, m: Machine, a: string, b: string): (Machine, bool) {
    Do(f, m, a in m.site.catalog && b !in m.site.catalog, m.site.(catalog := Renamed(m.site.catalog, a, b)))
  }

  function Moved(dirs: map<Place, string>, a: Place, b: Place): map<Place, string> {
    if a in dirs then (dirs - {a})[b := dirs[a]] else dirs
  }

  function MoveDir(f: Faults, m: Machine, a: Place, b: Place): (Machine, bool) {
    Do(f, m, a in m.site.dirs && b !in m.site.dirs, m.site.(dirs := Moved(m.site.dirs, a, b)))
  }

  function Put(files: map<File, string>, file: File, content: Option<string>): map<File, string> {
    if content.Some? then files[file := content.value] else files - {file}
  }

  function WriteFile(f: Faults, m: Machine, file: File, content: Option<string>): (Machine, bool) {
    Do(f, m, true, m.site.(files := Put(m.site.files, file, content)))
  }

  function WriteMarker(f: Faults, m: Machine): (Machine, bool) { Do(f, m, true, m.site.(marker := true)) }

  function UnlinkMarker(f: Faults, m: Machine): (Machine, bool) { Do(f, m, true, m.site.(marker := false)) }

  // ---------------------------------------------------------------- swap_databases

  datatype Names = Names(target: string, staging: string, previous: string, failed: string)

  predicate Distinct(n: Names) {
    n.target != n.staging && n.target != n.previous && n.target != n.failed
    && n.staging != n.previous && n.staging != n.failed && n.previous != n.failed
  }

  datatype Flags = Flags(stageDisabled: bool, targetDisabled: bool, oldRenamed: bool, promoted: bool)

  function SwapTry(f: Faults, m: Machine, n: Names, targetExists: bool): (Machine, Flags) {
    var (m, ok) := Check(f, m);
    if !ok then (m, Flags(false, false, false, false))
    else
      var (m, ok) := Allow(f, m, n.staging, false);
      if !ok then (m, Flags(false, false, false, false))
      else if targetExists then CloseTarget(f, m, n) else Promote(f, m, n, Flags(true, false, false, false))
  }

  function CloseTarget(f: Faults, m: Machine, n: Names): (Machine, Flags) {
    var (m, ok) := Check(f, m);
    if !ok then (m, Flags(true, false, false, false))
    else
      var (m, ok) := Allow(f, m, n.target, false);
      if !ok then (m, Flags(true, false, false, false))
      else
        var (m, ok) := RenameDatabase(f, m, n.target, n.previous);
        if !ok then (m, Flags(true, true, false, false)) else Promote(f, m, n, Flags(true, true, true, false))
  }

  function Promote(f: Faults, m: Machine, n: Names, flags: Flags): (Machine, Flags) {
    var (m, ok) := RenameDatabase(f, m, n.staging, n.target);
    (m, flags.(promoted := ok))
  }

  /** The except block; a statement that fails here ends it, and the result says whether all of it ran. */
  function SwapUndo(f: Faults, m: Machine, n: Names, flags: Flags): (Machine, bool) {
    var (m, ok) := if flags.promoted then RenameDatabase(f, m, n.target, n.staging) else (m, true);
    if !ok then (m, false)
    else
      var (m, ok) := if flags.stageDisabled then Allow(f, m, n.staging, true) else (m, true);
      if !ok then (m, false)
      else
        var (m, ok) := if flags.oldRenamed then RenameDatabase(f, m, n.previous, n.target) else (m, true);
        if !ok then (m, false)
        else if flags.targetDisabled then Allow(f, m, n.target, true) else (m, true)
  }

  datatype Swap =
    | Swapped(previous: Option<string>)
    | Untouched                     // refused before the first ALTER
    | Undone(flags: Flags)          // failed, and the whole except block ran
    | HalfUndone(flags: Flags)      // failed, and the except block failed too

  function OidIs(c: map<string, Database>, name: string, expected: Option<nat>): bool {
    expected.Some? ==> name in c && c[name].oid == expected.value
  }

  function SwapDatabases(f: Faults, m: Machine, n: Names, stagingOid: Option<nat>,
                         targetOid: Option<nat>): (Machine, Swap)
  {
    var (m, ok) := Check(f, m);
    if !ok || n.staging !in m.site.catalog || !OidIs(m.site.catalog, n.staging, stagingOid)
       || !OidIs(m.site.catalog, n.target, targetOid) then (m, Untouched)
    else
      var targetExists := n.target in m.site.catalog;
      var (m, flags) := SwapTry(f, m, n, targetExists);
      if flags.promoted then (m, Swapped(if targetExists then Some(n.previous) else None))
      else
        var (m, ok) := SwapUndo(f, m, n, flags);
        (m, if ok then Undone(flags) else HalfUndone(flags))
  }

  // ---------------------------------------------------------------- the rest of the cutover

  function FinalizePromoted(f: Faults, m: Machine, n: Names, oid: nat): (Machine, bool) {
    var (m, ok) := Check(f, m);
    if !ok || !OidIs(m.site.catalog, n.target, Some(oid)) || m.site.catalog[n.target].accepts then (m, false)
    else Allow(f, m, n.target, true)
  }

  function RollbackDatabase(f: Faults, m: Machine, n: Names, previous: Option<string>,
                            promotedOid: Option<nat>, previousOid: Option<nat>): (Machine, bool)
  {
    var (m, ok) := Check(f, m);
    if !ok || !OidIs(m.site.catalog, n.target, promotedOid)
       || (previousOid.Some? && (previous.None? || !OidIs(m.site.catalog, previous.value, previousOid))) then (m, false)
    else
      var (m, ok) := Check(f, m);
      if !ok then (m, false)
      else
        var (m, ok) := Allow(f, m, n.target, false);
        if !ok then (m, false)
        else
          var (m, ok) := RenameDatabase(f, m, n.target, n.failed);
          if !ok || previous.None? then (m, ok) else RestorePrevious(f, m, n, previous.value)
  }

  function RestorePrevious(f: Faults, m: Machine, n: Names, previous: string): (Machine, bool) {
    var (m, ok) := Check(f, m);
    if !ok then (m, false)
    else
      var (m, ok) := RenameDatabase(f, m, previous, n.target);
      if !ok then (m, false) else Allow(f, m, n.target, true)
  }

  datatype AssetMove = AssetsIn(moved: bool) | AssetsOut

  /** Move the staged directory in; on failure move the previous one back, if that does not fail as well. */
  function ActivateAssets(f: Faults, m: Machine): (Machine, AssetMove) {
    var had := Assets in m.site.dirs;
    var (m, ok) := if had then MoveDir(f, m, Assets, Previous) else (m, true);
    if !ok then (m, AssetsOut)
    else
      var (m, ok) := MoveDir(f, m, Staged, Assets);
      if ok then (m, AssetsIn(had))
      else if had && Previous in m.site.dirs && Assets !in m.site.dirs then
        (MoveDir(f, m, Previous, Assets).0, AssetsOut)
      else (m, AssetsOut)
  }

  function RollbackAssets(f: Faults, m: Machine, moved: bool): (Machine, bool) {
    var (m, ok) := if Assets in m.site.dirs then MoveDir(f, m, Assets, Failed) else (m, true);
    if !ok then (m, false)
    else if moved && Previous in m.site.dirs then MoveDir(f, m, Previous, Assets) else (m, true)
  }

  datatype Plan = Plan(names: Names, stagingOid: nat, targetOid: Option<nat>, newEnv: string, newOwnerEnv: string,
                       oldEnv: Option<string>, oldOwnerEnv: Option<string>)

  datatype Reached = Reached(swapped: bool, previous: Option<string>, assetsIn: bool, moved: bool, done: bool)

  function Forward(f: Faults, m: Machine, p: Plan): (Machine, Reached) {
    var (m, ok) := WriteMarker(f, m);
    if !ok then (m, Reached(false, None, false, false, false))
    else
      var (m, swap) := SwapDatabases(f, m, p.names, Some(p.stagingOid), p.targetOid);
      if !swap.Swapped? then (m, Reached(false, None, false, false, false))
      else
        var (m, move) := ActivateAssets(f, m);
        if move.AssetsOut? then (m, Reached(true, swap.previous, false, false, false))
        else
          var (m, ok) := SwitchOver(f, m, p);
          (m, Reached(true, swap.previous, true, move.moved, ok))
  }

  /** Env files, identity check, opening the database, privilege check, and the marker as the last statement. */
  function SwitchOver(f: Faults, m: Machine, p: Plan): (Machine, bool) {
    var (m, ok) := WriteFile(f, m, OwnerEnv, Some(p.newOwnerEnv));
    if !ok then (m, false)
    else
      var (m, ok) := WriteFile(f, m, Env, Some(p.newEnv));
      if !ok then (m, false)
      else
        var (m, ok) := Check(f, m);
        if !ok || !OidIs(m.site.catalog, p.names.target, Some(p.stagingOid)) then (m, false)
        else
          var (m, ok) := FinalizePromoted(f, m, p.names, p.stagingOid);
          if !ok then (m, false)
          else
            var (m, ok) := Check(f, m);
            if !ok then (m, false) else UnlinkMarker(f, m)
  }

  datatype Outcome =
    | Activated        // the new installation is in place
    | RolledBack       // the previous installation is in place
    | ManualRecovery   // the operator must look at the marker

  function RestoreFiles(f: Faults, m: Machine, p: Plan): (Machine, bool) {
    var (m, ok) := WriteFile(f, m, Env, p.oldEnv);
    if !ok then (m, false) else WriteFile(f, m, OwnerEnv, p.oldOwnerEnv)
  }

  function RollBack(f: Faults, m: Machine, p: Plan, r: Reached): (Machine, Outcome) {
    var (m, filesOk) := RestoreFiles(f, m, p);
    var (m, assetsOk) := if r.assetsIn then RollbackAssets(f, m, r.moved) else (m, true);
    var (m, databaseOk) :=
      if r.swapped then RollbackDatabase(f, m, p.names, r.previous, Some(p.stagingOid), p.targetOid) else (m, true);
    if !(filesOk && assetsOk && databaseOk) || !r.swapped || r.previous.None? then
      (WriteMarker(f, m).0, ManualRecovery)
    else
      var (m, ok) := UnlinkMarker(f, m);
      (m, if ok then RolledBack else ManualRecovery)
  }

  /** The activation part of an import. */
  function Activate(f: Faults, m: Machine, p: Plan): (Machine, Outcome) {
    var (m, r) := Forward(f, m, p);
    if r.done then (m, Activated) else RollBack(f, m, p, r)
  }
}
