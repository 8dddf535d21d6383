/** One DuckDB handle per process, shared by the nested connections of one thread under a re-entrant lock. */
module DuckHandle {

  datatype Option<+T> = None | Some(value: T)

  type Thread = nat

  /** The thread-local state of a thread that holds a connection. */
  datatype Local = Local(connection: nat, path: string, depth: nat)

  /** Where a thread is inside acquire or release. */
  datatype Place =
    | Outside
    | Entered(path: string)      // acquire has taken the lock
    | Connecting(path: string)   // acquire is opening the file
    | Closing                    // release is closing the handle
    | Leaving                    // about to give the lock back once

  /** The lock with its owner and hold count, all thread-local states, the handles the manager holds, those the engine
      has open (a failed close may leave one behind), and how many closes have failed. */
  datatype Manager = Manager(owner: Option<Thread>, count: nat, locals: map<Thread, Local>, places: map<Thread, Place>,
                             serial: nat, held: set<nat>, open: set<nat>, failed: nat)

  const START := Manager(None, 0, map[], map[], 0, {}, {}, 0)

  function At(m: Manager, t: Thread): Place { if t in m.places then m.places[t] else Outside }

  datatype Step =
    | Enter(t: Thread, path: string)   // acquire: self._lock.acquire()
    | Look(t: Thread)                  // acquire: nested call or not
    | Connect(t: Thread, works: bool)  // acquire: duckdb.connect
    | Drop(t: Thread)                  // release: one level less
    | Close(t: Thread, works: bool)    // release: connection.close and clearing the state
    | Unlock(t: Thread)                // self._lock.release()

  function Moved(m: Manager, t: Thread, p: Place): Manager { m.(places := m.places[t := p]) }

  /** One step of one thread; a step that is not next for its thread, or must wait for the lock, changes nothing. */
  function Do(m: Manager, s: Step): Manager {
    match s
    case Enter(t, path) =>
      if At(m, t) == Outside && (m.owner == None || m.owner == Some(t)) then
        Moved(m.(owner := Some(t), count := m.count + 1), t, Entered(path))
      else m
    case Look(t) =>
      if At(m, t).Entered? then
        if t !in m.locals then Moved(m, t, Connecting(At(m, t).path))
        else if m.locals[t].path != At(m, t).path then Moved(m, t, Leaving)
        else Moved(m.(locals := m.locals[t := m.locals[t].(depth := m.locals[t].depth + 1)]), t, Outside)
      else m
    case Connect(t, works) =>
      if At(m, t).Connecting? then
        if works then
          Moved(m.(locals := m.locals[t := Local(m.serial, At(m, t).path, 1)], serial := m.serial + 1,
                   held := m.held + {m.serial}, open := m.open + {m.serial}),
                t, Outside)
        else Moved(m, t, Leaving)
      else m
    case Drop(t) =>
      if At(m, t) == Outside && t in m.locals && m.locals[t].depth > 0 then
        Moved(m.(locals := m.locals[t := m.locals[t].(depth := m.locals[t].depth - 1)]),
              t, if m.locals[t].depth == 1 then Closing else Leaving)
      else m
    case Close(t, works) =>
      if At(m, t) == Closing && t in m.locals then
        Moved(m.(locals := m.locals - {t}, held := m.held - {m.locals[t].connection},
                 open := if works then m.open - {m.locals[t].connection} else m.open,
                 failed := if works then m.failed else m.failed + 1),
              t, Leaving)
      else m
    case Unlock(t) =>
      if At(m, t) == Leaving && m.owner == Some(t) && m.count > 0 then
        Moved(m.(count := m.count - 1, owner := if m.count == 1 then None else m.owner), t, Outside)
      else m
  }

  function Run(m: Manager, steps: seq<Step>): Manager
    decreases |steps|
  {
    if steps == [] then m else Run(Do(m, steps[0]), steps[1..])
  }

  // ---------------------------------------------------------------- the invariant

  function Depth(m: Manager, t: Thread): nat { if t in m.locals then m.locals[t].depth else 0 }

  /** How often a thread has locked: once per level, and once more while it is inside a call. */
  function Holds(m: Manager, t: Thread): nat { Depth(m, t) + if At(m, t) == Outside then 0 else 1 }

  predicate Quiet(m: Manager, t: Thread) { t !in m.locals && At(m, t) == Outside }

  ghost predicate Ok(m: Manager) {
    && (m.owner.None? ==> m.count == 0)
    && (m.owner.Some? ==> m.count == Holds(m, m.owner.value) > 0)
    && (forall t: Thread :: m.owner != Some(t) ==> Quiet(m, t))
    && (forall t :: t in m.locals ==>
          (m.locals[t].depth == 0 <==> At(m, t) == Closing) && !At(m, t).Connecting?
            && m.held == {m.locals[t].connection})
    && (forall t: Thread :: At(m, t) == Closing ==> t in m.locals)
    && (m.owner.None? || m.owner.value !in m.locals ==> m.held == {})
  }

  lemma DoOk(m: Manager, s: Step)
    requires Ok(m)
    ensures Ok(Do(m, s))
  {
    var t := s.t;
    assert m.owner != Some(t) ==> Quiet(m, t);
    assert forall u: Thread :: u != t ==> At(Do(m, s), u) == At(m, u);
    forall u: Thread | u in m.locals ensures m.owner == Some(u) {
      assert !Quiet(m, u);
    }
  }

  /** Handles are numbered as they are opened, and every open one the manager no longer holds is a failed close. */
  ghost predicate HandlesOk(m: Manager) {
    m.held <= m.open && |m.open - m.held| <= m.failed && forall h :: h in m.open ==> h < m.serial
  }

  predicate SameHandles(m: Manager, e: Manager) {
    e.held == m.held && e.open == m.open && e.failed == m.failed && e.serial == m.serial
  }

  lemma DoHandles(m: Manager, s: Step)
    ensures var e := Do(m, s);
            SameHandles(m, e)
            || (e.held == m.held + {m.serial} && e.open == m.open + {m.serial} && e.failed == m.failed
                && e.serial == m.serial + 1)
            || (s.t in m.locals && e.serial == m.serial &&
                var c := m.locals[s.t].connection;
                e.held == m.held - {c}
                && (if s.Close? && s.works then e.open == m.open - {c} && e.failed == m.failed
                    else e.open == m.open && e.failed == m.failed + 1))
  {
  }

  lemma OpensOne(held: set<nat>, open: set<nat>, h: nat)
    requires held <= open && h !in open
    ensures held + {h} <= open + {h} && (open + {h}) - (held + {h}) == open - held
  {
  }

  lemma ClosesOne(held: set<nat>, open: set<nat>, c: nat)
    requires held == {c} && held <= open
    ensures held - {c} == {} && (open - {c}) - (held - {c}) == open - held
    ensures |open - (held - {c})| == |open - held| + 1
  {
    assert open - (held - {c}) == (open - held) + {c};
  }

  lemma DoHandlesOk(m: Manager, s: Step)
    requires Ok(m) && HandlesOk(m)
    ensures HandlesOk(Do(m, s))
  {
    DoHandles(m, s);
    var e := Do(m, s);
    HeldBy(m, s.t);
    hide Do, Ok;
    assert m.serial !in m.open;
    OpensOne(m.held, m.open, m.serial);
    if e.serial == m.serial && !SameHandles(m, e) {
      ClosesOne(m.held, m.open, m.locals[s.t].connection);
    }
  }

  lemma HeldBy(m: Manager, t: Thread)
    requires Ok(m)
    ensures t in m.locals ==> m.held == {m.locals[t].connection}
  {
  }

  /** Under every interleaving: the hold count of the lock is the owner's depth plus one while it is inside a call,
      every other thread has no state, and at most one handle is held. */
  lemma {:induction false} AlwaysOk(m: Manager, steps: seq<Step>)
    requires Ok(m)
    ensures Ok(Run(m, steps))
    ensures HandlesOk(m) ==> HandlesOk(Run(m, steps))
    decreases |steps|
  {
    hide Ok, HandlesOk, Do;
    if steps != [] {
      DoOk(m, steps[0]);
      if HandlesOk(m) {
        DoHandlesOk(m, steps[0]);
      }
      AlwaysOk(Do(m, steps[0]), steps[1..]);
    }
  }

  lemma StartIsOk()
    ensures Ok(START) && HandlesOk(START)
  {
  }

  /** Whatever the threads of a process do: at most one handle is held, none while the lock is free; the engine has at
      most one more handle open than closes have failed; only the lock's owner has connection state. */
  lemma OneHandle(steps: seq<Step>, t: Thread, u: Thread)
    ensures var m := Run(START, steps);
            |m.held| <= 1 && (m.owner.None? ==> m.held == {}) && |m.open| <= 1 + m.failed
            && (t in m.locals && u in m.locals ==> t == u && m.owner == Some(t))
  {
    hide Run;
    StartIsOk();
    AlwaysOk(START, steps);
    HeldIsOne(Run(START, steps), t, u);
  }

  lemma HeldIsOne(m: Manager, t: Thread, u: Thread)
    requires Ok(m) && HandlesOk(m)
    ensures |m.held| <= 1 && (m.owner.None? ==> m.held == {}) && |m.open| <= 1 + m.failed
    ensures t in m.locals && u in m.locals ==> t == u && m.owner == Some(t)
  {
    assert m.owner != Some(t) ==> Quiet(m, t);
    assert m.owner != Some(u) ==> Quiet(m, u);
    if m.owner.Some? && m.owner.value in m.locals {
      assert m.held == {m.locals[m.owner.value].connection};
    }
    assert m.open == m.held + (m.open - m.held);
  }

  /** Giving the lock back never fails for want of ownership, and a level is only dropped where there is one. */
  lemma NeverUnderflows(m: Manager, t: Thread)
    requires Ok(m)
    ensures At(m, t) == Leaving ==> m.owner == Some(t) && m.count > 0
    ensures At(m, t) == Outside && t in m.locals ==> m.locals[t].depth > 0
  {
    assert m.owner != Some(t) ==> Quiet(m, t);
  }

  // ---------------------------------------------------------------- whole calls

  function AcquireSteps(t: Thread, path: string, works: bool): seq<Step> {
    [Enter(t, path), Look(t), Connect(t, works), Unlock(t)]
  }

  function ReleaseSteps(t: Thread, works: bool): seq<Step> { [Drop(t), Close(t, works), Unlock(t)] }

  lemma RunOne(m: Manager, s: Step, rest: seq<Step>)
    ensures Run(m, [s] + rest) == Run(Do(m, s), rest)
  {
    assert ([s] + rest)[1..] == rest;
  }

  lemma RunAcquire(m: Manager, t: Thread, path: string, works: bool)
    ensures Run(m, AcquireSteps(t, path, works))
            == Do(Do(Do(Do(m, Enter(t, path)), Look(t)), Connect(t, works)), Unlock(t))
  {
    hide Do;
    assert AcquireSteps(t, path, works) == [Enter(t, path)] + ([Look(t)] + ([Connect(t, works)] + ([Unlock(t)] + [])));
    RunOne(m, Enter(t, path), [Look(t)] + ([Connect(t, works)] + ([Unlock(t)] + [])));
    var a := Do(m, Enter(t, path));
    RunOne(a, Look(t), [Connect(t, works)] + ([Unlock(t)] + []));
    RunOne(Do(a, Look(t)), Connect(t, works), [Unlock(t)] + []);
    RunOne(Do(Do(a, Look(t)), Connect(t, works)), Unlock(t), []);
  }

  lemma RunRelease(m: Manager, t: Thread, works: bool)
    ensures Run(m, ReleaseSteps(t, works)) == Do(Do(Do(m, Drop(t)), Close(t, works)), Unlock(t))
  {
    hide Do;
    assert ReleaseSteps(t, works) == [Drop(t)] + ([Close(t, works)] + ([Unlock(t)] + []));
    RunOne(m, Drop(t), [Close(t, works)] + ([Unlock(t)] + []));
    RunOne(Do(m, Drop(t)), Close(t, works), [Unlock(t)] + []);
    RunOne(Do(Do(m, Drop(t)), Close(t, works)), Unlock(t), []);
  }

  /** The thread is between calls and need not wait for the lock. */
  predicate Free(m: Manager, t: Thread) { At(m, t) == Outside && (m.owner == None || m.owner == Some(t)) }

  predicate SameLock(m: Manager, e: Manager) {
    e.owner == m.owner && e.count == m.count && e.locals == m.locals && e.held == m.held
  }

  /** A nested call deepens the same handle; a first call opens one; another path or a failed open change nothing. */
  lemma AcquireEnds(m: Manager, t: Thread, path: string, works: bool)
    requires Ok(m) && Free(m, t)
    ensures var e := Run(m, AcquireSteps(t, path, works));
            Ok(e) && At(e, t) == Outside
            && (if t in m.locals && m.locals[t].path == path then
                  e.count == m.count + 1 && e.locals == m.locals[t := m.locals[t].(depth := m.locals[t].depth + 1)]
                    && e.held == m.held
                else if t !in m.locals && works then
                  e.owner == Some(t) && e.count == 1 && e.locals == m.locals[t := Local(m.serial, path, 1)]
                    && e.held == {m.serial}
                else SameLock(m, e))
  {
    AlwaysOk(m, AcquireSteps(t, path, works));
    FreeFacts(m, t);
    if t in m.locals {
      AcquireNested(m, t, path, works);
    } else {
      AcquireFirst(m, t, path, works);
    }
    hide Ok, Do, Run, AcquireSteps;
  }

  lemma AcquireNested(m: Manager, t: Thread, path: string, works: bool)
    requires t in m.locals && m.owner == Some(t) && m.count > 0 && At(m, t) == Outside
    ensures var e := Run(m, AcquireSteps(t, path, works));
            At(e, t) == Outside
            && (if m.locals[t].path == path then
                  e.count == m.count + 1 && e.locals == m.locals[t := m.locals[t].(depth := m.locals[t].depth + 1)]
                    && e.held == m.held
                else SameLock(m, e))
  {
    RunAcquire(m, t, path, works);
    hide Run, AcquireSteps;
  }

  lemma AcquireFirst(m: Manager, t: Thread, path: string, works: bool)
    requires t !in m.locals && m.owner == None && m.count == 0 && m.held == {} && At(m, t) == Outside
    ensures var e := Run(m, AcquireSteps(t, path, works));
            At(e, t) == Outside
            && (if works then
                  e.owner == Some(t) && e.count == 1 && e.locals == m.locals[t := Local(m.serial, path, 1)]
                    && e.held == {m.serial}
                else SameLock(m, e))
  {
    RunAcquire(m, t, path, works);
    hide Run, AcquireSteps;
  }

  lemma FreeFacts(m: Manager, t: Thread)
    requires Ok(m) && Free(m, t)
    ensures t in m.locals ==> m.owner == Some(t) && m.count > 0
    ensures t !in m.locals ==> m.owner == None && m.count == 0 && m.held == {}
  {
    assert m.owner != Some(t) ==> Quiet(m, t);
  }

  /** The last release frees the lock and forgets the handle whether or not the close worked; the others give back
      one level. */
  lemma ReleaseEnds(m: Manager, t: Thread, works: bool)
    requires Ok(m) && At(m, t) == Outside && t in m.locals
    ensures var e := Run(m, ReleaseSteps(t, works));
            Ok(e) && At(e, t) == Outside
            && (if m.locals[t].depth == 1 then e.owner == None && e.count == 0 && t !in e.locals && e.held == {}
                else e.owner == m.owner && e.count == m.count - 1 && e.held == m.held
                     && e.locals == m.locals[t := m.locals[t].(depth := m.locals[t].depth - 1)])
  {
    RunRelease(m, t, works);
    AlwaysOk(m, ReleaseSteps(t, works));
    NeverUnderflows(m, t);
    assert m.owner != Some(t) ==> Quiet(m, t);
    hide Run, ReleaseSteps;
  }

  /** As many releases as levels free the lock for every other thread, however many closes fail. */
  lemma {:induction false} ReleasesFree(m: Manager, t: Thread, works: seq<bool>, u: Thread)
    requires Ok(m) && At(m, t) == Outside && |works| == Depth(m, t) && t in m.locals
    ensures Free(Releases(m, t, works), u) && Releases(m, t, works).held == {}
    decreases |works|
  {
    NeverUnderflows(m, t);
    hide Run, Ok, ReleaseSteps;
    ReleaseEnds(m, t, works[0]);
    var e := Run(m, ReleaseSteps(t, works[0]));
    if |works| > 1 {
      ReleasesFree(e, t, works[1..], u);
    } else {
      QuietWhenFree(e, u);
    }
  }

  lemma QuietWhenFree(m: Manager, u: Thread)
    requires Ok(m) && m.owner == None
    ensures Free(m, u)
  {
    assert Quiet(m, u);
  }

  function Releases(m: Manager, t: Thread, works: seq<bool>): Manager
    decreases |works|
  {
    if works == [] then m else Releases(Run(m, ReleaseSteps(t, works[0])), t, works[1..])
  }

  /** Steps that are not next change nothing. */
  lemma NotNow(m: Manager, t: Thread, works: bool)
    ensures !At(m, t).Connecting? ==> Do(m, Connect(t, works)) == m
    ensures At(m, t) != Leaving ==> Do(m, Unlock(t)) == m
  {
  }

  lemma NotClosing(m: Manager, t: Thread, works: bool)
    ensures At(m, t) != Closing ==> Do(m, Close(t, works)) == m
  {
  }

  // ---------------------------------------------------------------- the class

  class SerializedDuckDBManager {
    var owner: Option<Thread>
    var count: nat
    var locals: map<Thread, Local>
    var serial: nat
    ghost var places: map<Thread, Place>
    ghost var held: set<nat>
    ghost var open: set<nat>
    ghost var failed: nat

    ghost function State(): Manager
      reads this
    {
      Manager(owner, count, locals, places, serial, held, open, failed)
    }

    constructor ()
      ensures State() == START
    {
      owner, count, locals, serial := None, 0, map[], 0;
      places, held, open, failed := map[], {}, {}, 0;
    }

    method TakeLock(t: Thread, path: string)
      requires Free(State(), t)
      modifies this
      ensures State() == Do(old(State()), Enter(t, path))
      ensures At(State(), t) == Entered(path) && owner == Some(t) && count > 0 && locals == old(locals)
              && held == old(held)
    {
      owner, count, places := Some(t), count + 1, places[t := Entered(path)];
    }

    /** The active connection of a nested call on the same path. */
    method LookUp(t: Thread, path: string) returns (active: Option<nat>)
      requires At(State(), t) == Entered(path)
      modifies this
      ensures State() == Do(old(State()), Look(t)) && owner == old(owner) && count == old(count)
      ensures active == if t in old(locals) && old(locals)[t].path == path then Some(old(locals)[t].connection)
                        else None
      ensures if t !in old(locals) then At(State(), t) == Connecting(path)
              else At(State(), t) == if active.Some? then Outside else Leaving
      ensures active.Some? ==> t in locals && locals[t].connection == active.value && held == old(held)
    {
      if t !in locals {
        places := places[t := Connecting(path)];
        return None;
      }
      if locals[t].path != path {
        places := places[t := Leaving];
        return None;
      }
      locals, places := locals[t := locals[t].(depth := locals[t].depth + 1)], places[t := Outside];
      active := Some(locals[t].connection);
    }

    method Open(t: Thread, path: string, works: bool) returns (connection: Option<nat>)
      requires At(State(), t) == Connecting(path)
      modifies this
      ensures State() == Do(old(State()), Connect(t, works)) && owner == old(owner) && count == old(count)
      ensures connection.Some? <==> works
      ensures At(State(), t) == if works then Outside else Leaving
      ensures works ==> t in locals && locals[t].connection == connection.value && connection.value in held
    {
      if !works {
        places := places[t := Leaving];
        return None;
      }
      locals := locals[t := Local(serial, path, 1)];
      serial, held, open, places := serial + 1, held + {serial}, open + {serial}, places[t := Outside];
      connection := Some(locals[t].connection);
    }

    /** acquire, once the lock is available to the thread; no connection is an exception. */
    method Acquire(t: Thread, path: string, works: bool) returns (connection: Option<nat>)
      requires Ok(State()) && Free(State(), t)
      modifies this
      ensures State() == Run(old(State()), AcquireSteps(t, path, works))
      ensures connection.Some? ==> t in locals && locals[t].connection == connection.value && connection.value in held
      ensures connection.None? <==> (if t in old(locals) then old(locals)[t].path != path else !works)
    {
      RunAcquire(State(), t, path, works);
      assert t in locals ==> locals[t].connection in held;
      hide Ok, Run, AcquireSteps, Do;
      TakeLock(t, path);
      var nested := t in locals;
      connection := LookUp(t, path);
      if !nested {
        connection := Open(t, path, works);
      }
      NotNow(State(), t, works);
      if connection.None? {
        ReleaseLock(t);
      }
    }

    method ReleaseLock(t: Thread)
      requires At(State(), t) == Leaving && owner == Some(t) && count > 0
      modifies this
      ensures State() == Do(old(State()), Unlock(t))
    {
      count := count - 1;
      owner := if count == 0 then None else owner;
      places := places[t := Outside];
    }

    method DropLevel(t: Thread)
      requires At(State(), t) == Outside && t in locals && locals[t].depth > 0
      modifies this
      ensures State() == Do(old(State()), Drop(t)) && owner == old(owner) && count == old(count)
      ensures t in locals && locals[t].depth == old(locals[t].depth) - 1
      ensures At(State(), t) == if locals[t].depth == 0 then Closing else Leaving
    {
      var depth := locals[t].depth - 1;
      locals := locals[t := locals[t].(depth := depth)];
      places := places[t := if depth == 0 then Closing else Leaving];
    }

    /** close(), and whether it worked or not, forgetting the connection. */
    method CloseHandle(t: Thread, works: bool)
      requires At(State(), t) == Closing && t in locals
      modifies this
      ensures State() == Do(old(State()), Close(t, works)) && owner == old(owner) && count == old(count)
      ensures At(State(), t) == Leaving
    {
      if works {
        open := open - {locals[t].connection};
      } else {
        failed := failed + 1;
      }
      held, locals, places := held - {locals[t].connection}, locals - {t}, places[t := Leaving];
    }

    /** release; without an active connection, or when the close fails, it raises. */
    method Release(t: Thread, works: bool) returns (ok: bool)
      requires Ok(State()) && At(State(), t) == Outside
      modifies this
      ensures t !in old(locals) ==> State() == old(State()) && !ok
      ensures t in old(locals) ==> State() == Run(old(State()), ReleaseSteps(t, works))
      ensures t in old(locals) ==> (ok <==> old(locals)[t].depth > 1 || works)
    {
      RunRelease(State(), t, works);
      NeverUnderflows(State(), t);
      assert owner != Some(t) ==> Quiet(State(), t);
      assert t in locals ==> owner == Some(t) && count > 0;
      hide Ok, Run, ReleaseSteps, Do;
      if t !in locals {
        return false;
      }
      DropLevel(t);
      NotClosing(State(), t, works);
      ok := true;
      if locals[t].depth == 0 {
        ok := works;
        CloseHandle(t, works);
      }
      ReleaseLock(t);
    }
  }
}
