/** How many rows are RUNNING: the process slots bound subprocesses, not rows. */
module RunnerSlots {
  import opened RunnerTypes
  import opened RunnerTables
  import opened RunnerSystem
  import opened HistoryInvariant
  import opened OutboxInvariant
  import opened DeliveryInvariant
  import opened OwnerInvariant
  import opened SystemInvariant
  import opened RunnerTheorems

  function RunningRows(runs: map<RunId, Row>): set<RunId> { set id | id in runs && runs[id].run.status.Running? }

  function AliveTasks(tasks: map<string, Task>): set<string> { set k | k in tasks && tasks[k].phase.Alive? }

  function ExitedTasks(tasks: map<string, Task>): set<string> { set k | k in tasks && tasks[k].phase.Exited? }

  /** RUNNING rows whose thread died before it could store a result. */
  function Orphans(s: System): set<RunId> {
    set id | id in RunningRows(s.db.runs) && forall k :: k in s.tasks ==> id !in s.tasks[k].runs
  }

  /** The runs the given threads are at. */
  function Currents(tasks: map<string, Task>, keys: set<string>): set<RunId> {
    set k | k in keys && k in tasks && tasks[k].pos < |tasks[k].runs| :: tasks[k].runs[tasks[k].pos]
  }

  // ---------------------------------------------------------------- one row per thread

  /** A thread's RUNNING row is the one it is at, once its start has been recorded. */
  lemma TaskFacts(db: Db, k: string, t: Task)
    requires TaskOk(db, k, t)
    ensures t.pos < |t.runs| && forall i :: 0 <= i < |t.runs| ==> t.runs[i] in db.runs
    ensures db.runs[t.runs[t.pos]].run.status.Running? <==> t.phase.Alive? || t.phase.Exited?
    ensures forall i :: 0 <= i < |t.runs| && db.runs[t.runs[i]].run.status.Running? ==> i == t.pos
  {
  }

  lemma TaskAt(s: System, k: string)
    requires SystemOk(s) && k in s.tasks
    ensures TaskOk(s.db, k, s.tasks[k]) && s.tasks[k].pos < |s.tasks[k].runs|
  {
    hide OutboxOk, HistoryOk, DeliveryOk, TaskOk;
    assert TaskOk(s.db, k, s.tasks[k]);
    TaskFacts(s.db, k, s.tasks[k]);
  }

  lemma {:induction false} CurrentsSize(s: System, keys: set<string>)
    requires SystemOk(s) && keys <= s.tasks.Keys
    ensures |Currents(s.tasks, keys)| == |keys|
    decreases keys
  {
    hide SystemOk, TaskOk;
    if keys == {} {
      assert Currents(s.tasks, keys) == {};
    } else {
      var k :| k in keys;
      var rest := keys - {k};
      CurrentsSize(s, rest);
      TaskAt(s, k);
      var id := s.tasks[k].runs[s.tasks[k].pos];
      assert Currents(s.tasks, keys) == Currents(s.tasks, rest) + {id};
      assert id in s.tasks[k].runs;
      forall l | l in rest ensures id !in s.tasks[l].runs {
        Apart(s, k, l);
      }
      assert id !in Currents(s.tasks, rest);
    }
  }

  lemma RunningOfTask(s: System, k: string, id: RunId)
    requires SystemOk(s) && k in s.tasks && id in s.tasks[k].runs && id in RunningRows(s.db.runs)
    ensures s.tasks[k].pos < |s.tasks[k].runs| && s.tasks[k].runs[s.tasks[k].pos] == id
    ensures k in AliveTasks(s.tasks) || k in ExitedTasks(s.tasks)
  {
    hide SystemOk, TaskOk;
    TaskAt(s, k);
    TaskFacts(s.db, k, s.tasks[k]);
    var i :| 0 <= i < |s.tasks[k].runs| && s.tasks[k].runs[i] == id;
  }

  lemma CurrentsRun(s: System, k: string)
    requires SystemOk(s) && (k in AliveTasks(s.tasks) || k in ExitedTasks(s.tasks))
    ensures s.tasks[k].pos < |s.tasks[k].runs| && s.tasks[k].runs[s.tasks[k].pos] in RunningRows(s.db.runs)
  {
    hide SystemOk, TaskOk;
    TaskAt(s, k);
    TaskFacts(s.db, k, s.tasks[k]);
  }

  lemma RunningSplit(s: System)
    requires SystemOk(s)
    ensures RunningRows(s.db.runs)
         == Currents(s.tasks, AliveTasks(s.tasks) + ExitedTasks(s.tasks)) + Orphans(s)
    ensures Currents(s.tasks, AliveTasks(s.tasks) + ExitedTasks(s.tasks)) !! Orphans(s)
  {
    hide SystemOk;
    var keys := AliveTasks(s.tasks) + ExitedTasks(s.tasks);
    forall id | id in Currents(s.tasks, keys) ensures id in RunningRows(s.db.runs) && id !in Orphans(s) {
      var k :| k in keys && k in s.tasks && s.tasks[k].pos < |s.tasks[k].runs| && s.tasks[k].runs[s.tasks[k].pos] == id;
      CurrentsRun(s, k);
    }
    forall id | id in RunningRows(s.db.runs) && id !in Orphans(s) ensures id in Currents(s.tasks, keys) {
      var k :| k in s.tasks && id in s.tasks[k].runs;
      RunningOfTask(s, k, id);
    }
  }

  /** In every reachable state the RUNNING rows are one per subprocess, one per thread whose subprocess has ended and
      whose result is not stored yet, and those left behind by threads that died.  So they fit the slots exactly when
      the last two kinds fill no more than the slots without a subprocess; subprocesses alone always fit. */
  lemma RunningRowsCount(s: System, steps: seq<Step>)
    requires Installed(s)
    ensures var t := After(s, steps);
            |RunningRows(t.db.runs)| == |AliveTasks(t.tasks)| + |ExitedTasks(t.tasks)| + |Orphans(t)|
            && |AliveTasks(t.tasks)| <= t.slots
            && (|RunningRows(t.db.runs)| <= t.slots
                <==> |ExitedTasks(t.tasks)| + |Orphans(t)| <= t.slots - |AliveTasks(t.tasks)|)
  {
    hide SystemOk, After, RunningRows, Orphans, Currents;
    Reachable(s, steps);
    var t := After(s, steps);
    RunningSplit(t);
    var alive, exited := AliveTasks(t.tasks), ExitedTasks(t.tasks);
    CurrentsSize(t, alive + exited);
    assert alive !! exited;
    assert |alive + exited| == |alive| + |exited|;
    AliveHold(t);
  }

  lemma AliveHold(t: System)
    requires SystemOk(t)
    ensures |AliveTasks(t.tasks)| <= t.slots
  {
    hide TablesOk, DeliveryOk, TaskOk;
    assert AliveTasks(t.tasks) <= SlotHolders(t.tasks);
    Smaller(AliveTasks(t.tasks), SlotHolders(t.tasks));
  }
}
