/** Every step keeps the system invariant. */
module SystemSteps {
  import opened RunnerTypes
  import opened RunnerTables
  import opened Central
  import opened RunnerSystem
  import opened HistoryInvariant
  import opened OutboxInvariant
  import opened DeliveryInvariant
  import opened DeliverySteps
  import opened OwnerInvariant
  import opened SystemInvariant

  // ---------------------------------------------------------------- executor threads

  lemma TasksOnly(s: System, later: map<string, Task>)
    requires SystemOk(s) && s.life.Up? && |SlotHolders(later)| <= s.slots
    requires forall key :: key in later ==> TaskOk(s.db, key, later[key])
    ensures SystemOk(s.(tasks := later))
  {
    hide TaskOk, OutboxOk, HistoryOk, ServerOk, SentOk, SyncsOk;
  }

  lemma ThreadEnds(s: System, key: string)
    requires SystemOk(s) && s.life.Up?
    ensures SystemOk(s.(tasks := s.tasks - {key}))
  {
    hide TaskOk, OutboxOk, HistoryOk, ServerOk, SentOk, SyncsOk;
    FewerHolders(s.tasks, s.tasks - {key});
  }

  lemma PhaseTask(db: Db, key: string, t: Task, phase: Phase)
    requires TaskOk(db, key, t)
    requires (phase.Waiting? || phase.Holding?) == (t.phase.Waiting? || t.phase.Holding?)
    ensures TaskOk(db, key, t.(phase := phase))
  {
  }

  lemma TakeSlotOk(s: System, key: string)
    requires SystemOk(s) && s.life.Up? && AtRun(s, key)
    requires s.tasks[key].phase.Waiting? && |SlotHolders(s.tasks)| < s.slots
    ensures SystemOk(s.(tasks := s.tasks[key := s.tasks[key].(phase := Holding)]))
  {
    hide TaskOk, TablesOk, DeliveryOk;
    PhaseTask(s.db, key, s.tasks[key], Holding);
    OneMoreHolder(s.tasks, key);
    TasksOnly(s, s.tasks[key := s.tasks[key].(phase := Holding)]);
  }

  lemma ProcessEndsOk(s: System, key: string, outcome: Outcome)
    requires SystemOk(s) && s.life.Up? && AtRun(s, key) && s.tasks[key].phase.Alive?
    ensures SystemOk(s.(tasks := s.tasks[key := s.tasks[key].(phase := Exited(outcome))]))
  {
    hide TaskOk, TablesOk, DeliveryOk;
    var later := s.tasks[key := s.tasks[key].(phase := Exited(outcome))];
    PhaseTask(s.db, key, s.tasks[key], Exited(outcome));
    FewerHolders(s.tasks, later);
    TasksOnly(s, later);
  }

  lemma TransitionKeeps(run: Run, status: Status, exitCode: Option<int>, error: Option<string>, now: int)
    ensures var r := Transitioned(run, status, exitCode, error, now);
            SameIdentity(r, run) && r.status == status && r.mode == run.mode
  {
  }

  lemma HeadRow(db: Db, key: string, t: Task)
    requires HistoryOk(db) && TaskOk(db, key, t)
    ensures t.pos < |t.runs| && t.runs[t.pos] in db.runs && Distinct(t.runs)
    ensures var r := db.runs[t.runs[t.pos]].run;
            r.mode.Direct? == t.direct && (t.direct ==> |t.runs| == 1)
            && r.status == if t.phase.Waiting? || t.phase.Holding? then Queued else Running
  {
    RecordDistinct(db, key);
  }

  lemma StartOk(s: System, key: string, now: int)
    requires SystemOk(s) && s.life.Up? && AtRun(s, key) && s.tasks[key].phase.Holding?
    ensures SystemOk(TaskStep(s, Start(key, now)))
  {
    hide TaskOk, OutboxOk, HistoryOk, DeliveryOk, Advance, SameIdentity, Transitioned;
    var t := s.tasks[key];
    HeadRow(s.db, key, t);
    var row := s.db.runs[t.runs[t.pos]].run;
    var run := Transitioned(row, Running, None, None, now);
    TransitionKeeps(row, Running, None, None, now);
    OwnTask(s.db, key, t, run);
    ThreadMoves(s, key, run, Some(t.(phase := Alive)));
  }

  lemma EndRunOk(s: System, key: string, v: Verdict, now: int)
    requires SystemOk(s) && s.life.Up? && AtRun(s, key)
    requires ExecutorStatus(v.status) && (Finished(v.status) || s.tasks[key].direct)
    requires s.tasks[key].runs[s.tasks[key].pos] in s.db.runs
    requires var r := s.db.runs[s.tasks[key].runs[s.tasks[key].pos]].run; Arrow(r.mode, r.status, v.status)
    ensures SystemOk(EndRun(s, key, v, now))
  {
    hide TaskOk, OutboxOk, HistoryOk, DeliveryOk, Advance, SameIdentity, Transitioned, Arrow;
    var t := s.tasks[key];
    HeadRow(s.db, key, t);
    var row := s.db.runs[t.runs[t.pos]].run;
    var run := Transitioned(row, v.status, v.exitCode, v.error, now);
    TransitionKeeps(row, v.status, v.exitCode, v.error, now);
    OwnTask(s.db, key, t, run);
    ThreadMoves(s, key, run, if t.pos + 1 < |t.runs| then Some(t.(pos := t.pos + 1, phase := Waiting)) else None);
  }

  lemma TaskStepOk(s: System, step: Step)
    requires SystemOk(s) && s.life.Up? && IsTaskStep(step)
    ensures SystemOk(TaskStep(s, step))
  {
    hide TaskOk, OutboxOk, HistoryOk, DeliveryOk, TablesOk, EndRun, TransitionRun;
    match step {
      case PrepareFails(key, error, now) =>
        if AtRun(s, key) && s.tasks[key].phase.Waiting? {
          OwnedHead(s, key);
          EndRunOk(s, key, Verdict(Failed, None, Some(error)), now);
        }
      case TakeSlot(key) =>
        if AtRun(s, key) && s.tasks[key].phase.Waiting? && |SlotHolders(s.tasks)| < s.slots {
          TakeSlotOk(s, key);
        }
      case Start(key, now) =>
        if AtRun(s, key) && s.tasks[key].phase.Holding? {
          StartOk(s, key, now);
        }
      case ProcessEnds(key, outcome) =>
        if AtRun(s, key) && s.tasks[key].phase.Alive? {
          ProcessEndsOk(s, key, outcome);
        }
      case Finish(key, now) =>
        if AtRun(s, key) && s.tasks[key].phase.Exited? {
          OwnedHead(s, key);
          EndRunOk(s, key, VerdictOf(s.tasks[key].direct, s.tasks[key].phase.outcome), now);
        }
      case ThreadDies(key) => ThreadEnds(s, key);
      case _ =>
    }
  }

  lemma OwnedHead(s: System, key: string)
    requires SystemOk(s) && AtRun(s, key)
    ensures var t := s.tasks[key];
            t.runs[t.pos] in s.db.runs
            && var r := s.db.runs[t.runs[t.pos]].run;
               r.mode.Direct? == t.direct
               && r.status == if t.phase.Waiting? || t.phase.Holding? then Queued else Running
  {
    hide TaskOk, OutboxOk, HistoryOk, DeliveryOk;
    HeadRow(s.db, key, s.tasks[key]);
  }
}
