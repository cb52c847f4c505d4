/** Any number of workers on one job table. Each event is one atomic step of one
    party; a worker may crash or raise at every step, keep going after its lease has
    expired, and write late. */
module Workers {
  import opened Common
  import opened Pipeline
  import opened Jobs

  type WorkerId = nat

  /** What a worker copies out of the row it claims. */
  datatype Task = Task(job: JobId, automation: AutomationId, trigger: Trigger, plan: seq<Stage>)

  /** Where a worker stands inside `process_job`. */
  datatype Worker =
    | Idle
    | AtStage(task: Task, cursor: Cursor)
    | Saving(task: Task, cursor: Cursor)
    | Recording(task: Task, results: seq<ActionResult>)
    | Linking(task: Task, run: RunId)
    | Completing(task: Task, run: RunId)
    | Failing(task: Task)

  /** How a step ends: it succeeds, raises before or after its transaction commits,
      or the process dies. */
  datatype Fate = Go | Raise | RaiseLate | Crash

  function TaskOf(job: JobId, row: JobRow): Task { Task(job, row.automation, row.trigger, row.plan) }

  /** `process_job` on a freshly claimed row: a job already linked to a run only needs completing. */
  function Start(job: JobId, row: JobRow): Worker {
    var task := TaskOf(job, row);
    if row.runId.Some? then Completing(task, row.runId.value)
    else
      var cursor := if row.progress.Some? then row.progress.value else START;
      if cursor.next > |row.plan| then Failing(task) else AtStage(task, cursor)
  }

  /** The transaction a worker's next step issues, if it issues one. */
  function Intent(a: Behaviour, w: Worker, now: Time, token: RunId): Option<Op> {
    match w
    case Idle => None
    case AtStage(task, c) =>
      if c.next < |task.plan| && MustWait(task.plan, c) then
        var stage := task.plan[c.next];
        Some(Defer(task.job, now, stage.delaySeconds, c.(delayDone := stage.id)))
      else None
    case Saving(task, c) => Some(SaveProgress(task.job, c))
    case Recording(task, results) => Some(RecordRun(token, task.automation, now, results))
    case Linking(task, run) => Some(Link(task.job, run))
    case Completing(task, run) => Some(Complete(task.job, run, now))
    case Failing(task) => Some(Fail(task.job, now))
  }

  /** Where the worker stands once its step has succeeded. */
  function Onward(a: Behaviour, w: Worker, token: RunId): Worker {
    match w
    case Idle => Idle
    case AtStage(task, c) =>
      if c.next >= |task.plan| then Recording(task, c.results)
      else if MustWait(task.plan, c) then Idle
      else Saving(task, RunStage(Under(a, task.trigger), task.plan, c))
    case Saving(task, c) => AtStage(task, c)
    case Recording(task, results) => Linking(task, token)
    case Linking(task, run) => Completing(task, run)
    case Completing(task, run) => Idle
    case Failing(task) => Idle
  }

  /** Whether the step's transaction is carried out and commits. */
  predicate Commits(a: Behaviour, db: Db, w: Worker, now: Time, fate: Fate, token: RunId) {
    && (fate.Go? || fate.RaiseLate?)
    && Intent(a, w, now, token).Some?
    && Accepts(db, Intent(a, w, now, token).value)
  }

  function StepDb(a: Behaviour, db: Db, w: Worker, now: Time, fate: Fate, token: RunId): Db {
    if Commits(a, db, w, now, fate, token) then Apply(db, Intent(a, w, now, token).value) else db
  }

  /** An exception anywhere leads to `fail_job`, and one inside `fail_job` ends the worker. */
  function StepWorker(a: Behaviour, db: Db, w: Worker, now: Time, fate: Fate, token: RunId): Worker {
    if w.Idle? || fate.Crash? then Idle
    else if fate.Go? && (Intent(a, w, now, token).None? || Commits(a, db, w, now, fate, token)) then Onward(a, w, token)
    else if w.Failing? then Idle
    else Failing(w.task)
  }

  // ----- the system -----

  datatype Origin = Origin(task: Task, results: seq<ActionResult>)

  /** The tables and workers, with two records of the past: every job ever enqueued
      and every result list ever handed to `record_run`. */
  datatype Sys = Sys(db: Db, workers: map<WorkerId, Worker>, known: map<JobId, Task>, handed: map<RunId, Origin>)

  const INITIAL := Sys(EMPTY_DB, map[], map[], map[])

  datatype Event =
    | Admin(op: Op)
    | Hand(worker: WorkerId, op: Op)
    | Work(worker: WorkerId, now: Time, fate: Fate, token: RunId)

  function WorkerAt(s: Sys, w: WorkerId): Worker { if w in s.workers then s.workers[w] else Idle }

  predicate IsAdmin(op: Op) {
    op.AddAutomation? || op.Enqueue? || op.Renew? || op.RetryFailed? || op.DeleteRun?
    || op.ClearRuns? || op.Prune? || op.DeleteAutomation? || op.ClearAll?
  }

  /** Events that can happen: identifiers are random tokens and never come back. */
  predicate Possible(s: Sys, ev: Event) {
    match ev
    case Admin(op) => IsAdmin(op) && (op.Enqueue? ==> op.id !in s.known)
    case Hand(w, op) => WorkerAt(s, w).Idle? && (op.Claim? || op.ClaimById?) && Accepts(s.db, op)
    case Work(w, now, fate, token) => token !in s.handed
  }

  function Next(a: Behaviour, s: Sys, ev: Event): Sys {
    if !Possible(s, ev) then s
    else match ev
      case Admin(op) =>
        s.(db := Apply(s.db, op),
           known := if op.Enqueue? && Accepts(s.db, op)
                    then s.known[op.id := Task(op.id, op.automation, op.trigger, op.plan)] else s.known)
      case Hand(w, op) =>
        s.(db := Apply(s.db, op), workers := s.workers[w := Start(op.id, Apply(s.db, op).jobs[op.id])])
      case Work(w, now, fate, token) =>
        var worker := WorkerAt(s, w);
        s.(db := StepDb(a, s.db, worker, now, fate, token),
           workers := s.workers[w := StepWorker(a, s.db, worker, now, fate, token)],
           handed := if worker.Recording? && Commits(a, s.db, worker, now, fate, token)
                     then s.handed[token := Origin(worker.task, worker.results)] else s.handed)
  }

  function Run(a: Behaviour, events: seq<Event>): Sys {
    if events == [] then INITIAL
    else Next(a, Run(a, events[..|events| - 1]), events[|events| - 1])
  }

  // ----- what every interleaving keeps -----

  predicate RunOf(s: Sys, run: RunId, task: Task) { run in s.handed && s.handed[run].task == task }

  predicate JobOk(a: Behaviour, s: Sys, j: JobId)
    requires j in s.db.jobs
  {
    var row := s.db.jobs[j];
    && j in s.known && s.known[j] == TaskOf(j, row)
    && (row.progress.Some? ==> OnPath(Under(a, row.trigger), row.plan, row.progress.value))
    && (row.runId.Some? ==> RunOf(s, row.runId.value, TaskOf(j, row)))
  }

  predicate WorkerOk(a: Behaviour, s: Sys, w: Worker) {
    w.Idle? || (
      && w.task.job in s.known && s.known[w.task.job] == w.task
      && match w
         case AtStage(task, c) => OnPath(Under(a, task.trigger), task.plan, c)
         case Saving(task, c) => OnPath(Under(a, task.trigger), task.plan, c)
         case Recording(task, results) => results == PlainRun(Under(a, task.trigger), task.plan)
         case Linking(task, run) => RunOf(s, run, task)
         case Completing(task, run) => RunOf(s, run, task)
         case _ => true)
  }

  predicate RunOk(s: Sys, r: RunId)
    requires r in s.db.runs
  {
    r in s.handed && s.db.runs[r].automation == s.handed[r].task.automation
    && s.db.runs[r].results == s.handed[r].results
  }

  ghost predicate Inv(a: Behaviour, s: Sys) {
    && WellFormed(s.db)
    && (forall j | j in s.db.jobs :: JobOk(a, s, j))
    && (forall r | r in s.db.runs :: RunOk(s, r))
    && (forall w | w in s.workers :: WorkerOk(a, s, s.workers[w]))
    && (forall r | r in s.handed :: s.handed[r].results == PlainRun(Under(a, s.handed[r].task.trigger), s.handed[r].task.plan))
  }

  lemma IntentLinksOwnRun(a: Behaviour, s: Sys, w: Worker, now: Time, token: RunId)
    requires Inv(a, s) && WorkerOk(a, s, w) && Intent(a, w, now, token).Some?
    ensures OwnRun(s.db, Intent(a, w, now, token).value)
  {
    if (w.Linking? || w.Completing?) && w.task.job in s.db.jobs && w.run in s.db.runs {
      assert JobOk(a, s, w.task.job) && RunOk(s, w.run);
    }
  }

  lemma OnwardIsOk(a: Behaviour, s: Sys, w: Worker, token: RunId)
    requires WorkerOk(a, s, w) && !w.Recording?
    ensures WorkerOk(a, s, Onward(a, w, token))
  {
    if w.AtStage? && w.cursor.next < |w.task.plan| {
      StepStaysOnPath(Under(a, w.task.trigger), w.task.plan, w.cursor);
    } else if w.AtStage? {
      FinishedCursorIsPlain(Under(a, w.task.trigger), w.task.plan, w.cursor);
    }
  }

  /** Administration never touches a job's plan or progress; at most it drops its run link. */
  lemma AdminLeavesWork(db: Db, op: Op, j: JobId)
    requires IsAdmin(op) && j in Apply(db, op).jobs
    ensures var row' := Apply(db, op).jobs[j];
      if j in db.jobs then
        && TaskOf(j, row') == TaskOf(j, db.jobs[j]) && row'.progress == db.jobs[j].progress
        && (row'.runId == db.jobs[j].runId || row'.runId.None?)
      else op.Enqueue? && op.id == j && Accepts(db, op) && row' == NewJob(op.automation, op.trigger, op.plan, op.now)
  {
  }

  lemma AdminKeepsJob(a: Behaviour, s: Sys, op: Op, j: JobId)
    requires Inv(a, s) && Possible(s, Admin(op)) && j in Next(a, s, Admin(op)).db.jobs
    ensures JobOk(a, Next(a, s, Admin(op)), j)
  {
    AdminLeavesWork(s.db, op, j);
    assert j in s.db.jobs ==> JobOk(a, s, j);
  }

  lemma AdminKeepsInv(a: Behaviour, s: Sys, op: Op)
    requires Inv(a, s) && Possible(s, Admin(op))
    ensures Inv(a, Next(a, s, Admin(op)))
  {
    var s' := Next(a, s, Admin(op));
    OpsKeepWellFormed(s.db, op);
    forall j | j in s'.db.jobs ensures JobOk(a, s', j) {
      AdminKeepsJob(a, s, op, j);
    }
    forall r | r in s'.db.runs ensures RunOk(s', r) {
      assert r in s.db.runs && RunOk(s, r);
    }
    forall w | w in s'.workers ensures WorkerOk(a, s', s'.workers[w]) {
      assert WorkerOk(a, s, s.workers[w]);
    }
  }

  /** A worker starting on a row stands where the row's progress says. */
  lemma StartIsOk(a: Behaviour, s: Sys, j: JobId)
    requires j in s.db.jobs && JobOk(a, s, j)
    ensures WorkerOk(a, s, Start(j, s.db.jobs[j]))
  {
    hide RunStage;
    assert After(Under(a, s.db.jobs[j].trigger), s.db.jobs[j].plan, 0) == START;
  }

  lemma HandKeepsInv(a: Behaviour, s: Sys, w: WorkerId, op: Op)
    requires Inv(a, s) && Possible(s, Hand(w, op))
    ensures Inv(a, Next(a, s, Hand(w, op)))
  {
    hide WellFormed, OnPath, PlainRun, Start, ClampLease, Claimable, Ready;
    var s' := Next(a, s, Hand(w, op));
    OpsKeepWellFormed(s.db, op);
    forall j | j in s'.db.jobs ensures JobOk(a, s', j) {
      assert JobOk(a, s, j);
    }
    forall r | r in s'.db.runs ensures RunOk(s', r) {
      assert RunOk(s, r);
    }
    StartIsOk(a, s', op.id);
    forall v | v in s'.workers ensures WorkerOk(a, s', s'.workers[v]) {
      assert v != w ==> WorkerOk(a, s, s.workers[v]);
    }
  }

  /** The step leaves the worker in agreement with what the step recorded. */
  lemma WorkKeepsWorker(a: Behaviour, s: Sys, w: WorkerId, now: Time, fate: Fate, token: RunId)
    requires WorkerOk(a, s, WorkerAt(s, w)) && Possible(s, Work(w, now, fate, token))
    ensures var s' := Next(a, s, Work(w, now, fate, token)); WorkerOk(a, s', WorkerAt(s', w))
  {
    hide OnPath, PlainRun, RunStage, Apply, Accepts;
    if !WorkerAt(s, w).Recording? {
      OnwardIsOk(a, s, WorkerAt(s, w), token);
    }
  }

  lemma WorkKeepsInv(a: Behaviour, s: Sys, w: WorkerId, now: Time, fate: Fate, token: RunId)
    requires Inv(a, s) && Possible(s, Work(w, now, fate, token))
    ensures Inv(a, Next(a, s, Work(w, now, fate, token)))
  {
    hide WellFormed, OnPath, PlainRun, RunStage, Apply, Accepts, Intent, StepWorker, JobOk, RunOk;
    var s' := Next(a, s, Work(w, now, fate, token));
    var worker := WorkerAt(s, w);
    assert WorkerOk(a, s, worker);
    if Commits(a, s.db, worker, now, fate, token) {
      IntentLinksOwnRun(a, s, worker, now, token);
      OpsKeepWellFormed(s.db, Intent(a, worker, now, token).value);
    }
    WorkKeepsJobs(a, s, w, now, fate, token);
    WorkKeepsRuns(a, s, w, now, fate, token);
    WorkKeepsWorker(a, s, w, now, fate, token);
    forall v | v in s'.workers ensures WorkerOk(a, s', s'.workers[v]) {
      assert v != w ==> WorkerOk(a, s, s.workers[v]);
    }
  }

  /** A worker's step changes at most its own job's row, and there only the progress
      and the run link matter to the invariant. */
  lemma WorkTouchesOwnRow(a: Behaviour, db: Db, w: Worker, now: Time, fate: Fate, token: RunId, j: JobId)
    requires j in StepDb(a, db, w, now, fate, token).jobs
    ensures j in db.jobs
    ensures var row, row' := db.jobs[j], StepDb(a, db, w, now, fate, token).jobs[j];
      && TaskOf(j, row') == TaskOf(j, row)
      && (row'.progress == row.progress || row'.progress.None? || (
            && (w.Saving? || (w.AtStage? && w.cursor.next < |w.task.plan|)) && j == w.task.job
            && SameWork(row'.progress.value, w.cursor)))
      && (row'.runId == row.runId || (
            (w.Linking? || w.Completing?) && j == w.task.job && row'.runId == Some(w.run)))
  {
  }

  lemma WorkKeepsJobs(a: Behaviour, s: Sys, w: WorkerId, now: Time, fate: Fate, token: RunId)
    requires Inv(a, s) && Possible(s, Work(w, now, fate, token))
    ensures var s' := Next(a, s, Work(w, now, fate, token));
      forall j | j in s'.db.jobs :: JobOk(a, s', j)
  {
    var s' := Next(a, s, Work(w, now, fate, token));
    var worker := WorkerAt(s, w);
    assert WorkerOk(a, s, worker);
    forall j | j in s'.db.jobs ensures JobOk(a, s', j) {
      WorkTouchesOwnRow(a, s.db, worker, now, fate, token, j);
      assert JobOk(a, s, j);
    }
  }

  lemma WorkAddsOnlyItsRun(a: Behaviour, db: Db, w: Worker, now: Time, fate: Fate, token: RunId)
    ensures StepDb(a, db, w, now, fate, token).runs ==
      if w.Recording? && Commits(a, db, w, now, fate, token)
      then db.runs[token := RunRow(w.task.automation, now, w.results)] else db.runs
  {
  }

  lemma WorkKeepsRuns(a: Behaviour, s: Sys, w: WorkerId, now: Time, fate: Fate, token: RunId)
    requires Inv(a, s) && Possible(s, Work(w, now, fate, token))
    ensures var s' := Next(a, s, Work(w, now, fate, token));
      && (forall r | r in s'.db.runs :: RunOk(s', r))
      && (forall r | r in s'.handed :: s'.handed[r].results == PlainRun(Under(a, s'.handed[r].task.trigger), s'.handed[r].task.plan))
  {
    var s' := Next(a, s, Work(w, now, fate, token));
    var worker := WorkerAt(s, w);
    assert WorkerOk(a, s, worker);
    WorkAddsOnlyItsRun(a, s.db, worker, now, fate, token);
    forall r | r in s'.db.runs ensures RunOk(s', r) {
      assert r in s.db.runs ==> RunOk(s, r);
    }
  }

  lemma {:induction false} EveryInterleavingKeepsInv(a: Behaviour, events: seq<Event>)
    ensures Inv(a, Run(a, events))
  {
    if events != [] {
      var s := Run(a, events[..|events| - 1]);
      EveryInterleavingKeepsInv(a, events[..|events| - 1]);
      match events[|events| - 1]
      case Admin(op) =>
        if Possible(s, Admin(op)) { AdminKeepsInv(a, s, op); }
      case Hand(w, op) =>
        if Possible(s, Hand(w, op)) { HandKeepsInv(a, s, w, op); }
      case Work(w, now, fate, token) =>
        if Possible(s, Work(w, now, fate, token)) { WorkKeepsInv(a, s, w, now, fate, token); }
    }
  }

  /** The refinement theorem. Whatever crashes, errors, lease expiries, waits, retries
      and late writes a history contains: every result list ever handed to `record_run`
      is the one the plain loop computes, block after block, and every completed job is
      linked to a run of its own automation that holds the plain results of the job's own
      plan. */
  lemma InterruptedRunsGiveThePlainResults(a: Behaviour, events: seq<Event>)
    ensures var s := Run(a, events);
      && (forall r | r in s.handed :: IsPlain(a, s.handed[r].task.trigger, s.handed[r].task.plan, s.handed[r].results))
      && (forall j | j in s.db.jobs && s.db.jobs[j].status.Completed? ::
            && s.db.jobs[j].runId.Some?
            && var r := s.db.jobs[j].runId.value;
               && r in s.db.runs
               && s.db.runs[r].automation == s.db.jobs[j].automation
               && IsPlain(a, s.db.jobs[j].trigger, s.db.jobs[j].plan, s.db.runs[r].results))
  {
    hide RunThrough, PlainRun;
    EveryInterleavingKeepsInv(a, events);
    var s := Run(a, events);
    forall r | r in s.handed
      ensures IsPlain(a, s.handed[r].task.trigger, s.handed[r].task.plan, s.handed[r].results)
    {
      PlainRunsInBlocks(Under(a, s.handed[r].task.trigger), s.handed[r].task.plan);
    }
    forall j | j in s.db.jobs && s.db.jobs[j].status.Completed?
      ensures s.db.jobs[j].runId.Some?
      ensures var r := s.db.jobs[j].runId.value;
        && r in s.db.runs
        && s.db.runs[r].automation == s.db.jobs[j].automation
        && IsPlain(a, s.db.jobs[j].trigger, s.db.jobs[j].plan, s.db.runs[r].results)
    {
      assert JobOk(a, s, j) && RowOk(s.db.jobs[j]) && LinkOk(s.db, s.db.jobs[j]);
      assert RunOk(s, s.db.jobs[j].runId.value);
      PlainRunsInBlocks(Under(a, s.db.jobs[j].trigger), s.db.jobs[j].plan);
    }
  }

  /** The results of the plain loop, which are those of running block after block. */
  ghost predicate IsPlain(a: Behaviour, trigger: Trigger, plan: seq<Stage>, results: seq<ActionResult>) {
    && results == PlainRun(Under(a, trigger), plan)
    && RunThrough(Under(a, trigger), plan, results)
  }
}
