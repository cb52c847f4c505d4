/** `process_job` and the pipeline loop, run against the store one step at a time. */
module Engine {
  import opened Common
  import opened Pipeline
  import opened Jobs
  import opened JobStore
  import opened Workers

  /** What the outside decides at one step: the clock, how the step ends, and the
      identifier a recorded run would get. */
  datatype Turn = Turn(now: Time, fate: Fate, token: RunId)

  /** The tables and the worker after the given turns, with nobody else stepping in between. */
  function RunTurns(a: Behaviour, db: Db, w: Worker, turns: seq<Turn>): (Db, Worker)
    decreases |turns|
  {
    if turns == [] then (db, w)
    else
      var t := turns[0];
      RunTurns(a, StepDb(a, db, w, t.now, t.fate, t.token), StepWorker(a, db, w, t.now, t.fate, t.token), turns[1..])
  }

  lemma TakeTurn(a: Behaviour, db: Db, w: Worker, turns: seq<Turn>, k: nat)
    requires k < |turns|
    ensures var t := turns[k];
      RunTurns(a, db, w, turns[k..])
      == RunTurns(a, StepDb(a, db, w, t.now, t.fate, t.token),
                  StepWorker(a, db, w, t.now, t.fate, t.token), turns[k + 1..])
  {
    assert turns[k..][1..] == turns[k + 1..];
  }

  lemma {:induction false} IdleStaysIdle(a: Behaviour, db: Db, turns: seq<Turn>)
    ensures RunTurns(a, db, Idle, turns) == (db, Idle)
    decreases |turns|
  {
    if turns != [] { IdleStaysIdle(a, db, turns[1..]); }
  }

  /** A lone worker's turns are a stretch of a system history. */
  lemma {:induction false} TurnsAreHistory(a: Behaviour, events: seq<Event>, v: WorkerId, turns: seq<Turn>)
    requires forall k | 0 <= k < |turns| :: turns[k].token !in Run(a, events).handed
    requires forall k, l | 0 <= k < l < |turns| :: turns[k].token != turns[l].token
    ensures var s, s' := Run(a, events), Run(a, events + WorkEvents(v, turns));
      (s'.db, WorkerAt(s', v)) == RunTurns(a, s.db, WorkerAt(s, v), turns)
    decreases |turns|
  {
    if turns == [] {
      assert events + WorkEvents(v, turns) == events;
    } else {
      var t := turns[0];
      var ev := Work(v, t.now, t.fate, t.token);
      assert (events + [ev])[..|events|] == events;
      assert Run(a, events + [ev]) == Next(a, Run(a, events), ev);
      TurnsAreHistory(a, events + [ev], v, turns[1..]);
      assert events + WorkEvents(v, turns) == (events + [ev]) + WorkEvents(v, turns[1..]);
    }
  }

  function WorkEvents(v: WorkerId, turns: seq<Turn>): seq<Event> {
    seq(|turns|, k requires 0 <= k < |turns| => Work(v, turns[k].now, turns[k].fate, turns[k].token))
  }

  /** How one call of the pipeline loop, or of `process_job`, ends. */
  datatype Outcome =
    | Results(results: seq<ActionResult>)
    | Saved
    | Suspended
    | Threw
    | Died
    | Finished(run: RunId)

  function Standing(task: Task, r: Outcome): Worker {
    match r
    case Results(rs) => Recording(task, rs)
    case Threw => Failing(task)
    case _ => Idle
  }

  method AddStageContext(a: Actions, priorContext: Context, stage: Stage, results: seq<ActionResult>)
    returns (context: Context)
    requires |results| == |stage.actions|
    ensures context == AddStage(a, priorContext, stage, results)
  {
    context := priorContext;
    for i := 0 to |results|
      invariant context == AddResults(a, priorContext, stage, results, i)
    {
      var action, r := stage.actions[i], results[i];
      context := context.(results := context.results +
        [ContextItem(action.id, action.name, action.kind, stage.id, stage.name, r.status, r.summary, a.bound(r.output))]);
      if r.status == "success" {
        context := context.(successful := context.successful + [action.name]);
      } else if r.status == "partial" {
        context := context.(partials := context.partials + [action.name]);
      } else {
        context := context.(failed := context.failed + [action.name]);
      }
    }
  }

  /** Saves the progress of a stage that has just run. */
  method Checkpoint(store: Store, a: Behaviour, task: Task, progress: Cursor, turns: seq<Turn>, k0: nat)
    returns (r: Outcome, k: nat)
    requires k0 <= |turns|
    modifies store`jobs
    ensures k0 <= k <= |turns| && (r.Saved? || r.Threw? || r.Died?)
    ensures r.Saved? ==> IsRunning(store.Tables(), task.job) && store.jobs[task.job].progress == Some(progress)
    ensures !r.Died? ==> RunTurns(a, old(store.Tables()), Saving(task, progress), turns[k0..])
                         == RunTurns(a, store.Tables(), if r.Saved? then AtStage(task, progress) else Failing(task), turns[k..])
    ensures r.Died? ==> RunTurns(a, old(store.Tables()), Saving(task, progress), turns[k0..]).0 == store.Tables()
  {
    k := k0;
    if k == |turns| {
      return Died, k;
    }
    TakeTurn(a, store.Tables(), Saving(task, progress), turns, k);
    IdleStaysIdle(a, store.Tables(), turns[k + 1..]);
    var t := turns[k];
    k := k + 1;
    if t.fate.Crash? {
      return Died, k;
    }
    if t.fate.Raise? {
      return Threw, k;
    }
    var saved := store.SaveJobProgress(task.job, progress);
    r := if saved && t.fate.Go? then Saved else Threw;
  }

  /** Puts the job aside until the delay of the stage at the cursor is over. */
  method PutAside(store: Store, a: Behaviour, task: Task, c: Cursor, turns: seq<Turn>, k0: nat)
    returns (r: Outcome, k: nat)
    requires k0 < |turns| && c.next < |task.plan| && MustWait(task.plan, c) && !turns[k0].fate.Crash?
    modifies store`jobs
    ensures k == k0 + 1 && (r.Suspended? || r.Threw?)
    ensures r.Suspended? ==> task.job in store.jobs && store.jobs[task.job].status.Waiting?
    ensures RunTurns(a, old(store.Tables()), AtStage(task, c), turns[k0..])
         == RunTurns(a, store.Tables(), Standing(task, r), turns[k..])
  {
    var t, stage := turns[k0], task.plan[c.next];
    TakeTurn(a, store.Tables(), AtStage(task, c), turns, k0);
    k := k0 + 1;
    if t.fate.Raise? {
      return Threw, k;
    }
    var ok := store.DeferJobForStage(task.job, t.now, stage.delaySeconds, c.(delayDone := stage.id));
    r := if ok && t.fate.Go? then Suspended else Threw;
  }

  /** One iteration of the pipeline loop: wait for the stage at the cursor, or run it
      and save the progress. The loop goes on only after `Saved`. */
  method HandleStage(store: Store, a: Behaviour, task: Task, c: Cursor, turns: seq<Turn>, k0: nat)
    returns (r: Outcome, c': Cursor, k: nat)
    requires k0 <= |turns| && c.next < |task.plan|
    modifies store`jobs
    ensures k0 <= k <= |turns| && (r.Saved? || r.Suspended? || r.Threw? || r.Died?)
    ensures r.Saved? ==> c' == RunStage(Under(a, task.trigger), task.plan, c)
    ensures !r.Died? ==> RunTurns(a, old(store.Tables()), AtStage(task, c), turns[k0..])
                         == RunTurns(a, store.Tables(), if r.Saved? then AtStage(task, c') else Standing(task, r), turns[k..])
    ensures r.Died? ==> RunTurns(a, old(store.Tables()), AtStage(task, c), turns[k0..]).0 == store.Tables()
  {
    k, c' := k0, c;
    if k == |turns| {
      return Died, c, k;
    }
    var t, stage := turns[k], task.plan[c.next];
    TakeTurn(a, store.Tables(), AtStage(task, c), turns, k);
    if t.fate.Crash? {
      IdleStaysIdle(a, store.Tables(), turns[k + 1..]);
      return Died, c, k + 1;
    }
    if c.next > 0 && stage.delaySeconds > 0 && c.delayDone != stage.id {
      r, k := PutAside(store, a, task, c, turns, k);
      return;
    }
    k := k + 1;
    if !t.fate.Go? {
      return Threw, c, k;
    }
    c' := PassStage(Under(a, task.trigger), task.plan, c);
    r, k := Checkpoint(store, a, task, c', turns, k);
  }

  /** The pipeline loop from a saved position. Turn by turn it does what the worker's
      steps do; `k` is the number of turns used so far. */
  method ExecutePipeline(store: Store, a: Behaviour, task: Task, progress: Cursor, turns: seq<Turn>, k0: nat)
    returns (r: Outcome, k: nat)
    requires k0 <= |turns| && OnPath(Under(a, task.trigger), task.plan, progress)
    modifies store`jobs
    ensures k0 <= k <= |turns| && !r.Finished? && !r.Saved?
    ensures !r.Died? ==> RunTurns(a, old(store.Tables()), AtStage(task, progress), turns[k0..])
                         == RunTurns(a, store.Tables(), Standing(task, r), turns[k..])
    ensures r.Died? ==> RunTurns(a, old(store.Tables()), AtStage(task, progress), turns[k0..]).0 == store.Tables()
    ensures r.Results? ==> r.results == PlainRun(Under(a, task.trigger), task.plan)
    ensures r.Results? ==> RunThrough(Under(a, task.trigger), task.plan, r.results)
  {
    k := k0;
    var c := progress;
    while c.next < |task.plan|
      invariant k0 <= k <= |turns| && OnPath(Under(a, task.trigger), task.plan, c)
      invariant RunTurns(a, old(store.Tables()), AtStage(task, progress), turns[k0..])
             == RunTurns(a, store.Tables(), AtStage(task, c), turns[k..])
      decreases |task.plan| - c.next
    {
      StepStaysOnPath(Under(a, task.trigger), task.plan, c);
      r, c, k := HandleStage(store, a, task, c, turns, k);
      if !r.Saved? {
        return;
      }
    }
    FinishedCursorIsPlain(Under(a, task.trigger), task.plan, c);
    PlainRunsInBlocks(Under(a, task.trigger), task.plan);
    r, k := HandBack(store, a, task, c, turns, k);
  }

  /** Runs the stage at the cursor and works out where the pipeline goes from there. */
  method PassStage(a: Actions, plan: seq<Stage>, c: Cursor) returns (c': Cursor)
    requires c.next < |plan|
    ensures c' == RunStage(a, plan, c)
  {
    var stage := plan[c.next];
    var stageResults := StageResults(a, stage, c.context, c.next + 1);
    var actionResults := c.results + stageResults;
    var priorContext := AddStageContext(a, c.context, stage, stageResults);
    var shouldContinue := ShouldContinue(stage.policy, stageResults);
    var next := if shouldContinue then c.next + 1 else |plan|;
    c' := Cursor(next, "", actionResults, priorContext);
  }

  /** The loop is over: its results go back to `process_job`. */
  method HandBack(store: Store, a: Behaviour, task: Task, c: Cursor, turns: seq<Turn>, k0: nat)
    returns (r: Outcome, k: nat)
    requires k0 <= |turns| && c.next == |task.plan|
    ensures k0 <= k <= |turns| && (r == Results(c.results) || r.Threw? || r.Died?)
    ensures !r.Died? ==> RunTurns(a, store.Tables(), AtStage(task, c), turns[k0..])
                         == RunTurns(a, store.Tables(), Standing(task, r), turns[k..])
    ensures r.Died? ==> RunTurns(a, store.Tables(), AtStage(task, c), turns[k0..]).0 == store.Tables()
  {
    k := k0;
    if k == |turns| {
      return Died, k;
    }
    TakeTurn(a, store.Tables(), AtStage(task, c), turns, k);
    IdleStaysIdle(a, store.Tables(), turns[k + 1..]);
    var t := turns[k];
    k := k + 1;
    r := if t.fate.Crash? then Died else if t.fate.Go? then Results(c.results) else Threw;
  }

  /** Links the results to a recorded run and completes the job. */
  method RecordResults(store: Store, a: Behaviour, task: Task, results: seq<ActionResult>, turns: seq<Turn>, k0: nat)
    returns (r: Outcome, k: nat)
    requires k0 <= |turns|
    modifies store
    ensures k0 <= k <= |turns| && (r.Finished? || r.Threw? || r.Died?)
    ensures !r.Died? ==> RunTurns(a, old(store.Tables()), Recording(task, results), turns[k0..])
                         == RunTurns(a, store.Tables(), Standing(task, r), turns[k..])
    ensures r.Died? ==> RunTurns(a, old(store.Tables()), Recording(task, results), turns[k0..]).0 == store.Tables()
    ensures r.Finished? ==>
      && task.job in store.jobs && store.jobs[task.job].status.Completed?
      && r.run in store.runs && store.runs[r.run].results == results && store.jobs[task.job].runId == Some(r.run)
  {
    k := k0;
    if k == |turns| {
      return Died, k;
    }
    var t := turns[k];
    var run := t.token;
    TakeTurn(a, store.Tables(), Recording(task, results), turns, k);
    IdleStaysIdle(a, store.Tables(), turns[k + 1..]);
    k := k + 1;
    if t.fate.Crash? {
      return Died, k;
    }
    if t.fate.Raise? {
      return Threw, k;
    }
    var ok := store.RecordRun(run, task.automation, t.now, results);
    if !ok || !t.fate.Go? {
      return Threw, k;
    }
    if k == |turns| {
      return Died, k;
    }
    t := turns[k];
    TakeTurn(a, store.Tables(), Linking(task, run), turns, k);
    IdleStaysIdle(a, store.Tables(), turns[k + 1..]);
    k := k + 1;
    if t.fate.Crash? {
      return Died, k;
    }
    if t.fate.Raise? {
      return Threw, k;
    }
    ok := store.LinkJobRun(task.job, run);
    if !ok || !t.fate.Go? {
      return Threw, k;
    }
    r, k := CompleteRun(store, a, task, run, turns, k);
  }

  method CompleteRun(store: Store, a: Behaviour, task: Task, run: RunId, turns: seq<Turn>, k0: nat)
    returns (r: Outcome, k: nat)
    requires k0 <= |turns|
    modifies store`jobs
    ensures k0 <= k <= |turns| && (r == Finished(run) || r.Threw? || r.Died?)
    ensures !r.Died? ==> RunTurns(a, old(store.Tables()), Completing(task, run), turns[k0..])
                         == RunTurns(a, store.Tables(), Standing(task, r), turns[k..])
    ensures r.Died? ==> RunTurns(a, old(store.Tables()), Completing(task, run), turns[k0..]).0 == store.Tables()
    ensures r.Finished? ==>
      && task.job in store.jobs && store.jobs[task.job].status.Completed?
      && run in store.runs && store.jobs[task.job].runId == Some(run)
  {
    k := k0;
    if k == |turns| {
      return Died, k;
    }
    var t := turns[k];
    TakeTurn(a, store.Tables(), Completing(task, run), turns, k);
    IdleStaysIdle(a, store.Tables(), turns[k + 1..]);
    k := k + 1;
    if t.fate.Crash? {
      return Died, k;
    }
    if t.fate.Raise? {
      return Threw, k;
    }
    var ok := store.CompleteJob(task.job, run, t.now);
    r := if ok && t.fate.Go? then Finished(run) else Threw;
  }

  /** One call of `process_job` on the row it was handed. Its effect on the tables is
      that of the worker's turns; when it finishes, the job is completed and linked to
      a run, which holds the plain results unless the row already carried a run. */
  method ProcessJob(store: Store, a: Behaviour, job: JobId, row: JobRow, turns: seq<Turn>) returns (r: Outcome)
    requires row.progress.Some? ==> OnPath(Under(a, row.trigger), row.plan, row.progress.value)
    modifies store
    ensures store.Tables() == RunTurns(a, old(store.Tables()), Start(job, row), turns).0
    ensures r.Finished? ==>
      && job in store.jobs && store.jobs[job].status.Completed? && store.jobs[job].runId == Some(r.run)
      && r.run in store.runs
      && (row.runId.None? ==> store.runs[r.run].results == PlainRun(Under(a, row.trigger), row.plan)
                              && RunThrough(Under(a, row.trigger), row.plan, store.runs[r.run].results))
      && (row.runId.Some? ==> r.run == row.runId.value)
  {
    var task := TaskOf(job, row);
    var k := 0;
    assert turns[0..] == turns;
    if row.runId.Some? {
      r, k := CompleteRun(store, a, task, row.runId.value, turns, 0);
    } else {
      var cursor := if row.progress.Some? then row.progress.value else START;
      assert OnPath(Under(a, row.trigger), row.plan, START) by { assert After(Under(a, row.trigger), row.plan, 0) == START; }
      r, k := ExecutePipeline(store, a, task, cursor, turns, 0);
      if r.Results? {
        r, k := RecordResults(store, a, task, r.results, turns, k);
      }
    }
    if r.Threw? {
      GiveUp(store, a, task, turns, k);
    } else if !r.Died? {
      IdleStaysIdle(a, store.Tables(), turns[k..]);
    }
  }

  /** The handler of an exception: `fail_job`, which may itself raise or die. */
  method GiveUp(store: Store, a: Behaviour, task: Task, turns: seq<Turn>, k: nat)
    requires k <= |turns|
    modifies store`jobs
    ensures store.Tables() == RunTurns(a, old(store.Tables()), Failing(task), turns[k..]).0
  {
    if k < |turns| {
      TakeTurn(a, store.Tables(), Failing(task), turns, k);
      IdleStaysIdle(a, StepDb(a, store.Tables(), Failing(task), turns[k].now, turns[k].fate, turns[k].token), turns[k + 1..]);
      if turns[k].fate.Go? || turns[k].fate.RaiseLate? {
        var _ := store.FailJob(task.job, turns[k].now);
      }
    }
  }

  // ----- calls that nothing disturbs -----

  /** Every step succeeds, and the identifiers offered for a run are new. */
  predicate Smooth(db: Db, turns: seq<Turn>) {
    forall k | 0 <= k < |turns| :: turns[k].fate.Go? && turns[k].token !in db.runs
  }

  predicate DelaysInRange(plan: seq<Stage>) {
    forall k | 0 <= k < |plan| :: plan[k].delaySeconds <= MAX_STAGE_DELAY
  }

  /** The job is completed with the plain results, or waits for the delay of a stage it
      has not waited for before, with everything up to that stage saved. */
  predicate Settled(a: Behaviour, db: Db, task: Task, c: Cursor) {
    && task.job in db.jobs
    && var row := db.jobs[task.job];
       if row.status.Completed? then
         && row.runId.Some? && row.runId.value in db.runs
         && db.runs[row.runId.value].automation == task.automation
         && db.runs[row.runId.value].results == PlainRun(Under(a, task.trigger), task.plan)
       else
         && row.status.Waiting? && row.progress.Some?
         && var c' := row.progress.value;
            && OnPath(Under(a, task.trigger), task.plan, c') && c.next <= c'.next < |task.plan|
            && c'.next > 0 && task.plan[c'.next].delaySeconds > 0 && c'.delayDone == task.plan[c'.next].id
            && (c'.next > c.next || c.delayDone != c'.delayDone)
  }

  /** From the end of the pipeline four steps complete the job. */
  lemma {:induction false} SmoothEnd(a: Behaviour, db: Db, task: Task, c: Cursor, turns: seq<Turn>)
    requires Smooth(db, turns) && |turns| >= 4
    requires IsRunning(db, task.job) && task.automation in db.automations
    requires OnPath(Under(a, task.trigger), task.plan, c) && c.next == |task.plan|
    ensures var (db', w) := RunTurns(a, db, AtStage(task, c), turns);
      w.Idle? && Settled(a, db', task, c) && db'.jobs[task.job].status.Completed?
  {
    hide OnPath, PlainRun, RunStage;
    FinishedCursorIsPlain(Under(a, task.trigger), task.plan, c);
    var t1, t2, t3 := turns[1..], turns[2..], turns[3..];
    assert turns[0..] == turns;
    TakeTurn(a, db, AtStage(task, c), turns, 0);
    var run := turns[1].token;
    TakeTurn(a, db, Recording(task, c.results), turns, 1);
    var db1 := Apply(db, Op.RecordRun(run, task.automation, turns[1].now, c.results));
    TakeTurn(a, db1, Linking(task, run), turns, 2);
    var db2 := Apply(db1, Link(task.job, run));
    TakeTurn(a, db2, Completing(task, run), turns, 3);
    IdleStaysIdle(a, Apply(db2, Complete(task.job, run, turns[3].now)), turns[4..]);
  }

  /** A call that nothing disturbs gets somewhere: with two steps for each stage ahead
      and four more, it completes its job with the plain results, or leaves it waiting
      for the delay of a later stage. */
  lemma {:induction false} UndisturbedCallsGetThere(a: Behaviour, db: Db, task: Task, c: Cursor, turns: seq<Turn>)
    requires Smooth(db, turns) && DelaysInRange(task.plan)
    requires IsRunning(db, task.job) && task.automation in db.automations
    requires OnPath(Under(a, task.trigger), task.plan, c) && |turns| >= 2 * (|task.plan| - c.next) + 4
    ensures var (db', w) := RunTurns(a, db, AtStage(task, c), turns); w.Idle? && Settled(a, db', task, c)
    decreases |task.plan| - c.next
  {
    hide PlainRun, RunStage;
    if c.next == |task.plan| {
      SmoothEnd(a, db, task, c, turns);
    } else if MustWait(task.plan, c) {
      assert turns[0..] == turns;
      TakeTurn(a, db, AtStage(task, c), turns, 0);
      IdleStaysIdle(a, StepDb(a, db, AtStage(task, c), turns[0].now, Go, turns[0].token), turns[1..]);
    } else {
      var c' := RunStage(Under(a, task.trigger), task.plan, c);
      assert turns[0..] == turns;
      TakeTurn(a, db, AtStage(task, c), turns, 0);
      TakeTurn(a, db, Saving(task, c'), turns, 1);
      StepStaysOnPath(Under(a, task.trigger), task.plan, c);
      UndisturbedCallsGetThere(a, Apply(db, SaveProgress(task.job, c')), task, c', turns[2..]);
    }
  }
}
