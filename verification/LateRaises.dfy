/** What goes wrong when a transaction commits and its caller raises all the same, and
    when two workers hold one job: in any state, and in histories from the start. */
module LateRaises {
  import opened Common
  import opened JobLog
  import opened Jobs
  import opened Pipeline
  import opened Resumption
  import opened Workers

  // ----- single events -----

  /** Worker `v` stands at `w`, and `row` is its job's row. */
  predicate At(s: Sys, v: WorkerId, w: Worker, row: JobRow) {
    && WorkerAt(s, v) == w && !w.Idle?
    && w.task.job in s.db.jobs && s.db.jobs[w.task.job] == row && TaskOf(w.task.job, row) == w.task
  }

  /** The same, once the worker has let go of the job. */
  predicate LetGo(s: Sys, v: WorkerId, task: Task, row: JobRow) {
    && WorkerAt(s, v).Idle?
    && task.job in s.db.jobs && s.db.jobs[task.job] == row && TaskOf(task.job, row) == task
  }

  /** No worker but `v` has been handed a job so far. */
  predicate Alone(s: Sys, v: WorkerId) { s.workers.Keys <= {v} }

  predicate SameRuns(s: Sys, s': Sys) {
    s'.db.runs == s.db.runs && s'.db.automations == s.db.automations && s'.handed == s.handed
  }

  function WorkMarks(a: Behaviour, s: Sys, v: WorkerId, now: Time, fate: Fate, token: RunId, j: JobId): seq<Mark> {
    Marks(a, s, Work(v, now, fate, token), j)
  }

  function Worked(a: Behaviour, s: Sys, v: WorkerId, now: Time, fate: Fate, token: RunId): Sys {
    Next(a, s, Work(v, now, fate, token))
  }

  lemma Begins(a: Behaviour, s: Sys, v: WorkerId, w: Worker, row: JobRow, now: Time, token: RunId)
    requires At(s, v, w, row) && BeginsStage(w) && token !in s.handed
    ensures var s' := Worked(a, s, v, now, Go, token);
      && At(s', v, Saving(w.task, RunStage(Under(a, w.task.trigger), w.task.plan, w.cursor)), row) && SameRuns(s, s')
      && WorkMarks(a, s, v, now, Go, token, w.task.job) == [Started(w.cursor.next)]
  {
    hide RunStage, MustWait;
  }

  lemma Saves(a: Behaviour, s: Sys, v: WorkerId, w: Worker, row: JobRow, now: Time, token: RunId)
    requires At(s, v, w, row) && w.Saving? && row.status.Running? && token !in s.handed
    ensures var s' := Worked(a, s, v, now, Go, token);
      && At(s', v, AtStage(w.task, w.cursor), row.(progress := Some(w.cursor))) && SameRuns(s, s')
      && WorkMarks(a, s, v, now, Go, token, w.task.job) == [Saved(w.cursor)]
  {
    hide RunStage, MustWait;
  }

  lemma Ends(a: Behaviour, s: Sys, v: WorkerId, w: Worker, row: JobRow, now: Time, token: RunId)
    requires At(s, v, w, row) && w.AtStage? && w.cursor.next >= |w.task.plan| && token !in s.handed
    ensures var s' := Worked(a, s, v, now, Go, token);
      && At(s', v, Recording(w.task, w.cursor.results), row) && SameRuns(s, s')
      && WorkMarks(a, s, v, now, Go, token, w.task.job) == []
  {
  }

  lemma Records(a: Behaviour, s: Sys, v: WorkerId, w: Worker, row: JobRow, now: Time, token: RunId)
    requires At(s, v, w, row) && w.Recording? && w.task.automation in s.db.automations
    requires token !in s.handed && token !in s.db.runs
    ensures var s' := Worked(a, s, v, now, Go, token);
      && At(s', v, Linking(w.task, token), row)
      && token in s'.db.runs && s'.db.runs[token].automation == w.task.automation
      && s'.db.automations == s.db.automations && s'.handed.Keys == s.handed.Keys + {token}
      && WorkMarks(a, s, v, now, Go, token, w.task.job) == []
  {
  }

  lemma Links(a: Behaviour, s: Sys, v: WorkerId, w: Worker, row: JobRow, now: Time, token: RunId)
    requires At(s, v, w, row) && w.Linking? && row.status.Running? && w.run in s.db.runs && token !in s.handed
    ensures var s' := Worked(a, s, v, now, Go, token);
      && At(s', v, Completing(w.task, w.run), row.(runId := Some(w.run))) && SameRuns(s, s')
      && WorkMarks(a, s, v, now, Go, token, w.task.job) == []
  {
  }

  lemma DefersLate(a: Behaviour, s: Sys, v: WorkerId, w: Worker, row: JobRow, now: Time, token: RunId)
    requires At(s, v, w, row) && row.status.Running? && token !in s.handed
    requires w.AtStage? && w.cursor.next < |w.task.plan| && MustWait(w.task.plan, w.cursor)
    requires w.task.plan[w.cursor.next].delaySeconds <= MAX_STAGE_DELAY
    ensures var s', stage := Worked(a, s, v, now, RaiseLate, token), w.task.plan[w.cursor.next];
      var c := w.cursor.(delayDone := stage.id);
      && At(s', v, Failing(w.task), DeferredRow(row, now, stage.delaySeconds, c)) && SameRuns(s, s')
      && WorkMarks(a, s, v, now, RaiseLate, token, w.task.job) == [Waited(c, now + stage.delaySeconds as real, true)]
  {
  }

  lemma CompletesLate(a: Behaviour, s: Sys, v: WorkerId, w: Worker, row: JobRow, now: Time, token: RunId)
    requires At(s, v, w, row) && w.Completing? && row.status.Running? && w.run in s.db.runs && token !in s.handed
    ensures var s' := Worked(a, s, v, now, RaiseLate, token);
      && At(s', v, Failing(w.task), CompletedRow(row, w.run, now)) && SameRuns(s, s')
      && WorkMarks(a, s, v, now, RaiseLate, token, w.task.job) == [Finished(true)]
  {
  }

  lemma Fails(a: Behaviour, s: Sys, v: WorkerId, w: Worker, row: JobRow, now: Time, token: RunId)
    requires At(s, v, w, row) && w.Failing? && token !in s.handed
    ensures var s' := Worked(a, s, v, now, Go, token);
      && LetGo(s', v, w.task, FailedRow(row, now)) && SameRuns(s, s')
      && WorkMarks(a, s, v, now, Go, token, w.task.job) == [GaveBack(FailedRow(row, now).nextAttemptAt)]
  {
    hide RetryDelay;
  }

  function HandAt(v: WorkerId, job: JobId, now: Time): Event { Hand(v, Claim(job, now, 300)) }

  lemma IsHanded(a: Behaviour, s: Sys, v: WorkerId, task: Task, row: JobRow, now: Time)
    requires LetGo(s, v, task, row) && Claimable(row, now)
    ensures var s', claimed := Next(a, s, HandAt(v, task.job, now)), ClaimedRow(row, now, 300);
      && Possible(s, HandAt(v, task.job, now))
      && At(s', v, Start(task.job, claimed), claimed) && SameRuns(s, s')
      && Marks(a, s, HandAt(v, task.job, now), task.job) == [HandedOut(now)]
    ensures Alone(s, v) ==> ExclusiveStep(s, HandAt(v, task.job, now), task.job)
  {
  }

  lemma IsCleared(a: Behaviour, s: Sys, v: WorkerId, task: Task, row: JobRow)
    requires LetGo(s, v, task, row) && task.automation in s.db.automations && !row.status.Completed?
    requires row.runId.Some? && row.runId.value in s.db.runs && s.db.runs[row.runId.value].automation == task.automation
    ensures var s', clear := Next(a, s, Admin(ClearRuns(task.automation))), Admin(ClearRuns(task.automation));
      && LetGo(s', v, task, row.(runId := None)) && s'.handed == s.handed
      && Marks(a, s, clear, task.job) == [Unlinked]
  {
    assert row.runId.value in RunsOf(s.db, task.automation);
  }

  lemma IsAdded(a: Behaviour, automation: AutomationId, j: JobId)
    ensures var s' := Next(a, INITIAL, Admin(AddAutomation(automation)));
      && s' == INITIAL.(db := EMPTY_DB.(automations := {automation}))
      && Marks(a, INITIAL, Admin(AddAutomation(automation)), j) == []
  {
    assert EMPTY_DB.automations + {automation} == {automation};
  }

  lemma IsEnqueued(a: Behaviour, s: Sys, v: WorkerId, task: Task, now: Time)
    requires task.job !in s.known && task.job !in s.db.jobs && task.automation in s.db.automations
    requires WorkerAt(s, v).Idle?
    ensures var ev := Admin(Enqueue(task.job, task.automation, task.trigger, task.plan, now));
      && LetGo(Next(a, s, ev), v, task, NewJob(task.automation, task.trigger, task.plan, now))
      && SameRuns(s, Next(a, s, ev)) && Next(a, s, ev).workers == s.workers
      && Marks(a, s, ev, task.job) == []
  {
  }

  // ----- in any state -----

  /** Whenever a defer raises late, the job can be handed out five seconds after it was
      given back, and then the delayed stage starts at once, whatever its delay is. */
  lemma LateDeferCutsTheDelayShort(
    a: Behaviour, s: Sys, v: WorkerId, w: Worker, row: JobRow, now: Time, later: Time, token: RunId)
    returns (s': Sys, w': Worker)
    requires At(s, v, w, row) && row.status.Running? && row.runId.None? && token !in s.handed
    requires w.AtStage? && w.cursor.next < |w.task.plan| && MustWait(w.task.plan, w.cursor)
    requires w.task.plan[w.cursor.next].delaySeconds <= MAX_STAGE_DELAY
    ensures s' == Worked(a, Worked(a, s, v, now, RaiseLate, token), v, later, Go, token)
    ensures Possible(s', HandAt(v, w.task.job, later + 5.0))
    ensures w' == WorkerAt(Next(a, s', HandAt(v, w.task.job, later + 5.0)), v)
    ensures BeginsStage(w') && w'.cursor.next == w.cursor.next && w'.task == w.task
  {
    hide Worked, Next, Possible;
    var stage := w.task.plan[w.cursor.next];
    var waiting := DeferredRow(row, now, stage.delaySeconds, w.cursor.(delayDone := stage.id));
    DefersLate(a, s, v, w, row, now, token);
    var s1 := Worked(a, s, v, now, RaiseLate, token);
    Fails(a, s1, v, Failing(w.task), waiting, later, token);
    s' := Worked(a, s1, v, later, Go, token);
    IsHanded(a, s', v, w.task, FailedRow(waiting, later), later + 5.0);
    w' := WorkerAt(Next(a, s', HandAt(v, w.task.job, later + 5.0)), v);
  }

  /** Whenever a completion raises late before the third attempt, and the automation's
      history is cleared, the finished pipeline starts over with its first stage. */
  lemma LateCompletionStartsOver(
    a: Behaviour, s: Sys, v: WorkerId, w: Worker, row: JobRow, now: Time, later: Time, token: RunId)
    returns (s': Sys, again: Time, w': Worker)
    requires At(s, v, w, row) && row.status.Running? && row.attempts < MAX_ATTEMPTS && token !in s.handed
    requires w.Completing? && w.task.plan != [] && w.task.automation in s.db.automations
    requires w.run in s.db.runs && s.db.runs[w.run].automation == w.task.automation
    ensures s' == Next(a, Worked(a, Worked(a, s, v, now, RaiseLate, token), v, later, Go, token),
                       Admin(ClearRuns(w.task.automation)))
    ensures again == later + RetryDelay(row.attempts) as real && Possible(s', HandAt(v, w.task.job, again))
    ensures w' == WorkerAt(Next(a, s', HandAt(v, w.task.job, again)), v)
    ensures BeginsStage(w') && w'.cursor == START && w'.task == w.task
  {
    hide Worked, Next, Possible, RetryDelay;
    var done := CompletedRow(row, w.run, now);
    CompletesLate(a, s, v, w, row, now, token);
    var s1 := Worked(a, s, v, now, RaiseLate, token);
    Fails(a, s1, v, Failing(w.task), done, later, token);
    var s2 := Worked(a, s1, v, later, Go, token);
    IsCleared(a, s2, v, w.task, FailedRow(done, later));
    s', again := Next(a, s2, Admin(ClearRuns(w.task.automation))), later + RetryDelay(row.attempts) as real;
    IsHanded(a, s', v, w.task, FailedRow(done, later).(runId := None), again);
    w' := WorkerAt(Next(a, s', HandAt(v, w.task.job, again)), v);
  }

  // ----- histories from the start -----

  const FIRST := Stage("first", "First", AllCompleted, 0, [])
  const NEXT_DAY := Stage("second", "Second", AllCompleted, MAX_STAGE_DELAY, [])

  predicate Leads(a: Behaviour, events: seq<Event>, s: Sys, log: seq<Mark>) {
    Run(a, events) == s && Log(a, events, 0) == log
  }

  lemma Step(a: Behaviour, events: seq<Event>, s: Sys, log: seq<Mark>, ev: Event)
    returns (events': seq<Event>, s': Sys, log': seq<Mark>)
    requires Leads(a, events, s, log)
    ensures events' == events + [ev] && s' == Next(a, s, ev) && log' == log + Marks(a, s, ev, 0)
    ensures Leads(a, events', s', log')
    ensures Exclusive(a, events', 0) <==> Exclusive(a, events, 0) && ExclusiveStep(s, ev, 0)
    ensures LeasesKept(a, events', 0) <==> LeasesKept(a, events, 0) && !OutlivesLease(s, ev, 0)
    ensures DefersGivenBack(a, events', 0) <==> DefersGivenBack(a, events, 0) && !OutwaitsDefer(s, ev, 0)
    ensures Alone(s, 0) && (ev.Admin? || ev.worker == 0) ==> Alone(s', 0)
  {
    events', s', log' := events + [ev], Next(a, s, ev), log + Marks(a, s, ev, 0);
    assert events'[..|events|] == events;
  }

  lemma WorkStep(a: Behaviour, events: seq<Event>, s: Sys, log: seq<Mark>, v: WorkerId, now: Time, fate: Fate, token: RunId)
    returns (events': seq<Event>, s': Sys, log': seq<Mark>)
    requires Leads(a, events, s, log)
    ensures s' == Worked(a, s, v, now, fate, token) && log' == log + WorkMarks(a, s, v, now, fate, token, 0)
    ensures Leads(a, events', s', log') && (Exclusive(a, events', 0) <==> Exclusive(a, events, 0))
    ensures LeasesKept(a, events', 0) <==> LeasesKept(a, events, 0)
    ensures DefersGivenBack(a, events', 0) <==> DefersGivenBack(a, events, 0)
    ensures Alone(s, 0) && v == 0 ==> Alone(s', 0)
  {
    events', s', log' := Step(a, events, s, log, Work(v, now, fate, token));
  }

  function FirstTask(trigger: Trigger, rest: seq<Stage>): Task { Task(0, 0, trigger, [FIRST] + rest) }

  function AfterFirst(a: Behaviour, trigger: Trigger, rest: seq<Stage>): (c: Cursor)
    ensures c.next == 1 && c.delayDone == ""
  {
    RunStage(Under(a, trigger), [FIRST] + rest, START)
  }

  function FirstRow(trigger: Trigger, rest: seq<Stage>): JobRow {
    ClaimedRow(NewJob(0, trigger, [FIRST] + rest, 0.0), 1.0, 300)
  }

  /** Job 0 of automation 0 is enqueued and handed to worker 0, who runs the first stage. */
  lemma FirstStageRun(a: Behaviour, trigger: Trigger, rest: seq<Stage>)
    returns (events: seq<Event>, s: Sys, log: seq<Mark>)
    ensures Leads(a, events, s, log) && Exclusive(a, events, 0) && Timely(a, events, 0)
    ensures log == [HandedOut(1.0), Started(0)]
    ensures At(s, 0, Saving(FirstTask(trigger, rest), AfterFirst(a, trigger, rest)), FirstRow(trigger, rest))
    ensures s.handed == map[] && s.db.automations == {0} && s.db.runs == map[] && Alone(s, 0)
  {
    hide RunStage, Exclusive;
    events, s, log := Enqueued(a, trigger, rest);
    IsHanded(a, s, 0, FirstTask(trigger, rest), NewJob(0, trigger, [FIRST] + rest, 0.0), 1.0);
    events, s, log := Step(a, events, s, log, HandAt(0, 0, 1.0));
    Begins(a, s, 0, AtStage(FirstTask(trigger, rest), START), FirstRow(trigger, rest), 1.0, 0);
    events, s, log := WorkStep(a, events, s, log, 0, 1.0, Go, 0);
  }

  lemma Enqueued(a: Behaviour, trigger: Trigger, rest: seq<Stage>)
    returns (events: seq<Event>, s: Sys, log: seq<Mark>)
    ensures Leads(a, events, s, log) && Exclusive(a, events, 0) && Timely(a, events, 0) && log == []
    ensures LetGo(s, 0, FirstTask(trigger, rest), NewJob(0, trigger, [FIRST] + rest, 0.0))
    ensures s.handed == map[] && s.db.automations == {0} && s.db.runs == map[] && s.workers == map[]
  {
    hide Next, Marks, Possible;
    events, s, log := [], INITIAL, [];
    IsAdded(a, 0, 0);
    events, s, log := Step(a, events, s, log, Admin(AddAutomation(0)));
    IsEnqueued(a, s, 0, FirstTask(trigger, rest), 0.0);
    events, s, log := Step(a, events, s, log, Admin(Enqueue(0, 0, trigger, [FIRST] + rest, 0.0)));
  }

  lemma FirstStageSaved(a: Behaviour, trigger: Trigger, rest: seq<Stage>)
    returns (events: seq<Event>, s: Sys, log: seq<Mark>)
    ensures Leads(a, events, s, log) && Exclusive(a, events, 0) && Timely(a, events, 0)
    ensures log == [HandedOut(1.0), Started(0), Saved(AfterFirst(a, trigger, rest))]
    ensures var c := AfterFirst(a, trigger, rest);
      At(s, 0, AtStage(FirstTask(trigger, rest), c), FirstRow(trigger, rest).(progress := Some(c)))
    ensures s.handed == map[] && s.db.automations == {0} && s.db.runs == map[] && Alone(s, 0)
  {
    hide RunStage, Next, Marks;
    events, s, log := FirstStageRun(a, trigger, rest);
    Saves(a, s, 0, WorkerAt(s, 0), FirstRow(trigger, rest), 1.0, 0);
    events, s, log := WorkStep(a, events, s, log, 0, 1.0, Go, 0);
  }

  /** A stage with a delay of a day starts 86395 seconds before the delay is over. */
  lemma ALateDeferCutsADayShort(a: Behaviour, trigger: Trigger) returns (events: seq<Event>)
    ensures Timely(a, events, 0)
    ensures var log := Log(a, events, 0);
      && |log| == 7 && log[3].Waited? && log[3].until == 86402.0
      && log[5] == HandedOut(7.0) && log[6] == Started(1)
  {
    hide RunStage, Next, Marks, Possible, Exclusive, AfterFirst;
    var s, log;
    events, s, log := FirstStageSaved(a, trigger, [NEXT_DAY]);
    var w, row := WorkerAt(s, 0), s.db.jobs[0];
    var waiting := DeferredRow(row, 2.0, MAX_STAGE_DELAY, w.cursor.(delayDone := NEXT_DAY.id));
    DefersLate(a, s, 0, w, row, 2.0, 0);
    events, s, log := WorkStep(a, events, s, log, 0, 2.0, RaiseLate, 0);
    Fails(a, s, 0, Failing(w.task), waiting, 2.0, 0);
    events, s, log := WorkStep(a, events, s, log, 0, 2.0, Go, 0);
    IsHanded(a, s, 0, w.task, FailedRow(waiting, 2.0), 7.0);
    events, s, log := Step(a, events, s, log, HandAt(0, 0, 7.0));
    Begins(a, s, 0, WorkerAt(s, 0), s.db.jobs[0], 7.0, 0);
    events, s, log := WorkStep(a, events, s, log, 0, 7.0, Go, 0);
    ExclusiveExactlyWhenTimely(a, events, 0);
  }

  /** The pipeline has run to its end, and its run is recorded and linked. */
  lemma ReadyToComplete(a: Behaviour, trigger: Trigger)
    returns (events: seq<Event>, s: Sys, log: seq<Mark>, row: JobRow)
    ensures Leads(a, events, s, log) && Exclusive(a, events, 0) && Timely(a, events, 0)
    ensures log == [HandedOut(1.0), Started(0), Saved(AfterFirst(a, trigger, []))]
    ensures At(s, 0, Completing(FirstTask(trigger, []), 0), row) && row.status.Running? && row.attempts == 1
    ensures s.db.automations == {0} && 0 in s.db.runs && s.db.runs[0].automation == 0
    ensures 1 !in s.handed && Alone(s, 0)
  {
    hide RunStage, Next, Marks, Possible, Exclusive, AfterFirst;
    events, s, log := FirstStageSaved(a, trigger, []);
    Ends(a, s, 0, WorkerAt(s, 0), s.db.jobs[0], 2.0, 0);
    events, s, log := WorkStep(a, events, s, log, 0, 2.0, Go, 0);
    Records(a, s, 0, WorkerAt(s, 0), s.db.jobs[0], 2.0, 0);
    events, s, log := WorkStep(a, events, s, log, 0, 2.0, Go, 0);
    Links(a, s, 0, WorkerAt(s, 0), s.db.jobs[0], 2.0, 1);
    events, s, log := WorkStep(a, events, s, log, 0, 2.0, Go, 1);
    row := s.db.jobs[0];
  }

  /** A pipeline that was saved to its end starts over. */
  lemma ALateCompletionRestarts(a: Behaviour, trigger: Trigger) returns (events: seq<Event>)
    ensures Timely(a, events, 0)
    ensures StartedAgain(Log(a, events, 0), 2, 7)
  {
    hide RunStage, Next, Marks, Possible, Exclusive, AfterFirst;
    var s, log, row;
    events, s, log, row := ReadyToComplete(a, trigger);
    var task := FirstTask(trigger, []);
    CompletesLate(a, s, 0, Completing(task, 0), row, 2.0, 1);
    events, s, log := WorkStep(a, events, s, log, 0, 2.0, RaiseLate, 1);
    row := CompletedRow(row, 0, 2.0);
    Fails(a, s, 0, Failing(task), row, 2.0, 1);
    events, s, log := WorkStep(a, events, s, log, 0, 2.0, Go, 1);
    row := FailedRow(row, 2.0);
    IsCleared(a, s, 0, task, row);
    events, s, log := Step(a, events, s, log, Admin(ClearRuns(0)));
    IsHanded(a, s, 0, task, row.(runId := None), 7.0);
    events, s, log := Step(a, events, s, log, HandAt(0, 0, 7.0));
    Begins(a, s, 0, WorkerAt(s, 0), s.db.jobs[0], 7.0, 1);
    events, s, log := WorkStep(a, events, s, log, 0, 7.0, Go, 1);
    ExclusiveExactlyWhenTimely(a, events, 0);
  }

  // ----- two holders -----

  /** The job is handed to a second worker, who starts from the row's progress; the
      first notices nothing. */
  lemma IsHandedToo(a: Behaviour, s: Sys, v: WorkerId, w: Worker, row: JobRow, u: WorkerId, now: Time)
    requires At(s, v, w, row) && Claimable(row, now) && u != v && WorkerAt(s, u).Idle?
    ensures var ev := HandAt(u, w.task.job, now);
      var s', claimed := Next(a, s, ev), ClaimedRow(row, now, 300);
      && At(s', v, w, claimed) && At(s', u, Start(w.task.job, claimed), claimed) && SameRuns(s, s')
      && (forall x | x != u :: WorkerAt(s', x) == WorkerAt(s, x))
      && Marks(a, s, ev, w.task.job) == [HandedOut(now)]
      && (Ready(row, now) ==> !OutlivesLease(s, ev, w.task.job))
      && (row.status.Running? ==> !OutwaitsDefer(s, ev, w.task.job))
  {
  }

  lemma WorksApart(a: Behaviour, s: Sys, v: WorkerId, now: Time, fate: Fate, token: RunId, u: WorkerId)
    requires u != v
    ensures WorkerAt(Worked(a, s, v, now, fate, token), u) == WorkerAt(s, u)
  {
    hide StepDb, StepWorker, Commits;
  }

  /** Leases have to be kept: after a hand-out under an expired one, a second worker
      starts a stage that the first has just saved. */
  lemma TwoHoldersRepeatAStage(a: Behaviour, trigger: Trigger) returns (events: seq<Event>)
    ensures StartedAgain(Log(a, events, 0), 3, 4) && DefersGivenBack(a, events, 0)
    ensures forall k | 0 <= k < |Log(a, events, 0)| :: !Log(a, events, 0)[k].Finished?
  {
    hide RunStage, Exclusive, AfterFirst, Next, Marks, Possible, LeasesKept, DefersGivenBack, OutlivesLease, OutwaitsDefer;
    var s, log;
    events, s, log := FirstStageRun(a, trigger, []);
    var saving, row := WorkerAt(s, 0), s.db.jobs[0];
    IsHandedToo(a, s, 0, saving, row, 1, 301.0);
    events, s, log := Step(a, events, s, log, HandAt(1, 0, 301.0));
    Saves(a, s, 0, saving, s.db.jobs[0], 301.0, 0);
    WorksApart(a, s, 0, 301.0, Go, 0, 1);
    events, s, log := WorkStep(a, events, s, log, 0, 301.0, Go, 0);
    Begins(a, s, 1, WorkerAt(s, 1), s.db.jobs[0], 301.0, 0);
    events, s, log := WorkStep(a, events, s, log, 1, 301.0, Go, 0);
  }

  const NEXT_SECOND := Stage("second", "Second", AllCompleted, 1, [])

  /** A defer of a second raised late, and the job was handed out again, to worker 1,
      before worker 0 gave it back; then worker 1 began the delayed stage. */
  lemma GivenBackTooLate(a: Behaviour, trigger: Trigger)
    returns (events: seq<Event>, s: Sys, log: seq<Mark>, saving: Worker, row: JobRow)
    ensures Leads(a, events, s, log) && LeasesKept(a, events, 0) && s.handed == map[]
    ensures |log| == 7 && (forall k | 0 <= k < 7 :: !log[k].Finished?)
    ensures At(s, 1, saving, row) && saving.Saving? && saving.cursor.next == 2 && saving.task == FirstTask(trigger, [NEXT_SECOND])
    ensures row.runId.None? && row.status.Queued? && row.nextAttemptAt == Some(8.0)
    ensures row.progress.Some? && row.progress.value.next == 1 && row.progress.value.delayDone == NEXT_SECOND.id
    ensures WorkerAt(s, 2).Idle?
  {
    hide Next, Marks, Possible, Exclusive, AfterFirst, LeasesKept, DefersGivenBack, OutlivesLease, OutwaitsDefer;
    events, s, log := FirstStageSaved(a, trigger, [NEXT_SECOND]);
    var w, first := WorkerAt(s, 0), s.db.jobs[0];
    var c := w.cursor.(delayDone := NEXT_SECOND.id);
    row := DeferredRow(first, 2.0, 1, c);
    DefersLate(a, s, 0, w, first, 2.0, 0);
    events, s, log := WorkStep(a, events, s, log, 0, 2.0, RaiseLate, 0);
    IsHandedToo(a, s, 0, Failing(w.task), row, 1, 3.0);
    events, s, log := Step(a, events, s, log, HandAt(1, 0, 3.0));
    row := ClaimedRow(row, 3.0, 300);
    Fails(a, s, 0, Failing(w.task), row, 3.0, 0);
    WorksApart(a, s, 0, 3.0, Go, 0, 1);
    WorksApart(a, s, 0, 3.0, Go, 0, 2);
    events, s, log := WorkStep(a, events, s, log, 0, 3.0, Go, 0);
    row := FailedRow(row, 3.0);
    Begins(a, s, 1, AtStage(w.task, c), row, 4.0, 0);
    WorksApart(a, s, 1, 4.0, Go, 0, 2);
    events, s, log := WorkStep(a, events, s, log, 1, 4.0, Go, 0);
    saving := WorkerAt(s, 1);
  }

  /** Keeping leases is not enough: after such a defer a stage that was saved starts
      again, though every hand-out was of a job whose row was ready for it. */
  lemma ALateDeferRepeatsAStage(a: Behaviour, trigger: Trigger) returns (events: seq<Event>)
    ensures LeasesKept(a, events, 0) && StartedAgain(Log(a, events, 0), 8, 9)
    ensures forall k | 0 <= k < |Log(a, events, 0)| :: !Log(a, events, 0)[k].Finished?
  {
    hide RunStage, Exclusive, Next, Marks, Possible, LeasesKept, DefersGivenBack, OutlivesLease, OutwaitsDefer;
    var s, log, saving, row;
    events, s, log, saving, row := GivenBackTooLate(a, trigger);
    IsHandedToo(a, s, 1, saving, row, 2, 8.0);
    events, s, log := Step(a, events, s, log, HandAt(2, 0, 8.0));
    row := ClaimedRow(row, 8.0, 300);
    Saves(a, s, 1, saving, row, 8.0, 0);
    WorksApart(a, s, 1, 8.0, Go, 0, 2);
    events, s, log := WorkStep(a, events, s, log, 1, 8.0, Go, 0);
    Begins(a, s, 2, WorkerAt(s, 2), s.db.jobs[0], 8.0, 0);
    events, s, log := WorkStep(a, events, s, log, 2, 8.0, Go, 0);
  }
}
