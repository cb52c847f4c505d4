/** One job handled by one worker at a time: which stages run, how often it waits and
    how often it is claimed, with errors before and after every commit. */
module Resumption {
  import opened Common
  import opened JobLog
  import opened Jobs
  import opened Pipeline
  import opened Workers

  predicate Holds(w: Worker, j: JobId) { !w.Idle? && w.task.job == j }

  predicate BeginsStage(w: Worker) {
    w.AtStage? && w.cursor.next < |w.task.plan| && !MustWait(w.task.plan, w.cursor)
  }

  /** The operation takes away the run the job is linked to, and leaves the job. */
  predicate DropsRun(db: Db, op: Op, j: JobId) {
    && j in db.jobs && db.jobs[j].runId.Some?
    && j in Apply(db, op).jobs && Apply(db, op).jobs[j].runId.None?
  }

  /** The entry a holder's step adds. */
  function HolderMarks(a: Behaviour, db: Db, w: Worker, now: Time, fate: Fate, token: RunId): seq<Mark> {
    if BeginsStage(w) then [Started(w.cursor.next)]
    else if !Commits(a, db, w, now, fate, token) then []
    else match w
      case AtStage(_, _) =>
        var wait := Intent(a, w, now, token).value;
        [Waited(wait.progress, wait.now + wait.delay as real, fate.RaiseLate?)]
      case Saving(_, c) => [Saved(c)]
      case Completing(_, _) => [Finished(fate.RaiseLate?)]
      case Failing(task) => [GaveBack(FailedRow(db.jobs[task.job], now).nextAttemptAt)]
      case _ => []
  }

  /** The entries an event adds for job `j`. */
  function Marks(a: Behaviour, s: Sys, ev: Event, j: JobId): seq<Mark> {
    if !Possible(s, ev) then []
    else match ev
      case Admin(op) => if DropsRun(s.db, op, j) then [Unlinked] else []
      case Hand(w, op) => if op.id == j then [HandedOut(op.now)] else []
      case Work(w, now, fate, token) =>
        if Holds(WorkerAt(s, w), j) then HolderMarks(a, s.db, WorkerAt(s, w), now, fate, token) else []
  }

  function Log(a: Behaviour, events: seq<Event>, j: JobId): seq<Mark> {
    if events == [] then []
    else
      var before := events[..|events| - 1];
      Log(a, before, j) + Marks(a, Run(a, before), events[|events| - 1], j)
  }

  /** The job is handed out only while nobody holds it. */
  ghost predicate Exclusive(a: Behaviour, events: seq<Event>, j: JobId) {
    events == [] || (
      var s, ev := Run(a, events[..|events| - 1]), events[|events| - 1];
      Exclusive(a, events[..|events| - 1], j) && ExclusiveStep(s, ev, j))
  }

  predicate HandsOutJob(s: Sys, ev: Event, j: JobId) { ev.Hand? && Possible(s, ev) && ev.op.id == j }

  ghost predicate ExclusiveStep(s: Sys, ev: Event, j: JobId) {
    HandsOutJob(s, ev, j) ==> Unheld(s, j)
  }

  ghost predicate Unheld(s: Sys, j: JobId) {
    forall w | w in s.workers :: !Holds(s.workers[w], j)
  }

  ghost predicate Held(s: Sys, j: JobId) { exists w :: w in s.workers && Holds(s.workers[w], j) }

  // ----- agreement of the system with the log -----

  ghost predicate HolderOk(a: Behaviour, w: Worker, log: seq<Mark>)
    requires !w.Idle?
  {
    var last := LastSaved(log);
    match w
    case AtStage(task, c) => Busy(log) && !Ended(log) && c == last
    case Saving(task, c) =>
      && Tail(log) == Some(Started(last.next)) && !Ended(log)
      && last.next < |task.plan| && c == RunStage(Under(a, task.trigger), task.plan, last)
    case Failing(task) => CanGiveBack(log)
    case Recording(task, _) => Busy(log) && EverDone(task.plan, log)
    case Linking(task, _) => Busy(log) && EverDone(task.plan, log)
    case Completing(task, _) => Busy(log) && EverDone(task.plan, log)
  }

  /** The job's row agrees with the log. */
  ghost predicate RowAgrees(row: JobRow, log: seq<Mark>) {
    && LastSaved(log) == (if row.progress.Some? then row.progress.value else START)
    && (Resume(log).Some? ==> row.nextAttemptAt == Resume(log))
    && (Tail(log).Some? ==> match Tail(log).value
          case Waited(_, _, _) => row.status.Waiting? && row.attempts == 0
          case GaveBack(next) => row.status.Queued? || (next.None? && row.status.Failed?)
          case Finished(_) => row.status.Completed?
          case _ => true)
    && (Ended(log) ==> row.runId.Some?)
    && (row.runId.Some? ==> EverDone(row.plan, log))
  }

  /** The holder's row runs; or it failed, and its last transaction had committed all the
      same, a defer or a completion. */
  predicate HolderRow(w: Worker, row: JobRow, log: seq<Mark>) {
    row.status.Running? || (w.Failing? && Tail(log).Some? && match Tail(log).value
      case Waited(_, _, late) => late && row.status.Waiting?
      case Finished(late) => late && row.status.Completed?
      case _ => false)
  }

  ghost predicate SoleHolder(s: Sys, j: JobId) {
    forall v, w | v in s.workers && w in s.workers && Holds(s.workers[v], j) && Holds(s.workers[w], j) :: v == w
  }

  ghost predicate XInv(a: Behaviour, s: Sys, log: seq<Mark>, j: JobId) {
    && SoleHolder(s, j)
    && (forall w | w in s.workers && Holds(s.workers[w], j) ::
         && HolderOk(a, s.workers[w], log)
         && (j in s.db.jobs ==> HolderRow(s.workers[w], s.db.jobs[j], log)))
    && (j in s.db.jobs ==> RowAgrees(s.db.jobs[j], log))
    && (j !in s.known ==> log == [])
    && (j in s.known ==> LogOk(Under(a, s.known[j].trigger), s.known[j].plan, log))
  }

  // ----- administration -----

  function AdminLog(db: Db, op: Op, j: JobId, log: seq<Mark>): seq<Mark> {
    if DropsRun(db, op, j) then log + [Unlinked] else log
  }

  /** Administration leaves a row as it is for the log: it renews a lease, retries a
      failed job, drops the link to a run, or deletes the job. */
  lemma AdminLeavesRow(db: Db, op: Op, j: JobId)
    requires IsAdmin(op) && j in db.jobs && j in Apply(db, op).jobs && (op.Enqueue? ==> op.id != j)
    ensures var row, row' := db.jobs[j], Apply(db, op).jobs[j];
      && row'.progress == row.progress && row'.plan == row.plan && row'.trigger == row.trigger
      && (if DropsRun(db, op, j) then row'.runId.None? else row'.runId == row.runId)
      && (if op.RetryFailed? && row.status.Failed? then row'.status.Queued?
          else row'.status == row.status && row'.nextAttemptAt == row.nextAttemptAt && row'.attempts == row.attempts)
  {
  }

  lemma AdminKeepsRow(row: JobRow, row': JobRow, log: seq<Mark>, dropped: bool, retried: bool)
    requires RowAgrees(row, log) && row'.progress == row.progress && row'.plan == row.plan
    requires if dropped then row'.runId.None? else row'.runId == row.runId
    requires if retried then row.status.Failed? && row'.status.Queued?
             else row'.status == row.status && row'.nextAttemptAt == row.nextAttemptAt && row'.attempts == row.attempts
    ensures RowAgrees(row', if dropped then log + [Unlinked] else log)
  {
    hide EverDone;
    OneMore(log, Unlinked);
  }

  lemma AdminRow(a: Behaviour, s: Sys, log: seq<Mark>, j: JobId, op: Op)
    requires XInv(a, s, log, j) && Possible(s, Admin(op)) && j in Apply(s.db, op).jobs
    requires j in s.db.jobs ==> j in s.known
    ensures RowAgrees(Apply(s.db, op).jobs[j], AdminLog(s.db, op, j, log))
  {
    hide HolderOk, LogOk, EverDone;
    if j in s.db.jobs {
      hide Apply, RowAgrees;
      AdminLeavesRow(s.db, op, j);
      AdminKeepsRow(s.db.jobs[j], Apply(s.db, op).jobs[j], log, DropsRun(s.db, op, j),
                    op.RetryFailed? && s.db.jobs[j].status.Failed?);
    } else {
      AdminLeavesWork(s.db, op, j);
    }
  }

  lemma HolderSurvivesLoss(a: Behaviour, w: Worker, log: seq<Mark>)
    requires !w.Idle? && HolderOk(a, w, log)
    ensures HolderOk(a, w, log + [Unlinked])
  {
    hide RunStage, EverDone;
    OneMore(log, Unlinked);
    if EverDone(w.task.plan, log) {
      DoneStays(w.task.plan, log, Unlinked);
    }
  }

  lemma AdminHolders(a: Behaviour, s: Sys, log: seq<Mark>, j: JobId, op: Op, v: WorkerId)
    requires XInv(a, s, log, j) && Possible(s, Admin(op)) && v in s.workers && Holds(s.workers[v], j)
    requires j in s.known
    ensures HolderOk(a, s.workers[v], AdminLog(s.db, op, j, log))
    ensures j in Apply(s.db, op).jobs ==> HolderRow(s.workers[v], Apply(s.db, op).jobs[j], AdminLog(s.db, op, j, log))
  {
    hide HolderOk, LogOk, RowAgrees, Apply;
    OneMore(log, Unlinked);
    if DropsRun(s.db, op, j) {
      HolderSurvivesLoss(a, s.workers[v], log);
    }
    if j in Apply(s.db, op).jobs {
      AdminLeavesWork(s.db, op, j);
      if j in s.db.jobs {
        AdminLeavesRow(s.db, op, j);
      }
    }
  }

  lemma NothingLogged(a: Actions, plan: seq<Stage>)
    ensures LogOk(a, plan, [])
  {
  }

  lemma AdminKeepsXInv(a: Behaviour, s: Sys, log: seq<Mark>, j: JobId, op: Op)
    requires Inv(a, s) && XInv(a, s, log, j) && Possible(s, Admin(op))
    ensures XInv(a, Next(a, s, Admin(op)), log + Marks(a, s, Admin(op), j), j)
  {
    hide RowAgrees, HolderOk, HolderRow, LogOk, Apply, WellFormed, RunOk, OnPath, RunOf;
    var s', log' := Next(a, s, Admin(op)), AdminLog(s.db, op, j, log);
    assert log + Marks(a, s, Admin(op), j) == log';
    assert j in s.db.jobs ==> JobOk(a, s, j);
    if j in s'.db.jobs {
      AdminRow(a, s, log, j, op);
    }
    forall v | v in s'.workers && Holds(s'.workers[v], j)
      ensures HolderOk(a, s'.workers[v], log')
      ensures j in s'.db.jobs ==> HolderRow(s'.workers[v], s'.db.jobs[j], log')
    {
      assert WorkerOk(a, s, s.workers[v]);
      AdminHolders(a, s, log, j, op, v);
    }
    AdminLogOk(a, s, log, j, op);
    if j in s'.known && j !in s.known {
      NothingLogged(Under(a, s'.known[j].trigger), s'.known[j].plan);
    }
  }

  lemma AdminLogOk(a: Behaviour, s: Sys, log: seq<Mark>, j: JobId, op: Op)
    requires XInv(a, s, log, j) && (j in s.db.jobs ==> j in s.known)
    ensures j in s.known ==> LogOk(Under(a, s.known[j].trigger), s.known[j].plan, AdminLog(s.db, op, j, log))
    ensures j !in s.known ==> AdminLog(s.db, op, j, log) == []
  {
    hide RowAgrees, HolderOk, LogOk, Apply;
    if j in s.known {
      LogOkExtends(Under(a, s.known[j].trigger), s.known[j].plan, log, Unlinked);
    }
  }

  // ----- hand-outs -----

  /** A job that rests is claimable at no other time than from its resume time on. */
  lemma RestingJobsResumeOnTime(row: JobRow, log: seq<Mark>, now: Time)
    requires RowOk(row) && RowAgrees(row, log) && Resume(log).Some?
    ensures Claimable(row, now) <==> Resume(log).value <= now
  {
    hide EverDone;
  }

  lemma ClaimIsOk(a: Behaviour, row: JobRow, log: seq<Mark>, now: Time)
    requires RowOk(row) && RowAgrees(row, log) && Claimable(row, now)
    ensures MarkOk(Under(a, row.trigger), row.plan, log, HandedOut(now))
  {
    hide EverDone;
    if Resume(log).Some? {
      RestingJobsResumeOnTime(row, log, now);
    }
  }

  /** A worker starting on a freshly claimed row picks up exactly where the log ends. */
  lemma StartPicksUp(a: Behaviour, log: seq<Mark>, j: JobId, row: JobRow, now: Time, lease: int)
    requires RowAgrees(row, log)
    ensures var log', w := log + [HandedOut(now)], Start(j, ClaimedRow(row, now, lease));
      && Holds(w, j) && HolderOk(a, w, log')
      && RowAgrees(ClaimedRow(row, now, lease), log')
  {
    hide EverDone;
    OneMore(log, HandedOut(now));
    if EverDone(row.plan, log) {
      DoneStays(row.plan, log, HandedOut(now));
    }
  }

  lemma HandKeepsXInv(a: Behaviour, s: Sys, log: seq<Mark>, j: JobId, v: WorkerId, op: Op)
    requires Inv(a, s) && XInv(a, s, log, j) && Possible(s, Hand(v, op))
    requires op.id == j ==> Unheld(s, j)
    ensures XInv(a, Next(a, s, Hand(v, op)), log + Marks(a, s, Hand(v, op), j), j)
  {
    hide RowAgrees, HolderOk, LogOk, LinkOk, RunOk, RunOf, Ready, Expired, ClaimedRow, Start;
    var s' := Next(a, s, Hand(v, op));
    assert forall u | u in s.workers && u != v :: s'.workers[u] == s.workers[u];
    assert JobOk(a, s, op.id);
    StartHolds(op.id, s'.db.jobs[op.id]);
    if op.id == j {
      var row := s.db.jobs[j];
      ClaimIsOk(a, row, log, op.now);
      StartPicksUp(a, log, j, row, op.now, op.lease);
      LogOkExtends(Under(a, row.trigger), row.plan, log, HandedOut(op.now));
      assert s'.db.jobs[j] == ClaimedRow(row, op.now, op.lease);
      ClaimedRuns(row, op.now, op.lease);
    } else {
      assert log + Marks(a, s, Hand(v, op), j) == log;
    }
  }

  lemma StartHolds(id: JobId, row: JobRow)
    ensures Holds(Start(id, row), id) && forall j :: Holds(Start(id, row), j) ==> j == id
  {
  }

  lemma ClaimedRuns(row: JobRow, now: Time, lease: int)
    ensures ClaimedRow(row, now, lease).status.Running?
  {
  }

  // ----- steps of others -----

  lemma OthersLeaveRow(a: Behaviour, db: Db, w: Worker, now: Time, fate: Fate, token: RunId, j: JobId)
    requires !Holds(w, j)
    ensures var db' := StepDb(a, db, w, now, fate, token);
      (j in db'.jobs <==> j in db.jobs) && (j in db.jobs ==> db'.jobs[j] == db.jobs[j])
  {
  }

  lemma StepsKeepTheTask(a: Behaviour, db: Db, w: Worker, now: Time, fate: Fate, token: RunId)
    ensures var w' := StepWorker(a, db, w, now, fate, token); w'.Idle? || (!w.Idle? && w'.task == w.task)
  {
  }

  lemma OthersKeepXInv(a: Behaviour, s: Sys, log: seq<Mark>, j: JobId, v: WorkerId, now: Time, fate: Fate, token: RunId)
    requires XInv(a, s, log, j) && Possible(s, Work(v, now, fate, token))
    requires !Holds(WorkerAt(s, v), j)
    ensures XInv(a, Next(a, s, Work(v, now, fate, token)), log, j)
  {
    hide RowAgrees, HolderOk, HolderRow, LogOk, StepDb, StepWorker, Commits;
    var s' := Next(a, s, Work(v, now, fate, token));
    StepsKeepTheTask(a, s.db, WorkerAt(s, v), now, fate, token);
    assert !Holds(WorkerAt(s', v), j);
    OthersLeaveRow(a, s.db, WorkerAt(s, v), now, fate, token, j);
  }

  // ----- steps of the holder -----

  ghost predicate HolderFacts(a: Behaviour, db: Db, w: Worker, j: JobId, log: seq<Mark>) {
    && Holds(w, j) && HolderOk(a, w, log)
    && (j in db.jobs ==>
         && db.jobs[j].plan == w.task.plan && db.jobs[j].trigger == w.task.trigger
         && RowAgrees(db.jobs[j], log)
         && HolderRow(w, db.jobs[j], log))
  }

  /** The holder's step adds at most one entry, a fitting one, and leaves its row and
      its position in agreement with the log. */
  ghost predicate StepAgrees(a: Behaviour, db: Db, w: Worker, now: Time, fate: Fate, token: RunId, j: JobId, log: seq<Mark>)
    requires !w.Idle?
  {
    var w', db' := StepWorker(a, db, w, now, fate, token), StepDb(a, db, w, now, fate, token);
    var marks := HolderMarks(a, db, w, now, fate, token);
    && |marks| <= 1 && (marks != [] ==> MarkOk(Under(a, w.task.trigger), w.task.plan, log, marks[0]))
    && (Holds(w', j) ==>
          HolderOk(a, w', log + marks) && (j in db'.jobs ==> HolderRow(w', db'.jobs[j], log + marks)))
    && (j in db'.jobs ==> RowAgrees(db'.jobs[j], log + marks))
  }

  lemma AddingAMark(plan: seq<Stage>, log: seq<Mark>, m: Mark)
    ensures EverDone(plan, log) ==> EverDone(plan, log + [m])
  {
    if EverDone(plan, log) {
      DoneStays(plan, log, m);
    }
  }

  lemma BeginningAgrees(a: Behaviour, db: Db, w: Worker, now: Time, fate: Fate, token: RunId, j: JobId, log: seq<Mark>)
    requires HolderFacts(a, db, w, j, log) && BeginsStage(w)
    ensures StepAgrees(a, db, w, now, fate, token, j, log)
  {
    hide EverDone, RunStage, MustWait;
    var m := Started(w.cursor.next);
    OneMore(log, m);
    AddingAMark(w.task.plan, log, m);
  }

  lemma WaitingAgrees(a: Behaviour, db: Db, w: Worker, now: Time, fate: Fate, token: RunId, j: JobId, log: seq<Mark>)
    requires HolderFacts(a, db, w, j, log) && w.AtStage? && !BeginsStage(w) && w.cursor.next < |w.task.plan|
    ensures StepAgrees(a, db, w, now, fate, token, j, log)
  {
    hide EverDone, RunStage, MustWait;
    var stage := w.task.plan[w.cursor.next];
    var m := Waited(w.cursor.(delayDone := stage.id), now + stage.delaySeconds as real, fate.RaiseLate?);
    OneMore(log, m);
    AddingAMark(w.task.plan, log, m);
    assert log + [] == log;
  }

  lemma EndingAgrees(a: Behaviour, db: Db, w: Worker, now: Time, fate: Fate, token: RunId, j: JobId, log: seq<Mark>)
    requires HolderFacts(a, db, w, j, log) && w.AtStage? && w.cursor.next >= |w.task.plan|
    ensures StepAgrees(a, db, w, now, fate, token, j, log)
  {
    hide EverDone, RunStage, MustWait;
    DoneNow(w.task.plan, log);
    assert log + [] == log;
  }

  lemma SavingAgrees(a: Behaviour, db: Db, w: Worker, now: Time, fate: Fate, token: RunId, j: JobId, log: seq<Mark>)
    requires HolderFacts(a, db, w, j, log) && w.Saving?
    ensures StepAgrees(a, db, w, now, fate, token, j, log)
  {
    hide EverDone, RunStage, MustWait;
    var m := Saved(w.cursor);
    OneMore(log, m);
    AddingAMark(w.task.plan, log, m);
    assert log + [] == log;
  }

  lemma RecordingAgrees(a: Behaviour, db: Db, w: Worker, now: Time, fate: Fate, token: RunId, j: JobId, log: seq<Mark>)
    requires HolderFacts(a, db, w, j, log) && (w.Recording? || w.Linking?)
    ensures StepAgrees(a, db, w, now, fate, token, j, log)
  {
    hide EverDone, RunStage, MustWait;
    assert log + [] == log;
  }

  lemma CompletingAgrees(a: Behaviour, db: Db, w: Worker, now: Time, fate: Fate, token: RunId, j: JobId, log: seq<Mark>)
    requires HolderFacts(a, db, w, j, log) && w.Completing?
    ensures StepAgrees(a, db, w, now, fate, token, j, log)
  {
    hide EverDone, RunStage, MustWait;
    var m := Finished(fate.RaiseLate?);
    OneMore(log, m);
    AddingAMark(w.task.plan, log, m);
    assert log + [] == log;
  }

  lemma FailingAgrees(a: Behaviour, db: Db, w: Worker, now: Time, fate: Fate, token: RunId, j: JobId, log: seq<Mark>)
    requires HolderFacts(a, db, w, j, log) && w.Failing?
    ensures StepAgrees(a, db, w, now, fate, token, j, log)
  {
    hide EverDone, RunStage, MustWait;
    if j in db.jobs {
      var m := GaveBack(FailedRow(db.jobs[j], now).nextAttemptAt);
      OneMore(log, m);
      AddingAMark(w.task.plan, log, m);
    }
    assert log + [] == log;
  }

  lemma HolderStep(a: Behaviour, db: Db, w: Worker, now: Time, fate: Fate, token: RunId, j: JobId, log: seq<Mark>)
    requires HolderFacts(a, db, w, j, log)
    ensures StepAgrees(a, db, w, now, fate, token, j, log)
  {
    hide HolderFacts, StepAgrees, BeginsStage;
    if BeginsStage(w) {
      BeginningAgrees(a, db, w, now, fate, token, j, log);
    } else if w.AtStage? && w.cursor.next < |w.task.plan| {
      WaitingAgrees(a, db, w, now, fate, token, j, log);
    } else if w.AtStage? {
      EndingAgrees(a, db, w, now, fate, token, j, log);
    } else if w.Saving? {
      SavingAgrees(a, db, w, now, fate, token, j, log);
    } else if w.Completing? {
      CompletingAgrees(a, db, w, now, fate, token, j, log);
    } else if w.Failing? {
      FailingAgrees(a, db, w, now, fate, token, j, log);
    } else {
      HolderIsBusy(a, db, w, j, log);
      RecordingAgrees(a, db, w, now, fate, token, j, log);
    }
  }

  lemma HolderIsBusy(a: Behaviour, db: Db, w: Worker, j: JobId, log: seq<Mark>)
    requires HolderFacts(a, db, w, j, log)
    ensures !w.Idle?
  {
  }

  lemma HolderKeepsXInv(a: Behaviour, s: Sys, log: seq<Mark>, j: JobId, v: WorkerId, now: Time, fate: Fate, token: RunId)
    requires Inv(a, s) && XInv(a, s, log, j) && Possible(s, Work(v, now, fate, token))
    requires v in s.workers && Holds(s.workers[v], j)
    ensures XInv(a, Next(a, s, Work(v, now, fate, token)), log + Marks(a, s, Work(v, now, fate, token), j), j)
  {
    hide RowAgrees, HolderOk, HolderRow, LogOk, MarkOk, WellFormed, RunOk, RunOf, OnPath, StepDb, StepWorker, HolderMarks;
    var s', w := Next(a, s, Work(v, now, fate, token)), s.workers[v];
    assert WorkerOk(a, s, w) && (j in s.db.jobs ==> JobOk(a, s, j));
    HolderStep(a, s.db, w, now, fate, token, j, log);
    var marks := HolderMarks(a, s.db, w, now, fate, token);
    assert Marks(a, s, Work(v, now, fate, token), j) == marks;
    if marks == [] {
      assert log + marks == log;
    } else {
      LogOkExtends(Under(a, w.task.trigger), w.task.plan, log, marks[0]);
      assert marks == [marks[0]];
    }
    forall u | u in s'.workers && u != v ensures !Holds(s'.workers[u], j) {
      assert s'.workers[u] == s.workers[u];
    }
  }

  lemma {:induction false} ExclusiveKeepsXInv(a: Behaviour, events: seq<Event>, j: JobId)
    requires Exclusive(a, events, j)
    ensures XInv(a, Run(a, events), Log(a, events, j), j)
  {
    if events == [] {
      assert XInv(a, INITIAL, [], j);
    } else {
      var before, ev := events[..|events| - 1], events[|events| - 1];
      ExclusiveKeepsXInv(a, before, j);
      EveryInterleavingKeepsInv(a, before);
      EventKeepsXInv(a, Run(a, before), Log(a, before, j), j, ev);
    }
  }

  lemma EventKeepsXInv(a: Behaviour, s: Sys, log: seq<Mark>, j: JobId, ev: Event)
    requires Inv(a, s) && XInv(a, s, log, j) && ExclusiveStep(s, ev, j)
    ensures XInv(a, Next(a, s, ev), log + Marks(a, s, ev, j), j)
  {
    hide XInv, Inv;
    if !Possible(s, ev) {
      assert log + Marks(a, s, ev, j) == log;
    } else {
      match ev
      case Admin(op) => AdminKeepsXInv(a, s, log, j, op);
      case Hand(v, op) => HandKeepsXInv(a, s, log, j, v, op);
      case Work(v, now, fate, token) =>
        if Holds(WorkerAt(s, v), j) {
          HolderKeepsXInv(a, s, log, j, v, now, fate, token);
        } else {
          OthersKeepXInv(a, s, log, j, v, now, fate, token);
          assert log + Marks(a, s, ev, j) == log;
        }
    }
  }

  // ----- when hand-outs are exclusive -----

  /** The job is handed out under a lease that ran out, and its holder is still at work. */
  ghost predicate OutlivesLease(s: Sys, ev: Event, j: JobId) {
    HandsOutJob(s, ev, j) && Held(s, j) && Expired(s.db.jobs[j], ev.op.now)
  }

  /** The job is handed out because its delay is over, and a worker whose defer raised
      late has not yet given it back. */
  ghost predicate OutwaitsDefer(s: Sys, ev: Event, j: JobId) {
    && HandsOutJob(s, ev, j) && s.db.jobs[j].status.Waiting? && Ready(s.db.jobs[j], ev.op.now)
    && exists w :: w in s.workers && Holds(s.workers[w], j) && s.workers[w].Failing?
  }

  /** Whoever holds the job keeps its lease alive. */
  ghost predicate LeasesKept(a: Behaviour, events: seq<Event>, j: JobId) {
    events == [] || (
      var before, ev := events[..|events| - 1], events[|events| - 1];
      LeasesKept(a, before, j) && !OutlivesLease(Run(a, before), ev, j))
  }

  /** After a late defer the job is given back before it is handed out again. */
  ghost predicate DefersGivenBack(a: Behaviour, events: seq<Event>, j: JobId) {
    events == [] || (
      var before, ev := events[..|events| - 1], events[|events| - 1];
      DefersGivenBack(a, before, j) && !OutwaitsDefer(Run(a, before), ev, j))
  }

  ghost predicate Timely(a: Behaviour, events: seq<Event>, j: JobId) {
    LeasesKept(a, events, j) && DefersGivenBack(a, events, j)
  }

  /** A hand-out meets a holder in no other way. */
  lemma HandOutMeetsHolder(a: Behaviour, s: Sys, log: seq<Mark>, j: JobId, ev: Event)
    requires XInv(a, s, log, j) && HandsOutJob(s, ev, j) && Held(s, j)
    ensures OutlivesLease(s, ev, j)
         || (OutwaitsDefer(s, ev, j) && Tail(log).Some? && Tail(log).value.Waited?
             && Tail(log).value.late && Tail(log).value.until <= ev.op.now)
  {
    hide HolderOk, LogOk, EverDone, LastSaved, Ended, SoleHolder;
    var w :| w in s.workers && Holds(s.workers[w], j);
    assert HolderRow(s.workers[w], s.db.jobs[j], log);
  }

  lemma StepExclusiveExactlyWhenTimely(a: Behaviour, s: Sys, log: seq<Mark>, j: JobId, ev: Event)
    requires XInv(a, s, log, j)
    ensures ExclusiveStep(s, ev, j) <==> !OutlivesLease(s, ev, j) && !OutwaitsDefer(s, ev, j)
  {
    hide XInv, Expired, Ready;
    if HandsOutJob(s, ev, j) && Held(s, j) {
      HandOutMeetsHolder(a, s, log, j, ev);
    }
  }

  /** The exact condition for exclusive hand-outs, on leases and on late defers alone. */
  lemma {:induction false} ExclusiveExactlyWhenTimely(a: Behaviour, events: seq<Event>, j: JobId)
    ensures Exclusive(a, events, j) <==> Timely(a, events, j)
  {
    hide XInv, ExclusiveStep, OutlivesLease, OutwaitsDefer;
    if events != [] {
      var before, ev := events[..|events| - 1], events[|events| - 1];
      ExclusiveExactlyWhenTimely(a, before, j);
      if Exclusive(a, before, j) {
        ExclusiveKeepsXInv(a, before, j);
        StepExclusiveExactlyWhenTimely(a, Run(a, before), Log(a, before, j), j, ev);
      }
    }
  }

  /** Event `k` hands the job out to a second worker. */
  ghost predicate Overlaps(a: Behaviour, events: seq<Event>, j: JobId, k: nat) {
    k < |events| && (OutlivesLease(Run(a, events[..k]), events[k], j) || OutwaitsDefer(Run(a, events[..k]), events[k], j))
  }

  lemma {:induction false} UntimelyHistoriesOverlap(a: Behaviour, events: seq<Event>, j: JobId)
    requires !Timely(a, events, j)
    ensures exists k: nat :: Overlaps(a, events, j, k)
  {
    hide OutlivesLease, OutwaitsDefer;
    var n := |events| - 1;
    if Timely(a, events[..n], j) {
      assert Overlaps(a, events, j, n);
    } else {
      UntimelyHistoriesOverlap(a, events[..n], j);
      var k: nat :| Overlaps(a, events[..n], j, k);
      assert events[..n][..k] == events[..k];
      assert Overlaps(a, events, j, k);
    }
  }

  // ----- what the log says about stages and waits -----

  lemma LogFits(a: Behaviour, events: seq<Event>, j: JobId)
    requires Timely(a, events, j)
    ensures var s, log := Run(a, events), Log(a, events, j);
      (j !in s.known ==> log == []) && (j in s.known ==> LogOk(Under(a, s.known[j].trigger), s.known[j].plan, log))
  {
    hide RowAgrees, HolderOk, LogOk, Timely;
    ExclusiveExactlyWhenTimely(a, events, j);
    ExclusiveKeepsXInv(a, events, j);
  }

  /** Saved stages run again if and only if a completion raised late and its run was
      lost before a later start. */
  lemma SavedStagesRunAgainExactlyAfterALostCompletion(a: Behaviour, events: seq<Event>, j: JobId)
    requires Timely(a, events, j)
    ensures var log := Log(a, events, j);
      (exists p, q :: StartedAgain(log, p, q)) <==> (exists r, u, q :: LostCompletion(log, r, u, q))
  {
    hide LogOk;
    LogFits(a, events, j);
    if j in Run(a, events).known {
      StagesRestartExactlyAfterALostCompletion(Under(a, Run(a, events).known[j].trigger), Run(a, events).known[j].plan, Log(a, events, j));
    }
  }

  /** In any history at all: a saved stage runs again only after a lost completion, or
      after the job was handed out under a lease its holder outlived, or past a delay
      whose late defer was not yet given back. */
  lemma RestartsHaveACause(a: Behaviour, events: seq<Event>, j: JobId, p: nat, q: nat)
    requires StartedAgain(Log(a, events, j), p, q)
    ensures (exists r, u, q' :: LostCompletion(Log(a, events, j), r, u, q')) || exists k: nat :: Overlaps(a, events, j, k)
  {
    hide LostCompletion;
    if Timely(a, events, j) {
      SavedStagesRunAgainExactlyAfterALostCompletion(a, events, j);
    } else {
      UntimelyHistoriesOverlap(a, events, j);
    }
  }

  /** Started stages form a prefix: before any later stage runs, the one before it has run. */
  lemma StartedStagesFormAPrefix(a: Behaviour, events: seq<Event>, j: JobId, q: nat)
    requires Timely(a, events, j)
    requires var log := Log(a, events, j); q < |log| && log[q].Started? && log[q].stage > 0
    ensures var log := Log(a, events, j); Started(log[q].stage - 1) in log[..q]
  {
    hide LogOk;
    LogFits(a, events, j);
    StartsFormAPrefix(Under(a, Run(a, events).known[j].trigger), Run(a, events).known[j].plan, Log(a, events, j), q);
  }

  /** A delayed stage with a non-empty id waits exactly once in its pass, before it
      runs, and its job is handed out again only after the full delay, unless the defer
      raised late and the job was given back early. */
  lemma DelayedStagesWaitOnceBeforeRunning(a: Behaviour, events: seq<Event>, j: JobId, q: nat)
    requires Timely(a, events, j) && j in Run(a, events).known
    requires var log, plan := Log(a, events, j), Run(a, events).known[j].plan;
      q < |log| && log[q].Started? && IsDelayed(plan, log[q].stage) && plan[log[q].stage].id != ""
    ensures var log := Log(a, events, j);
      exists p: nat, h: nat :: OnlyWait(log, p, q) && h < q && WaitRespected(log, p, h)
  {
    hide LogOk;
    LogFits(a, events, j);
    var p, h := DelayedStagesWait(Under(a, Run(a, events).known[j].trigger), Run(a, events).known[j].plan, Log(a, events, j), q);
  }

  /** The exact condition for that: while a job rests after a wait, it can be handed out
      before the delay is over if and only if its defer raised late and it was given
      back with a back-off that ends before the delay does. */
  lemma DelaysAreCutShortExactlyAfterALateDefer(a: Behaviour, events: seq<Event>, j: JobId, p: nat)
    requires Timely(a, events, j) && j in Run(a, events).db.jobs
    requires var log := Log(a, events, j);
      p < |log| && log[p].Waited? && forall k | p < k < |log| :: !log[k].HandedOut?
    ensures var log := Log(a, events, j);
      (exists now :: now < log[p].until && Claimable(Run(a, events).db.jobs[j], now))
      <==> GivenBackEarly(log, p, |log|)
  {
    hide LogOk, Claimable, HolderOk, EverDone, RowAgrees, LinkOk, OnPath, RunOf, Run, Log, PlainRun, RunOk, WorkerOk;
    var s, log := Run(a, events), Log(a, events, j);
    var row := s.db.jobs[j];
    ExclusiveExactlyWhenTimely(a, events, j);
    ExclusiveKeepsXInv(a, events, j);
    EveryInterleavingKeepsInv(a, events);
    assert JobOk(a, s, j) && RowOk(row);
    JobRestsAfterWait(Under(a, row.trigger), row.plan, log, p, |log|);
    assert log[..|log|] == log;
    var tail := Tail(log).value;
    if tail != log[p] {
      var g :| p + 1 <= g < |log| && log[g] == tail;
    }
    EarliestHandOut(row, log, log[p].until);
  }

  lemma EarliestHandOut(row: JobRow, log: seq<Mark>, until: Time)
    requires RowOk(row) && RowAgrees(row, log) && Resume(log).Some?
    ensures (exists now :: now < until && Claimable(row, now)) <==> Resume(log).value < until
  {
    hide RowAgrees, Resume, RowOk;
    RestingJobsResumeOnTime(row, log, Resume(log).value);
    if now :| now < until && Claimable(row, now) {
      RestingJobsResumeOnTime(row, log, now);
    }
  }

  /** Only a later stage with a delay and a non-empty id ever waits. */
  lemma EmptyIdNeverWaits(a: Behaviour, events: seq<Event>, j: JobId, q: nat)
    requires Timely(a, events, j)
    requires var log := Log(a, events, j); q < |log| && log[q].Waited?
    ensures var log := Log(a, events, j);
      && j in Run(a, events).known
      && var plan := Run(a, events).known[j].plan;
         log[q].cursor.next < |plan| && IsDelayed(plan, log[q].cursor.next) && plan[log[q].cursor.next].id != ""
  {
    hide LogOk;
    LogFits(a, events, j);
    OnlyNamedDelaysWait(Under(a, Run(a, events).known[j].trigger), Run(a, events).known[j].plan, Log(a, events, j), q);
  }

  // ----- how often the job is handed out -----

  /** No process dies while holding the job (an exception that keeps `fail_job` from
      committing abandons the job just as a crash does), and no operator retries failed
      jobs. */
  ghost predicate Gentle(a: Behaviour, events: seq<Event>, j: JobId) {
    events == [] || (
      var s, ev := Run(a, events[..|events| - 1]), events[|events| - 1];
      Gentle(a, events[..|events| - 1], j) && GentleStep(s, ev, j))
  }

  predicate GentleStep(s: Sys, ev: Event, j: JobId) {
    && (ev.Admin? ==> !ev.op.RetryFailed?)
    && (ev.Work? && Holds(WorkerAt(s, ev.worker), j) ==> GentleFate(WorkerAt(s, ev.worker), ev.fate))
  }

  predicate GentleFate(w: Worker, fate: Fate) { !fate.Crash? && (w.Failing? ==> !fate.Raise?) }

  predicate AttemptsOk(row: JobRow, log: seq<Mark>) {
    && HandOuts(log) <= 3 * Waits(log) + row.attempts && row.attempts <= 3
    && (row.status.Queued? ==> row.attempts <= 2)
    && (row.status.Waiting? ==> row.attempts == 0)
  }

  ghost predicate CInv(s: Sys, log: seq<Mark>, j: JobId) {
    && HandOuts(log) <= 3 * Waits(log) + 3
    && (j in s.db.jobs ==> AttemptsOk(s.db.jobs[j], log) && (s.db.jobs[j].status.Running? ==> Held(s, j)))
  }

  lemma AdminKeepsCInv(a: Behaviour, s: Sys, log: seq<Mark>, j: JobId, op: Op)
    requires XInv(a, s, log, j) && CInv(s, log, j) && (j in s.db.jobs ==> j in s.known)
    requires Possible(s, Admin(op)) && !op.RetryFailed?
    ensures CInv(Next(a, s, Admin(op)), log + Marks(a, s, Admin(op), j), j)
  {
    hide RowAgrees, HolderOk, HolderRow, LogOk, Apply, Accepts, AttemptsOk, HandOuts, Waits, SoleHolder;
    var s' := Next(a, s, Admin(op));
    assert s'.workers == s.workers && (Held(s, j) ==> Held(s', j));
    CountsExtend(log, Unlinked);
    assert log + [] == log;
    if j in s'.db.jobs {
      AdminLeavesWork(s.db, op, j);
      if j in s.db.jobs {
        AdminLeavesRow(s.db, op, j);
        SameAttempts(s.db.jobs[j], s'.db.jobs[j], log);
      } else {
        NoAttempts(op.automation, op.trigger, op.plan, op.now);
      }
    }
  }

  lemma SameAttempts(row: JobRow, row': JobRow, log: seq<Mark>)
    requires AttemptsOk(row, log) && row'.status == row.status && row'.attempts == row.attempts
    ensures AttemptsOk(row', log) && AttemptsOk(row', log + [Unlinked])
  {
    CountsExtend(log, Unlinked);
  }

  lemma NoAttempts(automation: AutomationId, trigger: Trigger, plan: seq<Stage>, now: Time)
    ensures AttemptsOk(NewJob(automation, trigger, plan, now), []) && !NewJob(automation, trigger, plan, now).status.Running?
  {
  }

  lemma HeldStays(s: Sys, s': Sys, j: JobId, v: WorkerId)
    requires Held(s, j) && !Holds(WorkerAt(s, v), j)
    requires forall w | w in s.workers && w != v :: w in s'.workers && s'.workers[w] == s.workers[w]
    ensures Held(s', j)
  {
    var w :| w in s.workers && Holds(s.workers[w], j);
    assert Holds(s'.workers[w], j);
  }

  lemma ClaimCounts(row: JobRow, log: seq<Mark>, now: Time, lease: int)
    requires Ready(row, now) && AttemptsOk(row, log)
    ensures AttemptsOk(ClaimedRow(row, now, lease), log + [HandedOut(now)])
    ensures HandOuts(log + [HandedOut(now)]) <= 3 * Waits(log + [HandedOut(now)]) + 3
  {
    hide HandOuts, Waits, ClampLease;
    CountsExtend(log, HandedOut(now));
  }

  lemma HandKeepsCInv(a: Behaviour, s: Sys, log: seq<Mark>, j: JobId, v: WorkerId, op: Op)
    requires CInv(s, log, j) && Possible(s, Hand(v, op)) && ExclusiveStep(s, Hand(v, op), j)
    ensures CInv(Next(a, s, Hand(v, op)), log + Marks(a, s, Hand(v, op), j), j)
  {
    hide Start, ClaimedRow, AttemptsOk, HandOuts, Waits, ClampLease, Ready;
    var s' := Next(a, s, Hand(v, op));
    StartHolds(op.id, s'.db.jobs[op.id]);
    if op.id == j {
      assert Ready(s.db.jobs[j], op.now);
      ClaimCounts(s.db.jobs[j], log, op.now, op.lease);
      assert Holds(s'.workers[v], j);
    } else {
      assert log + Marks(a, s, Hand(v, op), j) == log;
      if Held(s, j) {
        HeldStays(s, s', j, v);
      }
    }
  }

  lemma HolderStepCounts(a: Behaviour, db: Db, w: Worker, now: Time, fate: Fate, token: RunId, j: JobId)
    requires Holds(w, j) && GentleFate(w, fate)
    requires j in db.jobs && (!w.Failing? ==> db.jobs[j].status.Running?) && db.jobs[j].attempts <= 3
    ensures var db' := StepDb(a, db, w, now, fate, token);
      && j in db'.jobs
      && var row' := db'.jobs[j];
         && (row'.status.Running? ==> Holds(StepWorker(a, db, w, now, fate, token), j))
         && (row'.attempts == db.jobs[j].attempts || (row'.attempts == 0 && row'.status.Waiting?
              && w.AtStage? && !BeginsStage(w) && Commits(a, db, w, now, fate, token)))
         && (row'.status.Queued? ==> row'.attempts <= 2)
         && (row'.status.Waiting? ==> row'.attempts == 0)
  {
    hide RunStage;
  }

  lemma HolderKeepsCInv(a: Behaviour, s: Sys, log: seq<Mark>, j: JobId, v: WorkerId, now: Time, fate: Fate, token: RunId)
    requires XInv(a, s, log, j) && CInv(s, log, j) && Possible(s, Work(v, now, fate, token))
    requires v in s.workers && Holds(s.workers[v], j) && GentleFate(s.workers[v], fate)
    ensures CInv(Next(a, s, Work(v, now, fate, token)), log + Marks(a, s, Work(v, now, fate, token), j), j)
  {
    hide RowAgrees, HolderOk, LogOk, StepDb, StepWorker, Commits, HolderMarks, HandOuts, Waits, AttemptsOk;
    var s', w := Next(a, s, Work(v, now, fate, token)), s.workers[v];
    HolderMarksCount(a, s.db, w, now, fate, token, log);
    if j in s'.db.jobs {
      WorkTouchesOwnRow(a, s.db, w, now, fate, token, j);
      HolderKeepsAttempts(a, s.db, w, now, fate, token, j, log);
      assert Holds(s'.workers[v], j) ==> Held(s', j);
    }
  }

  /** A step adds at most a wait to the counts. */
  lemma HolderMarksCount(a: Behaviour, db: Db, w: Worker, now: Time, fate: Fate, token: RunId, log: seq<Mark>)
    ensures var marks := HolderMarks(a, db, w, now, fate, token);
      && HandOuts(log + marks) == HandOuts(log)
      && Waits(log + marks) == Waits(log) + (if w.AtStage? && !BeginsStage(w) && Commits(a, db, w, now, fate, token) then 1 else 0)
  {
    hide Commits, HandOuts, Waits, RunStage;
    var marks := HolderMarks(a, db, w, now, fate, token);
    if marks == [] {
      assert log + marks == log;
    } else {
      assert marks == [marks[0]] && !marks[0].HandedOut?;
      CountsExtend(log, marks[0]);
    }
  }

  lemma HolderKeepsAttempts(a: Behaviour, db: Db, w: Worker, now: Time, fate: Fate, token: RunId, j: JobId, log: seq<Mark>)
    requires Holds(w, j) && GentleFate(w, fate) && j in db.jobs && AttemptsOk(db.jobs[j], log)
    requires !w.Failing? ==> db.jobs[j].status.Running?
    requires HandOuts(log) <= 3 * Waits(log) + 3
    ensures var db' := StepDb(a, db, w, now, fate, token);
      && j in db'.jobs && AttemptsOk(db'.jobs[j], log + HolderMarks(a, db, w, now, fate, token))
      && (db'.jobs[j].status.Running? ==> Holds(StepWorker(a, db, w, now, fate, token), j))
  {
    hide StepDb, StepWorker, Commits, HolderMarks, HandOuts, Waits;
    HolderMarksCount(a, db, w, now, fate, token, log);
    HolderStepCounts(a, db, w, now, fate, token, j);
  }

  lemma OthersKeepCInv(a: Behaviour, s: Sys, log: seq<Mark>, j: JobId, v: WorkerId, now: Time, fate: Fate, token: RunId)
    requires CInv(s, log, j) && Possible(s, Work(v, now, fate, token)) && !Holds(WorkerAt(s, v), j)
    ensures CInv(Next(a, s, Work(v, now, fate, token)), log, j)
  {
    hide StepDb, StepWorker, Commits;
    var s' := Next(a, s, Work(v, now, fate, token));
    OthersLeaveRow(a, s.db, WorkerAt(s, v), now, fate, token, j);
    if Held(s, j) {
      HeldStays(s, s', j, v);
    }
  }

  lemma EventKeepsCInv(a: Behaviour, s: Sys, log: seq<Mark>, j: JobId, ev: Event)
    requires XInv(a, s, log, j) && CInv(s, log, j) && (j in s.db.jobs ==> j in s.known)
    requires ExclusiveStep(s, ev, j) && GentleStep(s, ev, j)
    ensures CInv(Next(a, s, ev), log + Marks(a, s, ev, j), j)
  {
    hide XInv, CInv;
    if !Possible(s, ev) {
      assert log + Marks(a, s, ev, j) == log;
    } else {
      match ev
      case Admin(op) => AdminKeepsCInv(a, s, log, j, op);
      case Hand(v, op) => HandKeepsCInv(a, s, log, j, v, op);
      case Work(v, now, fate, token) =>
        if Holds(WorkerAt(s, v), j) {
          HolderKeepsCInv(a, s, log, j, v, now, fate, token);
        } else {
          OthersKeepCInv(a, s, log, j, v, now, fate, token);
          assert log + Marks(a, s, ev, j) == log;
        }
    }
  }

  lemma {:induction false} GentleKeepsCInv(a: Behaviour, events: seq<Event>, j: JobId)
    requires Exclusive(a, events, j) && Gentle(a, events, j)
    ensures CInv(Run(a, events), Log(a, events, j), j)
  {
    hide XInv, WellFormed;
    if events != [] {
      var before, ev := events[..|events| - 1], events[|events| - 1];
      var s := Run(a, before);
      GentleKeepsCInv(a, before, j);
      ExclusiveKeepsXInv(a, before, j);
      EveryInterleavingKeepsInv(a, before);
      assert j in s.db.jobs ==> JobOk(a, s, j);
      EventKeepsCInv(a, s, Log(a, before, j), j, ev);
    }
  }

  /** Without crashes and operator retries a job is handed out at most three times for
      each stretch between delays, however long the history: three times in all for each
      delayed stage and once more, and as much again for each lost run. */
  lemma HandOutsAreBounded(a: Behaviour, events: seq<Event>, j: JobId)
    requires Timely(a, events, j) && Gentle(a, events, j) && j in Run(a, events).known
    ensures var plan, log := Run(a, events).known[j].plan, Log(a, events, j);
      HandOuts(log) <= 3 * (1 + (Losses(log) + 1) * Delayed(plan, |plan|))
  {
    hide LogOk, Delayed, HandOuts, Waits, Losses, AttemptsOk;
    ExclusiveExactlyWhenTimely(a, events, j);
    GentleKeepsCInv(a, events, j);
    LogFits(a, events, j);
    WaitsAreBounded(Under(a, Run(a, events).known[j].trigger), Run(a, events).known[j].plan, Log(a, events, j));
  }
}
