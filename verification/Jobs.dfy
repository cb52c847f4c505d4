/** The durable job table of the automation store: one value-level step for each
    committed transaction, and what every such step keeps. */
module Jobs {
  import opened Common
  import opened Pipeline

  type AutomationId = nat
  type JobId = nat
  type RunId = nat

  const MAX_STAGE_DELAY := 86400
  const MAX_ATTEMPTS := 3

  datatype Status = Queued | Running | Waiting | Completed | Failed

  datatype JobRow = JobRow(
    automation: AutomationId, status: Status, queuedAt: Time,
    claimedAt: Option<Time>, startedAt: Option<Time>, finishedAt: Option<Time>,
    leaseUntil: Option<Time>, nextAttemptAt: Option<Time>, attempts: nat,
    trigger: Trigger, plan: seq<Stage>, progress: Option<Cursor>, runId: Option<RunId>)

  datatype RunRow = RunRow(automation: AutomationId, startedAt: Time, results: seq<ActionResult>)

  datatype Db = Db(automations: set<AutomationId>, jobs: map<JobId, JobRow>, runs: map<RunId, RunRow>)

  const EMPTY_DB := Db({}, map[], map[])

  function NewJob(automation: AutomationId, trigger: Trigger, plan: seq<Stage>, now: Time): JobRow {
    JobRow(automation, Queued, now, None, None, None, None, None, 0, trigger, plan, None, None)
  }

  // ----- claiming -----

  function ClampLease(seconds: int): int { Max(30, Min(seconds, 3600)) }

  predicate DueAt(t: Option<Time>, now: Time) { t.None? || t.value <= now }

  /** A job that has not been handed out, and whose wait (if any) is over. */
  predicate Ready(row: JobRow, now: Time) {
    (row.status.Queued? || row.status.Waiting?) && DueAt(row.nextAttemptAt, now)
  }

  predicate Expired(row: JobRow, now: Time) {
    row.status.Running? && row.leaseUntil.Some? && row.leaseUntil.value <= now
  }

  /** What `claim_jobs` may hand out; `claim_job` only hands out `Ready` rows. */
  predicate Claimable(row: JobRow, now: Time) { Ready(row, now) || Expired(row, now) }

  function ClaimedRow(row: JobRow, now: Time, lease: int): JobRow {
    row.(status := Running,
         claimedAt := Some(now),
         startedAt := if row.startedAt.Some? then row.startedAt else Some(now),
         leaseUntil := Some(now + ClampLease(lease) as real),
         nextAttemptAt := None,
         attempts := row.attempts + 1)
  }

  // ----- one operation per transaction -----

  datatype Op =
    | AddAutomation(automation: AutomationId)
    | Enqueue(id: JobId, automation: AutomationId, trigger: Trigger, plan: seq<Stage>, now: Time)
    | Claim(id: JobId, now: Time, lease: int)
    | ClaimById(id: JobId, now: Time, lease: int)
    | Renew(id: JobId, now: Time, lease: int)
    | SaveProgress(id: JobId, progress: Cursor)
    | Defer(id: JobId, now: Time, delay: int, progress: Cursor)
    | RecordRun(run: RunId, automation: AutomationId, now: Time, results: seq<ActionResult>)
    | Link(id: JobId, run: RunId)
    | Complete(id: JobId, run: RunId, now: Time)
    | Fail(id: JobId, now: Time)
    | RetryFailed(now: Time)
    | DeleteRun(run: RunId)
    | ClearRuns(automation: AutomationId)
    | Prune(now: Time, runDays: nat)
    | DeleteAutomation(automation: AutomationId)
    | ClearAll

  predicate IsRunning(db: Db, id: JobId) { id in db.jobs && db.jobs[id].status.Running? }

  /** Whether the transaction commits; a refused one raises and leaves the tables as they were. */
  predicate Accepts(db: Db, op: Op) {
    match op
    case AddAutomation(automation) => automation !in db.automations
    case Enqueue(id, automation, trigger, plan, now) => id !in db.jobs && automation in db.automations
    case Claim(id, now, lease) => id in db.jobs && Claimable(db.jobs[id], now)
    case ClaimById(id, now, lease) => id in db.jobs && Ready(db.jobs[id], now)
    case Renew(id, now, lease) => IsRunning(db, id)
    case SaveProgress(id, progress) => IsRunning(db, id)
    case Defer(id, now, delay, progress) => 1 <= delay <= MAX_STAGE_DELAY && IsRunning(db, id)
    case RecordRun(run, automation, now, results) => run !in db.runs && automation in db.automations
    case Link(id, run) => IsRunning(db, id) && run in db.runs
    case Complete(id, run, now) => IsRunning(db, id) && run in db.runs
    case Fail(id, now) => id in db.jobs
    case RetryFailed(now) => true
    case DeleteRun(run) => run in db.runs
    case ClearRuns(automation) => automation in db.automations
    case Prune(now, runDays) => true
    case DeleteAutomation(automation) =>
      && automation in db.automations
      && forall j | j in db.jobs :: db.jobs[j].automation == automation
           ==> db.jobs[j].status.Completed? || db.jobs[j].status.Failed?
    case ClearAll => true
  }

  function Pow2(n: nat): nat { if n == 0 then 1 else 2 * Pow2(n - 1) }

  function RetryDelay(attempts: nat): int { Min(300, 5 * Pow2(Max(0, attempts - 1))) }

  function FailedRow(row: JobRow, now: Time): JobRow {
    var terminal := row.attempts >= MAX_ATTEMPTS;
    row.(status := if terminal then Failed else Queued,
         finishedAt := if terminal then Some(now) else None,
         leaseUntil := None,
         nextAttemptAt := if terminal then None else Some(now + RetryDelay(row.attempts) as real))
  }

  function RetriedRow(row: JobRow, now: Time): JobRow {
    if row.status.Failed? then
      row.(status := Queued, nextAttemptAt := Some(now), attempts := 0,
           claimedAt := None, startedAt := None, finishedAt := None, leaseUntil := None)
    else row
  }

  function DeferredRow(row: JobRow, now: Time, delay: int, progress: Cursor): JobRow {
    row.(status := Waiting, nextAttemptAt := Some(now + delay as real), leaseUntil := None,
         claimedAt := None, attempts := 0, progress := Some(progress))
  }

  function CompletedRow(row: JobRow, run: RunId, now: Time): JobRow {
    row.(status := Completed, finishedAt := Some(now), leaseUntil := None,
         runId := Some(run), progress := None)
  }

  /** `ON DELETE SET NULL` on a job's run reference. */
  function Unlink(row: JobRow, gone: set<RunId>): JobRow {
    if row.runId.Some? && row.runId.value in gone then row.(runId := None) else row
  }

  function PutJob(db: Db, id: JobId, row: JobRow): Db { db.(jobs := db.jobs[id := row]) }

  /** Deletes runs, after the jobs in `jobsToo`, with the schema's cascade on the other jobs. */
  function DropRuns(db: Db, gone: set<RunId>, jobsToo: set<JobId>): Db {
    db.(jobs := map j | j in db.jobs && j !in jobsToo :: Unlink(db.jobs[j], gone),
        runs := map r | r in db.runs && r !in gone :: db.runs[r])
  }

  function RunsOf(db: Db, automation: AutomationId): set<RunId> {
    set r | r in db.runs && db.runs[r].automation == automation
  }

  function ExpiredRuns(db: Db, now: Time, runDays: nat): set<RunId> {
    if runDays == 0 then {}
    else set r | r in db.runs && db.runs[r].startedAt < now - (runDays * 86400) as real
  }

  function JobsLinkedTo(db: Db, runs: set<RunId>): set<JobId> {
    set j | j in db.jobs && db.jobs[j].runId.Some? && db.jobs[j].runId.value in runs
  }

  /** The tables after the operation. */
  function Apply(db: Db, op: Op): Db {
    if !Accepts(db, op) then db
    else match op
      case AddAutomation(automation) => db.(automations := db.automations + {automation})
      case Enqueue(id, automation, trigger, plan, now) => PutJob(db, id, NewJob(automation, trigger, plan, now))
      case Claim(id, now, lease) => PutJob(db, id, ClaimedRow(db.jobs[id], now, lease))
      case ClaimById(id, now, lease) => PutJob(db, id, ClaimedRow(db.jobs[id], now, lease))
      case Renew(id, now, lease) =>
        PutJob(db, id, db.jobs[id].(leaseUntil := Some(now + ClampLease(lease) as real)))
      case SaveProgress(id, progress) => PutJob(db, id, db.jobs[id].(progress := Some(progress)))
      case Defer(id, now, delay, progress) => PutJob(db, id, DeferredRow(db.jobs[id], now, delay, progress))
      case RecordRun(run, automation, now, results) =>
        db.(runs := db.runs[run := RunRow(automation, now, results)])
      case Link(id, run) => PutJob(db, id, db.jobs[id].(runId := Some(run)))
      case Complete(id, run, now) => PutJob(db, id, CompletedRow(db.jobs[id], run, now))
      case Fail(id, now) => PutJob(db, id, FailedRow(db.jobs[id], now))
      case RetryFailed(now) => db.(jobs := map j | j in db.jobs :: RetriedRow(db.jobs[j], now))
      case DeleteRun(run) => DropRuns(db, {run}, JobsLinkedTo(db, {run}))
      case ClearRuns(automation) =>
        DropRuns(db, RunsOf(db, automation),
                 set j | j in db.jobs && db.jobs[j].automation == automation && db.jobs[j].status.Completed?)
      case Prune(now, runDays) =>
        var gone := ExpiredRuns(db, now, runDays);
        DropRuns(db, gone, JobsLinkedTo(db, gone))
      case DeleteAutomation(automation) =>
        Db(db.automations - {automation},
           map j | j in db.jobs && db.jobs[j].automation != automation :: db.jobs[j],
           map r | r in db.runs && db.runs[r].automation != automation :: db.runs[r])
      case ClearAll => EMPTY_DB
  }

  // ----- what every transaction keeps -----

  /** The row-local half of well-formedness. */
  predicate RowOk(row: JobRow) {
    && (row.status.Running? <==> row.leaseUntil.Some?)
    && (row.status.Running? ==> row.attempts >= 1 && row.nextAttemptAt.None?)
    && (row.status.Waiting? ==> row.nextAttemptAt.Some? && row.progress.Some?)
    && (row.status.Completed? ==> row.runId.Some? && row.progress.None?)
    && (row.finishedAt.Some? <==> row.status.Completed? || row.status.Failed?)
  }

  /** A linked run exists and belongs to the job's own automation. */
  predicate LinkOk(db: Db, row: JobRow) {
    row.runId.Some? ==> row.runId.value in db.runs && db.runs[row.runId.value].automation == row.automation
  }

  ghost predicate WellFormed(db: Db) {
    && (forall j | j in db.jobs ::
         RowOk(db.jobs[j]) && LinkOk(db, db.jobs[j]) && db.jobs[j].automation in db.automations)
    && (forall r | r in db.runs :: db.runs[r].automation in db.automations)
  }

  /** What callers promise about the run they link: it is a run of the job's own automation. */
  predicate OwnRun(db: Db, op: Op) {
    match op
    case Link(id, run) => id in db.jobs && run in db.runs ==> db.runs[run].automation == db.jobs[id].automation
    case Complete(id, run, now) =>
      id in db.jobs && run in db.runs ==> db.runs[run].automation == db.jobs[id].automation
    case _ => true
  }

  lemma PutKeepsWellFormed(db: Db, id: JobId, row: JobRow)
    requires WellFormed(db) && RowOk(row) && LinkOk(db, row) && row.automation in db.automations
    ensures WellFormed(PutJob(db, id, row))
  {
  }

  /** Whether the operation changes at most the row of one job. */
  predicate OneRow(op: Op) {
    op.Enqueue? || op.Claim? || op.ClaimById? || op.Renew? || op.SaveProgress? || op.Defer? || op.Link? || op.Complete? || op.Fail?
  }

  lemma OneRowKeepsWellFormed(db: Db, op: Op)
    requires WellFormed(db) && OwnRun(db, op) && OneRow(op) && Accepts(db, op)
    ensures WellFormed(Apply(db, op))
  {
    var db' := Apply(db, op);
    var row := db'.jobs[op.id];
    assert op.id in db.jobs ==> RowOk(db.jobs[op.id]) && LinkOk(db, db.jobs[op.id]);
    assert RowOk(row) && LinkOk(db, row) && row.automation in db.automations;
    PutKeepsWellFormed(db, op.id, row);
  }

  lemma OpsKeepWellFormed(db: Db, op: Op)
    requires WellFormed(db) && OwnRun(db, op)
    ensures WellFormed(Apply(db, op))
  {
    if Accepts(db, op) {
      if OneRow(op) {
        OneRowKeepsWellFormed(db, op);
      } else if op.ClearRuns? {
        ClearRunsKeepsWellFormed(db, op.automation);
      }
    }
  }

  /** Clearing an automation's history removes its runs and its completed jobs; a job
      of another automation cannot be linked to any of those runs. */
  lemma ClearRunsKeepsWellFormed(db: Db, automation: AutomationId)
    requires WellFormed(db)
    ensures WellFormed(Apply(db, ClearRuns(automation)))
  {
    var db' := Apply(db, ClearRuns(automation));
    if automation in db.automations {
      forall j | j in db'.jobs
        ensures RowOk(db'.jobs[j]) && LinkOk(db', db'.jobs[j]) && db'.jobs[j].automation in db'.automations
      {
        assert RowOk(db.jobs[j]) && LinkOk(db, db.jobs[j]);
      }
    }
  }

  /** Without the promise about linked runs the table can become ill-formed: completing
      a job with another automation's run, then clearing that automation's history,
      leaves a completed job with no run. */
  lemma ForeignLinkBreaksTable(db: Db, id: JobId, run: RunId, now: Time)
    requires WellFormed(db) && IsRunning(db, id)
    requires run in db.runs && db.runs[run].automation != db.jobs[id].automation
    ensures !WellFormed(Apply(Apply(db, Complete(id, run, now)), ClearRuns(db.runs[run].automation)))
  {
    var db1 := Apply(db, Complete(id, run, now));
    var db2 := Apply(db1, ClearRuns(db.runs[run].automation));
    assert run in RunsOf(db1, db.runs[run].automation);
    assert db2.jobs[id] == db1.jobs[id].(runId := None);
    assert !RowOk(db2.jobs[id]);
  }

  // ----- histories -----

  function Replay(db: Db, ops: seq<Op>): Db {
    if ops == [] then db else Apply(Replay(db, ops[..|ops| - 1]), ops[|ops| - 1])
  }

  /** Every linked run in the history is a run of the job's own automation. */
  ghost predicate OwnRuns(ops: seq<Op>) {
    forall k | 0 <= k < |ops| :: OwnRun(Replay(EMPTY_DB, ops[..k]), ops[k])
  }

  lemma {:induction false} HistoriesKeepWellFormed(ops: seq<Op>)
    requires OwnRuns(ops)
    ensures WellFormed(Replay(EMPTY_DB, ops))
  {
    if ops != [] {
      var before := ops[..|ops| - 1];
      forall k | 0 <= k < |before| ensures OwnRun(Replay(EMPTY_DB, before[..k]), before[k]) {
        assert before[..k] == ops[..k];
      }
      HistoriesKeepWellFormed(before);
      OpsKeepWellFormed(Replay(EMPTY_DB, before), ops[|ops| - 1]);
    }
  }

  predicate HandsOut(op: Op, id: JobId) { (op.Claim? || op.ClaimById?) && op.id == id }

  predicate Extends(op: Op, id: JobId) { op.Renew? && op.id == id }

  predicate Releases(op: Op, id: JobId) { (op.Defer? || op.Complete? || op.Fail?) && op.id == id }

  /** When the lease on a job runs out, read off the history alone: set by the latest
      hand-out or renewal, and gone once the job is released or deleted. */
  function LeaseEnd(ops: seq<Op>, id: JobId): Option<Time> {
    if ops == [] then None
    else
      var before, op := ops[..|ops| - 1], ops[|ops| - 1];
      if id !in Replay(EMPTY_DB, ops).jobs then None
      else if !Accepts(Replay(EMPTY_DB, before), op) then LeaseEnd(before, id)
      else if HandsOut(op, id) || Extends(op, id) then Some(op.now + ClampLease(op.lease) as real)
      else if Releases(op, id) then None
      else LeaseEnd(before, id)
  }

  /** The row's lease is set exactly while the job runs. */
  predicate LeaseOk(row: JobRow) { row.leaseUntil.Some? <==> row.status.Running? }

  /** What an accepted operation does to the lease of a job that stays. */
  lemma OpOnLease(db: Db, op: Op, id: JobId)
    requires Accepts(db, op) && id in Apply(db, op).jobs && (id in db.jobs ==> LeaseOk(db.jobs[id]))
    ensures LeaseOk(Apply(db, op).jobs[id])
    ensures Apply(db, op).jobs[id].leaseUntil ==
      if HandsOut(op, id) || Extends(op, id) then Some(op.now + ClampLease(op.lease) as real)
      else if Releases(op, id) || id !in db.jobs then None
      else db.jobs[id].leaseUntil
  {
    hide RetryDelay, ClampLease, ExpiredRuns, JobsLinkedTo, RunsOf;
  }

  lemma {:induction false} LeaseColumnFollowsHistory(ops: seq<Op>, id: JobId)
    ensures var db := Replay(EMPTY_DB, ops);
      && (LeaseEnd(ops, id).Some? <==> IsRunning(db, id))
      && (id in db.jobs ==> db.jobs[id].leaseUntil == LeaseEnd(ops, id))
  {
    hide Apply, Accepts, ClampLease;
    if ops != [] {
      var before, op := ops[..|ops| - 1], ops[|ops| - 1];
      var db := Replay(EMPTY_DB, before);
      LeaseColumnFollowsHistory(before, id);
      if !Accepts(db, op) {
        RefusedChangesNothing(db, op);
      } else if id in Apply(db, op).jobs {
        OpOnLease(db, op, id);
      }
    }
  }

  lemma RefusedChangesNothing(db: Db, op: Op)
    requires !Accepts(db, op)
    ensures Apply(db, op) == db
  {
  }

  /** In every history, a job is never handed out while a lease on it is unexpired
      and unreleased; and a claim by id never takes over a running job at all. */
  lemma HandOutsRespectLeases(ops: seq<Op>, op: Op, id: JobId)
    requires HandsOut(op, id) && Accepts(Replay(EMPTY_DB, ops), op)
    ensures LeaseEnd(ops, id).Some? ==> op.Claim? && LeaseEnd(ops, id).value <= op.now
  {
    LeaseColumnFollowsHistory(ops, id);
  }
}
