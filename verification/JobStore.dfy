/** The store object: every method is one transaction on the tables it holds. */
module JobStore {
  import opened Common
  import opened Pipeline
  import opened Jobs

  /** The order in which due jobs are selected: by queueing time, then by id. */
  predicate Before(db: Db, a: JobId, b: JobId)
    requires a in db.jobs && b in db.jobs
  {
    db.jobs[a].queuedAt < db.jobs[b].queuedAt || (db.jobs[a].queuedAt == db.jobs[b].queuedAt && a < b)
  }

  predicate Offered(db: Db, id: JobId, now: Time, excluded: set<AutomationId>) {
    id in db.jobs && Claimable(db.jobs[id], now) && db.jobs[id].automation !in excluded
  }

  /** `picked` lists, oldest first, the oldest offered jobs, and leaves one out only
      when the limit is reached. */
  ghost predicate OldestFirst(db: Db, picked: seq<JobId>, now: Time, limit: nat, excluded: set<AutomationId>) {
    && |picked| <= limit
    && (forall i | 0 <= i < |picked| :: Offered(db, picked[i], now, excluded))
    && (forall i, j | 0 <= i < j < |picked| :: Before(db, picked[i], picked[j]))
    && (forall id | Offered(db, id, now, excluded) && id !in picked ::
         |picked| == limit && forall i | 0 <= i < |picked| :: Before(db, picked[i], id))
  }

  /** The tables after the jobs in `ids` are claimed one by one. */
  function ClaimEach(db: Db, ids: seq<JobId>, now: Time, lease: int): Db {
    if ids == [] then db
    else Apply(ClaimEach(db, ids[..|ids| - 1], now, lease), Claim(ids[|ids| - 1], now, lease))
  }

  lemma {:induction false} ClaimEachTouchesOnlyIds(db: Db, ids: seq<JobId>, now: Time, lease: int)
    requires forall i | 0 <= i < |ids| :: ids[i] in db.jobs && Claimable(db.jobs[ids[i]], now)
    requires forall i, j | 0 <= i < j < |ids| :: ids[i] != ids[j]
    ensures var db' := ClaimEach(db, ids, now, lease);
      && db'.automations == db.automations && db'.runs == db.runs && db'.jobs.Keys == db.jobs.Keys
      && (forall j | j in db.jobs :: db'.jobs[j] ==
           if j in ids then ClaimedRow(db.jobs[j], now, lease) else db.jobs[j])
  {
    hide Claimable;
    if ids != [] {
      var rest, last := ids[..|ids| - 1], ids[|ids| - 1];
      ClaimEachTouchesOnlyIds(db, rest, now, lease);
      assert last !in rest;
      assert ids == rest + [last];
    }
  }

  /** Distinct claimable jobs, as the selection picks them. */
  predicate Pickable(db: Db, ids: seq<JobId>, now: Time) {
    && (forall i | 0 <= i < |ids| :: ids[i] in db.jobs && Claimable(db.jobs[ids[i]], now))
    && (forall i, j | 0 <= i < j < |ids| :: ids[i] != ids[j])
  }

  lemma OldestArePickable(db: Db, picked: seq<JobId>, now: Time, limit: nat, excluded: set<AutomationId>)
    requires OldestFirst(db, picked, now, limit, excluded)
    ensures Pickable(db, picked, now)
  {
    forall i, j | 0 <= i < j < |picked| ensures picked[i] != picked[j] {
      assert Before(db, picked[i], picked[j]);
    }
  }

  lemma OldestAreOffered(db: Db, picked: seq<JobId>, now: Time, limit: nat, excluded: set<AutomationId>)
    requires OldestFirst(db, picked, now, limit, excluded)
    ensures forall id | id in picked :: Offered(db, id, now, excluded)
    ensures forall id | Offered(db, id, now, excluded) ::
      id in picked || (|picked| == limit && forall i | 0 <= i < |picked| :: QueuedUpTo(db.jobs[picked[i]], picked[i], db.jobs[id], id))
    ensures forall i, j | 0 <= i < j < |picked| :: QueuedUpTo(db.jobs[picked[i]], picked[i], db.jobs[picked[j]], picked[j])
  {
  }

  lemma ClaimOneMore(db: Db, ids: seq<JobId>, i: nat, now: Time, lease: int)
    requires Pickable(db, ids, now) && i < |ids|
    ensures var db1 := ClaimEach(db, ids[..i], now, lease);
      && ids[i] in db1.jobs
      && ClaimEach(db, ids[..i + 1], now, lease) == PutJob(db1, ids[i], ClaimedRow(db1.jobs[ids[i]], now, lease))
  {
    hide ClaimedRow, Claimable;
    ClaimEachTouchesOnlyIds(db, ids[..i], now, lease);
    assert ids[i] !in ids[..i];
    assert ids[..i + 1][..i] == ids[..i];
  }

  /** What a claim may take: a queued or waiting job whose time has come, or a running
      one whose lease is over. */
  predicate WasClaimable(row: JobRow, now: Time) {
    || (row.status in {Queued, Waiting} && !(row.nextAttemptAt.Some? && row.nextAttemptAt.value > now))
    || (row.status == Running && row.leaseUntil.Some? && row.leaseUntil.value <= now)
  }

  /** Queued earlier, or at the same time with the smaller id. */
  predicate QueuedUpTo(row: JobRow, id: JobId, other: JobRow, otherId: JobId) {
    row.queuedAt <= other.queuedAt && (row.queuedAt == other.queuedAt ==> id < otherId)
  }

  /** What no transaction changes about a job. */
  predicate SameJob(row: JobRow, was: JobRow) {
    && row.automation == was.automation && row.queuedAt == was.queuedAt
    && row.trigger == was.trigger && row.plan == was.plan
  }

  /** The lease lasts what was asked for, but at least half a minute and at most an hour. */
  predicate LeasedFor(row: JobRow, now: Time, lease: int) {
    row.leaseUntil == Some(now + (if lease < 30 then 30 else if lease > 3600 then 3600 else lease) as real)
  }

  predicate HandedOut(was: JobRow, row: JobRow, now: Time, lease: int) {
    && row.status == Running && LeasedFor(row, now, lease)
    && row.claimedAt == Some(now) && row.nextAttemptAt.None? && row.attempts == was.attempts + 1
    && row.startedAt == (if was.startedAt.Some? then was.startedAt else Some(now))
    && SameJob(row, was) && row.finishedAt == was.finishedAt && row.progress == was.progress && row.runId == was.runId
  }

  lemma ClaimedIsHandedOut(row: JobRow, now: Time, lease: int)
    ensures HandedOut(row, ClaimedRow(row, now, lease), now, lease)
    ensures WasClaimable(row, now) <==> Claimable(row, now)
  {
  }

  class Store {
    var automations: set<AutomationId>
    var jobs: map<JobId, JobRow>
    var runs: map<RunId, RunRow>

    function Tables(): Db
      reads this
    {
      Db(automations, jobs, runs)
    }

    constructor ()
      ensures Tables() == EMPTY_DB
    {
      automations, jobs, runs := {}, map[], map[];
    }

    method AddAutomation(automation: AutomationId) returns (ok: bool)
      modifies this
      ensures ok == Accepts(old(Tables()), Op.AddAutomation(automation))
      ensures Tables() == Apply(old(Tables()), Op.AddAutomation(automation))
    {
      ok := automation !in automations;
      automations := automations + {automation};
    }

    method EnqueueJob(id: JobId, automation: AutomationId, trigger: Trigger, plan: seq<Stage>, now: Time) returns (ok: bool)
      modifies this`jobs
      ensures ok == Accepts(old(Tables()), Enqueue(id, automation, trigger, plan, now))
      ensures Tables() == Apply(old(Tables()), Enqueue(id, automation, trigger, plan, now))
      ensures ok <==> id !in old(jobs) && automation in automations
      ensures ok ==> jobs == old(jobs)[id := JobRow(
        automation := automation, status := Queued, queuedAt := now, claimedAt := None, startedAt := None,
        finishedAt := None, leaseUntil := None, nextAttemptAt := None, attempts := 0, trigger := trigger, plan := plan,
        progress := None, runId := None)]
    {
      ok := id !in jobs && automation in automations;
      if ok {
        jobs := jobs[id := NewJob(automation, trigger, plan, now)];
      }
    }

    /** `ORDER BY queued_at, id LIMIT n` over the offered rows. */
    method SelectDue(now: Time, limit: nat, excluded: set<AutomationId>) returns (picked: seq<JobId>)
      ensures OldestFirst(Tables(), picked, now, limit, excluded)
      ensures forall id | id in picked :: id in jobs && WasClaimable(jobs[id], now) && jobs[id].automation !in excluded
      ensures forall i, j | 0 <= i < j < |picked| :: QueuedUpTo(jobs[picked[i]], picked[i], jobs[picked[j]], picked[j])
      ensures forall id | id in jobs && WasClaimable(jobs[id], now) && jobs[id].automation !in excluded && id !in picked ::
        |picked| == limit && forall i | 0 <= i < |picked| :: QueuedUpTo(jobs[picked[i]], picked[i], jobs[id], id)
    {
      picked := [];
      var left := set id | id in jobs && Offered(Tables(), id, now, excluded);
      while |picked| < limit && left != {}
        invariant |picked| <= limit
        invariant forall id :: id in left <==> Offered(Tables(), id, now, excluded) && id !in picked
        invariant forall i | 0 <= i < |picked| :: Offered(Tables(), picked[i], now, excluded)
        invariant forall i, j | 0 <= i < j < |picked| :: Before(Tables(), picked[i], picked[j])
        invariant forall i, id | 0 <= i < |picked| && id in left :: Before(Tables(), picked[i], id)
        decreases left
      {
        var oldest := Oldest(left);
        picked := picked + [oldest];
        left := left - {oldest};
      }
    }

    method Oldest(ids: set<JobId>) returns (oldest: JobId)
      requires ids != {} && ids <= jobs.Keys
      ensures oldest in ids
      ensures forall id | id in ids && id != oldest :: Before(Tables(), oldest, id)
    {
      oldest :| oldest in ids;
      var left := ids - {oldest};
      while left != {}
        invariant left <= ids && oldest in ids && oldest !in left
        invariant forall id | id in ids - left && id != oldest :: Before(Tables(), oldest, id)
        decreases left
      {
        var id :| id in left;
        ghost var seen, was := ids - left, oldest;
        left := left - {id};
        if Before(Tables(), id, oldest) {
          oldest := id;
        }
        forall other | other in ids - left && other != oldest ensures Before(Tables(), oldest, other) {
          assert other in seen || other == id;
          assert other != was ==> other == id || Before(Tables(), was, other);
        }
      }
    }

    method ClaimJobs(now: Time, limit: int, lease: int, excluded: set<AutomationId>) returns (claimed: seq<JobId>)
      modifies this`jobs
      ensures OldestFirst(old(Tables()), claimed, now, Max(1, limit), excluded)
      ensures Tables() == ClaimEach(old(Tables()), claimed, now, lease)
      ensures forall id | id in claimed :: id in jobs && jobs[id] == ClaimedRow(old(jobs)[id], now, lease)
      ensures forall id | id in claimed :: id in jobs && HandedOut(old(jobs)[id], jobs[id], now, lease)
      ensures jobs.Keys == old(jobs).Keys && forall id | id in jobs && id !in claimed :: jobs[id] == old(jobs)[id]
      ensures forall id | id in claimed :: WasClaimable(old(jobs)[id], now) && old(jobs)[id].automation !in excluded
      ensures forall id | id in old(jobs) && WasClaimable(old(jobs)[id], now) && old(jobs)[id].automation !in excluded ::
        id in claimed || (|claimed| == Max(1, limit)
          && forall i | 0 <= i < |claimed| :: QueuedUpTo(old(jobs)[claimed[i]], claimed[i], old(jobs)[id], id))
      ensures forall i, j | 0 <= i < j < |claimed| ::
        QueuedUpTo(old(jobs)[claimed[i]], claimed[i], old(jobs)[claimed[j]], claimed[j])
    {
      hide Claimable, WasClaimable, HandedOut, ClaimedRow, ClaimEach, OldestFirst;
      claimed := SelectDue(now, Max(1, limit), excluded);
      ghost var db := Tables();
      OldestArePickable(db, claimed, now, Max(1, limit), excluded);
      assert claimed[..0] == [];
      ClaimEachTouchesOnlyIds(db, [], now, lease);
      for i := 0 to |claimed|
        invariant Tables() == ClaimEach(db, claimed[..i], now, lease)
      {
        ClaimOneMore(db, claimed, i, now, lease);
        jobs := jobs[claimed[i] := ClaimedRow(jobs[claimed[i]], now, lease)];
      }
      assert claimed[..|claimed|] == claimed;
      ClaimEachTouchesOnlyIds(db, claimed, now, lease);
      forall id | id in db.jobs
        ensures HandedOut(db.jobs[id], ClaimedRow(db.jobs[id], now, lease), now, lease)
        ensures WasClaimable(db.jobs[id], now) && db.jobs[id].automation !in excluded <==> Offered(db, id, now, excluded)
      {
        ClaimedIsHandedOut(db.jobs[id], now, lease);
      }
      OldestAreOffered(db, claimed, now, Max(1, limit), excluded);
    }

    method ClaimJob(id: JobId, now: Time, lease: int) returns (claimed: bool)
      modifies this`jobs
      ensures claimed == Accepts(old(Tables()), ClaimById(id, now, lease))
      ensures Tables() == Apply(old(Tables()), ClaimById(id, now, lease))
      ensures claimed <==>
        (id in old(jobs) && old(jobs)[id].status in {Queued, Waiting}
         && !(old(jobs)[id].nextAttemptAt.Some? && old(jobs)[id].nextAttemptAt.value > now))
      ensures claimed ==> jobs == old(jobs)[id := jobs[id]] && HandedOut(old(jobs)[id], jobs[id], now, lease)
    {
      claimed := id in jobs && Ready(jobs[id], now);
      if claimed {
        jobs := jobs[id := ClaimedRow(jobs[id], now, lease)];
      }
    }

    method RenewJobLease(id: JobId, now: Time, lease: int) returns (ok: bool)
      modifies this`jobs
      ensures ok == Accepts(old(Tables()), Renew(id, now, lease))
      ensures Tables() == Apply(old(Tables()), Renew(id, now, lease))
      ensures ok <==> id in old(jobs) && old(jobs)[id].status == Running
      ensures ok ==> jobs == old(jobs)[id := old(jobs)[id].(leaseUntil := jobs[id].leaseUntil)] && LeasedFor(jobs[id], now, lease)
    {
      ok := id in jobs && jobs[id].status.Running?;
      if ok {
        jobs := jobs[id := jobs[id].(leaseUntil := Some(now + ClampLease(lease) as real))];
      }
    }

    method SaveJobProgress(id: JobId, progress: Cursor) returns (ok: bool)
      modifies this`jobs
      ensures ok == Accepts(old(Tables()), SaveProgress(id, progress))
      ensures Tables() == Apply(old(Tables()), SaveProgress(id, progress))
      ensures ok <==> id in old(jobs) && old(jobs)[id].status == Running
      ensures ok ==> jobs == old(jobs)[id := old(jobs)[id].(progress := Some(progress))]
    {
      ok := id in jobs && jobs[id].status.Running?;
      if ok {
        jobs := jobs[id := jobs[id].(progress := Some(progress))];
      }
    }

    method DeferJobForStage(id: JobId, now: Time, delay: int, progress: Cursor) returns (ok: bool)
      modifies this`jobs
      ensures ok == Accepts(old(Tables()), Defer(id, now, delay, progress))
      ensures Tables() == Apply(old(Tables()), Defer(id, now, delay, progress))
      ensures ok <==> 1 <= delay <= 86400 && id in old(jobs) && old(jobs)[id].status == Running
      ensures ok ==> jobs == old(jobs)[id := jobs[id]] && var row, was := jobs[id], old(jobs)[id];
        && row.status == Waiting && row.nextAttemptAt == Some(now + delay as real) && row.progress == Some(progress)
        && row.leaseUntil.None? && row.claimedAt.None? && row.attempts == 0
        && SameJob(row, was) && row.startedAt == was.startedAt && row.finishedAt == was.finishedAt && row.runId == was.runId
    {
      if !(1 <= delay <= MAX_STAGE_DELAY) {
        return false;
      }
      var resumeAt := now + delay as real;
      ok := id in jobs && jobs[id].status.Running?;
      if ok {
        jobs := jobs[id := jobs[id].(status := Waiting, nextAttemptAt := Some(resumeAt), leaseUntil := None,
                                     claimedAt := None, attempts := 0, progress := Some(progress))];
      }
    }

    method RecordRun(run: RunId, automation: AutomationId, now: Time, results: seq<ActionResult>) returns (ok: bool)
      modifies this`runs
      ensures ok == Accepts(old(Tables()), Op.RecordRun(run, automation, now, results))
      ensures Tables() == Apply(old(Tables()), Op.RecordRun(run, automation, now, results))
      ensures ok <==> run !in old(runs) && automation in automations
      ensures ok ==> runs == old(runs)[run := RunRow(automation := automation, startedAt := now, results := results)]
    {
      ok := run !in runs && automation in automations;
      if ok {
        runs := runs[run := RunRow(automation, now, results)];
      }
    }

    method LinkJobRun(id: JobId, run: RunId) returns (ok: bool)
      modifies this`jobs
      ensures ok == Accepts(old(Tables()), Link(id, run))
      ensures Tables() == Apply(old(Tables()), Link(id, run))
      ensures ok <==> id in old(jobs) && old(jobs)[id].status == Running && run in runs
      ensures ok ==> jobs == old(jobs)[id := old(jobs)[id].(runId := Some(run))]
    {
      ok := id in jobs && jobs[id].status.Running? && run in runs;
      if ok {
        jobs := jobs[id := jobs[id].(runId := Some(run))];
      }
    }

    method CompleteJob(id: JobId, run: RunId, now: Time) returns (ok: bool)
      modifies this`jobs
      ensures ok == Accepts(old(Tables()), Complete(id, run, now))
      ensures Tables() == Apply(old(Tables()), Complete(id, run, now))
      ensures ok <==> id in old(jobs) && old(jobs)[id].status == Running && run in runs
      ensures ok ==> jobs == old(jobs)[id := jobs[id]] && var row, was := jobs[id], old(jobs)[id];
        && row.status == Completed && row.finishedAt == Some(now) && row.runId == Some(run)
        && row.leaseUntil.None? && row.progress.None?
        && SameJob(row, was) && row.startedAt == was.startedAt && row.claimedAt == was.claimedAt
        && row.nextAttemptAt == was.nextAttemptAt && row.attempts == was.attempts
    {
      ok := id in jobs && jobs[id].status.Running? && run in runs;
      if ok {
        jobs := jobs[id := jobs[id].(status := Completed, finishedAt := Some(now), leaseUntil := None,
                                     runId := Some(run), progress := None)];
      }
    }

    /** Sends a job back for another attempt, or gives it up after the third. */
    method FailJob(id: JobId, now: Time) returns (ok: bool)
      modifies this`jobs
      ensures ok == Accepts(old(Tables()), Fail(id, now))
      ensures Tables() == Apply(old(Tables()), Fail(id, now))
      ensures ok <==> id in old(jobs)
      ensures ok ==> jobs == old(jobs)[id := jobs[id]] && var row, was := jobs[id], old(jobs)[id];
        && (if was.attempts >= 3
            then row.status == Failed && row.finishedAt == Some(now) && row.nextAttemptAt.None?
            else row.status == Queued && row.finishedAt.None?
                 && row.nextAttemptAt == Some(now + if was.attempts == 2 then 10.0 else 5.0))
        && row.leaseUntil.None? && row.attempts == was.attempts && row.progress == was.progress && row.runId == was.runId
        && SameJob(row, was) && row.startedAt == was.startedAt && row.claimedAt == was.claimedAt
    {
      if id !in jobs {
        return false;
      }
      var row := jobs[id];
      if row.attempts >= MAX_ATTEMPTS {
        jobs := jobs[id := row.(status := Failed, finishedAt := Some(now), leaseUntil := None, nextAttemptAt := None)];
      } else {
        var retryAt := now + RetryDelay(row.attempts) as real;
        jobs := jobs[id := row.(status := Queued, finishedAt := None, leaseUntil := None,
                                nextAttemptAt := Some(retryAt))];
      }
      ok := true;
    }

    method RetryFailedJobs(now: Time) returns (retried: nat)
      modifies this`jobs
      ensures retried == |set j | j in old(jobs) && old(jobs)[j].status.Failed?|
      ensures Tables() == Apply(old(Tables()), RetryFailed(now))
      ensures jobs.Keys == old(jobs).Keys
      ensures forall id | id in jobs :: var row, was := jobs[id], old(jobs)[id];
        if was.status != Failed then row == was
        else
          && row.status == Queued && row.nextAttemptAt == Some(now) && row.attempts == 0
          && row.claimedAt.None? && row.startedAt.None? && row.finishedAt.None? && row.leaseUntil.None?
          && SameJob(row, was) && row.progress == was.progress && row.runId == was.runId
    {
      var failed := set j | j in jobs && jobs[j].status.Failed?;
      retried := |failed|;
      jobs := map j | j in jobs ::
        if j in failed then
          jobs[j].(status := Queued, nextAttemptAt := Some(now), attempts := 0,
                   claimedAt := None, startedAt := None, finishedAt := None, leaseUntil := None)
        else jobs[j];
    }

    method DeleteRun(run: RunId) returns (ok: bool)
      modifies this
      ensures ok == Accepts(old(Tables()), Op.DeleteRun(run))
      ensures Tables() == Apply(old(Tables()), Op.DeleteRun(run))
      ensures ok <==> run in old(runs)
      ensures ok ==> runs == map r | r in old(runs) && r != run :: old(runs)[r]
      ensures ok ==> jobs == map j | j in old(jobs) && old(jobs)[j].runId != Some(run) :: old(jobs)[j]
    {
      ok := run in runs;
      if ok {
        DropRunRows({run}, JobsLinkedTo(Tables(), {run}));
      }
    }

    method ClearRuns(automation: AutomationId) returns (removed: int)
      modifies this
      ensures automation !in automations ==> removed == -1
      ensures automation in automations ==> removed == |RunsOf(old(Tables()), automation)|
      ensures Tables() == Apply(old(Tables()), Op.ClearRuns(automation))
      ensures automations == old(automations)
      ensures automation in automations ==>
        && runs == (map r | r in old(runs) && old(runs)[r].automation != automation :: old(runs)[r])
        && (forall j :: j in jobs <==> j in old(jobs) && !(old(jobs)[j].automation == automation && old(jobs)[j].status == Completed))
        && (forall j | j in jobs :: jobs[j] ==
              var was := old(jobs)[j];
              if was.runId.Some? && was.runId.value in old(runs) && old(runs)[was.runId.value].automation == automation
              then was.(runId := None) else was)
    {
      if automation !in automations {
        return -1;
      }
      var gone := set r | r in runs && runs[r].automation == automation;
      var finished := set j | j in jobs && jobs[j].automation == automation && jobs[j].status.Completed?;
      removed := |gone|;
      DropRunRows(gone, finished);
    }

    method PruneHistory(now: Time, runDays: nat) returns (removed: nat)
      modifies this
      ensures removed == |ExpiredRuns(old(Tables()), now, runDays)|
      ensures Tables() == Apply(old(Tables()), Prune(now, runDays))
      ensures automations == old(automations)
      ensures forall r :: r in runs <==> r in old(runs) && (runDays == 0 || old(runs)[r].startedAt >= now - (runDays * 86400) as real)
      ensures forall r | r in runs :: runs[r] == old(runs)[r]
      ensures forall j :: j in jobs <==>
        (j in old(jobs) && !(old(jobs)[j].runId.Some? && old(jobs)[j].runId.value in old(runs) && old(jobs)[j].runId.value !in runs))
      ensures forall j | j in jobs :: jobs[j] == old(jobs)[j]
    {
      var gone: set<RunId> := {};
      if runDays != 0 {
        gone := set r | r in runs && runs[r].startedAt < now - (runDays * 86400) as real;
      }
      removed := |gone|;
      DropRunRows(gone, JobsLinkedTo(Tables(), gone));
    }

    /** Deletes the given jobs and then the given runs; a surviving job linked to a
        deleted run loses its link. */
    method DropRunRows(gone: set<RunId>, jobsToo: set<JobId>)
      modifies this
      ensures Tables() == DropRuns(old(Tables()), gone, jobsToo)
    {
      jobs := jobs - jobsToo;
      runs := runs - gone;
      jobs := map j | j in jobs :: Unlink(jobs[j], gone);
    }

    method DeleteAutomation(automation: AutomationId) returns (ok: bool)
      modifies this
      ensures ok == Accepts(old(Tables()), Op.DeleteAutomation(automation))
      ensures Tables() == Apply(old(Tables()), Op.DeleteAutomation(automation))
      ensures ok <==>
        (automation in old(automations)
         && forall j | j in old(jobs) && old(jobs)[j].automation == automation :: old(jobs)[j].status !in {Queued, Waiting, Running})
      ensures ok ==> automations == old(automations) - {automation}
      ensures ok ==> jobs == map j | j in old(jobs) && old(jobs)[j].automation != automation :: old(jobs)[j]
      ensures ok ==> runs == map r | r in old(runs) && old(runs)[r].automation != automation :: old(runs)[r]
    {
      var busy := set j | j in jobs && jobs[j].automation == automation
                          && (jobs[j].status.Queued? || jobs[j].status.Waiting? || jobs[j].status.Running?);
      ok := busy == {} && automation in automations;
      if busy == {} {
        assert forall j | j in jobs && jobs[j].automation == automation :: j !in busy;
      } else {
        var j :| j in busy;
        assert !(jobs[j].status.Completed? || jobs[j].status.Failed?);
      }
      if ok {
        automations := automations - {automation};
        jobs := map j | j in jobs && jobs[j].automation != automation :: jobs[j];
        runs := map r | r in runs && runs[r].automation != automation :: runs[r];
      }
    }

    method Clear()
      modifies this
      ensures Tables() == Apply(old(Tables()), ClearAll)
    {
      automations, jobs, runs := {}, map[], map[];
    }
  }
}
