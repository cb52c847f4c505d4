/** The scheduling loop: what is finished is reaped, leases are renewed, and due jobs and
    checks are admitted while there is room. */
module Scheduler {
  import opened Common
  import opened Jobs
  import opened JobStore

  // ----- due checks -----

  /** The columns that decide when an automation is checked. `byHand` marks the condition
      types that are never polled. */
  datatype Automation = Automation(name: string, enabled: bool, byHand: bool, calendar: bool, interval: int,
                                   nextCheckAt: Option<Time>, pendingAt: Option<Time>)

  predicate CheckDue(row: Automation, now: Time) {
    row.enabled && !row.byHand
    && (if row.nextCheckAt.None? then !row.calendar else row.nextCheckAt.value <= now)
  }

  /** Keeps the cadence, unless a whole interval was missed. */
  function NextIntervalCheckAt(scheduledAt: Option<Time>, interval: int, claimedAt: Time): Time {
    var interval := Max(1, interval) as real;
    var scheduled := if scheduledAt.Some? then scheduledAt.value else claimedAt;
    if claimedAt - scheduled >= interval then claimedAt + interval else scheduled + interval
  }

  function ClaimedCheck(row: Automation, now: Time): Automation {
    if row.calendar then
      row.(pendingAt := if row.pendingAt.Some? then row.pendingAt else row.nextCheckAt, nextCheckAt := Some(now + 300.0))
    else row.(nextCheckAt := Some(NextIntervalCheckAt(row.nextCheckAt, row.interval, now)))
  }

  /** A claimed check is not due again at once, and comes up again within one interval. */
  lemma ClaimedChecksAreNotDue(row: Automation, now: Time)
    requires CheckDue(row, now)
    ensures var next := ClaimedCheck(row, now).nextCheckAt;
      && next.Some? && now < next.value
      && next.value <= now + (if row.calendar then 300.0 else Max(1, row.interval) as real)
    ensures !CheckDue(ClaimedCheck(row, now), now)
  {
  }

  function Claims(interval: int, first: Time, claims: seq<Time>): Time {
    if claims == [] then first
    else NextIntervalCheckAt(Some(Claims(interval, first, claims[..|claims| - 1])), interval, claims[|claims| - 1])
  }

  /** Each claim comes when the check before it made it due, less than an interval late. */
  predicate OnTime(interval: int, first: Time, claims: seq<Time>) {
    claims != [] ==>
      var before := claims[..|claims| - 1];
      var due := Claims(interval, first, before);
      due <= claims[|claims| - 1] < due + Max(1, interval) as real && OnTime(interval, first, before)
  }

  /** Lateness of less than an interval never shifts the cadence. */
  lemma {:induction false} CadenceDoesNotDrift(interval: int, first: Time, claims: seq<Time>)
    requires OnTime(interval, first, claims)
    ensures Claims(interval, first, claims) == first + (|claims| * Max(1, interval)) as real
  {
    if claims != [] {
      CadenceDoesNotDrift(interval, first, claims[..|claims| - 1]);
      assert |claims| * Max(1, interval) == (|claims| - 1) * Max(1, interval) + Max(1, interval);
    }
  }

  function CheckTime(row: Automation): Time { if row.nextCheckAt.Some? then row.nextCheckAt.value else 0.0 }

  predicate AwaitsCheck(rows: map<AutomationId, Automation>, id: AutomationId, now: Time, excluded: set<AutomationId>) {
    id in rows && id !in excluded && CheckDue(rows[id], now)
  }

  /** The order of claiming: by check time, then by name. */
  predicate NoLater(a: Automation, b: Automation) {
    CheckTime(a) < CheckTime(b) || (CheckTime(a) == CheckTime(b) && UpTo(Fold(a.name), Fold(b.name)))
  }

  lemma NoLaterIsTotal(a: Automation, b: Automation)
    ensures NoLater(a, b) || NoLater(b, a)
  {
    UpToIsTotal(Fold(a.name), Fold(b.name));
  }

  lemma NoLaterIsTransitive(a: Automation, b: Automation, c: Automation)
    requires NoLater(a, b) && NoLater(b, c)
    ensures NoLater(a, c)
  {
    if CheckTime(a) == CheckTime(c) {
      UpToIsTransitive(Fold(a.name), Fold(b.name), Fold(c.name));
    }
  }

  /** `picked` are waiting checks in order, and one is left out only when the limit is
      reached and every one that was picked comes before it. */
  ghost predicate SoonestFirst(rows: map<AutomationId, Automation>, picked: seq<AutomationId>, now: Time, limit: nat,
                               excluded: set<AutomationId>)
  {
    && |picked| <= limit
    && (forall i | 0 <= i < |picked| :: AwaitsCheck(rows, picked[i], now, excluded))
    && (forall i, j | 0 <= i < j < |picked| :: picked[i] != picked[j] && NoLater(rows[picked[i]], rows[picked[j]]))
    && (forall id | AwaitsCheck(rows, id, now, excluded) && id !in picked ::
          |picked| == limit && forall i | 0 <= i < |picked| :: NoLater(rows[picked[i]], rows[id]))
  }

  function Advanced(rows: map<AutomationId, Automation>, claimed: seq<AutomationId>, now: Time): map<AutomationId, Automation> {
    map id | id in rows :: if id in claimed then ClaimedCheck(rows[id], now) else rows[id]
  }

  /** Switched on, polled, and past its check time; an interval check without a time is
      due at once, a calendar one never. */
  predicate WasDue(row: Automation, now: Time) {
    row.enabled && !row.byHand && (row.nextCheckAt == None ==> !row.calendar)
    && (row.nextCheckAt.Some? ==> row.nextCheckAt.value <= now)
  }

  /** What claiming a check does to its row: a calendar check keeps the occurrence it waits
      for and is looked at again after 300 seconds; an interval check moves on by its
      interval, from its own time, or from now once a whole interval was missed. */
  predicate Moved(was: Automation, row: Automation, now: Time) {
    && row.name == was.name && row.enabled == was.enabled && row.byHand == was.byHand
    && row.calendar == was.calendar && row.interval == was.interval
    && if was.calendar then
         row.nextCheckAt == Some(now + 300.0) && row.pendingAt == (if was.pendingAt.None? then was.nextCheckAt else was.pendingAt)
       else
         var step := (if was.interval < 1 then 1 else was.interval) as real;
         row.pendingAt == was.pendingAt && row.nextCheckAt == Some(
           if was.nextCheckAt.None? || now - was.nextCheckAt.value >= step then now + step
           else was.nextCheckAt.value + step)
  }

  lemma ClaimMoves(row: Automation, now: Time)
    ensures CheckDue(row, now) <==> WasDue(row, now)
    ensures Moved(row, ClaimedCheck(row, now), now)
  {
  }

  class AutomationTable {
    var rows: map<AutomationId, Automation>

    constructor (rows: map<AutomationId, Automation>)
      ensures this.rows == rows
    {
      this.rows := rows;
    }

    /** Claims the due checks that come first. */
    method ClaimDue(now: Time, limit: nat, excluded: set<AutomationId>) returns (claimed: seq<AutomationId>)
      modifies this
      ensures SoonestFirst(old(rows), claimed, now, limit, excluded)
      ensures rows == Advanced(old(rows), claimed, now)
      ensures rows.Keys == old(rows).Keys && forall id | id in rows && id !in claimed :: rows[id] == old(rows)[id]
      ensures forall id | id in claimed :: id in rows && WasDue(old(rows)[id], now) && id !in excluded && Moved(old(rows)[id], rows[id], now)
      ensures forall id | id in rows && WasDue(old(rows)[id], now) && id !in excluded && |claimed| < limit :: id in claimed
    {
      ghost var was := rows;
      hide NoLater, CheckDue, WasDue, Moved, ClaimedCheck;
      claimed := [];
      var left := set id | id in rows && AwaitsCheck(rows, id, now, excluded);
      while |claimed| < limit && left != {}
        invariant rows == old(rows) && |claimed| <= limit
        invariant forall id :: id in left <==> AwaitsCheck(rows, id, now, excluded) && id !in claimed
        invariant forall i | 0 <= i < |claimed| :: AwaitsCheck(rows, claimed[i], now, excluded)
        invariant forall i, j | 0 <= i < j < |claimed| :: claimed[i] != claimed[j] && NoLater(rows[claimed[i]], rows[claimed[j]])
        invariant forall i, id | 0 <= i < |claimed| && id in left :: NoLater(rows[claimed[i]], rows[id])
        decreases left
      {
        var first := Soonest(left);
        claimed := claimed + [first];
        left := left - {first};
      }
      rows := Advanced(rows, claimed, now);
      forall id | id in was
        ensures AwaitsCheck(was, id, now, excluded) <==> WasDue(was[id], now) && id !in excluded
        ensures WasDue(was[id], now) ==> Moved(was[id], ClaimedCheck(was[id], now), now)
      {
        ClaimMoves(was[id], now);
      }
    }

    method Soonest(ids: set<AutomationId>) returns (first: AutomationId)
      requires ids != {} && ids <= rows.Keys
      ensures first in ids && forall id | id in ids :: NoLater(rows[first], rows[id])
    {
      hide NoLater;
      first :| first in ids;
      NoLaterIsTotal(rows[first], rows[first]);
      var left := ids - {first};
      while left != {}
        invariant left <= ids && first in ids
        invariant forall id | id in ids - left :: NoLater(rows[first], rows[id])
        decreases left
      {
        var id :| id in left;
        NoLaterIsTotal(rows[first], rows[id]);
        NoLaterIsTotal(rows[id], rows[id]);
        if !NoLater(rows[first], rows[id]) {
          forall other | other in ids - left ensures NoLater(rows[id], rows[other]) {
            NoLaterIsTransitive(rows[id], rows[first], rows[other]);
          }
          first := id;
        }
        left := left - {id};
      }
    }
  }

  // ----- tracked work -----

  datatype Work = Job(id: JobId, automation: AutomationId) | Check(automation: AutomationId)

  type Future = nat

  /** No automation has two jobs or two checks in hand; with overlap skipping it has one
      item in all. */
  predicate Exclusive(futures: map<Future, Work>, skipOverlap: bool) {
    forall f, g | f in futures && g in futures && f != g && futures[f].automation == futures[g].automation ::
      !skipOverlap && futures[f].Job? != futures[g].Job?
  }

  function Active(futures: map<Future, Work>): set<AutomationId> {
    set f | f in futures :: futures[f].automation
  }

  function Checking(futures: map<Future, Work>): set<AutomationId> {
    set f | f in futures && futures[f].Check? :: futures[f].automation
  }

  function Tracked(futures: map<Future, Work>): set<JobId> {
    set f | f in futures && futures[f].Job? :: futures[f].id
  }

  /** The jobs among the futures that were added. */
  function NewJobs(before: map<Future, Work>, after: map<Future, Work>): set<JobId> {
    set f | f in after && f !in before && after[f].Job? :: after[f].id
  }

  /** The work is a job that was claimable and has been claimed. */
  predicate HandedOut(before: map<JobId, JobRow>, after: map<JobId, JobRow>, work: Work, now: Time) {
    && work.Job? && work.id in before && work.id in after
    && Claimable(before[work.id], now) && after[work.id] == ClaimedRow(before[work.id], now, 300)
    && work.automation == before[work.id].automation
  }

  /** One more future, for a job that was claimed; the other jobs are as they were. */
  predicate Admitted(futures: map<Future, Work>, f: Future, futures': map<Future, Work>,
                     jobs: map<JobId, JobRow>, jobs': map<JobId, JobRow>, now: Time)
  {
    && f !in futures && f in futures' && futures' == futures[f := futures'[f]]
    && HandedOut(jobs, jobs', futures'[f], now) && futures'[f].automation !in Active(futures)
    && jobs' == jobs[futures'[f].id := jobs'[futures'[f].id]]
  }

  /** Every future that was added is a job that was claimed, and no other job changed. */
  predicate AllHandedOut(futures: map<Future, Work>, futures': map<Future, Work>,
                         jobs: map<JobId, JobRow>, jobs': map<JobId, JobRow>, now: Time)
  {
    && (forall f | f in futures' && f !in futures :: HandedOut(jobs, jobs', futures'[f], now))
    && jobs'.Keys == jobs.Keys
    && (forall id | id in jobs && id !in NewJobs(futures, futures') :: jobs'[id] == jobs[id])
  }

  /** New work only comes under new futures; what was tracked still is. */
  predicate Grown(futures: map<Future, Work>, futures': map<Future, Work>, next: Future) {
    && futures.Keys <= futures'.Keys
    && (forall f | f in futures :: futures'[f] == futures[f])
    && (forall f | f in futures' && f !in futures :: next <= f)
  }

  lemma GrownByOne(futures0: map<Future, Work>, futures: map<Future, Work>, futures': map<Future, Work>,
                   next: Future, f: Future, work: Work)
    requires Grown(futures0, futures, next) && next <= f && f !in futures
    requires futures' == futures || futures' == futures[f := work]
    ensures Grown(futures0, futures', next)
  {
  }

  lemma GrownByNone(futures: map<Future, Work>, next: Future)
    ensures Grown(futures, futures, next)
  {
  }

  lemma GrownKeeps(futures0: map<Future, Work>, futures: map<Future, Work>, next: Future)
    requires Grown(futures0, futures, next)
    ensures futures0.Keys <= futures.Keys && forall f | f in futures0 && f in futures :: futures[f] == futures0[f]
  {
  }

  lemma OneClaim(db: Db, claimed: seq<JobId>, now: Time)
    requires |claimed| == 1 && claimed[0] in db.jobs && Claimable(db.jobs[claimed[0]], now)
    ensures ClaimEach(db, claimed, now, 300) == PutJob(db, claimed[0], ClaimedRow(db.jobs[claimed[0]], now, 300))
  {
    assert ClaimEach(db, claimed[..0], now, 300) == db;
  }

  lemma OneMore(futures0: map<Future, Work>, futures: map<Future, Work>, futures': map<Future, Work>, f: Future,
                jobs0: map<JobId, JobRow>, jobs: map<JobId, JobRow>, jobs': map<JobId, JobRow>, now: Time)
    requires futures0.Keys <= futures.Keys && AllHandedOut(futures0, futures, jobs0, jobs, now)
    requires Admitted(futures, f, futures', jobs, jobs', now)
    requires forall g | g in futures0 :: futures[g] == futures0[g]
    ensures AllHandedOut(futures0, futures', jobs0, jobs', now)
  {
  }

  function RenewedRow(row: JobRow, now: Time): JobRow {
    if row.status.Running? then row.(leaseUntil := Some(now + 300.0)) else row
  }

  function Renewed(jobs: map<JobId, JobRow>, ids: set<JobId>, now: Time): map<JobId, JobRow> {
    map id | id in jobs :: if id in ids then RenewedRow(jobs[id], now) else jobs[id]
  }

  predicate IsTracked(futures: map<Future, Work>, id: JobId) {
    exists f | f in futures :: futures[f].Job? && futures[f].id == id
  }

  /** The leases of the tracked jobs that run end 300 seconds from now, and nothing else changed. */
  predicate OnlyLeasesExtended(was: map<JobId, JobRow>, jobs: map<JobId, JobRow>, futures: map<Future, Work>, now: Time) {
    && jobs.Keys == was.Keys
    && (forall id | id in was && was[id].status == Running && IsTracked(futures, id) ::
          jobs[id] == was[id].(leaseUntil := Some(now + 300.0)))
    && (forall id | id in was && !(was[id].status == Running && IsTracked(futures, id)) :: jobs[id] == was[id])
  }

  lemma RenewedLeases(jobs: map<JobId, JobRow>, futures: map<Future, Work>, now: Time)
    ensures OnlyLeasesExtended(jobs, Renewed(jobs, Tracked(futures), now), futures, now)
  {
  }

  lemma RenewOne(jobs: map<JobId, JobRow>, ids: set<JobId>, id: JobId, now: Time)
    ensures Renewed(jobs, ids + {id}, now)
         == if id in jobs then Renewed(jobs, ids, now)[id := RenewedRow(Renewed(jobs, ids, now)[id], now)] else Renewed(jobs, ids, now)
  {
  }

  /** What one turn of the loop meets: the time, the work that has finished, and whether
      leases are due for renewal. */
  datatype Turn = Turn(now: Time, done: set<Future>, renewalDue: bool)

  /** What the loop tracks, the tables, and the automations whose check was skipped. */
  datatype Moment = Moment(futures: map<Future, Work>, db: Db, rows: map<AutomationId, Automation>,
                           observed: seq<AutomationId>)

  /** What was tracked after the jobs were admitted and before the checks were. */
  function WithJobs(kept: map<Future, Work>, futures: map<Future, Work>): map<Future, Work> {
    map f | f in futures && (f in kept || futures[f].Job?) :: futures[f]
  }

  /** The table is full, or no automation without work in hand has a job on offer. */
  ghost predicate NoMoreJobs(db: Db, futures: map<Future, Work>, now: Time, maxPending: int) {
    |futures| >= maxPending || forall id :: !Offered(db, id, now, Active(futures))
  }

  /** Some checks were claimed and served: the first ones that are due, as many as there
      is room for, when the loop still runs. */
  ghost predicate ChecksAdmitted(before: Moment, after: Moment, admitted: map<Future, Work>, now: Time, room: int, running: bool) {
    exists due ::
      && after.rows == Advanced(before.rows, due, now)
      && ChecksServed(admitted, after.futures, before.observed, after.observed, due, running)
      && (room <= 0 ==> due == [])
      && (running && room > 0 ==> SoonestFirst(before.rows, due, now, room, Checking(admitted)))
  }

  function Kept(before: Moment, turn: Turn): map<Future, Work> { before.futures - turn.done }

  /** The job table once the leases of the tracked jobs have been renewed, if that is due. */
  function RenewedJobs(before: Moment, turn: Turn): map<JobId, JobRow> {
    if turn.renewalDue then Renewed(before.db.jobs, Tracked(Kept(before, turn)), turn.now) else before.db.jobs
  }

  /** What has finished is forgotten, and the rest stays. */
  predicate Forgets(futures: map<Future, Work>, futures': map<Future, Work>, done: set<Future>) {
    forall f | f in futures :: if f in done then f !in futures' else f in futures' && futures'[f] == futures[f]
  }

  /** What one turn does: it forgets what has finished and keeps the rest, renews the
      leases of the tracked jobs when that is due, tracks every job it claims, claims
      jobs until it is full or none is on offer, and serves the checks that are due. */
  ghost predicate Turned(before: Moment, after: Moment, turn: Turn, maxPending: int, skipOverlap: bool, running: bool) {
    var kept := Kept(before, turn);
    var admitted := WithJobs(kept, after.futures);
    && Forgets(before.futures, after.futures, turn.done)
    && after.db == before.db.(jobs := after.db.jobs)
    && AllHandedOut(kept, admitted, RenewedJobs(before, turn), after.db.jobs, turn.now)
    && (running ==> NoMoreJobs(after.db, admitted, turn.now, maxPending))
    && ChecksAdmitted(before, after, admitted, turn.now, maxPending - |admitted|, running)
    && (!skipOverlap ==> after.observed == before.observed)
  }

  /** Only jobs were admitted first, and only checks after them. */
  lemma JobsThenChecks(kept: map<Future, Work>, admitted: map<Future, Work>, futures: map<Future, Work>,
                       jobs: map<JobId, JobRow>, jobs': map<JobId, JobRow>, now: Time,
                       observed: seq<AutomationId>, observed': seq<AutomationId>, due: seq<AutomationId>, all: bool)
    requires kept.Keys <= admitted.Keys <= futures.Keys && forall f | f in admitted :: futures[f] == admitted[f]
    requires AllHandedOut(kept, admitted, jobs, jobs', now)
    requires ChecksServed(admitted, futures, observed, observed', due, all)
    ensures WithJobs(kept, futures) == admitted
  {
  }

  lemma KeptStays(before: Moment, turn: Turn, admitted: map<Future, Work>, futures': map<Future, Work>,
                  next: Future, next': Future)
    requires forall f | f in before.futures :: f < next
    requires Grown(Kept(before, turn), admitted, next) && next <= next' && Grown(admitted, futures', next')
    ensures Kept(before, turn).Keys <= admitted.Keys <= futures'.Keys
    ensures forall f | f in admitted :: futures'[f] == admitted[f]
    ensures Forgets(before.futures, futures', turn.done)
  {
  }

  lemma ChecksWereAdmitted(before: Moment, after: Moment, admitted: map<Future, Work>, now: Time, room: int, running: bool,
                           due: seq<AutomationId>)
    requires after.rows == Advanced(before.rows, due, now)
    requires ChecksServed(admitted, after.futures, before.observed, after.observed, due, running)
    requires room <= 0 ==> due == []
    requires running && room > 0 ==> SoonestFirst(before.rows, due, now, room, Checking(admitted))
    ensures ChecksAdmitted(before, after, admitted, now, room, running)
  {
  }

  /** What the parts of a turn ensure makes up the turn. */
  lemma TurnIsComplete(before: Moment, after: Moment, turn: Turn, maxPending: int, skipOverlap: bool, running: bool,
                       admitted: map<Future, Work>, next: Future, next': Future, due: seq<AutomationId>)
    requires forall f | f in before.futures :: f < next
    requires Grown(Kept(before, turn), admitted, next) && next <= next' && Grown(admitted, after.futures, next')
    requires after.db == before.db.(jobs := after.db.jobs)
    requires AllHandedOut(Kept(before, turn), admitted, RenewedJobs(before, turn), after.db.jobs, turn.now)
    requires running ==> NoMoreJobs(after.db, admitted, turn.now, maxPending)
    requires after.rows == Advanced(before.rows, due, turn.now)
    requires ChecksServed(admitted, after.futures, before.observed, after.observed, due, running)
    requires |admitted| >= maxPending ==> due == []
    requires running && |admitted| < maxPending ==>
      SoonestFirst(before.rows, due, turn.now, maxPending - |admitted|, Checking(admitted))
    requires !skipOverlap ==> after.observed == before.observed
    ensures Turned(before, after, turn, maxPending, skipOverlap, running)
  {
    hide ChecksServed, SoonestFirst, Advanced, NoMoreJobs, AllHandedOut, WithJobs, Grown, ChecksAdmitted, Checking;
    hide Kept, RenewedJobs, Forgets;
    KeptStays(before, turn, admitted, after.futures, next, next');
    JobsThenChecks(Kept(before, turn), admitted, after.futures, RenewedJobs(before, turn), after.db.jobs, turn.now,
                   before.observed, after.observed, due, running);
    ChecksWereAdmitted(before, after, admitted, turn.now, maxPending - |admitted|, running, due);
  }

  predicate WithinLimits(futures: map<Future, Work>, maxPending: int, skipOverlap: bool) {
    |futures| <= Max(0, maxPending) && Exclusive(futures, skipOverlap)
  }

  class Loop {
    const store: Store
    const automations: AutomationTable
    const maxPending: int
    const skipOverlap: bool
    var futures: map<Future, Work>
    var nextFuture: Future
    var running: bool
    var stopIn: Option<nat>  // how often the loop still looks before a stop signal has come, if one comes
    var observed: seq<AutomationId>  // the automations whose check was skipped

    constructor (store: Store, automations: AutomationTable, maxPending: int, skipOverlap: bool, stopIn: Option<nat>)
      ensures Valid() && futures == map[] && running
      ensures this.store == store && this.automations == automations
      ensures this.maxPending == maxPending && this.skipOverlap == skipOverlap && this.stopIn == stopIn
    {
      this.stopIn := stopIn;
      this.store, this.automations, this.maxPending, this.skipOverlap := store, automations, maxPending, skipOverlap;
      futures, nextFuture, running, observed := map[], 0, true, [];
    }

    predicate Valid()
      reads this
    {
      && WithinLimits(futures, maxPending, skipOverlap)
      && forall f | f in futures :: f < nextFuture
    }

    /** Looks whether to go on; a stop signal may have come. */
    method Look()
      modifies this`running, this`stopIn
      ensures (running ==> old(running)) && (old(stopIn).None? ==> stopIn.None? && running == old(running))
    {
      if stopIn == Some(0) {
        running := false;
      } else if stopIn.Some? {
        stopIn := Some(stopIn.value - 1);
      }
    }

    method Track(work: Work)
      requires Valid() && |futures| < maxPending
      requires forall f | f in futures && futures[f].automation == work.automation ::
        !skipOverlap && futures[f].Job? != work.Job?
      modifies this`futures, this`nextFuture
      ensures Valid() && nextFuture == old(nextFuture) + 1
      ensures futures == old(futures)[old(nextFuture) := work] && |futures| == |old(futures)| + 1
    {
      futures := futures[nextFuture := work];
      nextFuture := nextFuture + 1;
    }

    /** Forgets the futures that are done. */
    method Reap(done: set<Future>)
      requires Valid()
      modifies this`futures
      ensures Valid() && futures == old(futures) - done
    {
      FewerFutures(futures, done);
      futures := futures - done;
    }

    /** Extends the lease of every tracked job that still runs. */
    method RenewLeases(now: Time)
      modifies store`jobs
      ensures store.jobs == Renewed(old(store.jobs), Tracked(futures), now)
      ensures OnlyLeasesExtended(old(store.jobs), store.jobs, futures, now)
    {
      var left := futures.Keys;
      ghost var renewed: set<JobId> := {};
      while left != {}
        invariant left <= futures.Keys
        invariant store.jobs == Renewed(old(store.jobs), renewed, now)
        invariant forall f | f in futures && f !in left && futures[f].Job? :: futures[f].id in renewed
        invariant forall id | id in renewed :: id in Tracked(futures)
        decreases left
      {
        var f :| f in left;
        left := left - {f};
        if futures[f].Job? {
          RenewOne(old(store.jobs), renewed, futures[f].id, now);
          var ok := store.RenewJobLease(futures[f].id, now, 300);
          renewed := renewed + {futures[f].id};
        }
      }
      assert renewed == Tracked(futures);
      RenewedLeases(old(store.jobs), futures, now);
    }

    /** Claims one job of an automation that has no work in hand, and tracks it. */
    method AdmitJob(now: Time) returns (admitted: bool)
      requires Valid() && |futures| < maxPending
      modifies this`futures, this`nextFuture, store`jobs
      ensures Valid()
      ensures !admitted ==> futures == old(futures) && nextFuture == old(nextFuture) && store.jobs == old(store.jobs)
      ensures !admitted ==> forall id :: !Offered(store.Tables(), id, now, Active(futures))
      ensures admitted ==> nextFuture == old(nextFuture) + 1 && Admitted(old(futures), old(nextFuture), futures, old(store.jobs), store.jobs, now)
    {
      var jobs := store.ClaimJobs(now, 1, 300, Active(futures));
      admitted := jobs != [];
      if admitted {
        assert Offered(old(store.Tables()), jobs[0], now, Active(futures));
        OneClaim(old(store.Tables()), jobs, now);
        Track(Job(jobs[0], store.jobs[jobs[0]].automation));
      } else {
        assert forall id :: Offered(old(store.Tables()), id, now, Active(futures)) ==> id in jobs;
      }
    }

    /** Admits jobs one at a time while there is room; a job that was claimed is tracked. */
    method AdmitJobs(now: Time)
      requires Valid()
      modifies this`futures, this`nextFuture, this`running, this`stopIn, store`jobs
      ensures Valid() && (running ==> old(running)) && (old(stopIn).None? ==> stopIn.None? && running == old(running))
      ensures Grown(old(futures), futures, old(nextFuture)) && old(nextFuture) <= nextFuture
      ensures running ==> NoMoreJobs(store.Tables(), futures, now, maxPending)
      ensures AllHandedOut(old(futures), futures, old(store.jobs), store.jobs, now)
    {
      Look();
      while running && |futures| < maxPending
        invariant Valid() && (running ==> old(running)) && (old(stopIn).None? ==> stopIn.None? && running == old(running))
        invariant Grown(old(futures), futures, old(nextFuture)) && old(nextFuture) <= nextFuture
        invariant AllHandedOut(old(futures), futures, old(store.jobs), store.jobs, now)
        decreases maxPending - |futures|
      {
        ghost var futures0, next0, jobs0 := futures, nextFuture, store.jobs;
        var admitted := AdmitJob(now);
        if !admitted {
          break;
        }
        OneMore(old(futures), futures0, futures, next0, old(store.jobs), jobs0, store.jobs, now);
        Look();
      }
    }

    /** Tracks a claimed check, unless overlap skipping sets it aside. */
    method AdmitCheck(id: AutomationId)
      requires Valid() && |futures| < maxPending && id !in Checking(futures)
      modifies this`futures, this`nextFuture, this`observed
      ensures Valid() && |futures| <= |old(futures)| + 1 && old(nextFuture) <= nextFuture
      ensures skipOverlap && id in Active(old(futures)) ==> futures == old(futures) && observed == old(observed) + [id]
      ensures !(skipOverlap && id in Active(old(futures))) ==>
        && observed == old(observed) && old(nextFuture) !in old(futures)
        && futures == old(futures)[old(nextFuture) := Check(id)]
    {
      if skipOverlap && id in Active(futures) {
        observed := observed + [id];
      } else {
        Track(Check(id));
      }
    }

    /** Serves claimed checks in order until a stop arrives. */
    method ServeChecks(due: seq<AutomationId>)
      requires Valid() && |futures| + |due| <= maxPending
      requires forall i | 0 <= i < |due| :: due[i] !in Checking(futures)
      requires forall i, j | 0 <= i < j < |due| :: due[i] != due[j]
      modifies this`futures, this`nextFuture, this`running, this`stopIn, this`observed
      ensures Valid() && (running ==> old(running)) && (old(stopIn).None? ==> stopIn.None? && running == old(running))
      ensures Grown(old(futures), futures, old(nextFuture)) && old(nextFuture) <= nextFuture
      ensures ChecksServed(old(futures), futures, old(observed), observed, due, running)
      ensures !skipOverlap ==> observed == old(observed)
    {
      hide ChecksServed, WithinLimits, Checking, Active, Grown;
      NoneServed(futures, observed);
      GrownByNone(futures, nextFuture);
      for i := 0 to |due|
        invariant Valid() && running == old(running) && (old(stopIn).None? ==> stopIn.None?) && |futures| <= |old(futures)| + i
        invariant Grown(old(futures), futures, old(nextFuture)) && old(nextFuture) <= nextFuture
        invariant ChecksServed(old(futures), futures, old(observed), observed, due[..i], true)
        invariant !skipOverlap ==> observed == old(observed)
      {
        Look();
        if !running {
          SomeServed(old(futures), futures, old(observed), observed, due, i);
          return;
        }
        ghost var futures0, next0, observed0 := futures, nextFuture, observed;
        NextIsUnserved(old(futures), futures, old(nextFuture), old(observed), observed, due, i);
        AdmitCheck(due[i]);
        NextIsServed(old(futures), futures0, futures, old(nextFuture), next0, old(observed), observed0, observed, due, i);
      }
      assert due[..|due|] == due;
      SomeServed(old(futures), futures, old(observed), observed, due, |due|);
    }

    /** Claims due checks of automations that are not being checked. A claimed check is
        tracked, or set aside because a run is in hand, or left when a stop arrives. */
    method AdmitChecks(now: Time) returns (due: seq<AutomationId>)
      requires Valid()
      modifies this`futures, this`nextFuture, this`running, this`stopIn, this`observed, automations
      ensures Valid() && (running ==> old(running)) && (old(stopIn).None? ==> stopIn.None? && running == old(running))
      ensures Grown(old(futures), futures, old(nextFuture))
      ensures ChecksServed(old(futures), futures, old(observed), observed, due, running)
      ensures !skipOverlap ==> observed == old(observed)
      ensures running && |old(futures)| < maxPending ==>
        SoonestFirst(old(automations.rows), due, now, maxPending - |old(futures)|, Checking(old(futures)))
      ensures |old(futures)| >= maxPending ==> due == []
      ensures automations.rows == Advanced(old(automations.rows), due, now)
    {
      var available := Max(0, maxPending - |futures|);
      due := [];
      Look();
      if running && available > 0 {
        due := automations.ClaimDue(now, Max(1, available), Checking(futures));
        ServeChecks(due);
      } else {
        assert Advanced(automations.rows, due, now) == automations.rows;
      }
    }

    ghost function Now(): Moment
      reads this, store, automations
    {
      Moment(futures, store.Tables(), automations.rows, observed)
    }

    /** One turn of the loop, whatever has finished since the last one. */
    method Cycle(now: Time, done: set<Future>, renewalDue: bool)
      requires Valid()
      modifies this`futures, this`nextFuture, this`running, this`stopIn, this`observed, store`jobs, automations
      ensures Valid() && (running ==> old(running)) && (old(stopIn).None? ==> stopIn.None? && running == old(running))
      ensures Turned(old(Now()), Now(), Turn(now, done, renewalDue), maxPending, skipOverlap, running)
    {
      hide Renewed, AllHandedOut, ChecksServed, SoonestFirst, Advanced, Tracked, Checking, NoMoreJobs, Turned, Grown, WithinLimits, OnlyLeasesExtended;
      ghost var before, next := Now(), nextFuture;
      Reap(done);
      if renewalDue {
        RenewLeases(now);
      }
      AdmitJobs(now);
      ghost var admitted, next' := futures, nextFuture;
      var due := AdmitChecks(now);
      TurnIsComplete(before, Now(), Turn(now, done, renewalDue), maxPending, skipOverlap, running, admitted, next, next', due);
    }

    /** The loop, for whatever finishes between its turns, until a stop arrives; with
        what is tracked and the tables before the first turn and after each. */
    method Work(turns: seq<Turn>) returns (k: nat, ghost moments: seq<Moment>)
      requires Valid()
      modifies this`futures, this`nextFuture, this`running, this`stopIn, this`observed, store`jobs, automations
      ensures Valid() && k <= |turns| && (running ==> k == |turns|) && (old(running) && old(stopIn).None? ==> running)
      ensures |moments| == k + 1 && moments[0] == old(Now()) && moments[k] == Now()
      ensures forall i | 0 <= i < k ::
        Turned(moments[i], moments[i + 1], turns[i], maxPending, skipOverlap, running || i < k - 1)
      ensures forall i | 0 <= i <= k :: WithinLimits(moments[i].futures, maxPending, skipOverlap)
    {
      hide Turned, WithinLimits;
      k, moments := 0, [Now()];
      while running && k < |turns|
        invariant k <= |turns| && Valid() && (old(running) && old(stopIn).None? ==> running && stopIn.None?)
        invariant |moments| == k + 1 && moments[0] == old(Now()) && moments[k] == Now()
        invariant forall i | 0 <= i < k ::
          Turned(moments[i], moments[i + 1], turns[i], maxPending, skipOverlap, running || i < k - 1)
        invariant forall i | 0 <= i <= k :: WithinLimits(moments[i].futures, maxPending, skipOverlap)
      {
        Cycle(turns[k].now, turns[k].done, turns[k].renewalDue);
        moments := moments + [Now()];
        k := k + 1;
      }
    }
  }

  /** What one automation has in hand. */
  function InHand(futures: map<Future, Work>, automation: AutomationId): set<Future> {
    set f | f in futures && futures[f].automation == automation
  }

  /** At most one job and one check of an automation are tracked, and one item in all with
      overlap skipping. */
  lemma FewInHand(futures: map<Future, Work>, skipOverlap: bool, automation: AutomationId)
    requires Exclusive(futures, skipOverlap)
    ensures |InHand(futures, automation)| <= if skipOverlap then 1 else 2
  {
    var held := InHand(futures, automation);
    if held != {} {
      var f :| f in held;
      if held == {f} {
      } else {
        var g :| g in held && g != f;
        assert !skipOverlap;
        assert held == {f, g} by {
          forall h | h in held
            ensures h == f || h == g
          {
          }
        }
      }
    }
  }

  /** Against the claimed checks `due`: what is tracked now is what was tracked and some of
      them; and all of them, unless set aside, when the loop still runs. */
  ghost predicate ChecksServed(futures: map<Future, Work>, futures': map<Future, Work>, observed: seq<AutomationId>,
                               observed': seq<AutomationId>, due: seq<AutomationId>, all: bool)
  {
    && (forall f | f in futures' && f !in futures :: futures'[f].Check? && futures'[f].automation in due)
    && observed <= observed' && (forall id | id in observed'[|observed|..] :: id in due && id in Active(futures'))
    && (all ==> forall id | id in due :: id in Checking(futures') || id in observed'[|observed|..])
  }

  lemma NoneServed(futures: map<Future, Work>, observed: seq<AutomationId>)
    ensures ChecksServed(futures, futures, observed, observed, [], true)
  {
  }

  lemma SomeServed(futures: map<Future, Work>, futures': map<Future, Work>, observed: seq<AutomationId>,
                   observed': seq<AutomationId>, due: seq<AutomationId>, i: nat)
    requires i <= |due| && ChecksServed(futures, futures', observed, observed', due[..i], true)
    ensures ChecksServed(futures, futures', observed, observed', due, false)
  {
  }

  lemma NextIsUnserved(futures: map<Future, Work>, futures': map<Future, Work>, next: Future, observed: seq<AutomationId>,
                       observed': seq<AutomationId>, due: seq<AutomationId>, i: nat)
    requires i < |due| && ChecksServed(futures, futures', observed, observed', due[..i], true)
    requires Grown(futures, futures', next)
    requires due[i] !in Checking(futures) && forall k | 0 <= k < i :: due[k] != due[i]
    ensures due[i] !in Checking(futures')
  {
  }

  lemma NextIsServed(futures0: map<Future, Work>, futures: map<Future, Work>, futures': map<Future, Work>, next: Future,
                     f: Future, observed0: seq<AutomationId>, observed: seq<AutomationId>, observed': seq<AutomationId>,
                     due: seq<AutomationId>, i: nat)
    requires i < |due| && ChecksServed(futures0, futures, observed0, observed, due[..i], true)
    requires Grown(futures0, futures, next) && next <= f && f !in futures
    requires if due[i] in Active(futures) && futures' == futures then observed' == observed + [due[i]]
             else futures' == futures[f := Check(due[i])] && observed' == observed
    ensures ChecksServed(futures0, futures', observed0, observed', due[..i + 1], true) && Grown(futures0, futures', next)
  {
    hide ChecksServed, Active;
    GrownByOne(futures0, futures, futures', next, f, Check(due[i]));
    GrownKeeps(futures0, futures, next);
    ServedOneMore(futures0, futures, futures', f, observed0, observed, observed', due[..i], due[i]);
    assert due[..i + 1] == due[..i] + [due[i]];
  }

  lemma ServedOneMore(futures0: map<Future, Work>, futures: map<Future, Work>, futures': map<Future, Work>, f: Future,
                      observed0: seq<AutomationId>, observed: seq<AutomationId>, observed': seq<AutomationId>,
                      due: seq<AutomationId>, id: AutomationId)
    requires futures0.Keys <= futures.Keys && ChecksServed(futures0, futures, observed0, observed, due, true)
    requires if id in Active(futures) && futures' == futures then observed' == observed + [id]
             else f !in futures && futures' == futures[f := Check(id)] && observed' == observed
    ensures ChecksServed(futures0, futures', observed0, observed', due + [id], true)
  {
    assert futures'.Keys >= futures.Keys;
    if futures' != futures {
      assert futures'[f] == Check(id);
      assert forall other | other in Checking(futures) :: other in Checking(futures');
      assert forall other | other in Active(futures) :: other in Active(futures');
    } else {
      assert observed'[|observed0|..] == observed[|observed0|..] + [id];
    }
  }

  lemma FewerFutures(futures: map<Future, Work>, done: set<Future>)
    ensures |futures - done| <= |futures|
  {
    assert (futures - done).Keys <= futures.Keys;
    SubsetSize((futures - done).Keys, futures.Keys);
  }
}
