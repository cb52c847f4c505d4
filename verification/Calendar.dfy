/** Calendar occurrences of a scheduled automation: armed, claimed when due, recorded. */
module Calendar {
  import opened Common

  datatype MissedPolicy = RunLate | Grace(minutes: nat) | Skip

  /** The next occurrence strictly after a time, if there is one. */
  type Occurrences = Time -> Option<Time>

  /** What makes a function a next-occurrence function; occurrences lie after the epoch. */
  ghost predicate IsNextOccurrence(occ: Occurrences) {
    && (forall t: Time :: occ(t).Some? ==> t < occ(t).value && occ(t).value > 0.0)
    && (forall t: Time, u: Time :: t <= u && occ(t).None? ==> occ(u).None?)
    && (forall t: Time, u: Time :: occ(t).Some? && t <= u < occ(t).value ==> occ(u) == occ(t))
  }

  datatype Row = Row(enabled: bool, nextCheckAt: Option<Time>, pendingAt: Option<Time>)

  /** One recorded occurrence, when it was recorded, and whether it enqueued a job.
      `claimedAt` is when it was first claimed, if it was. */
  datatype Entry = Entry(scheduledAt: Time, recordedAt: Time, fired: bool, claimedAt: Option<Time>)

  predicate ShouldFire(policy: MissedPolicy, scheduledAt: Time, now: Time) {
    var lateness := if now > scheduledAt then now - scheduledAt else 0.0;
    match policy
    case RunLate => true
    case Skip => lateness <= 60.0
    case Grace(minutes) => lateness <= (minutes * 60) as real
  }

  /** Where the search for the following occurrence starts: a backlog is not replayed. */
  function CursorAfter(scheduledAt: Time, now: Time): Time {
    if now - scheduledAt > 60.0 then now else scheduledAt
  }

  datatype Event = ClaimDue(now: Time) | Record(now: Time) | Observe

  class Schedule {
    const occ: Occurrences
    const policy: MissedPolicy
    var enabled: bool
    var nextCheckAt: Option<Time>
    var pendingAt: Option<Time>
    ghost var claimedAt: Option<Time>
    ghost var log: seq<Entry>

    ghost function Model(): State
      reads this
    {
      State(Row(enabled, nextCheckAt, pendingAt), claimedAt, log)
    }

    /** Armed at `now`. */
    constructor (occ: Occurrences, policy: MissedPolicy, now: Time)
      ensures this.occ == occ && this.policy == policy && Model() == ArmedState(occ, now)
    {
      this.occ, this.policy := occ, policy;
      var occurrence := occ(now - 0.001);
      enabled, nextCheckAt, pendingAt := occurrence.Some?, occurrence, None;
      claimedAt, log := None, [];
    }

    method Claim(now: Time) returns (due: bool)
      modifies this
      ensures Model() == Next(occ, policy, old(Model()), ClaimDue(now))
      ensures due == (old(enabled) && old(nextCheckAt).Some? && old(nextCheckAt).value <= now)
      ensures enabled == old(enabled) && log == old(log)
      ensures due ==> nextCheckAt == Some(now + 300.0) && pendingAt == (if old(pendingAt).Some? then old(pendingAt) else old(nextCheckAt))
      ensures !due ==> nextCheckAt == old(nextCheckAt) && pendingAt == old(pendingAt)
    {
      due := enabled && nextCheckAt.Some? && nextCheckAt.value <= now;
      if due {
        if pendingAt.None? {
          pendingAt, claimedAt := nextCheckAt, Some(now);
        }
        nextCheckAt := Some(now + 300.0);
      }
    }

    /** Records the awaited occurrence; when there is none the automation is switched
        off by the error handler. */
    method RecordOccurrence(now: Time) returns (recorded: bool, fired: bool)
      modifies this
      ensures Model() == Next(occ, policy, old(Model()), Record(now))
      ensures recorded == (|log| > |old(log)|) && (recorded ==> fired == log[|log| - 1].fired)
      ensures pendingAt.None? && enabled == nextCheckAt.Some?
      ensures !recorded ==> !enabled && log == old(log)
      ensures recorded ==> log[..|log| - 1] == old(log) && var entry := log[|log| - 1];
        && entry.recordedAt == now && entry.claimedAt == old(claimedAt)
        && Some(entry.scheduledAt) == (if old(pendingAt).Some? && old(pendingAt).value != 0.0 then old(pendingAt) else old(nextCheckAt))
        && (fired <==> match policy
                       case RunLate => true
                       case Skip => now - entry.scheduledAt <= 60.0
                       case Grace(minutes) => now - entry.scheduledAt <= 60.0 * minutes as real)
        && nextCheckAt == occ((if now - entry.scheduledAt > 60.0 then now else entry.scheduledAt) + 0.001)
    {
      recorded, fired := false, false;
      var awaited := if pendingAt.Some? && pendingAt.value != 0.0 then pendingAt else nextCheckAt;
      if awaited.None? || occ(awaited.value - 0.001).None? {
        enabled, nextCheckAt, pendingAt, claimedAt := false, None, None, None;
        return;
      }
      var scheduledAt := awaited.value;
      recorded, fired := true, ShouldFire(policy, scheduledAt, now);
      var cursor := if now - scheduledAt > 60.0 then now else scheduledAt;
      var following := occ(cursor + 0.001);
      log := log + [Entry(scheduledAt, now, fired, claimedAt)];
      assert log[..|log| - 1] == old(log);
      enabled, nextCheckAt, pendingAt, claimedAt := following.Some?, following, None, None;
    }
  }

  // ----- the schedule as a function of the events since it was armed -----

  datatype State = State(row: Row, claimedAt: Option<Time>, log: seq<Entry>)

  function ArmedState(occ: Occurrences, now: Time): State {
    var first := occ(now - 0.001);
    State(Row(first.Some?, first, None), None, [])
  }

  function Awaited(row: Row): Option<Time> {
    if row.pendingAt.Some? && row.pendingAt.value != 0.0 then row.pendingAt else row.nextCheckAt
  }

  function Next(occ: Occurrences, policy: MissedPolicy, s: State, e: Event): State {
    match e
    case Observe => s
    case ClaimDue(now) =>
      if s.row.enabled && s.row.nextCheckAt.Some? && s.row.nextCheckAt.value <= now then
        var first := s.row.pendingAt.None?;
        s.(row := s.row.(pendingAt := if first then s.row.nextCheckAt else s.row.pendingAt,
                         nextCheckAt := Some(now + 300.0)),
           claimedAt := if first then Some(now) else s.claimedAt)
      else s
    case Record(now) =>
      var awaited := Awaited(s.row);
      if awaited.None? || occ(awaited.value - 0.001).None? then State(Row(false, None, None), None, s.log)
      else
        var following := occ(CursorAfter(awaited.value, now) + 0.001);
        State(Row(following.Some?, following, None), None,
              s.log + [Entry(awaited.value, now, ShouldFire(policy, awaited.value, now), s.claimedAt)])
  }

  function Run(occ: Occurrences, policy: MissedPolicy, armedAt: Time, events: seq<Event>): State {
    if events == [] then ArmedState(occ, armedAt)
    else Next(occ, policy, Run(occ, policy, armedAt, events[..|events| - 1]), events[|events| - 1])
  }

  /** The occurrence that has to be recorded after `log`. */
  function Due(occ: Occurrences, armedAt: Time, log: seq<Entry>): Option<Time> {
    if log == [] then occ(armedAt - 0.001)
    else
      var last := log[|log| - 1];
      occ(CursorAfter(last.scheduledAt, last.recordedAt) + 0.001)
  }

  ghost predicate LogOk(occ: Occurrences, policy: MissedPolicy, armedAt: Time, log: seq<Entry>) {
    forall k | 0 <= k < |log| ::
      && Due(occ, armedAt, log[..k]) == Some(log[k].scheduledAt)
      && (log[k].fired <==> ShouldFire(policy, log[k].scheduledAt, log[k].recordedAt))
      && (log[k].claimedAt.Some? ==> log[k].scheduledAt <= log[k].claimedAt.value)
  }

  predicate RowOk(occ: Occurrences, armedAt: Time, s: State) {
    && (Awaited(s.row).Some? ==> Awaited(s.row) == Due(occ, armedAt, s.log))
    && (s.row.pendingAt.Some? ==> s.claimedAt.Some? && s.row.pendingAt.value <= s.claimedAt.value
                                  && s.row.pendingAt.value > 0.0)
    && (s.row.pendingAt.None? ==> s.claimedAt.None?)
  }

  lemma ClaimKeepsRow(occ: Occurrences, policy: MissedPolicy, armedAt: Time, s: State, now: Time)
    requires IsNextOccurrence(occ) && RowOk(occ, armedAt, s)
    ensures RowOk(occ, armedAt, Next(occ, policy, s, ClaimDue(now)))
  {
    DueIsLater(occ, armedAt, s.log);
    hide Due, IsNextOccurrence;
  }

  lemma DueIsLater(occ: Occurrences, armedAt: Time, log: seq<Entry>)
    requires IsNextOccurrence(occ)
    ensures Due(occ, armedAt, log).Some? ==> Due(occ, armedAt, log).value > 0.0
  {
  }

  lemma RecordKeeps(occ: Occurrences, policy: MissedPolicy, armedAt: Time, s: State, now: Time)
    requires LogOk(occ, policy, armedAt, s.log) && RowOk(occ, armedAt, s)
    ensures var s' := Next(occ, policy, s, Record(now)); LogOk(occ, policy, armedAt, s'.log) && RowOk(occ, armedAt, s')
  {
    hide LogOk, ShouldFire, CursorAfter;
    var s' := Next(occ, policy, s, Record(now));
    if |s'.log| > |s.log| {
      LogExtends(occ, policy, armedAt, s.log, s'.log[|s.log|]);
    }
  }

  /** Whatever claims, repeated claims, skips and lost checks happen in between, what is
      recorded is the chain of next occurrences: a claim that was never recorded loses
      nothing, and keeps the original timestamp. */
  lemma {:induction false} RecordsFollowTheCalendar(occ: Occurrences, policy: MissedPolicy, armedAt: Time, events: seq<Event>)
    requires IsNextOccurrence(occ)
    ensures var s := Run(occ, policy, armedAt, events);
      LogOk(occ, policy, armedAt, s.log) && RowOk(occ, armedAt, s)
  {
    hide IsNextOccurrence;
    if events != [] {
      hide LogOk, RowOk;
      var before := events[..|events| - 1];
      RecordsFollowTheCalendar(occ, policy, armedAt, before);
      match events[|events| - 1]
      case ClaimDue(now) => ClaimKeepsRow(occ, policy, armedAt, Run(occ, policy, armedAt, before), now);
      case Record(now) => RecordKeeps(occ, policy, armedAt, Run(occ, policy, armedAt, before), now);
      case Observe =>
    }
  }

  lemma LogExtends(occ: Occurrences, policy: MissedPolicy, armedAt: Time, log: seq<Entry>, e: Entry)
    requires LogOk(occ, policy, armedAt, log) && Due(occ, armedAt, log) == Some(e.scheduledAt)
    requires e.fired <==> ShouldFire(policy, e.scheduledAt, e.recordedAt)
    requires e.claimedAt.Some? ==> e.scheduledAt <= e.claimedAt.value
    ensures LogOk(occ, policy, armedAt, log + [e])
  {
    var log' := log + [e];
    forall k | 0 <= k < |log'|
      ensures Due(occ, armedAt, log'[..k]) == Some(log'[k].scheduledAt)
        && (log'[k].fired <==> ShouldFire(policy, log'[k].scheduledAt, log'[k].recordedAt))
        && (log'[k].claimedAt.Some? ==> log'[k].scheduledAt <= log'[k].claimedAt.value)
    {
      assert log'[..k] == if k < |log| then log[..k] else log;
    }
  }

  predicate IsOccurrence(occ: Occurrences, t: Time, since: Time) { since < t && occ(since) == Some(t) }

  /** Occurrences are recorded in strictly increasing order, so each at most once, none
      was claimed before its time, and a record more than a minute late is followed by
      none from before it was made. */
  lemma OccurrencesAreRecordedInOrder(
    occ: Occurrences, policy: MissedPolicy, armedAt: Time, events: seq<Event>, i: nat, j: nat)
    requires IsNextOccurrence(occ)
    requires i < j < |Run(occ, policy, armedAt, events).log|
    ensures var log := Run(occ, policy, armedAt, events).log;
      && log[i].scheduledAt < log[j].scheduledAt
      && (log[j].claimedAt.Some? ==> log[j].scheduledAt <= log[j].claimedAt.value)
      && (log[i].recordedAt - log[i].scheduledAt > 60.0 ==> log[i].recordedAt < log[j].scheduledAt)
  {
    hide IsNextOccurrence, Run;
    RecordsFollowTheCalendar(occ, policy, armedAt, events);
    LogIsIncreasing(occ, policy, armedAt, Run(occ, policy, armedAt, events).log, i, j);
  }

  lemma {:induction false} LogIsIncreasing(
    occ: Occurrences, policy: MissedPolicy, armedAt: Time, log: seq<Entry>, i: nat, j: nat)
    requires IsNextOccurrence(occ) && LogOk(occ, policy, armedAt, log) && i < j < |log|
    ensures log[i].scheduledAt < log[j].scheduledAt
    ensures log[i].recordedAt - log[i].scheduledAt > 60.0 ==> log[i].recordedAt < log[j].scheduledAt
    decreases j
  {
    hide LogOk, IsNextOccurrence;
    LogIsAChain(occ, policy, armedAt, log, j - 1);
    NextIsLater(occ, CursorAfter(log[j - 1].scheduledAt, log[j - 1].recordedAt) + 0.001);
    if i < j - 1 {
      LogIsIncreasing(occ, policy, armedAt, log, i, j - 1);
    }
  }

  lemma NextIsLater(occ: Occurrences, t: Time)
    requires IsNextOccurrence(occ) && occ(t).Some?
    ensures t < occ(t).value
  {
  }

  /** The entry was claimed by event `p` and recorded by event `q`, in this order. */
  predicate ClaimedThenRecorded(events: seq<Event>, entry: Entry, p: nat, q: nat) {
    p < q < |events| && entry.claimedAt.Some? && events[p] == ClaimDue(entry.claimedAt.value) && events[q] == Record(entry.recordedAt)
  }

  /** A claim that waits for its record is one of the events. */
  predicate ClaimIsAmong(events: seq<Event>, claimedAt: Option<Time>) {
    claimedAt.Some? ==> ClaimDue(claimedAt.value) in events
  }

  /** What is recorded as claimed was claimed first and recorded afterwards. */
  lemma {:induction false} RecordsFollowTheirClaims(
    occ: Occurrences, policy: MissedPolicy, armedAt: Time, events: seq<Event>)
    ensures var s := Run(occ, policy, armedAt, events);
      && ClaimIsAmong(events, s.claimedAt)
      && forall k | 0 <= k < |s.log| && s.log[k].claimedAt.Some? ::
           exists p: nat, q: nat :: ClaimedThenRecorded(events, s.log[k], p, q)
  {
    if events != [] {
      var n := |events| - 1;
      var s, s' := Run(occ, policy, armedAt, events[..n]), Run(occ, policy, armedAt, events);
      RecordsFollowTheirClaims(occ, policy, armedAt, events[..n]);
      forall k | 0 <= k < |s'.log| && s'.log[k].claimedAt.Some?
        ensures exists p: nat, q: nat :: ClaimedThenRecorded(events, s'.log[k], p, q)
      {
        if k < |s.log| {
          var p: nat, q: nat :| ClaimedThenRecorded(events[..n], s.log[k], p, q);
          assert ClaimedThenRecorded(events, s'.log[k], p, q);
        } else {
          var p: nat :| p < n && events[..n][p] == ClaimDue(s.claimedAt.value);
          assert ClaimedThenRecorded(events, s'.log[k], p, n);
        }
      }
    }
  }

  lemma NextIsNoLater(occ: Occurrences, from: Time, t: Time, since: Time)
    requires IsNextOccurrence(occ) && IsOccurrence(occ, t, since) && from < t
    ensures occ(from).Some? && occ(from).value <= t
  {
    var u := if from < since then since else from;
    assert occ(u) == occ(since);
    if occ(from).None? {
      assert false;
    }
  }

  /** Whether the search for the occurrence after this record starts at or past `t`: at
      most a millisecond after the recorded occurrence, or after a late record. */
  predicate SkippedBy(entry: Entry, t: Time) {
    || t <= entry.scheduledAt + 0.001
    || (entry.recordedAt - entry.scheduledAt > 60.0 && t <= entry.recordedAt + 0.001)
  }

  /** The exact condition: an occurrence after a recorded one comes before the next one
      that is recorded if and only if that record skips it, and then it is never
      recorded at all. */
  lemma PassedOverExactlyWhenSkipped(
    occ: Occurrences, policy: MissedPolicy, armedAt: Time, events: seq<Event>, k: nat, t: Time, since: Time)
    requires IsNextOccurrence(occ)
    requires k + 1 < |Run(occ, policy, armedAt, events).log|
    requires IsOccurrence(occ, t, since) && Run(occ, policy, armedAt, events).log[k].scheduledAt < t
    ensures var log := Run(occ, policy, armedAt, events).log;
      && (t < log[k + 1].scheduledAt <==> SkippedBy(log[k], t))
      && (SkippedBy(log[k], t) ==> forall m | 0 <= m < |log| :: log[m].scheduledAt != t)
  {
    var log := Run(occ, policy, armedAt, events).log;
    ConsecutiveRecords(occ, policy, armedAt, events, k);
    var from := CursorAfter(log[k].scheduledAt, log[k].recordedAt) + 0.001;
    if from < t {
      NextIsNoLater(occ, from, t, since);
    }
    forall m | 0 <= m < |log|
      ensures (m <= k ==> log[m].scheduledAt <= log[k].scheduledAt) && (m > k ==> log[k + 1].scheduledAt <= log[m].scheduledAt)
    {
      if m < k { OccurrencesAreRecordedInOrder(occ, policy, armedAt, events, m, k); }
      if m > k + 1 { OccurrencesAreRecordedInOrder(occ, policy, armedAt, events, k + 1, m); }
    }
  }

  /** A calendar of three occurrences. */
  function ThreeTimes(t: Time): Option<Time> {
    if t < 1000.0 then Some(1000.0) else if t < 1090.0 then Some(1090.0) else if t < 2000.0 then Some(2000.0) else None
  }

  /** An occurrence that was still to come when a late record was made, and is lost. */
  lemma ALateRecordLosesTheNextOccurrence(policy: MissedPolicy)
    ensures IsNextOccurrence(ThreeTimes) && IsOccurrence(ThreeTimes, 1090.0, 1000.0)
    ensures var s := Run(ThreeTimes, policy, 900.0, [ClaimDue(1000.0), Record(1089.9995)]);
      && |s.log| == 1 && s.log[0].scheduledAt == 1000.0 && s.log[0].recordedAt < 1090.0
      && s.row.nextCheckAt == Some(2000.0) && s.row.pendingAt.None?
  {
    var events := [ClaimDue(1000.0), Record(1089.9995)];
    assert events[..1] == [ClaimDue(1000.0)] && events[..1][..0] == [];
    assert Run(ThreeTimes, policy, 900.0, events[..1]) ==
      State(Row(true, Some(1300.0), Some(1000.0)), Some(1000.0), []);
  }

  lemma ConsecutiveRecords(occ: Occurrences, policy: MissedPolicy, armedAt: Time, events: seq<Event>, k: nat)
    requires IsNextOccurrence(occ)
    requires k + 1 < |Run(occ, policy, armedAt, events).log|
    ensures var log := Run(occ, policy, armedAt, events).log;
      occ(CursorAfter(log[k].scheduledAt, log[k].recordedAt) + 0.001) == Some(log[k + 1].scheduledAt)
  {
    RecordsFollowTheCalendar(occ, policy, armedAt, events);
    LogIsAChain(occ, policy, armedAt, Run(occ, policy, armedAt, events).log, k);
  }

  lemma LogIsAChain(occ: Occurrences, policy: MissedPolicy, armedAt: Time, log: seq<Entry>, k: nat)
    requires LogOk(occ, policy, armedAt, log) && k + 1 < |log|
    ensures occ(CursorAfter(log[k].scheduledAt, log[k].recordedAt) + 0.001) == Some(log[k + 1].scheduledAt)
  {
    assert log[..k + 1][k] == log[k];
    assert Due(occ, armedAt, log[..k + 1]) == Some(log[k + 1].scheduledAt);
  }
}
