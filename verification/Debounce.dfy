/** The trigger state of an interval automation: debounce, latch, recovery and cooldown. */
module Debounce {
  import opened Common

  datatype Config = Config(triggerAfter: nat, recoverAfter: nat, cooldown: nat)

  datatype State = Disabled | Healthy | Suspect | Triggered | Recovering | Error

  datatype Row = Row(state: State, met: nat, clear: nat, lastTriggered: Option<Time>)

  predicate IsLatched(row: Row) { row.state.Triggered? || row.state.Recovering? }

  datatype Event = Check(met: bool, now: Time) | CheckError | Arm | Disarm

  function LastTriggered(row: Row): Time { if row.lastTriggered.Some? then row.lastTriggered.value else 0.0 }

  /** An automation row, changed by the outcomes of its checks. */
  class Automation {
    const config: Config
    var state: State
    var consecutiveMet: nat
    var consecutiveClear: nat
    var lastTriggeredAt: Option<Time>

    function Columns(): Row
      reads this
    {
      Row(state, consecutiveMet, consecutiveClear, lastTriggeredAt)
    }

    constructor (config: Config)
      ensures this.config == config && Columns() == Row(Disabled, 0, 0, None)
    {
      this.config := config;
      state, consecutiveMet, consecutiveClear, lastTriggeredAt := Disabled, 0, 0, None;
    }

    method RecordCondition(met: bool, now: Time) returns (shouldFire: bool)
      modifies this
      ensures Columns() == Next(config, old(Columns()), Check(met, now))
      ensures shouldFire == FiresNow(config, old(Columns()), Check(met, now))
    {
      shouldFire := false;
      if met {
        consecutiveMet := consecutiveMet + 1;
        consecutiveClear := 0;
        if state != Triggered && state != Recovering {
          state := Suspect;
          var last := if lastTriggeredAt.Some? then lastTriggeredAt.value else 0.0;
          var cooldownReady := now - last >= config.cooldown as real;
          if consecutiveMet >= config.triggerAfter && cooldownReady {
            state := Triggered;
            shouldFire := true;
          }
        }
      } else {
        consecutiveMet := 0;
        if state == Triggered || state == Recovering {
          consecutiveClear := consecutiveClear + 1;
          state := Recovering;
          if consecutiveClear >= config.recoverAfter {
            state, consecutiveClear := Healthy, 0;
          }
        } else {
          state, consecutiveClear := Healthy, 0;
        }
      }
      if shouldFire {
        lastTriggeredAt := Some(now);
      }
    }

    /** The counters are left as they are. */
    method RecordError()
      modifies this`state
      ensures Columns() == Next(config, old(Columns()), CheckError)
    {
      state := Error;
    }

    method SetEnabled(enabled: bool)
      modifies this`state, this`consecutiveMet, this`consecutiveClear
      ensures Columns() == Next(config, old(Columns()), if enabled then Arm else Disarm)
    {
      state := if enabled then Healthy else Disabled;
      consecutiveMet, consecutiveClear := 0, 0;
    }
  }

  // ----- the row as a function of the events -----

  predicate FiresNow(c: Config, row: Row, e: Event) {
    e.Check? && e.met && !IsLatched(row)
    && row.met + 1 >= c.triggerAfter && e.now - LastTriggered(row) >= c.cooldown as real
  }

  function Next(c: Config, row: Row, e: Event): Row {
    match e
    case Check(true, now) =>
      Row(if IsLatched(row) then row.state else if FiresNow(c, row, e) then Triggered else Suspect,
          row.met + 1, 0, if FiresNow(c, row, e) then Some(now) else row.lastTriggered)
    case Check(false, now) =>
      if IsLatched(row) && row.clear + 1 < c.recoverAfter then Row(Recovering, 0, row.clear + 1, row.lastTriggered)
      else Row(Healthy, 0, 0, row.lastTriggered)
    case CheckError => row.(state := Error)
    case Arm => Row(Healthy, 0, 0, row.lastTriggered)
    case Disarm => Row(Disabled, 0, 0, row.lastTriggered)
  }

  function Run(c: Config, start: Row, h: seq<Event>): Row {
    if h == [] then start else Next(c, Run(c, start, h[..|h| - 1]), h[|h| - 1])
  }

  // ----- the history specification -----

  /** The length of the trailing run of met checks since the last arming; errors do not interrupt it. */
  function MetRun(h: seq<Event>): nat {
    if h == [] then 0
    else match h[|h| - 1]
      case Check(true, _) => MetRun(h[..|h| - 1]) + 1
      case CheckError => MetRun(h[..|h| - 1])
      case _ => 0
  }

  /** The length of the trailing run of clear checks. */
  function ClearRun(h: seq<Event>): nat {
    if h == [] then 0
    else match h[|h| - 1]
      case Check(false, _) => ClearRun(h[..|h| - 1]) + 1
      case _ => 0
  }

  /** Event `i` leaves a latch in place: it is a check and does not complete a recovery. */
  predicate KeepsLatch(c: Config, h: seq<Event>, i: nat)
    requires i < |h|
  {
    h[i].Check? && ClearRun(h[..i + 1]) < c.recoverAfter
  }

  lemma KeepsLatchOfPrefix(c: Config, h: seq<Event>, n: nat, i: nat)
    requires i < n <= |h|
    ensures KeepsLatch(c, h[..n], i) == KeepsLatch(c, h, i)
  {
    assert h[..n][..i + 1] == h[..i + 1];
  }

  /** The fire at `f` has been followed only by checks, and never by enough clears in a row. */
  ghost predicate LatchedSince(c: Config, h: seq<Event>, fires: seq<bool>, f: nat)
    requires |fires| == |h|
  {
    f < |h| && fires[f] && forall i | f < i < |h| :: KeepsLatch(c, h, i)
  }

  ghost predicate Latched(c: Config, h: seq<Event>, fires: seq<bool>)
    requires |fires| == |h|
  {
    exists f: nat :: LatchedSince(c, h, fires, f)
  }

  /** When the automation last fired; `seed` is when it did so before the history. */
  function LastFire(h: seq<Event>, fires: seq<bool>, seed: Time): Time
    requires |fires| == |h|
  {
    if h == [] then seed
    else if fires[|h| - 1] && h[|h| - 1].Check? then h[|h| - 1].now
    else LastFire(h[..|h| - 1], fires[..|h| - 1], seed)
  }

  /** An event fires after `h`: it is a met check, nothing is latched, the met run is
      long enough, and the cooldown since the previous fire is over. */
  ghost predicate FiresAfter(c: Config, h: seq<Event>, fires: seq<bool>, e: Event, seed: Time)
    requires |fires| == |h|
  {
    && e.Check? && e.met
    && !Latched(c, h, fires)
    && MetRun(h) + 1 >= c.triggerAfter
    && e.now - LastFire(h, fires, seed) >= c.cooldown as real
  }

  /** `fires` marks exactly the events of `h` that have to fire. */
  ghost predicate Spec(c: Config, h: seq<Event>, fires: seq<bool>, seed: Time) {
    && |fires| == |h|
    && forall i | 0 <= i < |h| :: fires[i] <==> FiresAfter(c, h[..i], fires[..i], h[i], seed)
  }

  // ----- the state machine refines the specification -----

  /** Which events the row fires on. */
  function Fired(c: Config, start: Row, h: seq<Event>): (fires: seq<bool>)
    ensures |fires| == |h|
  {
    if h == [] then []
    else Fired(c, start, h[..|h| - 1]) + [FiresNow(c, Run(c, start, h[..|h| - 1]), h[|h| - 1])]
  }

  lemma LatchAfter(c: Config, h: seq<Event>, fires: seq<bool>, e: Event, fired: bool)
    requires |fires| == |h| && c.recoverAfter >= 1
    requires fired ==> e.Check? && e.met
    ensures Latched(c, h + [e], fires + [fired]) <==>
      match e
      case Check(true, _) => fired || Latched(c, h, fires)
      case Check(false, _) => Latched(c, h, fires) && ClearRun(h + [e]) < c.recoverAfter
      case _ => false
  {
    var n, h', fires' := |h|, h + [e], fires + [fired];
    assert h'[..n + 1] == h' && h'[..n] == h;
    forall i | 0 <= i < n ensures KeepsLatch(c, h', i) == KeepsLatch(c, h, i) {
      KeepsLatchOfPrefix(c, h', n, i);
    }
    forall f: nat | f < n
      ensures LatchedSince(c, h', fires', f) <==> LatchedSince(c, h, fires, f) && KeepsLatch(c, h', n)
    {
    }
    assert LatchedSince(c, h', fires', n) <==> fired;
    if Latched(c, h, fires) {
      var f: nat :| LatchedSince(c, h, fires, f);
      assert f < n;
    }
    if Latched(c, h', fires') {
      var f: nat :| LatchedSince(c, h', fires', f);
      assert f < n ==> LatchedSince(c, h, fires, f);
    }
  }

  /** A row fresh from arming, whatever it fired before. */
  function Armed(lastTriggered: Option<Time>): Row { Row(Healthy, 0, 0, lastTriggered) }

  /** Over every sequence of checks, errors and re-armings, the row holds exactly what
      the history says, and it is latched exactly when a fire has not been recovered from. */
  lemma {:induction false} RowFollowsHistory(c: Config, start: Row, h: seq<Event>)
    requires c.recoverAfter >= 1 && start == Armed(start.lastTriggered)
    ensures var row, fires := Run(c, start, h), Fired(c, start, h);
      && row.met == MetRun(h)
      && (IsLatched(row) <==> Latched(c, h, fires))
      && (IsLatched(row) ==> row.clear == ClearRun(h))
      && LastTriggered(row) == LastFire(h, fires, LastTriggered(start))
  {
    if h != [] {
      var before, e := h[..|h| - 1], h[|h| - 1];
      RowFollowsHistory(c, start, before);
      var fired := FiresNow(c, Run(c, start, before), e);
      LatchAfter(c, before, Fired(c, start, before), e, fired);
      assert before + [e] == h;
      assert Fired(c, start, h)[..|h| - 1] == Fired(c, start, before);
    }
  }

  /** Some check since the latest fire was clear. */
  ghost predicate ClearedSinceFire(h: seq<Event>, fires: seq<bool>)
    requires |fires| == |h|
  {
    exists k :: 0 <= k < |h| && h[k].Check? && !h[k].met && forall i | k < i < |h| :: !fires[i]
  }

  /** The state while nothing is latched. */
  function StateAfter(h: seq<Event>): State {
    if h == [] then Healthy
    else match h[|h| - 1]
      case Check(met, _) => if met then Suspect else Healthy
      case CheckError => Error
      case Arm => Healthy
      case Disarm => Disabled
  }

  /** The state column, from the history alone: latched, it says whether a clear check came
      since the fire; otherwise it says what came last. */
  lemma {:induction false} StateFollowsHistory(c: Config, start: Row, h: seq<Event>)
    requires c.recoverAfter >= 1 && start == Armed(start.lastTriggered)
    ensures var row, fires := Run(c, start, h), Fired(c, start, h);
      && (IsLatched(row) && row.state.Recovering? ==> ClearedSinceFire(h, fires))
      && (IsLatched(row) && row.state.Triggered? ==> exists f: nat :: LatchedSince(c, h, fires, f) && forall i | f < i < |h| :: h[i].Check? && h[i].met)
      && (!IsLatched(row) ==> row.state == StateAfter(h))
  {
    if h != [] {
      var n := |h| - 1;
      var before, e := h[..n], h[n];
      StateFollowsHistory(c, start, before);
      RowFollowsHistory(c, start, before);
      RowFollowsHistory(c, start, h);
      var row, row', fires, fires' := Run(c, start, before), Run(c, start, h), Fired(c, start, before), Fired(c, start, h);
      assert fires' == fires + [FiresNow(c, row, e)] && before + [e] == h;
      if row'.state.Recovering? {
        if e.met {
          var k :| 0 <= k < n && before[k].Check? && !before[k].met && forall i | k < i < n :: !fires[i];
          assert h[k].Check? && !h[k].met && forall i | k < i < |h| :: !fires'[i];
        } else {
          assert h[n].Check? && !h[n].met;
        }
      } else if row'.state.Triggered? {
        if FiresNow(c, row, e) {
          assert LatchedSince(c, h, fires', n);
        } else {
          var f: nat :| LatchedSince(c, before, fires, f) && forall i | f < i < n :: before[i].Check? && before[i].met;
          forall i | f < i < |h| ensures KeepsLatch(c, h, i) {
            if i < n { KeepsLatchOfPrefix(c, h, n, i); } else { assert h[..n + 1] == h; }
          }
          assert LatchedSince(c, h, fires', f);
        }
      }
    }
  }

  lemma {:induction false} FiredOfPrefix(c: Config, start: Row, h: seq<Event>, i: nat)
    requires i <= |h|
    ensures Fired(c, start, h)[..i] == Fired(c, start, h[..i])
  {
    if i < |h| {
      FiredOfPrefix(c, start, h[..|h| - 1], i);
      assert h[..|h| - 1][..i] == h[..i];
    } else {
      assert h[..i] == h;
    }
  }

  /** The refinement: the row fires on exactly the events the history specification says. */
  lemma DebounceRefinesHistory(c: Config, start: Row, h: seq<Event>)
    requires c.recoverAfter >= 1 && start == Armed(start.lastTriggered)
    ensures Spec(c, h, Fired(c, start, h), LastTriggered(start))
  {
    var fires := Fired(c, start, h);
    forall i | 0 <= i < |h|
      ensures fires[i] <==> FiresAfter(c, h[..i], fires[..i], h[i], LastTriggered(start))
    {
      FiredOfPrefix(c, start, h, i);
      FiredOfPrefix(c, start, h, i + 1);
      assert h[..i + 1][..i] == h[..i];
      assert fires[i] == fires[..i + 1][i];
      RowFollowsHistory(c, start, h[..i]);
    }
  }

  // ----- consequences of the specification -----

  /** The latch clears only after enough clears in a row: between two fires there is a
      completed recovery, an error or a re-arming. */
  lemma RefireNeedsRecovery(c: Config, h: seq<Event>, fires: seq<bool>, seed: Time, i: nat, j: nat)
    requires Spec(c, h, fires, seed) && i < j < |h| && fires[i] && fires[j]
    ensures exists k :: i < k < j && !KeepsLatch(c, h, k)
  {
    assert FiresAfter(c, h[..j], fires[..j], h[j], seed);
    assert !LatchedSince(c, h[..j], fires[..j], i);
    var k :| i < k < j && !KeepsLatch(c, h[..j], k);
    KeepsLatchOfPrefix(c, h, j, k);
  }

  /** Fires are at least a cooldown apart, across errors and re-armings too. */
  lemma {:induction false} FiresAreSpaced(c: Config, h: seq<Event>, fires: seq<bool>, seed: Time, i: nat, j: nat)
    requires Spec(c, h, fires, seed) && i < j < |h| && fires[i] && fires[j]
    ensures h[i].Check? && h[j].Check? && h[j].now - h[i].now >= c.cooldown as real
    decreases j
  {
    assert FiresAfter(c, h[..i], fires[..i], h[i], seed) && FiresAfter(c, h[..j], fires[..j], h[j], seed);
    var f := LatestFire(c, h, fires, seed, i, j);
    if f > i {
      FiresAreSpaced(c, h, fires, seed, i, f);
    }
  }

  lemma {:induction false} LatestFire(c: Config, h: seq<Event>, fires: seq<bool>, seed: Time, i: nat, j: nat) returns (f: nat)
    requires Spec(c, h, fires, seed) && i < j <= |h| && fires[i]
    ensures i <= f < j && fires[f] && h[f].Check? && LastFire(h[..j], fires[..j], seed) == h[f].now
    decreases j
  {
    assert FiresAfter(c, h[..i], fires[..i], h[i], seed);
    assert h[..j][..j - 1] == h[..j - 1] && fires[..j][..j - 1] == fires[..j - 1];
    if fires[j - 1] {
      assert FiresAfter(c, h[..j - 1], fires[..j - 1], h[j - 1], seed);
      f := j - 1;
    } else {
      f := LatestFire(c, h, fires, seed, i, j - 1);
    }
  }

  function FireCount(fires: seq<bool>): nat {
    if fires == [] then 0 else FireCount(fires[..|fires| - 1]) + if fires[|fires| - 1] then 1 else 0
  }

  ghost predicate OnlyChecks(h: seq<Event>) { forall i | 0 <= i < |h| :: h[i].Check? }

  /** The least number of checks that `n` fires need. */
  function ChecksFor(c: Config, n: nat): int {
    if n == 0 then 0 - c.recoverAfter else ChecksFor(c, n - 1) + c.triggerAfter + c.recoverAfter
  }

  lemma {:induction false} ChecksForIsLinear(c: Config, n: nat)
    ensures ChecksFor(c, n) == n * c.triggerAfter + (n - 1) * c.recoverAfter
  {
    if n > 0 {
      ChecksForIsLinear(c, n - 1);
    }
  }

  /** The checks that `n` fires and the counts of the row have needed. */
  function Paid(c: Config, row: Row, n: nat): int {
    ChecksFor(c, n) + if IsLatched(row) then row.clear else c.recoverAfter + row.met
  }

  lemma CheckPays(c: Config, row: Row, e: Event, n: nat)
    requires c.recoverAfter >= 1 && e.Check?
    ensures Paid(c, Next(c, row, e), n + if FiresNow(c, row, e) then 1 else 0) <= Paid(c, row, n) + 1
  {
  }

  lemma {:induction false} ChecksPayForFires(c: Config, start: Row, h: seq<Event>)
    requires c.recoverAfter >= 1 && start == Armed(start.lastTriggered) && OnlyChecks(h)
    ensures |h| >= Paid(c, Run(c, start, h), FireCount(Fired(c, start, h)))
  {
    hide Next, FiresNow;
    if h != [] {
      var before, last := h[..|h| - 1], h[|h| - 1];
      ChecksPayForFires(c, start, before);
      assert last.Check?;
      CheckPays(c, Run(c, start, before), last, FireCount(Fired(c, start, before)));
      assert Fired(c, start, h)[..|h| - 1] == Fired(c, start, before);
    }
  }

  /** Without errors, `n` fires need at least n trigger runs and n - 1 recovery runs of checks. */
  lemma FiresNeedChecks(c: Config, start: Row, h: seq<Event>, n: nat)
    requires c.recoverAfter >= 1 && start == Armed(start.lastTriggered) && OnlyChecks(h)
    requires n == FireCount(Fired(c, start, h)) && n >= 1
    ensures |h| >= n * c.triggerAfter + (n - 1) * c.recoverAfter
  {
    ChecksPayForFires(c, start, h);
    ChecksForIsLinear(c, n);
  }

  /** An error drops the latch but keeps the met count: two met checks around one error
      fire twice although recovery would take three clears. */
  lemma ErrorDropsLatch()
    ensures Fired(Config(1, 3, 0), Armed(None), [Check(true, 1.0), CheckError, Check(true, 2.0)]) == [true, false, true]
  {
    var c, start := Config(1, 3, 0), Armed(None);
    var h := [Check(true, 1.0), CheckError, Check(true, 2.0)];
    assert h[..2][..1] == [Check(true, 1.0)] && h[..2][..1][..0] == [];
    assert Fired(c, start, h[..2][..1]) == [true] && Run(c, start, h[..2][..1]) == Row(Triggered, 1, 0, Some(1.0));
    assert Fired(c, start, h[..2]) == [true, false] && Run(c, start, h[..2]) == Row(Error, 1, 0, Some(1.0));
  }
}
