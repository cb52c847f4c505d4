/** The log of one job, and what its entries say about stages, waits and hand-outs. */
module JobLog {
  import opened Common
  import opened Pipeline

  /** What happens to the job: it is handed out, a stage begins to run, its progress is
      saved, it is put aside until a delay is over, it is completed, it is given back
      after an error, or it loses its link to a run. `late` marks a transaction whose
      caller raised after it had committed. */
  datatype Mark =
    | HandedOut(now: Time)
    | Started(stage: nat)
    | Saved(cursor: Cursor)
    | Waited(cursor: Cursor, until: Time, late: bool)
    | Finished(late: bool)
    | GaveBack(next: Option<Time>)
    | Unlinked

  /** The progress the row holds: completing a job clears it. */
  function LastSaved(log: seq<Mark>): Cursor {
    if log == [] then START
    else match log[|log| - 1]
      case Saved(c) => c
      case Waited(c, _, _) => c
      case Finished(_) => START
      case _ => LastSaved(log[..|log| - 1])
  }

  /** The last entry that is not the loss of a run. */
  function Tail(log: seq<Mark>): Option<Mark> {
    if log == [] then None
    else if log[|log| - 1].Unlinked? then Tail(log[..|log| - 1])
    else Some(log[|log| - 1])
  }

  /** The job has been completed and has not lost its run since. */
  predicate Ended(log: seq<Mark>) {
    log != [] && (log[|log| - 1].Finished? || (!log[|log| - 1].Unlinked? && Ended(log[..|log| - 1])))
  }

  /** Somebody was handed the job and may be working on it. */
  predicate Busy(log: seq<Mark>) {
    Tail(log).Some? && (Tail(log).value.HandedOut? || Tail(log).value.Started? || Tail(log).value.Saved?)
  }

  /** Only a holder can give the job back; after a wait or a completion one is left only
      if that raised late. */
  predicate CanGiveBack(log: seq<Mark>) {
    && Tail(log).Some? && !Tail(log).value.GaveBack?
    && (Tail(log).value.Waited? ==> Tail(log).value.late)
    && (Tail(log).value.Finished? ==> Tail(log).value.late)
  }

  /** From when on the job may be handed out, while it rests. */
  function Resume(log: seq<Mark>): Option<Time> {
    match Tail(log)
    case Some(Waited(_, until, _)) => Some(until)
    case Some(GaveBack(next)) => next
    case _ => None
  }

  /** Some time the pipeline had reached its end. */
  ghost predicate EverDone(plan: seq<Stage>, log: seq<Mark>) {
    exists k :: 0 <= k <= |log| && LastSaved(log[..k]).next >= |plan|
  }

  ghost predicate MarkOk(a: Actions, plan: seq<Stage>, before: seq<Mark>, m: Mark) {
    var last := LastSaved(before);
    match m
    case HandedOut(now) =>
      && !(Tail(before).Some? && Tail(before).value.Finished?)
      && (Resume(before).Some? ==> Resume(before).value <= now)
    case Started(i) => Busy(before) && !Ended(before) && i == last.next < |plan| && !MustWait(plan, last)
    case Saved(c) =>
      && Tail(before) == Some(Started(last.next)) && !Ended(before)
      && last.next < |plan| && c == RunStage(a, plan, last)
    case Waited(c, _, _) =>
      && Busy(before) && !Ended(before) && last.next < |plan| && MustWait(plan, last)
      && c == last.(delayDone := plan[last.next].id)
    case Finished(_) => Busy(before) && EverDone(plan, before)
    case GaveBack(next) => CanGiveBack(before) && (Tail(before).value.Waited? ==> next.Some?)
    case Unlinked => true
  }

  ghost predicate LogOk(a: Actions, plan: seq<Stage>, log: seq<Mark>) {
    forall q | 0 <= q < |log| :: MarkOk(a, plan, log[..q], log[q])
  }

  lemma LogOkAt(a: Actions, plan: seq<Stage>, log: seq<Mark>, q: nat)
    requires LogOk(a, plan, log) && q < |log|
    ensures MarkOk(a, plan, log[..q], log[q])
  {
  }

  lemma LogOkExtends(a: Actions, plan: seq<Stage>, log: seq<Mark>, m: Mark)
    requires LogOk(a, plan, log) && MarkOk(a, plan, log, m)
    ensures LogOk(a, plan, log + [m])
  {
    hide MarkOk;
    var log' := log + [m];
    forall q | 0 <= q < |log'| ensures MarkOk(a, plan, log'[..q], log'[q]) {
      assert log'[..q] == if q < |log| then log[..q] else log;
    }
  }

  lemma LogOkPrefix(a: Actions, plan: seq<Stage>, log: seq<Mark>, n: nat)
    requires LogOk(a, plan, log) && n <= |log|
    ensures LogOk(a, plan, log[..n])
  {
    hide MarkOk;
    forall q | 0 <= q < n ensures MarkOk(a, plan, log[..n][..q], log[..n][q]) {
      assert log[..n][..q] == log[..q];
    }
  }

  /** What one more entry changes. */
  lemma OneMore(log: seq<Mark>, m: Mark)
    ensures var log' := log + [m];
      && LastSaved(log') == (match m
           case Saved(c) => c
           case Waited(c, _, _) => c
           case Finished(_) => START
           case _ => LastSaved(log))
      && Tail(log') == (if m.Unlinked? then Tail(log) else Some(m))
      && Ended(log') == (m.Finished? || (!m.Unlinked? && Ended(log)))
  {
    assert (log + [m])[..|log|] == log;
  }

  lemma DoneStays(plan: seq<Stage>, log: seq<Mark>, m: Mark)
    requires EverDone(plan, log)
    ensures EverDone(plan, log + [m])
  {
    var k :| 0 <= k <= |log| && LastSaved(log[..k]).next >= |plan|;
    assert (log + [m])[..k] == log[..k];
  }

  lemma DoneNow(plan: seq<Stage>, log: seq<Mark>)
    requires LastSaved(log).next >= |plan|
    ensures EverDone(plan, log)
  {
    assert log[..|log|] == log;
  }

  // ----- progress -----

  /** No completion lies between two positions. */
  predicate SamePass(log: seq<Mark>, p: nat, q: nat) {
    forall r | p <= r < q && r < |log| :: !log[r].Finished?
  }

  lemma StageGoesOnOrStops(a: Actions, plan: seq<Stage>, c: Cursor)
    requires c.next < |plan|
    ensures RunStage(a, plan, c).next == c.next + 1 || RunStage(a, plan, c).next == |plan|
    ensures RunStage(a, plan, c).delayDone == ""
  {
  }

  lemma {:induction false} ProgressOnlyGrows(a: Actions, plan: seq<Stage>, log: seq<Mark>, p: nat, q: nat)
    requires LogOk(a, plan, log) && p <= q <= |log| && SamePass(log, p, q)
    ensures LastSaved(log[..p]).next <= LastSaved(log[..q]).next
  {
    hide LogOk, MustWait, RunStage;
    if p < q {
      ProgressOnlyGrows(a, plan, log, p, q - 1);
      LogOkAt(a, plan, log, q - 1);
      assert log[..q] == log[..q - 1] + [log[q - 1]];
      OneMore(log[..q - 1], log[q - 1]);
      if log[q - 1].Saved? {
        StageGoesOnOrStops(a, plan, LastSaved(log[..q - 1]));
      }
    }
  }

  /** Where the progress of a pipeline under way comes from: the stage before it ran. */
  lemma {:induction false} ProgressFollowsStart(a: Actions, plan: seq<Stage>, log: seq<Mark>)
    requires LogOk(a, plan, log) && 0 < LastSaved(log).next < |plan|
    ensures Started(LastSaved(log).next - 1) in log
  {
    hide LogOk, RunStage, MustWait;
    var n := |log| - 1;
    assert log == log[..n] + [log[n]];
    LogOkAt(a, plan, log, n);
    OneMore(log[..n], log[n]);
    if log[n].Saved? {
      StageGoesOnOrStops(a, plan, LastSaved(log[..n]));
      TailIsIn(log[..n]);
    } else {
      LogOkPrefix(a, plan, log, n);
      ProgressFollowsStart(a, plan, log[..n]);
    }
  }

  lemma {:induction false} TailIsIn(log: seq<Mark>)
    requires Tail(log).Some?
    ensures Tail(log).value in log
  {
    if log[|log| - 1].Unlinked? {
      TailIsIn(log[..|log| - 1]);
    }
  }

  // ----- restarts -----

  /** A stage is started although progress beyond it had been saved. */
  predicate StartedAgain(log: seq<Mark>, p: nat, q: nat) {
    p < q < |log| && log[p].Saved? && log[q].Started? && log[q].stage < log[p].cursor.next
  }

  /** A completion that raised late, a loss of the run after it, and a start after that. */
  predicate LostCompletion(log: seq<Mark>, r: nat, u: nat, q: nat) {
    r < u < q < |log| && log[r] == Finished(true) && log[u].Unlinked? && log[q].Started?
  }

  /** Whoever works again after a completion was let by a late one: it was given back. */
  lemma {:induction false} WorkAfterCompletionMeansLate(a: Actions, plan: seq<Stage>, log: seq<Mark>, r: nat, q: nat)
    requires LogOk(a, plan, log) && r < q <= |log| && log[r].Finished?
    ensures log[r].late || Tail(log[..q]) == Some(log[r])
  {
    hide LogOk, EverDone;
    assert log[..q] == log[..q - 1] + [log[q - 1]];
    OneMore(log[..q - 1], log[q - 1]);
    if r < q - 1 {
      WorkAfterCompletionMeansLate(a, plan, log, r, q - 1);
      LogOkAt(a, plan, log, q - 1);
    }
  }

  /** A run is lost between the last completion and any later start. */
  lemma {:induction false} StartAfterCompletionLostTheRun(log: seq<Mark>, r: nat, q: nat)
    requires r < q <= |log| && log[r].Finished? && !Ended(log[..q])
    ensures exists u :: r < u < q && log[u].Unlinked?
  {
    assert log[..q] == log[..q - 1] + [log[q - 1]];
    OneMore(log[..q - 1], log[q - 1]);
    if r < q - 1 && !log[q - 1].Unlinked? {
      StartAfterCompletionLostTheRun(log, r, q - 1);
    }
  }

  lemma RestartNeedsALostCompletion(a: Actions, plan: seq<Stage>, log: seq<Mark>, p: nat, q: nat)
    requires LogOk(a, plan, log) && StartedAgain(log, p, q)
    ensures exists r, u :: p < r && LostCompletion(log, r, u, q)
  {
    hide LogOk, RunStage, MustWait, EverDone;
    LogOkAt(a, plan, log, q);
    assert log[..p + 1] == log[..p] + [log[p]];
    OneMore(log[..p], log[p]);
    if SamePass(log, p + 1, q) {
      ProgressOnlyGrows(a, plan, log, p + 1, q);
      assert false;
    }
    var r: nat :| p + 1 <= r < q && log[r].Finished?;
    WorkAfterCompletionMeansLate(a, plan, log, r, q);
    StartAfterCompletionLostTheRun(log, r, q);
    var u :| r < u < q && log[u].Unlinked?;
    assert LostCompletion(log, r, u, q);
  }

  /** Until the next start nothing is saved after a completion. */
  lemma {:induction false} NothingSavedBeforeAStart(a: Actions, plan: seq<Stage>, log: seq<Mark>, r: nat, q: nat)
    requires LogOk(a, plan, log) && r < q <= |log| && log[r].Finished?
    requires forall k | r < k < q :: !log[k].Started?
    ensures LastSaved(log[..q]) == START
    ensures Tail(log[..q]).Some? && !Tail(log[..q]).value.Started?
  {
    hide LogOk, RunStage, EverDone;
    assert log[..q] == log[..q - 1] + [log[q - 1]];
    OneMore(log[..q - 1], log[q - 1]);
    if r < q - 1 {
      NothingSavedBeforeAStart(a, plan, log, r, q - 1);
      LogOkAt(a, plan, log, q - 1);
    }
  }

  /** The first start after a completion is that of the first stage. */
  lemma FirstStartAfter(a: Actions, plan: seq<Stage>, log: seq<Mark>, r: nat, q: nat) returns (first: nat)
    requires LogOk(a, plan, log) && r < q < |log| && log[r].Finished? && log[q].Started?
    ensures r < first <= q && log[first] == Started(0)
  {
    hide LogOk, RunStage, EverDone;
    first := r + 1;
    while !log[first].Started?
      invariant r < first <= q && forall k | r < k < first :: !log[k].Started?
      decreases q - first
    {
      first := first + 1;
    }
    NothingSavedBeforeAStart(a, plan, log, r, first);
    LogOkAt(a, plan, log, first);
  }

  /** Who reached the end of a pipeline with stages had saved it. */
  lemma {:induction false} EndWasSaved(a: Actions, plan: seq<Stage>, log: seq<Mark>, k: nat) returns (p: nat)
    requires LogOk(a, plan, log) && k <= |log| && plan != [] && LastSaved(log[..k]).next >= |plan|
    ensures p < k && log[p].Saved? && log[p].cursor.next >= |plan|
  {
    hide LogOk, RunStage, MustWait, EverDone;
    var n := k - 1;
    assert log[..k] == log[..n] + [log[n]];
    OneMore(log[..n], log[n]);
    LogOkAt(a, plan, log, n);
    if log[n].Saved? {
      p := n;
    } else {
      p := EndWasSaved(a, plan, log, n);
    }
  }

  lemma LostCompletionRestarts(a: Actions, plan: seq<Stage>, log: seq<Mark>, r: nat, u: nat, q: nat)
    requires LogOk(a, plan, log) && LostCompletion(log, r, u, q)
    ensures exists p, q' :: r < q' <= q && StartedAgain(log, p, q')
  {
    hide LogOk, RunStage, MustWait;
    var first := FirstStartAfter(a, plan, log, r, q);
    LogOkAt(a, plan, log, r);
    LogOkAt(a, plan, log, first);
    var k :| 0 <= k <= |log[..r]| && LastSaved(log[..r][..k]).next >= |plan|;
    assert log[..r][..k] == log[..k];
    var p := EndWasSaved(a, plan, log, k);
    assert StartedAgain(log, p, first);
  }

  /** The exact condition: some stage is started again after its progress was saved if
      and only if a completion raised late and its run was lost before a later start. */
  lemma StagesRestartExactlyAfterALostCompletion(a: Actions, plan: seq<Stage>, log: seq<Mark>)
    requires LogOk(a, plan, log)
    ensures (exists p, q :: StartedAgain(log, p, q)) <==> (exists r, u, q :: LostCompletion(log, r, u, q))
  {
    if p, q :| StartedAgain(log, p, q) {
      RestartNeedsALostCompletion(a, plan, log, p, q);
    }
    if r, u, q :| LostCompletion(log, r, u, q) {
      LostCompletionRestarts(a, plan, log, r, u, q);
    }
  }

  /** Started stages form a prefix: before any later stage runs, the one before it has run. */
  lemma StartsFormAPrefix(a: Actions, plan: seq<Stage>, log: seq<Mark>, q: nat)
    requires LogOk(a, plan, log) && q < |log| && log[q].Started? && log[q].stage > 0
    ensures Started(log[q].stage - 1) in log[..q]
  {
    hide LogOk;
    LogOkAt(a, plan, log, q);
    LogOkPrefix(a, plan, log, q);
    ProgressFollowsStart(a, plan, log[..q]);
  }

  // ----- waits -----

  predicate IsDelayed(plan: seq<Stage>, i: nat) { 0 < i < |plan| && plan[i].delaySeconds > 0 }

  predicate WaitFor(m: Mark, i: nat) { m.Waited? && m.cursor.next == i }

  /** A cursor marks a delay as waited out only after that wait in the same pass. */
  lemma {:induction false} MarkedDelayWasWaited(a: Actions, plan: seq<Stage>, log: seq<Mark>) returns (p: nat)
    requires LogOk(a, plan, log) && LastSaved(log).delayDone != ""
    ensures p < |log| && log[p].Waited? && log[p].cursor == LastSaved(log) && SamePass(log, p, |log|)
  {
    hide LogOk, MustWait, RunStage, EverDone;
    var n := |log| - 1;
    assert log == log[..n] + [log[n]];
    OneMore(log[..n], log[n]);
    LogOkAt(a, plan, log, n);
    if log[n].Waited? {
      p := n;
    } else {
      if log[n].Saved? {
        StageGoesOnOrStops(a, plan, LastSaved(log[..n]));
      }
      LogOkPrefix(a, plan, log, n);
      p := MarkedDelayWasWaited(a, plan, log[..n]);
      assert forall r | p <= r < n :: log[r] == log[..n][r];
    }
  }

  lemma MarkedDelayIsItsStages(a: Actions, plan: seq<Stage>, log: seq<Mark>)
    requires LogOk(a, plan, log) && LastSaved(log).delayDone != ""
    ensures var c := LastSaved(log);
      c.next < |plan| && IsDelayed(plan, c.next) && c.delayDone == plan[c.next].id
  {
    hide LogOk, EverDone;
    var p := MarkedDelayWasWaited(a, plan, log);
    LogOkAt(a, plan, log, p);
  }

  /** A stage that waits has a non-empty id. */
  lemma WaitComesFromAnId(a: Actions, plan: seq<Stage>, log: seq<Mark>)
    requires LogOk(a, plan, log)
    requires LastSaved(log).next < |plan| && MustWait(plan, LastSaved(log))
    ensures plan[LastSaved(log).next].id != "" && LastSaved(log).delayDone == ""
  {
    if LastSaved(log).delayDone != "" {
      MarkedDelayIsItsStages(a, plan, log);
    }
  }

  /** The exact condition: only a later stage with a delay and a non-empty id ever waits. */
  lemma OnlyNamedDelaysWait(a: Actions, plan: seq<Stage>, log: seq<Mark>, q: nat)
    requires LogOk(a, plan, log) && q < |log| && log[q].Waited?
    ensures var i := log[q].cursor.next; i < |plan| && IsDelayed(plan, i) && plan[i].id != ""
  {
    hide LogOk, EverDone;
    LogOkAt(a, plan, log, q);
    LogOkPrefix(a, plan, log, q);
    WaitComesFromAnId(a, plan, log[..q]);
  }

  lemma WaitingIsMarked(plan: seq<Stage>, c: Cursor)
    requires c.next < |plan|
    ensures MustWait(plan, c) ==> c.delayDone != plan[c.next].id
  {
  }

  /** Once a delay has been waited out, that stays on record until the stage is saved. */
  lemma {:induction false} WaitedOutStays(a: Actions, plan: seq<Stage>, log: seq<Mark>, p: nat, q: nat)
    requires LogOk(a, plan, log) && p < q <= |log| && log[p].Waited? && SamePass(log, p, q)
    ensures var c := LastSaved(log[..q]); c.next > log[p].cursor.next || c == log[p].cursor
  {
    hide LogOk, RunStage, MustWait, EverDone;
    assert log[..q] == log[..q - 1] + [log[q - 1]];
    OneMore(log[..q - 1], log[q - 1]);
    if p < q - 1 {
      WaitedOutStays(a, plan, log, p, q - 1);
      LogOkAt(a, plan, log, p);
      LogOkAt(a, plan, log, q - 1);
      if log[q - 1].Saved? {
        StageGoesOnOrStops(a, plan, LastSaved(log[..q - 1]));
      } else if log[q - 1].Waited? {
        WaitingIsMarked(plan, LastSaved(log[..q - 1]));
      }
    }
  }

  /** In one pass no stage waits twice. */
  lemma WaitsOnce(a: Actions, plan: seq<Stage>, log: seq<Mark>, p: nat, q: nat)
    requires LogOk(a, plan, log) && p < q < |log| && log[p].Waited? && log[q].Waited? && SamePass(log, p, q)
    ensures log[p].cursor.next < log[q].cursor.next
  {
    hide LogOk, RunStage, EverDone;
    LogOkAt(a, plan, log, p);
    LogOkAt(a, plan, log, q);
    WaitedOutStays(a, plan, log, p, q);
  }

  /** `h` is the first hand-out after `p`. */
  predicate NextHandOut(log: seq<Mark>, p: nat, h: nat) {
    p < h < |log| && log[h].HandedOut? && forall k | p < k < h :: !log[k].HandedOut?
  }

  /** The holder whose defer raised after committing has given the job back, to be
      handed out again before its delay is over. */
  predicate GivenBackEarly(log: seq<Mark>, p: nat, h: nat)
    requires p < h <= |log| && log[p].Waited?
  {
    && log[p].late
    && exists g :: p < g < h && log[g].GaveBack? && log[g].next.Some? && log[g].next.value < log[p].until
  }

  /** The job is handed out after a wait no earlier than its delay is over, unless the
      defer raised late and the job was given back early. */
  predicate WaitRespected(log: seq<Mark>, p: nat, h: nat)
    requires p < |log| && log[p].Waited?
  {
    NextHandOut(log, p, h) && (log[h].now < log[p].until ==> GivenBackEarly(log, p, h))
  }

  /** After a wait and before the next hand-out the job rests: it waits, or was given
      back once, after a late defer. */
  predicate Rests(log: seq<Mark>, p: nat, n: nat)
    requires p < n <= |log|
  {
    var tail := Tail(log[..n]);
    if tail == Some(log[p]) then forall g | p < g < n :: !log[g].GaveBack?
    else && tail.Some? && tail.value.GaveBack? && tail.value.next.Some? && tail.value in log[p + 1..n]
         && log[p].Waited? && log[p].late
         && forall g | p < g < n && log[g].GaveBack? :: log[g] == tail.value
  }

  lemma {:induction false} JobRestsAfterWait(a: Actions, plan: seq<Stage>, log: seq<Mark>, p: nat, n: nat)
    requires LogOk(a, plan, log) && p < n <= |log| && log[p].Waited?
    requires forall k | p < k < n :: !log[k].HandedOut?
    ensures Rests(log, p, n)
  {
    hide LogOk, RunStage, EverDone, MustWait;
    assert log[..n] == log[..n - 1] + [log[n - 1]];
    OneMore(log[..n - 1], log[n - 1]);
    if p < n - 1 {
      JobRestsAfterWait(a, plan, log, p, n - 1);
      LogOkAt(a, plan, log, n - 1);
      assert log[p + 1..n] == log[p + 1..n - 1] + [log[n - 1]];
    }
  }

  lemma HandOutAfterWait(a: Actions, plan: seq<Stage>, log: seq<Mark>, p: nat, q: nat) returns (h: nat)
    requires LogOk(a, plan, log) && p < q <= |log| && log[p].Waited? && Busy(log[..q])
    ensures h < q && WaitRespected(log, p, h)
  {
    hide LogOk, EverDone;
    h := p + 1;
    while h < q && !log[h].HandedOut?
      invariant p < h <= q && forall k | p < k < h :: !log[k].HandedOut?
      decreases q - h
    {
      h := h + 1;
    }
    JobRestsAfterWait(a, plan, log, p, h);
    if h == q {
      assert false;
    }
    LogOkAt(a, plan, log, h);
    if log[h].now < log[p].until {
      var g :| p + 1 <= g < h && log[g] == Tail(log[..h]).value;
    }
  }

  /** No completion lies between the two positions, whichever comes first. */
  predicate OnePass(log: seq<Mark>, p: nat, q: nat) { SamePass(log, Min(p, q), Max(p, q)) }

  /** Within its pass, `p` is the only wait for the stage that starts at `q`. */
  ghost predicate OnlyWait(log: seq<Mark>, p: nat, q: nat)
    requires q < |log| && log[q].Started?
  {
    && p < q && SamePass(log, p, q) && WaitFor(log[p], log[q].stage)
    && forall r: nat | r < |log| && r != p && OnePass(log, r, q) :: !WaitFor(log[r], log[q].stage)
  }

  /** A delayed stage with a non-empty id has waited exactly once in its pass when it
      starts, and its job was handed out again only after the whole delay, unless the
      defer raised late and the job was given back. */
  lemma DelayedStagesWait(a: Actions, plan: seq<Stage>, log: seq<Mark>, q: nat) returns (p: nat, h: nat)
    requires LogOk(a, plan, log) && q < |log| && log[q].Started?
    requires IsDelayed(plan, log[q].stage) && plan[log[q].stage].id != ""
    ensures OnlyWait(log, p, q) && h < q && WaitRespected(log, p, h)
  {
    hide LogOk, RunStage, EverDone;
    LogOkAt(a, plan, log, q);
    LogOkPrefix(a, plan, log, q);
    p := MarkedDelayWasWaited(a, plan, log[..q]);
    assert forall r | p <= r < q :: log[r] == log[..q][r];
    h := HandOutAfterWait(a, plan, log, p, q);
    forall r: nat | r < |log| && r != p && OnePass(log, r, q) ensures !WaitFor(log[r], log[q].stage) {
      if log[r].Waited? {
        WaitsOnce(a, plan, log, Min(p, r), Max(p, r));
      }
    }
  }

  // ----- counting -----

  function HandOuts(log: seq<Mark>): nat {
    if log == [] then 0
    else HandOuts(log[..|log| - 1]) + if log[|log| - 1].HandedOut? then 1 else 0
  }

  function Waits(log: seq<Mark>): nat {
    if log == [] then 0
    else Waits(log[..|log| - 1]) + if log[|log| - 1].Waited? then 1 else 0
  }

  /** How often a completed job lost its run. */
  function Losses(log: seq<Mark>): nat {
    if log == [] then 0
    else Losses(log[..|log| - 1]) + if log[|log| - 1].Unlinked? && Ended(log[..|log| - 1]) then 1 else 0
  }

  /** The number of delayed stages among the first `n`. */
  function Delayed(plan: seq<Stage>, n: nat): nat
    requires n <= |plan|
  {
    if n == 0 then 0 else Delayed(plan, n - 1) + if IsDelayed(plan, n - 1) then 1 else 0
  }

  lemma {:induction false} DelayedGrows(plan: seq<Stage>, m: nat, n: nat)
    requires m <= n <= |plan|
    ensures Delayed(plan, m) <= Delayed(plan, n)
  {
    if m < n { DelayedGrows(plan, m, n - 1); }
  }

  lemma CountsExtend(log: seq<Mark>, m: Mark)
    ensures HandOuts(log + [m]) == HandOuts(log) + if m.HandedOut? then 1 else 0
    ensures Waits(log + [m]) == Waits(log) + if m.Waited? then 1 else 0
    ensures Losses(log + [m]) == Losses(log) + if m.Unlinked? && Ended(log) then 1 else 0
  {
    assert (log + [m])[..|log|] == log;
  }

  lemma {:induction false} EndedHoldsNothing(a: Actions, plan: seq<Stage>, log: seq<Mark>)
    requires LogOk(a, plan, log) && Ended(log)
    ensures LastSaved(log) == START
  {
    hide LogOk, RunStage, MustWait, EverDone;
    var n := |log| - 1;
    assert log == log[..n] + [log[n]];
    OneMore(log[..n], log[n]);
    if !log[n].Finished? {
      LogOkPrefix(a, plan, log, n);
      LogOkAt(a, plan, log, n);
      EndedHoldsNothing(a, plan, log[..n]);
    }
  }

  /** The waits of the pass under way; the passes before it are worth all delays each. */
  function PassWaits(plan: seq<Stage>, log: seq<Mark>): nat
    requires LastSaved(log).next <= |plan|
  {
    if Ended(log) then Delayed(plan, |plan|)
    else Delayed(plan, LastSaved(log).next) + (if LastSaved(log).delayDone != "" then 1 else 0)
  }

  lemma SavingPaysItsWait(a: Actions, plan: seq<Stage>, log: seq<Mark>)
    requires LogOk(a, plan, log) && !Ended(log) && LastSaved(log).next < |plan|
    ensures PassWaits(plan, log) <= Delayed(plan, LastSaved(log).next + 1)
    ensures PassWaits(plan, log) <= Delayed(plan, |plan|)
  {
    hide LogOk;
    var c := LastSaved(log);
    if c.delayDone != "" {
      MarkedDelayIsItsStages(a, plan, log);
    }
    DelayedGrows(plan, c.next + 1, |plan|);
  }

  lemma PassIsBounded(a: Actions, plan: seq<Stage>, log: seq<Mark>)
    requires LogOk(a, plan, log) && LastSaved(log).next <= |plan|
    ensures PassWaits(plan, log) <= Delayed(plan, |plan|)
  {
    hide LogOk;
    if !Ended(log) && LastSaved(log).next < |plan| {
      SavingPaysItsWait(a, plan, log);
    } else if !Ended(log) && LastSaved(log).delayDone != "" {
      MarkedDelayIsItsStages(a, plan, log);
    }
  }

  /** The step of the count, entry by entry. */
  lemma CountStep(a: Actions, plan: seq<Stage>, log: seq<Mark>, m: Mark)
    requires LogOk(a, plan, log) && MarkOk(a, plan, log, m) && LastSaved(log).next <= |plan|
    ensures var log' := log + [m];
      && LastSaved(log').next <= |plan|
      && PassWaits(plan, log) + (if m.Waited? then 1 else 0)
         <= PassWaits(plan, log') + (if m.Unlinked? && Ended(log) then Delayed(plan, |plan|) else 0)
  {
    hide LogOk, EverDone;
    OneMore(log, m);
    if m.Waited? {
      WaitComesFromAnId(a, plan, log);
    } else if m.Saved? {
      SavingPaysItsWait(a, plan, log);
      DelayedGrows(plan, LastSaved(log).next + 1, m.cursor.next);
    } else if m.Finished? {
      PassIsBounded(a, plan, log);
    } else if m.Unlinked? && Ended(log) {
      EndedHoldsNothing(a, plan, log);
    }
  }

  lemma {:induction false} WaitsAreDelayedStages(a: Actions, plan: seq<Stage>, log: seq<Mark>)
    requires LogOk(a, plan, log)
    ensures LastSaved(log).next <= |plan|
    ensures Waits(log) <= Losses(log) * Delayed(plan, |plan|) + PassWaits(plan, log)
  {
    hide LogOk, MarkOk, PassWaits, Delayed;
    if log != [] {
      var n := |log| - 1;
      var before, m := log[..n], log[n];
      assert log == before + [m];
      LogOkPrefix(a, plan, log, n);
      LogOkAt(a, plan, log, n);
      WaitsAreDelayedStages(a, plan, before);
      CountStep(a, plan, before, m);
      CountsExtend(before, m);
      OneMoreTimes(Losses(before), Delayed(plan, |plan|));
    }
  }

  lemma OneMoreTimes(n: nat, d: nat)
    ensures (n + 1) * d == n * d + d
  {
  }

  /** A job waits at most once for each delayed stage, and again only in a pass that
      began with the loss of a completed job's run. */
  lemma WaitsAreBounded(a: Actions, plan: seq<Stage>, log: seq<Mark>)
    requires LogOk(a, plan, log)
    ensures Waits(log) <= (Losses(log) + 1) * Delayed(plan, |plan|)
  {
    hide LogOk, PassWaits, Delayed;
    WaitsAreDelayedStages(a, plan, log);
    PassIsBounded(a, plan, log);
    OneMoreTimes(Losses(log), Delayed(plan, |plan|));
  }
}
