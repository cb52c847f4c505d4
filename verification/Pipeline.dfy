/** The staged action pipeline of an automation, and the two ways of running it:
    the plain loop, and one stage at a time from a saved cursor. */
module Pipeline {

  datatype Policy = AllCompleted | SuccessOrPartial | AllSuccess | AnyFailed | AllFailed

  datatype ActionDef = ActionDef(id: string, name: string, kind: string, config: string)

  datatype ActionResult = ActionResult(status: string, summary: string, output: string)

  datatype Stage = Stage(id: string, name: string, policy: Policy, delaySeconds: nat, actions: seq<ActionDef>)

  datatype ContextItem = ContextItem(
    id: string, name: string, kind: string, stageId: string, stageName: string,
    status: string, summary: string, output: string)

  datatype Context = Context(
    results: seq<ContextItem>, successful: seq<string>, partials: seq<string>, failed: seq<string>)

  const EMPTY_CONTEXT := Context([], [], [], [])

  /** What running an action yields under one trigger, given its stage, the context of
      the earlier stages and the 1-based stage index; and how an output is cut down
      before it enters that context. Both are deterministic and otherwise arbitrary. */
  datatype Actions = Actions(
    execute: (Stage, ActionDef, Context, nat) -> ActionResult,
    bound: string -> string)

  /** What set a job off, as stored with it. */
  type Trigger = string

  /** What running actions yields for each trigger. */
  datatype Behaviour = Behaviour(under: Trigger -> Actions)

  function Under(a: Behaviour, trigger: Trigger): Actions { a.under(trigger) }

  predicate IsFailure(status: string) { status != "success" && status != "partial" }

  /** Whether a completed stage lets the pipeline go on (`stage_should_continue`). */
  predicate ShouldContinue(policy: Policy, results: seq<ActionResult>) {
    match policy
    case AllCompleted => true
    case SuccessOrPartial => !(exists r | r in results :: IsFailure(r.status))
    case AllSuccess => forall r | r in results :: r.status == "success"
    case AnyFailed => exists r | r in results :: IsFailure(r.status)
    case AllFailed => results != [] && forall r | r in results :: IsFailure(r.status)
  }

  /** What each policy asks of the statuses. Exactly one of "on success or partial
      success" and "if any action errors" routes onward, and the two strict policies only
      narrow them. */
  lemma RoutesAreComplementary(results: seq<ActionResult>)
    ensures ShouldContinue(AllCompleted, results)
    ensures ShouldContinue(SuccessOrPartial, results)
      <==> forall k | 0 <= k < |results| :: results[k].status in {"success", "partial"}
    ensures ShouldContinue(AllSuccess, results) <==> forall k | 0 <= k < |results| :: results[k].status == "success"
    ensures ShouldContinue(AllFailed, results)
      <==> |results| > 0 && forall k | 0 <= k < |results| :: results[k].status !in {"success", "partial"}
    ensures ShouldContinue(AnyFailed, results) <==> !ShouldContinue(SuccessOrPartial, results)
    ensures ShouldContinue(AllSuccess, results) ==> ShouldContinue(SuccessOrPartial, results)
    ensures ShouldContinue(AllFailed, results) ==> ShouldContinue(AnyFailed, results)
    ensures !(ShouldContinue(AllSuccess, results) && ShouldContinue(AllFailed, results))
  {
    if ShouldContinue(AllFailed, results) {
      assert IsFailure(results[0].status);
    }
  }

  /** All actions of a stage see the same context; results keep the action order. */
  function StageResults(a: Actions, stage: Stage, context: Context, stageIndex: nat): (rs: seq<ActionResult>)
    ensures |rs| == |stage.actions|
  {
    seq(|stage.actions|, i requires 0 <= i < |stage.actions| =>
      a.execute(stage, stage.actions[i], context, stageIndex))
  }

  function AddItem(a: Actions, context: Context, stage: Stage, action: ActionDef, r: ActionResult): Context {
    var item := ContextItem(action.id, action.name, action.kind, stage.id, stage.name,
                            r.status, r.summary, a.bound(r.output));
    var logged := context.(results := context.results + [item]);
    if r.status == "success" then logged.(successful := logged.successful + [action.name])
    else if r.status == "partial" then logged.(partials := logged.partials + [action.name])
    else logged.(failed := logged.failed + [action.name])
  }

  /** The context after the first `n` actions of a stage have been added. */
  function AddResults(a: Actions, context: Context, stage: Stage, rs: seq<ActionResult>, n: nat): Context
    requires n <= |rs| == |stage.actions|
  {
    if n == 0 then context
    else AddItem(a, AddResults(a, context, stage, rs, n - 1), stage, stage.actions[n - 1], rs[n - 1])
  }

  function AddStage(a: Actions, context: Context, stage: Stage, rs: seq<ActionResult>): Context
    requires |rs| == |stage.actions|
  {
    AddResults(a, context, stage, rs, |rs|)
  }

  /** Each result enters the context once, in order, and its action's name enters
      exactly one bucket. */
  lemma {:induction false} ContextCountsEachResultOnce(
    a: Actions, context: Context, stage: Stage, rs: seq<ActionResult>, n: nat)
    requires n <= |rs| == |stage.actions|
    ensures var c := AddResults(a, context, stage, rs, n);
      && |c.results| == |context.results| + n
      && context.results <= c.results
      && (forall i | 0 <= i < n :: c.results[|context.results| + i].id == stage.actions[i].id
                                && c.results[|context.results| + i].status == rs[i].status)
      && |c.successful| + |c.partials| + |c.failed|
         == |context.successful| + |context.partials| + |context.failed| + n
  {
    if n > 0 {
      ContextCountsEachResultOnce(a, context, stage, rs, n - 1);
    }
  }

  // ----- the plain loop -----

  /** The results of running `stages` straight through: each stage in turn until a
      policy stops the pipeline. `index` is the number of stages already behind. */
  function Plain(a: Actions, stages: seq<Stage>, context: Context, index: nat): seq<ActionResult>
  {
    if stages == [] then []
    else
      var rs := StageResults(a, stages[0], context, index + 1);
      rs + if ShouldContinue(stages[0].policy, rs)
           then Plain(a, stages[1..], AddStage(a, context, stages[0], rs), index + 1)
           else []
  }

  function PlainRun(a: Actions, stages: seq<Stage>): seq<ActionResult> {
    Plain(a, stages, EMPTY_CONTEXT, 0)
  }

  // ----- one stage at a time -----

  /** A resumable position: the progress record a job saves. `delayDone` names the
      stage whose delay has already been waited out. */
  datatype Cursor = Cursor(next: nat, delayDone: string, results: seq<ActionResult>, context: Context)

  const START := Cursor(0, "", [], EMPTY_CONTEXT)

  /** Runs the stage at the cursor; stopping early moves it past the last stage. */
  function RunStage(a: Actions, stages: seq<Stage>, c: Cursor): (c': Cursor)
    requires c.next < |stages|
    ensures c.next < c'.next <= |stages|
  {
    var stage := stages[c.next];
    var rs := StageResults(a, stage, c.context, c.next + 1);
    Cursor(if ShouldContinue(stage.policy, rs) then c.next + 1 else |stages|,
           "", c.results + rs, AddStage(a, c.context, stage, rs))
  }

  /** Whether the loop waits before running the stage at the cursor. */
  predicate MustWait(stages: seq<Stage>, c: Cursor)
    requires c.next < |stages|
  {
    c.next > 0 && stages[c.next].delaySeconds > 0 && c.delayDone != stages[c.next].id
  }

  /** Where `k` uninterrupted stage executions lead. */
  function After(a: Actions, stages: seq<Stage>, k: nat): (c: Cursor)
    ensures c.next <= |stages| && (c.next == k || c.next == |stages|)
  {
    if k == 0 then START
    else
      var c := After(a, stages, k - 1);
      if c.next == |stages| then c else RunStage(a, stages, c)
  }

  predicate SameWork(c: Cursor, d: Cursor) {
    c.next == d.next && c.results == d.results && c.context == d.context
  }

  /** The cursor is one the uninterrupted run passes through, up to waits. */
  predicate OnPath(a: Actions, stages: seq<Stage>, c: Cursor) {
    c.next <= |stages| && SameWork(c, After(a, stages, c.next))
  }

  lemma RunStageIgnoresWaits(a: Actions, stages: seq<Stage>, c: Cursor, d: Cursor)
    requires SameWork(c, d) && c.next < |stages|
    ensures RunStage(a, stages, c) == RunStage(a, stages, d)
  {
  }

  lemma {:induction false} AfterSuccessor(a: Actions, stages: seq<Stage>, k: nat)
    ensures var c := After(a, stages, k);
      After(a, stages, k + 1) == if c.next == |stages| then c else RunStage(a, stages, c)
  {
  }

  lemma {:induction false} StepStaysOnPath(a: Actions, stages: seq<Stage>, c: Cursor)
    requires OnPath(a, stages, c) && c.next < |stages|
    ensures OnPath(a, stages, RunStage(a, stages, c))
  {
    var k := c.next;
    RunStageIgnoresWaits(a, stages, c, After(a, stages, k));
    AfterSuccessor(a, stages, k);
    var d := RunStage(a, stages, c);
    assert d == After(a, stages, k + 1);
    StoppedStaysStopped(a, stages, k + 1, d.next);
  }

  lemma {:induction false} StoppedStaysStopped(a: Actions, stages: seq<Stage>, k: nat, n: nat)
    requires k <= n && (After(a, stages, k).next == |stages| || k == n)
    ensures After(a, stages, n) == After(a, stages, k)
  {
    if k < n {
      StoppedStaysStopped(a, stages, k, n - 1);
    }
  }

  lemma {:induction false} PlainStep(a: Actions, stages: seq<Stage>, c: Cursor)
    requires c.next < |stages|
    ensures var d := RunStage(a, stages, c);
      c.results + Plain(a, stages[c.next..], c.context, c.next)
      == d.results + Plain(a, stages[d.next..], d.context, d.next)
  {
    var rest := stages[c.next..];
    assert rest[0] == stages[c.next] && rest[1..] == stages[c.next + 1..];
    var rs := StageResults(a, rest[0], c.context, c.next + 1);
    var tail := if ShouldContinue(rest[0].policy, rs)
      then Plain(a, rest[1..], AddStage(a, c.context, rest[0], rs), c.next + 1) else [];
    assert Plain(a, rest, c.context, c.next) == rs + tail;
    assert c.results + (rs + tail) == (c.results + rs) + tail;
  }

  /** From any position, the plain loop's results are the cursor's results followed
      by the plain loop over the stages still ahead. */
  lemma {:induction false} PlainFromCursor(a: Actions, stages: seq<Stage>, k: nat)
    ensures var c := After(a, stages, k);
      PlainRun(a, stages) == c.results + Plain(a, stages[c.next..], c.context, c.next)
  {
    if k == 0 {
      assert stages[0..] == stages;
    } else {
      PlainFromCursor(a, stages, k - 1);
      var c := After(a, stages, k - 1);
      AfterSuccessor(a, stages, k - 1);
      if c.next < |stages| {
        PlainStep(a, stages, c);
      }
    }
  }

  /** A cursor on the path that has passed the last stage holds the plain results. */
  lemma FinishedCursorIsPlain(a: Actions, stages: seq<Stage>, c: Cursor)
    requires OnPath(a, stages, c) && c.next == |stages|
    ensures c.results == PlainRun(a, stages)
  {
    PlainFromCursor(a, stages, |stages|);
  }

  // ----- what the plain results are, stage by stage -----

  /** One line of the context: which action of which stage ended how. */
  function Line(a: Actions, stage: Stage, action: ActionDef, r: ActionResult): ContextItem {
    ContextItem(id := action.id, name := action.name, kind := action.kind, stageId := stage.id, stageName := stage.name,
                status := r.status, summary := r.summary, output := a.bound(r.output))
  }

  /** One line for each action of each block, in order. */
  function Lines(a: Actions, stages: seq<Stage>, blocks: seq<seq<ActionResult>>): seq<ContextItem>
    requires Shaped(stages, blocks)
  {
    if blocks == [] then []
    else
      var k := |blocks| - 1;
      Lines(a, stages, blocks[..k])
      + seq(|blocks[k]|, n requires 0 <= n < |blocks[k]| => Line(a, stages[k], stages[k].actions[n], blocks[k][n]))
  }

  /** One result for each action of each started stage. */
  predicate Shaped(stages: seq<Stage>, blocks: seq<seq<ActionResult>>) {
    |blocks| <= |stages| && forall k | 0 <= k < |blocks| :: |blocks[k]| == |stages[k].actions|
  }

  datatype Bucket = Succeeded | Partly | Otherwise

  /** Where an action's name goes by its status: everything but success and partial
      success counts as failed. */
  predicate GoesInto(status: string, bucket: Bucket) {
    match bucket
    case Succeeded => status == "success"
    case Partly => status == "partial"
    case Otherwise => status !in {"success", "partial"}
  }

  function NamesIn(bucket: Bucket, lines: seq<ContextItem>): seq<string> {
    if lines == [] then []
    else
      var before, last := lines[..|lines| - 1], lines[|lines| - 1];
      NamesIn(bucket, before) + if GoesInto(last.status, bucket) then [last.name] else []
  }

  /** What a stage sees of the blocks before it: their lines, and the names of the actions
      by status. */
  function SeenAfter(a: Actions, stages: seq<Stage>, blocks: seq<seq<ActionResult>>): Context
    requires Shaped(stages, blocks)
  {
    var lines := Lines(a, stages, blocks);
    Context(results := lines,
            successful := NamesIn(Succeeded, lines),
            partials := NamesIn(Partly, lines),
            failed := NamesIn(Otherwise, lines))
  }

  /** The results of a pipeline in blocks, one for each started stage: an action gets its
      own stage, everything the earlier blocks led to, and the stage's number; the next
      stage starts if the policy lets it. */
  predicate RunsInBlocks(a: Actions, stages: seq<Stage>, blocks: seq<seq<ActionResult>>) {
    && Shaped(stages, blocks)
    && (stages != [] ==> blocks != [])
    && (forall k, n | 0 <= k < |blocks| && 0 <= n < |blocks[k]| ::
          blocks[k][n] == a.execute(stages[k], stages[k].actions[n], SeenAfter(a, stages, blocks[..k]), k + 1))
    && (forall k | 0 <= k < |blocks| ::
          if k + 1 < |blocks| then ShouldContinue(stages[k].policy, blocks[k])
          else k + 1 == |stages| || !ShouldContinue(stages[k].policy, blocks[k]))
  }

  function Flat(blocks: seq<seq<ActionResult>>): seq<ActionResult> {
    if blocks == [] then [] else Flat(blocks[..|blocks| - 1]) + blocks[|blocks| - 1]
  }

  lemma {:induction false} NamesConcat(bucket: Bucket, lines: seq<ContextItem>, more: seq<ContextItem>)
    ensures NamesIn(bucket, lines + more) == NamesIn(bucket, lines) + NamesIn(bucket, more)
  {
    if more == [] {
      assert lines + more == lines;
    } else {
      NamesConcat(bucket, lines, more[..|more| - 1]);
      assert (lines + more)[..|lines + more| - 1] == lines + more[..|more| - 1];
    }
  }

  function InBucket(context: Context, bucket: Bucket): seq<string> {
    match bucket
    case Succeeded => context.successful
    case Partly => context.partials
    case Otherwise => context.failed
  }

  function LinesOf(a: Actions, stage: Stage, rs: seq<ActionResult>, n: nat): seq<ContextItem>
    requires n <= |rs| == |stage.actions|
  {
    seq(n, i requires 0 <= i < n => Line(a, stage, stage.actions[i], rs[i]))
  }

  lemma AddItemFiles(a: Actions, context: Context, stage: Stage, action: ActionDef, r: ActionResult, bucket: Bucket)
    ensures var c := AddItem(a, context, stage, action, r);
      && c.results == context.results + [Line(a, stage, action, r)]
      && InBucket(c, bucket) == InBucket(context, bucket) + (if GoesInto(r.status, bucket) then [action.name] else [])
  {
  }

  lemma {:induction false} AddResultsAppendsLines(
    a: Actions, context: Context, stage: Stage, rs: seq<ActionResult>, n: nat, bucket: Bucket)
    requires n <= |rs| == |stage.actions|
    ensures var c, lines := AddResults(a, context, stage, rs, n), LinesOf(a, stage, rs, n);
      c.results == context.results + lines && InBucket(c, bucket) == InBucket(context, bucket) + NamesIn(bucket, lines)
  {
    hide AddItem, InBucket, GoesInto;
    if n > 0 {
      AddResultsAppendsLines(a, context, stage, rs, n - 1, bucket);
      AddItemFiles(a, AddResults(a, context, stage, rs, n - 1), stage, stage.actions[n - 1], rs[n - 1], bucket);
      var lines := LinesOf(a, stage, rs, n);
      assert lines[..n - 1] == LinesOf(a, stage, rs, n - 1);
      assert lines == lines[..n - 1] + [lines[n - 1]];
    }
  }

  /** A stage's results enter what is seen after it. */
  lemma AddStageShowsBlock(a: Actions, stages: seq<Stage>, blocks: seq<seq<ActionResult>>, rs: seq<ActionResult>)
    requires |blocks| < |stages| && Shaped(stages, blocks) && |rs| == |stages[|blocks|].actions|
    ensures SeenAfter(a, stages, blocks + [rs]) == AddStage(a, SeenAfter(a, stages, blocks), stages[|blocks|], rs)
  {
    var all, stage, seen := blocks + [rs], stages[|blocks|], SeenAfter(a, stages, blocks);
    assert all[..|blocks|] == blocks;
    var lines := LinesOf(a, stage, rs, |rs|);
    assert Lines(a, stages, all) == seen.results + lines;
    forall bucket: Bucket
      ensures InBucket(AddStage(a, seen, stage, rs), bucket) == NamesIn(bucket, seen.results + lines)
      ensures AddStage(a, seen, stage, rs).results == seen.results + lines
    {
      NamesConcat(bucket, seen.results, lines);
      AddResultsAppendsLines(a, seen, stage, rs, |rs|, bucket);
    }
    var after := AddStage(a, seen, stage, rs);
    assert InBucket(after, Succeeded) == after.successful && InBucket(after, Partly) == after.partials;
    assert InBucket(after, Otherwise) == after.failed;
  }

  /** The blocks of the first `k` stages stand for the cursor after them. */
  ghost predicate BlocksFor(a: Actions, stages: seq<Stage>, blocks: seq<seq<ActionResult>>, c: Cursor) {
    && Shaped(stages, blocks) && Flat(blocks) == c.results && SeenAfter(a, stages, blocks) == c.context
    && (forall k, n | 0 <= k < |blocks| && 0 <= n < |blocks[k]| ::
          blocks[k][n] == a.execute(stages[k], stages[k].actions[n], SeenAfter(a, stages, blocks[..k]), k + 1))
    && (forall k | 0 <= k < |blocks| - 1 :: ShouldContinue(stages[k].policy, blocks[k]))
    && (c.next < |stages| ==> |blocks| == c.next)
    && (c.next < |stages| && blocks != [] ==> ShouldContinue(stages[|blocks| - 1].policy, blocks[|blocks| - 1]))
    && (c.next == |stages| && |blocks| < |stages| ==>
          blocks != [] && !ShouldContinue(stages[|blocks| - 1].policy, blocks[|blocks| - 1]))
  }

  lemma NextBlock(a: Actions, stages: seq<Stage>, blocks: seq<seq<ActionResult>>, c: Cursor)
    requires c.next < |stages| && BlocksFor(a, stages, blocks, c)
    ensures var rs := StageResults(a, stages[c.next], c.context, c.next + 1);
      BlocksFor(a, stages, blocks + [rs], RunStage(a, stages, c))
  {
    hide SeenAfter, AddStage, ShouldContinue;
    var rs := StageResults(a, stages[c.next], c.context, c.next + 1);
    var all := blocks + [rs];
    AddStageShowsBlock(a, stages, blocks, rs);
    assert all[..|blocks|] == blocks;
    forall k, n | 0 <= k < |all| && 0 <= n < |all[k]|
      ensures all[k][n] == a.execute(stages[k], stages[k].actions[n], SeenAfter(a, stages, all[..k]), k + 1)
    {
      assert all[..k] == blocks[..k];
      assert blocks[..|blocks|] == blocks;
    }
  }

  lemma {:induction false} BlocksUpTo(a: Actions, stages: seq<Stage>, k: nat) returns (blocks: seq<seq<ActionResult>>)
    ensures BlocksFor(a, stages, blocks, After(a, stages, k)) && (k > 0 && stages != [] ==> blocks != [])
  {
    if k == 0 {
      blocks := [];
    } else {
      blocks := BlocksUpTo(a, stages, k - 1);
      var c := After(a, stages, k - 1);
      if c.next < |stages| {
        NextBlock(a, stages, blocks, c);
        blocks := blocks + [StageResults(a, stages[c.next], c.context, c.next + 1)];
      }
    }
  }

  /** Two ways to split agree block by block, so there is only one. */
  lemma {:induction false} BlocksAgree(
    a: Actions, stages: seq<Stage>, blocks: seq<seq<ActionResult>>, others: seq<seq<ActionResult>>, k: nat)
    requires RunsInBlocks(a, stages, blocks) && RunsInBlocks(a, stages, others)
    requires k <= |blocks| && k <= |others|
    ensures blocks[..k] == others[..k]
  {
    if k > 0 {
      BlocksAgree(a, stages, blocks, others, k - 1);
      var b, o := blocks[k - 1], others[k - 1];
      var seen := SeenAfter(a, stages, blocks[..k - 1]);
      forall n | 0 <= n < |b| ensures b[n] == o[n] {
        assert b[n] == a.execute(stages[k - 1], stages[k - 1].actions[n], seen, k);
        assert o[n] == a.execute(stages[k - 1], stages[k - 1].actions[n], seen, k);
      }
      assert b == o;
      assert blocks[..k] == blocks[..k - 1] + [b] && others[..k] == others[..k - 1] + [o];
    }
  }

  lemma BlocksAreUnique(a: Actions, stages: seq<Stage>, blocks: seq<seq<ActionResult>>, others: seq<seq<ActionResult>>)
    requires RunsInBlocks(a, stages, blocks) && RunsInBlocks(a, stages, others)
    ensures blocks == others
  {
    hide SeenAfter, ShouldContinue;
    var k := if |blocks| <= |others| then |blocks| else |others|;
    BlocksAgree(a, stages, blocks, others, k);
    assert k > 0 ==> blocks[..k][k - 1] == others[..k][k - 1];
    assert blocks[..|blocks|] == blocks && others[..|others|] == others;
  }

  /** `results` are those of the pipeline run block after block. */
  ghost predicate RunThrough(a: Actions, stages: seq<Stage>, results: seq<ActionResult>) {
    exists blocks :: RunsInBlocks(a, stages, blocks) && results == Flat(blocks)
  }

  /** The plain run is one block after another, and there is only one way to run the
      pipeline like that. */
  lemma PlainRunsInBlocks(a: Actions, stages: seq<Stage>)
    ensures RunThrough(a, stages, PlainRun(a, stages))
    ensures forall results | RunThrough(a, stages, results) :: results == PlainRun(a, stages)
  {
    hide SeenAfter, ShouldContinue, StageResults, AddStage;
    var blocks := BlocksUpTo(a, stages, |stages|);
    PlainFromCursor(a, stages, |stages|);
    assert RunsInBlocks(a, stages, blocks);
    forall others | RunsInBlocks(a, stages, others) ensures Flat(others) == PlainRun(a, stages) {
      BlocksAreUnique(a, stages, blocks, others);
    }
  }
}
