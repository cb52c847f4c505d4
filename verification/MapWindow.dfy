/** The sliding-window parallel map: results in input order whatever order work finishes in. */
module MapWindow {
  import opened Common

  datatype Outcome<+R> = Ok(value: R) | Raise(error: string)

  /** One submitted call. The executor starts and finishes calls whenever it likes. */
  datatype Work<I, R> =
    | Queued(item: I)
    | Running(item: I)
    | Finished(item: I, outcome: Outcome<R>)
    | Cancelled(item: I)
  {
    predicate Over() { Finished? || Cancelled? }
  }

  /** What the executor can do to the submitted calls while nobody looks. */
  predicate Later<I(==), R(==)>(execute: I -> Outcome<R>, before: seq<Work<I, R>>, after: seq<Work<I, R>>) {
    && |before| == |after|
    && forall k | 0 <= k < |before| :: LaterCall(execute, before[k], after[k])
  }

  predicate LaterCall<I(==), R(==)>(execute: I -> Outcome<R>, before: Work<I, R>, after: Work<I, R>)
  {
    || (before.Queued? && after.Queued? && before.item == after.item)
    || (!before.Over() && after.Running? && before.item == after.item)
    || (!before.Over() && after.Finished? && before.item == after.item && after.outcome == execute(before.item))
    || (before.Over() && before == after)
  }

  function Unfinished<I, R>(work: seq<Work<I, R>>): set<int> {
    set k | 0 <= k < |work| && !work[k].Over()
  }

  /** What the caller of the executor did: it sent a call, or it saw how one ended. */
  datatype Deed = Submitted(future: nat) | Saw(future: nat, failed: bool)

  /** No failure has been seen. */
  predicate Untroubled(deeds: seq<Deed>) {
    forall i | 0 <= i < |deeds| :: deeds[i].Saw? ==> !deeds[i].failed
  }

  /** Seeing the first failure was the last deed: nothing was sent after it. */
  predicate StoppedAtFailure(deeds: seq<Deed>) {
    deeds != [] && deeds[|deeds| - 1].Saw? && deeds[|deeds| - 1].failed && Untroubled(deeds[..|deeds| - 1])
  }

  /** Every call that was sent is among the deeds. */
  predicate Recorded(deeds: seq<Deed>, sent: nat) {
    forall future: nat | future < sent :: Submitted(future) in deeds
  }

  lemma RecordedMore(deeds: seq<Deed>, sent: nat, deed: Deed)
    requires Recorded(deeds, sent)
    ensures Recorded(deeds + [deed], if deed == Submitted(sent) then sent + 1 else sent)
  {
    assert deed in deeds + [deed];
    forall future: nat | future < sent ensures Submitted(future) in deeds + [deed] {
      assert Submitted(future) in deeds;
    }
  }

  /** The calls one map submits to its executor; a future is the position of its call. */
  class Executor<I(==), R(==)> {
    const execute: I -> Outcome<R>
    var work: seq<Work<I, R>>
    ghost var peak: nat  // the most calls that were ever unfinished at once
    ghost var deeds: seq<Deed>

    constructor (execute: I -> Outcome<R>)
      ensures this.execute == execute && work == [] && peak == 0 && deeds == []
    {
      this.execute, work, peak, deeds := execute, [], 0, [];
    }

    method Submit(item: I) returns (future: nat)
      modifies this
      ensures future == |old(work)| && |work| == future + 1
      ensures Later(execute, old(work) + [Queued(item)], work)
      ensures peak == Max(old(peak), |Unfinished(old(work) + [Queued(item)])|)
      ensures deeds == old(deeds) + [Submitted(future)]
    {
      future := |work|;
      deeds := deeds + [Submitted(future)];
      work := work + [Queued(item)];
      peak := Max(peak, |Unfinished(work)|);
      Advance();
    }

    method Advance()
      modifies this`work
      ensures Later(execute, old(work), work)
    {
      assert Later(execute, work, work);
      var next :| Later(execute, work, next);
      work := next;
    }

    /** Blocks until at least one of the futures is over; returns those that are. */
    method WaitFirst(pending: set<nat>) returns (done: set<nat>)
      requires pending != {} && forall f | f in pending :: f < |work|
      modifies this`work
      ensures Later(execute, old(work), work)
      ensures done != {} && done <= pending
      ensures forall f | f in pending :: f in done <==> work[f].Over()
    {
      Advance();
      if forall f | f in pending :: !work[f].Over() {
        var first :| first in pending;
        work := work[first := Finished(work[first].item, execute(work[first].item))];
        Advance();
        assert work[first].Over();
      }
      ghost var ready :| ready in pending && work[ready].Over();
      done := set f | f in pending && work[f].Over();
      assert ready in done;
    }

    /** The result of a future that is over. */
    method Result(future: nat) returns (outcome: Outcome<R>)
      requires future < |work| && work[future].Finished?
      modifies this`deeds
      ensures outcome == work[future].outcome && deeds == old(deeds) + [Saw(future, outcome.Raise?)]
    {
      outcome := work[future].outcome;
      deeds := deeds + [Saw(future, outcome.Raise?)];
    }

    /** A call that has not started is withdrawn; one that has is left alone. */
    method Cancel(future: nat)
      requires future < |work|
      modifies this`work
      ensures var calls := if old(work)[future].Queued?
          then old(work)[future := Cancelled(old(work)[future].item)] else old(work);
        Later(execute, calls, work)
    {
      if work[future].Queued? {
        work := work[future := Cancelled(work[future].item)];
      }
      Advance();
    }

    /** Blocks until all the futures are over. */
    method WaitAll(pending: set<nat>)
      requires forall f | f in pending :: f < |work|
      modifies this`work
      ensures Later(execute, old(work), work)
      ensures forall f | f in pending :: work[f].Over()
    {
      var rest := set f | f in pending;
      while rest != {}
        invariant rest <= pending
        invariant Later(execute, old(work), work)
        invariant forall f | f in pending - rest :: work[f].Over()
        decreases |rest|
      {
        var f :| f in rest;
        if !work[f].Over() {
          work := work[f := Finished(work[f].item, execute(work[f].item))];
        }
        rest := rest - {f};
      }
    }
  }

  /** The calls submitted so far are the first items, in order, each once. */
  predicate Sent<I(==), R>(work: seq<Work<I, R>>, items: seq<I>) {
    && |work| <= |items|
    && forall k | 0 <= k < |work| :: work[k].item == items[k]
  }

  /** What finished finished with the function's own result. */
  predicate Honest<I, R(==)>(execute: I -> Outcome<R>, work: seq<Work<I, R>>) {
    forall k | 0 <= k < |work| && work[k].Finished? :: work[k].outcome == execute(work[k].item)
  }

  /** What the results list holds once exactly the `taken` results have been stored. */
  function Stored<I, R>(execute: I -> Outcome<R>, items: seq<I>, taken: set<nat>): seq<Option<R>> {
    seq(|items|, k requires 0 <= k < |items| =>
      if k in taken && execute(items[k]).Ok? then Some(execute(items[k]).value) else None)
  }

  /** The window: every call sent is still pending or its result has been stored. */
  predicate Window<I(==), R(==)>(
    execute: I -> Outcome<R>, items: seq<I>, work: seq<Work<I, R>>, pending: map<nat, nat>, taken: set<nat>)
  {
    && Sent(work, items) && Honest(execute, work)
    && (forall f | f in pending :: f < |work| && pending[f] == f)
    && (forall k: nat | k in taken :: k < |work| && k !in pending && work[k].Finished?)
    && (forall k: nat | k < |work| :: k in pending || k in taken)
  }

  predicate NoneCancelled<I(==), R(==)>(work: seq<Work<I, R>>) {
    forall k | 0 <= k < |work| :: !work[k].Cancelled?
  }

  lemma WindowSurvives<I, R>(execute: I -> Outcome<R>, items: seq<I>,
                             before: seq<Work<I, R>>, after: seq<Work<I, R>>, pending: map<nat, nat>, taken: set<nat>)
    requires Window(execute, items, before, pending, taken) && Later(execute, before, after)
    ensures Window(execute, items, after, pending, taken)
  {
  }

  /** Whatever is unfinished is in the window. */
  lemma UnfinishedIsPending<I, R>(
    execute: I -> Outcome<R>, items: seq<I>, work: seq<Work<I, R>>, pending: map<nat, nat>, taken: set<nat>)
    requires Window(execute, items, work, pending, taken)
    ensures |Unfinished(work)| <= |pending|
  {
    assert Unfinished(work) <= pending.Keys;
    SubsetSize(Unfinished(work), pending.Keys);
  }

  /** The calls that returned a value. */
  function Returned<I(==), R(==)>(work: seq<Work<I, R>>): set<nat> {
    set k: nat | k < |work| && work[k].Finished? && work[k].outcome.Ok?
  }

  /** Sending the next item keeps the window. */
  lemma WindowGrows<I, R>(
    execute: I -> Outcome<R>, items: seq<I>, work: seq<Work<I, R>>, pending: map<nat, nat>, taken: set<nat>)
    requires Window(execute, items, work, pending, taken) && NoneCancelled(work) && |work| < |items|
    ensures var sent := work + [Queued(items[|work|])];
      && Window(execute, items, sent, pending[|work| := |work|], taken)
      && NoneCancelled(sent) && Returned(work) <= Returned(sent)
  {
  }

  lemma LaterKeepsReturned<I, R>(execute: I -> Outcome<R>, before: seq<Work<I, R>>, after: seq<Work<I, R>>)
    requires Later(execute, before, after)
    ensures Returned(before) <= Returned(after)
    ensures NoneCancelled(before) ==> NoneCancelled(after)
  {
  }

  /** Tops the window up; `next` is where the iterator over the items stands. */
  method Fill<I(==), R(==)>(executor: Executor<I, R>, workers: int, items: seq<I>, pending: map<nat, nat>, ghost taken: set<nat>)
    returns (filled: map<nat, nat>)
    requires Window(executor.execute, items, executor.work, pending, taken)
    requires NoneCancelled(executor.work) && |pending| <= Max(workers, 0) && executor.peak <= Max(workers, 0)
    requires Untroubled(executor.deeds) && Recorded(executor.deeds, |executor.work|)
    modifies executor
    ensures Window(executor.execute, items, executor.work, filled, taken)
    ensures NoneCancelled(executor.work) && |filled| <= Max(workers, 0) && executor.peak <= Max(workers, 0)
    ensures Untroubled(executor.deeds) && Recorded(executor.deeds, |executor.work|)
    ensures |pending| >= workers ==> filled == pending && executor.work == old(executor.work)
    ensures |filled| >= workers || |executor.work| == |items|
    ensures |executor.work| >= |old(executor.work)| && Returned(old(executor.work)) <= Returned(executor.work)
  {
    filled := pending;
    while |filled| < workers && |executor.work| < |items|
      invariant Window(executor.execute, items, executor.work, filled, taken)
      invariant NoneCancelled(executor.work) && |filled| <= Max(workers, 0) && executor.peak <= Max(workers, 0)
      invariant Untroubled(executor.deeds) && Recorded(executor.deeds, |executor.work|)
      invariant |pending| >= workers ==> filled == pending && executor.work == old(executor.work)
      invariant |executor.work| >= |old(executor.work)| && Returned(old(executor.work)) <= Returned(executor.work)
      decreases |items| - |executor.work|
    {
      var index := |executor.work|;
      ghost var sent := executor.work + [Queued(items[index])];
      WindowGrows(executor.execute, items, executor.work, filled, taken);
      UnfinishedIsPending(executor.execute, items, sent, filled[index := index], taken);
      RecordedMore(executor.deeds, index, Submitted(index));
      var future := executor.Submit(items[index]);
      filled := filled[future := index];
      LaterKeepsReturned(executor.execute, sent, executor.work);
      WindowSurvives(executor.execute, items, sent, executor.work, filled, taken);
    }
  }

  /** Withdraws what has not started and waits for the rest. */
  method Drain<I(==), R(==)>(executor: Executor<I, R>, items: seq<I>, pending: map<nat, nat>, ghost taken: set<nat>)
    requires Window(executor.execute, items, executor.work, pending, taken)
    modifies executor`work
    ensures Window(executor.execute, items, executor.work, pending, taken)
    ensures |executor.work| == |old(executor.work)| && Unfinished(executor.work) == {}
    ensures Returned(old(executor.work)) <= Returned(executor.work)
    ensures forall error :: Failed(old(executor.work), taken, error) ==> Failed(executor.work, taken, error)
    ensures pending == map[] && NoneCancelled(old(executor.work)) ==> NoneCancelled(executor.work)
  {
    var left := pending.Keys;
    while left != {}
      invariant left <= pending.Keys
      invariant Window(executor.execute, items, executor.work, pending, taken)
      invariant |executor.work| == |old(executor.work)|
      invariant Returned(old(executor.work)) <= Returned(executor.work)
      invariant pending == map[] && NoneCancelled(old(executor.work)) ==> NoneCancelled(executor.work)
      decreases left
    {
      var future :| future in left;
      left := left - {future};
      executor.Cancel(future);
    }
    executor.WaitAll(pending.Keys);
  }

  lemma WorkIsPendingOrTaken<I, R>(
    execute: I -> Outcome<R>, items: seq<I>, work: seq<Work<I, R>>, pending: map<nat, nat>, taken: set<nat>)
    requires Window(execute, items, work, pending, taken)
    ensures |work| == |pending| + |taken|
  {
    assert Positions(|work|) == pending.Keys + taken;
    assert |pending.Keys + taken| == |pending.Keys| + |taken|;
  }

  ghost function Positions(n: nat): (r: set<nat>)
    ensures |r| == n && forall k: nat :: k in r <==> k < n
  {
    if n == 0 then {} else Positions(n - 1) + {n - 1}
  }

  /** Takes the results of the futures that are over, in no particular order, up to the
      first failure. */
  method Collect<I(==), R(==)>(executor: Executor<I, R>, items: seq<I>, done: set<nat>,
                               results0: seq<Option<R>>, pending0: map<nat, nat>, ghost taken0: set<nat>)
    returns (results: seq<Option<R>>, pending: map<nat, nat>, ghost taken: set<nat>, raised: Option<string>)
    requires Untroubled(executor.deeds) && Recorded(executor.deeds, |executor.work|)
    requires Window(executor.execute, items, executor.work, pending0, taken0) && NoneCancelled(executor.work)
    requires done != {} && done <= pending0.Keys && forall f | f in done :: executor.work[f].Over()
    requires results0 == Stored(executor.execute, items, taken0) && taken0 <= Returned(executor.work)
    modifies executor`deeds
    ensures if raised.None? then Untroubled(executor.deeds) else StoppedAtFailure(executor.deeds)
    ensures Recorded(executor.deeds, |executor.work|)
    ensures Window(executor.execute, items, executor.work, pending, taken)
    ensures results == Stored(executor.execute, items, taken)
    ensures taken0 < taken && |pending| <= |pending0|
    ensures raised.None? ==> taken <= Returned(executor.work)
    ensures raised.Some? ==> Failed(executor.work, taken, raised.value)
  {
    results, pending, taken, raised := results0, pending0, taken0, None;
    var left := done;
    while left != {} && raised.None?
      invariant left <= pending.Keys && left <= done
      invariant if raised.None? then Untroubled(executor.deeds) else StoppedAtFailure(executor.deeds)
      invariant Recorded(executor.deeds, |executor.work|)
      invariant Window(executor.execute, items, executor.work, pending, taken)
      invariant results == Stored(executor.execute, items, taken)
      invariant taken0 <= taken && (left == done || taken != taken0)
      invariant pending.Keys <= pending0.Keys
      invariant raised.None? ==> taken <= Returned(executor.work)
      invariant raised.Some? ==> Failed(executor.work, taken, raised.value)
      decreases left
    {
      var future :| future in left;
      left := left - {future};
      var index := pending[future];
      pending := pending - {future};
      taken := taken + {index};
      ghost var deeds := executor.deeds;
      var outcome := executor.Result(future);
      RecordedMore(deeds, |executor.work|, Saw(future, outcome.Raise?));
      assert executor.deeds[..|deeds|] == deeds;
      match outcome
      case Ok(value) => results := results[index := Some(value)];
      case Raise(error) =>
        raised := Some(error);
        assert executor.work[index].outcome == Raise(error);
    }
    SubsetSize(pending.Keys, pending0.Keys);
  }

  ghost predicate Failed<I, R>(work: seq<Work<I, R>>, taken: set<nat>, error: string) {
    exists k: nat | k < |work| && k in taken :: work[k].Finished? && work[k].outcome == Raise(error)
  }

  lemma AllReturned<I, R>(execute: I -> Outcome<R>, items: seq<I>, work: seq<Work<I, R>>, taken: set<nat>)
    requires Window(execute, items, work, map[], taken) && |work| == |items| && taken <= Returned(work)
    ensures NoneCancelled(work)
    ensures forall k | 0 <= k < |items| :: execute(items[k]).Ok?
    ensures forall k | 0 <= k < |items| :: Stored(execute, items, taken)[k] == Some(execute(items[k]).value)
  {
    forall k | 0 <= k < |items|
      ensures execute(items[k]).Ok? && !work[k].Cancelled? && k in taken
    {
      assert k in taken;
    }
  }

  lemma FailureFound<I, R>(execute: I -> Outcome<R>, items: seq<I>, work: seq<Work<I, R>>,
                           pending: map<nat, nat>, taken: set<nat>, error: string)
    requires Window(execute, items, work, pending, taken) && Failed(work, taken, error)
    ensures Failed(work, Positions(|items|), error)
    ensures exists k :: 0 <= k < |items| && execute(items[k]).Raise?
  {
    var k: nat :| k < |work| && k in taken && work[k].Finished? && work[k].outcome == Raise(error);
    assert execute(items[k]).Raise? && k in Positions(|items|);
  }

  /** Between two rounds: the window is as full as it can be, or a failure was seen. */
  ghost predicate Ongoing<I, R>(execute: I -> Outcome<R>, work: seq<Work<I, R>>, workers: int, items: seq<I>,
                                results: seq<Option<R>>, pending: map<nat, nat>, taken: set<nat>, raised: Option<string>)
  {
    && Window(execute, items, work, pending, taken) && NoneCancelled(work)
    && results == Stored(execute, items, taken)
    && (raised.None? ==>
          && |pending| <= Max(workers, 0) && (|pending| >= workers || |work| == |items|)
          && taken <= Returned(work))
    && (raised.Some? ==> Failed(work, taken, raised.value) && |work| <= workers + |Returned(work)|)
  }

  /** Waits for a first result, takes what is there, and tops the window up. */
  method Round<I(==), R(==)>(executor: Executor<I, R>, workers: int, items: seq<I>,
                             results0: seq<Option<R>>, pending0: map<nat, nat>, ghost taken0: set<nat>)
    returns (results: seq<Option<R>>, pending: map<nat, nat>, ghost taken: set<nat>, raised: Option<string>)
    requires Ongoing(executor.execute, executor.work, workers, items, results0, pending0, taken0, None)
    requires pending0 != map[] && workers >= 1 && executor.peak <= workers
    requires Untroubled(executor.deeds) && Recorded(executor.deeds, |executor.work|)
    modifies executor
    ensures Ongoing(executor.execute, executor.work, workers, items, results, pending, taken, raised)
    ensures executor.peak <= workers
    ensures if raised.None? then Untroubled(executor.deeds) else StoppedAtFailure(executor.deeds)
    ensures Recorded(executor.deeds, |executor.work|)
    ensures taken0 < taken
  {
    WorkIsPendingOrTaken(executor.execute, items, executor.work, pending0, taken0);
    ghost var before := executor.work;
    var done := executor.WaitFirst(pending0.Keys);
    WindowSurvives(executor.execute, items, before, executor.work, pending0, taken0);
    LaterKeepsReturned(executor.execute, before, executor.work);
    SubsetSize(taken0, Returned(executor.work));
    results, pending, taken, raised := Collect(executor, items, done, results0, pending0, taken0);
    if raised.None? {
      pending := Fill(executor, workers, items, pending, taken);
    }
  }

  /** Maps the function over the items. A failure is raised only after everything
      submitted is over, and nothing further was submitted once it was seen. */
  method Map<I(==), R(==)>(executor: Executor<I, R>, workers: int, items: seq<I>)
    returns (r: Outcome<seq<Option<R>>>)
    requires executor.work == [] && executor.peak == 0 && executor.deeds == []
    modifies executor
    ensures executor.peak <= Max(workers, 0)
    ensures Sent(executor.work, items) && Honest(executor.execute, executor.work) && Unfinished(executor.work) == {}
    ensures workers >= 1 ==> (r.Ok? <==> forall k | 0 <= k < |items| :: executor.execute(items[k]).Ok?)
    ensures workers >= 1 && r.Ok? ==> |executor.work| == |items| && NoneCancelled(executor.work)
    ensures workers >= 1 && r.Ok? ==> |r.value| == |items|
    ensures workers >= 1 && r.Ok? ==> forall k | 0 <= k < |items| :: r.value[k] == Some(executor.execute(items[k]).value)
    ensures if r.Ok? then Untroubled(executor.deeds) else StoppedAtFailure(executor.deeds)
    ensures Recorded(executor.deeds, |executor.work|)
    ensures r.Raise? ==> |executor.work| <= workers + |Returned(executor.work)|
    ensures r.Raise? ==> Failed(executor.work, Positions(|items|), r.error)
    ensures workers <= 0 ==> executor.work == [] && r.Ok? && |r.value| == |items|
    ensures workers <= 0 ==> forall k | 0 <= k < |items| :: r.value[k] == None
  {
    var results: seq<Option<R>> := seq(|items|, _ => None);
    ghost var taken: set<nat> := {};
    var raised: Option<string> := None;
    var pending := Fill(executor, workers, items, map[], taken);
    while pending != map[] && raised.None?
      invariant workers >= 1 || (executor.work == [] && pending == map[] && taken == {} && raised.None?)
      invariant Ongoing(executor.execute, executor.work, workers, items, results, pending, taken, raised)
      invariant executor.peak <= Max(workers, 0)
      invariant if raised.None? then Untroubled(executor.deeds) else StoppedAtFailure(executor.deeds)
      invariant Recorded(executor.deeds, |executor.work|)
      decreases raised.None?, Positions(|items|) - taken
    {
      results, pending, taken, raised := Round(executor, workers, items, results, pending, taken);
    }
    ghost var atEnd := executor.work;
    Drain(executor, items, pending, taken);
    SubsetSize(Returned(atEnd), Returned(executor.work));
    assert results == Stored(executor.execute, items, taken);
    if raised.Some? {
      FailureFound(executor.execute, items, executor.work, pending, taken, raised.value);
    } else if workers >= 1 {
      AllReturned(executor.execute, items, executor.work, taken);
    }
    r := if raised.None? then Ok(results) else Raise(raised.value);
  }
}
