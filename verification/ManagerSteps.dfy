/** Steps that the results about runs allow, and runs of such steps. */
module ManagerSteps {
  import opened Common
  import opened BatchLots
  import opened BatchFillSpec
  import opened BatchManagerSpec
  import opened BatchRuns
  import opened BatchSafety
  import Conservation = BatchConservation
  import BatchVolley

  /** A batch is completed once, and strictly only completed batches are removed. */
  ghost predicate Proper(s: State, finished: set<string>, step: Step, strict: bool) {
    && Legal(s, finished, step)
    && match step
       case Finish(id, _) => id !in finished || id !in s.batches
       case Clean => strict ==> Conservation.CancelledIn(s) <= finished
       case _ => true
  }

  ghost predicate ProperFrom(s: State, finished: set<string>, steps: seq<Step>, c: Config, strict: bool)
    decreases |steps|
  {
    steps == [] ||
    (Proper(s, finished, steps[0], strict)
     && ProperFrom(Apply(s, steps[0], c), NowFinished(finished, steps[0]), steps[1..], c, strict))
  }

  function FinishedFrom(finished: set<string>, steps: seq<Step>): set<string>
    decreases |steps|
  {
    if steps == [] then finished else FinishedFrom(NowFinished(finished, steps[0]), steps[1..])
  }

  lemma {:induction false} ProperAppend(
      s: State, finished: set<string>, xs: seq<Step>, ys: seq<Step>, c: Config, strict: bool)
    requires ProperFrom(s, finished, xs, c, strict)
    requires ProperFrom(RunFrom(s, xs, c), FinishedFrom(finished, xs), ys, c, strict)
    ensures ProperFrom(s, finished, xs + ys, c, strict)
    ensures FinishedFrom(finished, xs + ys) == FinishedFrom(FinishedFrom(finished, xs), ys)
    ensures RunFrom(s, xs + ys, c) == RunFrom(RunFrom(s, xs, c), ys, c)
    decreases |xs|
  {
    hide Proper, Apply, NowFinished;
    RunFromAppend(s, xs, ys, c);
    if xs == [] {
      assert xs + ys == ys;
    } else {
      assert (xs + ys)[1..] == xs[1..] + ys;
      ProperAppend(Apply(s, xs[0], c), NowFinished(finished, xs[0]), xs[1..], ys, c, strict);
    }
  }

  lemma ProperOne(s: State, finished: set<string>, step: Step, c: Config, strict: bool)
    requires Proper(s, finished, step, strict)
    ensures ProperFrom(s, finished, [step], c, strict)
    ensures FinishedFrom(finished, [step]) == NowFinished(finished, step)
    ensures RunFrom(s, [step], c) == Apply(s, step, c)
  {
    hide Proper, Apply, NowFinished;
    assert [step][1..] == [];
  }

  // Whole runs

  ghost predicate ProperRun(steps: seq<Step>, c: Config, strict: bool)
    decreases |steps|
  {
    steps == [] ||
    var before := steps[..|steps| - 1];
    ProperRun(before, c, strict) && Proper(Run(before, c), Finished(before), steps[|steps| - 1], strict)
  }

  lemma {:induction false} MoreSteps(xs: seq<Step>, ys: seq<Step>, c: Config, strict: bool)
    requires ProperRun(xs, c, strict) && ProperFrom(Run(xs, c), Finished(xs), ys, c, strict)
    ensures ProperRun(xs + ys, c, strict)
    ensures Run(xs + ys, c) == RunFrom(Run(xs, c), ys, c) && Finished(xs + ys) == FinishedFrom(Finished(xs), ys)
    decreases |ys|
  {
    hide Proper, Apply, NowFinished;
    if ys == [] {
      assert xs + ys == xs;
    } else {
      var xs' := xs + [ys[0]];
      assert xs'[..|xs'| - 1] == xs && xs + ys == xs' + ys[1..];
      MoreSteps(xs', ys[1..], c, strict);
    }
  }

  lemma {:induction false} ProperIsLegal(steps: seq<Step>, c: Config, strict: bool)
    requires ProperRun(steps, c, strict)
    ensures LegalRun(steps, c)
    decreases |steps|
  {
    hide Run, Finished, Legal;
    if steps != [] {
      ProperIsLegal(steps[..|steps| - 1], c, strict);
    }
  }

  lemma {:induction false} ProperIsTidy(steps: seq<Step>, c: Config)
    requires ProperRun(steps, c, true)
    ensures Conservation.TidyRun(steps, c) && BatchVolley.OrderlyRun(steps, c)
    decreases |steps|
  {
    hide Run, Finished, KnownOrders, FairShares, Unfilled, UpdateBatch;
    if steps != [] {
      ProperIsTidy(steps[..|steps| - 1], c);
    }
  }
}
