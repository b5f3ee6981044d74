/** Orders that became mintable are published exactly once, and never go on into another batch. */
module BatchMints {
  import opened Common
  import opened BatchLots
  import opened BatchFillSpec
  import opened BatchManagerSpec
  import opened BatchRuns
  import BatchExamples

  predicate Mintable(status: Status) {
    status.PartlyMintable? || status.FullyMintable?
  }

  // One fill

  /** A fill moves the status only forward, from engaged to partly to fully mintable. */
  lemma StatusOnlyClimbs(positions: Positions, e: Engagement, o: SolverOrder, now: int, th: Thresholds)
    ensures var status := FillIndexOrder(positions, e, o, now, th).order.status;
      || status == o.status
      || (o.status.Engaged? && Mintable(status))
      || (o.status.PartlyMintable? && status.FullyMintable?)
  {
    hide BasketRate, AllocateBasket, FilledAt;
  }

  /** A fill that makes an order mintable puts it among the orders to mint, unless it passes the fill threshold without
      passing the mint threshold. */
  lemma MadeMintable(positions: Positions, e: Engagement, o: SolverOrder, now: int, th: Thresholds)
    ensures var f := FillIndexOrder(positions, e, o, now, th);
      && (f.mintable ==> o.status.Engaged? && Mintable(f.order.status))
      && (o.status.Engaged? && Mintable(f.order.status) && !f.mintable <==>
            o.status.Engaged? && f.request.Some? && th.fill < f.request.value.rate <= th.mint)
  {
    hide BasketRate, AllocateBasket, FilledAt;
  }

  // Whole runs

  function Publishes(s: State, step: Step, c: Config): set<string> {
    if step.Finish? && step.id in s.batches && step.id in s.engagements then DueMints(s, step.now, c.mintWait) else {}
  }

  /** Every order published so far. */
  ghost function Published(steps: seq<Step>, c: Config): set<string>
    decreases |steps|
  {
    if steps == [] then {}
    else
      var before := steps[..|steps| - 1];
      Published(before, c) + Publishes(Run(before, c), steps[|steps| - 1], c)
  }

  /** Orders arrive unfilled; nobody else makes an order mintable, and a published order is not put back. */
  predicate Fit(s: State, published: set<string>, step: Step) {
    match step
    case Arrive(_, o) => !Mintable(o.status)
    case Change(key, o) =>
      key in s.orders ==>
        && (Mintable(o.status) ==> Mintable(s.orders[key].status))
        && (key in published ==> !o.status.Ready? && !o.status.Engaged?)
    case _ => true
  }

  ghost predicate FitRun(steps: seq<Step>, c: Config)
    decreases |steps|
  {
    steps == [] ||
    var before := steps[..|steps| - 1];
    FitRun(before, c) && Fit(Run(before, c), Published(before, c), steps[|steps| - 1])
  }

  predicate KeptSafe(o: SolverOrder, waiting: bool, published: bool) {
    && (Mintable(o.status) ==> waiting || published)
    && !(waiting && published)
    && (published ==> !o.status.Ready? && !o.status.Engaged?)
  }

  /** Every mintable order either waits to be published or was published, not both. */
  ghost predicate MintsAreSafe(s: State, published: set<string>) {
    && published <= s.orders.Keys
    && s.readyMints <= s.orders.Keys
    && forall key :: key in s.orders ==> KeptSafe(s.orders[key], key in s.readyMints, key in published)
  }

  lemma AnsweredIsSafe(s: State, s': State, id: string, published: set<string>)
    requires MintsAreSafe(s, published) && Answered(s, s', id)
    ensures MintsAreSafe(s', published)
  {
    hide KeptSafe;
    forall key | key in s'.orders ensures KeptSafe(s'.orders[key], key in s'.readyMints, key in published) {
      assert KeptSafe(s.orders[key], key in s.readyMints, key in published);
      StaysSafe(s.orders[key], s'.orders[key], key in s.readyMints, key in published);
    }
  }

  lemma StaysSafe(o: SolverOrder, o': SolverOrder, waiting: bool, published: bool)
    requires KeptSafe(o, waiting, published) && AnsweredOrder(o, o')
    ensures KeptSafe(o', waiting, published)
  {
  }

  lemma FillIsSafe(s: State, published: set<string>, id: string, i: nat, th: Thresholds)
    requires MintsAreSafe(s, published) && CanFill(s, id, i) && th.mint <= th.fill
    ensures MintsAreSafe(AfterFill(s, id, i, FillOf(s, id, i, th)), published)
  {
    hide FillIndexOrder;
    var e := s.engagements[id].orders[i];
    var b := s.batches[id];
    StatusOnlyClimbs(b.positions, e, s.orders[e.order], b.timestamp, th);
    MadeMintable(b.positions, e, s.orders[e.order], b.timestamp, th);
    assert KeptSafe(s.orders[e.order], e.order in s.readyMints, e.order in published);
  }

  lemma FinishIsSafe(s: State, published: set<string>, id: string, now: int, c: Config)
    requires MintsAreSafe(s, published) && id in s.batches
    ensures MintsAreSafe(Complete(s, id, now, c).0, published + Publishes(s, Finish(id, now), c))
  {
    hide Continued, CarryOut, LeftBehind, CarryAll;
    var s' := Complete(s, id, now, c).0;
    if id in s.engagements {
      var promoted := Promote(s.orders, DueMints(s, now, c.mintWait));
      CarryAllOnlyCarries(promoted, Continued(s.engagements[id].orders, promoted));
    }
    forall key | key in s'.orders
      ensures KeptSafe(s'.orders[key], key in s'.readyMints, key in published + Publishes(s, Finish(id, now), c))
    {
      assert KeptSafe(s.orders[key], key in s.readyMints, key in published);
    }
  }

  lemma OrderStepIsSafe(s: State, published: set<string>, step: Step, c: Config)
    requires MintsAreSafe(s, published) && Fit(s, published, step) && (step.Arrive? || step.Change? || step.Drain?)
    ensures MintsAreSafe(Apply(s, step, c), published)
  {
    hide KeptSafe;
    var s' := Apply(s, step, c);
    forall key | key in s'.orders ensures KeptSafe(s'.orders[key], key in s'.readyMints, key in published) {
      if key in s.orders {
        assert KeptSafe(s.orders[key], key in s.readyMints, key in published);
        if key == step.key {
          SafeAfterChange(s, published, step, c);
        }
      } else {
        ArrivesSafe(s'.orders[key]);
      }
    }
  }

  lemma ArrivesSafe(o: SolverOrder)
    requires !Mintable(o.status)
    ensures KeptSafe(o, false, false)
  {
  }

  lemma SafeAfterChange(s: State, published: set<string>, step: Step, c: Config)
    requires Fit(s, published, step) && (step.Arrive? || step.Change? || step.Drain?) && step.key in s.orders
    requires KeptSafe(s.orders[step.key], step.key in s.readyMints, step.key in published)
    ensures KeptSafe(Apply(s, step, c).orders[step.key], step.key in s.readyMints, step.key in published)
  {
  }

  lemma StepIsSafe(s: State, published: set<string>, step: Step, c: Config)
    requires MintsAreSafe(s, published) && Fit(s, published, step) && c.th.mint <= c.th.fill
    ensures MintsAreSafe(Apply(s, step, c), published + Publishes(s, step, c))
  {
    hide FillOf, AfterFill, CanFill, Complete, EngageFrom, Cleanup, UpdateBatch, CancelAsset, MintsAreSafe, KeptSafe,
        NewBatch;
    assert !step.Finish? ==> published + Publishes(s, step, c) == published;
    match step
    case FillNext(id, i) => if CanFill(s, id, i) { FillIsSafe(s, published, id, i, c.th); }
    case Finish(id, now) =>
      if id in s.batches {
        FinishIsSafe(s, published, id, now, c);
      } else {
        assert published + Publishes(s, step, c) == published;
      }
    case Confirm(id, confirmations, now) =>
      if id in s.engagements {
        AnswersOnly(s, id, 0, confirmations, now);
        AnsweredIsSafe(s, EngageFrom(s, id, 0, confirmations, now), id, published);
        SameMintsAreSafe(EngageFrom(s, id, 0, confirmations, now), Apply(s, step, c), published);
      }
    case Arrive(_, _) => OrderStepIsSafe(s, published, step, c);
    case Change(_, _) => OrderStepIsSafe(s, published, step, c);
    case Drain(_) => OrderStepIsSafe(s, published, step, c);
    case Clean => SameMintsAreSafe(s, Cleanup(s), published) by { CleanKeepsOrders(s); }
    case _ => SameMintsAreSafe(s, Apply(s, step, c), published);
  }

  lemma CleanKeepsOrders(s: State)
    ensures Cleanup(s).orders == s.orders && Cleanup(s).readyMints == s.readyMints
  {
  }

  lemma SameMintsAreSafe(s: State, s': State, published: set<string>)
    requires MintsAreSafe(s, published) && s'.orders == s.orders && s'.readyMints == s.readyMints
    ensures MintsAreSafe(s', published)
  {
  }

  /** While the mint threshold is at most the fill threshold, no mintable order is forgotten and none that was published
      waits to be published again. */
  lemma {:induction false} MintableOrdersAreSafe(steps: seq<Step>, c: Config)
    requires FitRun(steps, c) && c.th.mint <= c.th.fill
    ensures MintsAreSafe(Run(steps, c), Published(steps, c))
    decreases |steps|
  {
    if steps != [] {
      hide MintsAreSafe, Apply, Publishes, Fit;
      var before := steps[..|steps| - 1];
      MintableOrdersAreSafe(before, c);
      StepIsSafe(Run(before, c), Published(before, c), steps[|steps| - 1], c);
    } else {
    }
  }

  /** No order is published twice, and an order that a completion publishes does not go on into another batch. */
  lemma PublishedOnce(steps: seq<Step>, c: Config, id: string, now: int)
    requires FitRun(steps, c) && c.th.mint <= c.th.fill
    requires id in Run(steps, c).batches && id in Run(steps, c).engagements
    ensures var s := Run(steps, c);
      && DueMints(s, now, c.mintWait) !! Published(steps, c)
      && forall key :: key in DueMints(s, now, c.mintWait) ==>
           key !in Continued(s.engagements[id].orders, Promote(s.orders, DueMints(s, now, c.mintWait)))
  {
    hide FitRun, Run, Published, MintDue;
    var s := Run(steps, c);
    MintableOrdersAreSafe(steps, c);
    var due := DueMints(s, now, c.mintWait);
    forall key | key in due ensures key !in Published(steps, c) {
      assert KeptSafe(s.orders[key], key in s.readyMints, key in Published(steps, c));
    }
    forall key | key in due ensures key !in Continued(s.engagements[id].orders, Promote(s.orders, due)) {
      ContinuedContinue(s.engagements[id].orders, Promote(s.orders, due), key);
    }
  }

  /** An order that waits to be published goes on waiting until a completion publishes it. */
  lemma WaitsUntilPublished(s: State, step: Step, c: Config, key: string)
    requires key in s.readyMints
    ensures key in Apply(s, step, c).readyMints || key in Publishes(s, step, c)
  {
    hide FillOf, UpdateBatch, CancelAsset, NewBatch, CarryOut, Emptied, Continued, CarryAll, Promote;
    if step.Confirm? && step.id in s.engagements {
      AnswersOnly(s, step.id, 0, step.confirmations, step.now);
    }
  }

  // Orders that are forgotten

  /** The order is mintable, and was neither published nor waits to be. */
  ghost predicate Forgotten(steps: seq<Step>, c: Config, key: string) {
    var s := Run(steps, c);
    key in s.orders && Mintable(s.orders[key].status) && key !in s.readyMints && key !in Published(steps, c)
  }

  /** No fill takes the order, and it does not wait to be published. */
  ghost predicate PutAside(s: State, key: string) {
    && key in s.orders && key !in s.readyMints
    && var status := s.orders[key].status;
       !status.Ready? && !status.Engaged? && !status.PartlyMintable?
  }

  lemma StepKeepsAside(s: State, step: Step, c: Config, key: string)
    requires PutAside(s, key) && !(step.Change? && step.key == key)
    ensures PutAside(Apply(s, step, c), key) && key !in Publishes(s, step, c)
  {
    hide FillIndexOrder, UpdateBatch, CancelAsset, NewBatch, CarryOut, Emptied, Continued, CarryAll, MintDue;
    match step
    case Confirm(id, confirmations, now) =>
      if id in s.engagements {
        AnswersOnly(s, id, 0, confirmations, now);
        assert AnsweredOrder(s.orders[key], EngageFrom(s, id, 0, confirmations, now).orders[key]);
      }
    case FillNext(id, i) =>
      if CanFill(s, id, i) {
        var e := s.engagements[id].orders[i];
        StatusOnlyClimbs(s.batches[id].positions, e, s.orders[e.order], s.batches[id].timestamp, c.th);
        MadeMintable(s.batches[id].positions, e, s.orders[e.order], s.batches[id].timestamp, c.th);
      }
    case Finish(id, now) =>
      if id in s.batches && id in s.engagements {
        var promoted := Promote(s.orders, DueMints(s, now, c.mintWait));
        CarryAllOnlyCarries(promoted, Continued(s.engagements[id].orders, promoted));
      }
    case _ =>
  }

  /** Unless the rest of the solver changes it, an order that is put aside is never published. */
  lemma {:induction false} NeverPublished(steps: seq<Step>, more: seq<Step>, c: Config, key: string)
    requires PutAside(Run(steps, c), key) && key !in Published(steps, c)
    requires forall step :: step in more ==> !(step.Change? && step.key == key)
    ensures PutAside(Run(steps + more, c), key) && key !in Published(steps + more, c)
    decreases |more|
  {
    hide PutAside, Apply, Publishes;
    var n := |more| - 1;
    if more == [] {
      assert steps + more == steps;
    } else {
      NeverPublished(steps, more[..n], c, key);
      assert more == more[..n] + [more[n]];
      assert (steps + more)[..|steps + more| - 1] == steps + more[..n];
      StepKeepsAside(Run(steps + more[..n], c), more[n], c, key);
    }
  }

  predicate Suits(th: Thresholds, quantity: real) {
    0.0 <= th.zero <= quantity && 0.0 < quantity && 0.0 < th.mint && th.fill < th.mint
  }

  lemma Longer(steps: seq<Step>, step: Step, c: Config)
    requires FitRun(steps, c) && Fit(Run(steps, c), Published(steps, c), step)
    ensures var steps' := steps + [step];
      && FitRun(steps', c) && Run(steps', c) == Apply(Run(steps, c), step, c)
      && Published(steps', c) == Published(steps, c) + Publishes(Run(steps, c), step, c)
  {
    hide Apply, Fit;
    assert (steps + [step])[..|steps|] == steps;
  }

  /** The order's batch is sent. */
  lemma IsSent(c: Config, quantity: real, w: real) returns (steps: seq<Step>)
    ensures FitRun(steps, c) && Published(steps, c) == {}
    ensures var s := Run(steps, c);
      && s.orders == map["X" := BatchExamples.AllIn(w)] && s.readyMints == {}
      && "M" in s.batches && BatchExamples.JustSent(s.batches["M"], "A", 0) && "M" in s.engagements
      && s.engagements["M"].orders == [BatchExamples.OnlyPart("X", "A", quantity).(collateral := w)]
  {
    hide FitRun, Run, Published, EngageOrders, SendBatch;
    var e, all := BatchExamples.Only("X", "A", quantity), Confirmation(w, 0.0);
    steps := [];
    Nothing(c);
    Longer(steps, Arrive("X", BatchExamples.Paying(w)), c);
    steps := steps + [Arrive("X", BatchExamples.Paying(w))];
    Longer(steps, Register("M", e), c);
    steps := steps + [Register("M", e)];
    BatchExamples.OnlyAnswered(Run(steps, c), "M", "X", "A", quantity, all, 0);
    Longer(steps, Confirm("M", BatchExamples.Answer("X", all), 0), c);
    steps := steps + [Confirm("M", BatchExamples.Answer("X", all), 0)];
    BatchExamples.OnlySends(Run(steps, c), "M", "A", 0, c);
    Longer(steps, BatchRuns.Send("M", 0), c);
    steps := steps + [BatchRuns.Send("M", 0)];
  }

  lemma Nothing(c: Config)
    ensures FitRun([], c) && Run([], c) == NOTHING && Published([], c) == {}
  {
  }

  /** With a mint threshold above the fill threshold, a run in which an order becomes fully mintable and is put
      aside. */
  lemma SomeOrderIsForgotten(c: Config, quantity: real) returns (steps: seq<Step>)
    requires Suits(c.th, quantity)
    ensures FitRun(steps, c) && Forgotten(steps, c, "X") && PutAside(Run(steps, c), "X")
  {
    hide FitRun, Run, Published, FillIndexOrder, BatchExamples.TwoLots, BatchExamples.WithHalf;
    var w := quantity / c.th.mint;
    BatchExamples.HalfIsShare(quantity, c.th.mint);
    steps := IsSent(c, quantity, w);
    var x := BatchExamples.Twice(quantity);
    BatchExamples.Executes(Run(steps, c), "M", quantity, c);
    Longer(steps, Execute("M", BatchExamples.A, x, 0), c);
    steps := steps + [Execute("M", BatchExamples.A, x, 0)];
    BatchExamples.FillsHalf("X", quantity, w, c.th);
    Longer(steps, FillNext("M", 0), c);
    steps := steps + [FillNext("M", 0)];
  }

  /** No fit run ever forgets an order if and only if the mint threshold is at most the fill threshold. */
  lemma NeverForgottenExactly(th: Thresholds)
    requires 0.0 <= th.zero && 0.0 < th.mint
    ensures th.mint <= th.fill <==>
      forall steps, c: Config, key :: c.th == th && FitRun(steps, c) ==> !Forgotten(steps, c, key)
  {
    hide FitRun, Forgotten;
    if th.mint <= th.fill {
      forall steps, c: Config, key | c.th == th && FitRun(steps, c) ensures !Forgotten(steps, c, key) {
        MintableOrdersAreSafe(steps, c);
        SafeIsNotForgotten(steps, c, key);
      }
    } else {
      var c := Config(th, 0, 1);
      var steps := SomeOrderIsForgotten(c, th.zero + 1.0);
      assert c.th == th && FitRun(steps, c) && Forgotten(steps, c, "X");
    }
  }

  lemma SafeIsNotForgotten(steps: seq<Step>, c: Config, key: string)
    requires MintsAreSafe(Run(steps, c), Published(steps, c))
    ensures !Forgotten(steps, c, key)
  {
    hide Run, Published;
    if key in Run(steps, c).orders {
      assert KeptSafe(Run(steps, c).orders[key], key in Run(steps, c).readyMints, key in Published(steps, c));
    }
  }
}
