/** Stopping: what remains to be done only shrinks, and the stop that waits returns with everything answered. */
module ServingDrain {
  import opened Types
  import opened Fallback
  import opened MicroBatchers
  import opened Serving
  import opened ServingFrames
  import opened ServingTally
  import opened ServingQueue
  import CB = CircuitBreakers
  import DC = DedupCaches

  // ---------- what is left to do ----------

  /** Steps a worker still has to take for what it holds, and to notice that it may exit. */
  function Cost(w: Worker): nat {
    match w
    case Exited => 0
    case Awake => 1
    case Waiting => 2
    case Loaded(batch) => 4 + 3 * |batch|
    case Running(batch, _) => 3 + 3 * |batch|
    case Delivering(batch, _, next, stage) =>
      if next >= |batch| then 2
      else 2 + 3 * (|batch| - next) - (match stage case AtResult => 0 case AtPut => 1 case AtReply => 2)
  }

  function Costs(workers: seq<Worker>): nat {
    if workers == [] then 0 else Costs(workers[..|workers| - 1]) + Cost(workers[|workers| - 1])
  }

  /** A queued job costs its three callback steps and at most a whole batch's overhead. */
  function Work(s: System): nat {
    7 * |s.queue| + Costs(s.workers)
  }

  lemma {:induction false} CostsAfter(workers: seq<Worker>, w: nat, x: Worker)
    requires w < |workers|
    ensures Costs(workers[w := x]) == Costs(workers) - Cost(workers[w]) + Cost(x)
  {
    var last := |workers| - 1;
    if w == last {
      assert workers[w := x][..last] == workers[..last];
    } else {
      assert workers[w := x][..last] == workers[..last][w := x];
      CostsAfter(workers[..last], w, x);
    }
  }

  lemma {:induction false} WakingCostsNothing(workers: seq<Worker>)
    ensures Costs(AllAwake(workers)) <= Costs(workers)
  {
    if workers != [] {
      var last := |workers| - 1;
      assert AllAwake(workers)[..last] == AllAwake(workers[..last]);
      WakingCostsNothing(workers[..last]);
    }
  }

  predicate IsOwnStep(step: Step) {
    step.TestQueue? || step.CopySession? || step.FinishRun? || step.RecordResult? || step.PutDecision? || step.FireDone?
  }

  lemma TestingWorks(cfg: Config, s: System, w: nat)
    requires Stopping(s) && cfg.batchMax >= 1 && Enabled(cfg, s, TestQueue(w))
    ensures Work(Next(cfg, s, TestQueue(w))) < Work(s)
  {
    hide Costs;
    var n := AfterTest(cfg, s, w);
    CostsAfter(s.workers, w, n.workers[w]);
    assert n.workers == s.workers[w := n.workers[w]];
  }

  lemma DeliveringWorks(cfg: Config, s: System, step: Step)
    requires Enabled(cfg, s, step) && (step.RecordResult? || step.PutDecision? || step.FireDone?)
    requires WellFormed(s.workers[step.worker])
    ensures Work(Next(cfg, s, step)) < Work(s)
  {
    hide Costs, CallbackAnswer, CB.AfterSuccess, CB.AfterFailure, DC.AfterPut;
    var w := step.worker;
    var n := Next(cfg, s, step);
    CostsAfter(s.workers, w, n.workers[w]);
    assert n.workers == s.workers[w := n.workers[w]];
  }

  lemma OwnStepWorks(cfg: Config, s: System, step: Step)
    requires Alert(cfg, s) && Stopping(s) && cfg.batchMax >= 1
    requires Enabled(cfg, s, step) && IsOwnStep(step)
    ensures Work(Next(cfg, s, step)) < Work(s)
  {
    var w := step.worker;
    assert WellFormed(s.workers[w]);
    hide Costs, WellFormed, Alert, Rows;
    if step.TestQueue? {
      TestingWorks(cfg, s, w);
    } else if step.CopySession? || step.FinishRun? {
      var n := Next(cfg, s, step);
      CostsAfter(s.workers, w, n.workers[w]);
      assert n.workers == s.workers[w := n.workers[w]];
    } else {
      DeliveringWorks(cfg, s, step);
    }
  }

  /** Once stopping, no step of any thread adds work, and every step of a worker does some. */
  lemma StoppingOnlyShrinksWork(cfg: Config, s: System, step: Step)
    requires Alert(cfg, s) && Stopping(s) && cfg.batchMax >= 1 && Enabled(cfg, s, step)
    ensures Work(Next(cfg, s, step)) <= Work(s) - if IsOwnStep(step) then 1 else 0
    ensures Stopping(Next(cfg, s, step))
  {
    hide Costs;
    match step {
      case NotifyOne(target) =>
        if target.Some? {
          CostsAfter(s.workers, target.value, Awake);
        }
      case WakeSpuriously(w) => CostsAfter(s.workers, w, Awake);
      case NotifyAll => WakingCostsNothing(s.workers);
      case _ =>
        if IsOwnStep(step) {
          OwnStepWorks(cfg, s, step);
        }
    }
  }

  function OwnSteps(steps: seq<Step>): nat {
    if steps == [] then 0 else OwnSteps(steps[..|steps| - 1]) + if IsOwnStep(steps[|steps| - 1]) then 1 else 0
  }

  lemma StepsOf(cfg: Config, initial: Session, r: Trace)
    requires IsTrace(cfg, initial, r)
    ensures |r.states| == |r.steps| + 1
    ensures forall i :: 0 <= i < |r.steps| ==>
      Enabled(cfg, r.states[i], r.steps[i]) && r.states[i + 1] == Next(cfg, r.states[i], r.steps[i])
  {
    hide Next, Enabled;
  }

  /** After stop, however requests, reloads, clock ticks and further stops interleave, the workers take at
      most as many more steps as there was work. */
  lemma {:induction false} DrainIsBounded(cfg: Config, initial: Session, r: Trace, i: nat, j: nat)
    requires IsTrace(cfg, initial, r) && i <= j < |r.states| && cfg.batchMax >= 1
    requires Stopping(r.states[i])
    ensures Stopping(r.states[j])
    ensures OwnSteps(r.steps[i..j]) + Work(r.states[j]) <= Work(r.states[i])
  {
    hide Next, Enabled, Work, IsOwnStep, Alert, IsTrace;
    StepsOf(cfg, initial, r);
    if i < j {
      DrainIsBounded(cfg, initial, r, i, j - 1);
      TraceStaysAlert(cfg, initial, r, j - 1);
      StoppingOnlyShrinksWork(cfg, r.states[j - 1], r.steps[j - 1]);
      assert r.steps[i..j][..j - i - 1] == r.steps[i..j - 1];
    }
  }

  /** ... and they cannot stop earlier: until every worker has exited and the stop has returned, either a
      worker can step, or notify_all or the join can. */
  lemma DrainNeverSticks(cfg: Config, initial: Session, r: Trace, i: nat)
    requires IsTrace(cfg, initial, r) && i < |r.states|
    requires Stopping(r.states[i]) && r.states[i].stopper != Returned
    ensures var s := r.states[i];
      Enabled(cfg, s, NotifyAll) || Enabled(cfg, s, JoinWorkers) || exists w :: CanStep(cfg, s, w)
  {
    var s := r.states[i];
    TraceStaysAlert(cfg, initial, r, i);
    if w :| 0 <= w < |s.workers| && IsBusy(s.workers[w]) {
      assert CanStep(cfg, s, w);
    }
  }

  // ---------- accepted jobs ----------

  /** An accepted job carries its own arrival, encoded, and has left its caller for good. */
  ghost predicate HandedOver(cfg: Config, s: System) {
    && (forall t :: t in s.callers ==> t < |s.arrivals|)
    && (forall j :: j in s.history.accepted ==>
        j.token < |s.arrivals| && j == JobFor(cfg, s, j.token) && j.token !in s.callers)
  }

  lemma CallerStepStaysHandedOver(cfg: Config, s: System, step: Step)
    requires HandedOver(cfg, s) && Enabled(cfg, s, step) && IsCallerStep(step)
    ensures HandedOver(cfg, Next(cfg, s, step))
  {
    hide DC.AfterGet, DC.Lookup, CB.Admits, CB.AfterAsk, FallbackFor;
    var n := Next(cfg, s, step);
    forall j | j in n.history.accepted
      ensures j.token < |n.arrivals| && j == JobFor(cfg, n, j.token) && j.token !in n.callers
    {
      if j !in s.history.accepted {
        assert j == JobFor(cfg, s, step.token);
      }
    }
  }

  lemma StepStaysHandedOver(cfg: Config, s: System, step: Step)
    requires HandedOver(cfg, s) && Enabled(cfg, s, step)
    ensures HandedOver(cfg, Next(cfg, s, step))
  {
    hide Next, Enabled;
    if IsCallerStep(step) {
      CallerStepStaysHandedOver(cfg, s, step);
    } else {
      CallersLeftAlone(cfg, s, step);
    }
  }

  lemma {:induction false} TraceStaysHandedOver(cfg: Config, initial: Session, r: Trace, i: nat)
    requires IsTrace(cfg, initial, r) && i < |r.states|
    ensures HandedOver(cfg, r.states[i])
  {
    if i > 0 {
      TraceStaysHandedOver(cfg, initial, r, i - 1);
      StepStaysHandedOver(cfg, r.states[i - 1], r.steps[i - 1]);
    }
  }

  lemma {:induction false} NothingIsHeld(workers: seq<Worker>, which: Which)
    requires forall w :: 0 <= w < |workers| ==> workers[w] == Exited
    ensures InBatches(workers, which) == 0
  {
    if workers != [] {
      NothingIsHeld(workers[..|workers| - 1], which);
    }
  }

  /** When the stop that waits returns, every accepted job has been answered, exactly once; every request
      has, as soon as no caller is left inside `process`. */
  lemma StopReturnsDrained(cfg: Config, initial: Session, r: Trace, i: nat)
    requires IsTrace(cfg, initial, r) && i < |r.states|
    requires r.states[i].stopper == Returned
    ensures var s := r.states[i];
      && s.queue == []
      && (forall j :: j in s.history.accepted ==> Answered(s.replies, Only(j.token)) == 1)
      && (s.callers == map[] ==> forall t: nat :: t < |s.arrivals| ==> Answered(s.replies, Only(t)) == 1)
  {
    var s := r.states[i];
    TraceStaysAlert(cfg, initial, r, i);
    assert s.workers[0] == Exited;
    TraceStaysHandedOver(cfg, initial, r, i);
    forall t: nat | t < |s.arrivals| && t !in s.callers
      ensures Answered(s.replies, Only(t)) == 1
    {
      AnsweredExactlyOnce(cfg, initial, r, i, t);
      NothingIsHeld(s.workers, Only(t));
    }
  }

  lemma OnlyACapAllowsBatches(takes: seq<seq<Job>>, batchMax: int)
    requires forall i :: 0 <= i < |takes| ==> 1 <= |takes[i]| <= batchMax
    ensures takes == [] || batchMax >= 1
  {
    if takes != [] {
      assert 1 <= |takes[0]| <= batchMax;
    }
  }

  /** A batch cap below one never pops anything: then a stop returns only if nothing was ever accepted. */
  lemma NoBatchCapNoDrain(cfg: Config, initial: Session, r: Trace, i: nat)
    requires IsTrace(cfg, initial, r) && i < |r.states| && cfg.batchMax < 1
    ensures r.states[i].queue == r.states[i].history.accepted
    ensures r.states[i].stopper == Returned ==> r.states[i].history.accepted == []
  {
    TraceStaysInOrder(cfg, initial, r, i);
    var s := r.states[i];
    OnlyACapAllowsBatches(s.history.takes, cfg.batchMax);
    assert Flat(s.history.takes) == [];
    TraceStaysAlert(cfg, initial, r, i);
    if s.stopper == Returned {
      assert s.workers[0] == Exited;
    }
  }

  /** Only the first stop waits: with any queue capacity, a second call can return while a job is queued. */
  lemma SecondStopDoesNotWait(cfg: Config, initial: Session, req: Request) returns (r: Trace)
    requires Adopted(cfg, initial) && cfg.queueMax >= 1
    ensures IsTrace(cfg, initial, r)
    ensures var s := r.states[|r.states| - 1];
      s.earlyReturns == 1 && s.stopper == Notifying && s.queue == [Job(0, req, cfg.encode(req))]
  {
    hide IsTrace;
    r := JustStarted(cfg, initial);
    r := Extended(cfg, initial, r, Arrive(req));
    r := Extended(cfg, initial, r, LookUp(0));
    r := Extended(cfg, initial, r, AskBreaker(0));
    r := Extended(cfg, initial, r, Submit(0));
    r := Extended(cfg, initial, r, CallStop);
    r := Extended(cfg, initial, r, CallStop);
  }

  lemma JustStarted(cfg: Config, initial: Session) returns (r: Trace)
    requires Adopted(cfg, initial)
    ensures IsTrace(cfg, initial, r) && |r.states| == 1 && r.states[0] == Initial(cfg, initial)
  {
    r := Trace([Initial(cfg, initial)], []);
  }

  lemma Extended(cfg: Config, initial: Session, r: Trace, step: Step) returns (longer: Trace)
    requires IsTrace(cfg, initial, r) && |r.states| > 0
    requires Enabled(cfg, r.states[|r.states| - 1], step)
    ensures IsTrace(cfg, initial, longer) && |longer.states| > 0
    ensures longer.states[|longer.states| - 1] == Next(cfg, r.states[|r.states| - 1], step)
  {
    hide Next, Enabled;
    longer := Trace(r.states + [Next(cfg, r.states[|r.states| - 1], step)], r.steps + [step]);
  }
}
