/** Every accepted job is in exactly one place on its way to the model: queued, in a batch not yet run, or in a run. */
module ServingRuns {
  import opened Types
  import opened MicroBatchers
  import opened Serving
  import opened ServingFrames
  import opened ServingTally
  import opened ServingQueue
  import opened ServingDrain
  import CB = CircuitBreakers
  import DC = DedupCaches

  // ---------- counting ----------

  /** A worker as it counts before its run: what it already delivers no longer does. */
  function BeforeRun(w: Worker): Worker {
    if w.Delivering? then Awake else w
  }

  function BeforeRuns(workers: seq<Worker>): (r: seq<Worker>)
    ensures |r| == |workers|
  {
    seq(|workers|, w requires 0 <= w < |workers| => BeforeRun(workers[w]))
  }

  /** The jobs popped into batches the model has not run yet. */
  function Unrun(workers: seq<Worker>, which: Which): nat {
    InBatches(BeforeRuns(workers), which)
  }

  function Ran(runs: seq<Run>, which: Which): nat {
    if runs == [] then 0 else Ran(runs[..|runs| - 1], which) + Jobs(runs[|runs| - 1].jobs, which)
  }

  lemma OneMoreRun(runs: seq<Run>, run: Run, which: Which)
    ensures Ran(runs + [run], which) == Ran(runs, which) + Jobs(run.jobs, which)
  {
    assert (runs + [run])[..|runs|] == runs;
  }

  lemma UnrunAfter(workers: seq<Worker>, w: nat, x: Worker, which: Which)
    requires w < |workers|
    ensures Unrun(workers[w := x], which)
      == Unrun(workers, which) - Jobs(Held(BeforeRun(workers[w])), which) + Jobs(Held(BeforeRun(x)), which)
  {
    assert BeforeRuns(workers[w := x]) == BeforeRuns(workers)[w := BeforeRun(x)];
    BatchesAfter(BeforeRuns(workers), w, BeforeRun(x), which);
  }

  lemma WakingRunsNothing(workers: seq<Worker>, which: Which)
    ensures Unrun(AllAwake(workers), which) == Unrun(workers, which)
  {
    assert BeforeRuns(AllAwake(workers)) == AllAwake(BeforeRuns(workers));
    WakingHoldsNothing(BeforeRuns(workers), which);
  }

  lemma {:induction false} JobIsCounted(jobs: seq<Job>, i: nat)
    requires i < |jobs|
    ensures Jobs(jobs, Only(jobs[i].token)) >= 1
    ensures forall l: nat :: l < i && jobs[l].token == jobs[i].token ==> Jobs(jobs, Only(jobs[i].token)) >= 2
  {
    var front := jobs[..|jobs| - 1];
    if i < |front| {
      JobIsCounted(front, i);
    } else if l: nat :| l < i && jobs[l].token == jobs[i].token {
      JobIsCounted(front, l);
    }
  }

  lemma {:induction false} AbsentIsNotCounted(jobs: seq<Job>, t: nat)
    requires forall j :: j in jobs ==> j.token != t
    ensures Jobs(jobs, Only(t)) == 0
  {
    if jobs != [] {
      AbsentIsNotCounted(jobs[..|jobs| - 1], t);
    }
  }

  lemma {:induction false} RunIsCounted(runs: seq<Run>, k: nat, which: Which)
    requires k < |runs|
    ensures Ran(runs, which) >= Jobs(runs[k].jobs, which)
    ensures forall l: nat :: l < k ==> Ran(runs, which) >= Jobs(runs[k].jobs, which) + Jobs(runs[l].jobs, which)
  {
    hide Jobs;
    var front := runs[..|runs| - 1];
    if k < |front| {
      RunIsCounted(front, k, which);
    } else {
      forall l: nat | l < k
        ensures Ran(front, which) >= Jobs(runs[l].jobs, which)
      {
        RunIsCounted(front, l, which);
      }
    }
  }

  lemma {:induction false} BatchIsCounted(workers: seq<Worker>, w: nat, which: Which)
    requires w < |workers|
    ensures InBatches(workers, which) >= Jobs(Held(workers[w]), which)
  {
    if w < |workers| - 1 {
      BatchIsCounted(workers[..|workers| - 1], w, which);
    }
  }

  // ---------- the invariant ----------

  /** What was popped is in a batch still to be run, or in a run. */
  ghost predicate PoppedOnce(s: System) {
    forall which :: Jobs(Flat(s.history.takes), which) == Unrun(s.workers, which) + Ran(s.history.runs, which)
  }

  /** No token is accepted twice. */
  ghost predicate AcceptedOnce(s: System) {
    forall t: nat :: Jobs(s.history.accepted, Only(t)) <= 1
  }

  lemma SubmittingAcceptsOnce(cfg: Config, s: System, t: nat)
    requires AcceptedOnce(s) && HandedOver(cfg, s) && Enabled(cfg, s, Submit(t))
    ensures AcceptedOnce(Next(cfg, s, Submit(t)))
  {
    hide Jobs;
    var n, accepted, job := Next(cfg, s, Submit(t)), s.history.accepted, JobFor(cfg, s, t);
    AbsentIsNotCounted(accepted, t);
    forall u: nat
      ensures Jobs(n.history.accepted, Only(u)) <= 1
    {
      assert Jobs(accepted, Only(u)) <= 1;
      JobsSplit(accepted, [job], Only(u));
      OneJob(job, Only(u));
    }
  }

  lemma StepAcceptsOnce(cfg: Config, s: System, step: Step)
    requires AcceptedOnce(s) && HandedOver(cfg, s) && Enabled(cfg, s, step)
    ensures AcceptedOnce(Next(cfg, s, step))
  {
    hide Next, Enabled, HandedOver;
    if step.Submit? {
      SubmittingAcceptsOnce(cfg, s, step.token);
    } else {
      CallersLeftAlone(cfg, s, step);
    }
  }

  lemma TakingPopsOnce(cfg: Config, s: System, w: nat)
    requires PoppedOnce(s) && Enabled(cfg, s, TestQueue(w))
    ensures PoppedOnce(Next(cfg, s, TestQueue(w)))
  {
    hide Jobs, Unrun, Ran, Flat, TakeCount;
    var n := AfterTest(cfg, s, w);
    var batch := s.queue[..TakeCount(s.queue, cfg.batchMax)];
    assert n.workers == s.workers[w := n.workers[w]];
    forall which
      ensures Jobs(Flat(n.history.takes), which) == Unrun(n.workers, which) + Ran(n.history.runs, which)
    {
      UnrunAfter(s.workers, w, n.workers[w], which);
      NothingHeld(which);
      FlatOneMore(s.history.takes, batch);
      JobsSplit(Flat(s.history.takes), batch, which);
    }
  }

  lemma RunningRunsOnce(cfg: Config, s: System, w: nat, throws: bool)
    requires PoppedOnce(s) && Enabled(cfg, s, FinishRun(w, throws))
    ensures PoppedOnce(Next(cfg, s, FinishRun(w, throws)))
  {
    hide Jobs, Unrun, Ran, Flat, Rows;
    var n := Next(cfg, s, FinishRun(w, throws));
    assert n.workers == s.workers[w := n.workers[w]];
    forall which
      ensures Jobs(Flat(n.history.takes), which) == Unrun(n.workers, which) + Ran(n.history.runs, which)
    {
      UnrunAfter(s.workers, w, n.workers[w], which);
      NothingHeld(which);
      OneMoreRun(s.history.runs, n.history.runs[|s.history.runs|], which);
    }
  }

  /** No other step of a worker changes what is still to be run. */
  lemma OthersRunNothing(cfg: Config, s: System, step: Step, which: Which)
    requires Enabled(cfg, s, step) && IsWorkerStep(step) && !step.TestQueue? && !step.FinishRun?
    ensures Unrun(Next(cfg, s, step).workers, which) == Unrun(s.workers, which)
  {
    hide Jobs, Unrun, CallbackAnswer, DC.AfterPut, CB.AfterFailure, CB.AfterSuccess;
    var n := Next(cfg, s, step);
    if step.NotifyAll? {
      WakingRunsNothing(s.workers, which);
    } else if !step.NotifyOne? || step.target.Some? {
      var w := if step.NotifyOne? then step.target.value else step.worker;
      UnrunAfter(s.workers, w, n.workers[w], which);
      assert n.workers == s.workers[w := n.workers[w]];
    }
  }

  lemma StepPopsOnce(cfg: Config, s: System, step: Step)
    requires PoppedOnce(s) && Enabled(cfg, s, step)
    ensures PoppedOnce(Next(cfg, s, step))
  {
    hide Next, Enabled, Jobs, Unrun, Ran, Flat;
    if step.TestQueue? {
      TakingPopsOnce(cfg, s, step.worker);
    } else if step.FinishRun? {
      RunningRunsOnce(cfg, s, step.worker, step.throws);
    } else {
      BatchesLeftAlone(cfg, s, step);
      WorkersLeftAlone(cfg, s, step);
      if IsWorkerStep(step) {
        forall which
          ensures Unrun(Next(cfg, s, step).workers, which) == Unrun(s.workers, which)
        {
          OthersRunNothing(cfg, s, step, which);
        }
      }
    }
  }

  lemma StartsPopped(cfg: Config, initial: Session)
    ensures PoppedOnce(Initial(cfg, initial)) && AcceptedOnce(Initial(cfg, initial))
  {
    var s := Initial(cfg, initial);
    forall which
      ensures Unrun(s.workers, which) == 0
    {
      assert BeforeRuns(s.workers) == s.workers;
      NobodyHoldsAtStart(|s.workers|, which);
      assert s.workers == seq(|s.workers|, _ => Awake);
    }
  }

  lemma {:induction false} TraceRunsOnce(cfg: Config, initial: Session, r: Trace, i: nat)
    requires IsTrace(cfg, initial, r) && i < |r.states|
    ensures PoppedOnce(r.states[i]) && AcceptedOnce(r.states[i])
  {
    hide Next, Enabled, PoppedOnce, AcceptedOnce, HandedOver;
    if i == 0 {
      StartsPopped(cfg, initial);
    } else {
      TraceRunsOnce(cfg, initial, r, i - 1);
      TraceStaysHandedOver(cfg, initial, r, i - 1);
      StepPopsOnce(cfg, r.states[i - 1], r.steps[i - 1]);
      StepAcceptsOnce(cfg, r.states[i - 1], r.steps[i - 1]);
    }
  }

  // ---------- the theorems ----------

  predicate AwaitsRun(w: Worker) {
    w.Loaded? || w.Running?
  }

  lemma UnrunHolds(workers: seq<Worker>, w: nat, which: Which)
    requires w < |workers| && AwaitsRun(workers[w])
    ensures Unrun(workers, which) >= Jobs(workers[w].batch, which)
  {
    BatchIsCounted(BeforeRuns(workers), w, which);
  }

  /** At every moment each accepted job is queued, in one batch still to be run, or in one run: exactly once in all. */
  lemma EveryJobRunsOnce(cfg: Config, initial: Session, r: Trace, i: nat, t: nat)
    requires IsTrace(cfg, initial, r) && i < |r.states|
    ensures var s := r.states[i];
      Jobs(s.history.accepted, Only(t))
        == Jobs(s.queue, Only(t)) + Unrun(s.workers, Only(t)) + Ran(s.history.runs, Only(t)) <= 1
  {
    TraceRunsOnce(cfg, initial, r, i);
    TraceStaysInOrder(cfg, initial, r, i);
    var s := r.states[i];
    JobsSplit(Flat(s.history.takes), s.queue, Only(t));
    hide Jobs, Unrun, Ran, Flat, IsTrace;
    assert Jobs(Flat(s.history.takes), Only(t)) == Unrun(s.workers, Only(t)) + Ran(s.history.runs, Only(t));
  }

  /** No batch is run twice and no two runs share a job: a job of a completed run is in no other run, not twice in its
      own, not in the queue, and in no batch a worker still has to run. */
  lemma RunsShareNothing(cfg: Config, initial: Session, r: Trace, i: nat, k: nat, p: nat)
    requires IsTrace(cfg, initial, r) && i < |r.states|
    requires k < |r.states[i].history.runs| && p < |r.states[i].history.runs[k].jobs|
    ensures var s := r.states[i]; var runs, t := s.history.runs, s.history.runs[k].jobs[p].token;
      && (forall l, q :: 0 <= l < |runs| && 0 <= q < |runs[l].jobs| && runs[l].jobs[q].token == t ==> l == k && q == p)
      && (forall q :: 0 <= q < |s.queue| ==> s.queue[q].token != t)
      && (forall w, q | 0 <= w < |s.workers| && AwaitsRun(s.workers[w]) && 0 <= q < |s.workers[w].batch| ::
          s.workers[w].batch[q].token != t)
  {
    var s := r.states[i];
    var runs, t := s.history.runs, s.history.runs[k].jobs[p].token;
    EveryJobRunsOnce(cfg, initial, r, i, t);
    hide IsTrace, Jobs, Unrun, Ran;
    JobIsCounted(runs[k].jobs, p);
    RunIsCounted(runs, k, Only(t));
    forall l, q | 0 <= l < |runs| && 0 <= q < |runs[l].jobs| && runs[l].jobs[q].token == t
      ensures l == k && q == p
    {
      JobIsCounted(runs[l].jobs, q);
      RunIsCounted(runs, l, Only(t));
    }
    forall q | 0 <= q < |s.queue|
      ensures s.queue[q].token != t
    {
      JobIsCounted(s.queue, q);
    }
    forall w, q | 0 <= w < |s.workers| && AwaitsRun(s.workers[w]) && 0 <= q < |s.workers[w].batch|
      ensures s.workers[w].batch[q].token != t
    {
      JobIsCounted(s.workers[w].batch, q);
      UnrunHolds(s.workers, w, Only(t));
    }
  }
}
