/** What each kind of step of the serving path leaves alone. */
module ServingFrames {
  import opened MicroBatchers
  import opened Serving
  import CB = CircuitBreakers
  import DC = DedupCaches

  predicate IsCallerStep(step: Step) {
    step.Arrive? || step.LookUp? || step.AskBreaker? || step.Submit? || step.CallDone?
  }

  predicate AnswersSomeone(step: Step) {
    step.CallDone? || step.FireDone?
  }

  predicate IsCallbackStep(step: Step) {
    step.RecordResult? || step.PutDecision? || step.FireDone?
  }

  /** A step that can change some worker's state. */
  predicate IsWorkerStep(step: Step) {
    || step.NotifyOne? || step.WakeSpuriously? || step.NotifyAll?
    || step.TestQueue? || step.CopySession? || step.FinishRun? || IsCallbackStep(step)
  }

  ghost predicate CallersOnlyMoveBy(s: System, n: System, step: Step) {
    && (if step.Arrive? then n.arrivals == s.arrivals + [step.request] else n.arrivals == s.arrivals)
    && (!IsCallerStep(step) ==> n.callers == s.callers)
    && (!AnswersSomeone(step) ==> n.replies == s.replies)
    && (!step.Submit? ==> n.history.accepted == s.history.accepted)
    && (!step.LookUp? ==> n.history.lookedUp == s.history.lookedUp)
    && (!step.AskBreaker? ==> n.history.asked == s.history.asked)
  }

  ghost predicate LogsOnlyMoveBy(s: System, n: System, step: Step) {
    && s.now <= n.now && (!step.Tick? ==> n.now == s.now)
    && (!step.LookUp? && !step.PutDecision? ==> n.cache == s.cache && n.history.cacheCalls == s.history.cacheCalls)
    && (!step.AskBreaker? && !step.RecordResult? ==>
        n.breaker == s.breaker && n.history.breakerCalls == s.history.breakerCalls)
    && (!step.RecordResult? ==> n.history.reported == s.history.reported)
    && (!step.PutDecision? ==> n.history.stored == s.history.stored)
  }

  lemma CallerStepsLeaveAlone(cfg: Config, s: System, step: Step)
    requires Enabled(cfg, s, step) && IsCallerStep(step)
    ensures CallersOnlyMoveBy(s, Next(cfg, s, step), step) && LogsOnlyMoveBy(s, Next(cfg, s, step), step)
  {
    hide FallbackFor, JobFor, Admits, DC.AfterGet, DC.Lookup, CB.Admits, CB.AfterAsk;
  }

  lemma WorkerStepsLeaveAlone(cfg: Config, s: System, step: Step)
    requires Enabled(cfg, s, step) && IsWorkerStep(step) && !IsCallbackStep(step)
    ensures CallersOnlyMoveBy(s, Next(cfg, s, step), step) && LogsOnlyMoveBy(s, Next(cfg, s, step), step)
  {
    hide Rows, TakeCount, AllAwake;
  }

  lemma CallbackStepsLeaveAlone(cfg: Config, s: System, step: Step)
    requires Enabled(cfg, s, step) && IsCallbackStep(step)
    ensures CallersOnlyMoveBy(s, Next(cfg, s, step), step) && LogsOnlyMoveBy(s, Next(cfg, s, step), step)
  {
    hide CallbackAnswer, DC.AfterPut, CB.AfterFailure, CB.AfterSuccess;
  }

  lemma OtherStepsLeaveAlone(cfg: Config, s: System, step: Step)
    requires Enabled(cfg, s, step) && !IsCallerStep(step) && !IsWorkerStep(step)
    ensures CallersOnlyMoveBy(s, Next(cfg, s, step), step) && LogsOnlyMoveBy(s, Next(cfg, s, step), step)
  {
  }

  lemma CallersLeftAlone(cfg: Config, s: System, step: Step)
    requires Enabled(cfg, s, step)
    ensures CallersOnlyMoveBy(s, Next(cfg, s, step), step)
    ensures LogsOnlyMoveBy(s, Next(cfg, s, step), step)
  {
    hide Next, Enabled, CallersOnlyMoveBy, LogsOnlyMoveBy;
    if IsCallerStep(step) {
      CallerStepsLeaveAlone(cfg, s, step);
    } else if IsCallbackStep(step) {
      CallbackStepsLeaveAlone(cfg, s, step);
    } else if IsWorkerStep(step) {
      WorkerStepsLeaveAlone(cfg, s, step);
    } else {
      OtherStepsLeaveAlone(cfg, s, step);
    }
  }

  ghost predicate BatchesOnlyMoveBy(s: System, n: System, step: Step) {
    && (!step.TestQueue? ==> n.history.takes == s.history.takes)
    && (!step.TestQueue? && !step.Submit? ==> n.queue == s.queue)
    && (!step.FinishRun? ==> n.history.runs == s.history.runs)
    && (!step.SwapModel? ==> n.history.sessions == s.history.sessions && n.session == s.session)
    && (!step.SwapModel? && !step.PublishVersion? ==> n.unpublished == s.unpublished && n.version == s.version)
  }

  lemma CallersMoveNoBatch(cfg: Config, s: System, step: Step)
    requires Enabled(cfg, s, step) && IsCallerStep(step)
    ensures BatchesOnlyMoveBy(s, Next(cfg, s, step), step)
  {
    hide FallbackFor, JobFor, DC.AfterGet, DC.Lookup, CB.Admits, CB.AfterAsk;
  }

  lemma CallbacksMoveNoBatch(cfg: Config, s: System, step: Step)
    requires Enabled(cfg, s, step) && IsCallbackStep(step)
    ensures BatchesOnlyMoveBy(s, Next(cfg, s, step), step)
  {
    hide CallbackAnswer, DC.AfterPut, CB.AfterFailure, CB.AfterSuccess;
  }

  lemma WorkersMoveTheirBatch(cfg: Config, s: System, step: Step)
    requires Enabled(cfg, s, step) && !IsCallerStep(step) && !IsCallbackStep(step)
    ensures BatchesOnlyMoveBy(s, Next(cfg, s, step), step)
  {
    hide Rows, TakeCount, AllAwake;
  }

  lemma BatchesLeftAlone(cfg: Config, s: System, step: Step)
    requires Enabled(cfg, s, step)
    ensures BatchesOnlyMoveBy(s, Next(cfg, s, step), step)
  {
    hide Next, Enabled, BatchesOnlyMoveBy;
    if IsCallerStep(step) {
      CallersMoveNoBatch(cfg, s, step);
    } else if IsCallbackStep(step) {
      CallbacksMoveNoBatch(cfg, s, step);
    } else {
      WorkersMoveTheirBatch(cfg, s, step);
    }
  }

  lemma WorkersLeftAlone(cfg: Config, s: System, step: Step)
    requires Enabled(cfg, s, step)
    ensures var n := Next(cfg, s, step);
      && (!IsWorkerStep(step) ==> n.workers == s.workers)
      && (!step.Submit? && !step.NotifyOne? ==> n.owedNotifies == s.owedNotifies)
      && (step.Submit? ==> n.owedNotifies >= s.owedNotifies && (n.queue == s.queue || n.owedNotifies > 0))
      && (!step.CallStop? && !step.NotifyAll? && !step.JoinWorkers? ==> n.stopper == s.stopper)
  {
    hide CallbackAnswer, FallbackFor, JobFor, Rows, TakeCount, AllAwake, DC.AfterGet, DC.AfterPut, DC.Lookup;
    hide CB.Admits, CB.AfterAsk, CB.AfterFailure, CB.AfterSuccess;
  }
}
