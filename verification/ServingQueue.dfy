/** The queue in every interleaving: bounded, first in first out, never stranded, drained on stop. */
module ServingQueue {
  import opened Types
  import opened MicroBatchers
  import opened Serving
  import opened ServingFrames

  function Flat(takes: seq<seq<Job>>): seq<Job> {
    if takes == [] then [] else Flat(takes[..|takes| - 1]) + takes[|takes| - 1]
  }

  /** What has been popped, batch after batch, followed by what waits, is what was accepted. */
  ghost predicate FirstInFirstOut(cfg: Config, s: System) {
    && Flat(s.history.takes) + s.queue == s.history.accepted
    && |s.queue| <= Max(0, cfg.queueMax)
    && (forall i :: 0 <= i < |s.history.takes| ==> 1 <= |s.history.takes[i]| <= cfg.batchMax)
  }

  predicate WellFormed(w: Worker) {
    match w
    case Loaded(batch) => batch != []
    case Running(batch, _) => batch != []
    case Delivering(batch, rows, next, stage) =>
      && next < |batch|
      && (rows.Some? ==> |rows.value| == |batch|)
      && (stage == AtPut ==> rows.Some?)
    case _ => true
  }

  ghost predicate SomeoneBusy(workers: seq<Worker>) {
    exists w :: 0 <= w < |workers| && IsBusy(workers[w])
  }

  ghost predicate NoneIs(workers: seq<Worker>, state: Worker) {
    forall w :: 0 <= w < |workers| ==> workers[w] != state
  }

  /** The condition variable loses no wake-up, and nobody leaves before the work is done. */
  ghost predicate Alert(cfg: Config, s: System) {
    && |s.workers| == Max(1, cfg.workers)
    && (forall w :: 0 <= w < |s.workers| ==> WellFormed(s.workers[w]))
    && (s.queue != [] ==> s.owedNotifies > 0 || SomeoneBusy(s.workers))
    && (!NoneIs(s.workers, Exited) ==> Stopping(s) && s.queue == [])
    && (s.stopper == Joining || s.stopper == Returned ==> NoneIs(s.workers, Waiting))
    && (s.stopper == Returned ==> forall w :: 0 <= w < |s.workers| ==> s.workers[w] == Exited)
  }

  lemma FlatOneMore(takes: seq<seq<Job>>, batch: seq<Job>)
    ensures Flat(takes + [batch]) == Flat(takes) + batch
  {
    assert (takes + [batch])[..|takes|] == takes;
  }

  lemma SubmitStaysInOrder(cfg: Config, s: System, t: nat)
    requires FirstInFirstOut(cfg, s) && Enabled(cfg, s, Submit(t))
    ensures FirstInFirstOut(cfg, Next(cfg, s, Submit(t)))
  {
    hide Flat, JobFor;
  }

  lemma TakingStaysInOrder(cfg: Config, s: System, w: nat)
    requires FirstInFirstOut(cfg, s) && Enabled(cfg, s, TestQueue(w))
    ensures FirstInFirstOut(cfg, Next(cfg, s, TestQueue(w)))
  {
    hide Flat;
    var k := TakeCount(s.queue, cfg.batchMax);
    assert s.queue == s.queue[..k] + s.queue[k..];
    FlatOneMore(s.history.takes, s.queue[..k]);
  }

  lemma StepStaysInOrder(cfg: Config, s: System, step: Step)
    requires FirstInFirstOut(cfg, s) && Enabled(cfg, s, step)
    ensures FirstInFirstOut(cfg, Next(cfg, s, step))
  {
    hide Next, Enabled, Flat;
    if step.Submit? {
      SubmitStaysInOrder(cfg, s, step.token);
    } else if step.TestQueue? {
      TakingStaysInOrder(cfg, s, step.worker);
    } else {
      BatchesLeftAlone(cfg, s, step);
      CallersLeftAlone(cfg, s, step);
    }
  }

  lemma AwakeningKeepsAlert(cfg: Config, s: System, step: Step)
    requires Alert(cfg, s) && Enabled(cfg, s, step)
    requires step.NotifyOne? || step.WakeSpuriously? || step.NotifyAll?
    ensures Alert(cfg, Next(cfg, s, step))
  {
    var n := Next(cfg, s, step);
    if s.queue != [] {
      // someone is not Exited, hence awake once nobody waits
      assert s.workers[0] != Exited;
      if step.NotifyOne? {
        var w := if step.target.Some? then step.target.value else 0;
        assert IsBusy(n.workers[w]);
      } else if step.WakeSpuriously? {
        assert IsBusy(n.workers[step.worker]);
      } else {
        assert IsBusy(n.workers[0]);
      }
    }
  }

  lemma TestKeepsAlert(cfg: Config, s: System, w: nat)
    requires Alert(cfg, s) && Enabled(cfg, s, TestQueue(w))
    ensures Alert(cfg, AfterTest(cfg, s, w))
  {
    var n := AfterTest(cfg, s, w);
    assert forall v :: 0 <= v < |s.workers| && v != w ==> n.workers[v] == s.workers[v];
    if n.queue != [] {
      assert IsBusy(n.workers[w]);
    }
  }

  /** Moving one busy worker on to a busy state. */
  lemma BusyMoveKeepsAlert(cfg: Config, s: System, n: System, w: nat)
    requires Alert(cfg, s) && w < |s.workers| == |n.workers| && IsBusy(s.workers[w])
    requires n.workers == s.workers[w := n.workers[w]] && IsBusy(n.workers[w]) && WellFormed(n.workers[w])
    requires n.queue == s.queue && n.owedNotifies == s.owedNotifies && n.stopper == s.stopper
    ensures Alert(cfg, n)
  {
    hide WellFormed;
    assert forall v :: 0 <= v < |s.workers| && v != w ==> n.workers[v] == s.workers[v];
    assert IsBusy(n.workers[w]);
  }

  lemma RunKeepsAlert(cfg: Config, s: System, step: Step)
    requires Alert(cfg, s) && Enabled(cfg, s, step) && (step.CopySession? || step.FinishRun?)
    ensures Alert(cfg, Next(cfg, s, step))
  {
    assert WellFormed(s.workers[step.worker]);
    hide Alert;
    BusyMoveKeepsAlert(cfg, s, Next(cfg, s, step), step.worker);
  }

  lemma CallbackKeepsAlert(cfg: Config, s: System, step: Step)
    requires Alert(cfg, s) && Enabled(cfg, s, step)
    requires step.RecordResult? || step.PutDecision? || step.FireDone?
    ensures Alert(cfg, Next(cfg, s, step))
  {
    hide CallbackAnswer, CB.AfterFailure, CB.AfterSuccess, DC.AfterPut;
    assert WellFormed(s.workers[step.worker]);
    hide Alert;
    BusyMoveKeepsAlert(cfg, s, Next(cfg, s, step), step.worker);
  }

  lemma StopKeepsAlert(cfg: Config, s: System, step: Step)
    requires Alert(cfg, s) && Enabled(cfg, s, step) && (step.CallStop? || step.JoinWorkers?)
    ensures Alert(cfg, Next(cfg, s, step))
  {
    hide WellFormed;
  }

  lemma OtherStepsKeepAlert(cfg: Config, s: System, n: System)
    requires Alert(cfg, s) && n.workers == s.workers && n.stopper == s.stopper
    requires n.owedNotifies >= s.owedNotifies && (n.queue == s.queue || n.owedNotifies > 0)
    requires n.queue == s.queue || !Stopping(s)
    ensures Alert(cfg, n)
  {
    hide WellFormed;
  }

  lemma StepStaysAlert(cfg: Config, s: System, step: Step)
    requires Alert(cfg, s) && Enabled(cfg, s, step)
    ensures Alert(cfg, Next(cfg, s, step))
  {
    hide Next, Enabled, Alert;
    match step {
      case NotifyOne(_) => AwakeningKeepsAlert(cfg, s, step);
      case WakeSpuriously(_) => AwakeningKeepsAlert(cfg, s, step);
      case NotifyAll => AwakeningKeepsAlert(cfg, s, step);
      case TestQueue(w) =>
        TestKeepsAlert(cfg, s, w);
        TestIsAfterTest(cfg, s, w);
      case CopySession(_) => RunKeepsAlert(cfg, s, step);
      case FinishRun(_, _) => RunKeepsAlert(cfg, s, step);
      case RecordResult(_) => CallbackKeepsAlert(cfg, s, step);
      case PutDecision(_) => CallbackKeepsAlert(cfg, s, step);
      case FireDone(_) => CallbackKeepsAlert(cfg, s, step);
      case CallStop => StopKeepsAlert(cfg, s, step);
      case JoinWorkers => StopKeepsAlert(cfg, s, step);
      case _ =>
        WorkersLeftAlone(cfg, s, step);
        BatchesLeftAlone(cfg, s, step);
        NoSubmitWhileStopping(cfg, s, step);
        OtherStepsKeepAlert(cfg, s, Next(cfg, s, step));
    }
  }

  lemma TestIsAfterTest(cfg: Config, s: System, w: nat)
    requires Enabled(cfg, s, TestQueue(w))
    ensures w < |s.workers| && Next(cfg, s, TestQueue(w)) == AfterTest(cfg, s, w)
  {
    hide AfterTest;
  }

  lemma NoSubmitWhileStopping(cfg: Config, s: System, step: Step)
    requires Enabled(cfg, s, step)
    ensures step.Submit? && Stopping(s) ==> Next(cfg, s, step).queue == s.queue
  {
    hide JobFor;
  }

  /** Jobs leave in acceptance order, the queue stays within its cap, and every batch has 1 to
      `batchMax` jobs, in every interleaving. */
  lemma {:induction false} TraceStaysInOrder(cfg: Config, initial: Session, r: Trace, i: nat)
    requires IsTrace(cfg, initial, r) && i < |r.states|
    ensures FirstInFirstOut(cfg, r.states[i])
  {
    if i > 0 {
      TraceStaysInOrder(cfg, initial, r, i - 1);
      StepStaysInOrder(cfg, r.states[i - 1], r.steps[i - 1]);
    }
  }

  /** What a worker finds when it tests: with nothing queued it waits, or exits once a stop is called; otherwise it
      takes all that waits, or as much as the cap allows, from the front. */
  lemma TakesWhatWaits(cfg: Config, initial: Session, r: Trace, i: nat)
    requires IsTrace(cfg, initial, r) && i < |r.steps| && r.steps[i].TestQueue?
    ensures |r.states| == |r.steps| + 1
    ensures var s, n, w := r.states[i], r.states[i + 1], r.steps[i].worker;
      && w < |s.workers| == |n.workers|
      && (s.queue == [] ==> n.queue == [] && n.workers[w] == if s.stopper == NotCalled then Waiting else Exited)
      && (s.queue != [] && 1 <= cfg.batchMax ==>
           var k := if |s.queue| <= cfg.batchMax then |s.queue| else cfg.batchMax;
           n.workers[w] == Loaded(s.queue[..k]) && n.queue == s.queue[k..]
           && n.history.takes == s.history.takes + [s.queue[..k]])
      && (s.queue != [] && cfg.batchMax < 1 ==> n == s)
  {
    assert Enabled(cfg, r.states[i], r.steps[i]);
  }

  lemma {:induction false} TraceStaysAlert(cfg: Config, initial: Session, r: Trace, i: nat)
    requires IsTrace(cfg, initial, r) && i < |r.states|
    ensures Alert(cfg, r.states[i])
  {
    if i > 0 {
      TraceStaysAlert(cfg, initial, r, i - 1);
      StepStaysAlert(cfg, r.states[i - 1], r.steps[i - 1]);
    }
  }

  // ---------- progress ----------

  /** The one step a busy worker takes next; a run may end either way. */
  function OwnStep(me: Worker, w: nat, throws: bool): Step
    requires IsBusy(me)
  {
    match me
    case Awake => TestQueue(w)
    case Loaded(_) => CopySession(w)
    case Running(_, _) => FinishRun(w, throws)
    case Delivering(_, _, _, AtResult) => RecordResult(w)
    case Delivering(_, _, _, AtPut) => PutDecision(w)
    case Delivering(_, _, _, AtReply) => FireDone(w)
  }

  ghost predicate CanStep(cfg: Config, s: System, w: nat) {
    && w < |s.workers| && IsBusy(s.workers[w])
    && (forall throws :: Enabled(cfg, s, OwnStep(s.workers[w], w, throws)))
  }

  /** No accepted job is ever stranded: while one is queued, a worker can take a step, unless a submitter
      still owes its notify, and then that notify can be delivered and leaves a worker able to step. */
  lemma NoJobIsStranded(cfg: Config, initial: Session, r: Trace, i: nat)
    requires IsTrace(cfg, initial, r) && i < |r.states|
    requires r.states[i].queue != []
    ensures var s := r.states[i];
      || (exists w :: CanStep(cfg, s, w))
      || (exists w :: Enabled(cfg, s, NotifyOne(Some(w))) && CanStep(cfg, Next(cfg, s, NotifyOne(Some(w))), w))
  {
    var s := r.states[i];
    TraceStaysAlert(cfg, initial, r, i);
    if w :| 0 <= w < |s.workers| && IsBusy(s.workers[w]) {
      assert CanStep(cfg, s, w);
    } else {
      // nobody busy and nobody exited: everyone waits, so the owed notify finds a worker
      assert s.workers[0] == Waiting;
      assert Enabled(cfg, s, NotifyOne(Some(0)));
      assert CanStep(cfg, Next(cfg, s, NotifyOne(Some(0))), 0);
    }
  }
}
