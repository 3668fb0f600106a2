/** The server and the pipeline run together to the end: no call object is stuck or leaked behind the pipeline. */
module JointDrain {
  import opened Types
  import opened Fallback
  import opened Serving
  import opened ServingDrain
  import opened ServingFrames
  import opened ServingTally
  import opened ServingQueue
  import opened JointServing
  import A = AsyncServers
  import D = AsyncDrain

  // ---------- every step of the server's side does some of its work ----------

  /** A step of the server's for a call in hand. */
  predicate TakesAServerStep(step: JointServing.Step) {
    step.HandOver? || step.Done? || (step.Transport? && D.IsOwn(step.move))
  }

  function BringsToServer(step: JointServing.Step): nat {
    if step.Transport? then D.Brings(step.move) else 0
  }

  lemma JointStepWorks(cfg: Config, j: Joint, step: JointServing.Step)
    requires Joined(j) && Tallied(j.system) && JointServing.Enabled(cfg, j, step)
    ensures D.Work(JointServing.Next(cfg, j, step).server) + (if TakesAServerStep(step) then 1 else 0)
      <= D.Work(j.server) + BringsToServer(step)
  {
    assert A.Owned(j.server);
    hide Joined, Tallied, D.Work, A.Next, A.Enabled, A.Owned, Serving.Next, Serving.Enabled, ReplyOf;
    match step {
      case Transport(x) => D.StepWorks(j.server, x);
      case HandOver(c, _) => D.StepWorks(j.server, A.Handle(c));
      case Pipeline(_) =>
      case Done(x) =>
        DoneReachesItsCall(cfg, j, x);
        var r := ReplyOf(cfg, j.system, x);
        D.StepWorks(j.server, A.FireDone(j.tagOf[r.token], IsShed(r)));
    }
  }

  function ServerSteps(steps: seq<JointServing.Step>): nat {
    if steps == [] then 0
    else ServerSteps(steps[..|steps| - 1]) + if TakesAServerStep(steps[|steps| - 1]) then 1 else 0
  }

  function BroughtToServer(steps: seq<JointServing.Step>): nat {
    if steps == [] then 0 else BroughtToServer(steps[..|steps| - 1]) + BringsToServer(steps[|steps| - 1])
  }

  lemma JointStepsOf(cfg: Config, cqCount: int, initial: Session, r: JointServing.Trace)
    requires JointServing.IsTrace(cfg, cqCount, initial, r)
    ensures |r.states| == |r.steps| + 1
    ensures forall i :: 0 <= i < |r.steps| ==>
      JointServing.Enabled(cfg, r.states[i], r.steps[i])
      && r.states[i + 1] == JointServing.Next(cfg, r.states[i], r.steps[i])
  {
    hide JointServing.Next, JointServing.Enabled, A.Started;
  }

  /** Whatever the pipeline does in between, the calls take no more steps than the work there was, plus ten for every
      RPC that arrived and two for every acceptor cancelled. */
  lemma {:induction false} CallsTakeBoundedSteps(cfg: Config, cqCount: int, initial: Session, r: JointServing.Trace,
      i: nat, j: nat)
    requires JointServing.IsTrace(cfg, cqCount, initial, r) && i <= j < |r.states|
    ensures ServerSteps(r.steps[i..j]) + D.Work(r.states[j].server)
      <= D.Work(r.states[i].server) + BroughtToServer(r.steps[i..j])
  {
    hide JointServing.Next, JointServing.Enabled, Joined, Tallied, D.Work, TakesAServerStep, BringsToServer;
    hide JointServing.IsTrace;
    JointStepsOf(cfg, cqCount, initial, r);
    if i < j {
      CallsTakeBoundedSteps(cfg, cqCount, initial, r, i, j - 1);
      TraceStaysJoined(cfg, cqCount, initial, r, j - 1);
      JointStepWorks(cfg, r.states[j - 1], r.steps[j - 1]);
      assert r.steps[i..j][..j - i - 1] == r.steps[i..j - 1];
    }
  }

  // ---------- drained ----------

  /** The unanswered arrival of a call the pipeline holds. */
  lemma WaitingIsABid(j: Joint, t: nat) returns (k: nat)
    requires Joined(j) && t in j.server.inPipeline
    ensures IsBid(j.server, t) && A.Observations(j.server.log, t) == 0
    ensures k < |j.tagOf| == |j.system.arrivals| && j.tagOf[k] == t && Answered(j.system.replies, Only(k)) == 0
  {
    assert A.OwnersLive(j.server) && A.PipelineTakesBids(j.server) && A.Booked(j.server, t);
    hide A.Owned, A.Observations, A.Posts, A.Frees, Answered;
    assert IsBid(j.server, t);
    k :| 0 <= k < |j.tagOf| && j.tagOf[k] == t;
    assert Answered(j.system.replies, Only(k)) == 0;
  }

  /** Once the stop that waits has returned and no caller is left inside `process`, the pipeline holds no call. When the
      server has come to rest as well, only acceptors registered with the transport are left, and every call ever taken
      up was posted once, freed once, and observed once if it was a bid. */
  lemma DrainedMeansFreed(cfg: Config, cqCount: int, initial: Session, r: JointServing.Trace, i: nat, t: nat)
    requires JointServing.IsTrace(cfg, cqCount, initial, r) && i < |r.states|
    requires r.states[i].system.stopper == Returned && r.states[i].system.callers == map[]
    ensures var s := r.states[i].server;
      && s.inPipeline == {}
      && (D.Quiet(s) ==> s.calls.Keys == s.armed && (t in s.accepted ==> D.Finished(s, t)))
  {
    hide JointServing.IsTrace, A.Owned, A.KindsKept, A.AcceptedOnce, A.Booked, D.Quiet, D.Finished;
    var j := r.states[i];
    TraceStaysJoined(cfg, cqCount, initial, r, i);
    if u :| u in j.server.inPipeline {
      var k := WaitingIsABid(j, u);
      DrainedMeansPosted(cfg, cqCount, initial, r, i, u);
      assert false;
    }
    assert ServerSound(j.server);
    if D.Quiet(j.server) {
      D.OnlyAcceptorsRest(j.server);
      if t in j.server.accepted {
        D.RestingIsFinished(j.server, t);
      }
    }
  }

  // ---------- never stuck ----------

  /** A step that takes a request further: on its caller's thread, by waking a worker for the queue, by popping a
      batch, or by a worker that holds one. */
  predicate TakesFurther(s: System, x: Serving.Step) {
    (IsCallerStep(x) && !x.Arrive?) || (s.queue != [] && x.NotifyOne?)
      || (IsOwnStep(x) && (x.TestQueue? ==> s.queue != []))
  }

  /** A step that takes a call or a request further; not a new RPC, a cancelled acceptor, a clock tick, a reload or a
      wake-up for nothing. */
  predicate MovesOn(j: Joint, step: JointServing.Step) {
    TakesAServerStep(step) || (step.Pipeline? && TakesFurther(j.system, step.step))
  }

  lemma {:induction false} BatchHasAHolder(workers: seq<Worker>, which: Which) returns (w: nat)
    requires InBatches(workers, which) > 0
    ensures w < |workers| && IsBusy(workers[w]) && workers[w] != Awake
  {
    w := |workers| - 1;
    if Jobs(Held(workers[w]), which) == 0 {
      w := BatchHasAHolder(workers[..w], which);
    }
  }

  /** The step a thread inside `process` takes next. */
  function CallersStep(c: Caller, t: nat): Serving.Step {
    match c
    case AtCache => LookUp(t)
    case AtBreaker => AskBreaker(t)
    case AtSubmit => Submit(t)
    case AtDone(_) => CallDone(t)
  }

  lemma HolderCanStep(cfg: Config, s: System, w: nat)
    requires Alert(cfg, s) && w < |s.workers| && IsBusy(s.workers[w])
    ensures var x := OwnStep(s.workers[w], w, false);
      Serving.Enabled(cfg, s, x) && IsOwnStep(x) && (x.TestQueue? ==> s.workers[w] == Awake)
  {
    assert WellFormed(s.workers[w]);
  }

  lemma QueueCanMove(cfg: Config, s: System) returns (x: Serving.Step)
    requires Alert(cfg, s) && s.queue != []
    ensures Serving.Enabled(cfg, s, x) && TakesFurther(s, x)
  {
    if w :| 0 <= w < |s.workers| && IsBusy(s.workers[w]) {
      HolderCanStep(cfg, s, w);
      x := OwnStep(s.workers[w], w, false);
    } else {
      // nobody is busy or has exited: everyone waits, and a submitter owes its notify
      assert s.workers[0] == Waiting;
      x := NotifyOne(Some(0));
    }
  }

  /** While a request is unanswered, a thread of the pipeline can take one further. */
  lemma PipelineCanMove(cfg: Config, s: System, k: nat) returns (x: Serving.Step)
    requires Tallied(s) && Alert(cfg, s) && k < |s.arrivals| && Answered(s.replies, Only(k)) == 0
    ensures Serving.Enabled(cfg, s, x) && TakesFurther(s, x)
  {
    assert Everywhere(s, Only(k)) == Arrived(s, Only(k));
    hide Tallied, Alert, Answered, InBatches;
    if k in s.callers {
      x := CallersStep(s.callers[k], k);
    } else if InBatches(s.workers, Only(k)) > 0 {
      var w := BatchHasAHolder(s.workers, Only(k));
      HolderCanStep(cfg, s, w);
      x := OwnStep(s.workers[w], w, false);
    } else {
      x := QueueCanMove(cfg, s);
    }
  }

  lemma WaitingCanMove(cfg: Config, j: Joint, t: nat) returns (step: JointServing.Step)
    requires Joined(j) && Tallied(j.system) && Alert(cfg, j.system) && t in j.server.inPipeline
    ensures JointServing.Enabled(cfg, j, step) && MovesOn(j, step)
  {
    var k := WaitingIsABid(j, t);
    hide Joined, Tallied, Alert, Answered, Serving.Enabled;
    var x := PipelineCanMove(cfg, j.system, k);
    step := if AnswersSomeone(x) then Done(x) else Pipeline(x);
  }

  lemma FiringNeedsACall(s: A.Server, x: A.Step)
    requires A.Enabled(s, x) && x.FireDone?
    ensures x.tag in s.inPipeline
  {
  }

  lemma JoinedIsOwned(j: Joint)
    requires Joined(j)
    ensures A.Owned(j.server)
  {
  }

  /** In every reachable joint state that is not at rest some call or request can be taken further, without any new
      RPC: a call waiting for the pipeline is never forgotten by it. */
  lemma NoCallIsStuck(cfg: Config, cqCount: int, initial: Session, r: JointServing.Trace, i: nat)
      returns (step: JointServing.Step)
    requires JointServing.IsTrace(cfg, cqCount, initial, r) && i < |r.states| && !D.Quiet(r.states[i].server)
    ensures JointServing.Enabled(cfg, r.states[i], step) && MovesOn(r.states[i], step)
  {
    hide JointServing.IsTrace, Serving.IsTrace, Joined, Tallied, A.Owned, A.Enabled, Serving.Enabled, Alert, D.Quiet;
    var j := r.states[i];
    JointStepsOf(cfg, cqCount, initial, r);
    TraceStaysJoined(cfg, cqCount, initial, r, i);
    PipelineSideIsATrace(cfg, cqCount, initial, r);
    TraceStaysAlert(cfg, initial, PipelineSide(r), i);
    JoinedIsOwned(j);
    var x := D.RestOrStep(j.server);
    if x.FireDone? {
      FiringNeedsACall(j.server, x);
      step := WaitingCanMove(cfg, j, x.tag);
    } else if x.Handle? && HandsABidOver(j.server, x.cq) {
      step := HandOver(x.cq, Request("", "", 0.0, []));
    } else {
      step := Transport(x);
    }
  }
}
