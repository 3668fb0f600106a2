/** Every arrival is in exactly one place: with its caller, queued, in a batch, or answered. */
module ServingTally {
  import opened Types
  import opened MicroBatchers
  import opened Serving

  /** Counting every token, or the occurrences of one. */
  datatype Which = All | Only(token: nat)

  function Counts(which: Which, token: nat): nat {
    if which == All || which == Only(token) then 1 else 0
  }

  function Jobs(jobs: seq<Job>, which: Which): nat {
    if jobs == [] then 0 else Jobs(jobs[..|jobs| - 1], which) + Counts(which, jobs[|jobs| - 1].token)
  }

  function Answered(replies: seq<Reply>, which: Which): nat {
    if replies == [] then 0 else Answered(replies[..|replies| - 1], which) + Counts(which, replies[|replies| - 1].token)
  }

  function InProcess(callers: map<nat, Caller>, which: Which): nat {
    match which
    case All => |callers|
    case Only(t) => if t in callers then 1 else 0
  }

  /** The jobs a worker has popped and not yet answered. */
  function Held(w: Worker): seq<Job> {
    match w
    case Loaded(batch) => batch
    case Running(batch, _) => batch
    case Delivering(batch, _, next, _) => if next <= |batch| then batch[next..] else []
    case _ => []
  }

  function InBatches(workers: seq<Worker>, which: Which): nat {
    if workers == [] then 0
    else InBatches(workers[..|workers| - 1], which) + Jobs(Held(workers[|workers| - 1]), which)
  }

  function Everywhere(s: System, which: Which): nat {
    InProcess(s.callers, which) + Jobs(s.queue, which) + InBatches(s.workers, which) + Answered(s.replies, which)
  }

  /** How many times a token, or all tokens together, ought to be found. */
  function Arrived(s: System, which: Which): nat {
    match which
    case All => |s.arrivals|
    case Only(t) => if t < |s.arrivals| then 1 else 0
  }

  ghost predicate Tallied(s: System) {
    && (forall which :: Everywhere(s, which) == Arrived(s, which))
    && (forall t :: t in s.callers ==> t < |s.arrivals|)
  }

  // ---------- counting ----------

  lemma {:induction false} JobsSplit(a: seq<Job>, b: seq<Job>, which: Which)
    ensures Jobs(a + b, which) == Jobs(a, which) + Jobs(b, which)
  {
    if b == [] {
      assert a + b == a;
    } else {
      assert (a + b)[..|a + b| - 1] == a + b[..|b| - 1];
      JobsSplit(a, b[..|b| - 1], which);
    }
  }

  lemma OneJob(job: Job, which: Which)
    ensures Jobs([job], which) == Counts(which, job.token)
  {
    assert [job][..0] == [];
  }

  lemma OneMoreAnswered(replies: seq<Reply>, r: Reply, which: Which)
    ensures Answered(replies + [r], which) == Answered(replies, which) + Counts(which, r.token)
  {
    assert (replies + [r])[..|replies|] == replies;
  }

  lemma {:induction false} BatchesAfter(workers: seq<Worker>, w: nat, x: Worker, which: Which)
    requires w < |workers|
    ensures InBatches(workers[w := x], which)
      == InBatches(workers, which) - Jobs(Held(workers[w]), which) + Jobs(Held(x), which)
  {
    var last := |workers| - 1;
    if w == last {
      assert workers[w := x][..last] == workers[..last];
    } else {
      assert workers[w := x][..last] == workers[..last][w := x];
      BatchesAfter(workers[..last], w, x, which);
    }
  }

  lemma {:induction false} WakingHoldsNothing(workers: seq<Worker>, which: Which)
    ensures InBatches(AllAwake(workers), which) == InBatches(workers, which)
  {
    if workers != [] {
      var last := |workers| - 1;
      assert AllAwake(workers)[..last] == AllAwake(workers[..last]);
      WakingHoldsNothing(workers[..last], which);
      assert Held(AllAwake(workers)[last]) == Held(workers[last]);
    }
  }

  lemma CallerLeaves(callers: map<nat, Caller>, t: nat, which: Which)
    requires t in callers
    ensures InProcess(callers - {t}, which) == InProcess(callers, which) - Counts(which, t)
  {
    assert (callers - {t}).Keys == callers.Keys - {t};
  }

  lemma CallerMoves(callers: map<nat, Caller>, t: nat, c: Caller, which: Which)
    ensures InProcess(callers[t := c], which)
      == InProcess(callers, which) + if t in callers then 0 else Counts(which, t)
  {
    assert callers[t := c].Keys == callers.Keys + {t};
  }

  // ---------- every step moves what it takes ----------

  lemma ProcessMoves(cfg: Config, s: System, step: Step, which: Which)
    requires Enabled(cfg, s, step)
    requires forall t :: t in s.callers ==> t < |s.arrivals|
    requires step.Arrive? || step.LookUp? || step.AskBreaker? || step.Submit? || step.CallDone?
    ensures Everywhere(Next(cfg, s, step), which)
      == Everywhere(s, which) + if step.Arrive? then Counts(which, |s.arrivals|) else 0
  {
    hide Jobs, InBatches, Answered, InProcess, Counts;
    var n := Next(cfg, s, step);
    match step {
      case Arrive(_) => CallerMoves(s.callers, |s.arrivals|, AtCache, which);
      case LookUp(t) => CallerMoves(s.callers, t, n.callers[t], which);
      case AskBreaker(t) => CallerMoves(s.callers, t, n.callers[t], which);
      case Submit(t) =>
        if Admits(s.queue, Stopping(s), cfg.queueMax) {
          CallerLeaves(s.callers, t, which);
          JobsSplit(s.queue, [JobFor(cfg, s, t)], which);
          OneJob(JobFor(cfg, s, t), which);
        } else {
          CallerMoves(s.callers, t, n.callers[t], which);
        }
      case CallDone(t) =>
        CallerLeaves(s.callers, t, which);
        OneMoreAnswered(s.replies, Reply(t, s.callers[t].answer), which);
    }
  }

  lemma TakingMoves(cfg: Config, s: System, w: nat, which: Which)
    requires w < |s.workers| && s.workers[w] == Awake
    ensures Everywhere(AfterTest(cfg, s, w), which) == Everywhere(s, which)
  {
    hide InBatches, Answered, InProcess, Counts, TakeCount, Jobs;
    var n := AfterTest(cfg, s, w);
    BatchesAfter(s.workers, w, n.workers[w], which);
    assert n.workers == s.workers[w := n.workers[w]];
    NothingHeld(which);
    var k := TakeCount(s.queue, cfg.batchMax);
    assert s.queue == s.queue[..k] + s.queue[k..];
    JobsSplit(s.queue[..k], s.queue[k..], which);
  }

  lemma NothingHeld(which: Which)
    ensures Jobs([], which) == 0
  {
  }

  lemma WorkerMoves(cfg: Config, s: System, step: Step, which: Which)
    requires Enabled(cfg, s, step)
    requires step.NotifyOne? || step.WakeSpuriously? || step.TestQueue? || step.CopySession? || step.FinishRun?
      || step.NotifyAll?
    ensures Everywhere(Next(cfg, s, step), which) == Everywhere(s, which)
  {
    hide Jobs, InBatches, Answered, InProcess, Counts;
    var n := Next(cfg, s, step);
    match step {
      case NotifyOne(target) =>
        if target.Some? {
          BatchesAfter(s.workers, target.value, Awake, which);
        }
      case WakeSpuriously(w) => BatchesAfter(s.workers, w, Awake, which);
      case TestQueue(w) => TakingMoves(cfg, s, w, which);
      case CopySession(w) =>
        BatchesAfter(s.workers, w, Running(s.workers[w].batch, s.session), which);
      case FinishRun(w, throws) =>
        BatchesAfter(s.workers, w, n.workers[w], which);
        assert n.workers == s.workers[w := n.workers[w]];
        assert Held(n.workers[w]) == Held(s.workers[w]);
      case NotifyAll => WakingHoldsNothing(s.workers, which);
    }
  }

  lemma AnsweringMoves(cfg: Config, s: System, w: nat, which: Which)
    requires AtStage(s, w, AtReply)
    ensures Everywhere(AfterFireDone(cfg, s, w), which) == Everywhere(s, which)
  {
    hide Jobs, InBatches, Answered, InProcess, Counts;
    var me, n := s.workers[w], AfterFireDone(cfg, s, w);
    var job, rest := me.batch[me.next], me.batch[me.next + 1..];
    BatchesAfter(s.workers, w, n.workers[w], which);
    assert Held(me) == [job] + rest && Held(n.workers[w]) == rest;
    JobsSplit([job], rest, which);
    OneJob(job, which);
    OneMoreAnswered(s.replies, Reply(job.token, CallbackAnswer(cfg, me)), which);
  }

  lemma CallbackMoves(cfg: Config, s: System, step: Step, which: Which)
    requires Enabled(cfg, s, step)
    requires step.RecordResult? || step.PutDecision? || step.FireDone?
    ensures Everywhere(Next(cfg, s, step), which) == Everywhere(s, which)
  {
    hide Jobs, InBatches, Answered, InProcess, Counts;
    var w := step.worker;
    match step {
      case RecordResult(_) => BatchesAfter(s.workers, w, AfterRecordResult(cfg, s, w).workers[w], which);
      case PutDecision(_) => BatchesAfter(s.workers, w, AfterPutDecision(cfg, s, w).workers[w], which);
      case FireDone(_) => AnsweringMoves(cfg, s, w, which);
    }
  }

  lemma StepStaysTallied(cfg: Config, s: System, step: Step)
    requires Tallied(s) && Enabled(cfg, s, step)
    ensures Tallied(Next(cfg, s, step))
  {
    hide Jobs, InBatches, Answered, InProcess;
    var n := Next(cfg, s, step);
    forall which
      ensures Everywhere(n, which) == Arrived(n, which)
    {
      assert Everywhere(s, which) == Arrived(s, which);
      if step.Arrive? || step.LookUp? || step.AskBreaker? || step.Submit? || step.CallDone? {
        ProcessMoves(cfg, s, step, which);
      } else if step.NotifyOne? || step.WakeSpuriously? || step.TestQueue? || step.CopySession? || step.FinishRun?
        || step.NotifyAll? {
        WorkerMoves(cfg, s, step, which);
      } else if step.RecordResult? || step.PutDecision? || step.FireDone? {
        CallbackMoves(cfg, s, step, which);
      }
    }
  }

  lemma {:induction false} NobodyHoldsAtStart(n: nat, which: Which)
    ensures InBatches(seq(n, _ => Awake), which) == 0
  {
    if n > 0 {
      assert seq(n, _ => Awake)[..n - 1] == seq(n - 1, _ => Awake);
      NobodyHoldsAtStart(n - 1, which);
    }
  }

  lemma StartsTallied(cfg: Config, initial: Session)
    ensures Tallied(Initial(cfg, initial))
  {
    var s := Initial(cfg, initial);
    forall which
      ensures Everywhere(s, which) == Arrived(s, which)
    {
      NobodyHoldsAtStart(Max(1, cfg.workers), which);
    }
  }

  lemma {:induction false} TraceStaysTallied(cfg: Config, initial: Session, r: Trace, i: nat)
    requires IsTrace(cfg, initial, r) && i < |r.states|
    ensures Tallied(r.states[i])
  {
    if i == 0 {
      StartsTallied(cfg, initial);
    } else {
      TraceStaysTallied(cfg, initial, r, i - 1);
      StepStaysTallied(cfg, r.states[i - 1], r.steps[i - 1]);
    }
  }

  // ---------- the theorems ----------

  function WithStatus(replies: seq<Reply>, status: Status): nat {
    if replies == [] then 0
    else WithStatus(replies[..|replies| - 1], status) + if replies[|replies| - 1].answer.status == status then 1 else 0
  }

  lemma {:induction false} EveryReplyHasOneStatus(replies: seq<Reply>)
    ensures Answered(replies, All) == |replies|
    ensures |replies| == WithStatus(replies, Ok) + WithStatus(replies, CacheHit) + WithStatus(replies, FallbackOpen)
                       + WithStatus(replies, FallbackError) + WithStatus(replies, ResourceExhausted)
  {
    if replies != [] {
      EveryReplyHasOneStatus(replies[..|replies| - 1]);
    }
  }

  lemma {:induction false} JobsAreAllCounted(jobs: seq<Job>)
    ensures Jobs(jobs, All) == |jobs|
  {
    if jobs != [] {
      JobsAreAllCounted(jobs[..|jobs| - 1]);
    }
  }

  /** In every interleaving, at every moment: requests received are those answered, by status, plus those
      still inside `process`, queued, or popped into a batch and not yet answered. */
  lemma RequestsAreConserved(cfg: Config, initial: Session, r: Trace, i: nat)
    requires IsTrace(cfg, initial, r) && i < |r.states|
    ensures var s := r.states[i];
      |s.arrivals| == WithStatus(s.replies, Ok) + WithStatus(s.replies, CacheHit) + WithStatus(s.replies, FallbackOpen)
                    + WithStatus(s.replies, FallbackError) + WithStatus(s.replies, ResourceExhausted)
                    + |s.callers| + |s.queue| + InBatches(s.workers, All)
  {
    var s := r.states[i];
    TraceStaysTallied(cfg, initial, r, i);
    assert Everywhere(s, All) == Arrived(s, All);
    JobsAreAllCounted(s.queue);
    EveryReplyHasOneStatus(s.replies);
  }

  /** Each request is answered at most once, and only after it arrived; it is answered exactly once when
      it is no longer inside `process`, queued or in a batch. */
  lemma AnsweredExactlyOnce(cfg: Config, initial: Session, r: Trace, i: nat, t: nat)
    requires IsTrace(cfg, initial, r) && i < |r.states|
    ensures var s := r.states[i];
      && Answered(s.replies, Only(t)) <= 1
      && (t >= |s.arrivals| ==> Answered(s.replies, Only(t)) == 0)
      && (t < |s.arrivals| ==>
          (Answered(s.replies, Only(t)) == 1 <==>
            t !in s.callers && Jobs(s.queue, Only(t)) == 0 && InBatches(s.workers, Only(t)) == 0))
  {
    var s := r.states[i];
    TraceStaysTallied(cfg, initial, r, i);
    assert Everywhere(s, Only(t)) == Arrived(s, Only(t));
  }
}
