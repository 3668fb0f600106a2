/** What every reply means, in every interleaving: which model run, cache entry or breaker state it came from. */
module ServingMeaning {
  import opened Types
  import opened Fallback
  import opened ModelSessions
  import opened MicroBatchers
  import opened Serving
  import opened ServingFrames
  import opened ServingQueue
  import opened ServingDrain
  import opened ServingRuns
  import opened BidOptimizer
  import CB = CircuitBreakers
  import DC = DedupCaches

  // ---------- the cache and the breaker see one serial history ----------

  ghost predicate CacheLogged(cfg: Config, s: System) {
    var calls := s.history.cacheCalls;
    && DC.IsRun(cfg.cache, calls) && s.cache == DC.After(cfg.cache, calls)
    && (calls != [] ==> calls[|calls| - 1].now <= s.now)
  }

  ghost predicate BreakerLogged(cfg: Config, s: System) {
    var calls := s.history.breakerCalls;
    && CB.IsRun(cfg.breaker, calls) && s.breaker == CB.After(cfg.breaker, calls)
    && (calls != [] ==> calls[|calls| - 1].now <= s.now)
  }

  ghost predicate Logged(cfg: Config, s: System) {
    CacheLogged(cfg, s) && BreakerLogged(cfg, s)
  }

  lemma CacheStepsAreLogged(cfg: Config, s: System, step: Step)
    requires CacheLogged(cfg, s) && Enabled(cfg, s, step) && (step.LookUp? || step.PutDecision?)
    ensures CacheLogged(cfg, Next(cfg, s, step))
  {
    hide DC.IsRun, DC.After, DC.AfterGet, DC.AfterPut, DC.Lookup, CB.IsRun, CB.After, CB.Admits, CB.AfterAsk;
    hide CB.AfterFailure, CB.AfterSuccess, CallbackAnswer, FallbackFor;
    var calls := s.history.cacheCalls;
    if step.LookUp? {
      var id := s.arrivals[step.token].id;
      DC.RunGrows(cfg.cache, calls, DC.Get(s.now, id, DC.Lookup(s.cache, s.now, id)));
      assert DC.Apply(cfg.cache, s.cache, DC.Get(s.now, id, DC.Lookup(s.cache, s.now, id)))
        == AfterLookUp(s, step.token).cache;
    } else {
      var me := s.workers[step.worker];
      var put := DC.Put(s.now, me.batch[me.next].request.id, CallbackAnswer(cfg, me).decision);
      DC.RunGrows(cfg.cache, calls, put);
      assert DC.Apply(cfg.cache, s.cache, put) == AfterPutDecision(cfg, s, step.worker).cache;
    }
  }

  lemma AskIsLogged(cfg: Config, s: System, t: nat)
    requires BreakerLogged(cfg, s) && t < |s.arrivals|
    ensures BreakerLogged(cfg, AfterAskBreaker(cfg, s, t))
  {
    hide DC.IsRun, DC.After, DC.AfterGet, DC.AfterPut, DC.Lookup, CB.IsRun, CB.After, CB.Admits, CB.AfterAsk;
    hide CB.AfterFailure, CB.AfterSuccess, CallbackAnswer, FallbackFor;
    var ask := CB.Asked(s.now, CB.Admits(cfg.breaker, s.breaker, s.now));
    CB.RunGrows(cfg.breaker, s.history.breakerCalls, ask);
    assert CB.Apply(cfg.breaker, s.breaker, ask) == AfterAskBreaker(cfg, s, t).breaker;
  }

  lemma ResultIsLogged(cfg: Config, s: System, w: nat)
    requires BreakerLogged(cfg, s) && AtStage(s, w, AtResult)
    ensures BreakerLogged(cfg, AfterRecordResult(cfg, s, w))
  {
    hide DC.IsRun, DC.After, DC.AfterGet, DC.AfterPut, DC.Lookup, CB.IsRun, CB.After, CB.Admits, CB.AfterAsk;
    hide CB.AfterFailure, CB.AfterSuccess, CallbackAnswer, FallbackFor;
    var result := if s.workers[w].rows.Some? then CB.Succeeded(s.now) else CB.Failed(s.now);
    CB.RunGrows(cfg.breaker, s.history.breakerCalls, result);
    assert CB.Apply(cfg.breaker, s.breaker, result) == AfterRecordResult(cfg, s, w).breaker;
  }

  lemma BreakerStepsAreLogged(cfg: Config, s: System, step: Step)
    requires BreakerLogged(cfg, s) && Enabled(cfg, s, step) && (step.AskBreaker? || step.RecordResult?)
    ensures BreakerLogged(cfg, Next(cfg, s, step))
  {
    hide BreakerLogged, AfterAskBreaker, AfterRecordResult;
    if step.AskBreaker? {
      AskIsLogged(cfg, s, step.token);
    } else {
      ResultIsLogged(cfg, s, step.worker);
    }
  }

  lemma StepStaysLogged(cfg: Config, s: System, step: Step)
    requires Logged(cfg, s) && Enabled(cfg, s, step)
    ensures Logged(cfg, Next(cfg, s, step))
  {
    hide Next, Enabled, DC.IsRun, DC.After, CB.IsRun, CB.After;
    CallersLeftAlone(cfg, s, step);
    if step.LookUp? || step.PutDecision? {
      CacheStepsAreLogged(cfg, s, step);
    }
    if step.AskBreaker? || step.RecordResult? {
      BreakerStepsAreLogged(cfg, s, step);
    }
  }

  /** Whatever the interleaving, the cache and the breaker are driven by one run each, in clock order: all
      that is proved of their runs holds inside the pipeline. */
  lemma {:induction false} TraceStaysLogged(cfg: Config, initial: Session, r: Trace, i: nat)
    requires IsTrace(cfg, initial, r) && i < |r.states|
    ensures Logged(cfg, r.states[i])
  {
    hide Next, Enabled;
    if i > 0 {
      TraceStaysLogged(cfg, initial, r, i - 1);
      StepStaysLogged(cfg, r.states[i - 1], r.steps[i - 1]);
    }
  }

  // ---------- sessions ----------

  /** Only validated models of the adopted width ever serve; the version counts the swaps. */
  ghost predicate Versioned(cfg: Config, s: System) {
    && s.history.sessions != []
    && s.session == s.history.sessions[|s.history.sessions| - 1]
    && (forall i :: 0 <= i < |s.history.sessions| ==> Adopted(cfg, s.history.sessions[i]))
    && s.version + (if s.unpublished then 1 else 0) == |s.history.sessions|
  }

  /** The session of a candidate that loaded, ran on zeros, and gave rows of the adopted width without a NaN or an
      infinity; nothing for any other step. */
  function SwappedIn(cfg: Config, step: Step): seq<Session> {
    if step.SwapModel? && step.candidate.Fresh? && step.candidate.rank == 2
      && step.candidate.session.width == cfg.numBins && step.candidate.finiteOnZeros
    then [step.candidate.session]
    else []
  }

  lemma ReloadStaysVersioned(cfg: Config, s: System, step: Step)
    requires Versioned(cfg, s) && Enabled(cfg, s, step) && (step.SwapModel? || step.PublishVersion?)
    ensures Versioned(cfg, Next(cfg, s, step))
    ensures Next(cfg, s, step).history.sessions ==
      s.history.sessions + SwappedIn(cfg, step)
  {
  }

  lemma StepStaysVersioned(cfg: Config, s: System, step: Step)
    requires Versioned(cfg, s) && Enabled(cfg, s, step)
    ensures Versioned(cfg, Next(cfg, s, step))
    ensures Next(cfg, s, step).history.sessions ==
      s.history.sessions + SwappedIn(cfg, step)
  {
    hide Next, Enabled, Adopted;
    if step.SwapModel? || step.PublishVersion? {
      ReloadStaysVersioned(cfg, s, step);
    } else {
      BatchesLeftAlone(cfg, s, step);
    }
  }

  lemma {:induction false} TraceStaysVersioned(cfg: Config, initial: Session, r: Trace, i: nat)
    requires IsTrace(cfg, initial, r) && i < |r.states|
    ensures Versioned(cfg, r.states[i])
  {
    hide Next, Enabled;
    if i > 0 {
      TraceStaysVersioned(cfg, initial, r, i - 1);
      StepStaysVersioned(cfg, r.states[i - 1], r.steps[i - 1]);
    }
  }

  /** The sessions of the accepted candidates, in the order of their reloads. */
  function AcceptedSessions(cfg: Config, steps: seq<Step>): seq<Session> {
    if steps == [] then []
    else
      AcceptedSessions(cfg, steps[..|steps| - 1]) + SwappedIn(cfg, steps[|steps| - 1])
  }

  lemma {:induction false} SessionsGrowByAcceptedReloads(cfg: Config, initial: Session, r: Trace, i: nat, j: nat)
    requires IsTrace(cfg, initial, r) && i <= j < |r.states|
    ensures r.states[j].history.sessions == r.states[i].history.sessions + AcceptedSessions(cfg, r.steps[i..j])
  {
    hide Next, Enabled, IsTrace, Versioned, SwappedIn;
    StepsOf(cfg, initial, r);
    if i == j {
      assert r.steps[i..j] == [];
    } else {
      SessionsGrowByAcceptedReloads(cfg, initial, r, i, j - 1);
      TraceStaysVersioned(cfg, initial, r, j - 1);
      StepStaysVersioned(cfg, r.states[j - 1], r.steps[j - 1]);
      assert r.steps[i..j][..j - i - 1] == r.steps[i..j - 1];
    }
  }

  /** Over any run the sessions that served are the first one and those of exactly the accepted candidates, in the
      order of their reloads: between two states the version (counting a swap about to be published) goes up by the
      accepted reloads, and the session is that of the last of them. Between states with only rejected candidates
      neither changes, whatever else happens. */
  lemma OnlyAcceptedReloadsCount(cfg: Config, initial: Session, r: Trace, i: nat, j: nat)
    requires IsTrace(cfg, initial, r) && i <= j < |r.states|
    ensures r.states[j].history.sessions == [initial] + AcceptedSessions(cfg, r.steps[..j])
    ensures var s, t, swaps := r.states[i], r.states[j], AcceptedSessions(cfg, r.steps[i..j]);
      && t.version + (if t.unpublished then 1 else 0) == s.version + (if s.unpublished then 1 else 0) + |swaps|
      && t.session == if swaps == [] then s.session else swaps[|swaps| - 1]
  {
    StartsWithItsSession(cfg, initial, r);
    hide IsTrace, AcceptedSessions;
    SessionsGrowByAcceptedReloads(cfg, initial, r, 0, j);
    SessionsGrowByAcceptedReloads(cfg, initial, r, i, j);
    TraceStaysVersioned(cfg, initial, r, i);
    TraceStaysVersioned(cfg, initial, r, j);
    assert r.steps[0..j] == r.steps[..j];
    hide Adopted;
  }

  lemma StartsWithItsSession(cfg: Config, initial: Session, r: Trace)
    requires IsTrace(cfg, initial, r)
    ensures |r.states| == |r.steps| + 1 && r.states[0].history.sessions == [initial]
  {
    hide Next, Enabled;
  }

  // ---------- where an answer comes from ----------

  /** A run that answered `job` with `d`: the model's output for the job's features alone, optimised. */
  ghost predicate Gave(cfg: Config, run: Run, job: Job, d: Decision) {
    !run.threw && job in run.jobs && d == Decide(cfg, run.session.row(job.features), job.request)
  }

  ghost predicate ModelGave(cfg: Config, h: History, job: Job, d: Decision) {
    exists r :: 0 <= r < |h.runs| && Gave(cfg, h.runs[r], job, d)
  }

  ghost predicate RunThrew(h: History, job: Job) {
    exists r :: 0 <= r < |h.runs| && h.runs[r].threw && job in h.runs[r].jobs
  }

  /** The request's own call on the cache was a hit. */
  ghost predicate WasHit(h: History, t: nat, id: string, d: Decision) {
    t in h.lookedUp && h.lookedUp[t] < |h.cacheCalls| &&
    var call := h.cacheCalls[h.lookedUp[t]];
    call.Get? && call.id == id && call.answer == Some(d)
  }

  /** The request's own call on the breaker was refused. */
  ghost predicate WasRefused(h: History, t: nat) {
    t in h.asked && h.asked[t] < |h.breakerCalls| &&
    var call := h.breakerCalls[h.asked[t]];
    call.Asked? && !call.admitted
  }

  ghost predicate Justified(cfg: Config, arrivals: seq<Request>, h: History, t: nat, a: Answer)
    requires t < |arrivals|
  {
    var job := Job(t, arrivals[t], cfg.encode(arrivals[t]));
    match a.status
    case Ok => !a.usedFallback && ModelGave(cfg, h, job, a.decision)
    case CacheHit => !a.usedFallback && WasHit(h, t, arrivals[t].id, a.decision)
    case FallbackOpen => a.usedFallback && a.decision == FallbackFor(cfg, arrivals[t]) && WasRefused(h, t)
    case FallbackError => a.usedFallback && a.decision == FallbackFor(cfg, arrivals[t]) && RunThrew(h, job)
    case ResourceExhausted => !a.usedFallback && a.decision == EMPTY_DECISION
  }

  ghost predicate NoLess(h: History, g: History) {
    && h.runs <= g.runs && h.cacheCalls <= g.cacheCalls && h.breakerCalls <= g.breakerCalls
    && (forall t :: t in h.lookedUp ==> t in g.lookedUp && g.lookedUp[t] == h.lookedUp[t])
    && (forall t :: t in h.asked ==> t in g.asked && g.asked[t] == h.asked[t])
  }

  lemma JustifiedForever(cfg: Config, arrivals: seq<Request>, h: History, later: seq<Request>, g: History, t: nat,
      a: Answer)
    requires t < |arrivals| && arrivals <= later && NoLess(h, g)
    requires Justified(cfg, arrivals, h, t, a)
    ensures Justified(cfg, later, g, t, a)
  {
    hide Decide, FallbackFor;
    var job := Job(t, arrivals[t], cfg.encode(arrivals[t]));
    match a.status {
      case Ok =>
        var r :| 0 <= r < |h.runs| && Gave(cfg, h.runs[r], job, a.decision);
        assert Gave(cfg, g.runs[r], job, a.decision);
      case CacheHit =>
      case FallbackOpen =>
      case FallbackError =>
        var r :| 0 <= r < |h.runs| && h.runs[r].threw && job in h.runs[r].jobs;
        assert g.runs[r] == h.runs[r];
      case ResourceExhausted =>
    }
  }

  /** What a worker holds came from the queue, and what it delivers came from one run of one session. */
  ghost predicate Backed(h: History, w: Worker) {
    match w
    case Loaded(batch) => batch in h.takes
    case Running(batch, session) => batch in h.takes && session in h.sessions
    case Delivering(batch, rows, _, _) =>
      exists r :: 0 <= r < |h.runs| && Delivers(h.runs[r], batch, rows)
    case _ => true
  }

  ghost predicate Delivers(run: Run, batch: seq<Job>, rows: Option<seq<seq<real>>>) {
    run.jobs == batch && rows == if run.threw then None else Some(Rows(run.session, batch))
  }

  /** Every decision in the cache was given by the model for an arrival with that id. */
  ghost predicate PutByModel(cfg: Config, s: System, e: DC.Event) {
    e.Put? ==>
      exists t ::
        0 <= t < |s.arrivals| && s.arrivals[t].id == e.id && ModelGave(cfg, s.history, JobFor(cfg, s, t), e.decision)
  }

  predicate AnsweredInProcess(status: Status) {
    status != Ok && status != FallbackError
  }

  ghost predicate Accepted(h: History, t: nat) {
    exists i :: 0 <= i < |h.accepted| && h.accepted[i].token == t
  }

  ghost predicate RunsMeant(h: History) {
    forall i :: 0 <= i < |h.runs| ==> h.runs[i].jobs in h.takes && h.runs[i].session in h.sessions
  }

  ghost predicate WorkersBacked(s: System) {
    forall w :: 0 <= w < |s.workers| ==> Backed(s.history, s.workers[w])
  }

  ghost predicate PutsMeant(cfg: Config, s: System) {
    forall e :: 0 <= e < |s.history.cacheCalls| ==> PutByModel(cfg, s, s.history.cacheCalls[e])
  }

  ghost predicate CallersMeant(cfg: Config, s: System) {
    forall t :: t in s.callers ==> t < |s.arrivals| && (s.callers[t].AtDone? ==>
      AnsweredInProcess(s.callers[t].answer.status) && Justified(cfg, s.arrivals, s.history, t, s.callers[t].answer))
  }

  ghost predicate RepliesMeant(cfg: Config, s: System) {
    forall i :: 0 <= i < |s.replies| ==>
      (s.replies[i].token < |s.arrivals|
        && Justified(cfg, s.arrivals, s.history, s.replies[i].token, s.replies[i].answer))
  }

  /** A request looks the cache up once and asks the breaker once. */
  ghost predicate CalledOnce(s: System) {
    && (forall t :: t in s.history.lookedUp ==> t < |s.arrivals| && (t in s.callers ==> s.callers[t] != AtCache))
    && (forall t :: t in s.history.asked ==>
       t < |s.arrivals| && (t in s.callers ==> s.callers[t] != AtCache && s.callers[t] != AtBreaker))
  }

  /** A request answered inside `process` was never accepted by the batcher. */
  ghost predicate Exclusive(s: System) {
    forall i :: 0 <= i < |s.replies| && AnsweredInProcess(s.replies[i].answer.status) ==>
      s.replies[i].token < |s.arrivals| && s.replies[i].token !in s.callers && !Accepted(s.history, s.replies[i].token)
  }

  ghost predicate Meant(cfg: Config, s: System) {
    && RunsMeant(s.history) && WorkersBacked(s) && PutsMeant(cfg, s)
    && CallersMeant(cfg, s) && RepliesMeant(cfg, s) && Exclusive(s) && CalledOnce(s)
    && FirstInFirstOut(cfg, s) && HandedOver(cfg, s)
  }

  // ---------- every step keeps it ----------

  ghost predicate OnlyAdds(h: History, g: History) {
    h.cacheCalls <= g.cacheCalls && h.breakerCalls <= g.breakerCalls
  }

  lemma CallersOnlyAdd(cfg: Config, s: System, t: nat)
    requires t < |s.arrivals|
    ensures OnlyAdds(s.history, AfterLookUp(s, t).history) && OnlyAdds(s.history, AfterAskBreaker(cfg, s, t).history)
  {
    hide DC.AfterGet, DC.Lookup, CB.Admits, CB.AfterAsk, FallbackFor;
  }

  lemma CallbacksOnlyAdd(cfg: Config, s: System, w: nat)
    ensures AtStage(s, w, AtResult) ==> OnlyAdds(s.history, AfterRecordResult(cfg, s, w).history)
    ensures AtStage(s, w, AtPut) && s.workers[w].rows.Some? ==>
      OnlyAdds(s.history, AfterPutDecision(cfg, s, w).history)
  {
    hide CallbackAnswer, DC.AfterPut, CB.AfterFailure, CB.AfterSuccess;
  }

  lemma LoggedStepsOnlyAdd(cfg: Config, s: System, step: Step)
    requires Enabled(cfg, s, step) && (step.LookUp? || step.PutDecision? || step.AskBreaker? || step.RecordResult?)
    ensures OnlyAdds(s.history, Next(cfg, s, step).history)
  {
    hide OnlyAdds, AfterLookUp, AfterAskBreaker, AfterRecordResult, AfterPutDecision;
    if step.LookUp? || step.AskBreaker? {
      CallersOnlyAdd(cfg, s, step.token);
    } else {
      CallbacksOnlyAdd(cfg, s, step.worker);
    }
  }

  lemma CallsOnlyGrow(cfg: Config, s: System, step: Step)
    requires Enabled(cfg, s, step)
    ensures var h, g := s.history, Next(cfg, s, step).history;
      h.cacheCalls <= g.cacheCalls && h.breakerCalls <= g.breakerCalls
  {
    hide Next, Enabled;
    CallersLeftAlone(cfg, s, step);
    if step.LookUp? || step.PutDecision? || step.AskBreaker? || step.RecordResult? {
      LoggedStepsOnlyAdd(cfg, s, step);
    }
  }

  lemma BatchStepsOnlyAdd(cfg: Config, s: System, step: Step)
    requires Enabled(cfg, s, step) && (step.TestQueue? || step.FinishRun? || step.SwapModel?)
    ensures var h, g := s.history, Next(cfg, s, step).history;
      h.runs <= g.runs && h.takes <= g.takes && h.sessions <= g.sessions
  {
    hide Rows, Accepts, AfterTest, AfterFinishRun;
    if step.TestQueue? {
      TestOnlyAdds(cfg, s, step.worker);
    } else if step.FinishRun? {
      RunOnlyAdds(s, step.worker, step.throws);
    }
  }

  lemma TestOnlyAdds(cfg: Config, s: System, w: nat)
    requires w < |s.workers|
    ensures var h, g := s.history, AfterTest(cfg, s, w).history;
      h.runs == g.runs && h.takes <= g.takes && h.sessions == g.sessions
  {
    hide TakeCount;
  }

  lemma RunOnlyAdds(s: System, w: nat, throws: bool)
    requires w < |s.workers| && s.workers[w].Running?
    ensures var h, g := s.history, AfterFinishRun(s, w, throws).history;
      h.runs <= g.runs && h.takes == g.takes && h.sessions == g.sessions
  {
    hide Rows;
  }

  lemma BatchesOnlyGrow(cfg: Config, s: System, step: Step)
    requires Enabled(cfg, s, step)
    ensures var h, g := s.history, Next(cfg, s, step).history;
      h.runs <= g.runs && h.takes <= g.takes && h.sessions <= g.sessions
  {
    hide Next, Enabled;
    BatchesLeftAlone(cfg, s, step);
    if step.TestQueue? || step.FinishRun? || step.SwapModel? {
      BatchStepsOnlyAdd(cfg, s, step);
    }
  }

  lemma LookingOnlyAdds(cfg: Config, s: System, step: Step)
    requires Enabled(cfg, s, step) && CalledOnce(s) && (step.LookUp? || step.AskBreaker?)
    ensures var h, g := s.history, Next(cfg, s, step).history;
      && (forall t :: t in h.lookedUp ==> t in g.lookedUp && g.lookedUp[t] == h.lookedUp[t])
      && (forall t :: t in h.asked ==> t in g.asked && g.asked[t] == h.asked[t])
  {
    hide DC.AfterGet, DC.Lookup, CB.Admits, CB.AfterAsk, FallbackFor;
  }

  lemma HistoryOnlyGrows(cfg: Config, s: System, step: Step)
    requires Enabled(cfg, s, step) && CalledOnce(s)
    ensures var n := Next(cfg, s, step);
      && s.arrivals <= n.arrivals && NoLess(s.history, n.history)
      && s.history.takes <= n.history.takes && s.history.sessions <= n.history.sessions
  {
    hide Next, Enabled, CalledOnce;
    CallsOnlyGrow(cfg, s, step);
    BatchesOnlyGrow(cfg, s, step);
    CallersLeftAlone(cfg, s, step);
    if step.LookUp? || step.AskBreaker? {
      LookingOnlyAdds(cfg, s, step);
    }
  }

  lemma CallerStepKeepsCalledOnce(cfg: Config, s: System, step: Step)
    requires CalledOnce(s) && HandedOver(cfg, s) && Enabled(cfg, s, step) && IsCallerStep(step)
    ensures CalledOnce(Next(cfg, s, step))
  {
    hide DC.AfterGet, DC.Lookup, CB.Admits, CB.AfterAsk, FallbackFor, JobFor;
  }

  lemma StepKeepsCalledOnce(cfg: Config, s: System, step: Step)
    requires CalledOnce(s) && HandedOver(cfg, s) && Enabled(cfg, s, step)
    ensures CalledOnce(Next(cfg, s, step))
  {
    hide Next, Enabled, HandedOver;
    if IsCallerStep(step) {
      CallerStepKeepsCalledOnce(cfg, s, step);
    } else {
      CallersLeftAlone(cfg, s, step);
    }
  }

  lemma {:induction false} InFlat(takes: seq<seq<Job>>, batch: seq<Job>, job: Job)
    requires batch in takes && job in batch
    ensures job in Flat(takes)
  {
    if batch != takes[|takes| - 1] {
      InFlat(takes[..|takes| - 1], batch, job);
    }
  }

  /** The job a callback is about to answer is an accepted one, and its result is its own run's. */
  lemma CallbackIsGenuine(cfg: Config, s: System, w: nat, stage: Stage)
    requires Meant(cfg, s) && AtStage(s, w, stage)
    ensures var me := s.workers[w]; var job := me.batch[me.next];
      && job in s.history.accepted
      && job.token < |s.arrivals| && job == JobFor(cfg, s, job.token)
      && Justified(cfg, s.arrivals, s.history, job.token, CallbackAnswer(cfg, me))
  {
    hide Decide, FallbackFor, Flat;
    var me := s.workers[w];
    var job := me.batch[me.next];
    assert Backed(s.history, me);
    var r :| 0 <= r < |s.history.runs| && Delivers(s.history.runs[r], me.batch, me.rows);
    InFlat(s.history.takes, me.batch, job);
    if me.rows.Some? {
      assert Gave(cfg, s.history.runs[r], job, CallbackAnswer(cfg, me).decision);
    }
  }

  /** One step of the life of worker `w`, seen from outside. */
  ghost predicate Moves(s: System, g: History, a: Worker, b: Worker) {
    || b == a || b == Awake || b == Waiting || b == Exited
    || (b.Loaded? && b.batch in g.takes)
    || (a.Loaded? && b == Running(a.batch, s.session))
    || (a.Running? && b.Delivering? && |g.runs| > |s.history.runs|
       && Delivers(g.runs[|s.history.runs|], b.batch, b.rows))
    || (a.Delivering? && b.Delivering? && b.batch == a.batch && b.rows == a.rows)
  }

  lemma SameWorkers(cfg: Config, s: System, step: Step)
    requires Enabled(cfg, s, step)
    ensures |Next(cfg, s, step).workers| == |s.workers|
  {
    hide CallbackAnswer, DC.AfterGet, DC.AfterPut, DC.Lookup, CB.Admits, CB.AfterAsk, CB.AfterFailure;
    hide CB.AfterSuccess, FallbackFor, Rows;
  }

  lemma CallbackMovesOn(cfg: Config, s: System, step: Step, w: nat)
    requires Enabled(cfg, s, step) && IsCallbackStep(step) && w < |s.workers|
    ensures w < |Next(cfg, s, step).workers|
    ensures Moves(s, Next(cfg, s, step).history, s.workers[w], Next(cfg, s, step).workers[w])
  {
    hide CallbackAnswer, DC.AfterPut, CB.AfterFailure, CB.AfterSuccess, Rows;
  }

  lemma BatchMovesOn(cfg: Config, s: System, step: Step, w: nat)
    requires Enabled(cfg, s, step) && IsWorkerStep(step) && !IsCallbackStep(step) && w < |s.workers|
    ensures w < |Next(cfg, s, step).workers|
    ensures Moves(s, Next(cfg, s, step).history, s.workers[w], Next(cfg, s, step).workers[w])
  {
    hide Rows;
    if step == TestQueue(w) && AfterTest(cfg, s, w).workers[w].Loaded? {
      assert AfterTest(cfg, s, w).history.takes[|s.history.takes|] == AfterTest(cfg, s, w).workers[w].batch;
    }
  }

  lemma WorkersMove(cfg: Config, s: System, step: Step, w: nat)
    requires Enabled(cfg, s, step) && w < |s.workers|
    ensures w < |Next(cfg, s, step).workers|
    ensures Moves(s, Next(cfg, s, step).history, s.workers[w], Next(cfg, s, step).workers[w])
  {
    hide Next, Enabled, Delivers;
    if IsCallbackStep(step) {
      CallbackMovesOn(cfg, s, step, w);
    } else if IsWorkerStep(step) {
      BatchMovesOn(cfg, s, step, w);
    } else {
      WorkersLeftAlone(cfg, s, step);
    }
  }

  lemma MovingKeepsBacked(s: System, g: History, a: Worker, b: Worker)
    requires Backed(s.history, a) && Moves(s, g, a, b)
    requires s.session in s.history.sessions
    requires s.history.runs <= g.runs && s.history.takes <= g.takes && s.history.sessions <= g.sessions
    ensures Backed(g, b)
  {
    hide Delivers;
    if a.Delivering? && b.Delivering? {
      var r :| 0 <= r < |s.history.runs| && Delivers(s.history.runs[r], a.batch, a.rows);
      assert g.runs[r] == s.history.runs[r];
    }
  }

  lemma NewRunIsMeant(cfg: Config, s: System, step: Step)
    requires Meant(cfg, s) && Enabled(cfg, s, step)
    ensures var g := Next(cfg, s, step).history;
      g.runs == s.history.runs ||
      (|g.runs| == |s.history.runs| + 1 && g.runs[|s.history.runs|].jobs in s.history.takes
        && g.runs[|s.history.runs|].session in s.history.sessions)
  {
    hide CallbackAnswer, DC.AfterGet, DC.AfterPut, DC.Lookup, CB.Admits, CB.AfterAsk, CB.AfterFailure;
    hide CB.AfterSuccess, FallbackFor, Flat;
    hide PutsMeant, CallersMeant, RepliesMeant, Exclusive, CalledOnce, FirstInFirstOut, HandedOver, Rows;
    if step.FinishRun? {
      assert Backed(s.history, s.workers[step.worker]);
    }
  }

  lemma StepKeepsRunsMeant(cfg: Config, s: System, step: Step)
    requires Meant(cfg, s) && Versioned(cfg, s) && Enabled(cfg, s, step)
    ensures RunsMeant(Next(cfg, s, step).history) && WorkersBacked(Next(cfg, s, step))
  {
    hide Next, Enabled, Moves, Backed, PutsMeant, CallersMeant, RepliesMeant, Exclusive, CalledOnce;
    hide FirstInFirstOut, HandedOver;
    var n := Next(cfg, s, step);
    BatchesOnlyGrow(cfg, s, step);
    NewRunIsMeant(cfg, s, step);
    SameWorkers(cfg, s, step);
    forall w | 0 <= w < |n.workers|
      ensures Backed(n.history, n.workers[w])
    {
      WorkersMove(cfg, s, step, w);
      MovingKeepsBacked(s, n.history, s.workers[w], n.workers[w]);
    }
  }

  lemma PutByModelForever(cfg: Config, s: System, n: System, put: DC.Event)
    requires PutByModel(cfg, s, put) && s.arrivals <= n.arrivals && s.history.runs <= n.history.runs
    ensures PutByModel(cfg, n, put)
  {
    hide Decide;
    if put.Put? {
      var t :| 0 <= t < |s.arrivals| && s.arrivals[t].id == put.id
        && ModelGave(cfg, s.history, JobFor(cfg, s, t), put.decision);
      var r :| 0 <= r < |s.history.runs| && Gave(cfg, s.history.runs[r], JobFor(cfg, s, t), put.decision);
      assert Gave(cfg, n.history.runs[r], JobFor(cfg, n, t), put.decision);
    }
  }

  lemma StepKeepsPutsMeant(cfg: Config, s: System, step: Step)
    requires Meant(cfg, s) && Enabled(cfg, s, step)
    ensures PutsMeant(cfg, Next(cfg, s, step))
  {
    hide DC.AfterGet, DC.AfterPut, DC.Lookup, CB.Admits, CB.AfterAsk, CB.AfterFailure, CB.AfterSuccess;
    hide FallbackFor, Decide, Flat;
    hide RunsMeant, WorkersBacked, CallersMeant, RepliesMeant, Exclusive, FirstInFirstOut, HandedOver, PutByModel;
    var n := Next(cfg, s, step);
    HistoryOnlyGrows(cfg, s, step);
    forall e | 0 <= e < |n.history.cacheCalls|
      ensures PutByModel(cfg, n, n.history.cacheCalls[e])
    {
      if e < |s.history.cacheCalls| {
        assert PutByModel(cfg, s, s.history.cacheCalls[e]);
      } else {
        NewCallIsByModel(cfg, s, step);
      }
      PutByModelForever(cfg, s, n, n.history.cacheCalls[e]);
    }
  }

  lemma NewCallIsByModel(cfg: Config, s: System, step: Step)
    requires Meant(cfg, s) && Enabled(cfg, s, step)
    requires |Next(cfg, s, step).history.cacheCalls| > |s.history.cacheCalls|
    ensures PutByModel(cfg, s, Next(cfg, s, step).history.cacheCalls[|s.history.cacheCalls|])
  {
    hide DC.AfterGet, DC.AfterPut, DC.Lookup, CB.Admits, CB.AfterAsk, CB.AfterFailure, CB.AfterSuccess;
    hide FallbackFor, Decide, Flat;
    hide RunsMeant, WorkersBacked, CallersMeant, RepliesMeant, Exclusive, FirstInFirstOut, HandedOver, ModelGave;
    if step.PutDecision? {
      CallbackIsGenuine(cfg, s, step.worker, AtPut);
    }
  }

  lemma NewAnswerIsJustified(cfg: Config, s: System, step: Step)
    requires Enabled(cfg, s, step) && (step.LookUp? || step.AskBreaker? || step.Submit?)
    ensures var n, t := Next(cfg, s, step), step.token;
      && (forall u :: u in n.callers && u != t ==> u in s.callers && n.callers[u] == s.callers[u])
      && t < |n.arrivals|
      && (t in n.callers && n.callers[t].AtDone? ==>
          AnsweredInProcess(n.callers[t].answer.status)
            && Justified(cfg, n.arrivals, n.history, t, n.callers[t].answer))
  {
    hide DC.AfterGet, DC.Lookup, CB.Admits, CB.AfterAsk, FallbackFor, JobFor, ModelGave, RunThrew;
    var n := Next(cfg, s, step);
    if step.LookUp? {
      assert n.callers[step.token].AtDone? ==>
        n.history.cacheCalls[|s.history.cacheCalls|].answer == Some(n.callers[step.token].answer.decision);
    } else if step.AskBreaker? {
      assert n.callers[step.token].AtDone? ==> !n.history.breakerCalls[|s.history.breakerCalls|].admitted;
    }
  }

  lemma ArrivingAndLeaving(cfg: Config, s: System, step: Step)
    requires Enabled(cfg, s, step) && (step.Arrive? || step.CallDone?)
    ensures var n := Next(cfg, s, step);
      forall u :: u in n.callers ==>
        if u in s.callers && n.callers[u] == s.callers[u] then true else n.callers[u] == AtCache && u < |n.arrivals|
  {
  }

  lemma StepKeepsCallersMeant(cfg: Config, s: System, step: Step)
    requires Meant(cfg, s) && Enabled(cfg, s, step)
    ensures CallersMeant(cfg, Next(cfg, s, step))
  {
    hide Next, Enabled, Justified, NoLess, RunsMeant, WorkersBacked, PutsMeant, RepliesMeant, Exclusive;
    hide CalledOnce, FirstInFirstOut, HandedOver;
    var n := Next(cfg, s, step);
    HistoryOnlyGrows(cfg, s, step);
    CallersLeftAlone(cfg, s, step);
    if step.LookUp? || step.AskBreaker? || step.Submit? {
      NewAnswerIsJustified(cfg, s, step);
    } else if step.Arrive? || step.CallDone? {
      ArrivingAndLeaving(cfg, s, step);
    }
    forall t | t in n.callers && t in s.callers && n.callers[t] == s.callers[t] && n.callers[t].AtDone?
      ensures AnsweredInProcess(n.callers[t].answer.status)
        && Justified(cfg, n.arrivals, n.history, t, n.callers[t].answer)
    {
      JustifiedForever(cfg, s.arrivals, s.history, n.arrivals, n.history, t, s.callers[t].answer);
    }
  }

  lemma StepKeepsRepliesMeant(cfg: Config, s: System, step: Step)
    requires Meant(cfg, s) && Enabled(cfg, s, step)
    ensures RepliesMeant(cfg, Next(cfg, s, step))
  {
    hide CallbackAnswer, DC.AfterGet, DC.AfterPut, DC.Lookup, CB.Admits, CB.AfterAsk, CB.AfterFailure;
    hide CB.AfterSuccess, FallbackFor, Decide, Flat, Justified;
    var n := Next(cfg, s, step);
    HistoryOnlyGrows(cfg, s, step);
    forall i | 0 <= i < |n.replies|
      ensures n.replies[i].token < |n.arrivals|
        && Justified(cfg, n.arrivals, n.history, n.replies[i].token, n.replies[i].answer)
    {
      if i < |s.replies| {
        JustifiedForever(cfg, s.arrivals, s.history, n.arrivals, n.history, s.replies[i].token, s.replies[i].answer);
      } else if step.FireDone? {
        CallbackIsGenuine(cfg, s, step.worker, AtReply);
      }
    }
  }

  lemma CallerStepKeepsExclusive(cfg: Config, s: System, step: Step)
    requires Exclusive(s) && HandedOver(cfg, s) && Enabled(cfg, s, step) && (IsCallerStep(step) || step.FireDone?)
    ensures Exclusive(Next(cfg, s, step))
  {
    hide DC.AfterGet, DC.Lookup, CB.Admits, CB.AfterAsk, FallbackFor, Decide;
    var n := Next(cfg, s, step);
    forall i | 0 <= i < |n.replies| && AnsweredInProcess(n.replies[i].answer.status)
      ensures n.replies[i].token < |n.arrivals| && n.replies[i].token !in n.callers
        && !Accepted(n.history, n.replies[i].token)
    {
      if i == |s.replies| && step.CallDone? {
        NotAcceptedWhileCalling(cfg, s, step.token);
      }
    }
  }

  lemma StepKeepsExclusive(cfg: Config, s: System, step: Step)
    requires Meant(cfg, s) && Enabled(cfg, s, step)
    ensures Exclusive(Next(cfg, s, step))
  {
    hide Next, Enabled, RunsMeant, WorkersBacked, PutsMeant, CallersMeant, RepliesMeant, CalledOnce;
    hide FirstInFirstOut, HandedOver;
    if IsCallerStep(step) || step.FireDone? {
      CallerStepKeepsExclusive(cfg, s, step);
    } else {
      CallersLeftAlone(cfg, s, step);
    }
  }

  lemma NotAcceptedWhileCalling(cfg: Config, s: System, t: nat)
    requires HandedOver(cfg, s) && t in s.callers
    ensures !Accepted(s.history, t)
  {
    forall i | 0 <= i < |s.history.accepted|
      ensures s.history.accepted[i].token != t
    {
      assert s.history.accepted[i] in s.history.accepted;
    }
  }

  lemma StartsMeant(cfg: Config, initial: Session)
    ensures var s := Initial(cfg, initial);
      && RunsMeant(s.history) && WorkersBacked(s) && PutsMeant(cfg, s)
      && CallersMeant(cfg, s) && RepliesMeant(cfg, s) && Exclusive(s) && CalledOnce(s)
  {
  }

  lemma {:induction false} TraceStaysMeant(cfg: Config, initial: Session, r: Trace, i: nat)
    requires IsTrace(cfg, initial, r) && i < |r.states|
    ensures Meant(cfg, r.states[i])
  {
    hide Next, Enabled, RunsMeant, WorkersBacked, PutsMeant, CallersMeant, RepliesMeant, Exclusive;
    hide CalledOnce, FirstInFirstOut, HandedOver;
    TraceStaysInOrder(cfg, initial, r, i);
    TraceStaysHandedOver(cfg, initial, r, i);
    if i == 0 {
      StartsMeant(cfg, initial);
    } else {
      var s, step := r.states[i - 1], r.steps[i - 1];
      TraceStaysMeant(cfg, initial, r, i - 1);
      TraceStaysVersioned(cfg, initial, r, i - 1);
      StepKeepsRunsMeant(cfg, s, step);
      StepKeepsPutsMeant(cfg, s, step);
      StepKeepsCallersMeant(cfg, s, step);
      StepKeepsRepliesMeant(cfg, s, step);
      StepKeepsExclusive(cfg, s, step);
      StepKeepsCalledOnce(cfg, s, step);
    }
  }

  // ---------- the theorems ----------

  /** Put within the TTL, by a run of the model for another request with the same id, and not overwritten since. */
  ghost predicate Replays(cfg: Config, s: System, t: nat, d: Decision, source: nat)
    requires t < |s.arrivals|
  {
    var id, calls := s.arrivals[t].id, s.history.cacheCalls;
    && t in s.history.lookedUp && s.history.lookedUp[t] < |calls|
    && var get := s.history.lookedUp[t];
    && calls[get].id == id
    && source != t && source < |s.arrivals| && s.arrivals[source].id == id
    && DC.Unexpired(cfg.cache, calls[..get], id, calls[get].now)
    && DC.LatestPut(calls[..get], id).value.1 == d
    && ModelGave(cfg, s.history, JobFor(cfg, s, source), d)
  }

  /** A hit of a request that was never queued is the work of the model for another request. */
  lemma HitsReplayTheModel(cfg: Config, s: System, t: nat, d: Decision) returns (source: nat)
    requires Meant(cfg, s) && Logged(cfg, s)
    requires t < |s.arrivals| && WasHit(s.history, t, s.arrivals[t].id, d) && !Accepted(s.history, t)
    ensures Replays(cfg, s, t, d, source)
  {
    hide RunsMeant, WorkersBacked, CallersMeant, RepliesMeant, Exclusive, CalledOnce, FirstInFirstOut, HandedOver;
    hide DC.IsRun, DC.After, DC.Lookup, DC.Unexpired, DC.LatestPut, Decide, Accepted, ModelGave, BreakerLogged;
    var calls, get := s.history.cacheCalls, s.history.lookedUp[t];
    CallInContext(cfg, calls, get);
    DC.HitIsLatestFreshPut(cfg.cache, calls[..get], calls[get].now, calls[get].id);
    var p := LatestPutIsACall(calls[..get], calls[get].id);
    assert PutByModel(cfg, s, calls[p]);
    source :| 0 <= source < |s.arrivals| && s.arrivals[source].id == calls[p].id
      && ModelGave(cfg, s.history, JobFor(cfg, s, source), d);
    hide Meant;
    GivenMeansAccepted(cfg, s, source, d);
  }

  /** Every reply with status "cache" repeats a decision that the model path computed for another request
      with the same id and put less than the TTL before; fallback and shed answers are never replayed. */
  lemma CacheRepliesReplayTheModel(cfg: Config, initial: Session, r: Trace, i: nat, n: nat) returns (source: nat)
    requires IsTrace(cfg, initial, r) && i < |r.states|
    requires n < |r.states[i].replies| && r.states[i].replies[n].answer.status == CacheHit
    ensures var s := r.states[i];
      s.replies[n].token < |s.arrivals| && Replays(cfg, s, s.replies[n].token, s.replies[n].answer.decision, source)
  {
    hide FallbackFor, Replays, Logged, WasHit, Accepted;
    TraceStaysMeant(cfg, initial, r, i);
    TraceStaysLogged(cfg, initial, r, i);
    var s := r.states[i];
    source := HitsReplayTheModel(cfg, s, s.replies[n].token, s.replies[n].answer.decision);
  }

  lemma GivenMeansAccepted(cfg: Config, s: System, t: nat, d: Decision)
    requires Meant(cfg, s) && t < |s.arrivals| && ModelGave(cfg, s.history, JobFor(cfg, s, t), d)
    ensures Accepted(s.history, t)
  {
    hide Decide;
    var k :| 0 <= k < |s.history.runs| && Gave(cfg, s.history.runs[k], JobFor(cfg, s, t), d);
    InFlat(s.history.takes, s.history.runs[k].jobs, JobFor(cfg, s, t));
    assert JobFor(cfg, s, t) in s.history.accepted;
  }

  /** Any call in a run of the cache was answered by the cache as its predecessors left it. */
  lemma {:induction false} CallInContext(cfg: Config, calls: seq<DC.Event>, e: nat)
    requires DC.IsRun(cfg.cache, calls) && e < |calls|
    ensures DC.IsRun(cfg.cache, calls[..e])
    ensures calls[e].Get? ==> calls[e].answer == DC.Lookup(DC.After(cfg.cache, calls[..e]), calls[e].now, calls[e].id)
    ensures e > 0 ==> calls[e - 1].now <= calls[e].now
  {
    hide DC.Lookup, DC.After;
    if e < |calls| - 1 {
      CallInContext(cfg, calls[..|calls| - 1], e);
      assert calls[..|calls| - 1][..e] == calls[..e];
    }
  }

  lemma {:induction false} LatestPutIsACall(calls: seq<DC.Event>, id: string) returns (p: nat)
    requires DC.LatestPut(calls, id).Some?
    ensures p < |calls| && calls[p].Put? && calls[p].id == id
    ensures calls[p].now == DC.LatestPut(calls, id).value.0 && calls[p].decision == DC.LatestPut(calls, id).value.1
  {
    p := |calls| - 1;
    if !(calls[p].Put? && calls[p].id == id) {
      p := LatestPutIsACall(calls[..p], id);
    }
  }

  /** A reply with status "fallback_open" was refused while the breaker, by its own history, was cooling down. */
  lemma OpenFallbacksAreCoolingDown(cfg: Config, initial: Session, r: Trace, i: nat, n: nat)
    requires IsTrace(cfg, initial, r) && i < |r.states|
    requires n < |r.states[i].replies| && r.states[i].replies[n].answer.status == FallbackOpen
    ensures var s := r.states[i]; var calls := s.history.breakerCalls;
      && s.replies[n].token < |s.arrivals|
      && s.replies[n].answer == Answer(FallbackFor(cfg, s.arrivals[s.replies[n].token]), true, FallbackOpen)
      && s.replies[n].token in s.history.asked && s.history.asked[s.replies[n].token] < |calls|
      && var ask := s.history.asked[s.replies[n].token];
      && calls[ask].Asked? && CB.CoolingDown(cfg.breaker, calls[..ask], calls[ask].now)
  {
    hide FallbackFor;
    var s := r.states[i];
    var calls := s.history.breakerCalls;
    TraceStaysMeant(cfg, initial, r, i);
    TraceStaysLogged(cfg, initial, r, i);
    assert WasRefused(s.history, s.replies[n].token);
    var ask := s.history.asked[s.replies[n].token];
    AskInContext(cfg, calls, ask);
    CB.RefusedExactlyWhileCoolingDown(cfg.breaker, calls[..ask], calls[ask].now);
  }

  lemma {:induction false} AskInContext(cfg: Config, calls: seq<CB.Event>, e: nat)
    requires CB.IsRun(cfg.breaker, calls) && e < |calls|
    ensures CB.IsRun(cfg.breaker, calls[..e])
    ensures calls[e].Asked? ==>
      calls[e].admitted == CB.Admits(cfg.breaker, CB.After(cfg.breaker, calls[..e]), calls[e].now)
    ensures e > 0 ==> calls[e - 1].now <= calls[e].now
  {
    hide CB.Admits, CB.After;
    if e < |calls| - 1 {
      AskInContext(cfg, calls[..|calls| - 1], e);
      assert calls[..|calls| - 1][..e] == calls[..e];
    }
  }

  /** "ok" and "fallback_error" are the only answers of accepted requests, the other three the only ones of
      requests the batcher never accepted; an error fallback comes from the request's own batch having thrown. */
  lemma StatusTellsThePath(cfg: Config, initial: Session, r: Trace, i: nat, n: nat)
    requires IsTrace(cfg, initial, r) && i < |r.states| && n < |r.states[i].replies|
    ensures var s := r.states[i]; var reply := s.replies[n];
      && reply.token < |s.arrivals|
      && (Accepted(s.history, reply.token) <==> reply.answer.status == Ok || reply.answer.status == FallbackError)
      && (reply.answer.status == FallbackError ==> RunThrew(s.history, JobFor(cfg, s, reply.token)))
      && (reply.answer.status == ResourceExhausted ==> reply.answer.decision == EMPTY_DECISION)
  {
    hide Decide, FallbackFor;
    var s := r.states[i];
    var t := s.replies[n].token;
    TraceStaysMeant(cfg, initial, r, i);
    if s.replies[n].answer.status == Ok {
      GivenMeansAccepted(cfg, s, t, s.replies[n].answer.decision);
    } else if s.replies[n].answer.status == FallbackError {
      var k :| 0 <= k < |s.history.runs| && s.history.runs[k].threw && JobFor(cfg, s, t) in s.history.runs[k].jobs;
      InFlat(s.history.takes, s.history.runs[k].jobs, JobFor(cfg, s, t));
      assert JobFor(cfg, s, t) in s.history.accepted;
    }
  }

  ghost predicate InRun(run: Run, t: nat) {
    exists p :: 0 <= p < |run.jobs| && run.jobs[p].token == t
  }

  /** The answer of one job of a run: the model's for its own features, or its fallback when the run threw. */
  ghost predicate FromRun(cfg: Config, s: System, run: Run, reply: Reply) {
    && reply.token < |s.arrivals|
    && var req := s.arrivals[reply.token];
       reply.answer ==
         if run.threw then Answer(BidFor(cfg.fallback, req, cfg.multiplier), true, FallbackError)
         else Answer(Optimize(run.session.row(cfg.encode(req)), req.impressionValue, cfg.multiplier), false, Ok)
  }

  /** Every reply to a job of the run is that run's. */
  ghost predicate AnswersItsBatch(cfg: Config, s: System, run: Run) {
    forall m :: 0 <= m < |s.replies| && InRun(run, s.replies[m].token) ==> FromRun(cfg, s, run, s.replies[m])
  }

  lemma RunJobsAreAccepted(cfg: Config, s: System, k: nat, p: nat)
    requires Meant(cfg, s) && k < |s.history.runs| && p < |s.history.runs[k].jobs|
    ensures Accepted(s.history, s.history.runs[k].jobs[p].token)
  {
    var job := s.history.runs[k].jobs[p];
    InFlat(s.history.takes, s.history.runs[k].jobs, job);
    assert job in s.history.accepted;
  }

  /** The run that justifies an accepted request's reply. */
  lemma ReplyHasARun(cfg: Config, s: System, n: nat) returns (l: nat)
    requires Meant(cfg, s) && n < |s.replies|
    requires s.replies[n].answer.status == Ok || s.replies[n].answer.status == FallbackError
    ensures l < |s.history.runs| && InRun(s.history.runs[l], s.replies[n].token)
    ensures FromRun(cfg, s, s.history.runs[l], s.replies[n])
  {
    hide Optimize, BidFor, RunsMeant, WorkersBacked, PutsMeant, CallersMeant, Exclusive, CalledOnce;
    hide FirstInFirstOut, HandedOver;
    var a, job := s.replies[n].answer, JobFor(cfg, s, s.replies[n].token);
    var runs := s.history.runs;
    if a.status == Ok {
      l :| 0 <= l < |runs| && Gave(cfg, runs[l], job, a.decision);
    } else {
      l :| 0 <= l < |runs| && runs[l].threw && job in runs[l].jobs;
    }
    var p :| 0 <= p < |runs[l].jobs| && runs[l].jobs[p] == job;
    assert runs[l].jobs[p].token == s.replies[n].token;
  }

  /** A completed run answers its whole batch: every reply to any of its jobs is its own, of the one session it used,
      or, when it threw, that job's fallback. No other run had any of these jobs. */
  lemma RunAnswersItsBatch(cfg: Config, initial: Session, r: Trace, i: nat, k: nat)
    requires IsTrace(cfg, initial, r) && i < |r.states| && k < |r.states[i].history.runs|
    ensures AnswersItsBatch(cfg, r.states[i], r.states[i].history.runs[k])
    ensures var s := r.states[i];
      forall l, t :: 0 <= l < |s.history.runs| && InRun(s.history.runs[k], t) && InRun(s.history.runs[l], t) ==> l == k
  {
    hide FromRun, IsTrace, Meant, Accepted;
    var s := r.states[i];
    var runs := s.history.runs;
    TraceStaysMeant(cfg, initial, r, i);
    forall l, t | 0 <= l < |runs| && InRun(runs[k], t) && InRun(runs[l], t)
      ensures l == k
    {
      var p :| 0 <= p < |runs[k].jobs| && runs[k].jobs[p].token == t;
      RunsShareNothing(cfg, initial, r, i, k, p);
    }
    forall m | 0 <= m < |s.replies| && InRun(runs[k], s.replies[m].token)
      ensures FromRun(cfg, s, runs[k], s.replies[m])
    {
      var p :| 0 <= p < |runs[k].jobs| && runs[k].jobs[p].token == s.replies[m].token;
      RunJobsAreAccepted(cfg, s, k, p);
      StatusTellsThePath(cfg, initial, r, i, m);
      var l := ReplyHasARun(cfg, s, m);
    }
  }

  /** Batching preserves meaning: for any grouping into batches and any reloads in between, a successful answer is
      what one validated session of the adopted width gives for that request's features alone; every other answer to
      a job of its batch came from the same run of the same session. */
  lemma OkRepliesAreTheModelsOwn(cfg: Config, initial: Session, r: Trace, i: nat, n: nat)
    requires IsTrace(cfg, initial, r) && i < |r.states|
    requires n < |r.states[i].replies| && r.states[i].replies[n].answer.status == Ok
    ensures var s := r.states[i]; var t := s.replies[n].token;
      && t < |s.arrivals|
      && !s.replies[n].answer.usedFallback
      && exists k :: (
        && 0 <= k < |s.history.runs|
        && InRun(s.history.runs[k], t) && !s.history.runs[k].threw
        && FromRun(cfg, s, s.history.runs[k], s.replies[n])
        && Adopted(cfg, s.history.runs[k].session)
        && s.history.runs[k].jobs in s.history.takes
        && AnswersItsBatch(cfg, s, s.history.runs[k]))
  {
    hide IsTrace, AnswersItsBatch, BidFor, Optimize, InRun;
    var s := r.states[i];
    TraceStaysMeant(cfg, initial, r, i);
    TraceStaysVersioned(cfg, initial, r, i);
    var k := ReplyHasARun(cfg, s, n);
    RunAnswersItsBatch(cfg, initial, r, i, k);
    assert RunsMeant(s.history) && s.history.runs[k].session in s.history.sessions;
  }
}
