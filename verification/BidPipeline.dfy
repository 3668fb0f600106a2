/** The pipeline object (cpp-bidder/src/bid_pipeline.cpp): `process`, its callback, and the reload, each run
    without interruption. Their interleavings are the steps of module Serving. */
module BidPipelines {
  import opened Types
  import opened Fallback
  import opened ModelSessions
  import opened MicroBatchers
  import opened Serving
  import BidOptimizer
  import CB = CircuitBreakers
  import DC = DedupCaches

  /** The state requests share, and the `done` calls made so far. */
  datatype Shared = Shared(cache: DC.Cache, breaker: CB.Breaker, queue: seq<Job>, replies: seq<Reply>)

  function SharedOf(s: System): Shared {
    Shared(s.cache, s.breaker, s.queue, s.replies)
  }

  function Replied(sh: Shared, t: nat, a: Answer): Shared {
    sh.(replies := sh.replies + [Reply(t, a)])
  }

  /** One request, with the clock readings its cache and breaker calls take. */
  function AfterProcess(cfg: Config, sh: Shared, stopping: bool, t: nat, req: Request, t0: int, t1: int): Shared {
    var found := DC.Lookup(sh.cache, t0, req.id);
    var looked := sh.(cache := DC.AfterGet(sh.cache, t0, req.id));
    if found.Some? then Replied(looked, t, Answer(found.value, false, CacheHit))
    else
      var asked := looked.(breaker := CB.AfterAsk(cfg.breaker, sh.breaker, t1));
      if !CB.Admits(cfg.breaker, sh.breaker, t1)
        then Replied(asked, t, Answer(FallbackFor(cfg, req), true, FallbackOpen))
      else if Admits(sh.queue, stopping, cfg.queueMax) then asked.(queue := sh.queue + [Job(t, req, cfg.encode(req))])
      else Replied(asked, t, Answer(EMPTY_DECISION, false, ResourceExhausted))
  }

  /** One callback of a finished batch. */
  function AfterCallback(cfg: Config, sh: Shared, call: Callback, t0: int, t1: int): Shared {
    var req := call.job.request;
    if !call.ok then
      Replied(sh.(breaker := CB.AfterFailure(cfg.breaker, sh.breaker, t0)), call.job.token,
        Answer(FallbackFor(cfg, req), true, FallbackError))
    else
      var d := Decide(cfg, call.probs, req);
      Replied(sh.(breaker := CB.AfterSuccess(sh.breaker), cache := DC.AfterPut(cfg.cache, sh.cache, t1, req.id, d)),
        call.job.token, Answer(d, false, Ok))
  }

  /** The `done` call of one callback. */
  function ReplyTo(cfg: Config, call: Callback): Reply {
    var req := call.job.request;
    Reply(call.job.token,
      if call.ok then Answer(BidOptimizer.Optimize(call.probs, req.impressionValue, cfg.multiplier), false, Ok)
      else Answer(BidFor(cfg.fallback, req, cfg.multiplier), true, FallbackError))
  }

  /** What a successful callback puts in the cache. */
  function Put(cfg: Config, call: Callback, now: int): DC.Event {
    DC.Put(now, call.job.request.id,
      BidOptimizer.Optimize(call.probs, call.job.request.impressionValue, cfg.multiplier))
  }

  /** How a batch run on `session` calls back its jobs: each with its own row, or all with a failure. */
  function RoundCalls(session: Session, batch: seq<Job>, throws: bool): seq<Callback> {
    seq(|batch|, i requires 0 <= i < |batch| =>
      Callback(batch[i], !throws, if throws then [] else session.row(batch[i].features)))
  }

  function RepliesTo(cfg: Config, calls: seq<Callback>): seq<Reply> {
    seq(|calls|, i requires 0 <= i < |calls| => ReplyTo(cfg, calls[i]))
  }

  /** What reaches the breaker: a success or a failure for each callback. */
  function Results(calls: seq<Callback>, now: int): seq<CB.Event> {
    seq(|calls|, i requires 0 <= i < |calls| => if calls[i].ok then CB.Succeeded(now) else CB.Failed(now))
  }

  /** What reaches the cache: a put for each successful callback. */
  function Puts(cfg: Config, calls: seq<Callback>, now: int): seq<DC.Event> {
    if calls == [] then []
    else
      var call := calls[|calls| - 1];
      Puts(cfg, calls[..|calls| - 1], now) + if call.ok then [Put(cfg, call, now)] else []
  }

  lemma OneMoreCallback(cfg: Config, calls: seq<Callback>, i: nat, now: int)
    requires i < |calls|
    ensures RepliesTo(cfg, calls[..i + 1]) == RepliesTo(cfg, calls[..i]) + [ReplyTo(cfg, calls[i])]
    ensures Results(calls[..i + 1], now)
      == Results(calls[..i], now) + [if calls[i].ok then CB.Succeeded(now) else CB.Failed(now)]
    ensures Puts(cfg, calls[..i + 1], now)
      == Puts(cfg, calls[..i], now) + if calls[i].ok then [Put(cfg, calls[i], now)] else []
  {
    hide ReplyTo, Put;
    assert calls[..i + 1][..i] == calls[..i];
  }

  class BidPipeline {
    const cfg: Config
    const cache: DC.DedupCache
    const breaker: CB.CircuitBreaker
    const model: ModelSession
    const batcher: MicroBatcher
    var modelVersion: nat
    var replies: seq<Reply>

    ghost function View(): Shared
      reads this, cache, breaker, batcher
    {
      Shared(cache.View(), breaker.View(), batcher.queue, replies)
    }

    ghost predicate Valid()
      reads this, cache, breaker, model, batcher
    {
      && cache.Valid() && cache.cfg == cfg.cache
      && breaker.Valid() && breaker.cfg == cfg.breaker
      && model.Valid() && model.numBins == cfg.numBins
      && batcher.model == model && batcher.batchMax == cfg.batchMax && batcher.queueMax == cfg.queueMax
    }

    ghost predicate ClockAt(t0: int, t1: int)
      reads cache, breaker
    {
      cache.ClockAt(t0) && breaker.ClockAt(t1)
    }

    constructor (cfg: Config, initial: Session, shape: seq<int>)
      requires Adopted(cfg, initial) && AdoptedBins(shape) == cfg.numBins
      ensures Valid() && this.cfg == cfg && model.session == initial && modelVersion == 1
      ensures View() == SharedOf(Initial(cfg, initial)) && !batcher.stopping
      ensures fresh(cache) && fresh(breaker) && fresh(model) && fresh(batcher)
    {
      var sessions := new ModelSession(initial, shape);
      this.cfg := cfg;
      model := sessions;
      cache := new DC.DedupCache(cfg.cache);
      breaker := new CB.CircuitBreaker(cfg.breaker);
      batcher := new MicroBatcher(sessions, cfg.batchMax, cfg.queueMax);
      modelVersion, replies := 1, [];
    }

    method Done(t: nat, a: Answer)
      modifies this`replies
      ensures replies == old(replies) + [Reply(t, a)]
    {
      replies := replies + [Reply(t, a)];
    }

    /** The id was put less than the TTL ago and was never crowded out since. */
    ghost predicate Remembers(id: string, now: int)
      reads cache
    {
      DC.Unexpired(cfg.cache, cache.history, id, now) && DC.NeverCrowdedOut(cfg.cache, cache.history, id)
    }

    /** A retry the cache remembers is answered with the latest put and goes no further. Any other request asks the
        breaker; while it is cooling down the fallback is bid. Otherwise the request, encoded, joins the queue if there
        is room and no stop, and is shed if not. */
    method Process(t: nat, req: Request, t0: int, t1: int)
      requires Valid() && ClockAt(t0, t1)
      modifies this`replies, cache, breaker, batcher`queue
      ensures Valid()
      ensures View() == AfterProcess(cfg, old(View()), batcher.stopping, t, req, t0, t1)
      ensures old(Remembers(req.id, t0)) ==>
        && replies
             == old(replies) + [Reply(t, Answer(old(DC.LatestPut(cache.history, req.id)).value.1, false, CacheHit))]
        && breaker.history == old(breaker.history) && batcher.queue == old(batcher.queue)
      ensures !old(Remembers(req.id, t0)) ==>
        breaker.history == old(breaker.history) + [CB.Asked(t1, !CB.CoolingDown(cfg.breaker, old(breaker.history), t1))]
      ensures !old(Remembers(req.id, t0)) && CB.CoolingDown(cfg.breaker, old(breaker.history), t1) ==>
        && replies == old(replies) + [Reply(t, Answer(BidFor(cfg.fallback, req, cfg.multiplier), true, FallbackOpen))]
        && batcher.queue == old(batcher.queue)
      ensures !old(Remembers(req.id, t0)) && !CB.CoolingDown(cfg.breaker, old(breaker.history), t1) ==>
        if !batcher.stopping && |old(batcher.queue)| < cfg.queueMax
        then replies == old(replies) && batcher.queue == old(batcher.queue) + [Job(t, req, cfg.encode(req))]
        else replies == old(replies) + [Reply(t, Answer(Decision(0.0, 0.0, 0.0), false, ResourceExhausted))]
             && batcher.queue == old(batcher.queue)
      ensures cache.history == old(cache.history)
        + [DC.Get(t0, req.id, if old(Remembers(req.id, t0)) then Some(old(DC.LatestPut(cache.history, req.id)).value.1)
                              else None)]
    {
      hide DC.AfterGet, DC.Lookup, DC.Unexpired, DC.NeverCrowdedOut, DC.LatestPut, DC.IsRun, DC.After;
      hide CB.AfterAsk, CB.Admits, CB.CoolingDown, CB.IsRun, CB.After, BidFor;
      var cached := cache.Lookup(t0, req.id);
      DC.AnswerOfAGet(cfg.cache, old(cache.history), DC.Get(t0, req.id, cached));
      if cached.Some? {
        Done(t, Answer(cached.value, false, CacheHit));
        return;
      }
      var allowed := breaker.AllowRequest(t1);
      if !allowed {
        Done(t, Answer(FallbackFor(cfg, req), true, FallbackOpen));
        return;
      }
      var enc := cfg.encode(req);
      var accepted := batcher.Submit(Job(t, req, enc));
      if !accepted {
        Done(t, Answer(EMPTY_DECISION, false, ResourceExhausted));
      }
    }

    /** What a job's callback does when its batch has run. A failed run is a failure to the breaker, leaves the cache
        alone and is answered by the fallback; a successful one is a success, is put in the cache under the request's
        id, and is answered by what was put. */
    method Complete(call: Callback, t0: int, t1: int)
      requires Valid() && ClockAt(t1, t0)
      modifies this`replies, cache, breaker
      ensures Valid()
      ensures View() == AfterCallback(cfg, old(View()), call, t0, t1)
      ensures breaker.history == old(breaker.history) + [if call.ok then CB.Succeeded(t0) else CB.Failed(t0)]
      ensures cache.history == old(cache.history) + if call.ok then [Put(cfg, call, t1)] else []
      ensures replies == old(replies) + [ReplyTo(cfg, call)]
      ensures breaker.ClockAt(t0) && (call.ok ==> cache.ClockAt(t1))
    {
      hide DC.AfterPut, CB.AfterSuccess, CB.AfterFailure, DC.IsRun, DC.After, CB.IsRun, CB.After, BidFor;
      hide BidOptimizer.Optimize;
      var req := call.job.request;
      if !call.ok {
        breaker.RecordFailure(t0);
        Done(call.job.token, Answer(FallbackFor(cfg, req), true, FallbackError));
        return;
      }
      breaker.RecordSuccess(t0);
      var d := BidOptimizer.OptimizeBid(call.probs, req.impressionValue, cfg.multiplier);
      cache.Store(t1, req.id, d);
      Done(call.job.token, Answer(d, false, Ok));
    }

    /** The callbacks of one batch, in order. */
    method CompleteAll(calls: seq<Callback>, now: int)
      requires Valid() && ClockAt(now, now)
      modifies this`replies, cache, breaker
      ensures Valid()
      ensures replies == old(replies) + RepliesTo(cfg, calls)
      ensures breaker.history == old(breaker.history) + Results(calls, now)
      ensures cache.history == old(cache.history) + Puts(cfg, calls, now)
    {
      hide AfterCallback, ReplyTo, Put, DC.IsRun, DC.After, CB.IsRun, CB.After;
      for i := 0 to |calls|
        invariant Valid() && ClockAt(now, now)
        invariant replies == old(replies) + RepliesTo(cfg, calls[..i])
        invariant breaker.history == old(breaker.history) + Results(calls[..i], now)
        invariant cache.history == old(cache.history) + Puts(cfg, calls[..i], now)
      {
        Complete(calls[i], now, now);
        OneMoreCallback(cfg, calls, i, now);
      }
      assert calls[..|calls|] == calls;
    }

    /** One round of a worker: pop a batch, run it, fire its callbacks. Every popped job is answered once, in
        acceptance order, from its own row or, when the run threw, with its own fallback; as many successes or failures
        reach the breaker, and only what a successful run decided the cache. */
    method WorkerRound(throws: bool, now: int) returns (batch: seq<Job>)
      requires Valid() && ClockAt(now, now)
      requires batcher.queue != []
      modifies this`replies, cache, breaker, batcher`queue
      ensures Valid()
      ensures batch + batcher.queue == old(batcher.queue)
      ensures |batch| == Max(0, Min(|old(batcher.queue)|, cfg.batchMax))
      ensures var calls := RoundCalls(model.session, batch, throws);
        && replies == old(replies) + RepliesTo(cfg, calls)
        && breaker.history == old(breaker.history) + Results(calls, now)
        && cache.history == old(cache.history) + Puts(cfg, calls, now)
    {
      hide RepliesTo, Results, Puts, DC.IsRun, DC.After, CB.IsRun, CB.After;
      var exit;
      exit, batch := batcher.TakeBatch();
      var calls := batcher.RunBatch(batch, throws);
      assert calls == RoundCalls(model.session, batch, throws);
      CompleteAll(calls, now);
    }

    /** Hot reload: false, with nothing changed, exactly when the candidate fails validation. */
    method ReloadModel(c: Candidate) returns (ok: bool)
      requires Valid() && (c.Fresh? ==> IsRowWise(c.session))
      modifies this`modelVersion, model
      ensures Valid()
      ensures ok <==> c.Fresh? && c.rank == 2 && c.session.width == cfg.numBins && c.finiteOnZeros
      ensures model.session == if ok then c.session else old(model.session)
      ensures modelVersion == old(modelVersion) + if ok then 1 else 0
    {
      ok := model.Reload(c);
      if !ok {
        return;
      }
      modelVersion := modelVersion + 1;
    }
  }

  // ---------- uninterrupted calls are among the interleavings ----------

  /** Taking `steps` one after the other, with nothing in between, leads from `s` to `n`. */
  ghost predicate Leads(cfg: Config, s: System, steps: seq<Step>, n: System)
    decreases |steps|
  {
    if steps == [] then n == s
    else Enabled(cfg, s, steps[0]) && Leads(cfg, Next(cfg, s, steps[0]), steps[1..], n)
  }

  lemma LeadsOn(cfg: Config, s: System, step: Step, rest: seq<Step>, n: System)
    requires Enabled(cfg, s, step) && Leads(cfg, Next(cfg, s, step), rest, n)
    ensures Leads(cfg, s, [step] + rest, n)
  {
    assert ([step] + rest)[1..] == rest;
  }

  /** The end of `process`, from the queue on. */
  lemma SubmitIsItsSteps(cfg: Config, s: System, t: nat) returns (steps: seq<Step>, n: System)
    requires CallerAt(s, t) && s.callers[t] == AtSubmit
    ensures Leads(cfg, s, steps, n)
    ensures n.callers == s.callers - {t} && n.arrivals == s.arrivals
    ensures SharedOf(n) ==
      if Admits(s.queue, Stopping(s), cfg.queueMax) then SharedOf(s).(queue := s.queue + [JobFor(cfg, s, t)])
      else Replied(SharedOf(s), t, Answer(EMPTY_DECISION, false, ResourceExhausted))
  {
    var d := Next(cfg, s, Submit(t));
    if t in d.callers {
      steps, n := FinishCall(cfg, d, t);
    } else {
      steps, n := [], d;
    }
    LeadsOn(cfg, s, Submit(t), steps, n);
    steps := [Submit(t)] + steps;
  }

  /** The end of `process`, from the breaker on. */
  lemma BreakerIsItsSteps(cfg: Config, s: System, t: nat, t1: int) returns (steps: seq<Step>, n: System)
    requires CallerAt(s, t) && s.callers[t] == AtBreaker && s.now <= t1
    ensures Leads(cfg, s, steps, n)
    ensures n.callers == s.callers - {t} && n.arrivals == s.arrivals
    ensures var asked := SharedOf(s).(breaker := CB.AfterAsk(cfg.breaker, s.breaker, t1));
      SharedOf(n) ==
      if !CB.Admits(cfg.breaker, s.breaker, t1)
        then Replied(asked, t, Answer(FallbackFor(cfg, s.arrivals[t]), true, FallbackOpen))
      else if Admits(s.queue, Stopping(s), cfg.queueMax) then asked.(queue := s.queue + [JobFor(cfg, s, t)])
      else Replied(asked, t, Answer(EMPTY_DECISION, false, ResourceExhausted))
  {
    hide CB.Admits, CB.AfterAsk, FallbackFor, Leads;
    var b := Next(cfg, s, Tick(t1));
    var c := Next(cfg, b, AskBreaker(t));
    assert c == AfterAskBreaker(cfg, b, t);
    if c.callers[t].AtDone? {
      steps, n := FinishCall(cfg, c, t);
    } else {
      steps, n := SubmitIsItsSteps(cfg, c, t);
    }
    LeadsOn(cfg, b, AskBreaker(t), steps, n);
    LeadsOn(cfg, s, Tick(t1), [AskBreaker(t)] + steps, n);
    steps := [Tick(t1)] + ([AskBreaker(t)] + steps);
  }

  /** `process` without interruption is its steps in sequence: the cache, the breaker, the queue, `done`. */
  lemma ProcessIsItsSteps(cfg: Config, s: System, req: Request, t0: int, t1: int) returns (steps: seq<Step>, n: System)
    requires s.now <= t0 <= t1
    ensures Leads(cfg, s, steps, n)
    ensures SharedOf(n) == AfterProcess(cfg, SharedOf(s), Stopping(s), |s.arrivals|, req, t0, t1)
    ensures n.callers == s.callers - {|s.arrivals|} && n.arrivals == s.arrivals + [req]
  {
    hide DC.Lookup, DC.AfterGet, CB.Admits, CB.AfterAsk, FallbackFor, Leads;
    var t := |s.arrivals|;
    var ticked := Next(cfg, s, Tick(t0));
    var a := Next(cfg, ticked, Arrive(req));
    var b := Next(cfg, a, LookUp(t));
    assert b == AfterLookUp(a, t);
    assert b.callers - {t} == s.callers - {t};
    if b.callers[t].AtDone? {
      steps, n := FinishCall(cfg, b, t);
    } else {
      steps, n := BreakerIsItsSteps(cfg, b, t, t1);
    }
    LeadsOn(cfg, a, LookUp(t), steps, n);
    LeadsOn(cfg, ticked, Arrive(req), [LookUp(t)] + steps, n);
    LeadsOn(cfg, s, Tick(t0), [Arrive(req)] + ([LookUp(t)] + steps), n);
    steps := [Tick(t0)] + ([Arrive(req)] + ([LookUp(t)] + steps));
  }

  lemma FinishCall(cfg: Config, s: System, t: nat) returns (steps: seq<Step>, n: System)
    requires CallerAt(s, t) && s.callers[t].AtDone?
    ensures Leads(cfg, s, steps, n)
    ensures n == s.(callers := s.callers - {t}, replies := s.replies + [Reply(t, s.callers[t].answer)])
  {
    n := Next(cfg, s, CallDone(t));
    LeadsOn(cfg, s, CallDone(t), [], n);
    steps := [CallDone(t)];
    assert [CallDone(t)] + [] == steps;
  }

  /** The end of a callback whose run succeeded: the cache, then `done`. */
  lemma PuttingIsItsSteps(cfg: Config, s: System, w: nat, t1: int) returns (steps: seq<Step>, n: System)
    requires s.now <= t1 && AtStage(s, w, AtPut) && s.workers[w].rows.Some?
    ensures Leads(cfg, s, steps, n)
    ensures var me := s.workers[w]; var job := me.batch[me.next]; var a := CallbackAnswer(cfg, me);
      SharedOf(n) == Replied(SharedOf(s).(cache := DC.AfterPut(cfg.cache, s.cache, t1, job.request.id, a.decision)),
        job.token, a)
  {
    hide DC.AfterPut, FallbackFor, Decide, Leads;
    var c := Next(cfg, s, Tick(t1));
    var d := Next(cfg, c, PutDecision(w));
    steps, n := AnsweringIsItsStep(cfg, d, w);
    LeadsOn(cfg, c, PutDecision(w), steps, n);
    LeadsOn(cfg, s, Tick(t1), [PutDecision(w)] + steps, n);
    steps := [Tick(t1)] + ([PutDecision(w)] + steps);
  }

  lemma AnsweringIsItsStep(cfg: Config, s: System, w: nat) returns (steps: seq<Step>, n: System)
    requires AtStage(s, w, AtReply)
    ensures Leads(cfg, s, steps, n)
    ensures var me := s.workers[w];
      SharedOf(n) == Replied(SharedOf(s), me.batch[me.next].token, CallbackAnswer(cfg, me))
  {
    n := Next(cfg, s, FireDone(w));
    LeadsOn(cfg, s, FireDone(w), [], n);
    steps := [FireDone(w)] + [];
    hide CallbackAnswer;
  }

  /** A job's callback without interruption is its steps in sequence: the breaker, the cache, `done`. */
  lemma CallbackIsItsSteps(cfg: Config, s: System, w: nat, t0: int, t1: int) returns (steps: seq<Step>, n: System)
    requires s.now <= t0 <= t1 && AtStage(s, w, AtResult)
    ensures Leads(cfg, s, steps, n)
    ensures var me := s.workers[w];
      SharedOf(n) == AfterCallback(cfg, SharedOf(s),
        Callback(me.batch[me.next], me.rows.Some?, if me.rows.Some? then me.rows.value[me.next] else []), t0, t1)
  {
    hide DC.AfterPut, CB.AfterFailure, CB.AfterSuccess, FallbackFor, Decide, Leads;
    var a := Next(cfg, s, Tick(t0));
    var b := Next(cfg, a, RecordResult(w));
    if s.workers[w].rows.Some? {
      steps, n := PuttingIsItsSteps(cfg, b, w, t1);
    } else {
      steps, n := AnsweringIsItsStep(cfg, b, w);
    }
    LeadsOn(cfg, a, RecordResult(w), steps, n);
    LeadsOn(cfg, s, Tick(t0), [RecordResult(w)] + steps, n);
    steps := [Tick(t0)] + ([RecordResult(w)] + steps);
  }
}
