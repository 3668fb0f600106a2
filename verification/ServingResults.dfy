/** What the callbacks of the batches tell the breaker and the cache (cpp-bidder/src/bid_pipeline.cpp), in every
    interleaving: each call on either belongs to one request, and each result of a run reaches both. */
module ServingResults {
  import opened Types
  import opened Fallback
  import opened MicroBatchers
  import opened Serving
  import opened ServingFrames
  import opened ServingTally
  import opened ServingQueue
  import opened ServingDrain
  import opened ServingRuns
  import opened ServingMeaning
  import opened BidOptimizer
  import CB = CircuitBreakers
  import DC = DedupCaches

  // ---------- who made which call ----------

  /** No two requests made the same call. */
  ghost predicate Injective(m: map<nat, nat>) {
    forall t, u :: t in m && u in m && m[t] == m[u] ==> t == u
  }

  ghost predicate Within(m: map<nat, nat>, n: nat) {
    forall t :: t in m ==> m[t] < n
  }

  lemma OneMoreCall(m: map<nat, nat>, t: nat, n: nat)
    requires Injective(m) && Within(m, n) && t !in m
    ensures Injective(m[t := n]) && Within(m[t := n], n + 1)
  {
  }

  /** Call `k` on the breaker is request `t`'s ask, or the result of its run. */
  ghost predicate MadeBreakerCall(h: History, k: nat, t: nat)
    requires k < |h.breakerCalls|
  {
    if h.breakerCalls[k].Asked? then t in h.asked && h.asked[t] == k else t in h.reported && h.reported[t] == k
  }

  /** Call `k` on the cache is request `t`'s look-up, or its put. */
  ghost predicate MadeCacheCall(h: History, k: nat, t: nat)
    requires k < |h.cacheCalls|
  {
    if h.cacheCalls[k].Get? then t in h.lookedUp && h.lookedUp[t] == k else t in h.stored && h.stored[t] == k
  }

  ghost predicate IsOwnedBreakerCall(h: History, k: nat)
    requires k < |h.breakerCalls|
  {
    exists t :: MadeBreakerCall(h, k, t)
  }

  /** Every call on the breaker is one request's ask or one job's result. */
  ghost predicate BreakerCallsOwned(h: History) {
    && Injective(h.asked) && Within(h.asked, |h.breakerCalls|)
    && Injective(h.reported) && Within(h.reported, |h.breakerCalls|)
    && (forall k :: 0 <= k < |h.breakerCalls| ==> IsOwnedBreakerCall(h, k))
  }

  ghost predicate IsOwnedCacheCall(h: History, k: nat)
    requires k < |h.cacheCalls|
  {
    exists t :: MadeCacheCall(h, k, t)
  }

  /** Every call on the cache is one request's look-up or one job's put. */
  ghost predicate CacheCallsOwned(h: History) {
    && Injective(h.lookedUp) && Within(h.lookedUp, |h.cacheCalls|)
    && Injective(h.stored) && Within(h.stored, |h.cacheCalls|)
    && (forall k :: 0 <= k < |h.cacheCalls| ==> IsOwnedCacheCall(h, k))
  }

  lemma StillBreakerOwned(h: History, g: History, k: nat, t: nat, n: nat)
    requires k < |h.breakerCalls| && h.breakerCalls <= g.breakerCalls && IsOwnedBreakerCall(h, k)
    requires g.asked == h.asked || (t !in h.asked && g.asked == h.asked[t := n])
    requires g.reported == h.reported || (t !in h.reported && g.reported == h.reported[t := n])
    ensures IsOwnedBreakerCall(g, k)
  {
    var u :| MadeBreakerCall(h, k, u);
    assert MadeBreakerCall(g, k, u);
  }

  lemma OneMoreBreakerCall(h: History, g: History, t: nat, e: CB.Event)
    requires BreakerCallsOwned(h) && g.breakerCalls == h.breakerCalls + [e]
    requires e.Asked? ==> t !in h.asked && g.asked == h.asked[t := |h.breakerCalls|] && g.reported == h.reported
    requires !e.Asked? ==> t !in h.reported && g.reported == h.reported[t := |h.breakerCalls|] && g.asked == h.asked
    ensures BreakerCallsOwned(g)
  {
    var n := |h.breakerCalls|;
    if e.Asked? {
      OneMoreCall(h.asked, t, n);
    } else {
      OneMoreCall(h.reported, t, n);
    }
    hide Injective, Within;
    forall k | 0 <= k < |g.breakerCalls|
      ensures IsOwnedBreakerCall(g, k)
    {
      if k < n {
        assert IsOwnedBreakerCall(h, k);
        StillBreakerOwned(h, g, k, t, n);
      } else {
        assert MadeBreakerCall(g, k, t);
      }
    }
  }

  lemma StillCacheOwned(h: History, g: History, k: nat, t: nat, n: nat)
    requires k < |h.cacheCalls| && h.cacheCalls <= g.cacheCalls && IsOwnedCacheCall(h, k)
    requires g.lookedUp == h.lookedUp || (t !in h.lookedUp && g.lookedUp == h.lookedUp[t := n])
    requires g.stored == h.stored || (t !in h.stored && g.stored == h.stored[t := n])
    ensures IsOwnedCacheCall(g, k)
  {
    var u :| MadeCacheCall(h, k, u);
    assert MadeCacheCall(g, k, u);
  }

  lemma OneMoreCacheCall(h: History, g: History, t: nat, e: DC.Event)
    requires CacheCallsOwned(h) && g.cacheCalls == h.cacheCalls + [e]
    requires e.Get? ==> t !in h.lookedUp && g.lookedUp == h.lookedUp[t := |h.cacheCalls|] && g.stored == h.stored
    requires e.Put? ==> t !in h.stored && g.stored == h.stored[t := |h.cacheCalls|] && g.lookedUp == h.lookedUp
    ensures CacheCallsOwned(g)
  {
    var n := |h.cacheCalls|;
    if e.Get? {
      OneMoreCall(h.lookedUp, t, n);
    } else {
      OneMoreCall(h.stored, t, n);
    }
    hide Injective, Within;
    forall k | 0 <= k < |g.cacheCalls|
      ensures IsOwnedCacheCall(g, k)
    {
      if k < n {
        assert IsOwnedCacheCall(h, k);
        StillCacheOwned(h, g, k, t, n);
      } else {
        assert MadeCacheCall(g, k, t);
      }
    }
  }

  // ---------- how far a job's callback has come ----------

  /** Some worker is at job `t` of its batch, past giving the result to the breaker. */
  ghost predicate PastResult(w: Worker, t: nat) {
    w.Delivering? && w.next < |w.batch| && w.batch[w.next].token == t && w.stage != AtResult
  }

  /** ... and past the cache, its run having succeeded. */
  ghost predicate PastPut(w: Worker, t: nat) {
    PastResult(w, t) && w.stage == AtReply && w.rows.Some?
  }

  predicate FromCallback(a: Answer) {
    a.status == Ok || a.status == FallbackError
  }

  ghost predicate CalledBack(s: System, t: nat) {
    exists n :: 0 <= n < |s.replies| && s.replies[n].token == t && FromCallback(s.replies[n].answer)
  }

  ghost predicate AnsweredOk(s: System, t: nat) {
    exists n :: 0 <= n < |s.replies| && s.replies[n].token == t && s.replies[n].answer.status == Ok
  }

  ghost predicate AtWorker(s: System, t: nat) {
    exists w :: 0 <= w < |s.workers| && PastResult(s.workers[w], t)
  }

  ghost predicate AtWorkerStored(s: System, t: nat) {
    exists w :: 0 <= w < |s.workers| && PastPut(s.workers[w], t)
  }

  /** The breaker has been told the result of the run of job `t`. */
  ghost predicate Told(h: History, t: nat, succeeded: bool) {
    && t in h.reported && h.reported[t] < |h.breakerCalls|
    && if succeeded then h.breakerCalls[h.reported[t]].Succeeded? else h.breakerCalls[h.reported[t]].Failed?
  }

  /** The cache has been given this decision for job `t`, under its id. */
  ghost predicate Kept(h: History, t: nat, id: string, d: Decision) {
    && t in h.stored && h.stored[t] < |h.cacheCalls|
    && var put := h.cacheCalls[h.stored[t]];
    && put.Put? && put.id == id && put.decision == d
  }

  /** The breaker is told of exactly the jobs whose callbacks have passed that point, each with its own run's result. */
  ghost predicate ResultsTold(s: System) {
    && (forall t :: t in s.history.reported <==> CalledBack(s, t) || AtWorker(s, t))
    && (forall n :: 0 <= n < |s.replies| && FromCallback(s.replies[n].answer) ==>
          Told(s.history, s.replies[n].token, s.replies[n].answer.status == Ok))
    && (forall w, t :: 0 <= w < |s.workers| && PastResult(s.workers[w], t) ==>
          Told(s.history, t, s.workers[w].rows.Some?))
  }

  /** The cache is given exactly the decisions of successful runs, each under its request's id. */
  ghost predicate DecisionsKept(cfg: Config, s: System) {
    && (forall t :: t in s.history.stored <==> AnsweredOk(s, t) || AtWorkerStored(s, t))
    && (forall n :: 0 <= n < |s.replies| && s.replies[n].answer.status == Ok ==>
          s.replies[n].token < |s.arrivals| &&
          Kept(s.history, s.replies[n].token, s.arrivals[s.replies[n].token].id, s.replies[n].answer.decision))
    && (forall w, t :: 0 <= w < |s.workers| && PastPut(s.workers[w], t) ==>
          var me := s.workers[w];
          |me.rows.value| == |me.batch| &&
          Kept(s.history, t, me.batch[me.next].request.id, CallbackAnswer(cfg, me).decision))
  }

  // ---------- steps that move no callback ----------

  ghost predicate SameCallbacks(s: System, n: System) {
    && |n.workers| == |s.workers|
    && (forall w, t :: 0 <= w < |s.workers| ==> (PastResult(n.workers[w], t) <==> PastResult(s.workers[w], t)))
    && (forall w, t :: 0 <= w < |s.workers| && PastResult(s.workers[w], t) ==> n.workers[w] == s.workers[w])
    && s.arrivals <= n.arrivals && s.replies <= n.replies
    && (forall k :: |s.replies| <= k < |n.replies| ==> !FromCallback(n.replies[k].answer))
    && s.history.breakerCalls <= n.history.breakerCalls && s.history.cacheCalls <= n.history.cacheCalls
    && n.history.reported == s.history.reported && n.history.stored == s.history.stored
  }

  lemma SameCalledBack(s: System, n: System, t: nat)
    requires s.replies <= n.replies
    requires forall k :: |s.replies| <= k < |n.replies| ==> !FromCallback(n.replies[k].answer)
    ensures CalledBack(n, t) <==> CalledBack(s, t)
    ensures AnsweredOk(n, t) <==> AnsweredOk(s, t)
  {
    if k :| 0 <= k < |s.replies| && s.replies[k].token == t && FromCallback(s.replies[k].answer) {
      assert n.replies[k] == s.replies[k];
    }
    if k :| 0 <= k < |s.replies| && s.replies[k].token == t && s.replies[k].answer.status == Ok {
      assert n.replies[k] == s.replies[k];
    }
  }

  lemma SameAtWorkers(s: System, n: System, t: nat)
    requires SameCallbacks(s, n)
    ensures AtWorker(n, t) <==> AtWorker(s, t)
    ensures AtWorkerStored(n, t) <==> AtWorkerStored(s, t)
  {
    hide PastResult;
    if w :| 0 <= w < |s.workers| && PastResult(s.workers[w], t) {
      assert PastResult(n.workers[w], t);
    }
    if w :| 0 <= w < |s.workers| && PastPut(s.workers[w], t) {
      assert PastPut(n.workers[w], t);
    }
  }

  lemma SameCallbacksStayTold(s: System, n: System)
    requires ResultsTold(s) && SameCallbacks(s, n)
    ensures ResultsTold(n)
  {
    hide CalledBack, AtWorker, PastResult;
    forall t
      ensures t in n.history.reported <==> CalledBack(n, t) || AtWorker(n, t)
    {
      SameCalledBack(s, n, t);
      SameAtWorkers(s, n, t);
    }
    hide AnsweredOk, AtWorkerStored;
    forall k | 0 <= k < |n.replies| && FromCallback(n.replies[k].answer)
      ensures Told(n.history, n.replies[k].token, n.replies[k].answer.status == Ok)
    {
      assert k < |s.replies| && n.replies[k] == s.replies[k];
    }
  }

  lemma SameCallbacksStayKept(cfg: Config, s: System, n: System)
    requires DecisionsKept(cfg, s) && SameCallbacks(s, n)
    ensures DecisionsKept(cfg, n)
  {
    hide AnsweredOk, AtWorkerStored, PastResult, CallbackAnswer;
    forall t
      ensures t in n.history.stored <==> AnsweredOk(n, t) || AtWorkerStored(n, t)
    {
      SameCalledBack(s, n, t);
      SameAtWorkers(s, n, t);
    }
    hide CalledBack, AtWorker;
    forall k | 0 <= k < |n.replies| && n.replies[k].answer.status == Ok
      ensures n.replies[k].token < |n.arrivals|
      ensures Kept(n.history, n.replies[k].token, n.arrivals[n.replies[k].token].id, n.replies[k].answer.decision)
    {
      assert k < |s.replies| && n.replies[k] == s.replies[k];
    }
  }

  lemma OthersMoveNoCallback(cfg: Config, s: System, step: Step)
    requires CallersMeant(cfg, s) && Enabled(cfg, s, step) && !IsCallbackStep(step)
    ensures SameCallbacks(s, Next(cfg, s, step))
  {
    var n := Next(cfg, s, step);
    CallersLeftAlone(cfg, s, step);
    CallsOnlyGrow(cfg, s, step);
    SameWorkers(cfg, s, step);
    NoCallbackReply(cfg, s, step);
    forall w | 0 <= w < |s.workers|
      ensures IsPast(n.workers[w]) || IsPast(s.workers[w]) ==> n.workers[w] == s.workers[w]
    {
      PastWorkersStay(cfg, s, step, w);
    }
    hide Next, Enabled, CallersMeant;
  }

  predicate IsPast(w: Worker) {
    w.Delivering? && w.stage != AtResult
  }

  lemma PastWorkersStay(cfg: Config, s: System, step: Step, w: nat)
    requires Enabled(cfg, s, step) && !IsCallbackStep(step) && w < |s.workers| == |Next(cfg, s, step).workers|
    ensures var n := Next(cfg, s, step); IsPast(n.workers[w]) || IsPast(s.workers[w]) ==> n.workers[w] == s.workers[w]
  {
    WorkersLeftAlone(cfg, s, step);
    if IsWorkerStep(step) {
      hide Rows, TakeCount;
    } else {
      hide Next, Enabled;
    }
  }

  lemma NoCallbackReply(cfg: Config, s: System, step: Step)
    requires CallersMeant(cfg, s) && Enabled(cfg, s, step) && !IsCallbackStep(step)
    ensures var n := Next(cfg, s, step);
      s.replies <= n.replies && forall k :: |s.replies| <= k < |n.replies| ==> !FromCallback(n.replies[k].answer)
  {
    CallersLeftAlone(cfg, s, step);
    hide Justified;
    if !step.CallDone? {
      hide Next, Enabled, CallersMeant;
    }
  }

  // ---------- the result ----------

  /** A job in hand is nowhere else: not answered, and not in another worker's hand. */
  lemma InHandOnly(s: System, w: nat, t: nat)
    requires Tallied(s) && w < |s.workers| && s.workers[w].Delivering?
    requires s.workers[w].next < |s.workers[w].batch| && s.workers[w].batch[s.workers[w].next].token == t
    ensures !CalledBack(s, t) && !AnsweredOk(s, t)
    ensures forall v :: 0 <= v < |s.workers| && v != w ==> !PastResult(s.workers[v], t)
  {
    assert Everywhere(s, Only(t)) == Arrived(s, Only(t)) <= 1;
    hide Tallied, Jobs, InBatches, Answered;
    HeldIsCounted(s.workers[w], t);
    BatchIsCounted(s.workers, w, Only(t));
    forall n | 0 <= n < |s.replies|
      ensures s.replies[n].token != t
    {
      ReplyIsCounted(s.replies, n);
    }
    forall v | 0 <= v < |s.workers| && v != w
      ensures !PastResult(s.workers[v], t)
    {
      if PastResult(s.workers[v], t) {
        HeldIsCounted(s.workers[v], t);
        TwoBatchesAreCounted(s.workers, Max(v, w), Min(v, w), Only(t));
        assert false;
      }
    }
  }

  lemma HeldIsCounted(w: Worker, t: nat)
    requires w.Delivering? && w.next < |w.batch| && w.batch[w.next].token == t
    ensures Jobs(Held(w), Only(t)) >= 1
  {
    assert Held(w) == [w.batch[w.next]] + w.batch[w.next + 1..];
    JobsSplit([w.batch[w.next]], w.batch[w.next + 1..], Only(t));
    OneJob(w.batch[w.next], Only(t));
  }

  lemma {:induction false} TwoBatchesAreCounted(workers: seq<Worker>, w: nat, v: nat, which: Which)
    requires v < w < |workers|
    ensures InBatches(workers, which) >= Jobs(Held(workers[w]), which) + Jobs(Held(workers[v]), which)
  {
    hide Jobs;
    if w < |workers| - 1 {
      TwoBatchesAreCounted(workers[..|workers| - 1], w, v, which);
    } else {
      BatchIsCounted(workers[..w], v, which);
    }
  }

  lemma {:induction false} ReplyIsCounted(replies: seq<Reply>, n: nat)
    requires n < |replies|
    ensures Answered(replies, Only(replies[n].token)) >= 1
  {
    if n < |replies| - 1 {
      ReplyIsCounted(replies[..|replies| - 1], n);
    }
  }

  /** What giving a result to the breaker does, written out. */
  lemma RecordingTells(cfg: Config, s: System, w: nat)
    requires AtStage(s, w, AtResult)
    ensures var n, me := AfterRecordResult(cfg, s, w), s.workers[w];
      var t := me.batch[me.next].token;
      && n.replies == s.replies && n.arrivals == s.arrivals
      && n.history.cacheCalls == s.history.cacheCalls && n.history.stored == s.history.stored
      && n.history.reported == s.history.reported[t := |s.history.breakerCalls|]
      && n.history.breakerCalls
           == s.history.breakerCalls + [if me.rows.Some? then CB.Succeeded(s.now) else CB.Failed(s.now)]
      && n.workers == s.workers[w := me.(stage := if me.rows.Some? then AtPut else AtReply)]
  {
    hide CB.AfterSuccess, CB.AfterFailure;
  }

  lemma RecordingStaysTold(cfg: Config, s: System, w: nat)
    requires ResultsTold(s) && Tallied(s) && Within(s.history.reported, |s.history.breakerCalls|)
    requires AtStage(s, w, AtResult)
    ensures ResultsTold(AfterRecordResult(cfg, s, w))
    ensures s.workers[w].batch[s.workers[w].next].token !in s.history.reported
  {
    RecordingTells(cfg, s, w);
    var n, me := AfterRecordResult(cfg, s, w), s.workers[w];
    var t := me.batch[me.next].token;
    InHandOnly(s, w, t);
    hide AfterRecordResult, Tallied, CalledBack, AtWorker;
    assert !AtWorker(s, t) by {
      NotAtWorker(s, t);
    }
    assert t !in s.history.reported;
    forall u
      ensures u in n.history.reported <==> CalledBack(n, u) || AtWorker(n, u)
    {
      SameCalledBack(s, n, u);
      OneWorkerMoved(s, n, w, u);
    }
    forall k | 0 <= k < |n.replies| && FromCallback(n.replies[k].answer)
      ensures Told(n.history, n.replies[k].token, n.replies[k].answer.status == Ok)
    {
      assert Told(s.history, s.replies[k].token, s.replies[k].answer.status == Ok);
    }
    forall v, u | 0 <= v < |n.workers| && PastResult(n.workers[v], u)
      ensures Told(n.history, u, n.workers[v].rows.Some?)
    {
      if v != w {
        assert Told(s.history, u, s.workers[v].rows.Some?);
      }
    }
  }

  lemma NotAtWorker(s: System, t: nat)
    requires forall v :: 0 <= v < |s.workers| ==> !PastResult(s.workers[v], t)
    ensures !AtWorker(s, t) && !AtWorkerStored(s, t)
  {
  }

  /** Only worker `w` moved, on its own job. */
  lemma OneWorkerMoved(s: System, n: System, w: nat, u: nat)
    requires w < |s.workers| && |n.workers| == |s.workers| && n.workers == s.workers[w := n.workers[w]]
    ensures AtWorker(n, u) <==> PastResult(n.workers[w], u) || AtWorkerBut(s, w, u)
    ensures AtWorker(s, u) <==> PastResult(s.workers[w], u) || AtWorkerBut(s, w, u)
    ensures AtWorkerStored(n, u) <==> PastPut(n.workers[w], u) || AtWorkerStoredBut(s, w, u)
    ensures AtWorkerStored(s, u) <==> PastPut(s.workers[w], u) || AtWorkerStoredBut(s, w, u)
  {
    hide PastResult, PastPut;
    if v :| 0 <= v < |s.workers| && v != w && PastResult(s.workers[v], u) {
      assert PastResult(n.workers[v], u);
    }
    if v :| 0 <= v < |s.workers| && v != w && PastPut(s.workers[v], u) {
      assert PastPut(n.workers[v], u);
    }
  }

  ghost predicate AtWorkerBut(s: System, w: nat, t: nat) {
    exists v :: 0 <= v < |s.workers| && v != w && PastResult(s.workers[v], t)
  }

  ghost predicate AtWorkerStoredBut(s: System, w: nat, t: nat) {
    exists v :: 0 <= v < |s.workers| && v != w && PastPut(s.workers[v], t)
  }

  lemma RecordingStaysKept(cfg: Config, s: System, w: nat)
    requires DecisionsKept(cfg, s) && AtStage(s, w, AtResult)
    ensures DecisionsKept(cfg, AfterRecordResult(cfg, s, w))
  {
    RecordingTells(cfg, s, w);
    var n := AfterRecordResult(cfg, s, w);
    hide AfterRecordResult, AnsweredOk, AtWorkerStored, CallbackAnswer;
    forall t
      ensures t in n.history.stored <==> AnsweredOk(n, t) || AtWorkerStored(n, t)
    {
      SameCalledBack(s, n, t);
      OneWorkerMoved(s, n, w, t);
    }
    forall v, t | 0 <= v < |n.workers| && PastPut(n.workers[v], t)
      ensures n.workers[v] == s.workers[v]
    {
    }
  }

  /** What a put does, written out. */
  lemma PuttingTells(cfg: Config, s: System, w: nat)
    requires AtStage(s, w, AtPut) && s.workers[w].rows.Some?
    ensures var n, me := AfterPutDecision(cfg, s, w), s.workers[w];
      var job := me.batch[me.next];
      && n.replies == s.replies && n.arrivals == s.arrivals
      && n.history.breakerCalls == s.history.breakerCalls && n.history.reported == s.history.reported
      && n.history.stored == s.history.stored[job.token := |s.history.cacheCalls|]
      && n.history.cacheCalls
           == s.history.cacheCalls + [DC.Put(s.now, job.request.id, CallbackAnswer(cfg, me).decision)]
      && n.workers == s.workers[w := me.(stage := AtReply)]
      && CallbackAnswer(cfg, n.workers[w]) == CallbackAnswer(cfg, me)
  {
    hide DC.AfterPut, Decide, FallbackFor;
  }

  lemma PuttingStaysTold(cfg: Config, s: System, w: nat)
    requires ResultsTold(s) && AtStage(s, w, AtPut) && s.workers[w].rows.Some?
    ensures ResultsTold(AfterPutDecision(cfg, s, w))
  {
    PuttingTells(cfg, s, w);
    var n := AfterPutDecision(cfg, s, w);
    hide AfterPutDecision, CalledBack, AtWorker, CallbackAnswer;
    forall t
      ensures t in n.history.reported <==> CalledBack(n, t) || AtWorker(n, t)
    {
      SameCalledBack(s, n, t);
      OneWorkerMoved(s, n, w, t);
    }
    hide Told;
    forall v, t | 0 <= v < |n.workers| && PastResult(n.workers[v], t)
      ensures Told(n.history, t, n.workers[v].rows.Some?)
    {
      assert PastResult(s.workers[v], t);
      SameTold(s.history, n.history, t, n.workers[v].rows.Some?);
    }
    forall k | 0 <= k < |n.replies| && FromCallback(n.replies[k].answer)
      ensures Told(n.history, n.replies[k].token, n.replies[k].answer.status == Ok)
    {
      SameTold(s.history, n.history, n.replies[k].token, n.replies[k].answer.status == Ok);
    }
  }

  lemma SameTold(h: History, g: History, t: nat, succeeded: bool)
    requires Told(h, t, succeeded) && g.breakerCalls == h.breakerCalls && g.reported == h.reported
    ensures Told(g, t, succeeded)
  {
  }

  lemma PuttingStaysKept(cfg: Config, s: System, w: nat)
    requires DecisionsKept(cfg, s) && Tallied(s) && Within(s.history.stored, |s.history.cacheCalls|)
    requires AtStage(s, w, AtPut) && s.workers[w].rows.Some?
    ensures DecisionsKept(cfg, AfterPutDecision(cfg, s, w))
    ensures s.workers[w].batch[s.workers[w].next].token !in s.history.stored
  {
    PuttingTells(cfg, s, w);
    var n, me := AfterPutDecision(cfg, s, w), s.workers[w];
    var t := me.batch[me.next].token;
    InHandOnly(s, w, t);
    hide AfterPutDecision, Tallied, AnsweredOk, AtWorkerStored, CallbackAnswer;
    OneWorkerMoved(s, n, w, t);
    assert !AtWorkerStored(s, t) by {
      NotStoredElsewhere(s, w, t);
    }
    forall u
      ensures u in n.history.stored <==> AnsweredOk(n, u) || AtWorkerStored(n, u)
    {
      SameCalledBack(s, n, u);
      OneWorkerMoved(s, n, w, u);
    }
    hide CalledBack, AtWorker, AtWorkerBut, AtWorkerStoredBut;
    forall v, u | 0 <= v < |n.workers| && PastPut(n.workers[v], u)
      ensures var me := n.workers[v];
        |me.rows.value| == |me.batch| &&
        Kept(n.history, u, me.batch[me.next].request.id, CallbackAnswer(cfg, me).decision)
    {
      if v != w {
        assert PastPut(s.workers[v], u);
      }
    }
    forall k | 0 <= k < |n.replies| && n.replies[k].answer.status == Ok
      ensures n.replies[k].token < |n.arrivals|
      ensures Kept(n.history, n.replies[k].token, n.arrivals[n.replies[k].token].id, n.replies[k].answer.decision)
    {
      assert Kept(s.history, s.replies[k].token, s.arrivals[s.replies[k].token].id, s.replies[k].answer.decision);
    }
  }

  lemma NotStoredElsewhere(s: System, w: nat, t: nat)
    requires w < |s.workers| && s.workers[w].Delivering? && s.workers[w].stage == AtPut
    requires forall v :: 0 <= v < |s.workers| && v != w ==> !PastResult(s.workers[v], t)
    ensures !AtWorkerStored(s, t)
  {
  }

  /** What a callback's `done` does, written out. */
  lemma FiringTells(cfg: Config, s: System, w: nat)
    requires AtStage(s, w, AtReply)
    ensures var n, me := AfterFireDone(cfg, s, w), s.workers[w];
      && n.replies == s.replies + [Reply(me.batch[me.next].token, CallbackAnswer(cfg, me))]
      && n.arrivals == s.arrivals && n.history == s.history
      && |n.workers| == |s.workers| && n.workers == s.workers[w := n.workers[w]] && !IsPast(n.workers[w])
      && CallbackAnswer(cfg, me).status == if me.rows.Some? then Ok else FallbackError
  {
    hide Decide, FallbackFor;
  }

  lemma OneMoreCalledBack(s: System, n: System, reply: Reply, t: nat)
    requires n.replies == s.replies + [reply] && FromCallback(reply.answer)
    ensures CalledBack(n, t) <==> CalledBack(s, t) || t == reply.token
    ensures AnsweredOk(n, t) <==> AnsweredOk(s, t) || (t == reply.token && reply.answer.status == Ok)
  {
    if k :| 0 <= k < |s.replies| && s.replies[k].token == t && FromCallback(s.replies[k].answer) {
      assert n.replies[k] == s.replies[k];
    }
    if k :| 0 <= k < |s.replies| && s.replies[k].token == t && s.replies[k].answer.status == Ok {
      assert n.replies[k] == s.replies[k];
    }
    assert n.replies[|s.replies|] == reply;
  }

  lemma FiringStaysTold(cfg: Config, s: System, w: nat)
    requires ResultsTold(s) && AtStage(s, w, AtReply)
    ensures ResultsTold(AfterFireDone(cfg, s, w))
  {
    FiringTells(cfg, s, w);
    var n, me := AfterFireDone(cfg, s, w), s.workers[w];
    var t, reply := me.batch[me.next].token, n.replies[|s.replies|];
    assert PastResult(me, t) && Told(s.history, t, me.rows.Some?);
    hide AfterFireDone, CalledBack, AtWorker, CallbackAnswer, Told;
    forall u
      ensures u in n.history.reported <==> CalledBack(n, u) || AtWorker(n, u)
    {
      OneMoreCalledBack(s, n, reply, u);
      OneWorkerMoved(s, n, w, u);
    }
    forall v, u | 0 <= v < |n.workers| && PastResult(n.workers[v], u)
      ensures Told(n.history, u, n.workers[v].rows.Some?)
    {
      assert v != w && PastResult(s.workers[v], u);
    }
  }

  lemma FiringStaysKept(cfg: Config, s: System, w: nat)
    requires DecisionsKept(cfg, s) && Meant(cfg, s) && AtStage(s, w, AtReply)
    ensures DecisionsKept(cfg, AfterFireDone(cfg, s, w))
  {
    FiringTells(cfg, s, w);
    CallbackIsGenuine(cfg, s, w, AtReply);
    var n, me := AfterFireDone(cfg, s, w), s.workers[w];
    var t, reply := me.batch[me.next].token, n.replies[|s.replies|];
    assert me.rows.Some? ==> PastPut(me, t);
    hide Meant, AfterFireDone, AnsweredOk, AtWorkerStored, CallbackAnswer, Kept, Justified;
    forall u
      ensures u in n.history.stored <==> AnsweredOk(n, u) || AtWorkerStored(n, u)
    {
      OneMoreCalledBack(s, n, reply, u);
      OneWorkerMoved(s, n, w, u);
    }
    forall v, u | 0 <= v < |n.workers| && PastPut(n.workers[v], u)
      ensures n.workers[v] == s.workers[v]
    {
      assert v != w;
    }
  }

  // ---------- every trace ----------

  ghost predicate Accounted(cfg: Config, s: System) {
    BreakerCallsOwned(s.history) && CacheCallsOwned(s.history) && ResultsTold(s) && DecisionsKept(cfg, s)
  }

  lemma LookUpIsOwned(cfg: Config, s: System, t: nat)
    requires CacheCallsOwned(s.history) && CalledOnce(s) && Enabled(cfg, s, LookUp(t))
    ensures CacheCallsOwned(Next(cfg, s, LookUp(t)).history)
  {
    hide DC.AfterGet, DC.Lookup, CacheCallsOwned;
    var h, g := s.history, Next(cfg, s, LookUp(t)).history;
    OneMoreCacheCall(h, g, t, g.cacheCalls[|h.cacheCalls|]);
  }

  lemma AskIsOwned(cfg: Config, s: System, t: nat)
    requires BreakerCallsOwned(s.history) && CalledOnce(s) && Enabled(cfg, s, AskBreaker(t))
    ensures BreakerCallsOwned(Next(cfg, s, AskBreaker(t)).history)
  {
    hide CB.Admits, CB.AfterAsk, FallbackFor, BreakerCallsOwned;
    var h, g := s.history, Next(cfg, s, AskBreaker(t)).history;
    OneMoreBreakerCall(h, g, t, g.breakerCalls[|h.breakerCalls|]);
  }

  lemma RecordingStaysAccounted(cfg: Config, s: System, w: nat)
    requires Accounted(cfg, s) && Tallied(s) && AtStage(s, w, AtResult)
    ensures Accounted(cfg, AfterRecordResult(cfg, s, w))
  {
    RecordingStaysTold(cfg, s, w);
    RecordingStaysKept(cfg, s, w);
    RecordingTells(cfg, s, w);
    AskedOnlyByAsks(cfg, s, w);
    var n, me := AfterRecordResult(cfg, s, w), s.workers[w];
    SameCacheCalls(s.history, n.history);
    hide AfterRecordResult, ResultsTold, DecisionsKept, BreakerCallsOwned, CacheCallsOwned, Tallied;
    OneMoreBreakerCall(s.history, n.history, me.batch[me.next].token, n.history.breakerCalls[|s.history.breakerCalls|]);
  }

  lemma AskedOnlyByAsks(cfg: Config, s: System, w: nat)
    requires AtStage(s, w, AtResult)
    ensures var n := AfterRecordResult(cfg, s, w);
      n.history.asked == s.history.asked && n.history.lookedUp == s.history.lookedUp
  {
    hide CB.AfterSuccess, CB.AfterFailure;
  }

  lemma PuttingStaysAccounted(cfg: Config, s: System, w: nat)
    requires Accounted(cfg, s) && Tallied(s) && AtStage(s, w, AtPut) && s.workers[w].rows.Some?
    ensures Accounted(cfg, AfterPutDecision(cfg, s, w))
  {
    PuttingStaysTold(cfg, s, w);
    PuttingStaysKept(cfg, s, w);
    PuttingTells(cfg, s, w);
    LookedUpOnlyByLookUps(cfg, s, w);
    var n, me := AfterPutDecision(cfg, s, w), s.workers[w];
    SameBreakerCalls(s.history, n.history);
    hide AfterPutDecision, ResultsTold, DecisionsKept, CacheCallsOwned, BreakerCallsOwned, Tallied, CallbackAnswer;
    OneMoreCacheCall(s.history, n.history, me.batch[me.next].token, n.history.cacheCalls[|s.history.cacheCalls|]);
  }

  lemma LookedUpOnlyByLookUps(cfg: Config, s: System, w: nat)
    requires AtStage(s, w, AtPut) && s.workers[w].rows.Some?
    ensures var n := AfterPutDecision(cfg, s, w);
      n.history.asked == s.history.asked && n.history.lookedUp == s.history.lookedUp
  {
    hide DC.AfterPut, CallbackAnswer;
  }

  lemma FiringStaysAccounted(cfg: Config, s: System, w: nat)
    requires Accounted(cfg, s) && Meant(cfg, s) && AtStage(s, w, AtReply)
    ensures Accounted(cfg, AfterFireDone(cfg, s, w))
  {
    FiringStaysTold(cfg, s, w);
    FiringStaysKept(cfg, s, w);
    FiringTells(cfg, s, w);
    hide AfterFireDone, ResultsTold, DecisionsKept, CacheCallsOwned, BreakerCallsOwned, Meant, CallbackAnswer;
  }

  lemma OthersStayAccounted(cfg: Config, s: System, step: Step)
    requires Accounted(cfg, s) && Meant(cfg, s) && Enabled(cfg, s, step) && !IsCallbackStep(step)
    ensures Accounted(cfg, Next(cfg, s, step))
  {
    CallersLeftAlone(cfg, s, step);
    OthersMoveNoCallback(cfg, s, step);
    SameCallbacksStayTold(s, Next(cfg, s, step));
    SameCallbacksStayKept(cfg, s, Next(cfg, s, step));
    hide Next, Enabled, ResultsTold, DecisionsKept, CacheCallsOwned, BreakerCallsOwned, CalledOnce, SameCallbacks;
    assert CalledOnce(s);
    hide Meant;
    var h, g := s.history, Next(cfg, s, step).history;
    if step.LookUp? {
      LookUpIsOwned(cfg, s, step.token);
    } else {
      SameCacheCalls(h, g);
    }
    if step.AskBreaker? {
      AskIsOwned(cfg, s, step.token);
    } else {
      SameBreakerCalls(h, g);
    }
  }

  lemma SameCacheCalls(h: History, g: History)
    requires CacheCallsOwned(h) && g.cacheCalls == h.cacheCalls && g.lookedUp == h.lookedUp && g.stored == h.stored
    ensures CacheCallsOwned(g)
  {
    hide Injective, Within;
    forall k | 0 <= k < |g.cacheCalls|
      ensures IsOwnedCacheCall(g, k)
    {
      assert IsOwnedCacheCall(h, k);
      var u :| MadeCacheCall(h, k, u);
      assert MadeCacheCall(g, k, u);
    }
  }

  lemma SameBreakerCalls(h: History, g: History)
    requires BreakerCallsOwned(h) && g.breakerCalls == h.breakerCalls && g.asked == h.asked && g.reported == h.reported
    ensures BreakerCallsOwned(g)
  {
    hide Injective, Within;
    forall k | 0 <= k < |g.breakerCalls|
      ensures IsOwnedBreakerCall(g, k)
    {
      assert IsOwnedBreakerCall(h, k);
      var u :| MadeBreakerCall(h, k, u);
      assert MadeBreakerCall(g, k, u);
    }
  }

  lemma StepStaysAccounted(cfg: Config, s: System, step: Step)
    requires Accounted(cfg, s) && Meant(cfg, s) && Tallied(s) && Enabled(cfg, s, step)
    ensures Accounted(cfg, Next(cfg, s, step))
  {
    hide Accounted, Meant, Tallied;
    if !IsCallbackStep(step) {
      hide Next, Enabled;
      OthersStayAccounted(cfg, s, step);
    } else {
      hide AfterRecordResult, AfterPutDecision, AfterFireDone;
      match step {
        case RecordResult(w) => RecordingStaysAccounted(cfg, s, w);
        case PutDecision(w) => PuttingStaysAccounted(cfg, s, w);
        case FireDone(w) => FiringStaysAccounted(cfg, s, w);
      }
    }
  }

  lemma StartsAccounted(cfg: Config, initial: Session)
    ensures Accounted(cfg, Initial(cfg, initial))
  {
  }

  lemma {:induction false} TraceStaysAccounted(cfg: Config, initial: Session, r: Trace, i: nat)
    requires IsTrace(cfg, initial, r) && i < |r.states|
    ensures Accounted(cfg, r.states[i])
  {
    hide Next, Enabled, Accounted, Meant, Tallied;
    if i == 0 {
      StartsAccounted(cfg, initial);
    } else {
      TraceStaysAccounted(cfg, initial, r, i - 1);
      TraceStaysMeant(cfg, initial, r, i - 1);
      TraceStaysTallied(cfg, initial, r, i - 1);
      StepStaysAccounted(cfg, r.states[i - 1], r.steps[i - 1]);
    }
  }

  // ---------- the theorems ----------

  /** In every interleaving each call on the breaker is the one ask of one request or the one result of one job, and
      each call on the cache the one look-up of one request or the one put of one job: nobody calls twice. */
  lemma EveryCallHasItsRequest(cfg: Config, initial: Session, r: Trace, i: nat)
    requires IsTrace(cfg, initial, r) && i < |r.states|
    ensures BreakerCallsOwned(r.states[i].history) && CacheCallsOwned(r.states[i].history)
  {
    TraceStaysAccounted(cfg, initial, r, i);
  }

  /** The run of a job whose result the breaker was told, and what it was told. */
  lemma ToldByItsRun(cfg: Config, s: System, t: nat) returns (m: nat)
    requires Meant(cfg, s) && ResultsTold(s) && t in s.history.reported
    ensures m < |s.history.runs| && InRun(s.history.runs[m], t) && Told(s.history, t, !s.history.runs[m].threw)
  {
    hide RunsMeant, PutsMeant, CallersMeant, Exclusive, CalledOnce, FirstInFirstOut, HandedOver, Told, BidFor, Optimize;
    if CalledBack(s, t) {
      var n :| 0 <= n < |s.replies| && s.replies[n].token == t && FromCallback(s.replies[n].answer);
      m := ReplyHasARun(cfg, s, n);
    } else {
      assert AtWorker(s, t);
      var w :| 0 <= w < |s.workers| && PastResult(s.workers[w], t);
      hide RepliesMeant, CalledBack;
      var me := s.workers[w];
      assert Backed(s.history, me) && Told(s.history, t, me.rows.Some?);
      m :| 0 <= m < |s.history.runs| && Delivers(s.history.runs[m], me.batch, me.rows);
      assert s.history.runs[m].jobs[me.next].token == t;
    }
  }

  /** Every result reaches the breaker once: its failures are exactly those of the jobs of thrown runs, and its
      successes those of the jobs of successful ones, as far as their callbacks have come; so every error fallback has
      had its own failure recorded, and every ok answer its own success. */
  lemma EveryResultReachesTheBreaker(cfg: Config, initial: Session, r: Trace, i: nat)
    requires IsTrace(cfg, initial, r) && i < |r.states|
    ensures var s := r.states[i]; var h := s.history;
      && Injective(h.reported)
      && (forall t :: t in h.reported <==> CalledBack(s, t) || AtWorker(s, t))
      && (forall n :: 0 <= n < |s.replies| && s.replies[n].answer.status == Ok ==> Told(h, s.replies[n].token, true))
      && (forall n :: 0 <= n < |s.replies| && s.replies[n].answer.status == FallbackError ==>
            Told(h, s.replies[n].token, false))
      && (forall m, t :: 0 <= m < |h.runs| && InRun(h.runs[m], t) && t in h.reported ==> Told(h, t, !h.runs[m].threw))
      && (forall k :: 0 <= k < |h.breakerCalls| && !h.breakerCalls[k].Asked? ==>
            exists t, m :: ResultOf(h, k, t, m))
  {
    TraceStaysAccounted(cfg, initial, r, i);
    TraceStaysMeant(cfg, initial, r, i);
    var s := r.states[i];
    var h := s.history;
    assert ResultsTold(s) && BreakerCallsOwned(h);
    hide IsTrace, Meant, Told, Accounted, CalledBack, AtWorker, InRun, Injective;
    forall m, t | 0 <= m < |h.runs| && InRun(h.runs[m], t) && t in h.reported
      ensures Told(h, t, !h.runs[m].threw)
    {
      var l := ToldByItsRun(cfg, s, t);
      RunAnswersItsBatch(cfg, initial, r, i, m);
      assert l == m;
    }
    forall k | 0 <= k < |h.breakerCalls| && !h.breakerCalls[k].Asked?
      ensures exists t, m :: ResultOf(h, k, t, m)
    {
      assert IsOwnedBreakerCall(h, k);
      var t :| MadeBreakerCall(h, k, t);
      var m := ToldByItsRun(cfg, s, t);
      ToldTells(h, t, !h.runs[m].threw);
      assert ResultOf(h, k, t, m);
    }
  }

  lemma ToldTells(h: History, t: nat, succeeded: bool)
    requires Told(h, t, succeeded) && !h.breakerCalls[h.reported[t]].Asked?
    ensures h.breakerCalls[h.reported[t]].Failed? <==> !succeeded
  {
  }

  /** Call `k` on the breaker is the result of job `t`, of run `m`. */
  ghost predicate ResultOf(h: History, k: nat, t: nat, m: nat)
    requires k < |h.breakerCalls|
  {
    && t in h.reported && h.reported[t] == k
    && m < |h.runs| && InRun(h.runs[m], t) && (h.breakerCalls[k].Failed? <==> h.runs[m].threw)
  }

  /** Every decision of the model reaches the cache once, under its request's id and before it is answered; nothing else
      does: no fallback and no shed request is ever put. */
  lemma EveryDecisionReachesTheCache(cfg: Config, initial: Session, r: Trace, i: nat)
    requires IsTrace(cfg, initial, r) && i < |r.states|
    ensures var s := r.states[i]; var h := s.history;
      && Injective(h.stored)
      && (forall t :: t in h.stored <==> AnsweredOk(s, t) || AtWorkerStored(s, t))
      && (forall n :: 0 <= n < |s.replies| && s.replies[n].answer.status == Ok ==>
            s.replies[n].token < |s.arrivals| &&
            Kept(h, s.replies[n].token, s.arrivals[s.replies[n].token].id, s.replies[n].answer.decision))
      && (forall k :: 0 <= k < |h.cacheCalls| && h.cacheCalls[k].Put? ==> exists t :: t in h.stored && h.stored[t] == k)
  {
    TraceStaysAccounted(cfg, initial, r, i);
    hide IsTrace, Kept, AnsweredOk, AtWorkerStored, Injective, ResultsTold, BreakerCallsOwned;
    var h := r.states[i].history;
    forall k | 0 <= k < |h.cacheCalls| && h.cacheCalls[k].Put?
      ensures exists t :: t in h.stored && h.stored[t] == k
    {
      assert IsOwnedCacheCall(h, k);
      var t :| MadeCacheCall(h, k, t);
      assert t in h.stored;
    }
  }
}
