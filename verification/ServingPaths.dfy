/** The way of every request through `process` (cpp-bidder/src/bid_pipeline.cpp), in every interleaving: the cache
    decides first, then the breaker, then the room in the queue; what each decided is what the request gets. */
module ServingPaths {
  import opened Types
  import opened Fallback
  import opened MicroBatchers
  import opened Serving
  import opened ServingFrames
  import opened ServingDrain
  import opened ServingMeaning
  import CB = CircuitBreakers
  import DC = DedupCaches

  /** The request is about to be given this answer by its own thread, or has been. */
  ghost predicate AnswersWith(s: System, t: nat, a: Answer) {
    (t in s.callers && s.callers[t] == AtDone(a)) || Reply(t, a) in s.replies
  }

  ghost predicate StandsAt(s: System, t: nat, c: Caller) {
    t in s.callers && s.callers[t] == c && !Accepted(s.history, t)
  }

  /** Where a request stands, told by the answers its own calls on the cache and the breaker got. */
  ghost predicate OnItsWay(cfg: Config, s: System, t: nat)
    requires t < |s.arrivals|
  {
    var h := s.history;
    if t !in h.lookedUp then StandsAt(s, t, AtCache) && t !in h.asked
    else
      && h.lookedUp[t] < |h.cacheCalls|
      && var get := h.cacheCalls[h.lookedUp[t]];
      && get.Get? && get.id == s.arrivals[t].id
      && if get.answer.Some?
         then AnswersWith(s, t, Answer(get.answer.value, false, CacheHit)) && t !in h.asked && !Accepted(h, t)
         else if t !in h.asked then StandsAt(s, t, AtBreaker)
         else AtOrPastTheBreaker(cfg, s, t)
  }

  ghost predicate AtOrPastTheBreaker(cfg: Config, s: System, t: nat)
    requires t < |s.arrivals| && t in s.history.asked
  {
    var h := s.history;
    && h.asked[t] < |h.breakerCalls|
    && var ask := h.breakerCalls[h.asked[t]];
    && ask.Asked?
    && if !ask.admitted
       then AnswersWith(s, t, Answer(BidFor(cfg.fallback, s.arrivals[t], cfg.multiplier), true, FallbackOpen))
            && !Accepted(h, t)
       else StandsAt(s, t, AtSubmit) || (Accepted(h, t) && t !in s.callers) || WasShed(s, t)
  }

  ghost predicate WasShed(s: System, t: nat) {
    AnswersWith(s, t, Answer(Decision(0.0, 0.0, 0.0), false, ResourceExhausted)) && !Accepted(s.history, t)
  }

  // ---------- steps that leave a request where it is ----------

  ghost predicate LeftAlone(s: System, n: System, t: nat) {
    && s.arrivals <= n.arrivals && (forall r :: r in s.replies ==> r in n.replies)
    && s.history.cacheCalls <= n.history.cacheCalls && s.history.breakerCalls <= n.history.breakerCalls
    && (t in n.callers <==> t in s.callers) && (t in s.callers ==> n.callers[t] == s.callers[t])
    && (t in n.history.lookedUp <==> t in s.history.lookedUp)
    && (t in s.history.lookedUp ==> n.history.lookedUp[t] == s.history.lookedUp[t])
    && (t in n.history.asked <==> t in s.history.asked)
    && (t in s.history.asked ==> n.history.asked[t] == s.history.asked[t])
    && (Accepted(n.history, t) <==> Accepted(s.history, t))
  }

  lemma LeftOnItsWay(cfg: Config, s: System, n: System, t: nat)
    requires t < |s.arrivals| && LeftAlone(s, n, t) && OnItsWay(cfg, s, t)
    ensures t < |n.arrivals| && OnItsWay(cfg, n, t)
  {
    hide Accepted, BidFor;
  }

  predicate IsAbout(step: Step, t: nat) {
    (step.LookUp? || step.AskBreaker? || step.Submit? || step.CallDone?) && step.token == t
  }

  lemma RepliesOnlyGrow(cfg: Config, s: System, step: Step)
    requires Enabled(cfg, s, step)
    ensures s.replies <= Next(cfg, s, step).replies
  {
    CallersLeftAlone(cfg, s, step);
    hide CallbackAnswer, DC.AfterGet, DC.AfterPut, DC.Lookup, CB.Admits, CB.AfterAsk, CB.AfterFailure;
    hide CB.AfterSuccess, FallbackFor, Rows;
  }

  lemma OtherCallersStay(cfg: Config, s: System, step: Step, t: nat)
    requires Enabled(cfg, s, step) && IsCallerStep(step) && !IsAbout(step, t) && t < |s.arrivals|
    ensures var n := Next(cfg, s, step);
      && (t in n.callers <==> t in s.callers) && (t in s.callers ==> n.callers[t] == s.callers[t])
      && (t in n.history.lookedUp <==> t in s.history.lookedUp)
      && (t in s.history.lookedUp ==> n.history.lookedUp[t] == s.history.lookedUp[t])
      && (t in n.history.asked <==> t in s.history.asked)
      && (t in s.history.asked ==> n.history.asked[t] == s.history.asked[t])
      && (n.history.accepted == s.history.accepted
          || exists job: Job :: job.token != t && n.history.accepted == s.history.accepted + [job])
  {
    hide DC.AfterGet, DC.Lookup, CB.Admits, CB.AfterAsk, FallbackFor;
    var n := Next(cfg, s, step);
    if step.Submit? && n.history.accepted != s.history.accepted {
      var job := JobFor(cfg, s, step.token);
      assert job.token != t && n.history.accepted == s.history.accepted + [job];
    }
  }

  lemma AcceptingAnother(h: History, g: History, job: Job, t: nat)
    requires job.token != t && g.accepted == h.accepted + [job]
    ensures Accepted(g, t) <==> Accepted(h, t)
  {
    if i :| 0 <= i < |h.accepted| && h.accepted[i].token == t {
      assert g.accepted[i].token == t;
    }
  }

  lemma OthersLeaveAlone(cfg: Config, s: System, step: Step, t: nat)
    requires Enabled(cfg, s, step) && !IsAbout(step, t) && t < |s.arrivals|
    ensures LeftAlone(s, Next(cfg, s, step), t)
  {
    hide Next, Enabled, Accepted;
    var n := Next(cfg, s, step);
    CallersLeftAlone(cfg, s, step);
    CallsOnlyGrow(cfg, s, step);
    RepliesOnlyGrow(cfg, s, step);
    if IsCallerStep(step) {
      OtherCallersStay(cfg, s, step, t);
      if n.history.accepted != s.history.accepted {
        var job: Job :| job.token != t && n.history.accepted == s.history.accepted + [job];
        AcceptingAnother(s.history, n.history, job, t);
      }
    }
    assert n.history.accepted == s.history.accepted ==> (Accepted(n.history, t) <==> Accepted(s.history, t)) by {
      SameAcceptance(s.history, n.history, t);
    }
  }

  lemma SameAcceptance(h: History, g: History, t: nat)
    ensures g.accepted == h.accepted ==> (Accepted(g, t) <==> Accepted(h, t))
  {
  }

  // ---------- steps that take it further ----------

  lemma ArrivesOnItsWay(cfg: Config, s: System, req: Request)
    requires CalledOnce(s) && HandedOver(cfg, s)
    ensures var n := Next(cfg, s, Arrive(req)); OnItsWay(cfg, n, |s.arrivals|)
  {
    hide BidFor;
    var t := |s.arrivals|;
    forall i | 0 <= i < |s.history.accepted|
      ensures s.history.accepted[i].token != t
    {
      assert s.history.accepted[i] in s.history.accepted;
    }
  }

  lemma LooksUpOnItsWay(cfg: Config, s: System, t: nat)
    requires CalledOnce(s) && Enabled(cfg, s, LookUp(t)) && OnItsWay(cfg, s, t)
    ensures OnItsWay(cfg, Next(cfg, s, LookUp(t)), t)
  {
    hide DC.AfterGet, DC.Lookup, BidFor, Accepted;
    var n := Next(cfg, s, LookUp(t));
    SameAcceptance(s.history, n.history, t);
    var id := s.arrivals[t].id;
    assert n.history.cacheCalls[|s.history.cacheCalls|] == DC.Get(s.now, id, DC.Lookup(s.cache, s.now, id));
  }

  lemma NotAnsweredYet(s: System, t: nat, a: Answer)
    requires Exclusive(s) && t in s.callers && AnsweredInProcess(a.status)
    ensures Reply(t, a) !in s.replies
  {
    forall i | 0 <= i < |s.replies|
      ensures s.replies[i] != Reply(t, a)
    {
      assert AnsweredInProcess(s.replies[i].answer.status) ==> s.replies[i].token !in s.callers;
    }
  }

  lemma AsksOnItsWay(cfg: Config, s: System, t: nat)
    requires CalledOnce(s) && Exclusive(s) && Enabled(cfg, s, AskBreaker(t)) && OnItsWay(cfg, s, t)
    ensures OnItsWay(cfg, Next(cfg, s, AskBreaker(t)), t)
  {
    hide CB.Admits, CB.AfterAsk, BidFor, Accepted, Exclusive;
    var n := Next(cfg, s, AskBreaker(t));
    SameAcceptance(s.history, n.history, t);
    if t in s.history.lookedUp && s.history.cacheCalls[s.history.lookedUp[t]].answer.Some? {
      NotAnsweredYet(s, t, Answer(s.history.cacheCalls[s.history.lookedUp[t]].answer.value, false, CacheHit));
    }
    var admitted := CB.Admits(cfg.breaker, s.breaker, s.now);
    assert n.history.breakerCalls[|s.history.breakerCalls|] == CB.Asked(s.now, admitted);
  }

  lemma StandsAtSubmit(cfg: Config, s: System, t: nat)
    requires Exclusive(s) && CallerAt(s, t) && s.callers[t] == AtSubmit && OnItsWay(cfg, s, t)
    ensures t in s.history.lookedUp && s.history.cacheCalls[s.history.lookedUp[t]].answer.None?
    ensures t in s.history.asked && s.history.breakerCalls[s.history.asked[t]].admitted
    ensures !Accepted(s.history, t)
  {
    hide BidFor, Accepted, Exclusive;
    var h := s.history;
    assert t in h.lookedUp;
    if h.cacheCalls[h.lookedUp[t]].answer.Some? {
      NotAnsweredYet(s, t, Answer(h.cacheCalls[h.lookedUp[t]].answer.value, false, CacheHit));
    } else {
      NotAnsweredYet(s, t, Answer(BidFor(cfg.fallback, s.arrivals[t], cfg.multiplier), true, FallbackOpen));
    }
  }

  /** The room in the queue decides: written out, what a submit does. */
  lemma SubmittingDecides(cfg: Config, s: System, t: nat)
    requires Enabled(cfg, s, Submit(t))
    ensures var n := Next(cfg, s, Submit(t));
      && n.replies == s.replies && n.history.cacheCalls == s.history.cacheCalls
      && n.history.breakerCalls == s.history.breakerCalls && n.arrivals == s.arrivals
      && n.history.lookedUp == s.history.lookedUp && n.history.asked == s.history.asked
      && if s.stopper == NotCalled && |s.queue| < cfg.queueMax
         then var job := Job(t, s.arrivals[t], cfg.encode(s.arrivals[t]));
              n.queue == s.queue + [job] && n.callers == s.callers - {t}
              && n.history.accepted == s.history.accepted + [job]
         else n.queue == s.queue && n.history.accepted == s.history.accepted
              && n.callers == s.callers[t := AtDone(Answer(Decision(0.0, 0.0, 0.0), false, ResourceExhausted))]
  {
  }

  lemma SubmitsOnItsWay(cfg: Config, s: System, t: nat)
    requires Exclusive(s) && Enabled(cfg, s, Submit(t)) && OnItsWay(cfg, s, t)
    ensures OnItsWay(cfg, Next(cfg, s, Submit(t)), t)
  {
    var n := Next(cfg, s, Submit(t));
    StandsAtSubmit(cfg, s, t);
    SubmittingDecides(cfg, s, t);
    hide Next, BidFor, Exclusive;
    if n.history.accepted != s.history.accepted {
      assert n.history.accepted[|s.history.accepted|].token == t;
    }
  }

  lemma CallsDoneOnItsWay(cfg: Config, s: System, t: nat)
    requires Exclusive(s) && CallersMeant(cfg, s) && Enabled(cfg, s, CallDone(t)) && OnItsWay(cfg, s, t)
    ensures OnItsWay(cfg, Next(cfg, s, CallDone(t)), t)
  {
    hide BidFor, Accepted, Exclusive, Justified;
    var n := Next(cfg, s, CallDone(t));
    SameAcceptance(s.history, n.history, t);
    assert n.replies[|s.replies|] == Reply(t, s.callers[t].answer);
  }

  lemma StepStaysOnItsWay(cfg: Config, s: System, step: Step, t: nat)
    requires Meant(cfg, s) && Enabled(cfg, s, step) && t < |s.arrivals| && OnItsWay(cfg, s, t)
    ensures t < |Next(cfg, s, step).arrivals| && OnItsWay(cfg, Next(cfg, s, step), t)
  {
    hide Next, Enabled, OnItsWay, LeftAlone, RunsMeant, WorkersBacked, PutsMeant, CallersMeant, RepliesMeant, Exclusive;
    hide CalledOnce, ServingQueue.FirstInFirstOut, HandedOver;
    if !IsAbout(step, t) {
      OthersLeaveAlone(cfg, s, step, t);
      LeftOnItsWay(cfg, s, Next(cfg, s, step), t);
    } else {
      CallersLeftAlone(cfg, s, step);
      match step {
        case LookUp(_) => LooksUpOnItsWay(cfg, s, t);
        case AskBreaker(_) => AsksOnItsWay(cfg, s, t);
        case Submit(_) => SubmitsOnItsWay(cfg, s, t);
        case CallDone(_) => CallsDoneOnItsWay(cfg, s, t);
      }
    }
  }

  /** In every state of every trace every request that arrived is on its way, wherever its own calls have led it. */
  lemma {:induction false} RequestsStayOnTheirWay(cfg: Config, initial: Session, r: Trace, i: nat, t: nat)
    requires IsTrace(cfg, initial, r) && i < |r.states| && t < |r.states[i].arrivals|
    ensures OnItsWay(cfg, r.states[i], t)
  {
    hide Next, Enabled, OnItsWay, Meant, IsTrace;
    StepsOf(cfg, initial, r);
    NoneAtFirst(cfg, initial, r);
    if i > 0 {
      var s, step := r.states[i - 1], r.steps[i - 1];
      TraceStaysMeant(cfg, initial, r, i - 1);
      if t < |s.arrivals| {
        RequestsStayOnTheirWay(cfg, initial, r, i - 1, t);
        StepStaysOnItsWay(cfg, s, step, t);
      } else {
        CallersLeftAlone(cfg, s, step);
        assert step == Arrive(step.request);
        MeantMeansCalledOnce(cfg, s);
        ArrivesOnItsWay(cfg, s, step.request);
      }
    }
  }

  lemma MeantMeansCalledOnce(cfg: Config, s: System)
    requires Meant(cfg, s)
    ensures CalledOnce(s) && HandedOver(cfg, s) && Exclusive(s) && CallersMeant(cfg, s)
  {
  }

  lemma NoneAtFirst(cfg: Config, initial: Session, r: Trace)
    requires IsTrace(cfg, initial, r)
    ensures |r.states| > 0 && r.states[0].arrivals == []
  {
    hide Next, Enabled;
  }

  // ---------- the theorems ----------

  /** At its own look-up the id had been put less than the TTL before and was never crowded out since. */
  ghost predicate Remembered(cfg: Config, calls: seq<DC.Event>, k: nat)
    requires k < |calls|
  {
    DC.Unexpired(cfg.cache, calls[..k], calls[k].id, calls[k].now)
    && DC.NeverCrowdedOut(cfg.cache, calls[..k], calls[k].id)
  }

  lemma AnswerIsTheMemory(cfg: Config, calls: seq<DC.Event>, k: nat)
    requires DC.IsRun(cfg.cache, calls) && k < |calls| && calls[k].Get?
    ensures calls[k].answer ==
      if Remembered(cfg, calls, k) then Some(DC.LatestPut(calls[..k], calls[k].id).value.1) else None
  {
    CallInContext(cfg, calls, k);
    hide DC.IsRun, DC.After, DC.Lookup, DC.NeverCrowdedOut;
    assert k > 0 ==> calls[..k][k - 1] == calls[k - 1];
    if DC.Unexpired(cfg.cache, calls[..k], calls[k].id, calls[k].now) {
      DC.UnexpiredIsAHitExactlyIf(cfg.cache, calls[..k], calls[k].now, calls[k].id);
    } else if calls[k].answer.Some? {
      DC.HitIsLatestFreshPut(cfg.cache, calls[..k], calls[k].now, calls[k].id);
    }
  }

  /** A request the cache remembers when it looks is answered with the latest put, by its own thread: it never asks the
      breaker and never reaches the queue. Any other goes on to the breaker. */
  lemma TheCacheDecides(cfg: Config, initial: Session, r: Trace, i: nat, t: nat)
    requires IsTrace(cfg, initial, r) && i < |r.states| && t < |r.states[i].arrivals|
    requires t in r.states[i].history.lookedUp
    ensures var s := r.states[i]; var calls, k := s.history.cacheCalls, s.history.lookedUp[t];
      && k < |calls| && calls[k].Get? && calls[k].id == s.arrivals[t].id
      && (Remembered(cfg, calls, k) ==>
           && AnswersWith(s, t, Answer(DC.LatestPut(calls[..k], s.arrivals[t].id).value.1, false, CacheHit))
           && t !in s.history.asked && !Accepted(s.history, t))
      && (!Remembered(cfg, calls, k) ==> t in s.history.asked || StandsAt(s, t, AtBreaker))
  {
    RequestsStayOnTheirWay(cfg, initial, r, i, t);
    TraceStaysLogged(cfg, initial, r, i);
    hide IsTrace, Remembered, Accepted, BreakerLogged, DC.IsRun, DC.After, DC.LatestPut, BidFor;
    var s := r.states[i];
    AnswerIsTheMemory(cfg, s.history.cacheCalls, s.history.lookedUp[t]);
  }

  /** A request that asks while the breaker cools down is given the fallback bid and never reaches the queue. Any other
      is accepted, or shed, or about to try. */
  lemma TheBreakerDecides(cfg: Config, initial: Session, r: Trace, i: nat, t: nat)
    requires IsTrace(cfg, initial, r) && i < |r.states| && t < |r.states[i].arrivals|
    requires t in r.states[i].history.asked
    ensures var s := r.states[i]; var calls, k := s.history.breakerCalls, s.history.asked[t];
      && k < |calls| && calls[k].Asked?
      && (CB.CoolingDown(cfg.breaker, calls[..k], calls[k].now) ==>
           && AnswersWith(s, t, Answer(BidFor(cfg.fallback, s.arrivals[t], cfg.multiplier), true, FallbackOpen))
           && !Accepted(s.history, t))
      && (!CB.CoolingDown(cfg.breaker, calls[..k], calls[k].now) ==>
           StandsAt(s, t, AtSubmit) || (Accepted(s.history, t) && t !in s.callers) || WasShed(s, t))
  {
    RequestsStayOnTheirWay(cfg, initial, r, i, t);
    TraceStaysLogged(cfg, initial, r, i);
    hide IsTrace, Accepted, CacheLogged, BidFor, CB.CoolingDown;
    var s := r.states[i];
    var calls, k := s.history.breakerCalls, s.history.asked[t];
    AskInContext(cfg, calls, k);
    assert k > 0 ==> calls[..k][k - 1] == calls[k - 1];
    CB.RefusedExactlyWhileCoolingDown(cfg.breaker, calls[..k], calls[k].now);
  }

  ghost predicate HasRoom(cfg: Config, s: System) {
    s.stopper == NotCalled && |s.queue| < cfg.queueMax
  }

  lemma SubmitTells(cfg: Config, s: System, t: nat, n: System)
    requires Exclusive(s) && Enabled(cfg, s, Submit(t)) && OnItsWay(cfg, s, t) && n == Next(cfg, s, Submit(t))
    ensures HasRoom(cfg, s) ==> Accepted(n.history, t)
    ensures !HasRoom(cfg, s) ==> WasShed(n, t)
  {
    SubmittingDecides(cfg, s, t);
    StandsAtSubmit(cfg, s, t);
    SameAcceptance(s.history, n.history, t);
    hide Next, Enabled, OnItsWay, Exclusive;
    if HasRoom(cfg, s) {
      assert n.history.accepted[|s.history.accepted|].token == t;
    } else {
      hide Accepted;
    }
  }

  lemma AcceptedStays(cfg: Config, s: System, step: Step, t: nat)
    requires Enabled(cfg, s, step) && Accepted(s.history, t)
    ensures Accepted(Next(cfg, s, step).history, t)
  {
    hide Next, Enabled;
    var n := Next(cfg, s, step);
    CallersLeftAlone(cfg, s, step);
    if step.Submit? {
      SubmittingDecides(cfg, s, step.token);
    }
    var i :| 0 <= i < |s.history.accepted| && s.history.accepted[i].token == t;
    assert n.history.accepted[i].token == t;
  }

  lemma ShedStaysShed(cfg: Config, s: System, step: Step, t: nat)
    requires CallersMeant(cfg, s) && Exclusive(s) && Enabled(cfg, s, step) && t < |s.arrivals| && WasShed(s, t)
    ensures WasShed(Next(cfg, s, step), t)
  {
    hide Accepted, CallersMeant, Exclusive, Next, Enabled;
    var n := Next(cfg, s, step);
    if IsAbout(step, t) {
      AboutToBeShed(cfg, s, step, t);
    } else {
      OthersLeaveAlone(cfg, s, step, t);
    }
  }

  lemma AboutToBeShed(cfg: Config, s: System, step: Step, t: nat)
    requires Exclusive(s) && Enabled(cfg, s, step) && t < |s.arrivals| && WasShed(s, t) && IsAbout(step, t)
    ensures WasShed(Next(cfg, s, step), t)
  {
    hide Accepted, Exclusive;
    NotAnsweredYet(s, t, Answer(Decision(0.0, 0.0, 0.0), false, ResourceExhausted));
    var n := Next(cfg, s, step);
    SameAcceptance(s.history, n.history, t);
    assert step == CallDone(t);
    assert n.replies[|s.replies|] == Reply(t, s.callers[t].answer);
  }

  /** The room there is at its submit decides for good: with the queue below its cap and no stop called the request is
      accepted, otherwise it is shed and never reaches the queue. */
  lemma {:induction false} TheRoomDecides(cfg: Config, initial: Session, r: Trace, j: nat, i: nat, t: nat)
    requires IsTrace(cfg, initial, r) && j < i < |r.states| && r.steps[j] == Submit(t)
    ensures HasRoom(cfg, r.states[j]) ==> Accepted(r.states[i].history, t)
    ensures !HasRoom(cfg, r.states[j]) ==> WasShed(r.states[i], t)
  {
    hide Next, OnItsWay, Meant, IsTrace, HasRoom, WasShed, Accepted;
    StepsOf(cfg, initial, r);
    var s, step := r.states[i - 1], r.steps[i - 1];
    TraceStaysMeant(cfg, initial, r, i - 1);
    MeantMeansCalledOnce(cfg, s);
    if j == i - 1 {
      RequestsStayOnTheirWay(cfg, initial, r, j, t);
      SubmitTells(cfg, s, t, r.states[i]);
    } else {
      TheRoomDecides(cfg, initial, r, j, i - 1, t);
      SubmittersArrived(cfg, initial, r, j, i - 1, t);
      hide Enabled;
      if HasRoom(cfg, r.states[j]) {
        AcceptedStays(cfg, s, step, t);
      } else {
        ShedStaysShed(cfg, s, step, t);
      }
    }
  }

  lemma {:induction false} SubmittersArrived(cfg: Config, initial: Session, r: Trace, j: nat, i: nat, t: nat)
    requires IsTrace(cfg, initial, r) && j <= i < |r.states| && j < |r.steps| && r.steps[j] == Submit(t)
    ensures t < |r.states[i].arrivals|
  {
    hide Next, IsTrace;
    StepsOf(cfg, initial, r);
    if j < i {
      hide Enabled;
      SubmittersArrived(cfg, initial, r, j, i - 1, t);
      CallersLeftAlone(cfg, r.states[i - 1], r.steps[i - 1]);
    }
  }
}
