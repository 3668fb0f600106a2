/** Call objects are not leaked: what is left to do for them only shrinks, never gets stuck, and ends with each one
    freed (cpp-bidder/src/async_server.cpp). */
module AsyncDrain {
  import opened AsyncServers

  // ---------- at rest ----------

  /** No event is queued and no handler, pipeline callback or answer is under way. */
  predicate Quiet(s: Server) {
    && (forall c :: 0 <= c < |s.queues| ==> s.queues[c] == [])
    && (forall c :: 0 <= c < |s.handlers| ==> s.handlers[c] == Idle)
    && s.inPipeline == {} && s.answering == map[] && s.posted == {}
  }

  /** A taken-up call whose life is over: posted once, observed once if it was a bid, and freed once. */
  ghost predicate Finished(s: Server, t: nat) {
    && Posts(s.log, t) == 1 && Frees(s.log, t) == 1
    && t < |s.kinds| && Observations(s.log, t) == One(s.kinds[t] == GetBid)
  }

  lemma OnlyAcceptorsRest(s: Server)
    requires Owned(s) && Quiet(s)
    ensures s.calls.Keys == s.armed
  {
    forall t | t in s.calls
      ensures t in s.armed
    {
      assert Owners(s, t) == 1;
    }
    assert OwnersLive(s);
  }

  lemma RestingIsFinished(s: Server, t: nat)
    requires Owned(s) && KindsKept(s) && AcceptedOnce(s) && Booked(s, t) && Quiet(s) && t in s.accepted
    ensures Finished(s, t)
  {
    OnlyAcceptorsRest(s);
    assert WaitingInProcess(s);
    hide Owned, Posts, Frees, Observations;
  }

  /** Nothing leaks: in every reachable state at rest the only live objects are the acceptors registered with the
      transport, and every call ever taken up was answered once and freed once. Once the transport has cancelled the
      acceptors, no object is left and every one ever created was freed once. */
  lemma RestLeaksNothing(cqCount: int, r: Trace, i: nat, t: nat)
    requires IsTrace(cqCount, r) && i < |r.states| && Quiet(r.states[i])
    ensures var s := r.states[i];
      && s.calls.Keys == s.armed
      && (t in s.accepted ==> Finished(s, t))
      && (s.armed == {} && t < s.created ==> s.calls == map[] && Frees(s.log, t) == 1)
  {
    var s := r.states[i];
    TraceStaysOwned(cqCount, r, i);
    TraceStaysBooked(cqCount, r, i, t);
    OnlyAcceptorsRest(s);
    hide Owned, KindsKept, AcceptedOnce, Posts, Observations, Frees, Finished, Quiet, IsTrace;
    if t in s.accepted {
      RestingIsFinished(s, t);
    }
  }

  // ---------- never stuck ----------

  /** A step for a call in hand: all but a new RPC's arrival, a cancelled acceptor and the start of shutdown. */
  predicate IsOwn(step: Step) {
    !step.RpcArrives? && !step.CancelAcceptor? && !step.BeginShutdown?
  }

  function HandlersStep(s: Server, c: nat): Step
    requires c < |s.handlers| && s.handlers[c] != Idle
  {
    match s.handlers[c]
    case Dispatching(_, _) => Proceed(c)
    case Spawning(_) => Spawn(c)
    case Processing(_) => Handle(c)
    case Returning(_) => Return(c)
  }

  lemma HandlerCanStep(s: Server, c: nat)
    requires CallsPlaced(s) && HandlersLive(s) && c < |s.handlers| && s.handlers[c] != Idle
    ensures Enabled(s, HandlersStep(s, c)) && IsOwn(HandlersStep(s, c))
  {
  }

  lemma HeldCanMove(s: Server, t: nat)
    requires CallsPlaced(s) && OwnersLive(s)
    ensures t in s.inPipeline ==> Enabled(s, FireDone(t, false))
    ensures t in s.answering ==> Enabled(s, PostAnswer(t))
    ensures t in s.posted ==> Enabled(s, Complete(t, true))
  {
  }

  lemma RestOrStep(s: Server) returns (step: Step)
    requires Owned(s) && !Quiet(s)
    ensures IsOwn(step) && Enabled(s, step)
  {
    OwnedIsLive(s);
    hide Owned, Enabled, CallsPlaced, OwnersLive, QueuesLive, HandlersLive, HandlersStep;
    if c :| 0 <= c < |s.handlers| && s.handlers[c] != Idle {
      step := HandlersStep(s, c);
      HandlerCanStep(s, c);
    } else if c :| 0 <= c < |s.queues| && s.queues[c] != [] {
      step := Poll(c);
      IdleCanPoll(s, c);
    } else if t :| t in s.inPipeline {
      step := FireDone(t, false);
      HeldCanMove(s, t);
    } else if t :| t in s.answering {
      step := PostAnswer(t);
      HeldCanMove(s, t);
    } else {
      var t :| t in s.posted;
      step := Complete(t, true);
      HeldCanMove(s, t);
    }
  }

  lemma IdleCanPoll(s: Server, c: nat)
    requires CallsPlaced(s) && c < |s.queues| && s.queues[c] != []
    requires forall d :: 0 <= d < |s.handlers| ==> s.handlers[d] == Idle
    ensures Enabled(s, Poll(c))
  {
  }

  /** In every other reachable state some call in hand can go on, without any new RPC: nothing waits forever. */
  lemma NeverStuckBeforeRest(cqCount: int, r: Trace, i: nat) returns (step: Step)
    requires IsTrace(cqCount, r) && i < |r.states| && !Quiet(r.states[i])
    ensures IsOwn(step) && Enabled(r.states[i], step)
  {
    TraceStaysOwned(cqCount, r, i);
    step := RestOrStep(r.states[i]);
  }

  // ---------- what is left to do ----------

  /** The calls still in PROCESS. */
  function InProcess(s: Server): set<nat> {
    set t | t in s.calls && !s.calls[t].finishing
  }

  /** A taken-up RPC has its whole life before it; any other event only frees its object. */
  function EventCost(starting: set<nat>, e: Event): nat {
    if e.ok && e.tag in starting then 10 else 2
  }

  function HandlerCost(starting: set<nat>, h: Handler): nat {
    match h
    case Idle => 0
    case Dispatching(t, ok) => EventCost(starting, Event(t, ok)) - 1
    case Spawning(_) => 8
    case Processing(_) => 7
    case Returning(_) => 1
  }

  function QueueCost(starting: set<nat>, queue: seq<Event>): nat {
    if queue == [] then 0 else EventCost(starting, queue[0]) + QueueCost(starting, queue[1..])
  }

  function QueueCosts(starting: set<nat>, queues: seq<seq<Event>>): nat {
    if queues == [] then 0
    else QueueCosts(starting, queues[..|queues| - 1]) + QueueCost(starting, queues[|queues| - 1])
  }

  function HandlerCosts(starting: set<nat>, handlers: seq<Handler>): nat {
    if handlers == [] then 0
    else HandlerCosts(starting, handlers[..|handlers| - 1]) + HandlerCost(starting, handlers[|handlers| - 1])
  }

  function WorkUnder(starting: set<nat>, s: Server): nat {
    QueueCosts(starting, s.queues) + HandlerCosts(starting, s.handlers)
      + 5 * |s.inPipeline| + 4 * |s.answering| + 3 * |s.posted|
  }

  /** Steps the server still has to take for the calls it has in hand. */
  function Work(s: Server): nat {
    WorkUnder(InProcess(s), s)
  }

  lemma {:induction false} QueueCostGrows(starting: set<nat>, queue: seq<Event>, e: Event)
    ensures QueueCost(starting, queue + [e]) == QueueCost(starting, queue) + EventCost(starting, e)
  {
    if queue == [] {
      assert [] + [e] == [e];
    } else {
      assert (queue + [e])[1..] == queue[1..] + [e];
      QueueCostGrows(starting, queue[1..], e);
    }
  }

  lemma {:induction false} QueueCostsAfter(starting: set<nat>, queues: seq<seq<Event>>, c: nat, q: seq<Event>)
    requires c < |queues|
    ensures QueueCosts(starting, queues[c := q])
      == QueueCosts(starting, queues) - QueueCost(starting, queues[c]) + QueueCost(starting, q)
  {
    var last := |queues| - 1;
    if c == last {
      assert queues[c := q][..last] == queues[..last];
    } else {
      assert queues[c := q][..last] == queues[..last][c := q];
      QueueCostsAfter(starting, queues[..last], c, q);
    }
  }

  lemma {:induction false} HandlerCostsAfter(starting: set<nat>, handlers: seq<Handler>, c: nat, h: Handler)
    requires c < |handlers|
    ensures HandlerCosts(starting, handlers[c := h])
      == HandlerCosts(starting, handlers) - HandlerCost(starting, handlers[c]) + HandlerCost(starting, h)
  {
    var last := |handlers| - 1;
    if c == last {
      assert handlers[c := h][..last] == handlers[..last];
    } else {
      assert handlers[c := h][..last] == handlers[..last][c := h];
      HandlerCostsAfter(starting, handlers[..last], c, h);
    }
  }

  // ---------- fewer calls in PROCESS cost less ----------

  lemma {:induction false} QueueCostsLess(starting: set<nat>, more: set<nat>, queue: seq<Event>)
    requires forall i :: 0 <= i < |queue| && queue[i].tag in starting ==> queue[i].tag in more
    ensures QueueCost(starting, queue) <= QueueCost(more, queue)
  {
    if queue != [] {
      assert queue[0].tag in starting ==> queue[0].tag in more;
      QueueCostsLess(starting, more, queue[1..]);
    }
  }

  lemma {:induction false} QueuesCostLess(starting: set<nat>, more: set<nat>, queues: seq<seq<Event>>)
    requires forall c, i :: 0 <= c < |queues| && 0 <= i < |queues[c]| && queues[c][i].tag in starting ==>
               queues[c][i].tag in more
    ensures QueueCosts(starting, queues) <= QueueCosts(more, queues)
  {
    if queues != [] {
      QueuesCostLess(starting, more, queues[..|queues| - 1]);
      QueueCostsLess(starting, more, queues[|queues| - 1]);
    }
  }

  lemma {:induction false} HandlersCostLess(starting: set<nat>, more: set<nat>, handlers: seq<Handler>)
    requires forall c :: 0 <= c < |handlers| && handlers[c].Dispatching? && handlers[c].tag in starting ==>
               handlers[c].tag in more
    ensures HandlerCosts(starting, handlers) <= HandlerCosts(more, handlers)
  {
    if handlers != [] {
      HandlersCostLess(starting, more, handlers[..|handlers| - 1]);
    }
  }

  /** A step starts no call that an event or a handler refers to already. */
  lemma OnlyFreshCallsStart(s: Server, step: Step, t: nat)
    requires CallsPlaced(s) && Enabled(s, step) && t in InProcess(Next(s, step)) && t in s.calls
    ensures t in InProcess(s)
  {
  }

  lemma QueuedWasLive(s: Server, step: Step, c: nat, i: nat)
    requires QueuesLive(s) && Enabled(s, step)
    requires c < |Next(s, step).queues| && i < |Next(s, step).queues[c]|
    ensures Next(s, step).queues[c][i].tag in s.calls
  {
    var n := Next(s, step);
    if step.Poll? && c == step.cq {
      assert n.queues[c][i] == s.queues[c][i + 1];
    }
  }

  lemma DispatchedWasLive(s: Server, step: Step, c: nat)
    requires QueuesLive(s) && HandlersLive(s) && Enabled(s, step)
    requires c < |Next(s, step).handlers| && Next(s, step).handlers[c].Dispatching?
    ensures Next(s, step).handlers[c].tag in s.calls
  {
  }

  lemma StartingCostsNothing(s: Server, step: Step)
    requires NothingDangles(s) && Enabled(s, step)
    ensures Work(Next(s, step)) <= WorkUnder(InProcess(s), Next(s, step))
  {
    hide Next, Enabled, InProcess, QueueCosts, HandlerCosts, QueuesLive, HandlersLive;
    var n := Next(s, step);
    var starting, more := InProcess(n), InProcess(s);
    forall c, i | 0 <= c < |n.queues| && 0 <= i < |n.queues[c]| && n.queues[c][i].tag in starting
      ensures n.queues[c][i].tag in more
    {
      QueuedWasLive(s, step, c, i);
      OnlyFreshCallsStart(s, step, n.queues[c][i].tag);
    }
    QueuesCostLess(starting, more, n.queues);
    forall c | 0 <= c < |n.handlers| && n.handlers[c].Dispatching? && n.handlers[c].tag in starting
      ensures n.handlers[c].tag in more
    {
      DispatchedWasLive(s, step, c);
      OnlyFreshCallsStart(s, step, n.handlers[c].tag);
    }
    HandlersCostLess(starting, more, n.handlers);
  }

  // ---------- every step does some of it ----------

  /** What a step brings in: a whole life for a taken-up RPC, the freeing of a cancelled acceptor. */
  function Brings(step: Step): nat {
    match step
    case RpcArrives(_) => 10
    case CancelAcceptor(_) => 2
    case _ => 0
  }

  lemma QueuingCosts(s: Server, starting: set<nat>, t: nat, ok: bool)
    requires Live(s, t)
    ensures QueueCosts(starting, Queued(s, t, ok)) == QueueCosts(starting, s.queues) + EventCost(starting, Event(t, ok))
  {
    var c := s.calls[t].cq;
    QueueCostsAfter(starting, s.queues, c, s.queues[c] + [Event(t, ok)]);
    QueueCostGrows(starting, s.queues[c], Event(t, ok));
    hide QueueCost, QueueCosts;
  }

  lemma TransportOnlyQueues(s: Server, step: Step)
    requires Enabled(s, step) && (step.RpcArrives? || step.Complete? || step.CancelAcceptor?)
    ensures var n := Next(s, step);
      && Live(s, step.tag)
      && n.queues == Queued(s, step.tag, if step.Complete? then step.ok else step.RpcArrives?)
      && n.handlers == s.handlers && n.inPipeline == s.inPipeline && n.answering == s.answering
      && (step.Complete? ==> step.tag in s.posted && n.posted == s.posted - {step.tag})
      && (!step.Complete? ==> n.posted == s.posted)
  {
    hide Queued;
  }

  lemma CompletedIsFinishing(s: Server, t: nat)
    requires Owned(s) && t in s.posted
    ensures t !in InProcess(s)
  {
    assert AnsweredInFinish(s);
    hide Owned;
  }

  lemma TransportBrings(s: Server, step: Step)
    requires Owned(s) && Enabled(s, step) && (step.RpcArrives? || step.Complete? || step.CancelAcceptor?)
    ensures WorkUnder(InProcess(s), Next(s, step)) <= WorkUnder(InProcess(s), s) + Brings(step)
      - if IsOwn(step) then 1 else 0
  {
    hide Owned, QueueCosts, HandlerCosts, Queued, InProcess, Next, Enabled;
    TransportOnlyQueues(s, step);
    QueuingCosts(s, InProcess(s), step.tag, if step.Complete? then step.ok else step.RpcArrives?);
    if step.Complete? {
      CompletedIsFinishing(s, step.tag);
    }
  }

  lemma PollingWorks(s: Server, c: nat)
    requires Enabled(s, Poll(c))
    ensures WorkUnder(InProcess(s), Next(s, Poll(c))) < WorkUnder(InProcess(s), s)
  {
    hide QueueCosts, HandlerCosts;
    var n, starting := Next(s, Poll(c)), InProcess(s);
    QueueCostsAfter(starting, s.queues, c, n.queues[c]);
    HandlerCostsAfter(starting, s.handlers, c, n.handlers[c]);
  }

  lemma HandlingWorks(s: Server, step: Step)
    requires Enabled(s, step) && (step.Proceed? || step.Spawn? || step.Return?)
    ensures WorkUnder(InProcess(s), Next(s, step)) < WorkUnder(InProcess(s), s)
  {
    hide QueueCosts, HandlerCosts;
    var n := Next(s, step);
    HandlerCostsAfter(InProcess(s), s.handlers, step.cq, n.handlers[step.cq]);
    assert n.handlers == s.handlers[step.cq := n.handlers[step.cq]] && n.queues == s.queues;
  }

  lemma HandingOverMoves(s: Server, c: nat)
    requires Enabled(s, Handle(c))
    ensures var n, t := Next(s, Handle(c)), s.handlers[c].tag;
      && n.queues == s.queues && n.handlers == s.handlers[c := Returning(t)] && n.answering == s.answering
      && if s.calls[t].kind == GetBid then n.inPipeline == s.inPipeline + {t} && n.posted == s.posted
         else n.inPipeline == s.inPipeline && n.posted == s.posted + {t}
  {
  }

  lemma OneMore(a: set<nat>, t: nat)
    ensures |a + {t}| <= |a| + 1
  {
  }

  lemma HandingOverWorks(s: Server, c: nat)
    requires Enabled(s, Handle(c))
    ensures WorkUnder(InProcess(s), Next(s, Handle(c))) < WorkUnder(InProcess(s), s)
  {
    HandingOverMoves(s, c);
    hide QueueCosts, HandlerCosts, InProcess, Next;
    var t := s.handlers[c].tag;
    HandlerCostsAfter(InProcess(s), s.handlers, c, Returning(t));
    OneMore(s.inPipeline, t);
    OneMore(s.posted, t);
  }

  lemma AnsweringWorks(s: Server, step: Step)
    requires Enabled(s, step) && (step.FireDone? || step.PostAnswer?)
    ensures WorkUnder(InProcess(s), Next(s, step)) < WorkUnder(InProcess(s), s)
  {
    hide QueueCosts, HandlerCosts, InProcess;
    var n, t := Next(s, step), step.tag;
    if step.FireDone? {
      assert n.answering.Keys == s.answering.Keys + {t};
    } else {
      assert n.answering.Keys == s.answering.Keys - {t};
    }
  }

  /** Every step for a call in hand does some of the work; only a new RPC or a cancelled acceptor brings in more. */
  lemma StepWorks(s: Server, step: Step)
    requires Owned(s) && Enabled(s, step)
    ensures Work(Next(s, step)) + (if IsOwn(step) then 1 else 0) <= Work(s) + Brings(step)
  {
    OwnedIsLive(s);
    hide Owned, Next, Enabled, WorkUnder, NothingDangles;
    StartingCostsNothing(s, step);
    match step {
      case RpcArrives(_) => TransportBrings(s, step);
      case Complete(_, _) => TransportBrings(s, step);
      case CancelAcceptor(_) => TransportBrings(s, step);
      case Poll(c) => PollingWorks(s, c);
      case Handle(c) => HandingOverWorks(s, c);
      case FireDone(_, _) => AnsweringWorks(s, step);
      case PostAnswer(_) => AnsweringWorks(s, step);
      case BeginShutdown => StoppingWorks(s);
      case _ => HandlingWorks(s, step);
    }
  }

  lemma StoppingWorks(s: Server)
    ensures Enabled(s, BeginShutdown)
    ensures WorkUnder(InProcess(s), Next(s, BeginShutdown)) == WorkUnder(InProcess(s), s)
  {
    hide QueueCosts, HandlerCosts, InProcess;
  }

  function OwnSteps(steps: seq<Step>): nat {
    if steps == [] then 0 else OwnSteps(steps[..|steps| - 1]) + if IsOwn(steps[|steps| - 1]) then 1 else 0
  }

  function Brought(steps: seq<Step>): nat {
    if steps == [] then 0 else Brought(steps[..|steps| - 1]) + Brings(steps[|steps| - 1])
  }

  lemma StepsOf(cqCount: int, r: Trace)
    requires IsTrace(cqCount, r)
    ensures |r.states| == |r.steps| + 1 && r.states[0] == Started(cqCount)
    ensures forall i :: 0 <= i < |r.steps| ==>
      Enabled(r.states[i], r.steps[i]) && r.states[i + 1] == Next(r.states[i], r.steps[i])
  {
    hide Next, Enabled, Started;
  }

  /** However the threads interleave, no more steps are taken between two moments than the work there was plus ten for
      every RPC that arrived and two for every acceptor cancelled in between. */
  lemma {:induction false} WorkIsBounded(cqCount: int, r: Trace, i: nat, j: nat)
    requires IsTrace(cqCount, r) && i <= j < |r.states|
    ensures OwnSteps(r.steps[i..j]) + Work(r.states[j]) <= Work(r.states[i]) + Brought(r.steps[i..j])
  {
    hide Next, Enabled, Work, IsOwn, Brings, Owned, IsTrace;
    StepsOf(cqCount, r);
    if i < j {
      WorkIsBounded(cqCount, r, i, j - 1);
      TraceStaysOwned(cqCount, r, j - 1);
      StepWorks(r.states[j - 1], r.steps[j - 1]);
      assert r.steps[i..j][..j - i - 1] == r.steps[i..j - 1];
    }
  }

  lemma {:induction false} NothingQueuedCosts(n: nat, starting: set<nat>)
    ensures QueueCosts(starting, seq(n, _ => [])) == 0 && HandlerCosts(starting, seq(n, _ => Idle)) == 0
  {
    if n > 0 {
      var queues: seq<seq<Event>>, handlers: seq<Handler> := seq(n, _ => []), seq(n, _ => Idle);
      NothingQueuedCosts(n - 1, starting);
      assert queues[..n - 1] == seq(n - 1, _ => []) && handlers[..n - 1] == seq(n - 1, _ => Idle);
    }
  }

  /** So over a whole run at most ten steps are taken an RPC and two a cancelled acceptor. */
  lemma TenStepsAnRpc(cqCount: int, r: Trace)
    requires IsTrace(cqCount, r)
    ensures OwnSteps(r.steps) <= Brought(r.steps)
  {
    StepsOf(cqCount, r);
    WorkIsBounded(cqCount, r, 0, |r.steps|);
    assert r.steps[0..|r.steps|] == r.steps;
    hide IsTrace, OwnSteps, Brought, QueueCosts, HandlerCosts;
    var s := Started(cqCount);
    NothingQueuedCosts(|s.queues|, InProcess(s));
    assert s.queues == seq(|s.queues|, _ => []) && s.handlers == seq(|s.queues|, _ => Idle);
  }
}
