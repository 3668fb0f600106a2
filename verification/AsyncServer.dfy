/** The life of the self-deleting call objects (cpp-bidder/src/async_server.cpp), as a step system over the
    completion queues' polling threads, the transport, and the pipeline's callback threads. */
module AsyncServers {
  import opened Types

  datatype Kind = GetBid | NotifyOutcome | Check

  /** A live call object; `finishing` is its state field, false for PROCESS and true for FINISH. */
  datatype Call = Call(kind: Kind, cq: nat, finishing: bool)

  datatype Event = Event(tag: nat, ok: bool)

  /** Where the one thread polling a completion queue is inside `Proceed` of call `tag`. */
  datatype Handler =
    | Idle
    | Dispatching(tag: nat, ok: bool) // Next returned the tag; Proceed is about to read the object's state
    | Spawning(tag: nat)              // PROCESS with ok: about to create the next acceptor
    | Processing(tag: nat)            // about to hand the request over, or to answer it
    | Returning(tag: nat)             // handed over or answered; about to return from Proceed

  datatype Log =
    | Observed(tag: nat)              // metrics observe_request
    | Posted(tag: nat, withError: bool) // Finish or FinishWithError
    | Freed(tag: nat)                 // delete this

  datatype Server = Server(
    calls: map<nat, Call>,       // the heap: live call objects by tag
    created: nat,
    armed: set<nat>,             // registered with the transport, waiting for an RPC
    queues: seq<seq<Event>>,     // one completion queue per polling thread
    handlers: seq<Handler>,
    inPipeline: set<nat>,        // given to process, done not fired yet
    answering: map<nat, bool>,   // done fired: observed and in FINISH, not yet posted; true for a shed request
    posted: set<nat>,            // answer posted, its completion not yet queued
    stopping: bool,
    log: seq<Log>,
    accepted: set<nat>,          // history: calls whose RPC was taken up
    kinds: seq<Kind>)            // history: the kind of every call ever created

  datatype Step =
    | RpcArrives(tag: nat)
    | Poll(cq: nat)
    | Proceed(cq: nat)
    | Spawn(cq: nat)
    | Handle(cq: nat)
    | Return(cq: nat)
    | FireDone(tag: nat, shed: bool)
    | PostAnswer(tag: nat)
    | Complete(tag: nat, ok: bool)
    | BeginShutdown
    | CancelAcceptor(tag: nat)

  predicate Enabled(s: Server, step: Step) {
    match step
    case RpcArrives(t) => t in s.armed && Live(s, t)
    case Poll(c) => HandlerIs(s, c, Idle) && s.queues[c] != []
    case Proceed(c) => c < |s.handlers| && s.handlers[c].Dispatching? && Live(s, s.handlers[c].tag)
    case Spawn(c) => c < |s.handlers| && s.handlers[c].Spawning? && Live(s, s.handlers[c].tag)
    case Handle(c) => c < |s.handlers| && s.handlers[c].Processing? && Live(s, s.handlers[c].tag)
    case Return(c) => c < |s.handlers| && s.handlers[c].Returning?
    case FireDone(t, _) => t in s.inPipeline && Live(s, t)
    case PostAnswer(t) => t in s.answering && Live(s, t)
    case Complete(t, _) => t in s.posted && Live(s, t)
    case BeginShutdown => true
    case CancelAcceptor(t) => s.stopping && t in s.armed && Live(s, t)
  }

  predicate HandlerIs(s: Server, c: nat, h: Handler) {
    c < |s.handlers| == |s.queues| && s.handlers[c] == h
  }

  /** The object behind a tag still exists, with a queue. Dereferencing any other tag would be a use after free. */
  predicate Live(s: Server, t: nat) {
    t in s.calls && s.calls[t].cq < |s.queues|
  }

  function Queued(s: Server, t: nat, ok: bool): seq<seq<Event>>
    requires Live(s, t)
  {
    var c := s.calls[t].cq;
    s.queues[c := s.queues[c] + [Event(t, ok)]]
  }

  function Free(s: Server, c: nat, t: nat): Server
    requires c < |s.handlers|
  {
    s.(calls := s.calls - {t}, handlers := s.handlers[c := Idle], log := s.log + [Freed(t)])
  }

  function Next(s: Server, step: Step): Server
    requires Enabled(s, step)
  {
    match step
    case RpcArrives(t) => s.(armed := s.armed - {t}, queues := Queued(s, t, true))
    case Poll(c) =>
      var e := s.queues[c][0];
      s.(queues := s.queues[c := s.queues[c][1..]], handlers := s.handlers[c := Dispatching(e.tag, e.ok)])
    case Proceed(c) =>
      var t := s.handlers[c].tag;
      if s.calls[t].finishing || !s.handlers[c].ok then Free(s, c, t)
      else s.(handlers := s.handlers[c := Spawning(t)])
    case Spawn(c) =>
      var t := s.handlers[c].tag;
      var id := s.created;
      s.(calls := s.calls[id := Call(s.calls[t].kind, s.calls[t].cq, false)], created := id + 1,
         kinds := s.kinds + [s.calls[t].kind],
         armed := s.armed + {id}, handlers := s.handlers[c := Processing(t)])
    case Handle(c) =>
      var t := s.handlers[c].tag;
      var n := s.(handlers := s.handlers[c := Returning(t)], accepted := s.accepted + {t});
      if s.calls[t].kind == GetBid then n.(inPipeline := s.inPipeline + {t})
      else n.(calls := s.calls[t := s.calls[t].(finishing := true)], posted := s.posted + {t},
                  log := s.log + [Posted(t, false)])
    case Return(c) => s.(handlers := s.handlers[c := Idle])
    case FireDone(t, shed) =>
      s.(inPipeline := s.inPipeline - {t}, answering := s.answering[t := shed],
         calls := s.calls[t := s.calls[t].(finishing := true)], log := s.log + [Observed(t)])
    case PostAnswer(t) =>
      s.(answering := s.answering - {t}, posted := s.posted + {t}, log := s.log + [Posted(t, s.answering[t])])
    case Complete(t, ok) => s.(posted := s.posted - {t}, queues := Queued(s, t, ok))
    case BeginShutdown => s.(stopping := true)
    case CancelAcceptor(t) => s.(armed := s.armed - {t}, queues := Queued(s, t, false))
  }

  function KindOf(i: nat): Kind {
    if i % 3 == 0 then GetBid else if i % 3 == 1 then NotifyOutcome else Check
  }

  /** Each completion queue is seeded with one acceptor per kind and given one polling thread. */
  function Started(cqCount: int): Server {
    var n: nat := Max(1, cqCount);
    var calls := map i: nat | i < 3 * n :: Call(KindOf(i), i / 3, false);
    Server(calls, 3 * n, calls.Keys,
      seq(n, _ => []), seq(n, _ => Idle), {}, map[], {}, false, [], {}, seq(3 * n, i requires i >= 0 => KindOf(i)))
  }

  datatype Trace = Trace(states: seq<Server>, steps: seq<Step>)

  ghost predicate IsTrace(cqCount: int, r: Trace) {
    && |r.states| == |r.steps| + 1
    && r.states[0] == Started(cqCount)
    && forall i :: 0 <= i < |r.steps| ==>
       Enabled(r.states[i], r.steps[i]) && r.states[i + 1] == Next(r.states[i], r.steps[i])
  }

  // ---------- every live object has exactly one owner ----------

  function Pending(queue: seq<Event>, t: nat): nat {
    if queue == [] then 0 else (if queue[0].tag == t then 1 else 0) + Pending(queue[1..], t)
  }

  predicate Handles(h: Handler, t: nat) {
    h != Idle && !h.Returning? && h.tag == t
  }

  function One(b: bool): nat {
    if b then 1 else 0
  }

  /** How many owners a live object has: the transport, its queue, its handler, the pipeline, or its answer. */
  function Owners(s: Server, t: nat): nat
    requires Live(s, t) && |s.handlers| == |s.queues|
  {
    One(t in s.armed) + Pending(s.queues[s.calls[t].cq], t) + One(Handles(s.handlers[s.calls[t].cq], t))
      + One(t in s.inPipeline) + One(t in s.answering) + One(t in s.posted)
  }

  ghost predicate CallsPlaced(s: Server) {
    |s.handlers| == |s.queues| && forall t :: t in s.calls ==> s.calls[t].cq < |s.queues| && t < s.created
  }

  ghost predicate OwnersLive(s: Server) {
    forall t :: t in s.armed || t in s.inPipeline || t in s.answering || t in s.posted ==> t in s.calls
  }

  ghost predicate QueuesLive(s: Server) {
    forall c, i :: 0 <= c < |s.queues| && 0 <= i < |s.queues[c]| ==>
      s.queues[c][i].tag in s.calls && s.calls[s.queues[c][i].tag].cq == c
  }

  ghost predicate HandlersLive(s: Server) {
    forall c :: 0 <= c < |s.handlers| && s.handlers[c] != Idle ==>
      s.handlers[c].tag in s.calls && s.calls[s.handlers[c].tag].cq == c
  }

  /** What refers to an object refers to a live one, on its own queue. */
  ghost predicate NothingDangles(s: Server) {
    CallsPlaced(s) && OwnersLive(s) && QueuesLive(s) && HandlersLive(s)
  }

  ghost predicate WaitingInProcess(s: Server) {
    forall t :: t in s.calls && (t in s.armed || t in s.inPipeline) ==> !s.calls[t].finishing
  }

  ghost predicate AnsweredInFinish(s: Server) {
    forall t :: t in s.calls && (t in s.answering || t in s.posted) ==> s.calls[t].finishing
  }

  ghost predicate PipelineTakesBids(s: Server) {
    forall t :: t in s.calls && (t in s.inPipeline || t in s.answering) ==> s.calls[t].kind == GetBid
  }

  ghost predicate HandledInProcess(s: Server) {
    forall c | 0 <= c < |s.handlers| && (s.handlers[c].Spawning? || s.handlers[c].Processing?) ::
      s.handlers[c].tag in s.calls ==> !s.calls[s.handlers[c].tag].finishing
  }

  /** The state field agrees with who owns the object. */
  ghost predicate StatesAgree(s: Server) {
    WaitingInProcess(s) && AnsweredInFinish(s) && PipelineTakesBids(s) && HandledInProcess(s)
  }

  ghost predicate Owned(s: Server) {
    NothingDangles(s) && StatesAgree(s) && forall t :: t in s.calls ==> Owners(s, t) == 1
  }

  lemma {:induction false} PendingAppend(queue: seq<Event>, e: Event, t: nat)
    ensures Pending(queue + [e], t) == Pending(queue, t) + One(e.tag == t)
  {
    if queue == [] {
      assert [] + [e] == [e];
    } else {
      assert (queue + [e])[1..] == queue[1..] + [e];
      PendingAppend(queue[1..], e, t);
    }
  }

  lemma {:induction false} PendingNeedsAnEvent(queue: seq<Event>, t: nat)
    ensures Pending(queue, t) > 0 <==> exists i :: 0 <= i < |queue| && queue[i].tag == t
  {
    if queue != [] {
      PendingNeedsAnEvent(queue[1..], t);
      if i :| 0 <= i < |queue| && queue[i].tag == t {
        assert i == 0 || queue[1..][i - 1].tag == t;
      }
      if i :| 0 <= i < |queue[1..]| && queue[1..][i].tag == t {
        assert queue[i + 1].tag == t;
      }
    }
  }

  /** The object a handler works on has no other owner. */
  lemma HandledHasNoOtherOwner(s: Server, c: nat)
    requires Owned(s) && c < |s.handlers| && s.handlers[c] != Idle && !s.handlers[c].Returning?
    ensures var t := s.handlers[c].tag;
      && t !in s.armed && t !in s.inPipeline && t !in s.answering && t !in s.posted
      && (forall i :: 0 <= i < |s.queues[c]| ==> s.queues[c][i].tag != t)
  {
    var t := s.handlers[c].tag;
    assert Owners(s, t) == 1;
    PendingNeedsAnEvent(s.queues[c], t);
  }

  lemma QueuingKeepsLive(s: Server, t: nat, ok: bool)
    requires CallsPlaced(s) && QueuesLive(s) && Live(s, t)
    ensures QueuesLive(s.(queues := Queued(s, t, ok)))
  {
  }

  lemma FreeingDanglesNothing(s: Server, c: nat)
    requires Owned(s) && c < |s.handlers| && s.handlers[c].Dispatching?
    ensures NothingDangles(Free(s, c, s.handlers[c].tag))
  {
    HandledHasNoOtherOwner(s, c);
    OwnedIsLive(s);
    hide Owned;
    FreeingLeavesTheRest(s, c);
    FreeingClearsTheQueues(s, c);
  }

  lemma FreeingLeavesTheRest(s: Server, c: nat)
    requires NothingDangles(s) && c < |s.handlers| && s.handlers[c].Dispatching?
    requires var t := s.handlers[c].tag; t !in s.armed && t !in s.inPipeline && t !in s.answering && t !in s.posted
    ensures var n := Free(s, c, s.handlers[c].tag); CallsPlaced(n) && OwnersLive(n) && HandlersLive(n)
  {
    hide QueuesLive;
  }

  lemma FreeingClearsTheQueues(s: Server, c: nat)
    requires NothingDangles(s) && c < |s.handlers| && s.handlers[c].Dispatching?
    requires forall i :: 0 <= i < |s.queues[c]| ==> s.queues[c][i].tag != s.handlers[c].tag
    ensures QueuesLive(Free(s, c, s.handlers[c].tag))
  {
    hide OwnersLive;
    var n := Free(s, c, s.handlers[c].tag);
    forall d, i | 0 <= d < |n.queues| && 0 <= i < |n.queues[d]|
      ensures n.queues[d][i].tag in n.calls && n.calls[n.queues[d][i].tag].cq == d
    {
      assert s.queues[d][i].tag in s.calls;
    }
  }

  lemma StepDanglesNothing(s: Server, step: Step)
    requires Owned(s) && Enabled(s, step)
    ensures NothingDangles(Next(s, step))
  {
    hide Owners, StatesAgree, QueuesLive, HandlersLive, OwnersLive;
    match step {
      case RpcArrives(t) => TransportDanglesNothing(s, step);
      case Complete(t, _) => TransportDanglesNothing(s, step);
      case CancelAcceptor(t) => TransportDanglesNothing(s, step);
      case Proceed(c) =>
        if s.calls[s.handlers[c].tag].finishing || !s.handlers[c].ok {
          FreeingDanglesNothing(s, c);
        } else {
          HandlingDanglesNothing(s, step);
        }
      case _ => HandlingDanglesNothing(s, step);
    }
  }

  lemma TransportDanglesNothing(s: Server, step: Step)
    requires NothingDangles(s) && Enabled(s, step)
    requires step.RpcArrives? || step.Complete? || step.CancelAcceptor?
    ensures NothingDangles(Next(s, step))
  {
    var ok := if step.Complete? then step.ok else step.RpcArrives?;
    QueuingKeepsLive(s, step.tag, ok);
    hide QueuesLive;
    assert QueuesLive(Next(s, step)) by {
      SameQueuesLive(s.(queues := Queued(s, step.tag, ok)), Next(s, step));
    }
  }

  lemma SameQueuesLive(s: Server, n: Server)
    requires QueuesLive(s) && n.queues == s.queues
    requires forall t :: t in s.calls ==> t in n.calls && n.calls[t].cq == s.calls[t].cq
    ensures QueuesLive(n)
  {
  }

  lemma HandlingDanglesNothing(s: Server, step: Step)
    requires NothingDangles(s) && Enabled(s, step)
    requires !step.RpcArrives? && !step.Complete? && !step.CancelAcceptor?
    requires step.Proceed? ==> !(s.calls[s.handlers[step.cq].tag].finishing || !s.handlers[step.cq].ok)
    ensures NothingDangles(Next(s, step))
  {
    if !step.Poll? {
      SameQueuesLive(s, Next(s, step));
      hide QueuesLive;
    }
  }

  lemma StepAgrees(s: Server, step: Step)
    requires Owned(s) && Enabled(s, step)
    ensures StatesAgree(Next(s, step))
  {
    hide Owners, QueuesLive;
    assert OwnersLive(s) && CallsPlaced(s) && HandlersLive(s);
    match step {
      case Handle(c) => HandledHasNoOtherOwner(s, c);
      case FireDone(t, _) => InPipelineHasNoOtherOwner(s, t);
      case _ =>
    }
    AnswersAgree(s, step);
    HandlersAgree(s, step);
  }

  lemma AnswersAgree(s: Server, step: Step)
    requires StatesAgree(s) && OwnersLive(s) && CallsPlaced(s) && Enabled(s, step)
    requires step.Handle? ==> s.handlers[step.cq].tag !in s.armed && s.handlers[step.cq].tag !in s.inPipeline
    requires step.FireDone? ==> step.tag !in s.armed
    ensures WaitingInProcess(Next(s, step)) && AnsweredInFinish(Next(s, step)) && PipelineTakesBids(Next(s, step))
  {
  }

  lemma HandlersAgree(s: Server, step: Step)
    requires StatesAgree(s) && HandlersLive(s) && CallsPlaced(s) && Enabled(s, step)
    requires step.FireDone? ==> forall c :: 0 <= c < |s.handlers| ==> !Handles(s.handlers[c], step.tag)
    ensures HandledInProcess(Next(s, step))
  {
    hide WaitingInProcess, AnsweredInFinish, PipelineTakesBids;
  }

  lemma InPipelineHasNoOtherOwner(s: Server, t: nat)
    requires Owned(s) && t in s.inPipeline
    ensures t !in s.armed && t !in s.answering && t !in s.posted
    ensures forall c :: 0 <= c < |s.handlers| ==> !Handles(s.handlers[c], t)
  {
    assert Owners(s, t) == 1;
  }

  lemma TransportKeepsOneOwner(s: Server, step: Step, t: nat)
    requires Owned(s) && Enabled(s, step) && t in s.calls
    requires step.RpcArrives? || step.Complete? || step.CancelAcceptor?
    ensures Owners(Next(s, step), t) == 1
  {
    hide Pending, QueuesLive, StatesAgree;
    assert Owners(s, t) == 1;
    var ok := if step.Complete? then step.ok else step.RpcArrives?;
    PendingAppend(s.queues[s.calls[step.tag].cq], Event(step.tag, ok), t);
  }

  lemma PollKeepsOneOwner(s: Server, c: nat, t: nat)
    requires Owned(s) && Enabled(s, Poll(c)) && t in s.calls
    ensures Owners(Next(s, Poll(c)), t) == 1
  {
    hide QueuesLive, StatesAgree;
    assert Owners(s, t) == 1;
  }

  lemma HandlerKeepsOneOwner(s: Server, step: Step, t: nat)
    requires Owned(s) && Enabled(s, step) && t in s.calls && t in Next(s, step).calls
    requires step.Proceed? || step.Spawn? || step.Return?
    ensures Owners(Next(s, step), t) == 1
  {
    hide QueuesLive, StatesAgree, Pending, OwnersLive;
    assert Owners(s, t) == 1;
    var n, c := Next(s, step), step.cq;
    assert n.queues == s.queues && n.calls[t] == s.calls[t];
    assert t in n.armed <==> t in s.armed;
    if s.calls[t].cq == c {
      assert Handles(n.handlers[c], t) <==> Handles(s.handlers[c], t);
    }
  }

  lemma HandingOverKeepsOneOwner(s: Server, c: nat, t: nat)
    requires Owned(s) && Enabled(s, Handle(c)) && t in s.calls
    ensures Owners(Next(s, Handle(c)), t) == 1
  {
    HandledHasNoOtherOwner(s, c);
    assert Owners(s, t) == 1;
    OwnedIsLive(s);
    hide Owned;
    if t == s.handlers[c].tag {
      HandedOverMoves(s, c);
    } else {
      HandingOverLeavesOthers(s, c, t);
    }
  }

  lemma HandedOverMoves(s: Server, c: nat)
    requires CallsPlaced(s) && HandlersLive(s) && Enabled(s, Handle(c))
    requires var t := s.handlers[c].tag; t !in s.inPipeline && t !in s.posted
    ensures Owners(Next(s, Handle(c)), s.handlers[c].tag) == Owners(s, s.handlers[c].tag)
  {
    hide Pending;
  }

  lemma HandingOverLeavesOthers(s: Server, c: nat, t: nat)
    requires CallsPlaced(s) && HandlersLive(s) && Enabled(s, Handle(c)) && t in s.calls && t != s.handlers[c].tag
    ensures Owners(Next(s, Handle(c)), t) == Owners(s, t)
  {
    hide Pending;
  }

  lemma StepKeepsOneOwner(s: Server, step: Step, t: nat)
    requires Owned(s) && Enabled(s, step) && NothingDangles(Next(s, step))
    requires t in Next(s, step).calls
    ensures Owners(Next(s, step), t) == 1
  {
    if t !in s.calls {
      FreshCallIsArmed(s, step, t);
    } else if step.RpcArrives? || step.Complete? || step.CancelAcceptor? {
      TransportKeepsOneOwner(s, step, t);
    } else if step.Poll? {
      PollKeepsOneOwner(s, step.cq, t);
    } else if step.Handle? {
      HandingOverKeepsOneOwner(s, step.cq, t);
    } else if step.Proceed? || step.Spawn? || step.Return? {
      HandlerKeepsOneOwner(s, step, t);
    } else {
      hide Pending, QueuesLive, StatesAgree;
      assert Owners(s, t) == 1;
    }
  }

  /** The acceptor just created: nothing referred to its fresh tag. */
  lemma FreshCallIsArmed(s: Server, step: Step, t: nat)
    requires Owned(s) && Enabled(s, step) && NothingDangles(Next(s, step))
    requires t !in s.calls && t in Next(s, step).calls
    ensures Owners(Next(s, step), t) == 1
  {
    hide Owned, StatesAgree;
    var c := Next(s, step).calls[t].cq;
    assert NothingDangles(s) by {
      OwnedIsLive(s);
    }
    PendingNeedsAnEvent(s.queues[c], t);
    hide Pending;
  }

  lemma OwnedIsLive(s: Server)
    requires Owned(s)
    ensures NothingDangles(s)
  {
  }

  lemma StepStaysOwned(s: Server, step: Step)
    requires Owned(s) && Enabled(s, step)
    ensures Owned(Next(s, step))
  {
    StepDanglesNothing(s, step);
    StepAgrees(s, step);
    forall t | t in Next(s, step).calls
      ensures Owners(Next(s, step), t) == 1
    {
      StepKeepsOneOwner(s, step, t);
    }
  }

  lemma StartsOwned(cqCount: int)
    ensures Owned(Started(cqCount))
  {
    var s := Started(cqCount);
    forall t | t in s.calls
      ensures s.calls[t].cq < |s.queues| && Owners(s, t) == 1
    {
    }
  }

  lemma {:induction false} TraceStaysOwned(cqCount: int, r: Trace, i: nat)
    requires IsTrace(cqCount, r) && i < |r.states|
    ensures Owned(r.states[i])
  {
    if i == 0 {
      StartsOwned(cqCount);
    } else {
      hide Next, Enabled, Owned;
      TraceStaysOwned(cqCount, r, i - 1);
      StepStaysOwned(r.states[i - 1], r.steps[i - 1]);
    }
  }

  // ---------- one acceptor per queue and kind ----------

  /** Created and not yet taken up: it is what the next RPC of its kind on its queue will use. */
  predicate Accepts(s: Server, t: nat, c: nat, kind: Kind) {
    && Live(s, t) && s.calls[t].cq == c && s.calls[t].kind == kind
    && !s.calls[t].finishing && t !in s.inPipeline && c < |s.handlers| && s.handlers[c] != Processing(t)
  }

  ghost predicate HasOneAcceptor(s: Server, c: nat, kind: Kind) {
    && (exists t :: Accepts(s, t, c, kind))
    && (forall t, u :: Accepts(s, t, c, kind) && Accepts(s, u, c, kind) ==> t == u)
  }

  ghost predicate OneAcceptorEach(s: Server) {
    forall c: nat, kind | c < |s.queues| :: HasOneAcceptor(s, c, kind)
  }

  /** Before shutdown begins no registration is cancelled. */
  ghost predicate NoneCancelled(s: Server) {
    && (forall c, i :: 0 <= c < |s.queues| && 0 <= i < |s.queues[c]| && Live(s, s.queues[c][i].tag) ==>
        s.queues[c][i].ok || s.calls[s.queues[c][i].tag].finishing)
    && (forall c :: 0 <= c < |s.handlers| && s.handlers[c].Dispatching? && Live(s, s.handlers[c].tag) ==>
        s.handlers[c].ok || s.calls[s.handlers[c].tag].finishing)
  }

  lemma StepCancelsNone(s: Server, step: Step)
    requires Owned(s) && NoneCancelled(s) && Enabled(s, step) && !step.CancelAcceptor?
    ensures NoneCancelled(Next(s, step))
  {
    hide Owners;
    assert NothingDangles(s) && StatesAgree(s);
    StepDanglesNothing(s, step);
    hide NothingDangles, Owned;
    var n := Next(s, step);
    forall c, i | 0 <= c < |n.queues| && 0 <= i < |n.queues[c]| && Live(n, n.queues[c][i].tag)
      ensures n.queues[c][i].ok || n.calls[n.queues[c][i].tag].finishing
    {
      EventsStayUncancelled(s, step, c, i);
    }
    HandlersStayUncancelled(s, step);
  }

  lemma EventsStayUncancelled(s: Server, step: Step, c: nat, i: nat)
    requires Owned(s) && NoneCancelled(s) && Enabled(s, step) && !step.CancelAcceptor?
    requires var n := Next(s, step);
      c < |n.queues| && i < |n.queues[c]| && Live(n, n.queues[c][i].tag)
    ensures var n := Next(s, step);
      n.queues[c][i].ok || n.calls[n.queues[c][i].tag].finishing
  {
    hide Owners;
    var n := Next(s, step);
    var j := if step == Poll(c) then i + 1 else i;
    if j < |s.queues[c]| {
      assert n.queues[c][i] == s.queues[c][j];
    } else {
      assert step.RpcArrives? || step.Complete?;
    }
  }

  lemma HandlersStayUncancelled(s: Server, step: Step)
    requires Owned(s) && NoneCancelled(s) && Enabled(s, step) && !step.CancelAcceptor?
    ensures forall c | 0 <= c < |Next(s, step).handlers| && Next(s, step).handlers[c].Dispatching? ::
      Live(Next(s, step), Next(s, step).handlers[c].tag) ==>
      Next(s, step).handlers[c].ok || Next(s, step).calls[Next(s, step).handlers[c].tag].finishing
  {
    hide Owners, StatesAgree;
  }

  lemma OthersKeepAcceptors(s: Server, step: Step, t: nat, c: nat, kind: Kind)
    requires Owned(s) && Enabled(s, step) && !step.Spawn?
    requires step.Proceed? ==> s.calls[s.handlers[step.cq].tag].finishing || s.handlers[step.cq].ok
    ensures Accepts(Next(s, step), t, c, kind) <==> Accepts(s, t, c, kind)
  {
    hide Owners, QueuesLive;
    assert NothingDangles(s) && StatesAgree(s);
    hide Owned;
  }

  lemma SpawnPassesOn(s: Server, c: nat, t: nat, d: nat, kind: Kind)
    requires Owned(s) && Enabled(s, Spawn(c))
    ensures var prior := s.handlers[c].tag;
      && Accepts(s, prior, c, s.calls[prior].kind)
      && (Accepts(Next(s, Spawn(c)), t, d, kind) <==>
          if t == s.created then d == c && kind == s.calls[prior].kind else Accepts(s, t, d, kind) && t != prior)
  {
    HandledHasNoOtherOwner(s, c);
    hide Owners, QueuesLive;
    assert NothingDangles(s) && StatesAgree(s);
    hide Owned;
  }

  lemma StepKeepsOneAcceptor(s: Server, step: Step)
    requires Owned(s) && OneAcceptorEach(s) && NoneCancelled(s) && Enabled(s, step)
    ensures OneAcceptorEach(Next(s, step))
  {
    hide Owners;
    var n := Next(s, step);
    assert |n.queues| == |s.queues|;
    hide HasOneAcceptor;
    forall c: nat, kind | c < |n.queues|
      ensures HasOneAcceptor(n, c, kind)
    {
      AcceptorsOf(s, step, c, kind);
    }
  }

  lemma AcceptorsOf(s: Server, step: Step, c: nat, kind: Kind)
    requires Owned(s) && HasOneAcceptor(s, c, kind) && NoneCancelled(s) && Enabled(s, step)
    ensures HasOneAcceptor(Next(s, step), c, kind)
  {
    hide Accepts, Owners, Next;
    var n := Next(s, step);
    var a :| Accepts(s, a, c, kind);
    if step.Spawn? {
      var prior := s.handlers[step.cq].tag;
      forall t
        ensures Accepts(s, prior, step.cq, s.calls[prior].kind)
        ensures Accepts(n, t, c, kind) <==>
              if t == s.created then c == step.cq && kind == s.calls[prior].kind
              else Accepts(s, t, c, kind) && t != prior
      {
        SpawnPassesOn(s, step.cq, t, c, kind);
      }
      if c == step.cq && kind == s.calls[prior].kind {
        assert Accepts(n, s.created, c, kind);
      } else {
        AcceptorIsOld(s, a, c, kind, prior);
        assert Accepts(n, a, c, kind);
      }
    } else {
      forall t
        ensures Accepts(n, t, c, kind) <==> Accepts(s, t, c, kind)
      {
        OthersKeepAcceptors(s, step, t, c, kind);
      }
      assert Accepts(n, a, c, kind);
    }
  }

  lemma AcceptorIsOld(s: Server, a: nat, c: nat, kind: Kind, other: nat)
    requires Owned(s) && Accepts(s, a, c, kind)
    requires Live(s, other) ==> s.calls[other].cq != c || s.calls[other].kind != kind
    ensures a != s.created && a != other
  {
    hide Owners;
  }

  lemma StartsWithAcceptors(cqCount: int)
    ensures OneAcceptorEach(Started(cqCount)) && NoneCancelled(Started(cqCount))
  {
    var s := Started(cqCount);
    forall c: nat, kind | c < |s.queues|
      ensures HasOneAcceptor(s, c, kind)
    {
      var k := match kind case GetBid => 0 case NotifyOutcome => 1 case Check => 2;
      assert Accepts(s, 3 * c + k, c, kind);
      forall t | Accepts(s, t, c, kind)
        ensures t == 3 * c + k
      {
        assert t == 3 * (t / 3) + t % 3;
      }
    }
  }

  lemma StoppingLasts(s: Server, step: Step)
    requires Enabled(s, step)
    ensures s.stopping ==> Next(s, step).stopping
    ensures step.CancelAcceptor? ==> s.stopping
  {
  }

  lemma {:induction false} TraceKeepsAcceptors(cqCount: int, r: Trace, i: nat)
    requires IsTrace(cqCount, r) && i < |r.states| && !r.states[i].stopping
    ensures OneAcceptorEach(r.states[i]) && NoneCancelled(r.states[i])
  {
    hide Next, Enabled, Owned, OneAcceptorEach, NoneCancelled;
    if i == 0 {
      StartsWithAcceptors(cqCount);
    } else {
      var s, step := r.states[i - 1], r.steps[i - 1];
      StoppingLasts(s, step);
      TraceStaysOwned(cqCount, r, i - 1);
      TraceKeepsAcceptors(cqCount, r, i - 1);
      StepKeepsOneAcceptor(s, step);
      StepCancelsNone(s, step);
    }
  }

  /** While serving, each completion queue has exactly one call ready to accept each kind of RPC: it is
      registered with the transport, or its RPC's event is waiting in this queue, or this queue's handler
      has it in hand and is about to create its successor. Between handler runs, with no such event
      waiting, it is registered. */
  lemma OneAcceptorPerQueueAndKind(cqCount: int, r: Trace, i: nat, c: nat, kind: Kind) returns (t: nat)
    requires IsTrace(cqCount, r) && i < |r.states| && !r.states[i].stopping
    requires c < |r.states[i].queues|
    ensures var s := r.states[i];
      && (forall u :: Accepts(s, u, c, kind) <==> u == t)
      && c < |s.handlers|
      && (t in s.armed || Event(t, true) in s.queues[c] || s.handlers[c] == Dispatching(t, true)
         || s.handlers[c] == Spawning(t))
      && (s.handlers[c] == Idle && Event(t, true) !in s.queues[c] ==> t in s.armed)
  {
    var s := r.states[i];
    TraceKeepsAcceptors(cqCount, r, i);
    TraceStaysOwned(cqCount, r, i);
    assert HasOneAcceptor(s, c, kind);
    t :| Accepts(s, t, c, kind);
    assert Owners(s, t) == 1;
    PendingNeedsAnEvent(s.queues[c], t);
    hide Owned, OneAcceptorEach, Pending;
  }

  // ---------- every call is answered once and freed once ----------

  function Observations(log: seq<Log>, t: nat): nat {
    if log == [] then 0 else Observations(log[..|log| - 1], t) + One(log[|log| - 1] == Observed(t))
  }

  function Posts(log: seq<Log>, t: nat): nat {
    if log == [] then 0 else Posts(log[..|log| - 1], t) + One(log[|log| - 1].Posted? && log[|log| - 1].tag == t)
  }

  function Frees(log: seq<Log>, t: nat): nat {
    if log == [] then 0 else Frees(log[..|log| - 1], t) + One(log[|log| - 1] == Freed(t))
  }

  lemma LogGrows(log: seq<Log>, e: Log, t: nat)
    ensures Observations(log + [e], t) == Observations(log, t) + One(e == Observed(t))
    ensures Posts(log + [e], t) == Posts(log, t) + One(e.Posted? && e.tag == t)
    ensures Frees(log + [e], t) == Frees(log, t) + One(e == Freed(t))
  {
    assert (log + [e])[..|log|] == log;
  }

  /** The log of one call, whatever has become of it. */
  ghost predicate Booked(s: Server, t: nat) {
    && Observations(s.log, t) == One(t in s.accepted && t < |s.kinds| && s.kinds[t] == GetBid && t !in s.inPipeline)
    && Posts(s.log, t) == One(t in s.accepted && t !in s.inPipeline && t !in s.answering)
    && Frees(s.log, t) == One(t < s.created && t !in s.calls)
  }

  ghost predicate KindsKept(s: Server) {
    && |s.kinds| == s.created
    && (forall t :: t in s.calls ==> t < s.created && s.calls[t].kind == s.kinds[t])
    && (forall t :: t in s.accepted ==> t < s.created)
  }

  ghost predicate AnswersAccepted(s: Server) {
    forall t :: t in s.inPipeline || t in s.answering || t in s.posted ==> t in s.accepted
  }

  ghost predicate FinishingAccepted(s: Server) {
    forall t :: t in s.calls && s.calls[t].finishing ==> t in s.accepted
  }

  ghost predicate AcceptedMovedOn(s: Server) {
    forall t :: t in s.accepted && t in s.calls ==> s.calls[t].finishing || t in s.inPipeline
  }

  /** A call is taken up when it leaves its acceptor role, and never again. */
  ghost predicate AcceptedOnce(s: Server) {
    AnswersAccepted(s) && FinishingAccepted(s) && AcceptedMovedOn(s)
  }

  lemma StepKeepsKinds(s: Server, step: Step)
    requires CallsPlaced(s) && HandlersLive(s) && OwnersLive(s) && KindsKept(s) && Enabled(s, step)
    ensures KindsKept(Next(s, step))
  {
    var n := Next(s, step);
    assert |n.kinds| == n.created && s.kinds <= n.kinds;
    forall t | t in n.calls
      ensures t < n.created && n.calls[t].kind == n.kinds[t]
    {
      assert t in s.calls || (step.Spawn? && t == s.created);
    }
    forall t | t in n.accepted
      ensures t < n.created
    {
      assert t in s.accepted || t in s.calls;
    }
  }

  lemma StepKeepsAnswersAccepted(s: Server, step: Step)
    requires AnswersAccepted(s) && Enabled(s, step)
    ensures AnswersAccepted(Next(s, step))
  {
  }

  lemma StepKeepsFinishingAccepted(s: Server, step: Step)
    requires AnswersAccepted(s) && FinishingAccepted(s) && Enabled(s, step)
    ensures FinishingAccepted(Next(s, step))
  {
  }

  lemma StepKeepsAcceptedMovedOn(s: Server, step: Step)
    requires KindsKept(s) && AcceptedMovedOn(s) && Enabled(s, step)
    ensures AcceptedMovedOn(Next(s, step))
  {
  }

  lemma StepAcceptsOnce(s: Server, step: Step)
    requires KindsKept(s) && AcceptedOnce(s) && Enabled(s, step)
    ensures AcceptedOnce(Next(s, step))
  {
    hide AnswersAccepted, FinishingAccepted, AcceptedMovedOn;
    StepKeepsAnswersAccepted(s, step);
    StepKeepsFinishingAccepted(s, step);
    StepKeepsAcceptedMovedOn(s, step);
  }

  predicate IsLogged(s: Server, step: Step)
    requires Enabled(s, step)
  {
    step.Handle? || step.FireDone? || step.PostAnswer?
      || (step.Proceed? && (s.calls[s.handlers[step.cq].tag].finishing || !s.handlers[step.cq].ok))
  }

  lemma SilentStepStaysBooked(s: Server, step: Step, t: nat)
    requires CallsPlaced(s) && KindsKept(s) && Booked(s, t) && Enabled(s, step) && !IsLogged(s, step)
    ensures Booked(Next(s, step), t)
  {
    hide Observations, Posts, Frees;
    var n := Next(s, step);
    assert n.log == s.log && n.accepted == s.accepted && n.inPipeline == s.inPipeline && n.answering == s.answering;
    assert t < |s.kinds| ==> t < |n.kinds| && n.kinds[t] == s.kinds[t];
    assert t < s.created && t !in s.calls <==> t < n.created && t !in n.calls;
  }

  lemma FreeingStaysBooked(s: Server, c: nat, t: nat)
    requires Owned(s) && KindsKept(s) && Booked(s, t) && c < |s.handlers| && s.handlers[c].Dispatching?
    ensures Booked(Free(s, c, s.handlers[c].tag), t)
  {
    hide Observations, Posts, Frees;
    LogGrows(s.log, Freed(s.handlers[c].tag), t);
    assert CallsPlaced(s) && HandlersLive(s);
    hide Owned;
  }

  lemma HandlingStaysBooked(s: Server, c: nat, t: nat)
    requires Owned(s) && KindsKept(s) && AcceptedOnce(s) && Booked(s, t) && Enabled(s, Handle(c))
    ensures Booked(Next(s, Handle(c)), t)
  {
    HandledHasNoOtherOwner(s, c);
    HandledIsNotAccepted(s, c);
    hide Owned, AcceptedOnce;
    AcceptingStaysBooked(s, c, t);
  }

  lemma HandledIsNotAccepted(s: Server, c: nat)
    requires Owned(s) && AcceptedOnce(s) && Enabled(s, Handle(c))
    ensures s.handlers[c].tag !in s.accepted
  {
    HandledHasNoOtherOwner(s, c);
    assert StatesAgree(s);
    hide Owned;
  }

  lemma AcceptingStaysBooked(s: Server, c: nat, t: nat)
    requires KindsKept(s) && Booked(s, t) && Enabled(s, Handle(c))
    requires var u := s.handlers[c].tag; u !in s.accepted && u !in s.inPipeline && u !in s.answering
    ensures Booked(Next(s, Handle(c)), t)
  {
    hide Observations, Posts, Frees;
    var u := s.handlers[c].tag;
    LogGrows(s.log, Posted(u, false), t);
    assert u < |s.kinds| && s.kinds[u] == s.calls[u].kind;
    hide KindsKept;
  }

  lemma ObservingStaysBooked(s: Server, u: nat, shed: bool, t: nat)
    requires Owned(s) && KindsKept(s) && AcceptedOnce(s) && Booked(s, t) && Enabled(s, FireDone(u, shed))
    ensures Booked(Next(s, FireDone(u, shed)), t)
  {
    InPipelineHasNoOtherOwner(s, u);
    assert u in s.accepted && u < |s.kinds| && s.kinds[u] == GetBid by {
      assert PipelineTakesBids(s);
    }
    hide Owned, KindsKept, AcceptedOnce;
    AcceptedDoneStaysBooked(s, u, shed, t);
  }

  lemma AcceptedDoneStaysBooked(s: Server, u: nat, shed: bool, t: nat)
    requires Booked(s, t) && Enabled(s, FireDone(u, shed))
    requires u in s.accepted && u < |s.kinds| && s.kinds[u] == GetBid && u !in s.answering
    ensures Booked(Next(s, FireDone(u, shed)), t)
  {
    hide Observations, Posts, Frees;
    LogGrows(s.log, Observed(u), t);
  }

  lemma PostingStaysBooked(s: Server, u: nat, t: nat)
    requires Owned(s) && AcceptedOnce(s) && Booked(s, t) && Enabled(s, PostAnswer(u))
    ensures Booked(Next(s, PostAnswer(u)), t)
  {
    AnsweringHasNoOtherOwner(s, u);
    assert u in s.accepted;
    hide Owned, AcceptedOnce;
    AcceptedPostStaysBooked(s, u, t);
  }

  lemma AcceptedPostStaysBooked(s: Server, u: nat, t: nat)
    requires Booked(s, t) && Enabled(s, PostAnswer(u)) && u in s.accepted && u !in s.inPipeline
    ensures Booked(Next(s, PostAnswer(u)), t)
  {
    hide Observations, Posts, Frees;
    LogGrows(s.log, Posted(u, s.answering[u]), t);
  }

  lemma AnsweringHasNoOtherOwner(s: Server, t: nat)
    requires Owned(s) && t in s.answering
    ensures t !in s.inPipeline && t !in s.posted
  {
    assert Owners(s, t) == 1;
  }

  lemma StartsBooked(cqCount: int, t: nat)
    ensures var s := Started(cqCount); KindsKept(s) && AcceptedOnce(s) && Booked(s, t)
  {
  }

  lemma {:induction false} TraceStaysBooked(cqCount: int, r: Trace, i: nat, t: nat)
    requires IsTrace(cqCount, r) && i < |r.states|
    ensures KindsKept(r.states[i]) && AcceptedOnce(r.states[i]) && Booked(r.states[i], t)
  {
    hide Next, Enabled, Owned, KindsKept, AcceptedOnce, Booked;
    if i == 0 {
      StartsBooked(cqCount, t);
    } else {
      var s, step := r.states[i - 1], r.steps[i - 1];
      TraceStaysBooked(cqCount, r, i - 1, t);
      TraceStaysOwned(cqCount, r, i - 1);
      StepStaysBooked(s, step, t);
    }
  }

  lemma StepStaysBooked(s: Server, step: Step, t: nat)
    requires Owned(s) && KindsKept(s) && AcceptedOnce(s) && Booked(s, t) && Enabled(s, step)
    ensures KindsKept(Next(s, step)) && AcceptedOnce(Next(s, step)) && Booked(Next(s, step), t)
  {
    OwnedIsLive(s);
    hide Owned, KindsKept, AcceptedOnce, Booked;
    StepKeepsKinds(s, step);
    StepAcceptsOnce(s, step);
    if !IsLogged(s, step) {
      SilentStepStaysBooked(s, step, t);
    } else if step.Proceed? {
      FreeingStaysBooked(s, step.cq, t);
    } else if step.Handle? {
      HandlingStaysBooked(s, step.cq, t);
    } else if step.FireDone? {
      ObservingStaysBooked(s, step.tag, step.shed, t);
    } else {
      PostingStaysBooked(s, step.tag, t);
    }
  }

  /** Every call whose RPC was taken up posts exactly one answer by the time it is freed, and a bid is
      observed exactly once; until then each happens at most once. No object is freed twice, and a freed
      one stays freed. */
  lemma AnsweredOnceFreedOnce(cqCount: int, r: Trace, i: nat, t: nat)
    requires IsTrace(cqCount, r) && i < |r.states|
    ensures var s := r.states[i];
      && Posts(s.log, t) <= 1 && Observations(s.log, t) <= 1
      && Frees(s.log, t) == One(t < s.created && t !in s.calls)
      && (Frees(s.log, t) == 1 && t in s.accepted ==>
          Posts(s.log, t) == 1 && t < |s.kinds| && Observations(s.log, t) == One(s.kinds[t] == GetBid))
      && (t !in s.accepted ==> Posts(s.log, t) == 0 && Observations(s.log, t) == 0)
  {
    TraceStaysBooked(cqCount, r, i, t);
    TraceStaysOwned(cqCount, r, i);
    var s := r.states[i];
    assert OwnersLive(s);
    hide Owned;
    assert t in s.inPipeline || t in s.answering ==> t in s.calls;
  }

  // ---------- only bids fail ----------

  /** No error is ever posted on a call that is not a bid. */
  ghost predicate BidsFail(s: Server) {
    forall t: nat :: Posted(t, true) in s.log ==> t < |s.kinds| && s.kinds[t] == GetBid
  }

  lemma StepKeepsBidsFail(s: Server, step: Step)
    requires StatesAgree(s) && KindsKept(s) && BidsFail(s) && Enabled(s, step)
    ensures BidsFail(Next(s, step))
  {
    hide WaitingInProcess, AnsweredInFinish, HandledInProcess;
    var n := Next(s, step);
    forall t: nat | Posted(t, true) in n.log
      ensures t < |n.kinds| && n.kinds[t] == GetBid
    {
      if Posted(t, true) !in s.log {
        assert step == PostAnswer(t);
      }
    }
  }

  /** Notifications and health checks are always answered without an error. */
  lemma {:induction false} OnlyBidsFail(cqCount: int, r: Trace, i: nat)
    requires IsTrace(cqCount, r) && i < |r.states|
    ensures BidsFail(r.states[i])
  {
    hide Next, Enabled, KindsKept, AcceptedOnce, Booked, BidsFail, StatesAgree;
    if i == 0 {
      StartsWithoutFailures(cqCount);
    } else {
      OnlyBidsFail(cqCount, r, i - 1);
      TraceStaysOwned(cqCount, r, i - 1);
      TraceStaysBooked(cqCount, r, i - 1, 0);
      StepKeepsBidsFail(r.states[i - 1], r.steps[i - 1]);
    }
  }

  lemma StartsWithoutFailures(cqCount: int)
    ensures BidsFail(Started(cqCount))
  {
  }

  /** An object is freed only by its own queue's handler, with nothing else referring to it: not the
      transport, no event, no other handler, not the pipeline, no answer under way. If its RPC had been
      taken up, its handler had returned and its answer had been posted. */
  lemma FreeingIsSafe(cqCount: int, r: Trace, i: nat)
    requires IsTrace(cqCount, r) && i < |r.steps|
    requires r.steps[i].Proceed? && IsLogged(r.states[i], r.steps[i])
    ensures var s, c := r.states[i], r.steps[i].cq; var t := s.handlers[c].tag; var n := r.states[i + 1];
      && t in s.calls && s.calls[t].cq == c && t !in n.calls
      && t !in n.armed && t !in n.inPipeline && t !in n.answering && t !in n.posted
      && (forall d, j :: 0 <= d < |n.queues| && 0 <= j < |n.queues[d]| ==> n.queues[d][j].tag != t)
      && (forall d :: 0 <= d < |n.handlers| && n.handlers[d] != Idle ==> n.handlers[d].tag != t)
      && (t in s.accepted ==> Posts(s.log, t) == 1)
      && (s.calls[t].finishing <==> t in s.accepted)
  {
    var s := r.states[i];
    TraceStaysOwned(cqCount, r, i);
    TraceStaysOwned(cqCount, r, i + 1);
    TraceStaysBooked(cqCount, r, i, s.handlers[r.steps[i].cq].tag);
    HandledHasNoOtherOwner(s, r.steps[i].cq);
    hide Owners, Posts, Observations, Frees;
  }
}
