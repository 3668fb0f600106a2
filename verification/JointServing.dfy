/** The asynchronous server and the pipeline behind it, run together (cpp-bidder/src/async_server.cpp,
    cpp-bidder/src/bid_pipeline.cpp): a bid's hand-over is an arrival in the pipeline, and the pipeline's `done` for
    that arrival is what answers the bid's call object. */
module JointServing {
  import opened Types
  import opened Fallback
  import opened Serving
  import opened ServingDrain
  import opened ServingFrames
  import opened ServingTally
  import A = AsyncServers

  /** Arrival `k` of the pipeline was handed over by call object `tagOf[k]`. */
  datatype Joint = Joint(server: A.Server, system: System, tagOf: seq<nat>)

  datatype Step =
    | Transport(move: A.Step)             // any step of the server but the two it shares with the pipeline
    | HandOver(cq: nat, request: Request) // a bid's handler calls `process`
    | Pipeline(step: Serving.Step)        // any step of the pipeline but the two it shares with the server
    | Done(step: Serving.Step)            // `done` runs, on a caller's or a worker's thread

  predicate HandsABidOver(s: A.Server, c: nat) {
    A.Enabled(s, A.Handle(c)) && s.calls[s.handlers[c].tag].kind == A.GetBid
  }

  ghost predicate Enabled(cfg: Config, j: Joint, step: Step) {
    match step
    case Transport(x) => A.Enabled(j.server, x) && !x.FireDone? && !(x.Handle? && HandsABidOver(j.server, x.cq))
    case HandOver(c, _) => HandsABidOver(j.server, c)
    case Pipeline(x) => Serving.Enabled(cfg, j.system, x) && !x.Arrive? && !AnswersSomeone(x)
    case Done(x) => Serving.Enabled(cfg, j.system, x) && AnswersSomeone(x)
  }

  /** The arguments of the `done` call of a step. */
  ghost function ReplyOf(cfg: Config, s: System, step: Serving.Step): Reply
    requires Serving.Enabled(cfg, s, step) && AnswersSomeone(step)
  {
    if step.CallDone? then Reply(step.token, s.callers[step.token].answer)
    else
      var me := s.workers[step.worker];
      Reply(me.batch[me.next].token, CallbackAnswer(cfg, me))
  }

  predicate IsShed(r: Reply) {
    r.answer.status == ResourceExhausted
  }

  predicate FindsItsCall(j: Joint, r: Reply) {
    r.token < |j.tagOf| && A.Enabled(j.server, A.FireDone(j.tagOf[r.token], IsShed(r)))
  }

  /** What `done` does to the server; that it finds the call object alive and waiting is proved, not assumed. */
  function AfterDone(j: Joint, r: Reply): A.Server {
    if FindsItsCall(j, r) then A.Next(j.server, A.FireDone(j.tagOf[r.token], IsShed(r))) else j.server
  }

  ghost function Next(cfg: Config, j: Joint, step: Step): Joint
    requires Enabled(cfg, j, step)
  {
    match step
    case Transport(x) => j.(server := A.Next(j.server, x))
    case HandOver(c, req) =>
      Joint(A.Next(j.server, A.Handle(c)), Serving.Next(cfg, j.system, Arrive(req)),
            j.tagOf + [j.server.handlers[c].tag])
    case Pipeline(x) => j.(system := Serving.Next(cfg, j.system, x))
    case Done(x) => j.(server := AfterDone(j, ReplyOf(cfg, j.system, x)), system := Serving.Next(cfg, j.system, x))
  }

  datatype Trace = Trace(states: seq<Joint>, steps: seq<Step>)

  ghost predicate IsTrace(cfg: Config, cqCount: int, initial: Session, r: Trace) {
    && |r.states| == |r.steps| + 1
    && Adopted(cfg, initial)
    && r.states[0] == Joint(A.Started(cqCount), Initial(cfg, initial), [])
    && forall i :: 0 <= i < |r.steps| ==>
      Enabled(cfg, r.states[i], r.steps[i]) && r.states[i + 1] == Next(cfg, r.states[i], r.steps[i])
  }

  // ---------- the pipeline's side is a trace of its own ----------

  function PipelineStep(j: Joint, step: Step): Serving.Step {
    match step
    case Transport(_) => Tick(j.system.now)
    case HandOver(_, req) => Arrive(req)
    case Pipeline(x) => x
    case Done(x) => x
  }

  lemma PipelineFollows(cfg: Config, j: Joint, step: Step)
    requires Enabled(cfg, j, step)
    ensures Serving.Enabled(cfg, j.system, PipelineStep(j, step))
    ensures Next(cfg, j, step).system == Serving.Next(cfg, j.system, PipelineStep(j, step))
  {
    hide A.Next, AfterLookUp, AfterAskBreaker, AfterSubmit, AfterTest, AfterFinishRun, AfterRecordResult;
    hide AfterPutDecision, AfterFireDone, AllAwake, ReplyOf, AfterDone;
  }

  function PipelineSide(r: Trace): Serving.Trace
    requires |r.states| == |r.steps| + 1
  {
    Serving.Trace(seq(|r.states|, i requires 0 <= i < |r.states| => r.states[i].system),
                  seq(|r.steps|, i requires 0 <= i < |r.steps| => PipelineStep(r.states[i], r.steps[i])))
  }

  lemma PipelineSideIsATrace(cfg: Config, cqCount: int, initial: Session, r: Trace)
    requires IsTrace(cfg, cqCount, initial, r)
    ensures Serving.IsTrace(cfg, initial, PipelineSide(r))
  {
    hide Next, Enabled, Serving.Next, Serving.Enabled, PipelineStep, A.Started;
    var p := PipelineSide(r);
    forall i | 0 <= i < |p.steps|
      ensures Serving.Enabled(cfg, p.states[i], p.steps[i])
      ensures p.states[i + 1] == Serving.Next(cfg, p.states[i], p.steps[i])
    {
      PipelineFollows(cfg, r.states[i], r.steps[i]);
    }
  }

  // ---------- what the two sides agree on ----------

  ghost predicate ServerSound(s: A.Server) {
    A.Owned(s) && A.KindsKept(s) && A.AcceptedOnce(s) && A.BidsFail(s) && forall t :: A.Booked(s, t)
  }

  predicate IsBid(s: A.Server, t: nat) {
    t in s.accepted && t < |s.kinds| && s.kinds[t] == A.GetBid
  }

  /** Arrivals are exactly the accepted bids, each handed over by its own call. */
  ghost predicate BidsArrived(j: Joint) {
    && |j.tagOf| == |j.system.arrivals|
    && (forall k :: 0 <= k < |j.tagOf| ==> IsBid(j.server, j.tagOf[k]))
    && (forall k, l :: 0 <= k < l < |j.tagOf| ==> j.tagOf[k] != j.tagOf[l])
    && (forall t :: IsBid(j.server, t) ==> t in j.tagOf)
  }

  /** A call waits for the pipeline exactly as long as its arrival is unanswered. */
  ghost predicate WaitingTogether(j: Joint) {
    forall k :: 0 <= k < |j.tagOf| ==>
      (j.tagOf[k] in j.server.inPipeline <==> Answered(j.system.replies, Only(k)) == 0)
  }

  /** The reply is being posted, or has been, as an error exactly if the request was shed. */
  ghost predicate OnTheWire(s: A.Server, t: nat, shed: bool) {
    (t in s.answering && s.answering[t] == shed) || A.Posted(t, shed) in s.log
  }

  ghost predicate RepliesOnTheWire(j: Joint) {
    forall i :: 0 <= i < |j.system.replies| ==>
      && j.system.replies[i].token < |j.tagOf|
      && OnTheWire(j.server, j.tagOf[j.system.replies[i].token], IsShed(j.system.replies[i]))
  }

  ghost predicate Joined(j: Joint) {
    ServerSound(j.server) && BidsArrived(j) && WaitingTogether(j) && RepliesOnTheWire(j)
  }

  lemma ServerStaysSound(s: A.Server, x: A.Step)
    requires ServerSound(s) && A.Enabled(s, x)
    ensures ServerSound(A.Next(s, x))
  {
    assert A.StatesAgree(s);
    hide A.Next, A.Enabled, A.Owned, A.KindsKept, A.AcceptedOnce, A.Booked, A.BidsFail, A.StatesAgree;
    A.StepStaysOwned(s, x);
    A.StepKeepsBidsFail(s, x);
    forall t ensures A.KindsKept(A.Next(s, x)) && A.AcceptedOnce(A.Next(s, x)) && A.Booked(A.Next(s, x), t) {
      A.StepStaysBooked(s, x, t);
    }
    A.StepStaysBooked(s, x, 0);
  }

  // ---------- steps of the server alone ----------

  lemma TransportTakesNoBid(s: A.Server, x: A.Step)
    requires A.KindsKept(s) && A.Enabled(s, x) && !x.FireDone? && !(x.Handle? && HandsABidOver(s, x.cq))
    ensures forall t :: IsBid(A.Next(s, x), t) <==> IsBid(s, t)
    ensures A.Next(s, x).inPipeline == s.inPipeline
  {
    if x.Handle? {
      HandlingAcceptsItsCall(s, x.cq);
      hide A.Next;
    } else {
      OthersAcceptNothing(s, x);
      hide A.Next, A.Enabled;
    }
  }

  lemma HandlingAcceptsItsCall(s: A.Server, c: nat)
    requires A.KindsKept(s) && A.Enabled(s, A.Handle(c))
    ensures var n, t := A.Next(s, A.Handle(c)), s.handlers[c].tag;
      && n.accepted == s.accepted + {t} && n.kinds == s.kinds && t < |s.kinds| && s.kinds[t] == s.calls[t].kind
      && n.inPipeline == (if s.calls[t].kind == A.GetBid then s.inPipeline + {t} else s.inPipeline)
      && n.answering == s.answering && s.log <= n.log
  {
  }

  lemma OthersAcceptNothing(s: A.Server, x: A.Step)
    requires A.KindsKept(s) && A.Enabled(s, x) && !x.FireDone? && !x.Handle?
    ensures var n := A.Next(s, x);
      && n.accepted == s.accepted && s.kinds <= n.kinds && n.inPipeline == s.inPipeline
      && (forall t :: t in s.accepted ==> t < |s.kinds|)
  {
  }

  lemma TransportKeepsTheWire(s: A.Server, x: A.Step, t: nat, shed: bool)
    requires A.Enabled(s, x) && !x.FireDone? && OnTheWire(s, t, shed)
    ensures OnTheWire(A.Next(s, x), t, shed)
  {
    PostsAreLogged(s, x);
    hide A.Next, A.Enabled;
  }

  lemma PostsAreLogged(s: A.Server, x: A.Step)
    requires A.Enabled(s, x) && !x.FireDone?
    ensures var n := A.Next(s, x);
      && s.log <= n.log
      && forall t :: t in s.answering ==>
           (t in n.answering && n.answering[t] == s.answering[t]) || A.Posted(t, s.answering[t]) in n.log
  {
    if x.PostAnswer? {
      var n := A.Next(s, x);
      assert n.log[|s.log|] == A.Posted(x.tag, s.answering[x.tag]);
    }
  }

  lemma TransportStaysJoined(j: Joint, x: A.Step)
    requires Joined(j) && A.Enabled(j.server, x) && !x.FireDone?
    requires !(x.Handle? && HandsABidOver(j.server, x.cq))
    ensures Joined(j.(server := A.Next(j.server, x)))
  {
    hide A.Next, A.Enabled, A.KindsKept, A.Owned, A.AcceptedOnce, A.Booked, IsBid, OnTheWire, Answered, HandsABidOver;
    var n := A.Next(j.server, x);
    ServerStaysSound(j.server, x);
    TransportTakesNoBid(j.server, x);
    hide ServerSound;
    forall i | 0 <= i < |j.system.replies|
      ensures OnTheWire(n, j.tagOf[j.system.replies[i].token], IsShed(j.system.replies[i]))
    {
      TransportKeepsTheWire(j.server, x, j.tagOf[j.system.replies[i].token], IsShed(j.system.replies[i]));
    }
  }

  // ---------- hand-over ----------

  lemma HandedOverIsNew(s: A.Server, c: nat)
    requires ServerSound(s) && HandsABidOver(s, c)
    ensures var t, n := s.handlers[c].tag, A.Next(s, A.Handle(c));
      && !IsBid(s, t) && t !in s.inPipeline
      && (forall u :: IsBid(n, u) <==> IsBid(s, u) || u == t)
      && n.inPipeline == s.inPipeline + {t} && n.answering == s.answering && s.log <= n.log
  {
    A.HandledIsNotAccepted(s, c);
    A.HandledHasNoOtherOwner(s, c);
    HandlingAcceptsItsCall(s, c);
    hide ServerSound, A.Next, A.KindsKept;
  }

  lemma HandOverSplits(cfg: Config, j: Joint, c: nat, req: Request)
    requires HandsABidOver(j.server, c)
    ensures var n := Next(cfg, j, HandOver(c, req));
      && n.server == A.Next(j.server, A.Handle(c)) && n.system == Serving.Next(cfg, j.system, Arrive(req))
      && n.tagOf == j.tagOf + [j.server.handlers[c].tag]
  {
    hide A.Next, Serving.Next;
  }

  lemma HandOverStaysJoined(cfg: Config, j: Joint, c: nat, req: Request)
    requires Joined(j) && HandsABidOver(j.server, c) && Tallied(j.system)
    ensures Joined(Next(cfg, j, HandOver(c, req)))
  {
    var n := Next(cfg, j, HandOver(c, req));
    var t, k := j.server.handlers[c].tag, |j.tagOf|;
    HandOverSplits(cfg, j, c, req);
    ArrivingOnlyArrives(cfg, j.system, req);
    hide Next, A.Next, Serving.Next, A.KindsKept, A.Owned, A.AcceptedOnce, A.Booked, A.BidsFail, IsBid, Answered;
    hide Everywhere, A.Enabled;
    ServerStaysSound(j.server, A.Handle(c));
    HandedOverIsNew(j.server, c);
    NotYetAnswered(j.system, k);
    hide ServerSound, HandsABidOver, Tallied;
    assert n.tagOf[k] == t && forall l :: 0 <= l < k ==> n.tagOf[l] == j.tagOf[l];
    BidsStillArrived(j, n, t);
    WaitingGoesOn(j, n, t);
    WireGoesOn(j, n);
  }

  lemma ArrivingOnlyArrives(cfg: Config, s: System, req: Request)
    ensures var n := Serving.Next(cfg, s, Arrive(req)); n.arrivals == s.arrivals + [req] && n.replies == s.replies
  {
  }

  lemma NotYetAnswered(s: System, k: nat)
    requires Tallied(s) && k >= |s.arrivals|
    ensures Answered(s.replies, Only(k)) == 0
  {
    assert Everywhere(s, Only(k)) == Arrived(s, Only(k));
  }

  lemma BidsStillArrived(j: Joint, n: Joint, t: nat)
    requires BidsArrived(j) && !IsBid(j.server, t) && n.tagOf == j.tagOf + [t]
    requires |n.system.arrivals| == |j.system.arrivals| + 1
    requires forall u :: IsBid(n.server, u) <==> IsBid(j.server, u) || u == t
    ensures BidsArrived(n)
  {
    hide IsBid;
    forall k, l | 0 <= k < l < |n.tagOf| ensures n.tagOf[k] != n.tagOf[l] {
      assert IsBid(j.server, n.tagOf[k]);
    }
  }

  lemma WaitingGoesOn(j: Joint, n: Joint, t: nat)
    requires WaitingTogether(j) && n.tagOf == j.tagOf + [t] && t !in j.tagOf
    requires n.server.inPipeline == j.server.inPipeline + {t}
    requires n.system.replies == j.system.replies && Answered(j.system.replies, Only(|j.tagOf|)) == 0
    ensures WaitingTogether(n)
  {
    hide Answered;
  }

  lemma WireGoesOn(j: Joint, n: Joint)
    requires RepliesOnTheWire(j) && j.tagOf <= n.tagOf && n.system.replies == j.system.replies
    requires n.server.answering == j.server.answering && j.server.log <= n.server.log
    ensures RepliesOnTheWire(n)
  {
  }

  // ---------- done ----------

  lemma OneMoreReply(cfg: Config, s: System, x: Serving.Step)
    requires Serving.Enabled(cfg, s, x) && AnswersSomeone(x)
    ensures var n := Serving.Next(cfg, s, x);
      n.replies == s.replies + [ReplyOf(cfg, s, x)] && n.arrivals == s.arrivals
  {
    hide CallbackAnswer;
  }

  /** A reply about to be given is the first one for an arrival. */
  lemma RepliesAreFirst(cfg: Config, s: System, x: Serving.Step)
    requires Serving.Enabled(cfg, s, x) && AnswersSomeone(x) && Tallied(s)
    ensures var k := ReplyOf(cfg, s, x).token; k < |s.arrivals| && Answered(s.replies, Only(k)) == 0
  {
    var r, n := ReplyOf(cfg, s, x), Serving.Next(cfg, s, x);
    StepStaysTallied(cfg, s, x);
    OneMoreReply(cfg, s, x);
    hide Serving.Next, Serving.Enabled, ReplyOf;
    OneMoreAnswered(s.replies, r, Only(r.token));
    assert Everywhere(n, Only(r.token)) == Arrived(n, Only(r.token));
    hide Answered, Jobs, InBatches, InProcess;
  }

  lemma WaitingCallIsAlive(s: A.Server, t: nat, shed: bool)
    requires ServerSound(s) && t in s.inPipeline
    ensures A.Enabled(s, A.FireDone(t, shed))
  {
    assert A.OwnersLive(s) && A.CallsPlaced(s);
  }

  lemma DoneReachesItsCall(cfg: Config, j: Joint, x: Serving.Step)
    requires Joined(j) && Tallied(j.system) && Serving.Enabled(cfg, j.system, x) && AnswersSomeone(x)
    ensures FindsItsCall(j, ReplyOf(cfg, j.system, x))
  {
    hide Serving.Enabled, ReplyOf, ServerSound, A.Enabled, Tallied, Answered;
    RepliesAreFirst(cfg, j.system, x);
    var r := ReplyOf(cfg, j.system, x);
    WaitingCallIsAlive(j.server, j.tagOf[r.token], IsShed(r));
  }

  lemma DoneOnlyAnswers(s: A.Server, t: nat, shed: bool)
    requires A.Enabled(s, A.FireDone(t, shed))
    ensures var n := A.Next(s, A.FireDone(t, shed));
      && n.accepted == s.accepted && n.kinds == s.kinds && n.inPipeline == s.inPipeline - {t}
      && n.answering == s.answering[t := shed] && s.log <= n.log
  {
  }

  lemma {:induction false} RepliedIsAnswered(replies: seq<Reply>, i: nat)
    requires i < |replies|
    ensures Answered(replies, Only(replies[i].token)) > 0
  {
    if i < |replies| - 1 {
      RepliedIsAnswered(replies[..|replies| - 1], i);
    }
  }

  /** What one `done` does to both sides. */
  lemma DoneStep(cfg: Config, j: Joint, x: Serving.Step)
    requires Joined(j) && Tallied(j.system) && Serving.Enabled(cfg, j.system, x) && AnswersSomeone(x)
    ensures var r, n := ReplyOf(cfg, j.system, x), Next(cfg, j, Done(x));
      && FindsItsCall(j, r)
      && n.server == A.Next(j.server, A.FireDone(j.tagOf[r.token], IsShed(r))) && n.tagOf == j.tagOf
      && n.system.replies == j.system.replies + [r] && n.system.arrivals == j.system.arrivals
      && Answered(j.system.replies, Only(r.token)) == 0
  {
    DoneReachesItsCall(cfg, j, x);
    RepliesAreFirst(cfg, j.system, x);
    OneMoreReply(cfg, j.system, x);
    hide Joined, Tallied, Serving.Next, Serving.Enabled, ReplyOf, A.Next, A.Enabled, Answered;
  }

  lemma DoneStaysJoined(cfg: Config, j: Joint, x: Serving.Step)
    requires Joined(j) && Tallied(j.system) && Serving.Enabled(cfg, j.system, x) && AnswersSomeone(x)
    ensures Joined(Next(cfg, j, Done(x)))
  {
    hide Next, Tallied, Serving.Enabled, ReplyOf, A.Next, A.Enabled, Answered, IsBid, OnTheWire, ServerSound;
    hide BidsArrived, WaitingTogether, RepliesOnTheWire;
    var r, n := ReplyOf(cfg, j.system, x), Next(cfg, j, Done(x));
    DoneStep(cfg, j, x);
    var t, shed := j.tagOf[r.token], IsShed(r);
    ServerStaysSound(j.server, A.FireDone(t, shed));
    DoneOnlyAnswers(j.server, t, shed);
    SameBidsArrived(j, n);
    WaitingEnds(j, n, r);
    WireGetsOneMore(j, n, r);
  }

  lemma SameBidsArrived(j: Joint, n: Joint)
    requires BidsArrived(j) && n.tagOf == j.tagOf && |n.system.arrivals| == |j.system.arrivals|
    requires n.server.accepted == j.server.accepted && n.server.kinds == j.server.kinds
    ensures BidsArrived(n)
  {
    assert forall u :: IsBid(n.server, u) <==> IsBid(j.server, u);
    hide IsBid;
  }

  lemma WaitingEnds(j: Joint, n: Joint, r: Reply)
    requires BidsArrived(j) && WaitingTogether(j) && r.token < |j.tagOf| && n.tagOf == j.tagOf
    requires n.system.replies == j.system.replies + [r]
    requires n.server.inPipeline == j.server.inPipeline - {j.tagOf[r.token]}
    ensures WaitingTogether(n)
  {
    hide Answered, IsBid;
    forall k | 0 <= k < |n.tagOf|
      ensures n.tagOf[k] in n.server.inPipeline <==> Answered(n.system.replies, Only(k)) == 0
    {
      OneMoreAnswered(j.system.replies, r, Only(k));
      assert k != r.token ==> n.tagOf[k] != j.tagOf[r.token];
    }
  }

  lemma WireGetsOneMore(j: Joint, n: Joint, r: Reply)
    requires BidsArrived(j) && RepliesOnTheWire(j) && r.token < |j.tagOf| && n.tagOf == j.tagOf
    requires Answered(j.system.replies, Only(r.token)) == 0 && n.system.replies == j.system.replies + [r]
    requires n.server.answering == j.server.answering[j.tagOf[r.token] := IsShed(r)] && j.server.log <= n.server.log
    ensures RepliesOnTheWire(n)
  {
    hide Answered, IsBid;
    forall i | 0 <= i < |n.system.replies|
      ensures n.system.replies[i].token < |n.tagOf|
      ensures OnTheWire(n.server, n.tagOf[n.system.replies[i].token], IsShed(n.system.replies[i]))
    {
      if i < |j.system.replies| {
        RepliedIsAnswered(j.system.replies, i);
        assert j.system.replies[i].token != r.token;
      }
    }
  }

  // ---------- every run ----------

  lemma PipelineStaysJoined(cfg: Config, j: Joint, x: Serving.Step)
    requires Joined(j) && Serving.Enabled(cfg, j.system, x) && !x.Arrive? && !AnswersSomeone(x)
    ensures Joined(j.(system := Serving.Next(cfg, j.system, x)))
  {
    CallersLeftAlone(cfg, j.system, x);
    hide Serving.Next, Serving.Enabled, ServerSound, IsBid, OnTheWire, Answered;
  }

  lemma StepStaysJoined(cfg: Config, j: Joint, step: Step)
    requires Joined(j) && Tallied(j.system) && Enabled(cfg, j, step)
    ensures Joined(Next(cfg, j, step))
  {
    hide Joined, Tallied, A.Enabled, A.Next, Serving.Enabled, Serving.Next, HandsABidOver;
    match step {
      case Transport(x) => TransportStaysJoined(j, x);
      case HandOver(c, req) => HandOverStaysJoined(cfg, j, c, req);
      case Pipeline(x) => PipelineStaysJoined(cfg, j, x);
      case Done(x) => DoneStaysJoined(cfg, j, x);
    }
  }

  lemma StartsJoined(cfg: Config, cqCount: int, initial: Session)
    ensures Joined(Joint(A.Started(cqCount), Initial(cfg, initial), []))
  {
    A.StartsOwned(cqCount);
    forall t
      ensures A.KindsKept(A.Started(cqCount)) && A.AcceptedOnce(A.Started(cqCount)) && A.Booked(A.Started(cqCount), t)
    {
      A.StartsBooked(cqCount, t);
    }
    A.StartsBooked(cqCount, 0);
    assert A.Started(cqCount).accepted == {};
    hide A.Owned, A.KindsKept, A.AcceptedOnce, A.Booked, A.Started;
  }

  lemma {:induction false} TraceStaysJoined(cfg: Config, cqCount: int, initial: Session, r: Trace, i: nat)
    requires IsTrace(cfg, cqCount, initial, r) && i < |r.states|
    ensures Joined(r.states[i]) && Tallied(r.states[i].system)
  {
    hide Joined, Next, Enabled, Tallied, A.Started;
    PipelineSideIsATrace(cfg, cqCount, initial, r);
    TraceStaysTallied(cfg, initial, PipelineSide(r), i);
    hide Serving.IsTrace;
    if i == 0 {
      StartsJoined(cfg, cqCount, initial);
    } else {
      TraceStaysJoined(cfg, cqCount, initial, r, i - 1);
      StepStaysJoined(cfg, r.states[i - 1], r.steps[i - 1]);
    }
  }

  // ---------- the theorems ----------

  /** Whenever the pipeline calls `done`, on whatever thread, the call object of that request is alive and still
      waiting for it: `done` never reaches a freed or an answered call. */
  lemma DoneAlwaysFindsItsCall(cfg: Config, cqCount: int, initial: Session, r: Trace, i: nat)
    requires IsTrace(cfg, cqCount, initial, r) && i < |r.steps| && r.steps[i].Done?
    ensures Serving.Enabled(cfg, r.states[i].system, r.steps[i].step) && AnswersSomeone(r.steps[i].step)
    ensures FindsItsCall(r.states[i], ReplyOf(cfg, r.states[i].system, r.steps[i].step))
  {
    TraceStaysJoined(cfg, cqCount, initial, r, i);
    assert Enabled(cfg, r.states[i], r.steps[i]);
    hide Joined, Tallied, Serving.Enabled, Next, FindsItsCall, ReplyOf;
    DoneReachesItsCall(cfg, r.states[i], r.steps[i].step);
  }

  /** In every interleaving of transport, pollers, callers, workers, reloads and stops: the arrivals of the pipeline are
      the accepted bids of the server, one call each. A bid is observed exactly when the pipeline has answered it, and
      posted exactly when it has and the posting is done; neither ever twice. */
  lemma EveryBidIsPostedOnce(cfg: Config, cqCount: int, initial: Session, r: Trace, i: nat, k: nat)
    requires IsTrace(cfg, cqCount, initial, r) && i < |r.states| && k < |r.states[i].system.arrivals|
    ensures var j := r.states[i];
      && k < |j.tagOf| && IsBid(j.server, j.tagOf[k])
      && (forall t :: IsBid(j.server, t) <==> t in j.tagOf)
      && (forall l :: 0 <= l < |j.tagOf| && l != k ==> j.tagOf[l] != j.tagOf[k])
      && Answered(j.system.replies, Only(k)) <= 1
      && A.Observations(j.server.log, j.tagOf[k]) == Answered(j.system.replies, Only(k))
      && A.Posts(j.server.log, j.tagOf[k])
         == if j.tagOf[k] in j.server.answering then 0 else Answered(j.system.replies, Only(k))
  {
    var j := r.states[i];
    TraceStaysJoined(cfg, cqCount, initial, r, i);
    PipelineSideIsATrace(cfg, cqCount, initial, r);
    AnsweredExactlyOnce(cfg, initial, PipelineSide(r), i, k);
    hide Serving.IsTrace, IsTrace, Tallied;
    var t := j.tagOf[k];
    assert A.Booked(j.server, t);
    AnsweringIsNotWaiting(j.server, t);
    hide A.Posts, A.Observations, A.Frees, Answered, ServerSound;
  }

  lemma AnsweringIsNotWaiting(s: A.Server, t: nat)
    requires ServerSound(s)
    ensures t in s.answering ==> t !in s.inPipeline
  {
    if t in s.answering {
      A.AnsweringHasNoOtherOwner(s, t);
    }
  }

  /** Once the stop that waits has returned and no caller is left inside `process`, every bid ever accepted has been
      observed exactly once, and posted exactly once or about to be. */
  lemma DrainedMeansPosted(cfg: Config, cqCount: int, initial: Session, r: Trace, i: nat, t: nat)
    requires IsTrace(cfg, cqCount, initial, r) && i < |r.states| && IsBid(r.states[i].server, t)
    requires r.states[i].system.stopper == Returned && r.states[i].system.callers == map[]
    ensures var s := r.states[i].server;
      && A.Observations(s.log, t) == 1
      && A.Posts(s.log, t) == (if t in s.answering then 0 else 1)
      && (t in s.answering ==> A.Enabled(s, A.PostAnswer(t)))
  {
    var j := r.states[i];
    TraceStaysJoined(cfg, cqCount, initial, r, i);
    PipelineSideIsATrace(cfg, cqCount, initial, r);
    StopReturnsDrained(cfg, initial, PipelineSide(r), i);
    AnsweringIsAlive(j.server, t);
    assert t in j.tagOf;
    var k :| 0 <= k < |j.tagOf| && j.tagOf[k] == t;
    hide Serving.IsTrace, Tallied, ServerSound, IsBid, A.Posts, A.Observations, Answered;
    EveryBidIsPostedOnce(cfg, cqCount, initial, r, i, k);
  }

  lemma AnsweringIsAlive(s: A.Server, t: nat)
    requires ServerSound(s)
    ensures t in s.answering ==> A.Enabled(s, A.PostAnswer(t))
  {
    assert A.OwnersLive(s) && A.CallsPlaced(s);
  }

  lemma {:induction false} PostedIsCounted(log: seq<A.Log>, t: nat, withError: bool)
    requires A.Posted(t, withError) in log
    ensures A.Posts(log, t) >= 1
    ensures A.Posted(t, !withError) in log ==> A.Posts(log, t) >= 2
  {
    var front := log[..|log| - 1];
    if A.Posted(t, withError) in front {
      PostedIsCounted(front, t, withError);
    } else if A.Posted(t, !withError) in front {
      PostedIsCounted(front, t, !withError);
    }
  }

  lemma {:induction false} AnsweredHasAReply(replies: seq<Reply>, k: nat) returns (n: nat)
    requires Answered(replies, Only(k)) > 0
    ensures n < |replies| && replies[n].token == k
  {
    n := |replies| - 1;
    if replies[n].token != k {
      n := AnsweredHasAReply(replies[..n], k);
    }
  }

  /** An error on the wire of a call is that of a request the pipeline shed. */
  lemma ErrorsAreSheds(cfg: Config, cqCount: int, initial: Session, r: Trace, i: nat, t: nat) returns (n: nat)
    requires IsTrace(cfg, cqCount, initial, r) && i < |r.states| && A.Posted(t, true) in r.states[i].server.log
    ensures var j := r.states[i];
      && n < |j.system.replies| && IsShed(j.system.replies[n])
      && j.system.replies[n].token < |j.tagOf| && j.tagOf[j.system.replies[n].token] == t
  {
    TraceStaysJoined(cfg, cqCount, initial, r, i);
    var j := r.states[i];
    hide IsTrace, Tallied, A.Owned, A.KindsKept, A.AcceptedOnce, Answered, A.Observations, A.Frees, A.Posts;
    PostedIsCounted(j.server.log, t, true);
    assert A.Booked(j.server, t) && A.BidsFail(j.server);
    assert IsBid(j.server, t);
    var k :| 0 <= k < |j.tagOf| && j.tagOf[k] == t;
    n := AnsweredHasAReply(j.system.replies, k);
    assert OnTheWire(j.server, t, IsShed(j.system.replies[n]));
  }

  /** The transport sees an error exactly for the requests the pipeline shed: every reply is being posted, or has been,
      with its own status. */
  lemma OnlyShedBidsFail(cfg: Config, cqCount: int, initial: Session, r: Trace, i: nat, n: nat)
    requires IsTrace(cfg, cqCount, initial, r) && i < |r.states| && n < |r.states[i].system.replies|
    ensures var j := r.states[i]; var reply := j.system.replies[n];
      && reply.token < |j.tagOf|
      && OnTheWire(j.server, j.tagOf[reply.token], IsShed(reply))
  {
    TraceStaysJoined(cfg, cqCount, initial, r, i);
  }
}
