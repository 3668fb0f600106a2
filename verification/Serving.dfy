/** The serving path as a step system (cpp-bidder/src/bid_pipeline.cpp, micro_batcher.cpp): every
    critical section is one step, and the threads' steps interleave in any order. */
module Serving {
  import opened Types
  import opened Fallback
  import opened ModelSessions
  import opened MicroBatchers
  import BidOptimizer
  import CB = CircuitBreakers
  import DC = DedupCaches

  datatype Config = Config(
    breaker: CB.Settings, cache: DC.Settings, fallback: Fallback.Settings,
    workers: int, batchMax: int, queueMax: int,
    multiplier: real, numBins: nat, encode: Request -> Features)

  datatype Status = Ok | CacheHit | FallbackOpen | FallbackError | ResourceExhausted

  /** The arguments of one `done` call. */
  datatype Answer = Answer(decision: Decision, usedFallback: bool, status: Status)

  datatype Reply = Reply(token: nat, answer: Answer)

  /** Where a thread is inside `process`, for a request it still has to hand over or answer. */
  datatype Caller = AtCache | AtBreaker | AtSubmit | AtDone(answer: Answer)

  /** Where the callback of a batch's next job is. */
  datatype Stage = AtResult | AtPut | AtReply

  datatype Worker =
    | Waiting                                        // blocked in the condition variable
    | Awake                                          // about to take the lock and test the predicate
    | Loaded(batch: seq<Job>)                        // popped a batch
    | Running(batch: seq<Job>, session: Session)     // holds a copy of the session pointer
    | Delivering(batch: seq<Job>, rows: Option<seq<seq<real>>>, next: nat, stage: Stage)
    | Exited

  /** The first caller of `stop`: flag not set, flag set and notify_all still owed, joining, returned. */
  datatype Stopper = NotCalled | Notifying | Joining | Returned

  /** One completed model run: the session it used, the jobs in it, and whether it threw. */
  datatype Run = Run(session: Session, jobs: seq<Job>, threw: bool)

  /** What happened so far. No step reads it. `lookedUp`, `asked`, `reported` and `stored` say which call was made for
      which request: its look-up in the cache, its ask of the breaker, its result given to the breaker, its put. */
  datatype History = History(
    accepted: seq<Job>, takes: seq<seq<Job>>, runs: seq<Run>, sessions: seq<Session>,
    cacheCalls: seq<DC.Event>, lookedUp: map<nat, nat>,
    breakerCalls: seq<CB.Event>, asked: map<nat, nat>,
    reported: map<nat, nat>, stored: map<nat, nat>)

  datatype System = System(
    now: int, arrivals: seq<Request>, callers: map<nat, Caller>,
    queue: seq<Job>, owedNotifies: nat, stopper: Stopper, earlyReturns: nat, workers: seq<Worker>,
    session: Session, unpublished: bool, version: nat,
    cache: DC.Cache, breaker: CB.Breaker,
    replies: seq<Reply>, history: History)

  datatype Step =
    | Tick(to: int)
    | Arrive(request: Request)
    | LookUp(token: nat)             // DedupCache::get
    | AskBreaker(token: nat)         // CircuitBreaker::allow_request, then encode
    | Submit(token: nat)             // MicroBatcher::submit under its lock
    | CallDone(token: nat)           // done called by process itself
    | NotifyOne(target: Option<nat>) // a submitter's notify_one
    | WakeSpuriously(worker: nat)
    | TestQueue(worker: nat)         // the predicate, and the critical section when it holds
    | CopySession(worker: nat)       // ModelSession::current
    | FinishRun(worker: nat, throws: bool)
    | RecordResult(worker: nat)      // breaker result of the next job's callback
    | PutDecision(worker: nat)       // DedupCache::put of the next job's callback
    | FireDone(worker: nat)          // done of the next job's callback
    | SwapModel(candidate: Candidate)
    | PublishVersion
    | CallStop
    | NotifyAll
    | JoinWorkers

  predicate IsBusy(w: Worker) {
    w != Waiting && w != Exited
  }

  predicate Stopping(s: System) {
    s.stopper != NotCalled
  }

  function Decide(cfg: Config, row: seq<real>, req: Request): Decision {
    BidOptimizer.Optimize(row, req.impressionValue, cfg.multiplier)
  }

  function FallbackFor(cfg: Config, req: Request): Decision {
    BidFor(cfg.fallback, req, cfg.multiplier)
  }

  predicate SomeoneWaits(workers: seq<Worker>) {
    exists w :: 0 <= w < |workers| && workers[w] == Waiting
  }

  predicate AtStage(s: System, w: nat, stage: Stage) {
    && w < |s.workers| && s.workers[w].Delivering? && s.workers[w].stage == stage
    && s.workers[w].next < |s.workers[w].batch|
    && (s.workers[w].rows.Some? ==> |s.workers[w].rows.value| == |s.workers[w].batch|)
  }

  predicate CallerAt(s: System, t: nat) {
    t in s.callers && t < |s.arrivals|
  }

  ghost predicate Enabled(cfg: Config, s: System, step: Step) {
    match step
    case Tick(to) => s.now <= to
    case Arrive(_) => true
    case LookUp(t) => CallerAt(s, t) && s.callers[t] == AtCache
    case AskBreaker(t) => CallerAt(s, t) && s.callers[t] == AtBreaker
    case Submit(t) => CallerAt(s, t) && s.callers[t] == AtSubmit
    case CallDone(t) => CallerAt(s, t) && s.callers[t].AtDone?
    case NotifyOne(target) =>
      && s.owedNotifies > 0
      && if target.Some? then target.value < |s.workers| && s.workers[target.value] == Waiting
         else !SomeoneWaits(s.workers)
    case WakeSpuriously(w) => w < |s.workers| && s.workers[w] == Waiting
    case TestQueue(w) => w < |s.workers| && s.workers[w] == Awake
    case CopySession(w) => w < |s.workers| && s.workers[w].Loaded?
    case FinishRun(w, _) => w < |s.workers| && s.workers[w].Running?
    case RecordResult(w) => AtStage(s, w, AtResult)
    case PutDecision(w) => AtStage(s, w, AtPut) && s.workers[w].rows.Some?
    case FireDone(w) => AtStage(s, w, AtReply)
    case SwapModel(c) => !s.unpublished && (c.Fresh? ==> IsRowWise(c.session))
    case PublishVersion => s.unpublished
    case CallStop => true
    case NotifyAll => s.stopper == Notifying
    case JoinWorkers => s.stopper == Joining && forall w :: 0 <= w < |s.workers| ==> s.workers[w] == Exited
  }

  function JobFor(cfg: Config, s: System, t: nat): Job
    requires t < |s.arrivals|
  {
    Job(t, s.arrivals[t], cfg.encode(s.arrivals[t]))
  }

  /** What the callback of job `w.next` answers with. */
  function CallbackAnswer(cfg: Config, w: Worker): Answer
    requires w.Delivering? && w.next < |w.batch| && (w.rows.Some? ==> |w.rows.value| == |w.batch|)
  {
    var req := w.batch[w.next].request;
    if w.rows.Some? then Answer(Decide(cfg, w.rows.value[w.next], req), false, Ok)
    else Answer(FallbackFor(cfg, req), true, FallbackError)
  }

  function AfterTest(cfg: Config, s: System, w: nat): System
    requires w < |s.workers|
  {
    if s.queue == [] then
      s.(workers := s.workers[w := if Stopping(s) then Exited else Waiting])
    else
      var n := TakeCount(s.queue, cfg.batchMax);
      if n == 0 then s
      else
        s.(queue := s.queue[n..],
           workers := s.workers[w := Loaded(s.queue[..n])],
           history := s.history.(takes := s.history.takes + [s.queue[..n]]))
  }

  function AfterSubmit(cfg: Config, s: System, t: nat): System
    requires t < |s.arrivals|
  {
    if Admits(s.queue, Stopping(s), cfg.queueMax) then
      var job := JobFor(cfg, s, t);
      s.(queue := s.queue + [job],
         owedNotifies := s.owedNotifies + 1,
         callers := s.callers - {t},
         history := s.history.(accepted := s.history.accepted + [job]))
    else
      s.(callers := s.callers[t := AtDone(Answer(EMPTY_DECISION, false, ResourceExhausted))])
  }

  function AfterLookUp(s: System, t: nat): System
    requires t < |s.arrivals|
  {
    var id := s.arrivals[t].id;
    var found := DC.Lookup(s.cache, s.now, id);
    s.(cache := DC.AfterGet(s.cache, s.now, id),
       callers := s.callers[t := if found.Some? then AtDone(Answer(found.value, false, CacheHit)) else AtBreaker],
       history := s.history.(cacheCalls := s.history.cacheCalls + [DC.Get(s.now, id, found)],
                             lookedUp := s.history.lookedUp[t := |s.history.cacheCalls|]))
  }

  function AfterAskBreaker(cfg: Config, s: System, t: nat): System
    requires t < |s.arrivals|
  {
    var ok := CB.Admits(cfg.breaker, s.breaker, s.now);
    s.(breaker := CB.AfterAsk(cfg.breaker, s.breaker, s.now),
       callers := s.callers[t := if ok then AtSubmit
                                    else AtDone(Answer(FallbackFor(cfg, s.arrivals[t]), true, FallbackOpen))],
       history := s.history.(breakerCalls := s.history.breakerCalls + [CB.Asked(s.now, ok)],
                             asked := s.history.asked[t := |s.history.breakerCalls|]))
  }

  function AfterFinishRun(s: System, w: nat, throws: bool): System
    requires w < |s.workers| && s.workers[w].Running?
  {
    var session, batch := s.workers[w].session, s.workers[w].batch;
    var rows := if throws then None else Some(Rows(session, batch));
    s.(workers := s.workers[w := Delivering(batch, rows, 0, AtResult)],
       history := s.history.(runs := s.history.runs + [Run(session, batch, throws)]))
  }

  function AfterRecordResult(cfg: Config, s: System, w: nat): System
    requires AtStage(s, w, AtResult)
  {
    var me := s.workers[w];
    if me.rows.Some? then
      s.(breaker := CB.AfterSuccess(s.breaker),
         workers := s.workers[w := me.(stage := AtPut)],
         history := s.history.(breakerCalls := s.history.breakerCalls + [CB.Succeeded(s.now)],
                               reported := s.history.reported[me.batch[me.next].token := |s.history.breakerCalls|]))
    else
      s.(breaker := CB.AfterFailure(cfg.breaker, s.breaker, s.now),
         workers := s.workers[w := me.(stage := AtReply)],
         history := s.history.(breakerCalls := s.history.breakerCalls + [CB.Failed(s.now)],
                               reported := s.history.reported[me.batch[me.next].token := |s.history.breakerCalls|]))
  }

  function AfterPutDecision(cfg: Config, s: System, w: nat): System
    requires AtStage(s, w, AtPut) && s.workers[w].rows.Some?
  {
    var me := s.workers[w];
    var id, d := me.batch[me.next].request.id, CallbackAnswer(cfg, me).decision;
    s.(cache := DC.AfterPut(cfg.cache, s.cache, s.now, id, d),
       workers := s.workers[w := me.(stage := AtReply)],
       history := s.history.(cacheCalls := s.history.cacheCalls + [DC.Put(s.now, id, d)],
                             stored := s.history.stored[me.batch[me.next].token := |s.history.cacheCalls|]))
  }

  function AfterFireDone(cfg: Config, s: System, w: nat): System
    requires AtStage(s, w, AtReply)
  {
    var me := s.workers[w];
    s.(replies := s.replies + [Reply(me.batch[me.next].token, CallbackAnswer(cfg, me))],
       workers := s.workers[w := if me.next + 1 == |me.batch| then Awake
                                  else me.(next := me.next + 1, stage := AtResult)])
  }

  function AllAwake(workers: seq<Worker>): seq<Worker> {
    seq(|workers|, i requires 0 <= i < |workers| => if workers[i] == Waiting then Awake else workers[i])
  }

  ghost function Next(cfg: Config, s: System, step: Step): System
    requires Enabled(cfg, s, step)
  {
    match step
    case Tick(to) => s.(now := to)
    case Arrive(req) => s.(arrivals := s.arrivals + [req], callers := s.callers[|s.arrivals| := AtCache])
    case LookUp(t) => AfterLookUp(s, t)
    case AskBreaker(t) => AfterAskBreaker(cfg, s, t)
    case Submit(t) => AfterSubmit(cfg, s, t)
    case CallDone(t) => s.(callers := s.callers - {t}, replies := s.replies + [Reply(t, s.callers[t].answer)])
    case NotifyOne(target) =>
      s.(owedNotifies := s.owedNotifies - 1,
         workers := if target.Some? then s.workers[target.value := Awake] else s.workers)
    case WakeSpuriously(w) => s.(workers := s.workers[w := Awake])
    case TestQueue(w) => AfterTest(cfg, s, w)
    case CopySession(w) => s.(workers := s.workers[w := Running(s.workers[w].batch, s.session)])
    case FinishRun(w, throws) => AfterFinishRun(s, w, throws)
    case RecordResult(w) => AfterRecordResult(cfg, s, w)
    case PutDecision(w) => AfterPutDecision(cfg, s, w)
    case FireDone(w) => AfterFireDone(cfg, s, w)
    case SwapModel(c) =>
      if Accepts(cfg.numBins, c) then
        s.(session := c.session, unpublished := true,
           history := s.history.(sessions := s.history.sessions + [c.session]))
      else s
    case PublishVersion => s.(version := s.version + 1, unpublished := false)
    case CallStop => if Stopping(s) then s.(earlyReturns := s.earlyReturns + 1) else s.(stopper := Notifying)
    case NotifyAll => s.(stopper := Joining, workers := AllAwake(s.workers))
    case JoinWorkers => s.(stopper := Returned)
  }

  /** At least one worker thread is started, whatever the setting. */
  function Initial(cfg: Config, session: Session): System {
    System(0, [], map[], [], 0, NotCalled, 0, seq(Max(1, cfg.workers), _ => Awake), session, false, 1,
      DC.EMPTY, CB.FRESH, [], History([], [], [], [session], [], map[], [], map[], map[], map[]))
  }

  /** A model whose bin count the pipeline adopted at start. */
  ghost predicate Adopted(cfg: Config, session: Session) {
    IsRowWise(session) && session.width == cfg.numBins
  }

  /** An interleaving: the states before and after each of its steps. */
  datatype Trace = Trace(states: seq<System>, steps: seq<Step>)

  ghost predicate IsTrace(cfg: Config, initial: Session, r: Trace) {
    && |r.states| == |r.steps| + 1
    && Adopted(cfg, initial)
    && r.states[0] == Initial(cfg, initial)
    && forall i :: 0 <= i < |r.steps| ==>
      Enabled(cfg, r.states[i], r.steps[i]) && r.states[i + 1] == Next(cfg, r.states[i], r.steps[i])
  }
}
