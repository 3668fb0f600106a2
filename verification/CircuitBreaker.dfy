/** The three-state circuit breaker (cpp-bidder/src/circuit_breaker.cpp). */
module CircuitBreakers {
  import opened Types

  datatype Phase = Closed | Open | HalfOpen

  datatype Settings = Settings(failureThreshold: int, cooldownMs: int)

  datatype Breaker = Breaker(phase: Phase, failures: nat, openedAt: int)

  const FRESH := Breaker(Closed, 0, 0)

  /** One completed call on the breaker, with the clock reading taken under its lock. */
  datatype Event =
    | Asked(now: int, admitted: bool)
    | Succeeded(now: int)
    | Failed(now: int)

  /** `duration_cast` truncates toward zero. */
  function WholeMillis(nanos: int): int {
    if nanos >= 0 then nanos / NANOS_PER_MILLI else -(-nanos / NANOS_PER_MILLI)
  }

  predicate Admits(cfg: Settings, b: Breaker, now: int) {
    b.phase == Open ==> WholeMillis(now - b.openedAt) >= cfg.cooldownMs
  }

  function AfterAsk(cfg: Settings, b: Breaker, now: int): Breaker {
    if b.phase == Open && Admits(cfg, b, now) then b.(phase := HalfOpen) else b
  }

  function AfterSuccess(b: Breaker): Breaker {
    b.(phase := Closed, failures := 0)
  }

  function AfterFailure(cfg: Settings, b: Breaker, now: int): Breaker {
    if b.phase == HalfOpen then
      b.(phase := Open, openedAt := now)
    else
      var n := b.failures + 1;
      if n >= cfg.failureThreshold then Breaker(Open, n, now) else b.(failures := n)
  }

  function Apply(cfg: Settings, b: Breaker, e: Event): Breaker {
    match e
    case Asked(now, _) => AfterAsk(cfg, b, now)
    case Succeeded(_) => AfterSuccess(b)
    case Failed(now) => AfterFailure(cfg, b, now)
  }

  function After(cfg: Settings, h: seq<Event>): Breaker {
    if h == [] then FRESH else Apply(cfg, After(cfg, h[..|h| - 1]), h[|h| - 1])
  }

  /** A run: the clock never goes back, and every answer is the one the breaker gives. */
  ghost predicate IsRun(cfg: Settings, h: seq<Event>) {
    h == [] ||
    var before, e := h[..|h| - 1], h[|h| - 1];
    && IsRun(cfg, before)
    && (before != [] ==> before[|before| - 1].now <= e.now)
    && (e.Asked? ==> e.admitted == Admits(cfg, After(cfg, before), e.now))
  }

  lemma RunGrows(cfg: Settings, h: seq<Event>, e: Event)
    requires IsRun(cfg, h)
    requires h != [] ==> h[|h| - 1].now <= e.now
    requires e.Asked? ==> e.admitted == Admits(cfg, After(cfg, h), e.now)
    ensures IsRun(cfg, h + [e])
    ensures After(cfg, h + [e]) == Apply(cfg, After(cfg, h), e)
  {
    var g := h + [e];
    assert g[..|g| - 1] == h && g[|g| - 1] == e;
  }

  // ---------- the specification: only the history of results and the clock ----------

  function FailuresSinceSuccess(h: seq<Event>): nat {
    if h == [] || h[|h| - 1].Succeeded? then 0
    else FailuresSinceSuccess(h[..|h| - 1]) + if h[|h| - 1].Failed? then 1 else 0
  }

  function LatestFailure(h: seq<Event>): int
    requires FailuresSinceSuccess(h) > 0
  {
    if h[|h| - 1].Failed? then h[|h| - 1].now else LatestFailure(h[..|h| - 1])
  }

  /** A threshold below one trips on the first failure, exactly as a threshold of one does. */
  function Tripping(cfg: Settings): nat {
    Max(1, cfg.failureThreshold)
  }

  /** Enough failures in a row, the latest of them less than the cooldown ago. */
  predicate CoolingDown(cfg: Settings, h: seq<Event>, now: int) {
    && FailuresSinceSuccess(h) >= Tripping(cfg)
    && now - LatestFailure(h) < cfg.cooldownMs * NANOS_PER_MILLI
  }

  /** A request was admitted after the latest failure or success. */
  predicate AskedSince(h: seq<Event>) {
    h != [] && h[|h| - 1].Asked? && (h[|h| - 1].admitted || AskedSince(h[..|h| - 1]))
  }

  /** Tripped, and a request was let through since the latest failure. */
  predicate Probing(cfg: Settings, h: seq<Event>) {
    FailuresSinceSuccess(h) >= Tripping(cfg) && AskedSince(h)
  }

  /** The failures since the last success but those of a breaker being probed, which reopen it uncounted. */
  function CountedFailures(cfg: Settings, h: seq<Event>): nat {
    if h == [] || h[|h| - 1].Succeeded? then 0
    else
      var before := h[..|h| - 1];
      CountedFailures(cfg, before) + if h[|h| - 1].Failed? && !Probing(cfg, before) then 1 else 0
  }

  /** The time of the latest failure that left the breaker tripped. */
  function LatestTrip(cfg: Settings, h: seq<Event>): int {
    if h == [] then 0
    else if h[|h| - 1].Failed? && FailuresSinceSuccess(h) >= Tripping(cfg) then h[|h| - 1].now
    else LatestTrip(cfg, h[..|h| - 1])
  }

  /** The breaker, read off the history of results, answers and clock readings. */
  function Described(cfg: Settings, h: seq<Event>): Breaker {
    var phase :=
      if FailuresSinceSuccess(h) < Tripping(cfg) then Closed else if AskedSince(h) then HalfOpen else Open;
    Breaker(phase, CountedFailures(cfg, h), LatestTrip(cfg, h))
  }

  /** What every run keeps between the breaker's fields and the history. */
  ghost predicate Explains(cfg: Settings, h: seq<Event>, b: Breaker) {
    var n := FailuresSinceSuccess(h);
    && b == Described(cfg, h)
    && (n < Tripping(cfg) ==> b.failures == n)
    && (n >= Tripping(cfg) ==> Tripping(cfg) <= b.failures <= n && b.openedAt == LatestFailure(h))
    && (n > 0 ==> LatestFailure(h) <= h[|h| - 1].now)
    && (b.phase == HalfOpen ==> !CoolingDown(cfg, h, h[|h| - 1].now))
  }

  lemma {:induction false} RunIsExplained(cfg: Settings, h: seq<Event>)
    requires IsRun(cfg, h)
    ensures Explains(cfg, h, After(cfg, h))
  {
    if h != [] {
      RunIsExplained(cfg, h[..|h| - 1]);
    }
  }

  /** In every run the breaker is closed exactly when fewer than the threshold failures followed the
      last success, and once tripped it remembers the time of the latest failure. */
  lemma ClosedExactlyBelowThreshold(cfg: Settings, h: seq<Event>)
    requires IsRun(cfg, h)
    ensures After(cfg, h).phase == Closed <==> FailuresSinceSuccess(h) < Tripping(cfg)
    ensures FailuresSinceSuccess(h) >= Tripping(cfg) ==> After(cfg, h).openedAt == LatestFailure(h)
  {
    RunIsExplained(cfg, h);
  }

  /** A request is refused exactly while the breaker is cooling down: the history alone decides,
      whichever of OPEN and HALF_OPEN the breaker happens to be in. */
  lemma RefusedExactlyWhileCoolingDown(cfg: Settings, h: seq<Event>, now: int)
    requires IsRun(cfg, h)
    requires h != [] ==> h[|h| - 1].now <= now
    ensures !Admits(cfg, After(cfg, h), now) <==> CoolingDown(cfg, h, now)
    ensures !Admits(cfg, After(cfg, h), now) ==> After(cfg, h).phase == Open
  {
    RunIsExplained(cfg, h);
  }

  /** No reachable state refuses forever: one cooldown after the last event everything is admitted,
      however often it is asked and however the answers are spaced. */
  lemma {:induction false} EveryRequestAfterTheCooldownIsAdmitted(cfg: Settings, h: seq<Event>, asks: seq<Event>)
    requires IsRun(cfg, h + asks)
    requires forall i :: 0 <= i < |asks| ==> asks[i].Asked?
    requires asks != [] && h != [] ==> asks[0].now >= h[|h| - 1].now + cfg.cooldownMs * NANOS_PER_MILLI
    ensures forall i :: 0 <= i < |asks| ==> asks[i].admitted
    ensures FailuresSinceSuccess(h + asks) == FailuresSinceSuccess(h)
    ensures FailuresSinceSuccess(h) > 0 ==> LatestFailure(h + asks) == LatestFailure(h)
    ensures IsRun(cfg, h)
  {
    if asks == [] {
      assert h + asks == h;
    } else {
      var shorter, e := asks[..|asks| - 1], asks[|asks| - 1];
      var g := h + asks;
      assert g[..|g| - 1] == h + shorter && g[|g| - 1] == e;
      EveryRequestAfterTheCooldownIsAdmitted(cfg, h, shorter);
      RefusedExactlyWhileCoolingDown(cfg, h + shorter, e.now);
      AskTimesGrow(cfg, h, asks);
      if FailuresSinceSuccess(h) > 0 {
        RunIsExplained(cfg, h);
      }
    }
  }

  lemma {:induction false} AskTimesGrow(cfg: Settings, h: seq<Event>, asks: seq<Event>)
    requires asks != [] && IsRun(cfg, h + asks)
    ensures asks[0].now <= asks[|asks| - 1].now
  {
    if |asks| > 1 {
      var shorter := asks[..|asks| - 1];
      assert (h + asks)[..|h + asks| - 1] == h + shorter;
      AskTimesGrow(cfg, h, shorter);
    }
  }

  class CircuitBreaker {
    const cfg: Settings
    var state: Phase
    var consecutiveFailures: nat
    var openedAt: int
    ghost var history: seq<Event>

    ghost function View(): Breaker
      reads this
    {
      Breaker(state, consecutiveFailures, openedAt)
    }

    ghost predicate Valid()
      reads this
    {
      IsRun(cfg, history) && View() == After(cfg, history)
    }

    /** The steady clock never shows a reading before one already taken. */
    ghost predicate ClockAt(now: int)
      reads this
    {
      history != [] ==> history[|history| - 1].now <= now
    }

    constructor (cfg: Settings)
      ensures Valid() && this.cfg == cfg && history == []
    {
      this.cfg := cfg;
      state, consecutiveFailures, openedAt := Closed, 0, 0;
      history := [];
    }

    method AllowRequest(now: int) returns (admitted: bool)
      requires Valid() && ClockAt(now)
      modifies this
      ensures Valid() && history == old(history) + [Asked(now, admitted)]
      ensures admitted == Admits(cfg, old(View()), now) && View() == AfterAsk(cfg, old(View()), now)
      ensures !admitted <==> CoolingDown(cfg, old(history), now)
    {
      RefusedExactlyWhileCoolingDown(cfg, history, now);
      if state == Open {
        var elapsed := WholeMillis(now - openedAt);
        if elapsed >= cfg.cooldownMs {
          state := HalfOpen;
          admitted := true;
        } else {
          admitted := false;
        }
      } else {
        admitted := true;
      }
      RunGrows(cfg, history, Asked(now, admitted));
      history := history + [Asked(now, admitted)];
    }

    method RecordSuccess(now: int)
      requires Valid() && ClockAt(now)
      modifies this
      ensures Valid() && history == old(history) + [Succeeded(now)]
      ensures View() == AfterSuccess(old(View()))
    {
      hide After, IsRun;
      consecutiveFailures := 0;
      state := Closed;
      RunGrows(cfg, history, Succeeded(now));
      history := history + [Succeeded(now)];
    }

    method RecordFailure(now: int)
      requires Valid() && ClockAt(now)
      modifies this
      ensures Valid() && history == old(history) + [Failed(now)]
      ensures View() == AfterFailure(cfg, old(View()), now)
    {
      hide After, IsRun;
      if state == HalfOpen {
        state := Open;
        openedAt := now;
      } else {
        consecutiveFailures := consecutiveFailures + 1;
        if consecutiveFailures >= cfg.failureThreshold {
          state := Open;
          openedAt := now;
        }
      }
      RunGrows(cfg, history, Failed(now));
      history := history + [Failed(now)];
    }
  }
}
