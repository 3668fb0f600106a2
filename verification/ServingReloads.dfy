/** Hot reloads in every interleaving (cpp-bidder/src/model_session.cpp, bid_pipeline.cpp): which models are swapped in,
    and from when on they are used. */
module ServingReloads {
  import opened Types
  import opened ModelSessions
  import opened Serving
  import opened ServingFrames
  import opened ServingDrain
  import opened ServingMeaning

  /** Every session that ever serves after the first was swapped in by a reload whose candidate loaded, ran on zeros,
      and gave rows of the adopted width with no NaN and no infinity. */
  lemma {:induction false} ServingSessionsWereValidated(cfg: Config, initial: Session, r: Trace, i: nat, m: nat)
      returns (k: nat)
    requires IsTrace(cfg, initial, r) && i < |r.states| && 1 <= m < |r.states[i].history.sessions|
    ensures k < i && |r.states| == |r.steps| + 1
    ensures r.steps[k] == SwapModel(Fresh(r.states[i].history.sessions[m], 2, true))
    ensures r.states[i].history.sessions[m].width == cfg.numBins
  {
    hide Next, Enabled, IsTrace, Versioned;
    StepsOf(cfg, initial, r);
    StartsWithItsSession(cfg, initial, r);
    var s, step := r.states[i - 1], r.steps[i - 1];
    TraceStaysVersioned(cfg, initial, r, i - 1);
    StepStaysVersioned(cfg, s, step);
    if m < |s.history.sessions| {
      k := ServingSessionsWereValidated(cfg, initial, r, i - 1, m);
    } else {
      k := i - 1;
    }
  }

  /** What each reload does: a candidate fit to serve is swapped in at once, its version still to be published; one that
      fails to load, throws on zeros, gives the wrong rank or width, or a NaN or an infinity, changes nothing. */
  lemma ReloadsDecide(cfg: Config, initial: Session, r: Trace, k: nat)
    requires IsTrace(cfg, initial, r) && k < |r.steps| && r.steps[k].SwapModel?
    ensures |r.states| == |r.steps| + 1
    ensures var s, n, c := r.states[k], r.states[k + 1], r.steps[k].candidate;
      && (c.Fresh? && c.rank == 2 && c.session.width == cfg.numBins && c.finiteOnZeros ==>
           n.session == c.session && n.unpublished && n.version == s.version
           && n.history.sessions == s.history.sessions + [c.session])
      && (c == Unloadable ==> n == s)
      && (c == ThrowsOnZeros ==> n == s)
      && (c.Fresh? && c.rank != 2 ==> n == s)
      && (c.Fresh? && c.session.width != cfg.numBins ==> n == s)
      && (c.Fresh? && !c.finiteOnZeros ==> n == s)
  {
    assert Enabled(cfg, r.states[k], r.steps[k]);
  }

  // ---------- from when on a model is used ----------

  /** Run `m` of the later state was under way already at the earlier one. */
  ghost predicate WasUnderWay(s: System, run: Run) {
    exists w :: 0 <= w < |s.workers| && s.workers[w] == Running(run.jobs, run.session)
  }

  /** A session that served at the earlier state or was swapped in since. */
  ghost predicate Current(s: System, n: System, session: Session) {
    |s.history.sessions| > 0 && exists m ::
      |s.history.sessions| - 1 <= m < |n.history.sessions| && n.history.sessions[m] == session
  }

  lemma CurrentStays(s: System, n: System, l: System, session: Session)
    requires Current(s, n, session) && n.history.sessions <= l.history.sessions
    ensures Current(s, l, session)
  {
    var m :| |s.history.sessions| - 1 <= m < |n.history.sessions| && n.history.sessions[m] == session;
    assert l.history.sessions[m] == session;
  }

  lemma ServingIsCurrent(cfg: Config, s: System, n: System)
    requires Versioned(cfg, s) && Versioned(cfg, n) && s.history.sessions <= n.history.sessions
    ensures Current(s, n, n.session)
  {
    assert n.history.sessions[|n.history.sessions| - 1] == n.session;
  }

  /** Since the earlier state every run that started, and every run under way, uses a current session. */
  ghost predicate NothingStale(s: System, n: System) {
    && (forall m :: |s.history.runs| <= m < |n.history.runs| ==>
          WasUnderWay(s, n.history.runs[m]) || Current(s, n, n.history.runs[m].session))
    && (forall w :: 0 <= w < |n.workers| && n.workers[w].Running? ==>
          WasUnderWay(s, Run(n.workers[w].session, n.workers[w].batch, false)) || Current(s, n, n.workers[w].session))
  }

  lemma UnderWayEitherWay(s: System, run: Run, threw: bool)
    requires WasUnderWay(s, run)
    ensures WasUnderWay(s, run.(threw := threw))
  {
  }

  lemma StepsKeepFresh(cfg: Config, s: System, n: System, step: Step)
    requires NothingStale(s, n) && Versioned(cfg, s) && Versioned(cfg, n) && s.history.sessions <= n.history.sessions
    requires |s.history.runs| <= |n.history.runs| && Enabled(cfg, n, step)
    ensures NothingStale(s, Next(cfg, n, step))
  {
    var l := Next(cfg, n, step);
    BatchesLeftAlone(cfg, n, step);
    BatchesOnlyGrow(cfg, n, step);
    SameWorkers(cfg, n, step);
    ServingIsCurrent(cfg, s, n);
    hide Versioned, WasUnderWay, Current;
    forall w | 0 <= w < |l.workers| && l.workers[w].Running?
      ensures WasUnderWay(s, Run(l.workers[w].session, l.workers[w].batch, false))
        || Current(s, l, l.workers[w].session)
    {
      RunningIsOldOrServing(cfg, n, step, w);
      if Current(s, n, l.workers[w].session) {
        CurrentStays(s, n, l, l.workers[w].session);
      }
    }
    forall m | |s.history.runs| <= m < |l.history.runs|
      ensures WasUnderWay(s, l.history.runs[m]) || Current(s, l, l.history.runs[m].session)
    {
      NewRunWasRunning(cfg, n, step, m);
      if Current(s, n, l.history.runs[m].session) {
        CurrentStays(s, n, l, l.history.runs[m].session);
      } else if m == |n.history.runs| {
        var me := n.workers[step.worker];
        UnderWayEitherWay(s, Run(me.session, me.batch, false), step.throws);
      }
    }
  }

  lemma RunningIsOldOrServing(cfg: Config, n: System, step: Step, w: nat)
    requires Enabled(cfg, n, step) && w < |n.workers| == |Next(cfg, n, step).workers|
    requires Next(cfg, n, step).workers[w].Running?
    ensures var l := Next(cfg, n, step);
      l.workers[w] == n.workers[w] || l.workers[w].session == n.session
  {
    WorkersMove(cfg, n, step, w);
    hide Next, Enabled, Delivers;
  }

  lemma NewRunWasRunning(cfg: Config, n: System, step: Step, m: nat)
    requires Enabled(cfg, n, step) && m < |Next(cfg, n, step).history.runs|
    ensures var l := Next(cfg, n, step);
      if m < |n.history.runs| then l.history.runs[m] == n.history.runs[m]
      else step.FinishRun? && m == |n.history.runs| && step.worker < |n.workers| && n.workers[step.worker].Running?
           && l.history.runs[m] == Run(n.workers[step.worker].session, n.workers[step.worker].batch, step.throws)
  {
    BatchesLeftAlone(cfg, n, step);
    if !step.FinishRun? {
      hide Next, Enabled;
    }
  }

  /** A swap takes effect at once: from any moment on, every run that was not already under way at it uses the model
      that served then or one swapped in since, however long its jobs had been waiting. */
  lemma {:induction false} SwapsTakeEffect(cfg: Config, initial: Session, r: Trace, i: nat, j: nat)
    requires IsTrace(cfg, initial, r) && i <= j < |r.states|
    ensures NothingStale(r.states[i], r.states[j])
    ensures r.states[i].history.sessions <= r.states[j].history.sessions
    ensures |r.states[i].history.runs| <= |r.states[j].history.runs|
  {
    hide Next, Enabled, IsTrace, Versioned, NothingStale;
    StepsOf(cfg, initial, r);
    if i == j {
      StartsFresh(r.states[i]);
    } else {
      SwapsTakeEffect(cfg, initial, r, i, j - 1);
      TraceStaysVersioned(cfg, initial, r, i);
      TraceStaysVersioned(cfg, initial, r, j - 1);
      StepsKeepFresh(cfg, r.states[i], r.states[j - 1], r.steps[j - 1]);
      BatchesOnlyGrow(cfg, r.states[j - 1], r.steps[j - 1]);
    }
  }

  lemma StartsFresh(s: System)
    ensures NothingStale(s, s)
  {
    forall w | 0 <= w < |s.workers| && s.workers[w].Running?
      ensures WasUnderWay(s, Run(s.workers[w].session, s.workers[w].batch, false))
    {
      assert s.workers[w] == Running(s.workers[w].batch, s.workers[w].session);
    }
  }
}
