// Deadlines, under a clock that does not pass a timer that has not fired.
module RelayDeadline {
  import opened Net
  import opened RelayState
  import opened Relay
  import opened RelayCount
  import opened RelayInvariant
  import opened RelayFrame
  import opened RelayRuns
  import opened RelayStructure
  import opened RelayCounting
  import opened RelayRouting

  predicate Timed(p: Phase) {
    p.Reading? || p.Handshake?
  }

  // Time may pass up to the earliest outstanding timer, which then has to fire.
  ghost predicate Punctual(s: Sys, e: Event) {
    e.Tick? ==>
      (forall t :: t in s.reapers ==> s.now + e.d <= s.reapers[t]) &&
      (forall i: nat :: In(s, i) && Timed(s.tasks[i].phase) ==> s.now + e.d <= Deadline(s, i))
  }

  ghost predicate TimedOk(s: Sys, i: nat)
    requires In(s, i)
  {
    s.tasks[i].start <= s.now && (Timed(s.tasks[i].phase) ==> s.now <= Deadline(s, i))
  }

  ghost predicate OnTime(s: Sys) {
    (forall t :: t in s.reapers ==> s.now <= s.reapers[t]) &&
    (forall i: nat :: In(s, i) ==> TimedOk(s, i)) &&
    (forall t :: t in s.h.spliced ==>
      t in s.h.issued && In(s, s.h.issued[t].sock) && s.h.spliced[t].at <= Deadline(s, s.h.issued[t].sock))
  }

  ghost predicate PunctualRun(s: Sys, es: seq<Event>)
    requires Legal(s, es)
    decreases |es|
  {
    es == [] || (Punctual(s, es[0]) && PunctualRun(Apply(s, es[0]), es[1..]))
  }

  lemma NowResult(s: Sys, e: Event)
    requires Enabled(s, e)
    ensures Apply(s, e).now == s.now + (if e.Tick? then e.d else 0)
  {
    if Exits(e) {
    } else if Drives(e) {
    }
  }

  lemma TimedStep(s: Sys, e: Event, i: nat)
    requires Enabled(s, e) && Punctual(s, e) && In(Apply(s, e), i)
    requires In(s, i) ==> TimedOk(s, i)
    ensures TimedOk(Apply(s, e), i)
  {
    NowResult(s, e);
    StepShaped(s, e);
    StepMoves(s, e);
  }

  lemma ReapersResult(s: Sys, e: Event)
    requires Structure(s) && Enabled(s, e)
    ensures Apply(s, e).reapers ==
      if Offers(s, e) then s.reapers[e.splice := Deadline(s, e.i)]
      else if e.Reap? then s.reapers - {e.token}
      else s.reapers
  {
    if e.Present? {
      PresentResult(s, e);
    } else if e.Reap? {
      ReapResult(s, e);
    } else {
      TokensKeep(s, e);
    }
  }

  lemma ReapersStep(s: Sys, e: Event, t: Tx3Id)
    requires Inv(s) && OnTime(s) && Enabled(s, e) && Punctual(s, e) && t in Apply(s, e).reapers
    ensures Apply(s, e).now <= Apply(s, e).reapers[t]
  {
    NowResult(s, e);
    ReapersResult(s, e);
    if Offers(s, e) { assert TimedOk(s, e.i); }
  }

  lemma SplicedStep(s: Sys, e: Event, t: Tx3Id)
    requires Inv(s) && OnTime(s) && Enabled(s, e) && t in Apply(s, e).h.spliced
    ensures var s' := Apply(s, e);
      t in s'.h.issued && In(s', s'.h.issued[t].sock) &&
      s'.h.spliced[t].at <= Deadline(s', s'.h.issued[t].sock)
  {
    StructureGrows(s, e);
    SpliceOrigin(s, e, t);
    if t !in s.h.spliced {
      assert FateOk(s, t);
      assert t in s.reapers;
    }
  }

  lemma OnTimeStep(s: Sys, e: Event)
    requires Inv(s) && OnTime(s) && Enabled(s, e) && Punctual(s, e)
    ensures OnTime(Apply(s, e))
  {
    var s' := Apply(s, e);
    forall t | t in s'.reapers ensures s'.now <= s'.reapers[t] {
      ReapersStep(s, e, t);
    }
    forall i: nat | In(s', i) ensures TimedOk(s', i) {
      TimedStep(s, e, i);
    }
    forall t | t in s'.h.spliced
      ensures t in s'.h.issued && In(s', s'.h.issued[t].sock) &&
              s'.h.spliced[t].at <= Deadline(s', s'.h.issued[t].sock)
    {
      SplicedStep(s, e, t);
    }
  }

  lemma {:induction false} OnTimeRun(s: Sys, es: seq<Event>)
    requires Inv(s) && OnTime(s) && Legal(s, es) && PunctualRun(s, es)
    ensures Inv(Exec(s, es)) && OnTime(Exec(s, es)) && Exec(s, es).cfg == s.cfg
    decreases |es|
  {
    if es != [] {
      InvStep(s, es[0]);
      OnTimeStep(s, es[0]);
      StepMoves(s, es[0]);
      OnTimeRun(Apply(s, es[0]), es[1..]);
    }
  }

  // Every pending token has one outstanding reaper, set to the deadline of the
  // socket that waits; no entry outlives that deadline; every splice began within
  // the timeout, counted from the start of the waiting socket's task; no task
  // reads its token or negotiates TLS for longer than the timeout, and none is
  // timed out before.
  lemma DeadlineSafety(cfg: Config, es: seq<Event>)
    requires Legal(Init(cfg), es) && PunctualRun(Init(cfg), es)
    ensures var s := Exec(Init(cfg), es);
      (forall t :: t in s.sh.pending ==>
        t in s.reapers && In(s, s.sh.pending[t].sock) &&
        s.now <= s.reapers[t] == s.tasks[s.sh.pending[t].sock].start + cfg.timeout) &&
      (forall t :: t in s.h.spliced ==>
        t in s.h.issued && In(s, s.h.issued[t].sock) &&
        s.h.spliced[t].at <= s.tasks[s.h.issued[t].sock].start + cfg.timeout) &&
      (forall i: nat :: In(s, i) && Timed(s.tasks[i].phase) ==> s.now <= s.tasks[i].start + cfg.timeout) &&
      (forall i: nat :: Enabled(s, Timeout(i)) ==> In(s, i) && s.now >= s.tasks[i].start + cfg.timeout)
  {
    InvInit(cfg);
    OnTimeRun(Init(cfg), es);
    var s := Exec(Init(cfg), es);
    forall t | t in s.sh.pending
      ensures t in s.reapers && In(s, s.sh.pending[t].sock) &&
              s.now <= s.reapers[t] == s.tasks[s.sh.pending[t].sock].start + cfg.timeout
    {
      assert FateOk(s, t) && IssueOk(s, t);
    }
    assert forall i: nat :: In(s, i) ==> TimedOk(s, i);
  }

  lemma {:induction false} PunctualPrefix(s: Sys, es: seq<Event>, k: nat)
    requires Legal(s, es) && PunctualRun(s, es) && k <= |es|
    ensures Legal(s, es[..k]) && PunctualRun(s, es[..k])
    decreases k
  {
    LegalPrefix(s, es, k);
    if k > 0 {
      PunctualPrefix(Apply(s, es[0]), es[1..], k - 1);
      assert es[..k][1..] == es[1..][..k - 1];
    }
  }

  lemma TimedActor(s: Sys, e: Event)
    requires Enabled(s, e) && (e.Present? || e.HandshakeDone?)
    ensures In(s, e.i) && Timed(s.tasks[e.i].phase)
  {
  }

  // Whatever a socket presents, and whatever digest it completes TLS with, it
  // does so within the timeout.
  lemma NegotiatedInTime(cfg: Config, es: seq<Event>, k: nat)
    requires Legal(Init(cfg), es) && PunctualRun(Init(cfg), es) && k < |es|
    requires es[k].Present? || es[k].HandshakeDone?
    ensures var s := At(Init(cfg), es, k); In(s, es[k].i) && s.now <= s.tasks[es[k].i].start + cfg.timeout
  {
    RunStep(Init(cfg), es, k);
    PunctualPrefix(Init(cfg), es, k);
    DeadlineSafety(cfg, es[..k]);
    var s := At(Init(cfg), es, k);
    assert s == Exec(Init(cfg), es[..k]);
    TimedActor(s, es[k]);
  }

  // The timer whose firing a step is.
  predicate Fires(e: Event) {
    e.Reap? || e.Timeout?
  }

  // The clock is never stuck: it can go on, or a timer that is due can fire.
  lemma ClockOrTimer(s: Sys) returns (e: Event)
    requires OnTime(s)
    ensures Enabled(s, e) && Punctual(s, e) && (e == Tick(1) || Fires(e))
  {
    if t :| t in s.reapers && s.reapers[t] <= s.now {
      e := Reap(t);
    } else if i: nat :| In(s, i) && Timed(s.tasks[i].phase) && Deadline(s, i) <= s.now {
      e := Timeout(i);
    } else {
      e := Tick(1);
    }
  }

  // --- No token is reaped early, whatever the clock does ---

  // The socket that was issued `t` has waited until its deadline.
  ghost predicate WaitedOut(s: Sys, t: Tx3Id) {
    t in s.h.issued && In(s, s.h.issued[t].sock) && Deadline(s, s.h.issued[t].sock) <= s.now
  }

  ghost predicate ReapedOk(s: Sys) {
    forall t :: t in s.h.reaped ==> WaitedOut(s, t)
  }

  lemma ReapedResult(s: Sys, e: Event)
    requires Structure(s) && Enabled(s, e)
    ensures Apply(s, e).h.reaped ==
      if e.Reap? && e.token in s.sh.pending then s.h.reaped + {e.token} else s.h.reaped
  {
    if e.Present? {
      PresentResult(s, e);
    } else if e.Reap? {
    } else {
      TokensKeep(s, e);
    }
  }

  lemma WaitedFrame(s: Sys, s': Sys, t: Tx3Id)
    requires WaitedOut(s, t) && Grows(s, s')
    ensures WaitedOut(s', t)
  {
  }

  lemma WaitedStep(s: Sys, e: Event, t: Tx3Id)
    requires WaitedOut(s, t) && Structure(s) && Enabled(s, e)
    ensures WaitedOut(Apply(s, e), t)
  {
    StructureGrows(s, e);
    WaitedFrame(s, Apply(s, e), t);
  }

  lemma ReapedNow(s: Sys, e: Event)
    requires Structure(s) && Enabled(s, e) && e.Reap?
    ensures WaitedOut(s, e.token)
  {
  }

  lemma ReapedOrigin(s: Sys, e: Event, t: Tx3Id)
    requires Structure(s) && Enabled(s, e) && t in Apply(s, e).h.reaped
    ensures t in s.h.reaped || e == Reap(t)
  {
    ReapedResult(s, e);
  }

  lemma ReapedStep(s: Sys, e: Event)
    requires Structure(s) && ReapedOk(s) && Enabled(s, e)
    ensures ReapedOk(Apply(s, e))
  {
    forall t | t in Apply(s, e).h.reaped ensures WaitedOut(Apply(s, e), t) {
      ReapedOrigin(s, e, t);
      if t !in s.h.reaped { ReapedNow(s, e); }
      WaitedStep(s, e, t);
    }
  }

  lemma {:induction false} ReapedRun(s: Sys, es: seq<Event>)
    requires Inv(s) && ReapedOk(s) && Legal(s, es)
    ensures ReapedOk(Exec(s, es))
    decreases |es|
  {
    if es != [] {
      ReapedStep(s, es[0]);
      InvStep(s, es[0]);
      ReapedRun(Apply(s, es[0]), es[1..]);
    }
  }

  // A socket that was reaped had waited until its deadline.
  lemma NeverReapedEarly(s: Sys, t: Tx3Id)
    requires Reachable(s) && t in s.h.reaped
    ensures t in s.h.issued && In(s, s.h.issued[t].sock)
    ensures s.tasks[s.h.issued[t].sock].start + s.cfg.timeout <= s.now
  {
    var es :| Legal(Init(s.cfg), es) && Exec(Init(s.cfg), es) == s;
    InvInit(s.cfg);
    ReapedRun(Init(s.cfg), es);
  }
}
