// What whole runs come to: the relay drained, and an evicted stream ended.
module RelayOutcomes {
  import opened RelayState
  import opened Relay
  import opened RelayCount
  import opened RelayInvariant
  import opened RelayRuns
  import opened RelayFrame
  import opened RelayCounting
  import opened RelayReplacement
  import opened RelayDeadline
  import opened RelayRest
  import opened RelayDrain

  // --- Drained ---

  ghost predicate Drained(s: Sys) {
    s.sh.controls == map[] && s.sh.addrs == map[] && s.sh.pending == map[] && s.reapers == map[] &&
    s.inbound == s.cfg.maxInbound && s.control == s.cfg.maxControl &&
    forall r :: r in s.sh.limits ==> s.sh.limits[r] == s.cfg.maxRelays
  }

  lemma RestIsDrained(s: Sys)
    requires Reachable(s) && AtRest(s) && NothingLeaked(s) && s.cfg.maxPerIp > 0
    ensures Drained(s)
  {
    RestReturnsEverything(s);
    RestLeftovers(s);
  }

  // Nothing can happen but an accept or the shutdown,
  ghost predicate Stuck(s: Sys) {
    forall e :: Enabled(s, e) ==> e.Accept? || e.Term? || e.Tick?
  }

  // whatever the time.
  ghost predicate Exhausted(s: Sys) {
    forall d: nat :: Stuck(Apply(s, Tick(d)))
  }

  lemma NowOrLater(s: Sys)
    requires Exhausted(s)
    ensures Stuck(s)
  {
    assert Apply(s, Tick(0)) == s;
  }

  lemma LiveCanMove(s: Sys, i: nat) returns (e: Event)
    requires Inv(s) && In(s, i) && Live(s.tasks[i].phase)
    ensures Enabled(s, e) && !e.Accept? && !e.Term? && !e.Tick?
  {
    if Timed(s.tasks[i].phase) {
      e := Fail(i);
    } else {
      e := TaskProgress(s, PeersLeave, i);
    }
  }

  lemma RestIsExhausted(s: Sys)
    requires AtRest(s)
    ensures Exhausted(s)
  {
    forall d: nat ensures Stuck(Apply(s, Tick(d))) {
      forall e | Enabled(Apply(s, Tick(d)), e) ensures e.Accept? || e.Term? || e.Tick? {
        NothingMoves(Apply(s, Tick(d)), e);
      }
    }
  }

  lemma NothingMoves(s: Sys, e: Event)
    requires AtRest(s) && Enabled(s, e)
    ensures e.Accept? || e.Term? || e.Tick?
  {
  }

  lemma ExhaustedTask(s: Sys, i: nat)
    requires Inv(s) && Exhausted(s) && In(s, i)
    ensures !Live(s.tasks[i].phase)
  {
    if Live(s.tasks[i].phase) {
      var e := LiveCanMove(s, i);
      NowOrLater(s);
    }
  }

  lemma ExhaustedReapers(s: Sys)
    requires Exhausted(s)
    ensures s.reapers == map[]
  {
    if t :| t in s.reapers {
      assert Stuck(Apply(s, Tick(s.reapers[t]))) && Enabled(Apply(s, Tick(s.reapers[t])), Reap(t));
    }
  }

  // Nothing can happen any more exactly when the relay is at rest.
  lemma ExhaustedIsRest(s: Sys)
    requires Reachable(s)
    ensures Exhausted(s) <==> AtRest(s)
  {
    if Exhausted(s) {
      ExhaustedReapers(s);
      forall i: nat | In(s, i) ensures !Live(s.tasks[i].phase) {
        InvReachable(s);
        ExhaustedTask(s, i);
      }
    }
    if AtRest(s) { RestIsExhausted(s); }
  }

  // Every run that goes on until nothing can happen any more has drained the
  // relay if and only if the shutdown cancelled no registered control task.
  lemma EveryRunDrains(cfg: Config, es: seq<Event>)
    requires Legal(Init(cfg), es) && Exhausted(Exec(Init(cfg), es)) && cfg.maxPerIp > 0
    ensures Drained(Exec(Init(cfg), es)) <==> NeverCancels(Init(cfg), es)
  {
    RunIsReachable(cfg, es);
    ExhaustedIsRest(Exec(Init(cfg), es));
    LeakRun(Init(cfg), es);
    if NeverCancels(Init(cfg), es) {
      RestIsDrained(Exec(Init(cfg), es));
    } else {
      RestLeftovers(Exec(Init(cfg), es));
    }
  }

  lemma {:induction false} QuietRun(s: Sys, es: seq<Event>, help: Help)
    requires Legal(s, es) && AllAllowed(help, es) && !help.Shutdown?
    ensures NeverCancels(s, es) && NoAccept(es) && Exec(s, es).term == s.term && Exec(s, es).cfg == s.cfg
    decreases |es|
  {
    if es != [] {
      assert Allowed(help, es[0]);
      assert forall k :: 0 <= k < |es[1..]| ==> es[1..][k] == es[k + 1];
      TermKept(s, es[0]);
      QuietRun(Apply(s, es[0]), es[1..], help);
      assert forall k :: 0 < k < |es| ==> es[k] == es[1..][k - 1];
    }
  }

  lemma TermKept(s: Sys, e: Event)
    requires Enabled(s, e) && !e.Term?
    ensures Apply(s, e).term == s.term && Apply(s, e).cfg == s.cfg
  {
    StepMoves(s, e);
    if Exits(e) {
    } else if Drives(e) {
    } else if e.Present? {
      PresentPhase(s, e);
    }
  }

  // And before shutdown every reachable state leads to such an end: if no more
  // sockets are accepted and the peers leave, all is given back.
  lemma CanDrain(s: Sys) returns (es: seq<Event>)
    requires Reachable(s) && !s.term && s.cfg.maxPerIp > 0
    ensures Legal(s, es) && NoAccept(es) && Drained(Exec(s, es))
  {
    InvReachable(s);
    es := Settle(s, PeersLeave);
    SettledIsRest(Exec(s, es), PeersLeave);
    QuietRun(s, es, PeersLeave);
    NothingLeakedYet(s);
    LeakRun(s, es);
    ReachableOn(s, es);
    RestIsDrained(Exec(s, es));
  }

  lemma NothingLeakedYet(s: Sys)
    requires Inv(s) && !s.term
    ensures NothingLeaked(s)
  {
    forall i: nat | In(s, i) ensures !s.tasks[i].phase.Leaked? {
      assert TaskOk(s, i);
    }
  }

  // --- Evicted ---

  // An evicted control stream is ended by the relay itself, once its client has
  // read what is still on its way: its channel has no sender any more.
  lemma EvictedEnds(s: Sys, r: nat) returns (es: seq<Event>)
    requires Reachable(s) && !s.term && NotCleaned(s, r) && !Mapped(s, r)
    ensures Legal(s, es) && AllAllowed(ClientsRead, es)
    ensures In(Exec(s, es), r) && Exec(s, es).tasks[r].phase.Done?
  {
    InvReachable(s);
    assert TaskOk(s, r);
    es := Settle(s, ClientsRead);
    NeverRemapped(s, s, es, r);
    InvRun(s, es);
    QuietRun(s, es, ClientsRead);
    NothingLeakedYet(Exec(s, es));
    AfterRegistration(s, es, r);
    SettledUnmapped(Exec(s, es), r);
  }

  lemma {:induction false} AfterRegistration(s: Sys, es: seq<Event>, r: nat)
    requires Legal(s, es) && In(s, r) && (NotCleaned(s, r) || s.tasks[r].phase.Done?)
    ensures In(Exec(s, es), r) && (NotCleaned(Exec(s, es), r) || Exec(s, es).tasks[r].phase.Done?)
    decreases |es|
  {
    if es != [] {
      StepMoves(s, es[0]);
      AfterRegistration(Apply(s, es[0]), es[1..], r);
    }
  }

  lemma SettledUnmapped(s: Sys, r: nat)
    requires AllSettled(s, ClientsRead) && In(s, r) && !Mapped(s, r) && !s.tasks[r].phase.Splicing?
    requires NothingLeaked(s)
    ensures s.tasks[r].phase.Done?
  {
    assert Settled(s, ClientsRead, r);
  }
}
