// What the relay has given back, and what it keeps, once nothing runs any more.
module RelayRest {
  import opened Net
  import opened RelayState
  import opened Relay
  import opened RelayCount
  import opened RelayInvariant
  import opened RelayRuns
  import opened RelayFrame
  import opened RelayCounting
  import opened RelayScenarios
  import opened RelayReplacement

  predicate Live(p: Phase) {
    !p.Done? && !p.Leaked?
  }

  ghost predicate AtRest(s: Sys) {
    (forall i: nat :: In(s, i) ==> !Live(s.tasks[i].phase)) && s.reapers == map[]
  }

  lemma PendingReaper(s: Sys, t: Tx3Id)
    requires Structure(s) && t in s.sh.pending
    ensures t in s.reapers
  {
    assert FateOk(s, t);
  }

  // A task at rest holds no permit of any kind.
  lemma RestHoldsNothing(s: Sys, m: Measure)
    requires AtRest(s) && (m.Inbound? || m.ControlPermit? || m.RelayPermit?)
    ensures Total(m, s.tasks) == 0
  {
    forall t | t in s.tasks ensures Weigh(m, t) == 0 {
      var i: nat :| i < |s.tasks| && s.tasks[i] == t;
      assert !Live(s.tasks[i].phase);
    }
    TotalZero(m, s.tasks);
  }

  // Every semaphore is full and no socket waits. What shutdown cancelled is all
  // that is left in the other two maps.
  lemma RestReturnsEverything(s: Sys)
    requires Reachable(s) && AtRest(s)
    ensures s.inbound == s.cfg.maxInbound && s.control == s.cfg.maxControl
    ensures s.sh.pending == map[]
    ensures forall r :: r in s.sh.limits ==> s.sh.limits[r] == s.cfg.maxRelays
    ensures forall c :: c in s.sh.controls ==>
      In(s, s.sh.controls[c]) && s.tasks[s.sh.controls[c]].phase == Leaked(c)
  {
    InvReachable(s);
    RestHoldsNothing(s, Inbound);
    RestHoldsNothing(s, ControlPermit);
    forall t | t in s.sh.pending ensures t in s.reapers {
      PendingReaper(s, t);
    }
    forall r | r in s.sh.limits ensures s.sh.limits[r] == s.cfg.maxRelays {
      assert RelayAccount(s, r) == s.cfg.maxRelays;
      RestHoldsNothing(s, RelayPermit(r));
      assert PendingTo(s.sh.pending, r) == {};
    }
  }

  ghost predicate NothingLeaked(s: Sys) {
    forall i: nat :: In(s, i) ==> !s.tasks[i].phase.Leaked?
  }

  lemma RestLeftovers(s: Sys)
    requires Reachable(s) && AtRest(s)
    ensures NothingLeaked(s) ==> s.sh.controls == map[]
    ensures s.cfg.maxPerIp > 0 ==> (s.sh.addrs == map[] <==> NothingLeaked(s))
  {
    InvReachable(s);
    RestReturnsEverything(s);
    if NothingLeaked(s) {
      forall ip ensures Total(FromIp(ip), s.tasks) == 0 {
        forall t | t in s.tasks ensures Weigh(FromIp(ip), t) == 0 {
          var i: nat :| i < |s.tasks| && s.tasks[i] == t;
          assert !Live(s.tasks[i].phase) && !s.tasks[i].phase.Leaked?;
        }
        TotalZero(FromIp(ip), s.tasks);
      }
      forall ip | ip in s.sh.addrs ensures s.sh.addrs[ip] == 0 {
        assert IpCount(s.sh.addrs, ip) == Total(FromIp(ip), s.tasks);
      }
    } else {
      var i: nat :| In(s, i) && s.tasks[i].phase.Leaked?;
      var ip := s.tasks[i].addr.Ip();
      TotalMember(FromIp(ip), s.tasks, i);
      assert IpCount(s.sh.addrs, ip) > 0;
    }
  }

  // The shutdown cancels a control task that is registered.
  predicate CancelsControl(s: Sys, e: Event) {
    e.Cancel? && Receiving(s, e.i)
  }

  ghost predicate NeverCancels(s: Sys, es: seq<Event>)
    requires Legal(s, es)
    decreases |es|
  {
    es == [] || (!CancelsControl(s, es[0]) && NeverCancels(Apply(s, es[0]), es[1..]))
  }

  lemma LeaksOnlyCancelled(s: Sys, e: Event, i: nat)
    requires Enabled(s, e) && In(Apply(s, e), i) && Apply(s, e).tasks[i].phase.Leaked?
    ensures In(s, i) && (s.tasks[i].phase.Leaked? || (CancelsControl(s, e) && e.i == i))
  {
    StepShaped(s, e);
    if Exits(e) {
    } else if Drives(e) {
    } else if e.Present? {
      PresentPhase(s, e);
    }
  }

  lemma CancelLeaks(s: Sys, e: Event)
    requires Enabled(s, e) && CancelsControl(s, e)
    ensures In(Apply(s, e), e.i) && Apply(s, e).tasks[e.i].phase.Leaked?
  {
  }

  lemma LeakStep(s: Sys, e: Event)
    requires Enabled(s, e)
    ensures NothingLeaked(Apply(s, e)) <==> NothingLeaked(s) && !CancelsControl(s, e)
  {
    StepMoves(s, e);
    if CancelsControl(s, e) { CancelLeaks(s, e); }
    forall i: nat | In(Apply(s, e), i) && Apply(s, e).tasks[i].phase.Leaked?
      ensures In(s, i) && (s.tasks[i].phase.Leaked? || CancelsControl(s, e))
    {
      LeaksOnlyCancelled(s, e, i);
    }
  }

  lemma {:induction false} LeakRun(s: Sys, es: seq<Event>)
    requires Legal(s, es)
    ensures NothingLeaked(Exec(s, es)) <==> NothingLeaked(s) && NeverCancels(s, es)
    decreases |es|
  {
    if es != [] {
      LeakStep(s, es[0]);
      LeakRun(Apply(s, es[0]), es[1..]);
    }
  }

  predicate NoHandshake(es: seq<Event>) {
    forall k :: 0 <= k < |es| ==> !es[k].HandshakeDone?
  }

  lemma NoHandshakeStep(es: seq<Event>)
    requires es != []
    ensures NoHandshake(es) <==> !es[0].HandshakeDone? && NoHandshake(es[1..])
  {
    assert es == [es[0]] + es[1..];
  }

  // A limit of zero control streams per address: the table is empty exactly as
  // long as no TLS handshake of a control stream has completed.
  lemma {:induction false} ZeroLimitEntries(s: Sys, es: seq<Event>)
    requires Inv(s) && Legal(s, es) && s.cfg.maxPerIp == 0
    ensures Exec(s, es).sh.addrs == map[] <==>
      s.sh.addrs == map[] && NoHandshake(es)
    decreases |es|
  {
    if es != [] {
      var e := es[0];
      AddrsResult(s, e);
      StepMoves(s, e);
      InvStep(s, e);
      if e.Cleanup? { NoCleanupAtZero(s, e.i); }
      if e.HandshakeDone? { assert s.tasks[e.i].addr.Ip() in Apply(s, e).sh.addrs; }
      ZeroLimitEntries(Apply(s, e), es[1..]);
      NoHandshakeStep(es);
    }
  }

  lemma NoCleanupAtZero(s: Sys, i: nat)
    requires Inv(s) && s.cfg.maxPerIp == 0 && In(s, i)
    ensures !s.tasks[i].phase.Ending?
  {
    assert IpCount(s.sh.addrs, s.tasks[i].addr.Ip()) <= s.cfg.maxPerIp;
    if s.tasks[i].phase.Ending? {
      CleanupCounted(s, i);
    }
  }

  // A run that ends at rest has emptied the address table if and only if the
  // shutdown cancelled no registered control task during it or, with a limit of
  // zero control streams per address, no control handshake completed. If none
  // was cancelled it has emptied the channel map, too.
  lemma RestEmptiesMaps(cfg: Config, es: seq<Event>)
    requires Legal(Init(cfg), es) && AtRest(Exec(Init(cfg), es))
    ensures Exec(Init(cfg), es).sh.addrs == map[] <==>
      if cfg.maxPerIp > 0 then NeverCancels(Init(cfg), es) else NoHandshake(es)
    ensures NeverCancels(Init(cfg), es) ==> Exec(Init(cfg), es).sh.controls == map[]
  {
    InvInit(cfg);
    RunIsReachable(cfg, es);
    LeakRun(Init(cfg), es);
    RestLeftovers(Exec(Init(cfg), es));
    if cfg.maxPerIp == 0 { ZeroLimitEntries(Init(cfg), es); }
  }

  // --- What is left in the channel map ---

  // The shutdown cancels no control stream that is in the map and that no later
  // step takes out of it.
  ghost predicate NeverStrands(s: Sys, es: seq<Event>)
    requires Legal(s, es)
    decreases |es|
  {
    es == [] ||
    ((CancelsControl(s, es[0]) && Reached(s, es[0].i) ==> !Undisturbed(Apply(s, es[0]), es[1..], es[0].i)) &&
     NeverStrands(Apply(s, es[0]), es[1..]))
  }

  // A cancelled stream that is in the map, and stays in it.
  ghost predicate Stranded(s: Sys, es: seq<Event>, i: nat)
    requires Legal(s, es)
  {
    In(s, i) && s.tasks[i].phase.Leaked? && Reached(s, i) && Undisturbed(s, es, i)
  }

  lemma RestControls(s: Sys)
    requires Inv(s) && AtRest(s)
    ensures s.sh.controls == map[] <==> forall i: nat :: NotCleaned(s, i) ==> !Reached(s, i)
  {
    forall c | c in s.sh.controls ensures Reached(s, s.sh.controls[c]) {
      assert NotCleaned(s, s.sh.controls[c]);
    }
    forall i: nat | NotCleaned(s, i) && Reached(s, i) ensures s.sh.controls != map[] {
    }
  }

  lemma LeakedStays(s: Sys, e: Event, i: nat)
    requires Enabled(s, e) && In(s, i) && s.tasks[i].phase.Leaked?
    ensures In(Apply(s, e), i) && Apply(s, e).tasks[i] == s.tasks[i]
  {
    StepMoves(s, e);
  }

  lemma StrandedStays(s: Sys, e: Event, rest: seq<Event>, i: nat)
    requires Inv(s) && Enabled(s, e) && Legal(Apply(s, e), rest) && Legal(s, [e] + rest)
    requires In(s, i) && s.tasks[i].phase.Leaked?
    ensures Stranded(s, [e] + rest, i) <==> Stranded(Apply(s, e), rest, i)
  {
    LeakedStays(s, e, i);
    EntryStep(s, e, i);
    assert ([e] + rest)[1..] == rest;
  }

  lemma StrandedNow(s: Sys, e: Event, rest: seq<Event>)
    requires Inv(s) && Enabled(s, e) && Legal(Apply(s, e), rest) && CancelsControl(s, e)
    ensures Stranded(Apply(s, e), rest, e.i) <==> Reached(s, e.i) && Undisturbed(Apply(s, e), rest, e.i)
  {
    CancelLeaks(s, e);
    EntryStep(s, e, e.i);
  }

  ghost predicate NoneStranded(s: Sys, es: seq<Event>)
    requires Legal(s, es)
  {
    forall i: nat :: !Stranded(s, es, i)
  }

  lemma StrandedStep(s: Sys, e: Event, rest: seq<Event>)
    requires Inv(s) && Enabled(s, e) && Legal(Apply(s, e), rest) && Legal(s, [e] + rest)
    ensures NoneStranded(Apply(s, e), rest) <==>
      NoneStranded(s, [e] + rest) &&
      (CancelsControl(s, e) && Reached(s, e.i) ==> !Undisturbed(Apply(s, e), rest, e.i))
  {
    forall i: nat | Stranded(s, [e] + rest, i) ensures Stranded(Apply(s, e), rest, i) {
      StrandedStays(s, e, rest, i);
    }
    if CancelsControl(s, e) { StrandedNow(s, e, rest); }
    forall i: nat | Stranded(Apply(s, e), rest, i)
      ensures Stranded(s, [e] + rest, i) || (CancelsControl(s, e) && e.i == i)
    {
      LeaksOnlyCancelled(s, e, i);
      if s.tasks[i].phase.Leaked? { StrandedStays(s, e, rest, i); }
    }
  }

  lemma {:induction false} StrandedRun(s: Sys, es: seq<Event>)
    requires Inv(s) && Legal(s, es) && AtRest(Exec(s, es))
    ensures Exec(s, es).sh.controls == map[] <==> NoneStranded(s, es) && NeverStrands(s, es)
    decreases |es|
  {
    if es == [] {
      RestControls(s);
      forall i: nat ensures Stranded(s, es, i) <==> NotCleaned(s, i) && Reached(s, i) {
        assert NotCleaned(s, i) ==> !Live(s.tasks[i].phase);
      }
    } else {
      assert es == [es[0]] + es[1..];
      StrandedStep(s, es[0], es[1..]);
      InvStep(s, es[0]);
      StrandedRun(Apply(s, es[0]), es[1..]);
    }
  }

  // A run that ends at rest has emptied the channel map if and only if every
  // control stream that the shutdown cancelled was out of the map by then or was
  // taken out of it later.
  lemma RestEmptiesChannels(cfg: Config, es: seq<Event>)
    requires Legal(Init(cfg), es) && AtRest(Exec(Init(cfg), es))
    ensures Exec(Init(cfg), es).sh.controls == map[] <==> NeverStrands(Init(cfg), es)
  {
    InvInit(cfg);
    StrandedRun(Init(cfg), es);
  }

  // One control stream, cancelled by the shutdown: all is at rest, but both
  // control maps still name it.
  lemma LeakHappens(cfg: Config, addr: SocketAddr, c: Tx3Id, splice: Tx3Id) returns (es: seq<Event>, s: Sys)
    requires cfg.maxInbound >= 1 && cfg.maxControl >= 1 && cfg.maxPerIp >= 1
    requires splice != c && splice != cfg.relayCert
    ensures Legal(Init(cfg), es) && Exec(Init(cfg), es) == s && AtRest(s)
    ensures s.sh.controls == map[c := 0] && s.sh.addrs == map[addr.Ip() := 1]
  {
    es := OpenControl(Init(cfg), [], addr, c, splice);
    s := Opened(Init(cfg), addr, c);
    Extend(Init(cfg), es, Event.Term);
    es, s := es + [Event.Term], Apply(s, Event.Term);
    Extend(Init(cfg), es, Cancel(0));
    es, s := es + [Cancel(0)], Apply(s, Cancel(0));
  }

  // A limit of zero: the one control stream is refused, all is at rest, and its
  // address keeps a count of zero.
  lemma ZeroEntryHappens(cfg: Config, addr: SocketAddr, c: Tx3Id, splice: Tx3Id) returns (es: seq<Event>, s: Sys)
    requires cfg.maxInbound >= 1 && cfg.maxControl >= 1 && cfg.maxPerIp == 0
    requires splice != c && splice != cfg.relayCert
    ensures Legal(Init(cfg), es) && Exec(Init(cfg), es) == s && AtRest(s)
    ensures s.sh.controls == map[] && s.sh.addrs == map[addr.Ip() := 0]
  {
    es, s := AskControl(Init(cfg), [], addr, splice);
    Extend(Init(cfg), es, HandshakeDone(0, c));
    es, s := es + [HandshakeDone(0, c)], Apply(s, HandshakeDone(0, c));
  }
}
