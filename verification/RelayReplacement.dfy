// What happens when a client registers again under a digest that is already
// registered, and when the old control stream then ends.
module RelayReplacement {
  import opened Net
  import opened RelayState
  import opened Relay
  import opened RelayCount
  import opened RelayInvariant
  import opened RelayFrame
  import opened RelayRuns
  import opened RelayScenarios
  import opened RelayStructure
  import opened RelayCounting
  import opened RelayRouting

  // Every entry of control_channels is owned by a control task of that same
  // digest that has not cleaned up.
  lemma EntryOwner(s: Sys, c: Tx3Id)
    requires Reachable(s) && c in s.sh.controls
    ensures var r := s.sh.controls[c];
      In(s, r) && r in s.h.logs && s.h.logs[r].cert == c &&
      (s.tasks[r].phase.Control? || s.tasks[r].phase.Ending? || s.tasks[r].phase.Leaked?) &&
      (s.tasks[r].phase.Leaked? ==> s.term)
  {
    InvReachable(s);
    ControlEntry(s, c);
    assert TaskOk(s, s.sh.controls[c]);
  }

  // Since `start`, no sender of `r` was mapped and no token was issued for it.
  ghost predicate CutOff(start: Sys, s: Sys, r: nat) {
    r in s.h.logs && !Mapped(s, r) &&
    forall t :: t in s.h.issued && s.h.issued[t].reg == r ==> t in start.h.issued
  }

  lemma CutOffStep(start: Sys, s: Sys, e: Event, r: nat)
    requires Structure(s) && Enabled(s, e) && CutOff(start, s, r)
    ensures CutOff(start, Apply(s, e), r)
  {
    var s' := Apply(s, e);
    StructureGrows(s, e);
    ControlsResult(s, e);
    if e.HandshakeDone? { assert TaskOk(s, e.i); }
    forall t | t in s'.h.issued && s'.h.issued[t].reg == r ensures t in start.h.issued {
      IssueOrigin(s, e, t);
    }
  }

  // A control task whose sender is no longer in the map never regains an entry,
  // and no token is issued for it any more: whatever it is still sent was
  // queued or in flight already.
  lemma {:induction false} NeverRemapped(start: Sys, s: Sys, es: seq<Event>, r: nat)
    requires Inv(s) && Legal(s, es) && CutOff(start, s, r)
    ensures CutOff(start, Exec(s, es), r)
    decreases |es|
  {
    if es != [] {
      CutOffStep(start, s, es[0], r);
      InvStep(s, es[0]);
      NeverRemapped(start, Apply(s, es[0]), es[1..], r);
    }
  }

  // The relay can end a control stream by itself exactly when nothing is left to
  // write, no entry of the map names it and no task is about to notify it.
  lemma UnmappedCanEnd(s: Sys, r: nat)
    requires Receiving(s, r)
    ensures Enabled(s, SendersGone(r)) <==>
      s.tasks[r].phase.out.Idle? && s.tasks[r].phase.queue == [] &&
      (forall c :: c in s.sh.controls ==> s.sh.controls[c] != r) && Total(Waiting(r), s.tasks) == 0
  {
    TotalZero(Waiting(r), s.tasks);
    forall j: nat ensures Notifies(s, j, r) ==> s.tasks[j] in s.tasks && Weigh(Waiting(r), s.tasks[j]) == 1 {
    }
    forall t | t in s.tasks && Weigh(Waiting(r), t) != 0 ensures exists j: nat :: Notifies(s, j, r) {
      var j: nat :| j < |s.tasks| && s.tasks[j] == t;
      assert Notifies(s, j, r);
    }
  }

  // Cleanup removes the entry of its digest, not its own entry: the end of a
  // replaced control stream takes the replacement out of the map for good.
  lemma CleanupEvictsReplacement(s: Sys, replaced: nat, replacement: nat, es: seq<Event>)
    requires Reachable(s) && In(s, replaced) && s.tasks[replaced].phase.Ending? && replaced != replacement
    requires var c := s.tasks[replaced].phase.cert; c in s.sh.controls && s.sh.controls[c] == replacement
    requires Legal(s, [Cleanup(replaced)] + es)
    ensures var s' := Apply(s, Cleanup(replaced));
      s.tasks[replaced].phase.cert !in s'.sh.controls &&
      In(s', replacement) && s'.tasks[replacement] == s.tasks[replacement]
    ensures !Mapped(Exec(s, [Cleanup(replaced)] + es), replacement)
  {
    InvReachable(s);
    var e := Cleanup(replaced);
    var c := s.tasks[replaced].phase.cert;
    var s' := Apply(s, e);
    ControlEntry(s, c);
    ControlsResult(s, e);
    forall d | d in s'.sh.controls ensures s'.sh.controls[d] != replacement {
    }
    StepShaped(s, e);
    StructureGrows(s, e);
    InvStep(s, e);
    assert ([e] + es)[1..] == es;
    NeverRemapped(s', s', es, replacement);
  }

  // --- When a control stream loses its entry ---

  // A control task that has registered and not cleaned up.
  ghost predicate NotCleaned(s: Sys, r: nat) {
    In(s, r) && IsRegistered(s.tasks[r].phase)
  }

  ghost predicate Reached(s: Sys, r: nat)
    requires NotCleaned(s, r)
  {
    var cert := s.tasks[r].phase.cert;
    cert in s.sh.controls && s.sh.controls[cert] == r
  }

  // The steps that take the entry of `r` away: another task of the same digest
  // cleans up, or a newer one registers.
  ghost predicate Displaces(s: Sys, e: Event, r: nat)
    requires Enabled(s, e) && NotCleaned(s, r)
  {
    (e.Cleanup? && e.i != r && s.tasks[e.i].phase.cert == s.tasks[r].phase.cert) ||
    (Registers(s, e) && e.cert == s.tasks[r].phase.cert)
  }

  lemma SameDigest(s: Sys, e: Event, r: nat)
    requires Enabled(s, e) && NotCleaned(s, r) && NotCleaned(Apply(s, e), r)
    ensures Apply(s, e).tasks[r].phase.cert == s.tasks[r].phase.cert
    ensures !(e.Cleanup? && e.i == r) && !(e.HandshakeDone? && e.i == r)
  {
    StepMoves(s, e);
    if e.Cleanup? && e.i == r { CleanupEnds(s, e); }
  }

  lemma CleanupEnds(s: Sys, e: Event)
    requires Enabled(s, e) && e.Cleanup?
    ensures !NotCleaned(Apply(s, e), e.i)
  {
  }

  lemma EntryStep(s: Sys, e: Event, r: nat)
    requires Structure(s) && Enabled(s, e) && NotCleaned(s, r) && NotCleaned(Apply(s, e), r)
    ensures Reached(Apply(s, e), r) <==> Reached(s, r) && !Displaces(s, e, r)
  {
    SameDigest(s, e, r);
    ControlsResult(s, e);
  }

  ghost predicate Undisturbed(s: Sys, es: seq<Event>, r: nat)
    requires Legal(s, es)
    decreases |es|
  {
    es == [] ||
    ((NotCleaned(s, r) ==> !Displaces(s, es[0], r)) && Undisturbed(Apply(s, es[0]), es[1..], r))
  }

  lemma {:induction false} CleanedForGood(s: Sys, es: seq<Event>, r: nat)
    requires Legal(s, es) && In(s, r) && s.tasks[r].phase.Done?
    ensures !NotCleaned(Exec(s, es), r)
    decreases |es|
  {
    if es != [] {
      StepMoves(s, es[0]);
      CleanedForGood(Apply(s, es[0]), es[1..], r);
    }
  }

  lemma NotCleanedNext(s: Sys, es: seq<Event>, r: nat)
    requires Legal(s, es) && es != [] && NotCleaned(s, r) && NotCleaned(Exec(s, es), r)
    ensures NotCleaned(Apply(s, es[0]), r)
  {
    StepMoves(s, es[0]);
    if !NotCleaned(Apply(s, es[0]), r) {
      CleanedForGood(Apply(s, es[0]), es[1..], r);
    }
  }

  // Over any run, a control stream that has not cleaned up is in the map if and
  // only if it was at first and no step took its entry away.
  lemma {:induction false} EntryKept(s: Sys, es: seq<Event>, r: nat)
    requires Inv(s) && Legal(s, es) && NotCleaned(s, r) && NotCleaned(Exec(s, es), r)
    ensures Reached(Exec(s, es), r) <==> Reached(s, r) && Undisturbed(s, es, r)
    decreases |es|
  {
    if es != [] {
      NotCleanedNext(s, es, r);
      EntryStep(s, es[0], r);
      InvStep(s, es[0]);
      EntryKept(Apply(s, es[0]), es[1..], r);
    }
  }

  lemma RegisteredReached(s: Sys, e: Event)
    requires Enabled(s, e) && Registers(s, e)
    ensures NotCleaned(Apply(s, e), e.i) && Reached(Apply(s, e), e.i)
  {
  }

  // From its registration on: the relay knows a control stream until a task of
  // the same digest registers or, having registered earlier, cleans up.
  lemma EntryOfStream(s: Sys, e: Event, es: seq<Event>)
    requires Reachable(s) && Enabled(s, e) && Registers(s, e) && Legal(Apply(s, e), es)
    requires NotCleaned(Exec(Apply(s, e), es), e.i)
    ensures Reached(Exec(Apply(s, e), es), e.i) <==> Undisturbed(Apply(s, e), es, e.i)
  {
    InvReachable(s);
    InvStep(s, e);
    RegisteredReached(s, e);
    EntryKept(Apply(s, e), es, e.i);
  }

  // --- When every running control stream is reachable ---

  ghost predicate AllMapped(s: Sys) {
    forall r: nat :: In(s, r) && Runs(s.tasks[r].phase) ==> Reached(s, r)
  }

  // A registration under a digest whose control stream still runs.
  ghost predicate Replaces(s: Sys, e: Event) {
    e.HandshakeDone? && In(s, e.i) &&
    IpCount(s.sh.addrs, s.tasks[e.i].addr.Ip()) < s.cfg.maxPerIp &&
    e.cert in s.sh.controls && In(s, s.sh.controls[e.cert]) &&
    Runs(s.tasks[s.sh.controls[e.cert]].phase)
  }

  lemma StartsRunning(s: Sys, e: Event)
    requires Enabled(s, e) && e.HandshakeDone?
    ensures In(Apply(s, e), e.i) && (Runs(Apply(s, e).tasks[e.i].phase) ==> Registers(s, e))
  {
  }

  // A control stream starts to run when it registers.
  lemma RunsStep(s: Sys, e: Event, r: nat)
    requires Enabled(s, e) && In(Apply(s, e), r) && Runs(Apply(s, e).tasks[r].phase)
    ensures In(s, r) && (Runs(s.tasks[r].phase) || (Registers(s, e) && e.i == r))
  {
    StepShaped(s, e);
    StepMoves(s, e);
    if e.HandshakeDone? {
      StartsRunning(s, e);
    } else if e.Present? {
      PresentPhase(s, e);
    } else if Exits(e) {
      ExitsToEnd(s, e);
    }
  }

  lemma NotDisplaced(s: Sys, e: Event, r: nat)
    requires AllMapped(s) && Enabled(s, e) && !Replaces(s, e) && In(s, r) && Runs(s.tasks[r].phase)
    ensures !Displaces(s, e, r)
  {
    assert Reached(s, r);
    if e.Cleanup? { assert Reached(s, e.i); }
  }

  lemma ReachedStep(s: Sys, e: Event, r: nat)
    requires Inv(s) && AllMapped(s) && Enabled(s, e) && !Replaces(s, e)
    requires In(Apply(s, e), r) && Runs(Apply(s, e).tasks[r].phase)
    ensures Reached(Apply(s, e), r)
  {
    RunsStep(s, e, r);
    if Runs(s.tasks[r].phase) {
      NotDisplaced(s, e, r);
      EntryStep(s, e, r);
    } else {
      RegisteredReached(s, e);
    }
  }

  lemma ReplacedLost(s: Sys, e: Event)
    requires Inv(s) && Enabled(s, e) && Replaces(s, e)
    ensures !AllMapped(Apply(s, e))
  {
    var replaced := s.sh.controls[e.cert];
    ControlEntry(s, e.cert);
    assert TaskOk(s, replaced);
    ReplacedRuns(s, e, replaced);
    EntryStep(s, e, replaced);
    assert !Reached(Apply(s, e), replaced);
  }

  lemma ReplacedRuns(s: Sys, e: Event, r: nat)
    requires Enabled(s, e) && e.HandshakeDone? && In(s, r) && Runs(s.tasks[r].phase)
    ensures In(Apply(s, e), r) && Apply(s, e).tasks[r] == s.tasks[r]
  {
    StepShaped(s, e);
  }

  // A step keeps every running control stream reachable exactly when it does
  // not register a digest whose control stream still runs.
  lemma AllMappedStep(s: Sys, e: Event)
    requires Inv(s) && AllMapped(s) && Enabled(s, e)
    ensures AllMapped(Apply(s, e)) <==> !Replaces(s, e)
  {
    if Replaces(s, e) {
      ReplacedLost(s, e);
    } else {
      forall r: nat | In(Apply(s, e), r) && Runs(Apply(s, e).tasks[r].phase)
        ensures Reached(Apply(s, e), r)
      {
        ReachedStep(s, e, r);
      }
    }
  }

  ghost predicate NeverReplaces(s: Sys, es: seq<Event>)
    requires Legal(s, es)
    decreases |es|
  {
    es == [] || (!Replaces(s, es[0]) && NeverReplaces(Apply(s, es[0]), es[1..]))
  }

  ghost predicate AlwaysAllMapped(s: Sys, es: seq<Event>)
    requires Legal(s, es)
    decreases |es|
  {
    AllMapped(s) && (es == [] || AlwaysAllMapped(Apply(s, es[0]), es[1..]))
  }

  lemma {:induction false} AlwaysAllMappedFrom(s: Sys, es: seq<Event>)
    requires Inv(s) && AllMapped(s) && Legal(s, es)
    ensures AlwaysAllMapped(s, es) <==> NeverReplaces(s, es)
    decreases |es|
  {
    if es != [] {
      AllMappedStep(s, es[0]);
      if AllMapped(Apply(s, es[0])) {
        InvStep(s, es[0]);
        AlwaysAllMappedFrom(Apply(s, es[0]), es[1..]);
      }
    }
  }

  // Every running control stream is in the map throughout a run if and only if
  // no registration of the run replaces a running one.
  lemma AllMappedThroughout(cfg: Config, es: seq<Event>)
    requires Legal(Init(cfg), es)
    ensures AlwaysAllMapped(Init(cfg), es) <==> NeverReplaces(Init(cfg), es)
  {
    InvInit(cfg);
    AlwaysAllMappedFrom(Init(cfg), es);
  }

  // --- Whether an older control stream can take its replacement out ---

  // The cleanup of an older stream of the same digest takes `r` out of the map,
  // although `r` still runs.
  ghost predicate Evicts(s: Sys, e: Event, r: nat) {
    Enabled(s, e) && e.Cleanup? && e.i != r && In(s, r) && Runs(s.tasks[r].phase) && Reached(s, r) &&
    s.tasks[e.i].phase.cert == s.tasks[r].phase.cert
  }

  // A client at `a` registers, then one at `b` under the same digest.
  lemma TwoStreams(cfg: Config, a: SocketAddr, b: SocketAddr, c: Tx3Id, splice: Tx3Id)
    returns (es: seq<Event>, s: Sys)
    requires cfg.maxInbound >= 2 && cfg.maxControl >= 2 && cfg.maxPerIp >= 1
    requires a.Ip() != b.Ip() || cfg.maxPerIp >= 2
    requires splice != c && splice != cfg.relayCert
    ensures Legal(Init(cfg), es) && Exec(Init(cfg), es) == s && s.cfg == cfg && !s.term
    ensures |s.tasks| == 2 && s.sh.controls == map[c := 1]
    ensures s.tasks[0].phase == Control(c, AllClear, []) && s.tasks[1].phase == Control(c, AllClear, [])
    ensures s.tasks[0].addr == a && s.h.issued == map[] && s.h.certs == {c}
    ensures s.inbound == cfg.maxInbound - 2 && s.control == cfg.maxControl - 2
    ensures forall ip :: IpCount(s.sh.addrs, ip) == Indicator(ip == a.Ip()) + Indicator(ip == b.Ip())
  {
    es := OpenControl(Init(cfg), [], a, c, splice);
    es := OpenControl(Init(cfg), es, b, c, splice);
    s := Opened(Opened(Init(cfg), a, c), b, c);
  }

  // A client at `a` registers, then one at `b` under the same digest, and the
  // first control stream ends: the second still runs, but after the cleanup of
  // the first the relay no longer knows the client.
  lemma EvictionHappens(cfg: Config, a: SocketAddr, b: SocketAddr, c: Tx3Id, splice: Tx3Id)
    returns (es: seq<Event>, s: Sys)
    requires cfg.maxInbound >= 2 && cfg.maxControl >= 2 && cfg.maxPerIp >= 1
    requires a.Ip() != b.Ip() || cfg.maxPerIp >= 2
    requires splice != c && splice != cfg.relayCert
    ensures Legal(Init(cfg), es) && Exec(Init(cfg), es) == s && s.cfg == cfg
    ensures Evicts(s, Cleanup(0), 1)
    ensures var s' := Apply(s, Cleanup(0));
      In(s', 1) && s'.tasks[1].phase == Control(c, AllClear, []) && s'.sh.controls == map[] && !s'.term
  {
    var before;
    es, before := TwoStreams(cfg, a, b, c, splice);
    Extend(Init(cfg), es, ControlEnd(0));
    es, s := es + [ControlEnd(0)], Apply(before, ControlEnd(0));
  }

  // The first stream of two has ended and cleaned up, the second still runs.
  lemma SecondRunsOn(cfg: Config, a: SocketAddr, b: SocketAddr, c: Tx3Id, splice: Tx3Id)
    returns (es: seq<Event>, s: Sys)
    requires cfg.maxInbound >= 2 && cfg.maxControl >= 2 && cfg.maxPerIp >= 1
    requires a.Ip() != b.Ip() || cfg.maxPerIp >= 2
    requires splice != c && splice != cfg.relayCert
    ensures Legal(Init(cfg), es) && Exec(Init(cfg), es) == s && s.cfg == cfg && !s.term
    ensures s.inbound == cfg.maxInbound - 1 && s.control == cfg.maxControl - 1
    ensures s.h.issued == map[] && s.h.certs == {c}
    ensures s.sh.controls == map[] && forall ip :: IpCount(s.sh.addrs, ip) == if ip == b.Ip() then 1 else 0
    ensures |s.tasks| == 2 && s.tasks[0].phase == Done && s.tasks[1].phase == Control(c, AllClear, [])
  {
    var before;
    es, before := TwoStreams(cfg, a, b, c, splice);
    Extend(Init(cfg), es, ControlEnd(0));
    es, s := es + [ControlEnd(0)], Apply(before, ControlEnd(0));
    Extend(Init(cfg), es, Cleanup(0));
    es, s := es + [Cleanup(0)], Apply(s, Cleanup(0));
    assert s.sh.controls == map[];
    forall ip ensures IpCount(s.sh.addrs, ip) == if ip == b.Ip() then 1 else 0 {
      CountedDown(before.sh, a.Ip(), c, ip);
    }
  }

  lemma CountedDown(sh: Shared, ip: IpAddr, cert: Tx3Id, other: IpAddr)
    requires IpCount(sh.addrs, ip) > 0
    ensures IpCount(CleanupSpec(sh, ip, cert).addrs, other) + Indicator(other == ip) == IpCount(sh.addrs, other)
  {
  }

  // The second stream has no sender, so the relay ends it.
  lemma SecondEnds(start: Sys, es: seq<Event>, s: Sys, c: Tx3Id) returns (es': seq<Event>, s': Sys)
    requires Legal(start, es) && Exec(start, es) == s && |s.tasks| == 3 && s.sh.controls == map[c := 2]
    requires s.tasks[0].phase == Done
    requires s.tasks[1].phase == Control(c, AllClear, []) && s.tasks[2].phase == Control(c, AllClear, [])
    ensures Legal(start, es') && Exec(start, es') == s' && s'.cfg == s.cfg && s'.term == s.term
    ensures |es'| > 0 && es'[|es'| - 1] == SendersGone(1) && Evicts(s', Cleanup(1), 2)
  {
    var s1 := Apply(s, SendAllClear(1));
    Extend(start, es, SendAllClear(1));
    NoSenders(s, s1, c);
    Extend(start, es + [SendAllClear(1)], SendersGone(1));
    es', s' := es + [SendAllClear(1), SendersGone(1)], Apply(s1, SendersGone(1));
    assert es + [SendAllClear(1)] + [SendersGone(1)] == es';
  }

  lemma NoSenders(s: Sys, s': Sys, c: Tx3Id)
    requires |s.tasks| == 3 && s.sh.controls == map[c := 2] && s.tasks[0].phase == Done
    requires s.tasks[1].phase.Control? && s.tasks[2].phase.Control?
    requires s'.sh == s.sh && s'.tasks == s.tasks[1 := s.tasks[1].(phase := Control(c, Idle, []))]
    ensures Enabled(s', SendersGone(1))
  {
  }

  // The evicted stream does the same to the next one. Its client registers a
  // third time, at `d`; the relay ends the second stream, as it has no sender any
  // more, and the cleanup of the second takes the third out of the map.
  lemma EvictionRepeats(cfg: Config, a: SocketAddr, b: SocketAddr, d: SocketAddr, c: Tx3Id, splice: Tx3Id)
    returns (es: seq<Event>, s: Sys)
    requires cfg.maxInbound >= 2 && cfg.maxControl >= 2 && cfg.maxPerIp >= 1
    requires a.Ip() != b.Ip() || cfg.maxPerIp >= 2
    requires b.Ip() != d.Ip() || cfg.maxPerIp >= 2
    requires splice != c && splice != cfg.relayCert
    ensures Legal(Init(cfg), es) && Exec(Init(cfg), es) == s && s.cfg == cfg && !s.term
    ensures |es| > 0 && es[|es| - 1] == SendersGone(1) && Evicts(s, Cleanup(1), 2)
  {
    var before;
    es, before := SecondRunsOn(cfg, a, b, c, splice);
    es := OpenControl(Init(cfg), es, d, c, splice);
    es, s := SecondEnds(Init(cfg), es, Opened(before, d, c), c);
  }

  lemma TwoRunning(s: Sys, i: nat, r: nat)
    requires ServerPermits(s) && In(s, i) && In(s, r) && i != r
    requires Runs(s.tasks[i].phase) && Runs(s.tasks[r].phase)
    ensures s.cfg.maxInbound >= 2 && s.cfg.maxControl >= 2
  {
    TotalTwo(Inbound, s.tasks, i, r);
    TotalTwo(ControlPermit, s.tasks, i, r);
  }

  lemma EvictionNeeds(s: Sys, e: Event, r: nat)
    requires Reachable(s) && Evicts(s, e, r)
    ensures s.cfg.maxInbound >= 2 && s.cfg.maxControl >= 2 && s.cfg.maxPerIp >= 1
  {
    InvReachable(s);
    TwoRunning(s, e.i, r);
    CleanupCounted(s, e.i);
    assert IpCount(s.sh.addrs, s.tasks[e.i].addr.Ip()) <= s.cfg.maxPerIp;
  }

  // A relay can come to evict a running control stream if and only if its limits
  // admit two control streams at once.
  lemma EvictionPossible(cfg: Config)
    ensures (exists s, e, r :: Reachable(s) && s.cfg == cfg && Evicts(s, e, r)) <==>
      cfg.maxInbound >= 2 && cfg.maxControl >= 2 && cfg.maxPerIp >= 1
  {
    forall s, e, r | Reachable(s) && s.cfg == cfg && Evicts(s, e, r)
      ensures cfg.maxInbound >= 2 && cfg.maxControl >= 2 && cfg.maxPerIp >= 1
    {
      EvictionNeeds(s, e, r);
    }
    if cfg.maxInbound >= 2 && cfg.maxControl >= 2 && cfg.maxPerIp >= 1 {
      var c, splice := TwoIds(cfg.relayCert);
      var a, b := SockV4([10, 0, 0, 1], 1), SockV4([10, 0, 0, 2], 1);
      assert a.Ip() != b.Ip() by { assert a.ip4[3] != b.ip4[3]; }
      var es, s := EvictionHappens(cfg, a, b, c, splice);
      RunIsReachable(cfg, es);
      assert Evicts(s, Cleanup(0), 1);
    }
  }
}
