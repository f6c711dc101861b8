// The counting invariants are kept by every step: no permit and no per-address
// count is ever lost or invented.
module RelayCounting {
  import opened Net
  import opened RelayState
  import opened Relay
  import opened RelayCount
  import opened RelayInvariant
  import opened RelayFrame
  import opened RelayRuns
  import opened RelayStructure

  // --- inbound_limit and control_limit ---

  ghost predicate ServerDelta(s: Sys, e: Event, s': Sys)
    requires Enabled(s, e)
  {
    Shaped(s, e, s') &&
    s'.cfg == s.cfg &&
    s'.inbound + After(Inbound, s, e, s') == s.inbound + Before(Inbound, s, e) &&
    s'.control + After(ControlPermit, s, e, s') == s.control + Before(ControlPermit, s, e)
  }

  lemma ExitDelta(s: Sys, e: Event)
    requires Enabled(s, e) && Exits(e)
    ensures ServerDelta(s, e, Apply(s, e))
  {
    ExitShaped(s, e);
  }

  lemma DriveDelta(s: Sys, e: Event)
    requires Enabled(s, e) && Drives(e)
    ensures ServerDelta(s, e, Apply(s, e))
  {
    DriveShaped(s, e);
  }

  lemma PresentDelta(s: Sys, e: Event)
    requires Enabled(s, e) && e.Present?
    ensures ServerDelta(s, e, Apply(s, e))
  {
    StepShaped(s, e);
  }

  lemma OtherDelta(s: Sys, e: Event)
    requires Enabled(s, e) && !Exits(e) && !Drives(e) && !e.Present?
    ensures ServerDelta(s, e, Apply(s, e))
  {
    StepShaped(s, e);
  }

  lemma ServerStep(s: Sys, e: Event)
    requires ServerPermits(s) && Enabled(s, e)
    ensures ServerPermits(Apply(s, e))
  {
    if Exits(e) {
      ExitDelta(s, e);
    } else if Drives(e) {
      DriveDelta(s, e);
    } else if e.Present? {
      PresentDelta(s, e);
    } else {
      OtherDelta(s, e);
    }
    TotalStep(Inbound, s, e, Apply(s, e));
    TotalStep(ControlPermit, s, e, Apply(s, e));
  }

  // --- relay_limit ---

  lemma PendingAdd(pending: map<Tx3Id, PendingInfo>, t: Tx3Id, info: PendingInfo, reg: nat)
    requires t !in pending
    ensures |PendingTo(pending[t := info], reg)| == |PendingTo(pending, reg)| + Indicator(info.reg == reg)
  {
    if info.reg == reg {
      assert PendingTo(pending[t := info], reg) == PendingTo(pending, reg) + {t};
    } else {
      assert PendingTo(pending[t := info], reg) == PendingTo(pending, reg);
    }
  }

  lemma PendingDrop(pending: map<Tx3Id, PendingInfo>, t: Tx3Id, reg: nat)
    requires t in pending
    ensures |PendingTo(pending - {t}, reg)| + Indicator(pending[t].reg == reg) == |PendingTo(pending, reg)|
  {
    var rest := pending - {t};
    assert rest[t := pending[t]] == pending;
    PendingAdd(rest, t, pending[t], reg);
  }

  // Of the closures themselves, in any state and for any tokens: the permits of
  // one relay semaphore that no splice holds.
  ghost function Unspliced(sh: Shared, reg: nat): nat {
    Permits(sh.limits, reg) + |PendingTo(sh.pending, reg)|
  }

  lemma InsertConserves(sh: Shared, token: Tx3Id, info: PendingInfo, reg: nat)
    ensures Unspliced(InsertPending(sh, token, info), reg) == Unspliced(sh, reg) + Indicator(info.reg == reg)
  {
    if token in sh.pending {
      var rest := sh.pending - {token};
      PendingDrop(sh.pending, token, reg);
      PendingAdd(rest, token, info, reg);
      assert rest[token := info] == sh.pending[token := info];
    } else {
      PendingAdd(sh.pending, token, info, reg);
    }
  }

  // A lookup loses no permit, even under a token that is already pending: the one
  // it takes is in the new entry, the one it returns was in the entry removed.
  lemma LookupConserves(sh: Shared, token: Tx3Id, splice: Tx3Id, sock: nat, reg: nat)
    ensures var (sh', res) := LookupSpec(sh, token, splice, sock);
      Unspliced(sh', reg) + Indicator(res.HaveConToken? && res.reg == reg) == Unspliced(sh, reg)
  {
    if token in sh.controls {
      var r := sh.controls[token];
      var free := Permits(sh.limits, r);
      if free > 0 {
        InsertConserves(sh.(limits := sh.limits[r := free - 1]), splice, PendingInfo(sock, r), reg);
      }
    } else if token in sh.pending {
      PendingDrop(sh.pending, token, reg);
    }
  }

  lemma ReapConserves(sh: Shared, token: Tx3Id, reg: nat)
    ensures Unspliced(RemovePending(sh, token), reg) == Unspliced(sh, reg)
  {
    if token in sh.pending {
      PendingDrop(sh.pending, token, reg);
    }
  }

  lemma ExitAccount(s: Sys, e: Event, reg: nat)
    requires Enabled(s, e) && Exits(e)
    ensures RelayAccount(Apply(s, e), reg) == RelayAccount(s, reg)
  {
    ExitShaped(s, e);
    TotalStep(RelayPermit(reg), s, e, Apply(s, e));
  }

  lemma ReapAccount(s: Sys, e: Event, reg: nat)
    requires Enabled(s, e) && e.Reap?
    ensures RelayAccount(Apply(s, e), reg) == RelayAccount(s, reg)
  {
    StepShaped(s, e);
    if e.token in s.sh.pending {
      PendingDrop(s.sh.pending, e.token, reg);
    }
  }

  lemma PresentAccount(s: Sys, e: Event, reg: nat)
    requires Enabled(s, e) && e.Present? && e.splice !in s.sh.pending
    ensures RelayAccount(Apply(s, e), reg) == RelayAccount(s, reg)
  {
    PresentResult(s, e);
    StepShaped(s, e);
    TotalStep(RelayPermit(reg), s, e, Apply(s, e));
    if Offers(s, e) {
      PendingAdd(s.sh.pending, e.splice, PendingInfo(e.i, s.sh.controls[e.presented]), reg);
    } else if Joins(s, e) {
      PendingDrop(s.sh.pending, e.presented, reg);
    }
  }

  lemma DriveAccount(s: Sys, e: Event, reg: nat)
    requires Enabled(s, e) && Drives(e)
    ensures RelayAccount(Apply(s, e), reg) == RelayAccount(s, reg)
  {
    DriveShaped(s, e);
    TotalStep(RelayPermit(reg), s, e, Apply(s, e));
  }

  lemma SendAccount(s: Sys, e: Event, reg: nat)
    requires Enabled(s, e) && e.Send?
    ensures RelayAccount(Apply(s, e), reg) == RelayAccount(s, reg)
  {
    StepShaped(s, e);
    TotalStep(RelayPermit(reg), s, e, Apply(s, e));
  }

  lemma QuietAccount(s: Sys, e: Event, reg: nat)
    requires Enabled(s, e) && Quiet(e) && !e.Reap?
    ensures RelayAccount(Apply(s, e), reg) == RelayAccount(s, reg)
  {
    StepShaped(s, e);
    TotalStep(RelayPermit(reg), s, e, Apply(s, e));
  }

  lemma HandshakeOther(s: Sys, e: Event, reg: nat)
    requires Enabled(s, e) && e.HandshakeDone? && reg != e.i
    ensures RelayAccount(Apply(s, e), reg) == RelayAccount(s, reg)
  {
    StepShaped(s, e);
    TotalStep(RelayPermit(reg), s, e, Apply(s, e));
  }

  // No permit of a registration is in use before the registration exists.
  lemma Unregistered(s: Sys, reg: nat)
    requires Structure(s) && reg !in s.sh.limits
    ensures |PendingTo(s.sh.pending, reg)| == 0 && Total(RelayPermit(reg), s.tasks) == 0
  {
    forall t | t in s.sh.pending ensures s.sh.pending[t].reg != reg {
      assert FateOk(s, t) && IssueOk(s, t);
    }
    assert PendingTo(s.sh.pending, reg) == {};
    forall t | t in s.tasks ensures Weigh(RelayPermit(reg), t) == 0 {
      var i: nat :| i < |s.tasks| && s.tasks[i] == t;
      assert TaskOk(s, i);
      if t.phase.Splicing? { assert IssueOk(s, t.phase.token); }
    }
    TotalZero(RelayPermit(reg), s.tasks);
  }

  lemma HandshakeAccount(s: Sys, e: Event)
    requires Enabled(s, e) && e.HandshakeDone? && e.i in Apply(s, e).sh.limits && e.i !in s.sh.limits
    requires |PendingTo(s.sh.pending, e.i)| == 0 && Total(RelayPermit(e.i), s.tasks) == 0
    ensures RelayAccount(Apply(s, e), e.i) == s.cfg.maxRelays
  {
    StepShaped(s, e);
    TotalStep(RelayPermit(e.i), s, e, Apply(s, e));
  }

  lemma HandshakeLimits(s: Sys, e: Event)
    requires Enabled(s, e) && e.HandshakeDone?
    ensures Apply(s, e).sh.limits.Keys <= s.sh.limits.Keys + {e.i}
  {
  }

  lemma AccountStep(s: Sys, e: Event, reg: nat)
    requires Structure(s) && RelayPermits(s) && Enabled(s, e) && reg in Apply(s, e).sh.limits
    ensures RelayAccount(Apply(s, e), reg) == s.cfg.maxRelays
  {
    if e.HandshakeDone? && reg == e.i {
      assert TaskOk(s, e.i);
      Unregistered(s, e.i);
      HandshakeAccount(s, e);
    } else {
      KnownLimit(s, e, reg);
      if Exits(e) {
        ExitAccount(s, e, reg);
      } else if e.Reap? {
        ReapAccount(s, e, reg);
      } else if e.Present? {
        PresentAccount(s, e, reg);
      } else if Drives(e) {
        DriveAccount(s, e, reg);
      } else if e.Send? {
        SendAccount(s, e, reg);
      } else if e.HandshakeDone? {
        HandshakeOther(s, e, reg);
      } else {
        QuietAccount(s, e, reg);
      }
    }
  }

  lemma KnownLimit(s: Sys, e: Event, reg: nat)
    requires Structure(s) && Enabled(s, e) && reg in Apply(s, e).sh.limits
    requires e.HandshakeDone? ==> reg != e.i
    ensures reg in s.sh.limits
  {
    if e.HandshakeDone? {
      HandshakeLimits(s, e);
    } else if Drives(e) {
      DriveKeeps(s, e);
    } else {
      LimitsStep(s, e);
    }
  }

  lemma RelayStep(s: Sys, e: Event)
    requires Structure(s) && RelayPermits(s) && Enabled(s, e)
    ensures RelayPermits(Apply(s, e))
  {
    StepMoves(s, e);
    forall r | r in Apply(s, e).sh.limits
      ensures RelayAccount(Apply(s, e), r) == Apply(s, e).cfg.maxRelays
    {
      AccountStep(s, e, r);
    }
  }

  // --- control_addrs ---

  // The branch of the registration closure that counts a new control stream.
  predicate Registers(s: Sys, e: Event)
    requires Enabled(s, e)
  {
    e.HandshakeDone? && IpCount(s.sh.addrs, s.tasks[e.i].addr.Ip()) < s.cfg.maxPerIp
  }

  lemma AddrsResult(s: Sys, e: Event)
    requires Enabled(s, e) && s.sh.pending.Keys <= s.h.issued.Keys
    ensures Apply(s, e).sh.addrs ==
      if e.Cleanup? then CleanupSpec(s.sh, s.tasks[e.i].addr.Ip(), s.tasks[e.i].phase.cert).addrs
      else if e.HandshakeDone? then
        s.sh.addrs[s.tasks[e.i].addr.Ip() :=
          IpCount(s.sh.addrs, s.tasks[e.i].addr.Ip()) + Indicator(Registers(s, e))]
      else s.sh.addrs
  {
    if Quiet(e) {
      QuietKeeps(s, e);
    } else if Exits(e) {
      ExitKeeps(s, e);
    } else if Drives(e) {
      DriveKeeps(s, e);
    } else if e.Send? {
      SendKeeps(s, e);
    } else if e.Present? {
      PresentKeeps(s, e);
    }
  }

  // A step changes the number of registered tasks only by registering one or by
  // cleaning one up.
  ghost predicate RegisteredDelta(s: Sys, e: Event, m: Measure, s': Sys)
    requires Enabled(s, e) && (m.FromIp? || m.Registered?)
  {
    Shaped(s, e, s') && s'.cfg == s.cfg &&
    After(m, s, e, s') + Indicator(e.Cleanup? && Concerns(s, e.i, m))
      == Before(m, s, e) + Indicator(Registers(s, e) && Concerns(s, e.i, m))
  }

  predicate Concerns(s: Sys, i: nat, m: Measure)
    requires In(s, i) && (m.FromIp? || m.Registered?)
  {
    m.FromIp? ==> m.ip == s.tasks[i].addr.Ip()
  }

  lemma ExitRegistered(s: Sys, e: Event, m: Measure)
    requires Enabled(s, e) && Exits(e) && (m.FromIp? || m.Registered?)
    ensures RegisteredDelta(s, e, m, Apply(s, e))
  {
    ExitShaped(s, e);
  }

  lemma DriveRegistered(s: Sys, e: Event, m: Measure)
    requires Enabled(s, e) && Drives(e) && (m.FromIp? || m.Registered?)
    ensures RegisteredDelta(s, e, m, Apply(s, e))
  {
    DriveShaped(s, e);
  }

  lemma PresentRegistered(s: Sys, e: Event, m: Measure)
    requires Enabled(s, e) && e.Present? && (m.FromIp? || m.Registered?)
    ensures RegisteredDelta(s, e, m, Apply(s, e))
  {
    StepShaped(s, e);
  }

  lemma OtherRegistered(s: Sys, e: Event, m: Measure)
    requires Enabled(s, e) && !Exits(e) && !Drives(e) && !e.Present? && (m.FromIp? || m.Registered?)
    ensures RegisteredDelta(s, e, m, Apply(s, e))
  {
    StepShaped(s, e);
  }

  lemma RegisteredStep(s: Sys, e: Event, m: Measure)
    requires Enabled(s, e) && (m.FromIp? || m.Registered?)
    ensures RegisteredDelta(s, e, m, Apply(s, e))
    ensures Total(m, Apply(s, e).tasks) + Indicator(e.Cleanup? && Concerns(s, e.i, m))
         == Total(m, s.tasks) + Indicator(Registers(s, e) && Concerns(s, e.i, m))
  {
    if Exits(e) {
      ExitRegistered(s, e, m);
    } else if Drives(e) {
      DriveRegistered(s, e, m);
    } else if e.Present? {
      PresentRegistered(s, e, m);
    } else {
      OtherRegistered(s, e, m);
    }
    TotalStep(m, s, e, Apply(s, e));
  }

  lemma IpCountStep(s: Sys, e: Event, ip: IpAddr)
    requires Structure(s) && IpCounts(s) && Enabled(s, e)
    ensures var s' := Apply(s, e);
      IpCount(s'.sh.addrs, ip) == Total(FromIp(ip), s'.tasks) &&
      IpCount(s'.sh.addrs, ip) <= s.cfg.maxPerIp &&
      (ip in s'.sh.addrs ==> s'.sh.addrs[ip] > 0 || s.cfg.maxPerIp == 0)
  {
    AddrsResult(s, e);
    RegisteredStep(s, e, FromIp(ip));
    assert IpCount(s.sh.addrs, ip) == Total(FromIp(ip), s.tasks);
  }

  lemma IpStep(s: Sys, e: Event)
    requires Structure(s) && IpCounts(s) && Enabled(s, e)
    ensures IpCounts(Apply(s, e))
  {
    StepMoves(s, e);
    forall ip
      ensures IpCount(Apply(s, e).sh.addrs, ip) == Total(FromIp(ip), Apply(s, e).tasks)
      ensures IpCount(Apply(s, e).sh.addrs, ip) <= s.cfg.maxPerIp
      ensures ip in Apply(s, e).sh.addrs ==> Apply(s, e).sh.addrs[ip] > 0 || s.cfg.maxPerIp == 0
    {
      IpCountStep(s, e, ip);
    }
  }

  lemma {:induction false} SumRemove(addrs: map<IpAddr, nat>, ip: IpAddr)
    requires ip in addrs
    ensures SumCounts(addrs) == addrs[ip] + SumCounts(addrs - {ip})
    decreases addrs.Keys
  {
    var first :| first in addrs && SumCounts(addrs) == addrs[first] + SumCounts(addrs - {first});
    if first != ip {
      SumRemove(addrs - {first}, ip);
      SumRemove(addrs - {ip}, first);
      assert addrs - {first} - {ip} == addrs - {ip} - {first};
    }
  }

  lemma SumSet(addrs: map<IpAddr, nat>, ip: IpAddr, n: nat)
    ensures SumCounts(addrs[ip := n]) + IpCount(addrs, ip) == SumCounts(addrs) + n
    ensures SumCounts(addrs - {ip}) + IpCount(addrs, ip) == SumCounts(addrs)
  {
    SumRemove(addrs[ip := n], ip);
    assert addrs[ip := n] - {ip} == addrs - {ip};
    if ip in addrs {
      SumRemove(addrs, ip);
    } else {
      assert addrs - {ip} == addrs;
    }
  }

  lemma SumCleanup(sh: Shared, ip: IpAddr, cert: Tx3Id)
    requires IpCount(sh.addrs, ip) > 0
    ensures SumCounts(CleanupSpec(sh, ip, cert).addrs) + 1 == SumCounts(sh.addrs)
  {
    SumSet(sh.addrs, ip, IpCount(sh.addrs, ip) - 1);
  }

  // The cleanup closure finds its address counted: its guard for an absent or
  // zero count is never taken.
  lemma CleanupCounted(s: Sys, i: nat)
    requires Inv(s) && In(s, i) && s.tasks[i].phase.Ending?
    ensures var ip := s.tasks[i].addr.Ip(); ip in s.sh.addrs && s.sh.addrs[ip] > 0
  {
    var ip := s.tasks[i].addr.Ip();
    TotalMember(FromIp(ip), s.tasks, i);
    assert IpCount(s.sh.addrs, ip) == Total(FromIp(ip), s.tasks);
  }

  lemma SumResult(s: Sys, e: Event)
    requires Inv(s) && Enabled(s, e)
    ensures SumCounts(Apply(s, e).sh.addrs) + Indicator(e.Cleanup?)
         == SumCounts(s.sh.addrs) + Indicator(Registers(s, e))
  {
    AddrsResult(s, e);
    if e.Cleanup? {
      CleanupCounted(s, e.i);
      SumCleanup(s.sh, s.tasks[e.i].addr.Ip(), s.tasks[e.i].phase.cert);
    } else if e.HandshakeDone? {
      var ip := s.tasks[e.i].addr.Ip();
      SumSet(s.sh.addrs, ip, IpCount(s.sh.addrs, ip) + Indicator(Registers(s, e)));
    }
  }

  lemma SumStep(s: Sys, e: Event)
    requires Inv(s) && Enabled(s, e)
    ensures SumCounts(Apply(s, e).sh.addrs) == Total(Registered, Apply(s, e).tasks)
  {
    SumResult(s, e);
    RegisteredStep(s, e, Registered);
  }

  lemma InvStep(s: Sys, e: Event)
    requires Inv(s) && Enabled(s, e)
    ensures Inv(Apply(s, e))
  {
    StructureStep(s, e);
    ServerStep(s, e);
    RelayStep(s, e);
    IpStep(s, e);
    SumStep(s, e);
  }

  lemma InvInit(cfg: Config)
    ensures Inv(Init(cfg))
  {
  }

  lemma {:induction false} InvRun(s: Sys, es: seq<Event>)
    requires Inv(s) && Legal(s, es)
    ensures Inv(Exec(s, es))
    decreases |es|
  {
    if es != [] {
      InvStep(s, es[0]);
      InvRun(Apply(s, es[0]), es[1..]);
    }
  }

  lemma InvReachable(s: Sys)
    requires Reachable(s)
    ensures Inv(s)
  {
    var es :| Legal(Init(s.cfg), es) && Exec(Init(s.cfg), es) == s;
    InvInit(s.cfg);
    InvRun(Init(s.cfg), es);
  }

  lemma AtInv(cfg: Config, es: seq<Event>, k: nat)
    requires Legal(Init(cfg), es) && k <= |es|
    ensures Inv(At(Init(cfg), es, k)) && At(Init(cfg), es, k).cfg == cfg && Reachable(At(Init(cfg), es, k))
    decreases k
  {
    LegalPrefix(Init(cfg), es, k);
    if k == 0 {
      InvInit(cfg);
      assert es[..0] == [];
    } else {
      AtInv(cfg, es, k - 1);
      RunStep(Init(cfg), es, k - 1);
      InvStep(At(Init(cfg), es, k - 1), es[k - 1]);
      StepMoves(At(Init(cfg), es, k - 1), es[k - 1]);
    }
    assert Legal(Init(cfg), es[..k]) && Exec(Init(cfg), es[..k]) == At(Init(cfg), es, k);
  }

  lemma RunIsReachable(cfg: Config, es: seq<Event>)
    requires Legal(Init(cfg), es)
    ensures Reachable(Exec(Init(cfg), es)) && Exec(Init(cfg), es).cfg == cfg
  {
    AtInv(cfg, es, |es|);
    assert es[..|es|] == es;
  }

  lemma ReachableOn(s: Sys, es: seq<Event>)
    requires Reachable(s) && Legal(s, es)
    ensures Reachable(Exec(s, es)) && Exec(s, es).cfg == s.cfg
  {
    var before :| Legal(Init(s.cfg), before) && Exec(Init(s.cfg), before) == s;
    Append(Init(s.cfg), before, es);
    RunIsReachable(s.cfg, before + es);
  }
}
