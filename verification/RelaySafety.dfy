// Safety in every reachable state: permits and limits, and who owns a socket.
module RelaySafety {
  import opened Net
  import opened RelayState
  import opened Relay
  import opened RelayCount
  import opened RelayInvariant
  import opened RelayFrame
  import opened RelayRuns
  import opened RelayStructure
  import opened RelayCounting

  // --- Limits ---

  // The tasks that a measure counts.
  ghost function Members(m: Measure, tasks: seq<Task>): set<nat> {
    set i: nat | i < |tasks| && Weigh(m, tasks[i]) == 1
  }

  lemma {:induction false} TotalMembers(m: Measure, tasks: seq<Task>)
    requires !m.Work?
    ensures Total(m, tasks) == |Members(m, tasks)|
  {
    if tasks != [] {
      var n := |tasks| - 1;
      TotalMembers(m, tasks[..n]);
      if Weigh(m, tasks[n]) == 1 {
        assert Members(m, tasks) == Members(m, tasks[..n]) + {n};
      } else {
        assert Members(m, tasks) == Members(m, tasks[..n]);
      }
    }
  }

  // A relay semaphore: every permit is free, held by one pending entry, or held
  // by one active splice, even after its control stream has ended.
  lemma RelayPermitConservation(s: Sys, reg: nat)
    requires Reachable(s) && reg in s.sh.limits
    ensures s.sh.limits[reg] + |set t | t in s.sh.pending && s.sh.pending[t].reg == reg|
              + |set i: nat | i < |s.tasks| && s.tasks[i].phase.Splicing? && s.tasks[i].phase.reg == reg|
         == s.cfg.maxRelays
  {
    InvReachable(s);
    assert RelayAccount(s, reg) == s.cfg.maxRelays;
    TotalMembers(RelayPermit(reg), s.tasks);
    assert Members(RelayPermit(reg), s.tasks)
        == set i: nat | i < |s.tasks| && s.tasks[i].phase.Splicing? && s.tasks[i].phase.reg == reg;
  }

  // The per-address table holds exactly the registered control streams.
  lemma PerIpAccounting(s: Sys, ip: IpAddr)
    requires Reachable(s)
    ensures IpCount(s.sh.addrs, ip)
         == |set i: nat | i < |s.tasks| && IsRegistered(s.tasks[i].phase) && s.tasks[i].addr.Ip() == ip|
    ensures IpCount(s.sh.addrs, ip) <= s.cfg.maxPerIp
    ensures !s.term ==> forall i: nat | i < |s.tasks| :: !s.tasks[i].phase.Leaked?
    ensures s.cfg.maxPerIp > 0 ==> (ip in s.sh.addrs <==> IpCount(s.sh.addrs, ip) > 0)
  {
    InvReachable(s);
    assert IpCount(s.sh.addrs, ip) == Total(FromIp(ip), s.tasks);
    TotalMembers(FromIp(ip), s.tasks);
    assert Members(FromIp(ip), s.tasks)
        == set i: nat | i < |s.tasks| && IsRegistered(s.tasks[i].phase) && s.tasks[i].addr.Ip() == ip;
    forall i: nat | i < |s.tasks| && !s.term ensures !s.tasks[i].phase.Leaked? {
      assert TaskOk(s, i);
    }
  }

  // Distinct keys name distinct registered tasks.
  lemma {:induction false} ControlsFit(s: Sys, controls: map<Tx3Id, nat>, tasks: set<nat>)
    requires forall c :: c in controls ==> controls[c] in tasks
    requires forall c, d :: c in controls && d in controls && controls[c] == controls[d] ==> c == d
    ensures |controls| <= |tasks|
    decreases |controls|
  {
    if controls != map[] {
      var c :| c in controls;
      var rest := controls - {c};
      assert controls == rest[c := controls[c]];
      ControlsFit(s, rest, tasks - {controls[c]});
    }
  }

  // Before shutdown: |control_channels| <= sum of control_addrs <= control
  // permits held <= max_control_streams, and the active splices are bounded by
  // the inbound permits held. Shutdown only adds the control streams it leaked.
  lemma ChainOfBounds(s: Sys)
    requires Reachable(s)
    ensures |s.sh.controls| <= SumCounts(s.sh.addrs)
    ensures SumCounts(s.sh.addrs) <= (s.cfg.maxControl - s.control) + Total(LeakedControls, s.tasks)
    ensures !s.term ==> Total(LeakedControls, s.tasks) == 0
    ensures 0 <= s.cfg.maxControl - s.control <= s.cfg.maxControl
    ensures Total(Splices, s.tasks) <= s.cfg.maxInbound - s.inbound <= s.cfg.maxInbound
  {
    InvReachable(s);
    var registered := Members(Registered, s.tasks);
    TotalMembers(Registered, s.tasks);
    ControlsFit(s, s.sh.controls, registered);
    RegisteredSplit(s.tasks);
    TotalLeq(Splices, Inbound, s.tasks);
    forall t | t in s.tasks && !s.term ensures Weigh(LeakedControls, t) == 0 {
      var i: nat :| i < |s.tasks| && s.tasks[i] == t;
      assert TaskOk(s, i);
    }
    TotalZero(LeakedControls, s.tasks);
  }

  lemma {:induction false} RegisteredSplit(tasks: seq<Task>)
    ensures Total(Registered, tasks) <= Total(ControlPermit, tasks) + Total(LeakedControls, tasks)
  {
    if tasks != [] {
      RegisteredSplit(tasks[..|tasks| - 1]);
    }
  }

  // --- Ownership of sockets ---

  datatype Holder = OwnTask | Entry(token: Tx3Id) | Partner(task: nat)

  // `h` holds the socket accepted as number `j`.
  ghost predicate Holds(s: Sys, j: nat, h: Holder) {
    match h
    case OwnTask =>
      In(s, j) && (s.tasks[j].phase.Reading? || s.tasks[j].phase.Handshake? ||
                   s.tasks[j].phase.Control? || s.tasks[j].phase.Splicing?)
    case Entry(t) => t in s.sh.pending && s.sh.pending[t].sock == j
    case Partner(a) => In(s, a) && s.tasks[a].phase.Splicing? && s.tasks[a].phase.peer == j
  }

  lemma HeldByEntry(s: Sys, j: nat, t: Tx3Id)
    requires Structure(s) && Holds(s, j, Entry(t))
    ensures In(s, j) && s.tasks[j].token == Some(t) && !Holds(s, j, OwnTask) && t !in s.h.spliced
  {
    assert FateOk(s, t) && IssueOk(s, t);
  }

  lemma HeldByPartner(s: Sys, j: nat, a: nat)
    requires Structure(s) && Holds(s, j, Partner(a))
    ensures In(s, j) && s.tasks[j].token == Some(s.tasks[a].phase.token) && !Holds(s, j, OwnTask)
    ensures s.tasks[j].token.value in s.h.spliced && s.h.spliced[s.tasks[j].token.value].joiner == a
  {
    assert TaskOk(s, a);
    assert IssueOk(s, s.tasks[a].phase.token);
  }

  // A socket has at most one holder.
  lemma OneHolder(s: Sys, j: nat, h: Holder, k: Holder)
    requires Reachable(s) && Holds(s, j, h) && Holds(s, j, k)
    ensures h == k && In(s, j)
  {
    InvReachable(s);
    if h.Entry? { HeldByEntry(s, j, h.token); }
    if k.Entry? { HeldByEntry(s, j, k.token); }
    if h.Partner? { HeldByPartner(s, j, h.task); }
    if k.Partner? { HeldByPartner(s, j, k.task); }
  }

  lemma PendingResult(s: Sys, e: Event)
    requires Structure(s) && Enabled(s, e)
    ensures Apply(s, e).sh.pending ==
      if Offers(s, e) then s.sh.pending[e.splice := PendingInfo(e.i, s.sh.controls[e.presented])]
      else if Joins(s, e) then s.sh.pending - {e.presented}
      else if e.Reap? then s.sh.pending - {e.token}
      else s.sh.pending
  {
    if e.Present? {
      PresentResult(s, e);
    } else if e.Reap? {
      ReapResult(s, e);
    } else {
      TokensKeep(s, e);
    }
  }

  // A task becomes a splice only by presenting a pending token.
  lemma SplicingOrigin(s: Sys, e: Event, a: nat)
    requires Enabled(s, e) && s.sh.pending.Keys <= s.h.issued.Keys
    requires In(Apply(s, e), a) && Apply(s, e).tasks[a].phase.Splicing?
    ensures In(s, a)
    ensures s.tasks[a].phase == Apply(s, e).tasks[a].phase ||
            (Joins(s, e) && e.i == a &&
             Apply(s, e).tasks[a].phase == Splicing(e.presented, s.sh.pending[e.presented].sock,
                                                    s.sh.pending[e.presented].reg))
  {
    if e.Present? {
      PresentResult(s, e);
    } else {
      StepShaped(s, e);
      StepMoves(s, e);
      if Exits(e) { ExitsToEnd(s, e); }
    }
  }

  lemma OwnedFromStart(s: Sys, e: Event, j: nat)
    requires Enabled(s, e) && In(s, j) && Holds(Apply(s, e), j, OwnTask)
    ensures Holds(s, j, OwnTask)
  {
    StepMoves(s, e);
  }

  // A dropped socket is never held again: the holder of a socket only moves
  // from its own task to a pending entry, and from there to one splice.
  lemma DroppedForGood(s: Sys, e: Event, j: nat, h: Holder)
    requires Reachable(s) && Enabled(s, e) && In(s, j) && Holds(Apply(s, e), j, h)
    ensures Holds(s, j, h) ||
      (h.Entry? && Holds(s, j, OwnTask)) ||
      (h.Partner? && s.tasks[j].token.Some? && Holds(s, j, Entry(s.tasks[j].token.value)))
  {
    InvReachable(s);
    if h.OwnTask? {
      OwnedFromStart(s, e, j);
    } else if h.Entry? {
      PendingResult(s, e);
    } else {
      SplicingOrigin(s, e, h.task);
      if Joins(s, e) && e.i == h.task { HeldByEntry(s, j, e.presented); }
    }
  }
}
