// How many sockets the relay has open, and when that exceeds the limit on
// inbound connections.
module RelaySockets {
  import opened Net
  import opened RelayState
  import opened Relay
  import opened RelayCount
  import opened RelayInvariant
  import opened RelayRuns
  import opened RelayFrame
  import opened RelayStructure
  import opened RelayCounting
  import opened RelayScenarios
  import opened RelaySafety
  import opened RelayRouting

  // --- Open sockets by holder ---

  // Tasks that hold their own socket.
  ghost function Owners(s: Sys): set<nat> {
    set i: nat | i < |s.tasks| && Holds(s, i, OwnTask)
  }

  ghost function Splicers(s: Sys): set<nat> {
    set i: nat | i < |s.tasks| && s.tasks[i].phase.Splicing?
  }

  // Tasks that have handed their socket over or dropped it, but not ended.
  ghost function Passing(s: Sys): set<nat> {
    set i: nat | i < |s.tasks| && (s.tasks[i].phase.Notifying? || s.tasks[i].phase.Ending?)
  }

  ghost function PendingSockets(s: Sys): set<nat> {
    set t | t in s.sh.pending :: s.sh.pending[t].sock
  }

  ghost function PartnerSockets(s: Sys): set<nat> {
    set a | a in Splicers(s) :: s.tasks[a].phase.peer
  }

  ghost function Open(s: Sys): set<nat> {
    Owners(s) + PendingSockets(s) + PartnerSockets(s)
  }

  // Open are the sockets that something holds.
  lemma OpenIsHeld(s: Sys, j: nat)
    ensures j in Open(s) <==> exists h :: Holds(s, j, h)
  {
    if j in PendingSockets(s) {
      var t :| t in s.sh.pending && s.sh.pending[t].sock == j;
      assert Holds(s, j, Entry(t));
    }
    if j in PartnerSockets(s) {
      var a :| a in Splicers(s) && s.tasks[a].phase.peer == j;
      assert Holds(s, j, Partner(a));
    }
    if j in Owners(s) { assert Holds(s, j, OwnTask); }
    if h :| Holds(s, j, h) {
      assert h.Partner? ==> h.task in Splicers(s);
    }
  }

  // Sockets under distinct tokens are distinct.
  lemma {:induction false} PendingDistinct(pending: map<Tx3Id, PendingInfo>, tokens: set<Tx3Id>)
    requires tokens <= pending.Keys
    requires forall t, u :: t in tokens && u in tokens && pending[t].sock == pending[u].sock ==> t == u
    ensures |set t | t in tokens :: pending[t].sock| == |tokens|
    decreases |tokens|
  {
    var socks := set t | t in tokens :: pending[t].sock;
    if tokens != {} {
      var t :| t in tokens;
      PendingDistinct(pending, tokens - {t});
      var others := set u | u in tokens - {t} :: pending[u].sock;
      assert socks == others + {pending[t].sock};
    }
  }

  // The waiting sides of distinct splices are distinct.
  lemma {:induction false} PartnersDistinct(s: Sys, splicers: set<nat>)
    requires splicers <= Splicers(s)
    requires forall a, b ::
      a in splicers && b in splicers && s.tasks[a].phase.peer == s.tasks[b].phase.peer ==> a == b
    ensures |set a | a in splicers :: s.tasks[a].phase.peer| == |splicers|
    decreases |splicers|
  {
    var socks := set a | a in splicers :: s.tasks[a].phase.peer;
    if splicers != {} {
      var a :| a in splicers;
      PartnersDistinct(s, splicers - {a});
      var others := set b | b in splicers - {a} :: s.tasks[b].phase.peer;
      assert socks == others + {s.tasks[a].phase.peer};
    }
  }

  lemma OneEntry(s: Sys, t: Tx3Id, u: Tx3Id)
    requires Reachable(s) && t in s.sh.pending && u in s.sh.pending
    ensures s.sh.pending[t].sock == s.sh.pending[u].sock ==> t == u
    ensures s.sh.pending[t].sock !in Owners(s) && s.sh.pending[t].sock !in PartnerSockets(s)
  {
    var j := s.sh.pending[t].sock;
    if s.sh.pending[u].sock == j { OneHolder(s, j, Entry(t), Entry(u)); }
    if j in Owners(s) { OneHolder(s, j, Entry(t), OwnTask); }
    if j in PartnerSockets(s) {
      var a :| a in Splicers(s) && s.tasks[a].phase.peer == j;
      OneHolder(s, j, Entry(t), Partner(a));
    }
  }

  lemma OnePartner(s: Sys, a: nat, b: nat)
    requires Reachable(s) && a in Splicers(s) && b in Splicers(s)
    ensures s.tasks[a].phase.peer == s.tasks[b].phase.peer ==> a == b
    ensures s.tasks[a].phase.peer !in Owners(s)
  {
    var j := s.tasks[a].phase.peer;
    if s.tasks[b].phase.peer == j { OneHolder(s, j, Partner(a), Partner(b)); }
    if j in Owners(s) { OneHolder(s, j, Partner(a), OwnTask); }
  }

  // Open are the sockets of the tasks that hold their own, one for each pending
  // entry and one more for each splice.
  lemma OpenByHolder(s: Sys)
    requires Reachable(s)
    ensures |Open(s)| == |Owners(s)| + |s.sh.pending| + |Splicers(s)|
  {
    forall t, u | t in s.sh.pending && u in s.sh.pending && s.sh.pending[t].sock == s.sh.pending[u].sock
      ensures t == u
    {
      OneEntry(s, t, u);
    }
    PendingDistinct(s.sh.pending, s.sh.pending.Keys);
    assert PendingSockets(s) == set t | t in s.sh.pending.Keys :: s.sh.pending[t].sock;
    forall a, b | a in Splicers(s) && b in Splicers(s) && s.tasks[a].phase.peer == s.tasks[b].phase.peer
      ensures a == b
    {
      OnePartner(s, a, b);
    }
    PartnersDistinct(s, Splicers(s));
    HoldersApart(s);
  }

  lemma HoldersApart(s: Sys)
    requires Reachable(s)
    ensures Owners(s) !! PendingSockets(s) !! PartnerSockets(s)
  {
    forall t | t in s.sh.pending
      ensures s.sh.pending[t].sock !in Owners(s) && s.sh.pending[t].sock !in PartnerSockets(s)
    {
      OneEntry(s, t, t);
    }
    forall a | a in Splicers(s) ensures s.tasks[a].phase.peer !in Owners(s) {
      OnePartner(s, a, a);
    }
  }

  // --- Against the permits ---

  // The inbound permits held are those of the tasks that hold their own socket
  // and of those that no longer do.
  lemma InboundByTask(s: Sys)
    requires Reachable(s)
    ensures |Owners(s)| + |Passing(s)| == s.cfg.maxInbound - s.inbound
  {
    InvReachable(s);
    TotalMembers(Inbound, s.tasks);
    assert Members(Inbound, s.tasks) == Owners(s) + Passing(s);
  }

  ghost function PendingAmong(s: Sys, regs: set<nat>): set<Tx3Id> {
    set t | t in s.sh.pending && s.sh.pending[t].reg in regs
  }

  ghost function SplicersAmong(s: Sys, regs: set<nat>): set<nat> {
    set i: nat | i < |s.tasks| && s.tasks[i].phase.Splicing? && s.tasks[i].phase.reg in regs
  }

  lemma AmongOne(s: Sys, r: nat)
    requires Reachable(s) && r in s.sh.limits
    ensures |PendingAmong(s, {r})| + |SplicersAmong(s, {r})| <= s.cfg.maxRelays
  {
    RelayPermitConservation(s, r);
    assert PendingAmong(s, {r}) == set t | t in s.sh.pending && s.sh.pending[t].reg == r;
    assert SplicersAmong(s, {r})
        == set i: nat | i < |s.tasks| && s.tasks[i].phase.Splicing? && s.tasks[i].phase.reg == r;
  }

  lemma AmongSplit(s: Sys, regs: set<nat>, r: nat)
    requires r in regs
    ensures |PendingAmong(s, regs)| <= |PendingAmong(s, regs - {r})| + |PendingAmong(s, {r})|
    ensures |SplicersAmong(s, regs)| <= |SplicersAmong(s, regs - {r})| + |SplicersAmong(s, {r})|
  {
    assert PendingAmong(s, regs) == PendingAmong(s, regs - {r}) + PendingAmong(s, {r});
    assert SplicersAmong(s, regs) == SplicersAmong(s, regs - {r}) + SplicersAmong(s, {r});
  }

  lemma OneMore(limit: nat, n: nat)
    requires n > 0
    ensures limit * n == limit * (n - 1) + limit
  {
  }

  lemma {:induction false} RelayPermitsAmong(s: Sys, regs: set<nat>)
    requires Reachable(s) && regs <= s.sh.limits.Keys
    ensures |PendingAmong(s, regs)| + |SplicersAmong(s, regs)| <= s.cfg.maxRelays * |regs|
  {
    if r :| r in regs {
      RelayPermitsAmong(s, regs - {r});
      AmongOne(s, r);
      AmongSplit(s, regs, r);
      OneMore(s.cfg.maxRelays, |regs|);
    } else {
      assert PendingAmong(s, regs) == {} && SplicersAmong(s, regs) == {};
    }
  }

  lemma AllRegistered(s: Sys)
    requires Structure(s)
    ensures PendingAmong(s, s.sh.limits.Keys) == s.sh.pending.Keys
    ensures SplicersAmong(s, s.sh.limits.Keys) == Splicers(s)
  {
    forall t | t in s.sh.pending ensures s.sh.pending[t].reg in s.sh.limits {
      assert FateOk(s, t) && IssueOk(s, t);
    }
    forall i | i in Splicers(s) ensures s.tasks[i].phase.reg in s.sh.limits {
      assert TaskOk(s, i);
      assert IssueOk(s, s.tasks[i].phase.token);
    }
  }

  lemma RelayPermitsHeld(s: Sys)
    requires Reachable(s)
    ensures |s.sh.pending| + |Splicers(s)| <= s.cfg.maxRelays * |s.sh.limits|
  {
    InvReachable(s);
    AllRegistered(s);
    RelayPermitsAmong(s, s.sh.limits.Keys);
  }

  lemma SplicersHold(s: Sys)
    requires Reachable(s)
    ensures |Splicers(s)| <= s.cfg.maxInbound - s.inbound
  {
    ChainOfBounds(s);
    TotalMembers(Splices, s.tasks);
    assert Members(Splices, s.tasks) == Splicers(s);
  }

  // How many sockets are open: as many as inbound permits are held, one more for
  // each pending entry and for each splice, and one less for each task that no
  // longer holds its own. Entries and splices are bounded by the relay permits of
  // all registrations, and splices by the inbound permits held.
  lemma OpenSockets(s: Sys)
    requires Reachable(s)
    ensures |Open(s)| + |Passing(s)| == (s.cfg.maxInbound - s.inbound) + |s.sh.pending| + |Splicers(s)|
    ensures |s.sh.pending| + |Splicers(s)| <= s.cfg.maxRelays * |s.sh.limits|
    ensures |Splicers(s)| <= s.cfg.maxInbound - s.inbound
  {
    OpenByHolder(s);
    InboundByTask(s);
    RelayPermitsHeld(s);
    SplicersHold(s);
  }

  // --- When open sockets stay within the inbound limit ---

  predicate CanExceed(cfg: Config) {
    cfg.maxInbound >= 2 && cfg.maxControl >= 1 && cfg.maxPerIp >= 1 && cfg.maxRelays >= 1
  }

  lemma RegisteredNeeds(s: Sys, r: nat)
    requires Inv(s) && In(s, r) && Runs(s.tasks[r].phase)
    ensures s.cfg.maxControl >= 1 && s.cfg.maxPerIp >= 1
  {
    TotalMember(ControlPermit, s.tasks, r);
    var ip := s.tasks[r].addr.Ip();
    TotalMember(FromIp(ip), s.tasks, r);
    assert IpCount(s.sh.addrs, ip) == Total(FromIp(ip), s.tasks);
  }

  lemma OfferedTo(s: Sys, e: Event)
    requires Structure(s) && Enabled(s, e) && Offers(s, e) && !s.term
    ensures var r := s.sh.controls[e.presented];
      In(s, r) && Runs(s.tasks[r].phase) && r in s.sh.limits && In(s, e.i) && e.i != r
  {
    ControlEntry(s, e.presented);
    assert TaskOk(s, s.sh.controls[e.presented]);
  }

  // A socket can only come to wait if all of these limits allow it: its task and
  // the control task it asks for each hold an inbound permit.
  lemma OfferNeeds(s: Sys, e: Event)
    requires Inv(s) && Enabled(s, e) && Offers(s, e) && !s.term
    ensures CanExceed(s.cfg)
  {
    var r := s.sh.controls[e.presented];
    OfferedTo(s, e);
    TotalTwo(Inbound, s.tasks, e.i, r);
    RegisteredNeeds(s, r);
    assert RelayAccount(s, r) == s.cfg.maxRelays;
  }

  lemma {:induction false} NeverIssued(s: Sys, es: seq<Event>)
    requires Inv(s) && Legal(s, es) && !CanExceed(s.cfg) && s.h.issued == map[]
    ensures !Exec(s, es).term ==> Exec(s, es).h.issued == map[]
    decreases |es|
  {
    if es != [] {
      if s.term {
        TermStays(s, es);
      } else {
        if Offers(s, es[0]) { OfferNeeds(s, es[0]); }
        TokenHistory(s, es[0]);
        InvStep(s, es[0]);
        StepMoves(s, es[0]);
        NeverIssued(Apply(s, es[0]), es[1..]);
      }
    }
  }

  lemma {:induction false} TermStays(s: Sys, es: seq<Event>)
    requires Legal(s, es) && s.term
    ensures Exec(s, es).term
    decreases |es|
  {
    if es != [] {
      StepMoves(s, es[0]);
      TermStays(Apply(s, es[0]), es[1..]);
    }
  }

  lemma WithinLimit(s: Sys)
    requires Reachable(s) && !s.term && !CanExceed(s.cfg)
    ensures |Open(s)| <= s.cfg.maxInbound
  {
    var es :| Legal(Init(s.cfg), es) && Exec(Init(s.cfg), es) == s;
    InvInit(s.cfg);
    NeverIssued(Init(s.cfg), es);
    InvReachable(s);
    forall i ensures i !in Splicers(s) {
      assert In(s, i) ==> TaskOk(s, i);
    }
    OpenSockets(s);
  }

  // Any number of new connections, while there are permits for them.
  lemma {:induction false} AcceptAll(start: Sys, es: seq<Event>, s: Sys, addrs: seq<SocketAddr>)
    returns (es': seq<Event>, s': Sys)
    requires Legal(start, es) && Exec(start, es) == s && |addrs| <= s.inbound
    ensures Legal(start, es') && Exec(start, es') == s'
    ensures s' == s.(inbound := s.inbound - |addrs|, tasks := s'.tasks)
    ensures |s'.tasks| == |s.tasks| + |addrs|
    ensures forall i: nat :: i < |s'.tasks| ==>
      s'.tasks[i] == if i < |s.tasks| then s.tasks[i]
                     else Task(addrs[i - |s.tasks|], s.now, None, None, Reading)
    decreases |addrs|
  {
    es', s' := es, s;
    if addrs != [] {
      Extend(start, es, Accept(addrs[0], true));
      es', s' := AcceptAll(start, es + [Accept(addrs[0], true)], Apply(s, Accept(addrs[0], true)), addrs[1..]);
    }
  }

  // A client registers and a peer asks for it.
  lemma PeerWaits(cfg: Config, client: SocketAddr, peer: SocketAddr, c: Tx3Id, t: Tx3Id)
    returns (es: seq<Event>, s: Sys)
    requires CanExceed(cfg) && c != t && c != cfg.relayCert && t != cfg.relayCert
    ensures Legal(Init(cfg), es) && Exec(Init(cfg), es) == s && s.cfg == cfg && !s.term
    ensures s.inbound == cfg.maxInbound - 1 && |s.tasks| == 2
    ensures Holds(s, 0, OwnTask) && Holds(s, 1, Entry(t))
  {
    var s0 := Init(cfg);
    es := OpenControl(s0, [], client, c, t);
    s := Opened(s0, client, c);
    Extend(s0, es, Accept(peer, true));
    es, s := es + [Accept(peer, true)], Apply(s, Accept(peer, true));
    Extend(s0, es, Present(1, c, t));
    es, s := es + [Present(1, c, t)], Apply(s, Present(1, c, t));
    Extend(s0, es, Send(1));
    es, s := es + [Send(1)], Apply(s, Send(1));
  }

  // From then on the waiting peer holds no inbound permit, and as many further
  // connections are accepted as the limit allows: one socket too many is open.
  lemma LimitExceeded(cfg: Config, addrs: seq<SocketAddr>, c: Tx3Id, t: Tx3Id)
    returns (es: seq<Event>, s: Sys)
    requires CanExceed(cfg) && c != t && c != cfg.relayCert && t != cfg.relayCert
    requires |addrs| == cfg.maxInbound + 1
    ensures Legal(Init(cfg), es) && Exec(Init(cfg), es) == s && s.cfg == cfg && !s.term
    ensures |s.tasks| == cfg.maxInbound + 1 && forall j: nat :: j < |s.tasks| ==> j in Open(s)
  {
    var before;
    es, before := PeerWaits(cfg, addrs[0], addrs[1], c, t);
    es, s := AcceptAll(Init(cfg), es, before, addrs[2..]);
    forall j: nat | j < |s.tasks| ensures j in Open(s) {
      OpenIsHeld(s, j);
      assert Holds(s, j, if j == 1 then Entry(t) else OwnTask);
    }
  }

  lemma {:induction false} FirstNumbers(n: nat, among: set<nat>)
    requires forall j: nat :: j < n ==> j in among
    ensures |among| >= n
  {
    if n > 0 {
      FirstNumbers(n - 1, among - {n - 1});
    }
  }

  // A different address for each of the first 2^48 connections.
  function AddrOf(k: nat): SocketAddr {
    SockV4([k / 0x100_0000_0000 % 256, k / 0x1_0000_0000 % 256, k / 0x100_0000 % 256, k / 0x1_0000 % 256],
           k % 0x1_0000)
  }

  // The sockets open before shutdown never outnumber max_inbound_connections if
  // and only if no peer can ever come to wait.
  lemma InboundLimitBoundsSockets(cfg: Config)
    ensures (forall s :: Reachable(s) && s.cfg == cfg && !s.term ==> |Open(s)| <= cfg.maxInbound) <==>
      cfg.maxInbound <= 1 || cfg.maxControl == 0 || cfg.maxPerIp == 0 || cfg.maxRelays == 0
  {
    if CanExceed(cfg) {
      var c, t := TwoIds(cfg.relayCert);
      var es, s := LimitExceeded(cfg, seq(cfg.maxInbound + 1, k requires 0 <= k => AddrOf(k)), c, t);
      RunIsReachable(cfg, es);
      FirstNumbers(cfg.maxInbound + 1, Open(s));
    } else {
      forall s | Reachable(s) && s.cfg == cfg && !s.term ensures |Open(s)| <= cfg.maxInbound {
        WithinLimit(s);
      }
    }
  }
}
