// From the bytes on a control stream to the splice they lead to.
module EndToEnd {
  import opened Net
  import opened Frame
  import opened ControlStream
  import opened RelayState
  import opened Relay
  import opened RelayCount
  import opened RelayInvariant
  import opened RelayRuns
  import opened RelayStructure
  import opened RelayCounting
  import opened RelaySafety
  import opened RelayDelivery
  import opened RelayDeadline

  // What a client makes of the first bytes of its control stream: one
  // all-clear byte, then frames.
  function ClientView(bytes: seq<Byte>): seq<Notice> {
    if bytes == [] then [] else DecodeAll(bytes[1..])
  }

  lemma WireDecodes(log: Log)
    requires [0] + EncodeAll(log.sent) <= log.wire && log.wire != []
    requires |log.wire| < 1 + FRAME_SIZE * |log.sent| + FRAME_SIZE
    ensures DecodeAll(log.wire[1..]) == CanonicalAll(log.sent)
  {
    var frames := EncodeAll(log.sent);
    var rest := log.wire[1 + |frames|..];
    assert ([0] + frames)[1..] == frames;
    assert log.wire[1..][..|frames|] == frames;
    assert log.wire[1..] == frames + rest;
    StreamRoundTrip(log.sent, rest);
  }

  lemma PrefixDecodes(log: Log, n: nat)
    requires [0] + EncodeAll(log.sent) <= log.wire && log.wire != []
    requires |log.wire| < 1 + FRAME_SIZE * |log.sent| + FRAME_SIZE
    requires 0 < n <= |log.wire|
    ensures ClientView(log.wire[..n]) == CanonicalAll(log.sent)[..(n - 1) / FRAME_SIZE]
    ensures (n - 1) / FRAME_SIZE <= |log.sent|
  {
    WireDecodes(log);
    assert log.wire[..n][1..] == log.wire[1..][..n - 1];
    TruncatedStream(log.wire[1..], n - 1);
  }

  // However much of the wire has arrived, the client sees the first of the
  // notices the relay sent, in order, with canonical addresses.
  lemma ClientSeesPrefix(s: Sys, reg: nat, n: nat)
    requires Reachable(s) && reg in s.h.logs && n <= |s.h.logs[reg].wire|
    ensures |ClientView(s.h.logs[reg].wire[..n])| <= |s.h.logs[reg].sent|
    ensures ClientView(s.h.logs[reg].wire[..n])
         == CanonicalAll(s.h.logs[reg].sent)[..|ClientView(s.h.logs[reg].wire[..n])|]
  {
    InvReachable(s);
    assert LogOk(s, reg);
    if n > 0 {
      PrefixDecodes(s.h.logs[reg], n);
    }
  }

  // Over a whole run: what a client decodes, however much of the wire has
  // arrived, is the first of the notices handed to its channel, in order.
  lemma ClientSeesHanded(cfg: Config, es: seq<Event>, reg: nat, n: nat)
    requires Legal(Init(cfg), es) && reg in Exec(Init(cfg), es).h.logs
    requires n <= |Exec(Init(cfg), es).h.logs[reg].wire|
    ensures ClientView(Exec(Init(cfg), es).h.logs[reg].wire[..n]) <= CanonicalAll(HandedTo(Init(cfg), es, reg))
  {
    InvInit(cfg);
    RunIsReachable(cfg, es);
    CarriedInOrder(Init(cfg), es, reg);
    ClientSeesPrefix(Exec(Init(cfg), es), reg, n);
  }

  // Every frame a client decodes names a token that was issued for this very
  // registration, to a peer that had asked for the client's digest, and carries
  // that peer's address.
  lemma FrameIsGenuine(s: Sys, reg: nat, n: nat, k: nat)
    requires Reachable(s) && reg in s.h.logs && n <= |s.h.logs[reg].wire|
    requires k < |ClientView(s.h.logs[reg].wire[..n])|
    ensures var f := ClientView(s.h.logs[reg].wire[..n])[k];
      f.token in s.h.issued &&
      var Issue(sock, cert, r) := s.h.issued[f.token];
      r == reg && cert == s.h.logs[reg].cert && In(s, sock) &&
      s.tasks[sock].presented == Some(cert) && f.addr == Canonical(s.tasks[sock].addr)
  {
    ClientSeesPrefix(s, reg, n);
    InvReachable(s);
    assert LogOk(s, reg);
    assert NoticeOk(s, s.h.logs[reg].sent[k], reg);
    assert IssueOk(s, s.h.logs[reg].sent[k].token);
  }

  // If the client's accept writes such a token back on a new connection `a`, the
  // relay splices `a` to the peer the frame was about, exactly when that peer
  // still waits; otherwise it drops `a` and touches nothing else.
  lemma AcceptReachesPeer(s: Sys, reg: nat, n: nat, k: nat, a: nat, unused: Tx3Id)
    requires Reachable(s) && reg in s.h.logs && n <= |s.h.logs[reg].wire|
    requires k < |ClientView(s.h.logs[reg].wire[..n])|
    requires Enabled(s, Present(a, ClientView(s.h.logs[reg].wire[..n])[k].token, unused))
    ensures var f := ClientView(s.h.logs[reg].wire[..n])[k];
      var s' := Apply(s, Present(a, f.token, unused));
      f.token in s.h.issued &&
      var peer := s.h.issued[f.token].sock;
      In(s, peer) && f.addr == Canonical(s.tasks[peer].addr) && In(s', a) &&
      (f.token in s.sh.pending ==>
        s'.tasks[a].phase == Splicing(f.token, peer, reg) && Holds(s', peer, Partner(a))) &&
      (f.token !in s.sh.pending ==> s'.tasks[a].phase == Done && s'.sh == s.sh) &&
      (f.token in s.sh.pending <==> f.token !in s.h.spliced && f.token !in s.h.reaped)
  {
    FrameIsGenuine(s, reg, n, k);
    InvReachable(s);
    var t := ClientView(s.h.logs[reg].wire[..n])[k].token;
    TokenIsNoDigest(s, t);
    PresentResult(s, Present(a, t, unused));
  }

  // In terms of time: written back before the peer's deadline, such a token is
  // spliced to the peer unless it has been used already.
  lemma TimelyAcceptReachesPeer(s: Sys, reg: nat, n: nat, k: nat, a: nat, unused: Tx3Id)
    requires Reachable(s) && reg in s.h.logs && n <= |s.h.logs[reg].wire|
    requires k < |ClientView(s.h.logs[reg].wire[..n])|
    requires Enabled(s, Present(a, ClientView(s.h.logs[reg].wire[..n])[k].token, unused))
    ensures var f := ClientView(s.h.logs[reg].wire[..n])[k];
      var s' := Apply(s, Present(a, f.token, unused));
      f.token in s.h.issued &&
      var peer := s.h.issued[f.token].sock;
      In(s, peer) && In(s', a) &&
      (s.now < s.tasks[peer].start + s.cfg.timeout && f.token !in s.h.spliced ==>
        s'.tasks[a].phase == Splicing(f.token, peer, reg) && Holds(s', peer, Partner(a)))
  {
    AcceptReachesPeer(s, reg, n, k, a, unused);
    var t := ClientView(s.h.logs[reg].wire[..n])[k].token;
    if t in s.h.reaped { NeverReapedEarly(s, t); }
  }

  lemma TokenIsNoDigest(s: Sys, t: Tx3Id)
    requires Structure(s) && t in s.h.issued
    ensures t !in s.sh.controls && t != s.cfg.relayCert
    ensures t in s.sh.pending <==> t !in s.h.spliced && t !in s.h.reaped
    ensures t in s.sh.pending ==>
      s.sh.pending[t] == PendingInfo(s.h.issued[t].sock, s.h.issued[t].reg)
  {
    assert IssueOk(s, t) && FateOk(s, t);
    if t in s.sh.controls { ControlEntry(s, t); }
  }

  // --- A registered client with a free permit can be reached ---

  // A connection that has just been accepted.
  ghost predicate NewSocket(s: Sys, i: nat, addr: SocketAddr) {
    In(s, i) && s.tasks[i].addr == addr && s.tasks[i].phase.Reading?
  }

  ghost predicate SameBut(s: Sys, s': Sys) {
    s'.cfg == s.cfg && s'.sh.controls == s.sh.controls && s'.h.certs == s.h.certs && |s'.tasks| >= |s.tasks|
  }

  lemma Connect(s: Sys, addr: SocketAddr)
    requires s.inbound > 0
    ensures var s' := Apply(s, Accept(addr, true));
      NewSocket(s', |s.tasks|, addr) && SameBut(s, s') && s'.inbound == s.inbound - 1 &&
      s'.sh == s.sh && s'.h == s.h && forall i: nat :: In(s, i) ==> s'.tasks[i] == s.tasks[i]
  {
  }

  ghost predicate IdleClient(s: Sys, c: Tx3Id, r: nat) {
    c in s.sh.controls && s.sh.controls[c] == r && c != s.cfg.relayCert &&
    Receiving(s, r) && s.tasks[r].phase == Control(c, Idle, []) && r in s.h.logs
  }

  lemma AskFor(s: Sys, c: Tx3Id, r: nat, p: nat, addr: SocketAddr, t: Tx3Id)
    requires IdleClient(s, c, r) && NewSocket(s, p, addr) && Fresh(s, t) && t !in s.sh.pending
    requires Permits(s.sh.limits, r) > 0
    ensures Enabled(s, Present(p, c, t))
    ensures var s' := Apply(s, Present(p, c, t));
      IdleClient(s', c, r) && SameBut(s, s') && s'.inbound == s.inbound && s'.h.logs == s.h.logs &&
      In(s', p) && s'.tasks[p].phase == Notifying(t, r) && s'.tasks[p].addr == addr &&
      t in s'.sh.pending && s'.sh.pending[t] == PendingInfo(p, r) &&
      s'.h.issued.Keys == s.h.issued.Keys + {t}
  {
    PresentResult(s, Present(p, c, t));
    assert Offers(s, Present(p, c, t));
  }

  lemma Notify(s: Sys, c: Tx3Id, r: nat, p: nat, t: Tx3Id)
    requires IdleClient(s, c, r) && In(s, p) && s.tasks[p].phase == Notifying(t, r)
    ensures Enabled(s, Send(p))
    ensures var s' := Apply(s, Send(p));
      SameBut(s, s') && s'.inbound == s.inbound + 1 && s'.h == s.h && s'.sh == s.sh &&
      In(s', r) && s'.tasks[r].phase == Control(c, Idle, [Notice(t, s.tasks[p].addr)])
  {
  }

  lemma Take(s: Sys, c: Tx3Id, r: nat, n: Notice)
    requires In(s, r) && s.tasks[r].phase == Control(c, Idle, [n])
    ensures Enabled(s, Recv(r))
    ensures var s' := Apply(s, Recv(r));
      SameBut(s, s') && s'.inbound == s.inbound && s'.h == s.h && s'.sh == s.sh &&
      In(s', r) && s'.tasks[r].phase == Control(c, Writing(n, 0), [])
  {
  }

  lemma WriteAll(s: Sys, c: Tx3Id, r: nat, n: Notice)
    requires In(s, r) && s.tasks[r].phase == Control(c, Writing(n, 0), []) && r in s.h.logs
    ensures Enabled(s, Write(r, FRAME_SIZE))
    ensures var s' := Apply(s, Write(r, FRAME_SIZE));
      SameBut(s, s') && s'.inbound == s.inbound && s'.sh == s.sh && s'.h.issued == s.h.issued &&
      r in s'.h.logs && s'.h.logs[r].sent == s.h.logs[r].sent + [n]
  {
  }

  lemma WriteBack(s: Sys, a: nat, addr: SocketAddr, t: Tx3Id, u: Tx3Id)
    requires NewSocket(s, a, addr) && t in s.sh.pending && t !in s.sh.controls && t != s.cfg.relayCert
    requires Fresh(s, u) && u !in s.sh.pending
    ensures Enabled(s, Present(a, t, u))
    ensures var s' := Apply(s, Present(a, t, u));
      In(s', a) && s'.tasks[a].phase == Splicing(t, s.sh.pending[t].sock, s.sh.pending[t].reg) &&
      s'.h.logs == s.h.logs
  {
    PresentResult(s, Present(a, t, u));
    assert Joins(s, Present(a, t, u));
  }

  // A run from `start` to `s` in which no time passes.
  ghost predicate Ran(start: Sys, es: seq<Event>, s: Sys) {
    Legal(start, es) && Exec(start, es) == s && forall k :: 0 <= k < |es| ==> !es[k].Tick?
  }

  lemma Then(start: Sys, es: seq<Event>, s: Sys, e: Event) returns (es': seq<Event>, s': Sys)
    requires Ran(start, es, s) && Enabled(s, e) && !e.Tick?
    ensures s' == Apply(s, e) && Ran(start, es', s')
  {
    Extend(start, es, e);
    es', s' := es + [e], Apply(s, e);
  }

  // The step that brings a control task closer to having written all it has.
  lemma WritesOn(s: Sys, r: nat) returns (e: Event)
    requires Structure(s) && Receiving(s, r) && r in s.h.logs
    requires !s.tasks[r].phase.out.Idle? || s.tasks[r].phase.queue != []
    ensures Enabled(s, e) && Drives(e) && e.i == r && !e.ControlEnd? && !e.SendersGone?
    ensures In(Apply(s, e), r) && r in Apply(s, e).h.logs && Pipe(Apply(s, e), r) == Pipe(s, r)
  {
    assert TaskOk(s, r);
    match s.tasks[r].phase.out {
      case AllClear => e := SendAllClear(r);
      case Idle => e := Recv(r);
      case Writing(_, done) => e := Write(r, 1);
    }
    DrivePipe(s, e);
  }

  lemma DriveKeepsOthers(s: Sys, e: Event, c: Tx3Id)
    requires Enabled(s, e) && Drives(e) && !e.ControlEnd? && !e.SendersGone?
    requires s.tasks[e.i].phase.out.Writing? ==> s.tasks[e.i].phase.out.done < FRAME_SIZE
    ensures var s' := Apply(s, e);
      SameBut(s, s') && |s'.tasks| == |s.tasks| && s'.inbound == s.inbound && s'.sh == s.sh &&
      s'.h.issued == s.h.issued && Receiving(s', e.i) && s'.tasks[e.i].phase.cert == s.tasks[e.i].phase.cert &&
      PhaseWork(s'.tasks[e.i].phase) < PhaseWork(s.tasks[e.i].phase)
  {
  }

  lemma WriteStep(s: Sys, c: Tx3Id, r: nat) returns (e: Event, s': Sys)
    requires Inv(s) && Receiving(s, r) && r in s.h.logs && s.tasks[r].phase.cert == c
    requires !s.tasks[r].phase.out.Idle? || s.tasks[r].phase.queue != []
    ensures Enabled(s, e) && !e.Tick? && s' == Apply(s, e) && Inv(s') && SameBut(s, s')
    ensures |s'.tasks| == |s.tasks| && s'.inbound == s.inbound && s'.sh == s.sh && s'.h.issued == s.h.issued
    ensures Receiving(s', r) && s'.tasks[r].phase.cert == c && r in s'.h.logs && Pipe(s', r) == Pipe(s, r)
    ensures PhaseWork(s'.tasks[r].phase) < PhaseWork(s.tasks[r].phase)
  {
    e := WritesOn(s, r);
    s' := Apply(s, e);
    assert TaskOk(s, r);
    DriveKeepsOthers(s, e, c);
    InvStep(s, e);
  }

  // Whatever a control task is doing, it can first write all that it has.
  lemma {:induction false} ToIdle(start: Sys, es: seq<Event>, s: Sys, c: Tx3Id, r: nat)
    returns (es': seq<Event>, s': Sys)
    requires Ran(start, es, s) && Inv(s) && Receiving(s, r) && r in s.h.logs && s.tasks[r].phase.cert == c
    ensures Ran(start, es', s') && SameBut(s, s') && |s'.tasks| == |s.tasks| && s'.inbound == s.inbound
    ensures s'.sh == s.sh && s'.h.issued == s.h.issued
    ensures In(s', r) && s'.tasks[r].phase == Control(c, Idle, [])
    ensures r in s'.h.logs && s'.h.logs[r].sent == Pipe(s, r)
    decreases PhaseWork(s.tasks[r].phase)
  {
    es', s' := es, s;
    if !s.tasks[r].phase.out.Idle? || s.tasks[r].phase.queue != [] {
      var e, s1 := WriteStep(s, c, r);
      es', s1 := Then(start, es, s, e);
      es', s' := ToIdle(start, es', s1, c, r);
    }
  }

  // A peer connects, asks for the client and puts its notice on the queue.
  lemma PeerAsks(start: Sys, before: seq<Event>, s: Sys, c: Tx3Id, r: nat, peer: SocketAddr, t: Tx3Id)
    returns (es: seq<Event>, s': Sys)
    requires Ran(start, before, s)
    requires IdleClient(s, c, r) && s.inbound > 0 && Permits(s.sh.limits, r) > 0
    requires Fresh(s, t) && t !in s.sh.pending
    ensures Ran(start, es, s') && SameBut(s, s') && s'.inbound == s.inbound && |s'.tasks| == |s.tasks| + 1
    ensures In(s', r) && s'.tasks[r].phase == Control(c, Idle, [Notice(t, peer)])
    ensures s'.h.logs == s.h.logs && s'.h.issued.Keys == s.h.issued.Keys + {t}
    ensures t in s'.sh.pending && s'.sh.pending[t] == PendingInfo(|s.tasks|, r)
  {
    var p, s1, s2 := |s.tasks|, s, s;
    Connect(s, peer);
    es, s1 := Then(start, before, s, Accept(peer, true));
    AskFor(s1, c, r, p, peer, t);
    es, s2 := Then(start, es, s1, Present(p, c, t));
    Notify(s2, c, r, p, t);
    es, s' := Then(start, es, s2, Send(p));
  }

  // The client's control task takes the notice and writes its frame.
  lemma RelayTells(start: Sys, es: seq<Event>, s: Sys, c: Tx3Id, r: nat, n: Notice)
    returns (es': seq<Event>, s': Sys)
    requires Ran(start, es, s) && In(s, r) && r in s.h.logs
    requires s.tasks[r].phase == Control(c, Idle, [n])
    ensures Ran(start, es', s') && SameBut(s, s') && |s'.tasks| == |s.tasks|
    ensures s'.inbound == s.inbound && s'.sh == s.sh && s'.h.issued == s.h.issued
    ensures r in s'.h.logs && s'.h.logs[r].sent == s.h.logs[r].sent + [n]
  {
    var s1 := s;
    Take(s, c, r, n);
    es', s1 := Then(start, es, s, Recv(r));
    WriteAll(s1, c, r, n);
    es', s' := Then(start, es', s1, Write(r, FRAME_SIZE));
  }

  // The client connects and writes the token back.
  lemma ClientAnswers(start: Sys, es: seq<Event>, s: Sys, client: SocketAddr, t: Tx3Id, u: Tx3Id)
    returns (es': seq<Event>, s': Sys)
    requires Ran(start, es, s) && s.inbound > 0 && Fresh(s, u) && u !in s.sh.pending
    requires t in s.sh.pending && t !in s.sh.controls && t != s.cfg.relayCert
    ensures Ran(start, es', s') && s'.h.logs == s.h.logs && In(s', |s.tasks|)
    ensures s'.tasks[|s.tasks|].phase == Splicing(t, s.sh.pending[t].sock, s.sh.pending[t].reg)
  {
    var s1 := s;
    Connect(s, client);
    es', s1 := Then(start, es, s, Accept(client, true));
    WriteBack(s1, |s.tasks|, client, t, u);
    es', s' := Then(start, es', s1, Present(|s.tasks|, t, u));
  }

  // After any run from a reachable state, an issued token that still waits is
  // not taken for a digest and an unissued one is not pending.
  lemma TokensAreApart(start: Sys, es: seq<Event>, s: Sys, t: Tx3Id, u: Tx3Id)
    requires Reachable(start) && Ran(start, es, s) && u !in s.h.issued
    ensures t in s.sh.pending ==> t !in s.sh.controls && t != s.cfg.relayCert
    ensures u !in s.sh.pending
  {
    InvReachable(start);
    InvRun(start, es);
    if t in s.sh.pending { TokenIsNoDigest(s, t); }
  }

  // From any reachable state in which `c` is registered and the permits are there,
  // two connections, one by a peer and one by the client in answer to the frame it
  // is sent, are enough to be spliced to each other.
  lemma ClientIsReachable(s: Sys, c: Tx3Id, r: nat, peer: SocketAddr, client: SocketAddr, t: Tx3Id, u: Tx3Id)
    returns (es: seq<Event>, s': Sys)
    requires Reachable(s) && c in s.sh.controls && s.sh.controls[c] == r && c != s.cfg.relayCert
    requires Receiving(s, r) && s.inbound > 0 && Permits(s.sh.limits, r) > 0
    requires Fresh(s, t) && Fresh(s, u) && t != u
    ensures Ran(s, es, s') && r in s.h.logs
    ensures r in s'.h.logs && s'.h.logs[r].sent == Pipe(s, r) + [Notice(t, peer)]
    ensures In(s', |s.tasks| + 1) && s'.tasks[|s.tasks| + 1].phase == Splicing(t, |s.tasks|, r)
  {
    var s1, s2, s3 := s, s, s;
    MappedStream(s, c);
    es, s1 := ToIdle(s, [], s, c, r);
    TokensAreApart(s, es, s1, t, t);
    es, s2 := PeerAsks(s, es, s1, c, r, peer, t);
    es, s3 := RelayTells(s, es, s2, c, r, Notice(t, peer));
    TokensAreApart(s, es, s3, t, u);
    es, s' := ClientAnswers(s, es, s3, client, t, u);
  }

  lemma MappedStream(s: Sys, c: Tx3Id)
    requires Reachable(s) && c in s.sh.controls
    ensures Inv(s) && s.sh.controls[c] in s.h.logs && In(s, s.sh.controls[c])
    ensures IsRegistered(s.tasks[s.sh.controls[c]].phase) && s.tasks[s.sh.controls[c]].phase.cert == c
  {
    InvReachable(s);
    ControlEntry(s, c);
  }
}
