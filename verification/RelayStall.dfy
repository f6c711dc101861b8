// Senders that wait for a client to read its control stream. Neither the wait
// for room in the channel nor the write to the client has a timeout.
module RelayStall {
  import opened Net
  import opened Frame
  import opened RelayState
  import opened Relay
  import opened RelayCount
  import opened RelayInvariant
  import opened RelayRuns
  import opened RelayCounting
  import opened RelayScenarios
  import opened RelayDeadline
  import opened RelaySockets

  // The channel is full and its receiver is busy writing to the client.
  predicate Blocked(s: Sys, i: nat) {
    In(s, i) && s.tasks[i].phase.Notifying? &&
    var reg := s.tasks[i].phase.reg;
    Receiving(s, reg) && |s.tasks[reg].phase.queue| == CAPACITY && !s.tasks[reg].phase.out.Idle?
  }

  lemma QueueFits(s: Sys, reg: nat)
    requires Structure(s) && Receiving(s, reg)
    ensures |s.tasks[reg].phase.queue| <= CAPACITY
  {
    assert TaskOk(s, reg);
  }

  lemma BlockedOrNot(s: Sys, i: nat)
    requires In(s, i) && s.tasks[i].phase.Notifying?
    requires var reg := s.tasks[i].phase.reg; Receiving(s, reg) ==> |s.tasks[reg].phase.queue| <= CAPACITY
    ensures Blocked(s, i) <==>
      !Enabled(s, Send(i)) && !Enabled(s, SendFail(i)) && !Enabled(s, Recv(s.tasks[i].phase.reg))
  {
  }

  // Exactly then the relay can do nothing for the sender by itself.
  lemma WhenBlocked(s: Sys, i: nat)
    requires Reachable(s) && In(s, i) && s.tasks[i].phase.Notifying?
    ensures Blocked(s, i) <==>
      !Enabled(s, Send(i)) && !Enabled(s, SendFail(i)) && !Enabled(s, Recv(s.tasks[i].phase.reg))
  {
    InvReachable(s);
    if Receiving(s, s.tasks[i].phase.reg) { QueueFits(s, s.tasks[i].phase.reg); }
    BlockedOrNot(s, i);
  }

  // The steps that end the wait: the client reads up to the end of what is being
  // written, or its connection ends, or the shutdown cancels either task.
  predicate Unblocks(s: Sys, e: Event, i: nat)
    requires Blocked(s, i)
  {
    var reg := s.tasks[i].phase.reg;
    e == SendAllClear(reg) || e == ControlEnd(reg) || e == Cancel(reg) || e == Cancel(i) ||
    (e.Write? && e.i == reg && s.tasks[reg].phase.out.Writing? &&
     s.tasks[reg].phase.out.done + e.count == FRAME_SIZE)
  }

  lemma UnblockedBy(s: Sys, e: Event, i: nat)
    requires Enabled(s, e) && Blocked(s, i) && Unblocks(s, e, i)
    ensures !Blocked(Apply(s, e), i)
  {
    StepShaped(s, e);
  }

  lemma KeptByDrive(s: Sys, e: Event, i: nat)
    requires Enabled(s, e) && Blocked(s, i) && !Unblocks(s, e, i) && Drives(e)
    ensures Blocked(Apply(s, e), i)
  {
    StepShaped(s, e);
  }

  lemma KeptByExit(s: Sys, e: Event, i: nat)
    requires Enabled(s, e) && Blocked(s, i) && !Unblocks(s, e, i) && Exits(e)
    ensures Blocked(Apply(s, e), i)
  {
    StepShaped(s, e);
  }

  lemma KeptByOther(s: Sys, e: Event, i: nat)
    requires Enabled(s, e) && Blocked(s, i) && !Drives(e) && !Exits(e)
    ensures Blocked(Apply(s, e), i)
  {
    StepShaped(s, e);
  }

  // A blocked sender is blocked after a step if and only if the step is none of
  // those; in particular no timer unblocks it.
  lemma BlockedStep(s: Sys, e: Event, i: nat)
    requires Enabled(s, e) && Blocked(s, i)
    ensures Blocked(Apply(s, e), i) <==> !Unblocks(s, e, i)
  {
    if Unblocks(s, e, i) {
      UnblockedBy(s, e, i);
    } else if Drives(e) {
      KeptByDrive(s, e, i);
    } else if Exits(e) {
      KeptByExit(s, e, i);
    } else {
      KeptByOther(s, e, i);
    }
  }

  ghost predicate NeverUnblocks(s: Sys, es: seq<Event>, i: nat)
    requires Legal(s, es)
    decreases |es|
  {
    es == [] ||
    ((Blocked(s, i) ==> !Unblocks(s, es[0], i)) && NeverUnblocks(Apply(s, es[0]), es[1..], i))
  }

  // It keeps its inbound permit for as long as that takes, past any deadline.
  lemma {:induction false} BlockedStays(s: Sys, es: seq<Event>, i: nat)
    requires Legal(s, es) && Blocked(s, i) && NeverUnblocks(s, es, i)
    ensures Blocked(Exec(s, es), i)
    decreases |es|
  {
    if es != [] {
      BlockedStep(s, es[0], i);
      BlockedStays(Apply(s, es[0]), es[1..], i);
    }
  }

  // --- A client that does not read can use up the inbound limit ---

  ghost predicate RanOnTime(start: Sys, es: seq<Event>, s: Sys) {
    Legal(start, es) && PunctualRun(start, es) && Exec(start, es) == s
  }

  lemma {:induction false} ExtendPunctual(s: Sys, es: seq<Event>, e: Event)
    requires Legal(s, es) && PunctualRun(s, es) && Enabled(Exec(s, es), e) && Punctual(Exec(s, es), e)
    ensures Legal(s, es + [e]) && PunctualRun(s, es + [e])
    decreases |es|
  {
    Extend(s, es, e);
    if es == [] {
      assert ([e])[1..] == [] && es + [e] == [e];
    } else {
      ExtendPunctual(Apply(s, es[0]), es[1..], e);
      assert (es + [e])[1..] == es[1..] + [e];
    }
  }

  lemma ThenOnTime(start: Sys, es: seq<Event>, s: Sys, e: Event) returns (es': seq<Event>, s': Sys)
    requires RanOnTime(start, es, s) && Enabled(s, e) && Punctual(s, e)
    ensures s' == Apply(s, e) && RanOnTime(start, es', s')
  {
    Extend(start, es, e);
    ExtendPunctual(start, es, e);
    es', s' := es + [e], Apply(s, e);
  }

  // Client `c` is registered with stream `r` and a free relay permit; no socket
  // waits and no timer runs.
  ghost predicate Calm(s: Sys, c: Tx3Id, r: nat) {
    c in s.sh.controls && s.sh.controls[c] == r && c != s.cfg.relayCert && Receiving(s, r) &&
    Permits(s.sh.limits, r) > 0 && s.sh.pending == map[] && s.reapers == map[] && !s.term &&
    forall i: nat :: In(s, i) ==> !Timed(s.tasks[i].phase)
  }

  // A peer has been accepted and has asked for `c`.
  function Asked(s: Sys, c: Tx3Id, r: nat, addr: SocketAddr, t: Tx3Id): Sys
    requires s.inbound > 0 && Permits(s.sh.limits, r) > 0
  {
    var i := |s.tasks|;
    s.(inbound := s.inbound - 1,
       tasks := s.tasks + [Task(addr, s.now, Some(c), Some(t), Notifying(t, r))],
       sh := s.sh.(pending := map[t := PendingInfo(i, r)], limits := s.sh.limits[r := s.sh.limits[r] - 1]),
       reapers := map[t := s.now + s.cfg.timeout],
       h := s.h.(issued := s.h.issued[t := Issue(i, c, r)]))
  }

  lemma AskOnTime(start: Sys, es: seq<Event>, s: Sys, c: Tx3Id, r: nat, addr: SocketAddr, t: Tx3Id)
    returns (es': seq<Event>)
    requires RanOnTime(start, es, s) && Calm(s, c, r) && s.inbound > 0 && Fresh(s, t)
    ensures RanOnTime(start, es', Asked(s, c, r, addr, t))
  {
    var i, s1, s2 := |s.tasks|, s, s;
    es', s1 := ThenOnTime(start, es, s, Accept(addr, true));
    PresentResult(s1, Present(i, c, t));
    assert Offers(s1, Present(i, c, t));
    es', s2 := ThenOnTime(start, es', s1, Present(i, c, t));
    assert s2.tasks == s.tasks + [Task(addr, s.now, Some(c), Some(t), Notifying(t, r))];
    assert s2 == Asked(s, c, r, addr, t);
  }

  // The token's time runs out and its reaper gives the relay permit back.
  lemma ExpireOnTime(start: Sys, es: seq<Event>, s: Sys, t: Tx3Id, info: PendingInfo)
    returns (es': seq<Event>, s': Sys)
    requires RanOnTime(start, es, s) && s.sh.pending == map[t := info]
    requires s.reapers == map[t := s.now + s.cfg.timeout]
    requires forall i: nat :: In(s, i) ==> !Timed(s.tasks[i].phase)
    ensures RanOnTime(start, es', s')
    ensures s' == s.(now := s.now + s.cfg.timeout, reapers := map[],
                     sh := s.sh.(pending := map[], limits := Release(s.sh.limits, info.reg)),
                     h := s.h.(reaped := s.h.reaped + {t}))
  {
    var s1 := s;
    es', s1 := ThenOnTime(start, es, s, Tick(s.cfg.timeout));
    es', s' := ThenOnTime(start, es', s1, Reap(t));
    assert s'.sh.pending == map[] && s'.reapers == map[];
  }

  // One peer more: its notice finds the channel full and its time runs out.
  lemma BlockOne(start: Sys, es: seq<Event>, s: Sys, c: Tx3Id, r: nat, addr: SocketAddr, t: Tx3Id)
    returns (es': seq<Event>, s': Sys)
    requires RanOnTime(start, es, s) && Calm(s, c, r) && s.inbound > 0 && Fresh(s, t)
    ensures RanOnTime(start, es', s') && Calm(s', c, r)
    ensures s'.cfg == s.cfg && s'.inbound == s.inbound - 1 && s'.now == s.now + s.cfg.timeout
    ensures s'.h.certs == s.h.certs && s'.h.issued.Keys == s.h.issued.Keys + {t}
    ensures s'.tasks == s.tasks + [Task(addr, s.now, Some(c), Some(t), Notifying(t, r))]
  {
    var s1 := Asked(s, c, r, addr, t);
    es' := AskOnTime(start, es, s, c, r, addr, t);
    es', s' := ExpireOnTime(start, es', s1, t, PendingInfo(|s.tasks|, r));
  }

  // One peer whose notice goes into the empty channel.
  lemma PassBy(start: Sys, es: seq<Event>, s: Sys, c: Tx3Id, r: nat, addr: SocketAddr, t: Tx3Id)
    returns (es': seq<Event>, s': Sys)
    requires RanOnTime(start, es, s) && Calm(s, c, r) && s.inbound > 0 && Fresh(s, t)
    requires s.tasks[r].phase.queue == []
    ensures RanOnTime(start, es', s') && Calm(s', c, r)
    ensures s'.cfg == s.cfg && s'.inbound == s.inbound && |s'.tasks| == |s.tasks| + 1
    ensures s'.h.certs == s.h.certs && s'.h.issued.Keys == s.h.issued.Keys + {t}
    ensures s'.tasks[r].phase == s.tasks[r].phase.(queue := [Notice(t, addr)])
  {
    var i, s1, s2 := |s.tasks|, Asked(s, c, r, addr, t), s;
    es' := AskOnTime(start, es, s, c, r, addr, t);
    es', s2 := ThenOnTime(start, es', s1, Send(i));
    es', s' := ExpireOnTime(start, es', s2, t, PendingInfo(i, r));
  }

  predicate Distinct(tokens: seq<Tx3Id>) {
    forall a, b :: 0 <= a < b < |tokens| ==> tokens[a] != tokens[b]
  }

  ghost predicate AllFresh(s: Sys, tokens: seq<Tx3Id>) {
    Distinct(tokens) && forall k :: 0 <= k < |tokens| ==> Fresh(s, tokens[k])
  }

  predicate Stalled(s: Sys, r: nat) {
    Receiving(s, r) && |s.tasks[r].phase.queue| == CAPACITY && !s.tasks[r].phase.out.Idle?
  }

  // From any such state: as many peers as there are inbound permits, and all of
  // them are blocked when all of their times have run out.
  lemma {:induction false} Exhaust(start: Sys, es: seq<Event>, s: Sys, c: Tx3Id, r: nat,
                                   addrs: seq<SocketAddr>, tokens: seq<Tx3Id>)
    returns (es': seq<Event>, s': Sys)
    requires RanOnTime(start, es, s) && Calm(s, c, r) && Stalled(s, r)
    requires |addrs| == |tokens| == s.inbound && AllFresh(s, tokens)
    ensures RanOnTime(start, es', s') && Calm(s', c, r) && Stalled(s', r)
    ensures s'.cfg == s.cfg && s'.inbound == 0 && |s'.tasks| == |s.tasks| + |tokens| && s.now <= s'.now
    ensures forall j: nat :: j < |s.tasks| ==> s'.tasks[j] == s.tasks[j]
    ensures forall j: nat :: |s.tasks| <= j < |s'.tasks| ==> Blocked(s', j) && Deadline(s', j) <= s'.now
    decreases |tokens|
  {
    es', s' := es, s;
    if tokens != [] {
      var s1 := s;
      es', s1 := BlockOne(start, es, s, c, r, addrs[0], tokens[0]);
      assert Blocked(s1, |s.tasks|) && Deadline(s1, |s.tasks|) <= s1.now;
      es', s' := Exhaust(start, es', s1, c, r, addrs[1..], tokens[1..]);
      assert Blocked(s', |s.tasks|);
    }
  }

  lemma OpenOnTime(cfg: Config, addr: SocketAddr, c: Tx3Id, splice: Tx3Id) returns (es: seq<Event>)
    requires CanExceed(cfg) && splice != c && c != cfg.relayCert && splice != cfg.relayCert
    ensures RanOnTime(Init(cfg), es, Opened(Init(cfg), addr, c))
  {
    var s0, s := Init(cfg), Init(cfg);
    es, s := ThenOnTime(s0, [], s0, Accept(addr, true));
    es, s := ThenOnTime(s0, es, s, Present(0, cfg.relayCert, splice));
    es, s := ThenOnTime(s0, es, s, HandshakeDone(0, c));
  }

  // A client registers, is sent one frame that it does not read, and a second
  // notice waits in its channel.
  lemma StalledClient(cfg: Config, addrs: seq<SocketAddr>, c: Tx3Id, tokens: seq<Tx3Id>)
    returns (es: seq<Event>, s: Sys)
    requires CanExceed(cfg) && |addrs| == 3 && |tokens| == 2 && tokens[0] != tokens[1]
    requires {c, tokens[0], tokens[1]} !! {cfg.relayCert} && c !in tokens
    ensures RanOnTime(Init(cfg), es, s) && Calm(s, c, 0) && Stalled(s, 0)
    ensures s.cfg == cfg && s.inbound == cfg.maxInbound - 1 && |s.tasks| == 3
    ensures s.h.certs == {c} && s.h.issued.Keys == {tokens[0], tokens[1]}
  {
    var s0 := Init(cfg);
    es := OpenOnTime(cfg, addrs[0], c, tokens[0]);
    s := Opened(s0, addrs[0], c);
    es, s := ThenOnTime(s0, es, s, SendAllClear(0));
    es, s := PassBy(s0, es, s, c, 0, addrs[1], tokens[0]);
    var n := s.tasks[0].phase.queue[0];
    es, s := TakeOnTime(s0, es, s, c, 0);
    es, s := PassBy(s0, es, s, c, 0, addrs[2], tokens[1]);
  }

  lemma TakeOnTime(start: Sys, es: seq<Event>, s: Sys, c: Tx3Id, r: nat) returns (es': seq<Event>, s': Sys)
    requires RanOnTime(start, es, s) && Calm(s, c, r)
    requires s.tasks[r].phase.out.Idle? && |s.tasks[r].phase.queue| == 1
    ensures RanOnTime(start, es', s') && Calm(s', c, r) && s'.cfg == s.cfg
    ensures s'.inbound == s.inbound && s'.h == s.h && |s'.tasks| == |s.tasks|
    ensures s'.tasks[r].phase.queue == [] && s'.tasks[r].phase.out.Writing?
  {
    es', s' := ThenOnTime(start, es, s, Recv(r));
  }

  // Hence, under any limits that let a peer wait at all: no socket waits and no
  // timer runs, all but three tasks are past their deadlines, and yet they hold
  // every inbound permit but the client's own.
  lemma InboundExhausted(cfg: Config, addrs: seq<SocketAddr>, c: Tx3Id, tokens: seq<Tx3Id>)
    returns (es: seq<Event>, s: Sys)
    requires CanExceed(cfg) && |addrs| == cfg.maxInbound + 2 && |tokens| == cfg.maxInbound + 1
    requires Distinct(tokens) && c !in tokens && c != cfg.relayCert && cfg.relayCert !in tokens
    ensures RanOnTime(Init(cfg), es, s) && s.cfg == cfg && !s.term
    ensures s.inbound == 0 && s.sh.pending == map[] && s.reapers == map[] && |s.tasks| == cfg.maxInbound + 2
    ensures forall j: nat :: 3 <= j < |s.tasks| ==> Blocked(s, j) && Deadline(s, j) <= s.now
  {
    var before;
    es, before := StalledClient(cfg, addrs[..3], c, tokens[..2]);
    es, s := Exhaust(Init(cfg), es, before, c, 0, addrs[3..], tokens[2..]);
  }

  // There are tokens enough for any 32-bit limit.
  function TokenOf(k: nat, mark: Byte): Tx3Id {
    Tx3Id([k / 256 / 256 / 256 % 256, k / 256 / 256 % 256, k / 256 % 256, k % 256, mark] + seq(27, _ => 0))
  }

  lemma SameDigits(j: nat, k: nat)
    requires j / 256 == k / 256 && j % 256 == k % 256
    ensures j == k
  {
  }

  lemma TokensDiffer(j: nat, k: nat, mark: Byte)
    requires j < 0x1_0000_0000 && k < 0x1_0000_0000 && TokenOf(j, mark) == TokenOf(k, mark)
    ensures j == k
  {
    var a, b := TokenOf(j, mark).bytes, TokenOf(k, mark).bytes;
    assert a[0] == b[0] && a[1] == b[1] && a[2] == b[2] && a[3] == b[3];
    SameDigits(j / 256 / 256, k / 256 / 256);
    SameDigits(j / 256, k / 256);
    SameDigits(j, k);
  }

  lemma Tokens(n: nat, x: Tx3Id, y: Tx3Id) returns (tokens: seq<Tx3Id>)
    requires n <= 0x1_0000_0000
    ensures |tokens| == n && Distinct(tokens) && x !in tokens && y !in tokens
  {
    var p, q := x.bytes[4], y.bytes[4];
    var mark: Byte := if p != 0 && q != 0 then 0 else if p != 1 && q != 1 then 1 else 2;
    tokens := seq(n, k requires 0 <= k => TokenOf(k, mark));
    forall a, b | 0 <= a < b < n ensures tokens[a] != tokens[b] {
      if tokens[a] == tokens[b] { TokensDiffer(a, b, mark); }
    }
    forall k | 0 <= k < n ensures tokens[k] != x && tokens[k] != y {
      assert tokens[k].bytes[4] == mark;
    }
  }

  // For every 32-bit configuration that lets a peer wait there is such a run.
  lemma InboundExhaustible(cfg: Config) returns (es: seq<Event>, s: Sys)
    requires CanExceed(cfg) && cfg.maxInbound < 0x1_0000_0000
    ensures RanOnTime(Init(cfg), es, s) && s.cfg == cfg && !s.term
    ensures s.inbound == 0 && s.sh.pending == map[] && s.reapers == map[]
    ensures forall j: nat :: 3 <= j < |s.tasks| ==> Blocked(s, j) && Deadline(s, j) <= s.now
  {
    var c, _ := TwoIds(cfg.relayCert);
    var tokens := Tokens(cfg.maxInbound + 1, c, cfg.relayCert);
    es, s := InboundExhausted(cfg, seq(cfg.maxInbound + 2, k requires 0 <= k => AddrOf(k)), c, tokens);
  }

  // A sender past its deadline, with a clock that keeps its timers.
  ghost predicate Overstays(s: Sys, i: nat) {
    !s.term && Blocked(s, i) && Deadline(s, i) <= s.now
  }

  lemma OverstayNeeds(cfg: Config, es: seq<Event>, s: Sys, i: nat)
    requires RanOnTime(Init(cfg), es, s) && Overstays(s, i)
    ensures CanExceed(cfg)
  {
    InvInit(cfg);
    InvRun(Init(cfg), es);
    assert TaskOk(s, i);
    if !CanExceed(cfg) {
      NeverIssued(Init(cfg), es);
    }
  }

  lemma OverstayHappens(cfg: Config) returns (es: seq<Event>, s: Sys)
    requires CanExceed(cfg)
    ensures RanOnTime(Init(cfg), es, s) && Overstays(s, 3)
  {
    var ids := Tokens(4, cfg.relayCert, cfg.relayCert);
    var before;
    es, before := StalledClient(cfg, [AddrOf(0), AddrOf(1), AddrOf(2)], ids[0], ids[1..3]);
    es, s := BlockOne(Init(cfg), es, before, ids[0], 0, AddrOf(3), ids[3]);
  }

  // Before shutdown a sender can outlast its deadline if and only if a peer can
  // come to wait at all.
  lemma OverstayPossible(cfg: Config)
    ensures (exists es, s, i :: RanOnTime(Init(cfg), es, s) && Overstays(s, i)) <==> CanExceed(cfg)
  {
    forall es, s, i | RanOnTime(Init(cfg), es, s) && Overstays(s, i) ensures CanExceed(cfg) {
      OverstayNeeds(cfg, es, s, i);
    }
    if CanExceed(cfg) {
      var es, s := OverstayHappens(cfg);
    }
  }
}
