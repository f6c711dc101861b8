// What holds in every reachable state of the relay.
module RelayInvariant {
  import opened Net
  import opened Frame
  import opened ControlStream
  import opened RelayState
  import opened Relay
  import opened RelayCount

  // --- Counting ---

  ghost predicate ServerPermits(s: Sys) {
    s.inbound + Total(Inbound, s.tasks) == s.cfg.maxInbound &&
    s.control + Total(ControlPermit, s.tasks) == s.cfg.maxControl
  }

  ghost function PendingTo(pending: map<Tx3Id, PendingInfo>, reg: nat): set<Tx3Id> {
    set t | t in pending && pending[t].reg == reg
  }

  // What is free, pending and in use of one relay semaphore.
  ghost function RelayAccount(s: Sys, reg: nat): nat {
    Permits(s.sh.limits, reg) + |PendingTo(s.sh.pending, reg)| + Total(RelayPermit(reg), s.tasks)
  }

  ghost predicate RelayPermits(s: Sys) {
    forall r :: r in s.sh.limits ==> RelayAccount(s, r) == s.cfg.maxRelays
  }

  ghost predicate IpCounts(s: Sys) {
    forall ip ::
      IpCount(s.sh.addrs, ip) == Total(FromIp(ip), s.tasks) &&
      IpCount(s.sh.addrs, ip) <= s.cfg.maxPerIp &&
      (ip in s.sh.addrs ==> s.sh.addrs[ip] > 0 || s.cfg.maxPerIp == 0)
  }

  // The sum of the per-address counts.
  ghost function SumCounts(addrs: map<IpAddr, nat>): nat
    decreases addrs.Keys
  {
    if addrs == map[] then 0
    else
      var ip :| ip in addrs;
      addrs[ip] + SumCounts(addrs - {ip})
  }

  ghost predicate Counting(s: Sys) {
    ServerPermits(s) && RelayPermits(s) && IpCounts(s) &&
    SumCounts(s.sh.addrs) == Total(Registered, s.tasks)
  }

  // --- Structure ---

  // `n` was queued on the channel of `reg` by the task of the socket that waits.
  ghost predicate NoticeOk(s: Sys, n: Notice, reg: nat) {
    n.token in s.h.issued && s.h.issued[n.token].reg == reg && In(s, s.h.issued[n.token].sock) &&
    s.tasks[s.h.issued[n.token].sock].addr == n.addr
  }

  ghost predicate NoticesOk(s: Sys, ns: seq<Notice>, reg: nat) {
    forall k :: 0 <= k < |ns| ==> NoticeOk(s, ns[k], reg)
  }

  ghost predicate IsRegistration(s: Sys, r: nat, cert: Tx3Id) {
    r in s.h.logs && s.h.logs[r].cert == cert && r in s.sh.limits
  }

  // How the bytes written so far relate to the notices sent.
  ghost predicate WireOk(out: Output, log: Log) {
    match out
    case AllClear => log.sent == [] && log.wire == []
    case Idle => log.wire == [0] + EncodeAll(log.sent)
    case Writing(n, done) =>
      done < FRAME_SIZE && log.wire == [0] + EncodeAll(log.sent) + EncodeFrame(n)[..done]
  }

  ghost predicate TaskOk(s: Sys, i: nat)
    requires In(s, i)
  {
    var t := s.tasks[i];
    (t.token.Some? ==> t.token.value in s.h.issued && s.h.issued[t.token.value].sock == i) &&
    match t.phase
    case Reading => i !in s.h.logs && t.presented.None? && t.token.None?
    case Handshake => i !in s.h.logs && t.token.None?
    case Control(cert, out, queue) =>
      t.token.None? && IsRegistration(s, i, cert) && WireOk(out, s.h.logs[i]) &&
      (out.Writing? ==> NoticeOk(s, out.notice, i)) && |queue| <= CAPACITY && NoticesOk(s, queue, i)
    case Ending(cert) => t.token.None? && IsRegistration(s, i, cert)
    case Leaked(cert) => t.token.None? && IsRegistration(s, i, cert) && s.term
    case Notifying(token, reg) => t.token == Some(token) && s.h.issued[token].reg == reg
    case Splicing(token, peer, reg) =>
      t.token.None? && token in s.h.spliced && s.h.spliced[token].joiner == i &&
      token in s.h.issued && s.h.issued[token].sock == peer && s.h.issued[token].reg == reg
    case Done => true
  }

  ghost predicate TasksOk(s: Sys) {
    forall i: nat :: In(s, i) ==> TaskOk(s, i)
  }

  ghost predicate LogOk(s: Sys, r: nat)
    requires r in s.h.logs
  {
    var log := s.h.logs[r];
    In(s, r) && log.cert in s.h.certs && NoticesOk(s, log.sent, r) &&
    (log.wire == [] ==> log.sent == []) &&
    (log.wire != [] ==>
      [0] + EncodeAll(log.sent) <= log.wire && |log.wire| < 1 + FRAME_SIZE * |log.sent| + FRAME_SIZE)
  }

  ghost predicate LogsOk(s: Sys) {
    s.h.logs.Keys == s.sh.limits.Keys && forall r :: r in s.h.logs ==> LogOk(s, r)
  }

  ghost predicate ControlsOk(s: Sys) {
    forall c :: c in s.sh.controls ==>
      In(s, s.sh.controls[c]) &&
      IsRegistered(s.tasks[s.sh.controls[c]].phase) && s.tasks[s.sh.controls[c]].phase.cert == c
  }

  // The socket that waits under `t`, and what it asked for.
  ghost predicate IssueOk(s: Sys, t: Tx3Id)
    requires t in s.h.issued
  {
    var Issue(sock, cert, reg) := s.h.issued[t];
    t !in s.h.certs && t != s.cfg.relayCert &&
    IsRegistration(s, reg, cert) && In(s, sock) &&
    s.tasks[sock].token == Some(t) && s.tasks[sock].presented == Some(cert) &&
    (s.tasks[sock].phase == Notifying(t, reg) || s.tasks[sock].phase == Done)
  }

  // What has become of `t`: it is pending, or it was spliced, or it was reaped.
  ghost predicate FateOk(s: Sys, t: Tx3Id)
    requires t in s.h.issued
  {
    var Issue(sock, cert, reg) := s.h.issued[t];
    (t in s.sh.pending ==>
      s.sh.pending[t] == PendingInfo(sock, reg) && t in s.reapers &&
      t !in s.h.spliced && t !in s.h.reaped) &&
    (t in s.h.spliced ==> t !in s.h.reaped) &&
    (t in s.sh.pending || t in s.h.spliced || t in s.h.reaped)
  }

  ghost predicate SpliceOk(s: Sys, t: Tx3Id)
    requires t in s.h.issued && t in s.h.spliced
  {
    var Issue(sock, _, reg) := s.h.issued[t];
    var joiner := s.h.spliced[t].joiner;
    In(s, joiner) && s.tasks[joiner].presented == Some(t) && s.tasks[joiner].token.None? &&
    (s.tasks[joiner].phase == Splicing(t, sock, reg) || s.tasks[joiner].phase == Done)
  }

  ghost predicate IssuesOk(s: Sys) {
    forall t :: t in s.h.issued ==> IssueOk(s, t)
  }

  ghost predicate FatesOk(s: Sys) {
    s.sh.pending.Keys <= s.h.issued.Keys &&
    s.h.spliced.Keys <= s.h.issued.Keys && s.h.reaped <= s.h.issued.Keys &&
    (forall t :: t in s.h.issued ==> FateOk(s, t)) &&
    (forall t :: t in s.h.spliced ==> SpliceOk(s, t))
  }

  ghost predicate ReapersOk(s: Sys) {
    forall t :: t in s.reapers ==>
      t in s.h.issued && In(s, s.h.issued[t].sock) && s.reapers[t] == Deadline(s, s.h.issued[t].sock)
  }

  ghost predicate Structure(s: Sys) {
    TasksOk(s) && LogsOk(s) && ControlsOk(s) && IssuesOk(s) && FatesOk(s) && ReapersOk(s)
  }

  ghost predicate Inv(s: Sys) {
    Structure(s) && Counting(s)
  }
}
