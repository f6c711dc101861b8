// The structural invariants are kept by every step.
module RelayStructure {
  import opened Net
  import opened Frame
  import opened ControlStream
  import opened RelayState
  import opened Relay
  import opened RelayCount
  import opened RelayInvariant
  import opened RelayFrame

  lemma StructureGrows(s: Sys, e: Event)
    requires Structure(s) && Enabled(s, e)
    ensures Grows(s, Apply(s, e))
  {
    StructureAppends(s, e);
    StepMoves(s, e);
    StepGrows(s, e);
  }

  // --- Which parts a step can change at all ---

  ghost predicate SameHistory(s: Sys, s': Sys) {
    s'.h == s.h && s'.reapers == s.reapers && s'.sh.pending == s.sh.pending
  }

  lemma QuietKeeps(s: Sys, e: Event)
    requires Enabled(s, e) && Quiet(e)
    ensures var s' := Apply(s, e);
      s'.h.logs == s.h.logs && s'.h.certs == s.h.certs && s'.h.issued == s.h.issued &&
      s'.h.spliced == s.h.spliced && s'.sh.controls == s.sh.controls && s'.sh.addrs == s.sh.addrs &&
      (!e.Reap? ==> s'.h == s.h && s'.sh == s.sh && s'.reapers == s.reapers)
  {
  }

  lemma ExitKeeps(s: Sys, e: Event)
    requires Enabled(s, e) && Exits(e)
    ensures var s' := Apply(s, e);
      SameHistory(s, s') &&
      (!e.Cleanup? ==> s'.sh.controls == s.sh.controls && s'.sh.addrs == s.sh.addrs) &&
      (s.tasks[e.i].phase.Splicing? || s'.sh.limits == s.sh.limits)
  {
  }

  lemma DriveKeeps(s: Sys, e: Event)
    requires Enabled(s, e) && Drives(e)
    ensures var s' := Apply(s, e);
      s'.sh == s.sh && s'.reapers == s.reapers && s'.inbound == s.inbound && s'.control == s.control &&
      s'.h == s.h.(logs := s'.h.logs) && forall r :: r != e.i ==> SameLog(s, s', r)
  {
  }

  lemma SendKeeps(s: Sys, e: Event)
    requires Enabled(s, e) && e.Send?
    ensures var s' := Apply(s, e);
      SameHistory(s, s') && s'.sh == s.sh
  {
  }

  lemma PresentKeeps(s: Sys, e: Event)
    requires Enabled(s, e) && e.Present? && e.splice !in s.sh.pending
    ensures var s' := Apply(s, e);
      s'.h.logs == s.h.logs && s'.h.certs == s.h.certs && s'.h.reaped == s.h.reaped &&
      s'.sh.controls == s.sh.controls && s'.sh.addrs == s.sh.addrs
  {
    PresentResult(s, e);
  }

  lemma HandshakeKeeps(s: Sys, e: Event)
    requires Enabled(s, e) && e.HandshakeDone?
    ensures var s' := Apply(s, e);
      SameHistory(s.(h := s'.h), s') && s'.h == s.h.(logs := s'.h.logs, certs := s'.h.certs) &&
      s'.h.certs <= s.h.certs + {e.cert} && forall r :: r != e.i ==> SameLog(s, s', r)
  {
  }

  lemma StepLogs(s: Sys, e: Event)
    requires Enabled(s, e) && s.sh.pending.Keys <= s.h.issued.Keys
    ensures forall r :: r != Actor(e) || Quiet(e) || e.Send? || e.Present? || Exits(e) ==> SameLog(s, Apply(s, e), r)
  {
    if Quiet(e) {
      QuietKeeps(s, e);
    } else if Exits(e) {
      ExitKeeps(s, e);
    } else if Drives(e) {
      DriveKeeps(s, e);
    } else if e.Send? {
      SendKeeps(s, e);
    } else if e.Present? {
      PresentKeeps(s, e);
    } else {
      HandshakeKeeps(s, e);
    }
  }

  // --- The task a step is about ---

  lemma ExitActor(s: Sys, e: Event)
    requires Structure(s) && Enabled(s, e) && Exits(e)
    ensures In(Apply(s, e), e.i) && TaskOk(Apply(s, e), e.i)
  {
    assert TaskOk(s, e.i);
  }

  lemma DriveActor(s: Sys, e: Event)
    requires Enabled(s, e) && Drives(e) && !e.Write?
    requires TaskOk(s, e.i) && NoticesOk(Apply(s, e), s.tasks[e.i].phase.queue, e.i)
    ensures In(Apply(s, e), e.i) && TaskOk(Apply(s, e), e.i)
  {
  }

  lemma AppendSlice(base: seq<Byte>, frame: seq<Byte>, done: nat, count: nat)
    requires done + count <= |frame|
    ensures base + frame[..done] + frame[done..done + count] == base + frame[..done + count]
  {
  }

  lemma AppendFrame(head: seq<Byte>, sent: seq<Notice>, n: Notice)
    ensures head + EncodeAll(sent) + EncodeFrame(n) == head + EncodeAll(sent + [n])
  {
    assert (sent + [n])[..|sent|] == sent;
  }

  lemma EmitStepOk(out: Output, log: Log, count: nat)
    requires out.Writing? && out.done + count <= FRAME_SIZE && WireOk(out, log)
    ensures WireOk(EmitStep(out, log, count).0, EmitStep(out, log, count).1)
  {
    AppendSlice([0] + EncodeAll(log.sent), EncodeFrame(out.notice), out.done, count);
    if out.done + count == FRAME_SIZE {
      assert EncodeFrame(out.notice)[..FRAME_SIZE] == EncodeFrame(out.notice);
      AppendFrame([0], log.sent, out.notice);
    }
  }

  lemma WriteActor(s: Sys, e: Event)
    requires Enabled(s, e) && e.Write?
    requires TaskOk(s, e.i) && NoticesOk(Apply(s, e), s.tasks[e.i].phase.queue, e.i)
    requires NoticeOk(Apply(s, e), s.tasks[e.i].phase.out.notice, e.i)
    ensures In(Apply(s, e), e.i) && TaskOk(Apply(s, e), e.i)
  {
    EmitStepOk(s.tasks[e.i].phase.out, s.h.logs[e.i], e.count);
  }

  lemma SendActor(s: Sys, e: Event)
    requires Enabled(s, e) && e.Send?
    requires TaskOk(s, e.i) && TaskOk(s, s.tasks[e.i].phase.reg) && s.tasks[e.i].token.Some?
    requires var s' := Apply(s, e); var reg := s.tasks[e.i].phase.reg;
      NoticesOk(s', s.tasks[reg].phase.queue, reg) &&
      NoticeOk(s', Notice(s.tasks[e.i].phase.token, s.tasks[e.i].addr), reg)
    ensures In(Apply(s, e), e.i) && TaskOk(Apply(s, e), e.i)
    ensures In(Apply(s, e), s.tasks[e.i].phase.reg) && TaskOk(Apply(s, e), s.tasks[e.i].phase.reg)
  {
  }

  lemma PresentActor(s: Sys, e: Event)
    requires Enabled(s, e) && e.Present? && e.splice !in s.sh.pending && TaskOk(s, e.i)
    requires e.presented in s.sh.pending ==>
      e.presented in s.h.issued &&
      s.sh.pending[e.presented] == PendingInfo(s.h.issued[e.presented].sock, s.h.issued[e.presented].reg)
    ensures In(Apply(s, e), e.i) && TaskOk(Apply(s, e), e.i)
  {
    PresentResult(s, e);
  }

  lemma HandshakeActor(s: Sys, e: Event)
    requires Enabled(s, e) && e.HandshakeDone? && TaskOk(s, e.i)
    ensures In(Apply(s, e), e.i) && TaskOk(Apply(s, e), e.i)
  {
  }

  lemma DriveActorOk(s: Sys, e: Event)
    requires Structure(s) && Enabled(s, e) && Drives(e) && Grows(s, Apply(s, e))
    ensures In(Apply(s, e), e.i) && TaskOk(Apply(s, e), e.i)
  {
    assert TaskOk(s, e.i);
    NoticesFrame(s, Apply(s, e), s.tasks[e.i].phase.queue, e.i);
    if e.Write? {
      WriteActor(s, e);
    } else {
      DriveActor(s, e);
    }
  }

  lemma SendActorOk(s: Sys, e: Event)
    requires Structure(s) && Enabled(s, e) && e.Send? && Grows(s, Apply(s, e))
    ensures In(Apply(s, e), e.i) && TaskOk(Apply(s, e), e.i)
    ensures In(Apply(s, e), s.tasks[e.i].phase.reg) && TaskOk(Apply(s, e), s.tasks[e.i].phase.reg)
  {
    var reg := s.tasks[e.i].phase.reg;
    assert TaskOk(s, e.i);
    assert TaskOk(s, reg);
    NoticesFrame(s, Apply(s, e), s.tasks[reg].phase.queue, reg);
    SendActor(s, e);
  }

  lemma PresentActorOk(s: Sys, e: Event)
    requires Structure(s) && Enabled(s, e) && e.Present?
    ensures In(Apply(s, e), e.i) && TaskOk(Apply(s, e), e.i)
  {
    assert TaskOk(s, e.i);
    if e.presented in s.sh.pending { assert FateOk(s, e.presented); }
    PresentActor(s, e);
  }

  lemma ActorsOk(s: Sys, e: Event)
    requires Structure(s) && Enabled(s, e) && Grows(s, Apply(s, e)) && !Quiet(e)
    ensures In(Apply(s, e), Actor(e)) && TaskOk(Apply(s, e), Actor(e))
    ensures e.Send? ==>
      In(Apply(s, e), s.tasks[e.i].phase.reg) && TaskOk(Apply(s, e), s.tasks[e.i].phase.reg)
  {
    if Exits(e) {
      ExitActor(s, e);
    } else if Drives(e) {
      DriveActorOk(s, e);
    } else if e.Send? {
      SendActorOk(s, e);
    } else if e.Present? {
      PresentActorOk(s, e);
    } else {
      assert TaskOk(s, e.i);
      HandshakeActor(s, e);
    }
  }

  lemma TasksStep(s: Sys, e: Event)
    requires Structure(s) && Enabled(s, e)
    ensures TasksOk(Apply(s, e))
  {
    var s' := Apply(s, e);
    StructureGrows(s, e);
    StepShaped(s, e);
    StepLogs(s, e);
    if !Quiet(e) {
      ActorsOk(s, e);
    }
    forall i: nat | In(s', i) ensures TaskOk(s', i) {
      if i == |s.tasks| {
        assert i in s.h.logs ==> LogOk(s, i);
      } else if Quiet(e) || (i != Actor(e) && (e.Send? ==> i != s.tasks[e.i].phase.reg)) {
        assert TaskOk(s, i);
        TaskFrame(s, s', i);
      }
    }
  }

  // --- Logs ---

  lemma DriveLogResult(s: Sys, e: Event)
    requires Enabled(s, e) && Drives(e) && e.i in s.h.logs
    ensures Apply(s, e).h.logs ==
      if e.SendAllClear? then s.h.logs[e.i := Log(s.tasks[e.i].phase.cert, [], [0])]
      else if e.Write? then s.h.logs[e.i := EmitStep(s.tasks[e.i].phase.out, s.h.logs[e.i], e.count).1]
      else s.h.logs
  {
  }

  lemma WireLog(out: Output, log: Log)
    requires WireOk(out, log) && !out.AllClear?
    ensures log.wire != []
    ensures [0] + EncodeAll(log.sent) <= log.wire
    ensures |log.wire| < 1 + FRAME_SIZE * |log.sent| + FRAME_SIZE
  {
  }

  lemma WriteLogOk(s: Sys, s': Sys, i: nat, count: nat)
    requires Receiving(s, i) && TaskOk(s, i) && i in s.h.logs && LogOk(s, i) && Grows(s, s')
    requires s.tasks[i].phase.out.Writing? && s.tasks[i].phase.out.done + count <= FRAME_SIZE
    requires i in s'.h.logs && s'.h.logs[i] == EmitStep(s.tasks[i].phase.out, s.h.logs[i], count).1
    ensures LogOk(s', i)
  {
    var out, log := s.tasks[i].phase.out, s.h.logs[i];
    NoticesFrame(s, s', log.sent, i);
    EmitStepOk(out, log, count);
    WireLog(EmitStep(out, log, count).0, EmitStep(out, log, count).1);
    assert NoticeOk(s, out.notice, i);
  }

  lemma DriveLog(s: Sys, e: Event)
    requires Enabled(s, e) && Drives(e) && Grows(s, Apply(s, e))
    requires TaskOk(s, e.i) && LogOk(s, e.i)
    ensures Apply(s, e).h.logs.Keys == s.h.logs.Keys
    ensures LogOk(Apply(s, e), e.i)
  {
    DriveLogResult(s, e);
    if e.Write? {
      WriteLogOk(s, Apply(s, e), e.i, e.count);
    } else if !e.SendAllClear? {
      LogFrame(s, Apply(s, e), e.i);
    }
  }

  // A phase holds permits of registrations that exist.
  lemma ExitLimits(s: Sys, e: Event)
    requires Enabled(s, e) && Exits(e)
    requires s.tasks[e.i].phase.Splicing? ==> s.tasks[e.i].phase.reg in s.sh.limits
    ensures Apply(s, e).sh.limits.Keys == s.sh.limits.Keys
  {
  }

  lemma ReapLimits(s: Sys, e: Event)
    requires Enabled(s, e) && e.Reap?
    requires e.token in s.sh.pending ==> s.sh.pending[e.token].reg in s.sh.limits
    ensures Apply(s, e).sh.limits.Keys == s.sh.limits.Keys
  {
  }

  lemma LimitsStep(s: Sys, e: Event)
    requires Structure(s) && Enabled(s, e) && !Drives(e) && !e.HandshakeDone?
    ensures Apply(s, e).sh.limits.Keys == s.sh.limits.Keys && Apply(s, e).h.logs == s.h.logs
  {
    if Exits(e) {
      assert TaskOk(s, e.i);
      if s.tasks[e.i].phase.Splicing? { assert IssueOk(s, s.tasks[e.i].phase.token); }
      ExitLimits(s, e);
      ExitKeeps(s, e);
    } else if e.Present? {
      PresentResult(s, e);
    } else if e.Reap? {
      if e.token in s.sh.pending { assert FateOk(s, e.token) && IssueOk(s, e.token); }
      ReapLimits(s, e);
      QuietKeeps(s, e);
    } else if e.Send? {
      SendKeeps(s, e);
    } else {
      QuietKeeps(s, e);
    }
  }

  lemma LogsFrame(s: Sys, s': Sys)
    requires LogsOk(s) && Grows(s, s')
    requires s'.h.logs.Keys == s'.sh.limits.Keys
    requires forall r :: r in s'.h.logs ==> SameLog(s, s', r) || LogOk(s', r)
    ensures LogsOk(s')
  {
    forall r | r in s'.h.logs ensures LogOk(s', r) {
      if SameLog(s, s', r) {
        LogFrame(s, s', r);
      }
    }
  }

  lemma SameLogsFrame(s: Sys, s': Sys)
    requires LogsOk(s) && Grows(s, s')
    requires s'.h.logs == s.h.logs && s'.sh.limits.Keys == s.sh.limits.Keys
    ensures LogsOk(s')
  {
    forall r | r in s'.h.logs ensures LogOk(s', r) {
      LogFrame(s, s', r);
    }
  }

  lemma HandshakeLog(s: Sys, e: Event)
    requires Enabled(s, e) && e.HandshakeDone? && s.h.logs.Keys == s.sh.limits.Keys
    ensures Apply(s, e).h.logs.Keys == Apply(s, e).sh.limits.Keys
    ensures Apply(s, e).h.logs == s.h.logs || (e.i in Apply(s, e).h.logs && LogOk(Apply(s, e), e.i))
  {
  }

  lemma DriveLogs(s: Sys, e: Event)
    requires Structure(s) && Enabled(s, e) && Drives(e) && Grows(s, Apply(s, e))
    ensures LogsOk(Apply(s, e))
  {
    assert TaskOk(s, e.i);
    assert LogOk(s, e.i);
    DriveLog(s, e);
    DriveKeeps(s, e);
    LogsFrame(s, Apply(s, e));
  }

  lemma HandshakeLogs(s: Sys, e: Event)
    requires Structure(s) && Enabled(s, e) && e.HandshakeDone? && Grows(s, Apply(s, e))
    ensures LogsOk(Apply(s, e))
  {
    HandshakeLog(s, e);
    HandshakeKeeps(s, e);
    LogsFrame(s, Apply(s, e));
  }

  lemma LogsStep(s: Sys, e: Event)
    requires Structure(s) && Enabled(s, e)
    ensures LogsOk(Apply(s, e))
  {
    StructureGrows(s, e);
    if Drives(e) {
      DriveLogs(s, e);
    } else if e.HandshakeDone? {
      HandshakeLogs(s, e);
    } else {
      LimitsStep(s, e);
      SameLogsFrame(s, Apply(s, e));
    }
  }

  // --- Control channels ---

  lemma StaysRegistered(s: Sys, e: Event, r: nat)
    requires Enabled(s, e) && In(s, r) && IsRegistered(s.tasks[r].phase)
    requires !(e.Cleanup? && e.i == r)
    ensures In(Apply(s, e), r) && IsRegistered(Apply(s, e).tasks[r].phase)
    ensures Apply(s, e).tasks[r].phase.cert == s.tasks[r].phase.cert
  {
    StepMoves(s, e);
    StepShaped(s, e);
  }

  // The registration whose cleanup removes an entry is not needed by any other.
  lemma ControlsResult(s: Sys, e: Event)
    requires Enabled(s, e) && s.sh.pending.Keys <= s.h.issued.Keys
    ensures Apply(s, e).sh.controls ==
      if e.Cleanup? then s.sh.controls - {s.tasks[e.i].phase.cert}
      else if e.HandshakeDone? && IpCount(s.sh.addrs, s.tasks[e.i].addr.Ip()) < s.cfg.maxPerIp
        then s.sh.controls[e.cert := e.i]
      else s.sh.controls
  {
    if Quiet(e) {
      QuietKeeps(s, e);
    } else if Exits(e) {
      ExitKeeps(s, e);
    } else if Drives(e) {
      DriveKeeps(s, e);
    } else if e.Send? {
      SendKeeps(s, e);
    } else if e.Present? {
      PresentKeeps(s, e);
    }
  }

  lemma ControlsStep(s: Sys, e: Event)
    requires Structure(s) && Enabled(s, e)
    ensures ControlsOk(Apply(s, e))
  {
    var s' := Apply(s, e);
    ControlsResult(s, e);
    forall c | c in s'.sh.controls
      ensures In(s', s'.sh.controls[c]) &&
              IsRegistered(s'.tasks[s'.sh.controls[c]].phase) && s'.tasks[s'.sh.controls[c]].phase.cert == c
    {
      if c in s.sh.controls && s'.sh.controls[c] == s.sh.controls[c] {
        StaysRegistered(s, e, s.sh.controls[c]);
      }
    }
  }

  // --- Tokens ---

  // A registration is live for as long as the map names it.
  lemma ControlEntry(s: Sys, c: Tx3Id)
    requires Structure(s) && c in s.sh.controls
    ensures In(s, s.sh.controls[c]) && IsRegistration(s, s.sh.controls[c], c) && c in s.h.certs
  {
    assert TaskOk(s, s.sh.controls[c]);
    assert LogOk(s, s.sh.controls[c]);
  }

  lemma TokensKeep(s: Sys, e: Event)
    requires Structure(s) && Enabled(s, e) && !Offers(s, e) && !Joins(s, e) && !e.Reap?
    ensures var s' := Apply(s, e);
      SameHistory(s.(h := s'.h), s') && s'.h.issued == s.h.issued && s'.h.spliced == s.h.spliced &&
      s'.h.reaped == s.h.reaped && forall t :: t in s.h.issued ==> t !in s'.h.certs
  {
    assert forall t :: t in s.h.issued ==> IssueOk(s, t);
    if Quiet(e) {
      QuietKeeps(s, e);
    } else if Exits(e) {
      ExitKeeps(s, e);
    } else if Drives(e) {
      DriveKeeps(s, e);
    } else if e.Send? {
      SendKeeps(s, e);
    } else if e.Present? {
      PresentResult(s, e);
    } else {
      HandshakeKeeps(s, e);
    }
  }

  lemma IssuesFrame(s: Sys, s': Sys)
    requires IssuesOk(s) && Grows(s, s')
    requires forall t :: t in s'.h.issued ==> (t in s.h.issued && t !in s'.h.certs) || IssueOk(s', t)
    ensures IssuesOk(s')
  {
    forall t | t in s'.h.issued ensures IssueOk(s', t) {
      if t in s.h.issued && t !in s'.h.certs {
        IssueFrame(s, s', t);
      }
    }
  }

  lemma SplicesFrame(s: Sys, s': Sys)
    requires FatesOk(s) && Grows(s, s') && s'.h.spliced.Keys <= s'.h.issued.Keys
    requires forall t :: t in s'.h.spliced ==> t in s.h.spliced || SpliceOk(s', t)
    ensures forall t :: t in s'.h.spliced ==> SpliceOk(s', t)
  {
    forall t | t in s'.h.spliced ensures SpliceOk(s', t) {
      if t in s.h.spliced {
        SpliceFrame(s, s', t);
      }
    }
  }

  lemma FatesFrame(s: Sys, s': Sys)
    requires FatesOk(s) && ReapersOk(s) && Grows(s, s')
    requires s'.sh.pending == s.sh.pending && s'.reapers == s.reapers
    requires s'.h.issued == s.h.issued && s'.h.spliced == s.h.spliced && s'.h.reaped == s.h.reaped
    ensures FatesOk(s') && ReapersOk(s')
  {
    SplicesFrame(s, s');
    forall t | t in s'.h.issued ensures FateOk(s', t) {
      assert FateOk(s, t);
    }
  }

  lemma OfferIssue(s: Sys, e: Event)
    requires Structure(s) && Enabled(s, e) && Offers(s, e)
    ensures e.splice in Apply(s, e).h.issued && IssueOk(Apply(s, e), e.splice)
  {
    PresentResult(s, e);
    ControlEntry(s, e.presented);
    assert TaskOk(s, s.sh.controls[e.presented]);
  }

  // The same maps with one token added, spliced or reaped.
  lemma OfferFates(s: Sys, s': Sys, token: Tx3Id, issue: Issue, deadline: nat)
    requires FatesOk(s) && ReapersOk(s) && Grows(s, s') && token !in s.h.issued
    requires s'.h == s.h.(issued := s.h.issued[token := issue])
    requires s'.sh.pending == s.sh.pending[token := PendingInfo(issue.sock, issue.reg)]
    requires s'.reapers == s.reapers[token := deadline]
    requires In(s, issue.sock) && deadline == Deadline(s, issue.sock)
    ensures FatesOk(s') && ReapersOk(s')
  {
    SplicesFrame(s, s');
    forall t | t in s'.h.issued ensures FateOk(s', t) {
      assert t in s.h.issued ==> FateOk(s, t);
    }
  }

  lemma JoinFates(s: Sys, s': Sys, token: Tx3Id, splice: Splice)
    requires FatesOk(s) && ReapersOk(s) && Grows(s, s') && token in s.sh.pending
    requires s'.h == s.h.(spliced := s.h.spliced[token := splice])
    requires s'.sh.pending == s.sh.pending - {token} && s'.reapers == s.reapers
    requires SpliceOk(s', token)
    ensures FatesOk(s') && ReapersOk(s')
  {
    SplicesFrame(s, s');
    forall t | t in s'.h.issued ensures FateOk(s', t) {
      assert FateOk(s, t);
    }
  }

  lemma ReapFate(s: Sys, s': Sys, token: Tx3Id, t: Tx3Id)
    requires t in s.h.issued && FateOk(s, t)
    requires s'.h == s.h.(reaped := s'.h.reaped)
    requires s'.h.reaped == s.h.reaped + (if token in s.sh.pending then {token} else {})
    requires s'.sh.pending == s.sh.pending - {token} && s'.reapers == s.reapers - {token}
    ensures FateOk(s', t)
  {
  }

  lemma ReapFates(s: Sys, s': Sys, token: Tx3Id)
    requires FatesOk(s) && ReapersOk(s) && Grows(s, s')
    requires s'.h == s.h.(reaped := s'.h.reaped)
    requires s'.h.reaped == s.h.reaped + (if token in s.sh.pending then {token} else {})
    requires s'.sh.pending == s.sh.pending - {token} && s'.reapers == s.reapers - {token}
    ensures FatesOk(s') && ReapersOk(s')
  {
    SplicesFrame(s, s');
    forall t | t in s'.h.issued ensures FateOk(s', t) {
      ReapFate(s, s', token, t);
    }
  }

  lemma OfferTokens(s: Sys, e: Event)
    requires Structure(s) && Enabled(s, e) && Offers(s, e) && Grows(s, Apply(s, e))
    ensures var s' := Apply(s, e); IssuesOk(s') && FatesOk(s') && ReapersOk(s')
  {
    var s' := Apply(s, e);
    OfferIssue(s, e);
    PresentResult(s, e);
    assert forall t :: t in s.h.issued ==> IssueOk(s, t);
    IssuesFrame(s, s');
    var reg := s.sh.controls[e.presented];
    OfferFates(s, s', e.splice, Issue(e.i, e.presented, reg), Deadline(s, e.i));
  }

  lemma JoinSplice(s: Sys, e: Event)
    requires Structure(s) && Enabled(s, e) && Joins(s, e)
    ensures var s' := Apply(s, e);
      e.presented in s'.h.issued && e.presented in s'.h.spliced && SpliceOk(s', e.presented)
  {
    PresentResult(s, e);
    assert TaskOk(s, e.i);
    assert FateOk(s, e.presented);
  }

  lemma JoinTokens(s: Sys, e: Event)
    requires Structure(s) && Enabled(s, e) && Joins(s, e) && Grows(s, Apply(s, e))
    ensures var s' := Apply(s, e); IssuesOk(s') && FatesOk(s') && ReapersOk(s')
  {
    var s' := Apply(s, e);
    JoinSplice(s, e);
    PresentResult(s, e);
    assert forall t :: t in s.h.issued ==> IssueOk(s, t);
    IssuesFrame(s, s');
    JoinFates(s, s', e.presented, Splice(e.i, s.now));
  }

  lemma ReapResult(s: Sys, e: Event)
    requires Enabled(s, e) && e.Reap?
    ensures Apply(s, e).sh.pending == s.sh.pending - {e.token}
    ensures Apply(s, e).reapers == s.reapers - {e.token}
    ensures Apply(s, e).h == s.h.(reaped := Apply(s, e).h.reaped)
    ensures Apply(s, e).h.reaped == s.h.reaped + (if e.token in s.sh.pending then {e.token} else {})
  {
  }

  lemma ReapTokens(s: Sys, e: Event)
    requires Structure(s) && Enabled(s, e) && e.Reap? && Grows(s, Apply(s, e))
    ensures var s' := Apply(s, e); IssuesOk(s') && FatesOk(s') && ReapersOk(s')
  {
    var s' := Apply(s, e);
    ReapResult(s, e);
    assert forall t :: t in s.h.issued ==> IssueOk(s, t);
    IssuesFrame(s, s');
    ReapFates(s, s', e.token);
  }

  lemma TokensStep(s: Sys, e: Event)
    requires Structure(s) && Enabled(s, e)
    ensures var s' := Apply(s, e); IssuesOk(s') && FatesOk(s') && ReapersOk(s')
  {
    StructureGrows(s, e);
    if Offers(s, e) {
      OfferTokens(s, e);
    } else if Joins(s, e) {
      JoinTokens(s, e);
    } else if e.Reap? {
      ReapTokens(s, e);
    } else {
      TokensKeep(s, e);
      IssuesFrame(s, Apply(s, e));
      FatesFrame(s, Apply(s, e));
    }
  }

  lemma StructureStep(s: Sys, e: Event)
    requires Structure(s) && Enabled(s, e)
    ensures Structure(Apply(s, e))
  {
    TasksStep(s, e);
    LogsStep(s, e);
    ControlsStep(s, e);
    TokensStep(s, e);
  }
}
