// What every step leaves in place, and the invariants that follow from that
// alone for whatever a step does not touch.
module RelayFrame {
  import opened Net
  import opened Frame
  import opened Relay
  import opened RelayCount
  import opened RelayInvariant

  // What becomes of a task that has read its token, or has failed to.
  predicate FirstMove(t: Task, t': Task) {
    match t'.phase
    case Handshake => t'.presented.Some? && t'.token == t.token
    case Notifying(token, _) => t'.presented.Some? && t'.token == Some(token)
    case Splicing(token, _, _) => t'.presented == Some(token) && t'.token == t.token
    case Done => t'.presented == t.presented && t'.token == t.token
    case _ => false
  }

  // The life of a task. It presents one token, is issued at most one, and never
  // returns to an earlier phase.
  predicate TaskMoves(t: Task, t': Task) {
    t'.addr == t.addr && t'.start == t.start &&
    (t' == t || (t.phase.Reading? && FirstMove(t, t')) ||
      (t'.presented == t.presented && t'.token == t.token &&
       match t.phase
       case Handshake =>
         t'.phase.Done? || (t'.phase.Control? && t'.phase.out.AllClear? && t'.phase.queue == [])
       case Control(cert, _, _) => IsRegistered(t'.phase) && t'.phase.cert == cert
       case Ending(_) => t'.phase.Done?
       case Notifying(_, _) => t'.phase.Done?
       case Splicing(_, _, _) => t'.phase.Done?
       case _ => false))
  }

  ghost predicate TasksMove(s: Sys, s': Sys) {
    s'.cfg == s.cfg && |s.tasks| <= |s'.tasks| && (s.term ==> s'.term) && s.now <= s'.now &&
    forall i: nat :: In(s, i) ==> TaskMoves(s.tasks[i], s'.tasks[i])
  }

  ghost predicate HistoryGrows(s: Sys, s': Sys) {
    (forall t :: t in s.h.issued ==> t in s'.h.issued && s'.h.issued[t] == s.h.issued[t]) &&
    (forall t :: t in s.h.spliced ==> t in s'.h.spliced && s'.h.spliced[t] == s.h.spliced[t]) &&
    s.h.reaped <= s'.h.reaped && s.h.certs <= s'.h.certs &&
    s.sh.limits.Keys <= s'.sh.limits.Keys &&
    (forall r :: r in s.h.logs ==>
      r in s'.h.logs && s'.h.logs[r].cert == s.h.logs[r].cert &&
      s.h.logs[r].sent <= s'.h.logs[r].sent && s.h.logs[r].wire <= s'.h.logs[r].wire)
  }

  ghost predicate Grows(s: Sys, s': Sys) {
    TasksMove(s, s') && HistoryGrows(s, s')
  }

  lemma ExitMoves(s: Sys, e: Event)
    requires Enabled(s, e) && Exits(e)
    ensures TasksMove(s, Apply(s, e))
  {
  }

  lemma DriveMoves(s: Sys, e: Event)
    requires Enabled(s, e) && Drives(e)
    ensures TasksMove(s, Apply(s, e))
  {
  }

  lemma PresentMoves(s: Sys, e: Event)
    requires Enabled(s, e) && e.Present?
    ensures TasksMove(s, Apply(s, e))
  {
  }

  lemma HandshakeMoves(s: Sys, e: Event)
    requires Enabled(s, e) && e.HandshakeDone?
    ensures TasksMove(s, Apply(s, e))
  {
  }

  lemma SendMoves(s: Sys, e: Event)
    requires Enabled(s, e) && e.Send?
    ensures TasksMove(s, Apply(s, e))
  {
  }

  lemma QuietMoves(s: Sys, e: Event)
    requires Enabled(s, e) && Quiet(e)
    ensures TasksMove(s, Apply(s, e))
  {
  }

  lemma StepMoves(s: Sys, e: Event)
    requires Enabled(s, e)
    ensures TasksMove(s, Apply(s, e))
  {
    if Exits(e) {
      ExitMoves(s, e);
    } else if Drives(e) {
      DriveMoves(s, e);
    } else if e.Present? {
      PresentMoves(s, e);
    } else if e.HandshakeDone? {
      HandshakeMoves(s, e);
    } else if e.Send? {
      SendMoves(s, e);
    } else {
      QuietMoves(s, e);
    }
  }

  lemma ExitsToEnd(s: Sys, e: Event)
    requires Enabled(s, e) && Exits(e)
    ensures In(Apply(s, e), e.i)
    ensures Apply(s, e).tasks[e.i].phase.Done? || Apply(s, e).tasks[e.i].phase.Leaked?
  {
  }

  lemma PresentPhase(s: Sys, e: Event)
    requires Enabled(s, e) && e.Present?
    ensures In(Apply(s, e), e.i) && Apply(s, e).term == s.term
    ensures var p := Apply(s, e).tasks[e.i].phase; p.Handshake? || p.Notifying? || p.Splicing? || p.Done?
  {
  }

  // No step writes over an entry of the history.
  ghost predicate Appends(s: Sys, e: Event) {
    (e.Present? && e.presented in s.sh.pending ==> e.presented !in s.h.spliced) &&
    (e.HandshakeDone? ==> e.i !in s.h.logs) &&
    (e.SendAllClear? && Receiving(s, e.i) ==>
       e.i in s.h.logs && s.h.logs[e.i] == Log(s.tasks[e.i].phase.cert, [], []))
  }

  lemma StructureAppends(s: Sys, e: Event)
    requires Structure(s) && Enabled(s, e)
    ensures Appends(s, e)
  {
    match e {
      case HandshakeDone(i, _) => assert TaskOk(s, i);
      case SendAllClear(i) => assert TaskOk(s, i);
      case Present(_, presented, _) =>
        if presented in s.sh.pending { assert FateOk(s, presented); }
      case _ =>
    }
  }

  lemma ExitGrows(s: Sys, e: Event)
    requires Enabled(s, e) && Exits(e)
    ensures HistoryGrows(s, Apply(s, e)) && Apply(s, e).h == s.h
  {
  }

  lemma DriveGrows(s: Sys, e: Event)
    requires Enabled(s, e) && Appends(s, e) && Drives(e)
    ensures HistoryGrows(s, Apply(s, e))
  {
  }

  lemma PresentGrows(s: Sys, e: Event)
    requires Enabled(s, e) && Appends(s, e) && e.Present?
    ensures HistoryGrows(s, Apply(s, e))
  {
  }

  lemma HandshakeGrows(s: Sys, e: Event)
    requires Enabled(s, e) && Appends(s, e) && e.HandshakeDone?
    ensures HistoryGrows(s, Apply(s, e))
  {
  }

  lemma SendGrows(s: Sys, e: Event)
    requires Enabled(s, e) && Appends(s, e) && e.Send?
    ensures HistoryGrows(s, Apply(s, e))
  {
  }

  lemma QuietGrows(s: Sys, e: Event)
    requires Enabled(s, e) && Appends(s, e) && Quiet(e)
    ensures HistoryGrows(s, Apply(s, e))
  {
  }

  lemma StepGrows(s: Sys, e: Event)
    requires Enabled(s, e) && Appends(s, e)
    ensures HistoryGrows(s, Apply(s, e))
  {
    if Exits(e) {
      ExitGrows(s, e);
    } else if Drives(e) {
      DriveGrows(s, e);
    } else if e.Present? {
      PresentGrows(s, e);
    } else if e.HandshakeDone? {
      HandshakeGrows(s, e);
    } else if e.Send? {
      SendGrows(s, e);
    } else {
      QuietGrows(s, e);
    }
  }

  // --- What an untouched item keeps ---

  ghost predicate SameLog(s: Sys, s': Sys, i: nat) {
    (i in s'.h.logs <==> i in s.h.logs) && (i in s.h.logs ==> s'.h.logs[i] == s.h.logs[i])
  }

  lemma NoticesFrame(s: Sys, s': Sys, ns: seq<Notice>, reg: nat)
    requires Grows(s, s') && NoticesOk(s, ns, reg)
    ensures NoticesOk(s', ns, reg)
  {
    forall k | 0 <= k < |ns| ensures NoticeOk(s', ns[k], reg) {
      assert NoticeOk(s, ns[k], reg);
    }
  }

  lemma TaskFrame(s: Sys, s': Sys, i: nat)
    requires In(s, i) && TaskOk(s, i) && Grows(s, s')
    requires s'.tasks[i] == s.tasks[i] && SameLog(s, s', i)
    ensures TaskOk(s', i)
  {
    var p := s.tasks[i].phase;
    if p.Control? {
      NoticesFrame(s, s', p.queue, i);
    }
  }

  lemma LogFrame(s: Sys, s': Sys, r: nat)
    requires r in s.h.logs && LogOk(s, r) && Grows(s, s') && SameLog(s, s', r)
    ensures LogOk(s', r)
  {
    NoticesFrame(s, s', s.h.logs[r].sent, r);
  }

  lemma IssueFrame(s: Sys, s': Sys, t: Tx3Id)
    requires t in s.h.issued && IssueOk(s, t) && Grows(s, s') && t !in s'.h.certs
    ensures IssueOk(s', t)
  {
  }

  lemma SpliceFrame(s: Sys, s': Sys, t: Tx3Id)
    requires t in s.h.issued && t in s.h.spliced && SpliceOk(s, t) && Grows(s, s')
    ensures SpliceOk(s', t)
  {
  }
}
