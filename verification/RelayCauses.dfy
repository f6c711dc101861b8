// Why a task moves: what must hold before a step for it to end or to advance a
// task, phase by phase, and what follows for whole runs.
module RelayCauses {
  import opened Net
  import opened Frame
  import opened RelayState
  import opened Relay
  import opened RelayCount
  import opened RelayInvariant
  import opened RelayFrame
  import opened RelayRuns
  import opened RelayStructure
  import opened RelayCounting
  import opened RelayRouting
  import opened RelayReplacement
  import opened RelayDelivery

  ghost predicate Moves(s: Sys, e: Event, i: nat) {
    Enabled(s, e) && In(s, i) && (In(Apply(s, e), i) ==> Apply(s, e).tasks[i] != s.tasks[i])
  }

  // The time limit of a task that reads its token or negotiates TLS is over.
  predicate OutOfTime(s: Sys, i: nat)
    requires In(s, i)
  {
    s.tasks[i].start + s.cfg.timeout <= s.now
  }

  // The shutdown has been signalled and takes task `i`.
  predicate ShutDown(s: Sys, e: Event, i: nat) {
    s.term && e == Cancel(i)
  }

  lemma ReadingMoves(s: Sys, e: Event, i: nat)
    requires Moves(s, e, i) && s.tasks[i].phase.Reading?
    ensures e == Fail(i) || (e.Present? && e.i == i) || (e == Timeout(i) && OutOfTime(s, i)) || ShutDown(s, e, i)
  {
    StepShaped(s, e);
  }

  lemma HandshakeMoves(s: Sys, e: Event, i: nat)
    requires Moves(s, e, i) && s.tasks[i].phase.Handshake?
    ensures e == Fail(i) || (e.HandshakeDone? && e.i == i) || (e == Timeout(i) && OutOfTime(s, i)) ||
      ShutDown(s, e, i)
  {
    StepShaped(s, e);
  }

  // A sender or a queued notice is left to the control task.
  ghost predicate HasSender(s: Sys, r: nat) {
    (exists c :: c in s.sh.controls && s.sh.controls[c] == r) ||
    (exists j: nat :: In(s, j) && s.tasks[j].phase.Notifying? && s.tasks[j].phase.reg == r)
  }

  // The relay drops a receiver by itself only when it is idle, its queue is empty
  // and nobody can send to it any more.
  lemma ReceiverEnds(s: Sys, e: Event, r: nat)
    requires Enabled(s, e) && Receiving(s, r) && !Receiving(Apply(s, e), r)
    ensures e == ControlEnd(r) || ShutDown(s, e, r) ||
      (e == SendersGone(r) && !HasSender(s, r) &&
       s.tasks[r].phase.queue == [] && s.tasks[r].phase.out.Idle?)
  {
    StepShaped(s, e);
    if e == SendersGone(r) {
      assert forall j: nat ::
        In(s, j) && s.tasks[j].phase.Notifying? && s.tasks[j].phase.reg == r ==> Notifies(s, j, r);
    }
  }

  // While it receives, only its own writes and new notices change it.
  lemma ReceiverMoves(s: Sys, e: Event, r: nat)
    requires Moves(s, e, r) && Receiving(s, r) && Receiving(Apply(s, e), r)
    ensures
      var p, p' := s.tasks[r].phase, Apply(s, e).tasks[r].phase;
      (e == SendAllClear(r) && p.out.AllClear? && p' == p.(out := Idle)) ||
      (e == Recv(r) && p.out.Idle? && p.queue != [] &&
       p' == p.(out := Writing(p.queue[0], 0), queue := p.queue[1..])) ||
      (e.Write? && e.i == r && p.out.Writing? && p'.queue == p.queue &&
       p'.out == if p.out.done + e.count == FRAME_SIZE then Idle else Writing(p.out.notice, p.out.done + e.count)) ||
      (e.Send? && Notifies(s, e.i, r) && |p.queue| < CAPACITY && p'.out == p.out && |p'.queue| == |p.queue| + 1)
  {
    StepShaped(s, e);
  }

  lemma EndingMoves(s: Sys, e: Event, i: nat)
    requires Moves(s, e, i) && s.tasks[i].phase.Ending?
    ensures e == Cleanup(i)
  {
    StepShaped(s, e);
  }

  // A notice is handed over, or its receiver is gone.
  lemma SenderMoves(s: Sys, e: Event, i: nat)
    requires Moves(s, e, i) && s.tasks[i].phase.Notifying?
    ensures var reg := s.tasks[i].phase.reg;
      (e == Send(i) && Receiving(s, reg) && |s.tasks[reg].phase.queue| < CAPACITY) ||
      (e == SendFail(i) && !Receiving(s, reg)) || ShutDown(s, e, i)
  {
    StepShaped(s, e);
  }

  lemma SplicingMoves(s: Sys, e: Event, i: nat)
    requires Moves(s, e, i) && s.tasks[i].phase.Splicing?
    ensures e == SpliceEnd(i) || ShutDown(s, e, i)
  {
    StepShaped(s, e);
  }

  lemma EndedStays(s: Sys, e: Event, i: nat)
    requires Enabled(s, e) && In(s, i) && (s.tasks[i].phase.Done? || s.tasks[i].phase.Leaked?)
    ensures In(Apply(s, e), i) && Apply(s, e).tasks[i] == s.tasks[i]
  {
    StepShaped(s, e);
  }

  // --- Whole runs ---

  lemma {:induction false} NowGrows(s: Sys, es: seq<Event>)
    requires Legal(s, es)
    ensures s.now <= Exec(s, es).now
    decreases |es|
  {
    if es != [] {
      StepMoves(s, es[0]);
      NowGrows(Apply(s, es[0]), es[1..]);
    }
  }

  // What a peer does, or the shutdown, to the task of a new connection.
  predicate Touches(e: Event, i: nat) {
    e == Fail(i) || e == Cancel(i) || (e.Present? && e.i == i) || (e.HandshakeDone? && e.i == i)
  }

  // A new connection is not timed out before its time limit is over, whatever
  // else goes on.
  lemma {:induction false} NeverTimedOutEarly(s: Sys, es: seq<Event>, i: nat)
    requires Legal(s, es) && In(s, i) && (s.tasks[i].phase.Reading? || s.tasks[i].phase.Handshake?)
    requires forall k :: 0 <= k < |es| ==> !Touches(es[k], i)
    requires Exec(s, es).now < s.tasks[i].start + s.cfg.timeout
    ensures In(Exec(s, es), i) && Exec(s, es).tasks[i] == s.tasks[i]
    decreases |es|
  {
    if es != [] {
      var s1 := Apply(s, es[0]);
      StepMoves(s, es[0]);
      NowGrows(s1, es[1..]);
      assert !Touches(es[0], i);
      if s.tasks[i].phase.Reading? && s1.tasks[i] != s.tasks[i] { ReadingMoves(s, es[0], i); }
      if s.tasks[i].phase.Handshake? && s1.tasks[i] != s.tasks[i] { HandshakeMoves(s, es[0], i); }
      assert forall k :: 0 <= k < |es[1..]| ==> es[1..][k] == es[k + 1];
      NeverTimedOutEarly(s1, es[1..], i);
    }
  }

  // A control stream that the relay knows is never ended by the relay, however
  // long it is idle: only its client, or the shutdown, ends it.
  lemma {:induction false} KnownStreamLasts(s: Sys, es: seq<Event>, r: nat)
    requires Inv(s) && Legal(s, es) && Receiving(s, r) && Reached(s, r) && Undisturbed(s, es, r)
    requires ControlEnd(r) !in es && Cancel(r) !in es
    ensures Receiving(Exec(s, es), r) && Reached(Exec(s, es), r)
    decreases |es|
  {
    if es != [] {
      var s1 := Apply(s, es[0]);
      assert es[0] in es && forall e :: e in es[1..] ==> e in es;
      KnownStep(s, es[0], r);
      InvStep(s, es[0]);
      KnownStreamLasts(s1, es[1..], r);
    }
  }

  lemma KnownStep(s: Sys, e: Event, r: nat)
    requires Structure(s) && Enabled(s, e) && Receiving(s, r) && Reached(s, r) && !Displaces(s, e, r)
    requires e != ControlEnd(r) && e != Cancel(r)
    ensures Receiving(Apply(s, e), r) && Reached(Apply(s, e), r)
  {
    if !Receiving(Apply(s, e), r) {
      ReceiverEnds(s, e, r);
    } else {
      EntryStep(s, e, r);
    }
  }

  // --- No notice is lost ---

  // The task of the socket that waits under `t` still notifies, or its notice is
  // on its way to the client or has arrived.
  ghost predicate Told(s: Sys, t: Tx3Id)
    requires t in s.h.issued
  {
    var Issue(sock, _, reg) := s.h.issued[t];
    In(s, sock) && reg in s.h.logs && In(s, reg) &&
    (s.tasks[sock].phase == Notifying(t, reg) || Notice(t, s.tasks[sock].addr) in Pipe(s, reg))
  }

  ghost predicate AllTold(s: Sys) {
    !s.term ==> forall t :: t in s.h.issued && Receiving(s, s.h.issued[t].reg) ==> Told(s, t)
  }

  lemma OfferedIsTold(s: Sys, e: Event)
    requires Structure(s) && Enabled(s, e) && Offers(s, e)
    ensures e.splice in Apply(s, e).h.issued && Told(Apply(s, e), e.splice)
  {
    PresentResult(s, e);
    ControlEntry(s, e.presented);
  }

  // One step: a notice that was handed over stays in the pipe.
  lemma TellStep(s: Sys, e: Event, t: Tx3Id)
    requires Structure(s) && Enabled(s, e) && !s.term && t in s.h.issued && Told(s, t)
    requires t in Apply(s, e).h.issued && Apply(s, e).h.issued[t] == s.h.issued[t]
    requires Receiving(Apply(s, e), s.h.issued[t].reg)
    ensures Told(Apply(s, e), t)
  {
    var Issue(sock, _, reg) := s.h.issued[t];
    StepMoves(s, e);
    PipeStep(s, e, reg);
    if s.tasks[sock].phase == Notifying(t, reg) {
      if Apply(s, e).tasks[sock] != s.tasks[sock] {
        SenderMoves(s, e, sock);
        StillReceiving(s, e, reg);
        SentIsPiped(s, e, reg);
      }
    }
  }

  lemma SentIsPiped(s: Sys, e: Event, reg: nat)
    requires Structure(s) && Enabled(s, e) && e.Send? && s.tasks[e.i].phase.reg == reg
    requires reg in s.h.logs && In(s, reg)
    ensures reg in Apply(s, e).h.logs && In(Apply(s, e), reg)
    ensures Notice(s.tasks[e.i].phase.token, s.tasks[e.i].addr) in Pipe(Apply(s, e), reg)
  {
    PipeStep(s, e, reg);
    var pipe := Pipe(Apply(s, e), reg);
    assert pipe[|pipe| - 1] in pipe;
  }

  lemma StillReceiving(s: Sys, e: Event, reg: nat)
    requires Structure(s) && Enabled(s, e) && reg in s.h.logs && Receiving(Apply(s, e), reg)
    ensures Receiving(s, reg)
  {
    if !Receiving(s, reg) { GoneStep(s, e, reg); }
  }

  lemma AllToldStep(s: Sys, e: Event)
    requires Structure(s) && AllTold(s) && Enabled(s, e)
    ensures AllTold(Apply(s, e))
  {
    var s' := Apply(s, e);
    StepMoves(s, e);
    forall t | !s'.term && t in s'.h.issued && Receiving(s', s'.h.issued[t].reg) ensures Told(s', t) {
      IssueOrigin(s, e, t);
      if t in s.h.issued {
        assert IssueOk(s, t);
        StillReceiving(s, e, s.h.issued[t].reg);
        TellStep(s, e, t);
      } else {
        OfferedIsTold(s, e);
      }
    }
  }

  lemma {:induction false} AllToldRun(s: Sys, es: seq<Event>)
    requires Inv(s) && AllTold(s) && Legal(s, es)
    ensures AllTold(Exec(s, es))
    decreases |es|
  {
    if es != [] {
      AllToldStep(s, es[0]);
      InvStep(s, es[0]);
      AllToldRun(Apply(s, es[0]), es[1..]);
    }
  }

  // Before shutdown no notice is lost while its control stream lasts: for every
  // token issued, the peer's task still notifies, or the notice has been sent, is
  // being written, or is queued.
  lemma NoNoticeLost(s: Sys, t: Tx3Id)
    requires Reachable(s) && !s.term && t in s.h.issued && Receiving(s, s.h.issued[t].reg)
    ensures var Issue(sock, _, reg) := s.h.issued[t];
      In(s, sock) && reg in s.h.logs &&
      (s.tasks[sock].phase == Notifying(t, reg) || Notice(t, s.tasks[sock].addr) in Pipe(s, reg))
  {
    var es :| Legal(Init(s.cfg), es) && Exec(Init(s.cfg), es) == s;
    InvInit(s.cfg);
    AllToldRun(Init(s.cfg), es);
  }
}
