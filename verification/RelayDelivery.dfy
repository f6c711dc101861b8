// What a control stream carries, in which order, and how often.
module RelayDelivery {
  import opened Net
  import opened Frame
  import opened Relay
  import opened RelayCount
  import opened RelayInvariant
  import opened RelayFrame
  import opened RelayRuns
  import opened RelayStructure
  import opened RelayCounting
  import opened RelayRouting

  function Current(out: Output): seq<Notice> {
    if out.Writing? then [out.notice] else []
  }

  // The notices of a registration: sent in full, being written, and queued.
  function PipeOf(log: Log, p: Phase): seq<Notice> {
    log.sent + (if p.Control? then Current(p.out) + p.queue else [])
  }

  function Pipe(s: Sys, r: nat): seq<Notice>
    requires r in s.h.logs && In(s, r)
  {
    PipeOf(s.h.logs[r], s.tasks[r].phase)
  }

  // Distinct tokens, each of a socket whose task is done notifying.
  ghost predicate OnceEach(s: Sys, ns: seq<Notice>) {
    (forall a, b :: 0 <= a < b < |ns| ==> ns[a].token != ns[b].token) &&
    (forall a :: 0 <= a < |ns| ==>
      ns[a].token in s.h.issued && In(s, s.h.issued[ns[a].token].sock) &&
      s.tasks[s.h.issued[ns[a].token].sock].phase.Done?)
  }

  ghost predicate DeliveryOk(s: Sys) {
    forall r :: r in s.h.logs && In(s, r) ==> OnceEach(s, Pipe(s, r))
  }

  lemma EmitPipe(out: Output, log: Log, count: nat, cert: Tx3Id, queue: seq<Notice>)
    requires out.Writing? && out.done + count <= FRAME_SIZE
    ensures var (out', log') := EmitStep(out, log, count);
      PipeOf(log', Control(cert, out', queue)) == PipeOf(log, Control(cert, out, queue))
  {
  }

  lemma DrivePipe(s: Sys, e: Event)
    requires Enabled(s, e) && Drives(e) && e.i in s.h.logs
    requires s.tasks[e.i].phase.out.AllClear? ==> s.h.logs[e.i].sent == []
    ensures e.i in Apply(s, e).h.logs && In(Apply(s, e), e.i)
    ensures Pipe(Apply(s, e), e.i) ==
      if e.ControlEnd? || e.SendersGone? then s.h.logs[e.i].sent else Pipe(s, e.i)
    ensures e.ControlEnd? || e.SendersGone? ==> !Receiving(Apply(s, e), e.i)
  {
    DriveLogResult(s, e);
    var p := s.tasks[e.i].phase;
    if e.Write? {
      EmitPipe(p.out, s.h.logs[e.i], e.count, p.cert, p.queue);
    } else if e.Recv? {
      assert p.queue == [p.queue[0]] + p.queue[1..];
    }
  }

  lemma SendPipe(s: Sys, e: Event, r: nat)
    requires Enabled(s, e) && e.Send? && r in s.h.logs && In(s, r)
    requires Apply(s, e).h.logs == s.h.logs && In(Apply(s, e), r)
    ensures Pipe(Apply(s, e), r) == Pipe(s, r) +
      (if s.tasks[e.i].phase.reg == r then [Notice(s.tasks[e.i].phase.token, s.tasks[e.i].addr)] else [])
  {
    StepShaped(s, e);
  }

  lemma CancelPipe(s: Sys, e: Event)
    requires Enabled(s, e) && Exits(e) && e.i in s.h.logs
    requires Apply(s, e).h.logs == s.h.logs && In(Apply(s, e), e.i)
    ensures Pipe(Apply(s, e), e.i) == s.h.logs[e.i].sent && !Receiving(Apply(s, e), e.i)
  {
  }

  lemma DrivenPipe(s: Sys, e: Event, r: nat)
    requires Structure(s) && Enabled(s, e) && r in s.h.logs && In(s, r) && Drives(e) && e.i == r
    ensures r in Apply(s, e).h.logs && In(Apply(s, e), r)
    ensures Pipe(Apply(s, e), r) == Pipe(s, r) ||
      (Pipe(Apply(s, e), r) == s.h.logs[r].sent && !Receiving(Apply(s, e), r))
  {
    assert TaskOk(s, r);
    DrivePipe(s, e);
  }

  // A task ends without having handed over its notice to `r`.
  ghost predicate GivesUp(s: Sys, e: Event, r: nat)
    requires Enabled(s, e)
  {
    e.SendFail? && s.tasks[e.i].phase.reg == r
  }

  // How one step changes the notices of one registration: a send appends the
  // sender's notice; the end of the receiver drops what was not yet sent.
  lemma PipeStep(s: Sys, e: Event, r: nat)
    requires Structure(s) && Enabled(s, e) && r in s.h.logs && In(s, r)
    ensures GivesUp(s, e, r) ==> !Receiving(s, r)
    ensures r in Apply(s, e).h.logs && In(Apply(s, e), r)
    ensures var next := Pipe(Apply(s, e), r);
      if e.Send? && s.tasks[e.i].phase.reg == r then
        next == Pipe(s, r) + [Notice(s.tasks[e.i].phase.token, s.tasks[e.i].addr)]
      else
        next == Pipe(s, r) || (next == s.h.logs[r].sent && !Receiving(Apply(s, e), r))
  {
    if Drives(e) && e.i == r {
      DrivenPipe(s, e, r);
    } else if e.Send? {
      StructureGrows(s, e);
      SendKeeps(s, e);
      SendPipe(s, e, r);
    } else if Exits(e) && e.i == r {
      StructureGrows(s, e);
      ExitKeeps(s, e);
      CancelPipe(s, e);
    } else {
      OtherPipe(s, e, r);
    }
  }

  lemma OtherPipe(s: Sys, e: Event, r: nat)
    requires Enabled(s, e) && r in s.h.logs && In(s, r) && s.sh.pending.Keys <= s.h.issued.Keys
    requires !e.Send? && (Quiet(e) || Actor(e) != r)
    ensures r in Apply(s, e).h.logs && In(Apply(s, e), r) && Pipe(Apply(s, e), r) == Pipe(s, r)
  {
    StepShaped(s, e);
    StepLogs(s, e);
  }

  lemma OnceFrame(s: Sys, s': Sys, ns: seq<Notice>)
    requires OnceEach(s, ns) && Grows(s, s')
    ensures OnceEach(s', ns)
  {
  }

  lemma OnceAppend(s: Sys, ns: seq<Notice>, n: Notice)
    requires OnceEach(s, ns) && OnceEach(s, [n])
    requires forall a :: 0 <= a < |ns| ==> ns[a].token != n.token
    ensures OnceEach(s, ns + [n])
  {
    var all := ns + [n];
    assert all[|ns|] == n && forall a :: 0 <= a < |ns| ==> all[a] == ns[a];
    assert [n][0] == n;
  }

  // The sender's token is not in the pipe yet: its task was still notifying.
  lemma SendOnce(s: Sys, s': Sys, ns: seq<Notice>, i: nat)
    requires In(s, i) && TaskOk(s, i) && OnceEach(s, ns) && Grows(s, s')
    requires s.tasks[i].phase.Notifying? && s'.tasks[i].phase.Done?
    ensures OnceEach(s', ns + [Notice(s.tasks[i].phase.token, s.tasks[i].addr)])
  {
    OnceFrame(s, s', ns);
    OnceAppend(s', ns, Notice(s.tasks[i].phase.token, s.tasks[i].addr));
  }

  lemma OncePrefix(s: Sys, ns: seq<Notice>, k: nat)
    requires OnceEach(s, ns) && k <= |ns|
    ensures OnceEach(s, ns[..k])
  {
  }

  lemma PipeOnce(s: Sys, e: Event, r: nat)
    requires Structure(s) && Enabled(s, e) && r in s.h.logs && In(s, r) && OnceEach(s, Pipe(s, r))
    ensures r in Apply(s, e).h.logs && In(Apply(s, e), r)
    ensures OnceEach(Apply(s, e), Pipe(Apply(s, e), r))
  {
    var s' := Apply(s, e);
    PipeStep(s, e, r);
    StructureGrows(s, e);
    var sent := s.h.logs[r].sent;
    assert Pipe(s, r)[..|sent|] == sent;
    OncePrefix(s, Pipe(s, r), |sent|);
    OnceFrame(s, s', sent);
    OnceFrame(s, s', Pipe(s, r));
    if e.Send? && s.tasks[e.i].phase.reg == r {
      SendEnds(s, e);
      assert TaskOk(s, e.i);
      SendOnce(s, s', Pipe(s, r), e.i);
    }
  }

  lemma SendEnds(s: Sys, e: Event)
    requires Enabled(s, e) && e.Send?
    ensures In(Apply(s, e), e.i) && Apply(s, e).tasks[e.i].phase.Done?
  {
  }

  lemma DeliveryStep(s: Sys, e: Event)
    requires Structure(s) && DeliveryOk(s) && Enabled(s, e)
    ensures DeliveryOk(Apply(s, e))
  {
    var s' := Apply(s, e);
    forall r | r in s'.h.logs && In(s', r) ensures OnceEach(s', Pipe(s', r)) {
      if r in s.h.logs {
        assert LogOk(s, r);
        PipeOnce(s, e, r);
      } else {
        LogOrigin(s, e, r);
        NewPipe(s, e);
      }
    }
  }

  lemma NewPipe(s: Sys, e: Event)
    requires Enabled(s, e) && e.HandshakeDone? && e.i !in s.h.logs
    ensures e.i in Apply(s, e).h.logs ==> In(Apply(s, e), e.i) && Pipe(Apply(s, e), e.i) == []
  {
  }

  lemma {:induction false} DeliveryRun(s: Sys, es: seq<Event>)
    requires Inv(s) && DeliveryOk(s) && Legal(s, es)
    ensures DeliveryOk(Exec(s, es))
    decreases |es|
  {
    if es != [] {
      InvStep(s, es[0]);
      DeliveryStep(s, es[0]);
      DeliveryRun(Apply(s, es[0]), es[1..]);
    }
  }

  // No token is ever sent twice, on one control stream or on two; each was
  // issued for the very registration it is sent to, and comes with the address
  // of the socket that waits under it.
  lemma SentOnce(s: Sys, r: nat, a: nat, q: nat, b: nat)
    requires Reachable(s) && r in s.h.logs && q in s.h.logs
    requires a < |s.h.logs[r].sent| && b < |s.h.logs[q].sent|
    ensures NoticeOk(s, s.h.logs[r].sent[a], r)
    ensures s.h.logs[r].sent[a].token == s.h.logs[q].sent[b].token ==> r == q && a == b
  {
    InvReachable(s);
    var es :| Legal(Init(s.cfg), es) && Exec(Init(s.cfg), es) == s;
    InvInit(s.cfg);
    DeliveryRun(Init(s.cfg), es);
    assert LogOk(s, r) && LogOk(s, q);
    assert NoticeOk(s, s.h.logs[r].sent[a], r) && NoticeOk(s, s.h.logs[q].sent[b], q);
    assert OnceEach(s, Pipe(s, r));
    var sent := s.h.logs[r].sent;
    assert Pipe(s, r)[..|sent|] == sent;
    OncePrefix(s, Pipe(s, r), |sent|);
  }

  // --- Whole runs: what is sent arrives in the order it was sent ---

  // The notice that a step hands to the channel of `r`.
  ghost function Handed(s: Sys, e: Event, r: nat): seq<Notice>
    requires Enabled(s, e)
  {
    if e.Send? && s.tasks[e.i].phase.reg == r
    then [Notice(s.tasks[e.i].phase.token, s.tasks[e.i].addr)] else []
  }

  ghost function HandedTo(s: Sys, es: seq<Event>, r: nat): seq<Notice>
    requires Legal(s, es)
    decreases |es|
  {
    if es == [] then [] else Handed(s, es[0], r) + HandedTo(Apply(s, es[0]), es[1..], r)
  }

  // A receiver that is gone stays gone, and nothing more is handed to it.
  lemma GoneFrame(s: Sys, s': Sys, r: nat)
    requires Structure(s) && Grows(s, s') && r in s.h.logs && !Receiving(s, r)
    ensures r in s'.h.logs && !Receiving(s', r)
  {
    assert LogOk(s, r) && TaskOk(s, r);
  }

  lemma GoneStep(s: Sys, e: Event, r: nat)
    requires Structure(s) && Enabled(s, e) && r in s.h.logs && !Receiving(s, r)
    ensures Handed(s, e, r) == []
    ensures r in Apply(s, e).h.logs && !Receiving(Apply(s, e), r)
  {
    StructureGrows(s, e);
    GoneFrame(s, Apply(s, e), r);
  }

  lemma {:induction false} NothingAfterEnd(s: Sys, es: seq<Event>, r: nat)
    requires Inv(s) && Legal(s, es) && r in s.h.logs && !Receiving(s, r)
    ensures HandedTo(s, es, r) == [] && !Receiving(Exec(s, es), r)
    decreases |es|
  {
    if es != [] {
      GoneStep(s, es[0], r);
      InvStep(s, es[0]);
      NothingAfterEnd(Apply(s, es[0]), es[1..], r);
    }
  }

  // `now` is `before` followed by `handed`, but for an end that may be missing
  // once the control stream has ended.
  ghost predicate Follows(now: seq<Notice>, before: seq<Notice>, handed: seq<Notice>, receiving: bool) {
    now <= before + handed && (receiving ==> now == before + handed)
  }

  lemma FollowsOn(now: seq<Notice>, mid: seq<Notice>, before: seq<Notice>, first: seq<Notice>,
                  later: seq<Notice>, receiving: bool, still: bool)
    requires Follows(mid, before, first, still) && Follows(now, mid, later, receiving)
    requires !still ==> later == [] && !receiving
    ensures Follows(now, before, first + later, receiving)
  {
    assert before + (first + later) == before + first + later;
  }

  lemma OneFollows(now: seq<Notice>, before: seq<Notice>, sent: seq<Notice>, handed: seq<Notice>, receiving: bool)
    requires sent <= before
    requires now == before + handed || (handed == [] && (now == before || (now == sent && !receiving)))
    ensures Follows(now, before, handed, receiving)
  {
    assert before + [] == before;
  }

  lemma PipeFollows(s: Sys, e: Event, r: nat)
    requires Structure(s) && Enabled(s, e) && r in s.h.logs && In(s, r)
    ensures r in Apply(s, e).h.logs && In(Apply(s, e), r)
    ensures Follows(Pipe(Apply(s, e), r), Pipe(s, r), Handed(s, e, r), Receiving(Apply(s, e), r))
  {
    PipeStep(s, e, r);
    OneFollows(Pipe(Apply(s, e), r), Pipe(s, r), s.h.logs[r].sent, Handed(s, e, r), Receiving(Apply(s, e), r));
  }

  // Along any run the notices sent in full, being written and queued are those
  // that were there before followed by those handed over since, in that order;
  // as long as the control stream lasts, none is missing.
  lemma {:induction false} FirstInFirstOut(s: Sys, es: seq<Event>, r: nat)
    requires Inv(s) && Legal(s, es) && r in s.h.logs && In(s, r)
    ensures var s' := Exec(s, es);
      r in s'.h.logs && In(s', r) &&
      Follows(Pipe(s', r), Pipe(s, r), HandedTo(s, es, r), Receiving(s', r))
    decreases |es|, 0
  {
    if es != [] {
      PipeFollows(s, es[0], r);
      InvStep(s, es[0]);
      FifoOn(s, Apply(s, es[0]), Handed(s, es[0], r), es[1..], r);
    }
  }

  lemma {:induction false} FifoOn(s: Sys, s1: Sys, first: seq<Notice>, rest: seq<Event>, r: nat)
    requires r in s.h.logs && In(s, r) && r in s1.h.logs && In(s1, r)
    requires Inv(s1) && Legal(s1, rest) && Follows(Pipe(s1, r), Pipe(s, r), first, Receiving(s1, r))
    ensures var s' := Exec(s1, rest);
      r in s'.h.logs && In(s', r) &&
      Follows(Pipe(s', r), Pipe(s, r), first + HandedTo(s1, rest, r), Receiving(s', r))
    decreases |rest|, 1
  {
    FirstInFirstOut(s1, rest, r);
    if !Receiving(s1, r) {
      NothingAfterEnd(s1, rest, r);
    }
    var s' := Exec(s1, rest);
    FollowsOn(Pipe(s', r), Pipe(s1, r), Pipe(s, r), first, HandedTo(s1, rest, r), Receiving(s', r), Receiving(s1, r));
  }

  // Before its registration nothing is handed to `r`.
  lemma NotYetStep(s: Sys, e: Event, r: nat)
    requires Structure(s) && Enabled(s, e) && r !in s.h.logs
    ensures Handed(s, e, r) == []
    ensures r in Apply(s, e).h.logs ==> In(Apply(s, e), r) && Pipe(Apply(s, e), r) == []
  {
    assert In(s, r) ==> TaskOk(s, r);
    if r in Apply(s, e).h.logs {
      LogOrigin(s, e, r);
      NewPipe(s, e);
    }
  }

  // What a control stream has carried in a whole run is the first of the notices
  // handed to it in that run.
  lemma {:induction false} CarriedInOrder(s: Sys, es: seq<Event>, r: nat)
    requires Inv(s) && Legal(s, es) && r !in s.h.logs && r in Exec(s, es).h.logs
    ensures Exec(s, es).h.logs[r].sent <= HandedTo(s, es, r)
    decreases |es|
  {
    if es != [] {
      var s1 := Apply(s, es[0]);
      NotYetStep(s, es[0], r);
      InvStep(s, es[0]);
      if r in s1.h.logs {
        FirstInFirstOut(s1, es[1..], r);
      } else {
        CarriedInOrder(s1, es[1..], r);
      }
    }
  }
}
