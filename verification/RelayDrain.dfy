// Once no more sockets are accepted, the relay comes to rest.
module RelayDrain {
  import opened Net
  import opened Frame
  import opened RelayState
  import opened Relay
  import opened RelayCount
  import opened RelayInvariant
  import opened RelayFrame
  import opened RelayRuns
  import opened RelayCounting
  import opened RelayDeadline
  import opened RelayRest
  import opened RelayStall

  // An upper bound on the work still to be done: steps of tasks, queued
  // notifications, outstanding reapers, and the shutdown itself.
  ghost function WorkLeft(s: Sys): nat {
    Total(Work, s.tasks) + |s.reapers| + Indicator(!s.term)
  }

  lemma ExitWork(s: Sys, e: Event)
    requires Enabled(s, e) && Exits(e)
    ensures Shaped(s, e, Apply(s, e)) && After(Work, s, e, Apply(s, e)) < Before(Work, s, e)
    ensures Apply(s, e).reapers == s.reapers && Apply(s, e).term == s.term
  {
    ExitShaped(s, e);
  }

  lemma DriveWork(s: Sys, e: Event)
    requires Enabled(s, e) && Drives(e)
    requires s.tasks[e.i].phase.out.Writing? ==> s.tasks[e.i].phase.out.done < FRAME_SIZE
    ensures Shaped(s, e, Apply(s, e)) && After(Work, s, e, Apply(s, e)) < Before(Work, s, e)
    ensures Apply(s, e).reapers == s.reapers && Apply(s, e).term == s.term
  {
    DriveShaped(s, e);
  }

  lemma AddReaper(reapers: map<Tx3Id, nat>, t: Tx3Id, at: nat)
    ensures |reapers[t := at]| <= |reapers| + 1
  {
    assert reapers[t := at].Keys == reapers.Keys + {t};
  }

  lemma PresentWork(s: Sys, e: Event)
    requires Enabled(s, e) && e.Present?
    ensures Shaped(s, e, Apply(s, e)) && Apply(s, e).term == s.term
    ensures After(Work, s, e, Apply(s, e)) + 1 < Before(Work, s, e)
  {
    StepShaped(s, e);
    PresentPhase(s, e);
    FromReading(s, e, Apply(s, e));
  }

  lemma FromReading(s: Sys, e: Event, s': Sys)
    requires Enabled(s, e) && e.Present? && Shaped(s, e, s') && In(s', e.i)
    requires var p := s'.tasks[e.i].phase; p.Handshake? || p.Notifying? || p.Splicing? || p.Done?
    ensures After(Work, s, e, s') + 1 < Before(Work, s, e)
  {
  }

  lemma OtherWork(s: Sys, e: Event)
    requires Enabled(s, e) && (e.HandshakeDone? || e.Send?)
    ensures Shaped(s, e, Apply(s, e)) && After(Work, s, e, Apply(s, e)) < Before(Work, s, e)
    ensures Apply(s, e).reapers == s.reapers && Apply(s, e).term == s.term
  {
    StepShaped(s, e);
  }

  // Every step but an accept and the passing of time uses up some of it.
  lemma WorkStep(s: Sys, e: Event)
    requires Structure(s) && Enabled(s, e) && !e.Accept?
    ensures if e.Tick? then WorkLeft(Apply(s, e)) == WorkLeft(s) else WorkLeft(Apply(s, e)) < WorkLeft(s)
  {
    if Exits(e) {
      ExitWork(s, e);
    } else if Drives(e) {
      assert TaskOk(s, e.i);
      DriveWork(s, e);
    } else if e.Present? {
      PresentWork(s, e);
      ReapersResult(s, e);
      AddReaper(s.reapers, e.splice, Deadline(s, e.i));
    } else if e.HandshakeDone? || e.Send? {
      OtherWork(s, e);
    } else {
      StepShaped(s, e);
      if e.Reap? { assert (s.reapers - {e.token}).Keys == s.reapers.Keys - {e.token}; }
    }
    TotalStep(Work, s, e, Apply(s, e));
  }

  function Steps(es: seq<Event>): nat {
    if es == [] then 0 else Indicator(!es[0].Tick?) + Steps(es[1..])
  }

  predicate NoAccept(es: seq<Event>) {
    forall k :: 0 <= k < |es| ==> !es[k].Accept?
  }

  // Every run without accepts is finite, up to the passing of time.
  lemma {:induction false} RunsAreFinite(s: Sys, es: seq<Event>)
    requires Inv(s) && Legal(s, es) && NoAccept(es)
    ensures Steps(es) + WorkLeft(Exec(s, es)) <= WorkLeft(s)
    decreases |es|
  {
    if es != [] {
      WorkStep(s, es[0]);
      InvStep(s, es[0]);
      RunsAreFinite(Apply(s, es[0]), es[1..]);
    }
  }

  // --- No deadlock ---

  // If the clients read, a sender is never stuck: it can send, or the receiver is
  // gone, or the channel is full and its receiver can take the next step towards
  // emptying it.
  lemma SenderProgress(s: Sys, i: nat) returns (e: Event)
    requires Inv(s) && In(s, i) && s.tasks[i].phase.Notifying?
    ensures Enabled(s, e)
    ensures var reg := s.tasks[i].phase.reg;
      e == Send(i) || e == SendFail(i) || e == SendAllClear(reg) || e == Recv(reg) || e == Write(reg, 1)
  {
    var reg := s.tasks[i].phase.reg;
    if !Receiving(s, reg) {
      e := SendFail(i);
    } else if |s.tasks[reg].phase.queue| < CAPACITY {
      e := Send(i);
    } else {
      assert TaskOk(s, reg);
      e := match s.tasks[reg].phase.out
           case AllClear => SendAllClear(reg)
           case Idle => Recv(reg)
           case Writing(_, _) => Write(reg, 1);
    }
  }

  // The steps that bring a blocked sender on: its own and those of its receiver.
  predicate Serves(e: Event, sender: nat, reg: nat) {
    e == Send(sender) || e == SendFail(sender) ||
    e == SendAllClear(reg) || e == Recv(reg) || (e.Write? && e.i == reg)
  }

  predicate AllServe(es: seq<Event>, sender: nat, reg: nat) {
    forall k :: 0 <= k < |es| ==> Serves(es[k], sender, reg)
  }

  lemma ServeMore(e: Event, rest: seq<Event>, sender: nat, reg: nat)
    requires Serves(e, sender, reg) && AllServe(rest, sender, reg)
    ensures AllServe([e] + rest, sender, reg)
  {
  }

  lemma SenderKeeps(s: Sys, i: nat, e: Event)
    requires Enabled(s, e) && In(s, i) && s.tasks[i].phase.Notifying?
    requires e.SendAllClear? || e.Recv? || e.Write?
    ensures In(Apply(s, e), i) && Apply(s, e).tasks[i] == s.tasks[i]
  {
    StepShaped(s, e);
  }

  lemma SenderEnds(s: Sys, i: nat, e: Event)
    requires Enabled(s, e) && (e == Send(i) || e == SendFail(i))
    ensures In(Apply(s, e), i) && Apply(s, e).tasks[i].phase.Done?
  {
  }

  lemma SenderStep(s: Sys, i: nat) returns (e: Event, s': Sys)
    requires Inv(s) && In(s, i) && s.tasks[i].phase.Notifying?
    ensures Enabled(s, e) && s' == Apply(s, e) && Inv(s') && WorkLeft(s') < WorkLeft(s)
    ensures Serves(e, i, s.tasks[i].phase.reg) && In(s', i)
    ensures s'.tasks[i].phase.Done? || s'.tasks[i] == s.tasks[i]
  {
    e := SenderProgress(s, i);
    s' := Apply(s, e);
    WorkStep(s, e);
    InvStep(s, e);
    if e == Send(i) || e == SendFail(i) {
      SenderEnds(s, i, e);
    } else {
      SenderKeeps(s, i, e);
    }
  }

  // If its client reads, a sender blocked on the full channel comes to an end by
  // steps of itself and of its receiver alone.
  lemma {:induction false} SenderFinishes(s: Sys, i: nat) returns (es: seq<Event>)
    requires Inv(s) && In(s, i) && s.tasks[i].phase.Notifying?
    ensures Legal(s, es) && In(Exec(s, es), i) && Exec(s, es).tasks[i].phase.Done?
    ensures AllServe(es, i, s.tasks[i].phase.reg)
    decreases WorkLeft(s)
  {
    var e, s' := SenderStep(s, i);
    var rest: seq<Event> := [];
    if s'.tasks[i].phase.Notifying? {
      rest := SenderFinishes(s', i);
    }
    Prepend(s, e, rest);
    es := [e] + rest;
    ServeMore(e, rest, i, s.tasks[i].phase.reg);
  }

  // Who takes part besides the relay with its timers: nobody; clients that read
  // what is written to them; peers that close their connections; the shutdown.
  datatype Help = Alone | ClientsRead | PeersLeave | Shutdown

  predicate Own(e: Event) {
    e.Recv? || e.SendersGone? || e.Cleanup? || e.Send? || e.SendFail? || e.Timeout? || e.Reap? || e.Tick?
  }

  predicate Allowed(help: Help, e: Event) {
    match help
    case Alone => Own(e)
    case ClientsRead => Own(e) || e.SendAllClear? || e.Write?
    case PeersLeave => Own(e) || e.ControlEnd? || e.SpliceEnd?
    case Shutdown => e.Cancel? || e.Cleanup? || e.Reap? || e.Tick?
  }

  predicate AllAllowed(help: Help, es: seq<Event>) {
    forall k :: 0 <= k < |es| ==> Allowed(help, es[k])
  }

  lemma AllowMore(help: Help, e: Event, rest: seq<Event>)
    requires Allowed(help, e) && AllAllowed(help, rest)
    ensures AllAllowed(help, [e] + rest)
  {
  }

  // Established connections that only their peers can end: splices, and control
  // streams that the relay knows and owes nothing.
  predicate Established(s: Sys, i: nat)
    requires In(s, i)
  {
    s.tasks[i].phase.Splicing? ||
    (s.tasks[i].phase.Control? && s.tasks[i].phase.out.Idle? && s.tasks[i].phase.queue == [] && Mapped(s, i))
  }

  // A control task that writes to its client, or a sender with no room behind it.
  predicate WaitsForRead(s: Sys, i: nat)
    requires In(s, i)
  {
    (s.tasks[i].phase.Control? && !s.tasks[i].phase.out.Idle?) || Blocked(s, i)
  }

  predicate Settled(s: Sys, help: Help, i: nat)
    requires In(s, i)
  {
    !Live(s.tasks[i].phase) ||
    (help.Alone? && (Established(s, i) || WaitsForRead(s, i))) ||
    (help.ClientsRead? && Established(s, i))
  }

  // All that remains waits for the other end of a connection: to read or to
  // close it, if nobody helps; to close it, if the clients read. Nothing remains
  // if the peers leave or the relay is shut down.
  ghost predicate AllSettled(s: Sys, help: Help) {
    (forall i: nat :: In(s, i) ==> Settled(s, help, i)) && s.reapers == map[]
  }

  lemma ControlProgress(s: Sys, help: Help, i: nat) returns (e: Event)
    requires Inv(s) && Receiving(s, i) && !Settled(s, help, i) && (help.Alone? || help.ClientsRead?)
    ensures Enabled(s, e) && Allowed(help, e) && !e.Tick?
  {
    var Control(_, out, queue) := s.tasks[i].phase;
    assert TaskOk(s, i);
    match out {
      case AllClear => e := SendAllClear(i);
      case Writing(_, _) => e := Write(i, 1);
      case Idle =>
        if queue != [] {
          e := Recv(i);
        } else if j: nat :| Notifies(s, j, i) {
          e := Send(j);
        } else {
          e := SendersGone(i);
        }
    }
  }

  lemma NotifyProgress(s: Sys, help: Help, i: nat) returns (e: Event)
    requires Inv(s) && In(s, i) && s.tasks[i].phase.Notifying? && !help.Shutdown?
    requires !Settled(s, help, i)
    ensures Enabled(s, e) && Allowed(help, e) && !e.Tick?
  {
    var reg := s.tasks[i].phase.reg;
    if help.ClientsRead? {
      e := SenderProgress(s, i);
    } else if Blocked(s, i) {
      e := ControlEnd(reg);
    } else {
      if Receiving(s, reg) { QueueFits(s, reg); }
      BlockedOrNot(s, i);
      e := if Enabled(s, Send(i)) then Send(i) else if Enabled(s, SendFail(i)) then SendFail(i) else Recv(reg);
    }
  }

  // A task that is not waiting for a timer.
  lemma TaskProgress(s: Sys, help: Help, i: nat) returns (e: Event)
    requires Inv(s) && In(s, i) && !Settled(s, help, i) && (help.Shutdown? ==> s.term)
    requires !help.Shutdown? ==> !Timed(s.tasks[i].phase)
    ensures Enabled(s, e) && Allowed(help, e) && !e.Tick?
  {
    if s.tasks[i].phase.Ending? {
      e := Cleanup(i);
    } else if help.Shutdown? {
      e := Cancel(i);
    } else if s.tasks[i].phase.Notifying? {
      e := NotifyProgress(s, help, i);
    } else if s.tasks[i].phase.Splicing? {
      e := SpliceEnd(i);
    } else if help.PeersLeave? {
      e := ControlEnd(i);
    } else {
      e := ControlProgress(s, help, i);
    }
  }

  // A timer that is due.
  ghost predicate Due(s: Sys) {
    (exists t :: t in s.reapers && s.reapers[t] <= s.now) ||
    (exists i: nat :: In(s, i) && Timed(s.tasks[i].phase) && Deadline(s, i) <= s.now)
  }

  lemma TimerProgress(s: Sys, help: Help) returns (e: Event)
    requires Due(s) && (help.Shutdown? ==> forall i: nat :: In(s, i) ==> !Timed(s.tasks[i].phase))
    ensures Enabled(s, e) && Allowed(help, e) && !e.Tick?
  {
    if t :| t in s.reapers && s.reapers[t] <= s.now {
      e := Reap(t);
    } else {
      var i: nat :| In(s, i) && Timed(s.tasks[i].phase) && Deadline(s, i) <= s.now;
      e := Timeout(i);
    }
  }

  // Let the clock reach some timer.
  lemma ClockProgress(s: Sys) returns (e: Event)
    requires s.reapers != map[] || exists i: nat :: In(s, i) && Timed(s.tasks[i].phase)
    ensures e.Tick? && Enabled(s, e) && Due(Apply(s, e))
  {
    if t :| t in s.reapers {
      e := Tick(s.reapers[t]);
      assert Apply(s, e).reapers[t] <= Apply(s, e).now;
    } else {
      var i: nat :| In(s, i) && Timed(s.tasks[i].phase);
      e := Tick(Deadline(s, i));
      assert Deadline(Apply(s, e), i) <= Apply(s, e).now;
    }
  }

  // As long as something is not settled there is an allowed step that makes
  // progress; the clock has to move only if all that is left waits for a timer.
  lemma Progress(s: Sys, help: Help) returns (e: Event)
    requires Inv(s) && !AllSettled(s, help) && (help.Shutdown? ==> s.term)
    ensures Enabled(s, e) && Allowed(help, e) && !e.Accept?
    ensures e.Tick? ==> !Due(s) && Due(Apply(s, e))
    ensures e.Tick? ==> forall i: nat :: In(s, i) && !Settled(s, help, i) ==> Timed(s.tasks[i].phase)
  {
    if i: nat :| In(s, i) && !Settled(s, help, i) && (!help.Shutdown? ==> !Timed(s.tasks[i].phase)) {
      e := TaskProgress(s, help, i);
    } else if Due(s) {
      NoneTimed(s, help);
      e := TimerProgress(s, help);
    } else {
      e := ClockProgress(s);
    }
  }

  lemma NoneTimed(s: Sys, help: Help)
    requires help.Shutdown? ==> forall i: nat :: In(s, i) ==> Settled(s, help, i)
    ensures help.Shutdown? ==> forall i: nat :: In(s, i) ==> !Timed(s.tasks[i].phase)
  {
    forall i: nat | In(s, i) && help.Shutdown? ensures !Timed(s.tasks[i].phase) {
      assert Settled(s, help, i);
    }
  }

  lemma Advance(s: Sys, help: Help) returns (e: Event, s': Sys)
    requires Inv(s) && !AllSettled(s, help) && (help.Shutdown? ==> s.term)
    ensures Enabled(s, e) && Allowed(help, e) && s' == Apply(s, e)
    ensures Inv(s') && (help.Shutdown? ==> s'.term)
    ensures WorkLeft(s') < WorkLeft(s) || (WorkLeft(s') == WorkLeft(s) && Due(s') && !Due(s))
  {
    e := Progress(s, help);
    s' := Apply(s, e);
    WorkStep(s, e);
    InvStep(s, e);
    StepMoves(s, e);
  }

  // From every state the relay by itself, with its timers, comes to one in which
  // all that is left waits for the other end of a connection. If the clients read
  // only established connections are left; if the peers leave it comes to rest,
  // and after shutdown it does so without them.
  lemma {:induction false} Settle(s: Sys, help: Help) returns (es: seq<Event>)
    requires Inv(s) && (help.Shutdown? ==> s.term)
    ensures Legal(s, es) && AllSettled(Exec(s, es), help)
    ensures AllAllowed(help, es)
    decreases WorkLeft(s), !Due(s)
  {
    if AllSettled(s, help) {
      es := [];
    } else {
      var e, s' := Advance(s, help);
      var rest := Settle(s', help);
      Prepend(s, e, rest);
      es := [e] + rest;
      AllowMore(help, e, rest);
    }
  }

  lemma SettledIsRest(s: Sys, help: Help)
    requires help.PeersLeave? || help.Shutdown?
    ensures AllSettled(s, help) <==> AtRest(s)
  {
    forall i: nat | In(s, i) ensures Settled(s, help, i) <==> !Live(s.tasks[i].phase) {
    }
  }

  lemma PrependPunctual(s: Sys, e: Event, rest: seq<Event>)
    requires Enabled(s, e) && Punctual(s, e) && Legal(Apply(s, e), rest) && PunctualRun(Apply(s, e), rest)
    ensures Legal(s, [e] + rest) && PunctualRun(s, [e] + rest)
  {
    assert ([e] + rest)[1..] == rest;
  }

  // Punctuality never stops the clock: whatever is going on, time can reach any
  // later moment by itself, with every timer fired when it was due.
  lemma {:induction false} TimePasses(s: Sys, until: nat) returns (es: seq<Event>)
    requires Inv(s) && OnTime(s)
    ensures Legal(s, es) && PunctualRun(s, es) && Exec(s, es).now >= until
    ensures forall k :: 0 <= k < |es| ==> es[k].Tick? || Fires(es[k])
    decreases if s.now < until then until - s.now else 0, WorkLeft(s)
  {
    if s.now >= until {
      es := [];
    } else {
      var e := ClockOrTimer(s);
      WorkStep(s, e);
      NowResult(s, e);
      InvStep(s, e);
      OnTimeStep(s, e);
      var rest := TimePasses(Apply(s, e), until);
      Prepend(s, e, rest);
      PrependPunctual(s, e, rest);
      es := [e] + rest;
    }
  }
}
