// Counting over the task table: what the tasks hold between them.
module RelayCount {
  import opened Net
  import opened Relay
  import opened RelayState

  datatype Measure =
    | Inbound             // tasks holding an inbound permit
    | ControlPermit       // tasks holding a control permit
    | RelayPermit(reg: nat)  // splices holding a permit of this registration
    | Splices             // splices
    | FromIp(ip: IpAddr)  // registered and not cleaned up, from this address
    | Registered          // registered and not cleaned up
    | LeakedControls      // registered, cancelled and never to be cleaned up
    | Waiting(reg: nat)   // notifications to this registration in flight or queued
    | Work                // bound on the steps a task can still take

  predicate IsRegistered(p: Phase) {
    p.Control? || p.Ending? || p.Leaked?
  }

  // A control stream that has not ended and was not cancelled.
  predicate Runs(p: Phase) {
    p.Control? || p.Ending?
  }

  function Indicator(b: bool): nat {
    if b then 1 else 0
  }

  function OutputWork(out: Output): nat {
    match out
    case AllClear => 3
    case Idle => 2
    case Writing(_, done) => if done < 50 then 53 - done else 3
  }

  function PhaseWork(p: Phase): nat {
    match p
    case Reading => 55
    case Handshake => 4
    case Control(_, out, queue) => OutputWork(out) + 52 * |queue|
    case Ending(_) => 1
    case Notifying(_, _) => 53
    case Splicing(_, _, _) => 1
    case Done => 0
    case Leaked(_) => 0
  }

  function Weigh(m: Measure, t: Task): nat {
    var p := t.phase;
    match m
    case Inbound => Indicator(!p.Done? && !p.Leaked?)
    case ControlPermit => Indicator(p.Handshake? || p.Control? || p.Ending?)
    case RelayPermit(reg) => Indicator(p.Splicing? && p.reg == reg)
    case Splices => Indicator(p.Splicing?)
    case FromIp(ip) => Indicator(IsRegistered(p) && t.addr.Ip() == ip)
    case Registered => Indicator(IsRegistered(p))
    case LeakedControls => Indicator(p.Leaked?)
    case Waiting(reg) => Indicator(p.Notifying? && p.reg == reg)
    case Work => PhaseWork(p)
  }

  function Total(m: Measure, tasks: seq<Task>): nat {
    if tasks == [] then 0 else Total(m, tasks[..|tasks| - 1]) + Weigh(m, tasks[|tasks| - 1])
  }

  lemma {:induction false} TotalSet(m: Measure, tasks: seq<Task>, i: nat, t: Task)
    requires i < |tasks|
    ensures Total(m, tasks[i := t]) + Weigh(m, tasks[i]) == Total(m, tasks) + Weigh(m, t)
  {
    var n := |tasks| - 1;
    if i == n {
      assert tasks[i := t][..n] == tasks[..n];
    } else {
      assert tasks[i := t][..n] == tasks[..n][i := t];
      TotalSet(m, tasks[..n], i, t);
    }
  }

  lemma TotalAppend(m: Measure, tasks: seq<Task>, t: Task)
    ensures Total(m, tasks + [t]) == Total(m, tasks) + Weigh(m, t)
  {
    assert (tasks + [t])[..|tasks|] == tasks;
  }

  lemma {:induction false} TotalLeq(m: Measure, n: Measure, tasks: seq<Task>)
    requires forall t :: t in tasks ==> Weigh(m, t) <= Weigh(n, t)
    ensures Total(m, tasks) <= Total(n, tasks)
  {
    if tasks != [] {
      assert tasks[|tasks| - 1] in tasks;
      TotalLeq(m, n, tasks[..|tasks| - 1]);
    }
  }

  lemma {:induction false} TotalZero(m: Measure, tasks: seq<Task>)
    ensures Total(m, tasks) == 0 <==> forall t :: t in tasks ==> Weigh(m, t) == 0
  {
    if tasks != [] {
      var n := |tasks| - 1;
      TotalZero(m, tasks[..n]);
      assert tasks == tasks[..n] + [tasks[n]];
      assert forall t :: t in tasks <==> t in tasks[..n] || t == tasks[n];
    }
  }

  lemma TotalMember(m: Measure, tasks: seq<Task>, i: nat)
    requires i < |tasks|
    ensures Weigh(m, tasks[i]) <= Total(m, tasks)
  {
    var t := tasks[i].(phase := Done);
    TotalSet(m, tasks, i, t);
  }

  lemma TotalSetTwo(m: Measure, tasks: seq<Task>, i: nat, t: Task, j: nat, u: Task)
    requires i < |tasks| && j < |tasks| && i != j
    ensures Total(m, tasks[i := t][j := u]) + Weigh(m, tasks[i]) + Weigh(m, tasks[j])
         == Total(m, tasks) + Weigh(m, t) + Weigh(m, u)
  {
    TotalSet(m, tasks, i, t);
    TotalSet(m, tasks[i := t], j, u);
  }

  lemma TotalTwo(m: Measure, tasks: seq<Task>, i: nat, j: nat)
    requires i < |tasks| && j < |tasks| && i != j
    ensures Weigh(m, tasks[i]) + Weigh(m, tasks[j]) <= Total(m, tasks)
  {
    TotalSetTwo(m, tasks, i, tasks[i].(phase := Done), j, tasks[j].(phase := Done));
  }

  // The task a step is about.
  function Actor(e: Event): nat {
    match e
    case Fail(i) => i
    case Timeout(i) => i
    case Present(i, _, _) => i
    case HandshakeDone(i, _) => i
    case SendAllClear(i) => i
    case Recv(i) => i
    case Write(i, _) => i
    case ControlEnd(i) => i
    case SendersGone(i) => i
    case Cleanup(i) => i
    case Send(i) => i
    case SendFail(i) => i
    case SpliceEnd(i) => i
    case Cancel(i) => i
    case _ => 0
  }

  predicate Spawns(s: Sys, e: Event) {
    e.Accept? && e.configured && s.inbound > 0
  }

  predicate Silent(s: Sys, e: Event) {
    e.Reap? || e.Tick? || e.Term? || (e.Accept? && !Spawns(s, e))
  }

  // Steps by which a task ends.
  predicate Exits(e: Event) {
    e.Fail? || e.Timeout? || e.Cleanup? || e.SendFail? || e.SpliceEnd? || e.Cancel?
  }

  // Steps of a control task that is still running.
  predicate Drives(e: Event) {
    e.SendAllClear? || e.Recv? || e.Write? || e.ControlEnd? || e.SendersGone?
  }

  // Steps that change no task that is already there.
  predicate Quiet(e: Event) {
    e.Accept? || e.Reap? || e.Tick? || e.Term?
  }

  // The four outcomes of presenting a token, by the branch that takes them.
  predicate OpensControl(s: Sys, e: Event) {
    e.Present? && e.presented == s.cfg.relayCert && s.control > 0
  }

  predicate Offers(s: Sys, e: Event) {
    e.Present? && e.presented != s.cfg.relayCert && e.presented in s.sh.controls &&
    Permits(s.sh.limits, s.sh.controls[e.presented]) > 0
  }

  predicate Joins(s: Sys, e: Event) {
    e.Present? && e.presented != s.cfg.relayCert && e.presented !in s.sh.controls &&
    e.presented in s.sh.pending
  }

  predicate Refused(s: Sys, e: Event) {
    e.Present? && !OpensControl(s, e) && !Offers(s, e) && !Joins(s, e)
  }

  function OfferResult(s: Sys, i: nat, presented: Tx3Id, splice: Tx3Id): Sys
    requires In(s, i) && presented in s.sh.controls
    requires Permits(s.sh.limits, s.sh.controls[presented]) > 0
  {
    var reg := s.sh.controls[presented];
    s.(sh := s.sh.(pending := s.sh.pending[splice := PendingInfo(i, reg)],
                   limits := s.sh.limits[reg := s.sh.limits[reg] - 1]),
       tasks := s.tasks[i := s.tasks[i].(presented := Some(presented), token := Some(splice),
                                         phase := Notifying(splice, reg))],
       reapers := s.reapers[splice := Deadline(s, i)],
       h := s.h.(issued := s.h.issued[splice := Issue(i, presented, reg)]))
  }

  function JoinResult(s: Sys, i: nat, presented: Tx3Id): Sys
    requires In(s, i) && presented in s.sh.pending
  {
    var info := s.sh.pending[presented];
    s.(sh := s.sh.(pending := s.sh.pending - {presented}),
       tasks := s.tasks[i := s.tasks[i].(presented := Some(presented),
                                         phase := Splicing(presented, info.sock, info.reg))],
       h := s.h.(spliced := s.h.spliced[presented := Splice(i, s.now)]))
  }

  lemma PresentResult(s: Sys, e: Event)
    requires Enabled(s, e) && e.Present? && e.splice !in s.sh.pending
    ensures OpensControl(s, e) ==> Apply(s, e) == s.(control := s.control - 1,
      tasks := s.tasks[e.i := s.tasks[e.i].(presented := Some(e.presented), phase := Handshake)])
    ensures Offers(s, e) ==> Apply(s, e) == OfferResult(s, e.i, e.presented, e.splice)
    ensures Joins(s, e) ==> Apply(s, e) == JoinResult(s, e.i, e.presented)
    ensures Refused(s, e) ==> Apply(s, e) == Finish(s, e.i, Done)
  {
  }

  // A step appends one task, changes the phase of its actor, or leaves the task
  // table alone; a send also touches the queue of the receiving control task.
  ghost predicate Shaped(s: Sys, e: Event, s': Sys)
    requires Enabled(s, e)
  {
    if Spawns(s, e) then s'.tasks == s.tasks + [Task(e.addr, s.now, None, None, Reading)]
    else if Silent(s, e) then s'.tasks == s.tasks
    else
      var i := Actor(e);
      i < |s.tasks| == |s'.tasks| &&
      if e.Send? then
        var reg := s.tasks[i].phase.reg;
        reg < |s.tasks| && reg != i &&
        s'.tasks == s.tasks[reg := s'.tasks[reg]][i := s'.tasks[i]]
      else
        s'.tasks == s.tasks[i := s'.tasks[i]]
  }

  lemma ExitShaped(s: Sys, e: Event)
    requires Enabled(s, e) && Exits(e)
    ensures Shaped(s, e, Apply(s, e))
  {
  }

  lemma DriveShaped(s: Sys, e: Event)
    requires Enabled(s, e) && Drives(e)
    ensures Shaped(s, e, Apply(s, e))
  {
  }

  lemma StepShaped(s: Sys, e: Event)
    requires Enabled(s, e)
    ensures Shaped(s, e, Apply(s, e))
  {
    if Exits(e) {
      ExitShaped(s, e);
    } else if Drives(e) {
      DriveShaped(s, e);
    } else {
      match e {
        case Accept(_, _) =>
        case Present(_, _, _) =>
        case HandshakeDone(_, _) =>
        case Send(_) =>
        case Reap(_) =>
        case Tick(_) =>
        case Term =>
      }
    }
  }

  // How a step changes any count over the task table.
  function Before(m: Measure, s: Sys, e: Event): nat
    requires Enabled(s, e)
  {
    if Spawns(s, e) || Silent(s, e) then 0
    else if e.Send? then Weigh(m, s.tasks[e.i]) + Weigh(m, s.tasks[s.tasks[e.i].phase.reg])
    else Weigh(m, s.tasks[Actor(e)])
  }

  ghost function After(m: Measure, s: Sys, e: Event, s': Sys): nat
    requires Enabled(s, e) && Shaped(s, e, s')
  {
    if Spawns(s, e) then Weigh(m, Task(e.addr, s.now, None, None, Reading))
    else if Silent(s, e) then 0
    else if e.Send? then Weigh(m, s'.tasks[e.i]) + Weigh(m, s'.tasks[s.tasks[e.i].phase.reg])
    else Weigh(m, s'.tasks[Actor(e)])
  }

  lemma TotalSend(m: Measure, s: Sys, e: Event, s': Sys)
    requires Enabled(s, e) && Shaped(s, e, s') && e.Send?
    ensures Total(m, s'.tasks) + Before(m, s, e) == Total(m, s.tasks) + After(m, s, e, s')
  {
    var reg := s.tasks[e.i].phase.reg;
    TotalSetTwo(m, s.tasks, reg, s'.tasks[reg], e.i, s'.tasks[e.i]);
  }

  lemma TotalOne(m: Measure, s: Sys, e: Event, s': Sys)
    requires Enabled(s, e) && Shaped(s, e, s') && !e.Send? && !Silent(s, e) && !e.Accept?
    ensures Total(m, s'.tasks) + Before(m, s, e) == Total(m, s.tasks) + After(m, s, e, s')
  {
    TotalSet(m, s.tasks, Actor(e), s'.tasks[Actor(e)]);
  }

  lemma TotalStep(m: Measure, s: Sys, e: Event, s': Sys)
    requires Enabled(s, e) && Shaped(s, e, s')
    ensures Total(m, s'.tasks) + Before(m, s, e) == Total(m, s.tasks) + After(m, s, e, s')
  {
    if Spawns(s, e) {
      TotalAppend(m, s.tasks, Task(e.addr, s.now, None, None, Reading));
    } else if Silent(s, e) {
    } else if e.Send? {
      TotalSend(m, s, e, s');
    } else {
      TotalOne(m, s, e, s');
    }
  }
}
