// The relay server as a transition system. Every accepted socket is served by
// one task; a step is what one task does between two await points, a firing
// timer, or the passing of time. Permits are part of the phase that holds them,
// so leaving a phase by any exit releases what the phase held.
module Relay {
  import opened Net
  import opened Frame
  import opened RelayState

  datatype Config = Config(
    relayCert: Tx3Id, maxInbound: nat, maxControl: nat, maxPerIp: nat, maxRelays: nat, timeout: nat)

  // What the write side of a control task is doing.
  datatype Output = AllClear | Idle | Writing(notice: Notice, done: nat)

  datatype Phase =
    | Reading                                   // read_exact of the 32-byte token
    | Handshake                                 // TLS accept; holds a control permit
    | Control(cert: Tx3Id, out: Output, queue: seq<Notice>)  // registered; owns the receiver
    | Ending(cert: Tx3Id)                       // receiver dropped; maps not yet cleaned
    | Notifying(token: Tx3Id, reg: nat)         // holds a sender clone, waits to send
    | Splicing(token: Tx3Id, peer: nat, reg: nat)  // owns both sockets and a relay permit
    | Done
    | Leaked(cert: Tx3Id)                       // control task cancelled; maps never cleaned

  // `presented`: the token read from the socket. `token`: the splice token
  // issued for the socket, once it waits for its target.
  datatype Task = Task(
    addr: SocketAddr, start: nat, presented: Option<Tx3Id>, token: Option<Tx3Id>, phase: Phase)

  // What a registration has written: the notices sent in full, and the bytes.
  datatype Log = Log(cert: Tx3Id, sent: seq<Notice>, wire: seq<Byte>)

  datatype Issue = Issue(sock: nat, cert: Tx3Id, reg: nat)

  datatype Splice = Splice(joiner: nat, at: nat)

  datatype Sys = Sys(
    cfg: Config,
    sh: Shared,
    inbound: nat,                       // free permits of inbound_limit
    control: nat,                       // free permits of control_limit
    tasks: seq<Task>,
    reapers: map<Tx3Id, nat>,           // spawned reapers and when they fire
    now: nat,
    term: bool,
    h: History)

  // What has happened so far. Only the freshness assumption reads it.
  datatype History = History(
    logs: map<nat, Log>,
    certs: set<Tx3Id>,                  // digests that ever registered
    issued: map<Tx3Id, Issue>,
    spliced: map<Tx3Id, Splice>,
    reaped: set<Tx3Id>)                 // tokens whose entry a reaper removed

  datatype Event =
    | Accept(addr: SocketAddr, configured: bool)
    | Fail(i: nat)                      // read or handshake error
    | Timeout(i: nat)
    | Present(i: nat, presented: Tx3Id, splice: Tx3Id)
    | HandshakeDone(i: nat, cert: Tx3Id)
    | SendAllClear(i: nat)
    | Recv(i: nat)
    | Write(i: nat, count: nat)
    | ControlEnd(i: nat)                // read side returned, or a write failed
    | SendersGone(i: nat)               // recv returned None
    | Cleanup(i: nat)
    | Send(i: nat)
    | SendFail(i: nat)
    | SpliceEnd(i: nat)
    | Reap(token: Tx3Id)
    | Tick(d: nat)
    | Term
    | Cancel(i: nat)

  const CAPACITY := 1

  function Init(cfg: Config): Sys {
    Sys(cfg, Shared(map[], map[], map[], map[]), cfg.maxInbound, cfg.maxControl, [], map[], 0, false,
        History(map[], {}, map[], map[], {}))
  }

  function Deadline(s: Sys, i: nat): nat
    requires i < |s.tasks|
  {
    s.tasks[i].start + s.cfg.timeout
  }

  predicate In(s: Sys, i: nat) { i < |s.tasks| }

  // The receiver of registration `reg` has not been dropped.
  predicate Receiving(s: Sys, reg: nat) {
    In(s, reg) && s.tasks[reg].phase.Control?
  }

  predicate Mapped(s: Sys, reg: nat) {
    exists c :: c in s.sh.controls && s.sh.controls[c] == reg
  }

  predicate Notifies(s: Sys, i: nat, reg: nat) {
    In(s, i) && s.tasks[i].phase.Notifying? && s.tasks[i].phase.reg == reg
  }

  // A random splice token never repeats and is never a certificate digest.
  predicate Fresh(s: Sys, token: Tx3Id) {
    token !in s.h.issued && token !in s.h.certs && token != s.cfg.relayCert
  }

  predicate Awaiting(p: Phase) {
    p.Reading? || p.Handshake? || p.Control? || p.Notifying? || p.Splicing?
  }

  ghost predicate Enabled(s: Sys, e: Event) {
    match e
    case Accept(_, _) => true
    case Fail(i) => In(s, i) && (s.tasks[i].phase.Reading? || s.tasks[i].phase.Handshake?)
    case Timeout(i) =>
      In(s, i) && (s.tasks[i].phase.Reading? || s.tasks[i].phase.Handshake?) && Deadline(s, i) <= s.now
    case Present(i, _, splice) => In(s, i) && s.tasks[i].phase.Reading? && Fresh(s, splice)
    case HandshakeDone(i, cert) => In(s, i) && s.tasks[i].phase.Handshake? && cert !in s.h.issued
    case SendAllClear(i) => Receiving(s, i) && s.tasks[i].phase.out.AllClear?
    case Recv(i) => Receiving(s, i) && s.tasks[i].phase.out.Idle? && s.tasks[i].phase.queue != []
    case Write(i, count) =>
      Receiving(s, i) && s.tasks[i].phase.out.Writing? &&
      0 < count && s.tasks[i].phase.out.done + count <= FRAME_SIZE
    case ControlEnd(i) => Receiving(s, i)
    case SendersGone(i) =>
      Receiving(s, i) && s.tasks[i].phase.out.Idle? && s.tasks[i].phase.queue == [] &&
      !Mapped(s, i) && forall j :: !Notifies(s, j, i)
    case Cleanup(i) => In(s, i) && s.tasks[i].phase.Ending?
    case Send(i) =>
      In(s, i) && s.tasks[i].phase.Notifying? &&
      Receiving(s, s.tasks[i].phase.reg) && |s.tasks[s.tasks[i].phase.reg].phase.queue| < CAPACITY
    case SendFail(i) =>
      In(s, i) && s.tasks[i].phase.Notifying? && !Receiving(s, s.tasks[i].phase.reg)
    case SpliceEnd(i) => In(s, i) && s.tasks[i].phase.Splicing?
    case Reap(token) => token in s.reapers && s.reapers[token] <= s.now
    case Tick(_) => true
    case Term => !s.term
    case Cancel(i) => s.term && In(s, i) && Awaiting(s.tasks[i].phase)
  }

  function SetPhase(s: Sys, i: nat, p: Phase): Sys
    requires In(s, i)
  {
    s.(tasks := s.tasks[i := s.tasks[i].(phase := p)])
  }

  function SetLog(s: Sys, i: nat, log: Log): Sys {
    s.(h := s.h.(logs := s.h.logs[i := log]))
  }

  // Task `i` ends and drops every permit its phase held.
  function Finish(s: Sys, i: nat, last: Phase): Sys
    requires In(s, i)
  {
    var p := s.tasks[i].phase;
    var holdsControl := p.Handshake? || p.Control? || p.Ending?;
    var limits := if p.Splicing? then Release(s.sh.limits, p.reg) else s.sh.limits;
    SetPhase(s, i, last).(
      inbound := s.inbound + 1,
      control := if holdsControl then s.control + 1 else s.control,
      sh := s.sh.(limits := limits))
  }

  function Look(s: Sys, i: nat, presented: Tx3Id, splice: Tx3Id): Sys
    requires In(s, i)
  {
    var (sh, res) := LookupSpec(s.sh, presented, splice, i);
    match res
    case HaveControl(reg) =>
      s.(sh := sh,
         tasks := s.tasks[i := s.tasks[i].(presented := Some(presented), token := Some(splice),
                                           phase := Notifying(splice, reg))],
         reapers := s.reapers[splice := Deadline(s, i)],
         h := s.h.(issued := s.h.issued[splice := Issue(i, presented, reg)]))
    case HaveConToken(peer, reg) =>
      s.(sh := sh,
         tasks := s.tasks[i := s.tasks[i].(presented := Some(presented),
                                           phase := Splicing(presented, peer, reg))],
         h := s.h.(spliced := s.h.spliced[presented := Splice(i, s.now)]))
    case Drop => Finish(s, i, Done)
  }

  function Register(s: Sys, i: nat, cert: Tx3Id): Sys
    requires In(s, i)
  {
    var (sh, ok) :=
      RegisterSpec(s.sh, s.tasks[i].addr.Ip(), cert, i, s.cfg.maxPerIp, s.cfg.maxRelays);
    if ok then
      SetPhase(s, i, Control(cert, AllClear, [])).(
        sh := sh,
        h := s.h.(logs := s.h.logs[i := Log(cert, [], [])], certs := s.h.certs + {cert}))
    else
      Finish(s.(sh := sh), i, Done)
  }

  function LogOf(s: Sys, i: nat): Log
    requires Receiving(s, i)
  {
    if i in s.h.logs then s.h.logs[i] else Log(s.tasks[i].phase.cert, [], [])
  }

  // `count` more bytes of the current frame reach the wire.
  function EmitStep(out: Output, log: Log, count: nat): (Output, Log)
    requires out.Writing? && out.done + count <= FRAME_SIZE
  {
    var wire := log.wire + EncodeFrame(out.notice)[out.done..out.done + count];
    if out.done + count == FRAME_SIZE then
      (Idle, log.(sent := log.sent + [out.notice], wire := wire))
    else
      (out.(done := out.done + count), log.(wire := wire))
  }

  function Emit(s: Sys, i: nat, count: nat): Sys
    requires Receiving(s, i) && s.tasks[i].phase.out.Writing?
    requires s.tasks[i].phase.out.done + count <= FRAME_SIZE
  {
    var (out, log) := EmitStep(s.tasks[i].phase.out, LogOf(s, i), count);
    SetLog(SetPhase(s, i, s.tasks[i].phase.(out := out)), i, log)
  }

  ghost function Apply(s: Sys, e: Event): (r: Sys)
    requires Enabled(s, e)
  {
    match e
    case Accept(addr, configured) =>
      if s.inbound == 0 || !configured then s
      else s.(inbound := s.inbound - 1, tasks := s.tasks + [Task(addr, s.now, None, None, Reading)])
    case Fail(i) => Finish(s, i, Done)
    case Timeout(i) => Finish(s, i, Done)
    case Present(i, presented, splice) =>
      if presented == s.cfg.relayCert then
        if s.control == 0 then Finish(s, i, Done)
        else s.(control := s.control - 1,
                tasks := s.tasks[i := s.tasks[i].(presented := Some(presented), phase := Handshake)])
      else Look(s, i, presented, splice)
    case HandshakeDone(i, cert) => Register(s, i, cert)
    case SendAllClear(i) =>
      var p := s.tasks[i].phase;
      SetLog(SetPhase(s, i, p.(out := Idle)), i, Log(p.cert, [], [0]))
    case Recv(i) =>
      var p := s.tasks[i].phase;
      SetPhase(s, i, p.(out := Writing(p.queue[0], 0), queue := p.queue[1..]))
    case Write(i, count) => Emit(s, i, count)
    case ControlEnd(i) => SetPhase(s, i, Ending(s.tasks[i].phase.cert))
    case SendersGone(i) => SetPhase(s, i, Ending(s.tasks[i].phase.cert))
    case Cleanup(i) =>
      Finish(s.(sh := CleanupSpec(s.sh, s.tasks[i].addr.Ip(), s.tasks[i].phase.cert)), i, Done)
    case Send(i) =>
      var reg := s.tasks[i].phase.reg;
      var p := s.tasks[reg].phase;
      var notice := Notice(s.tasks[i].phase.token, s.tasks[i].addr);
      Finish(SetPhase(s, reg, p.(queue := p.queue + [notice])), i, Done)
    case SendFail(i) => Finish(s, i, Done)
    case SpliceEnd(i) => Finish(s, i, Done)
    case Reap(token) =>
      s.(sh := RemovePending(s.sh, token),
         reapers := s.reapers - {token},
         h := if token in s.sh.pending then s.h.(reaped := s.h.reaped + {token}) else s.h)
    case Tick(d) => s.(now := s.now + d)
    case Term => s.(term := true)
    case Cancel(i) =>
      var p := s.tasks[i].phase;
      Finish(s, i, if p.Control? then Leaked(p.cert) else Done)
  }
}
