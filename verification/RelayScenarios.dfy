// Pieces of concrete runs, for the lemmas that show that something can happen.
module RelayScenarios {
  import opened Net
  import opened RelayState
  import opened Relay
  import opened RelayRuns

  function IdOf(b: Byte): Tx3Id {
    Tx3Id(seq(32, _ => b))
  }

  lemma TwoIds(avoid: Tx3Id) returns (c: Tx3Id, t: Tx3Id)
    ensures c != t && c != avoid && t != avoid
  {
    assert IdOf(0).bytes[0] == 0 && IdOf(1).bytes[0] == 1 && IdOf(2).bytes[0] == 2;
    c := if avoid == IdOf(0) then IdOf(1) else IdOf(0);
    t := if avoid == IdOf(2) then IdOf(1) else IdOf(2);
  }

  // A connection that has been accepted and has asked for a control stream.
  lemma AskControl(start: Sys, es: seq<Event>, addr: SocketAddr, splice: Tx3Id)
    returns (es': seq<Event>, s': Sys)
    requires Legal(start, es)
    requires var s := Exec(start, es); s.inbound > 0 && s.control > 0 && Fresh(s, splice)
    ensures Legal(start, es') && Exec(start, es') == s'
    ensures var s := Exec(start, es);
      s' == s.(inbound := s.inbound - 1, control := s.control - 1,
               tasks := s.tasks + [Task(addr, s.now, Some(s.cfg.relayCert), None, Handshake)])
  {
    var s := Exec(start, es);
    var i := |s.tasks|;
    Extend(start, es, Accept(addr, true));
    es' := es + [Accept(addr, true)];
    Extend(start, es', Present(i, s.cfg.relayCert, splice));
    s' := Apply(Exec(start, es'), Present(i, s.cfg.relayCert, splice));
    es' := es' + [Present(i, s.cfg.relayCert, splice)];
  }

  // A connection that has been accepted, has asked for a control stream and has
  // completed TLS with digest `c`.
  function Opened(s: Sys, addr: SocketAddr, c: Tx3Id): Sys
    requires s.inbound > 0 && s.control > 0
  {
    var i := |s.tasks|;
    s.(inbound := s.inbound - 1, control := s.control - 1,
       tasks := s.tasks + [Task(addr, s.now, Some(s.cfg.relayCert), None, Control(c, AllClear, []))],
       sh := RegisterSpec(s.sh, addr.Ip(), c, i, s.cfg.maxPerIp, s.cfg.maxRelays).0,
       h := s.h.(logs := s.h.logs[i := Log(c, [], [])], certs := s.h.certs + {c}))
  }

  lemma OpenControl(start: Sys, es: seq<Event>, addr: SocketAddr, c: Tx3Id, splice: Tx3Id)
    returns (es': seq<Event>)
    requires Legal(start, es)
    requires var s := Exec(start, es);
      s.inbound > 0 && s.control > 0 && IpCount(s.sh.addrs, addr.Ip()) < s.cfg.maxPerIp &&
      c !in s.h.issued && Fresh(s, splice)
    ensures Legal(start, es') && Exec(start, es') == Opened(Exec(start, es), addr, c)
  {
    var i := |Exec(start, es).tasks|;
    var s;
    es', s := AskControl(start, es, addr, splice);
    Extend(start, es', HandshakeDone(i, c));
    es' := es' + [HandshakeDone(i, c)];
  }
}
