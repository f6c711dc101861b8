// The relay refines the rendezvous specification step by step.
module RelayRefinement {
  import opened Net
  import opened RelayState
  import opened Relay
  import opened RelayCount
  import opened RelayInvariant
  import opened RelayRuns
  import opened RelayStructure
  import opened RelayCounting
  import opened RelayRouting
  import opened RelaySafety
  import R = Rendezvous

  ghost function WaitingOf(pending: map<Tx3Id, PendingInfo>): map<Tx3Id, R.Waiting> {
    map t | t in pending :: R.Waiting(pending[t].sock, pending[t].reg)
  }

  ghost function PairOf(s: Sys, t: Tx3Id): R.Pair
    requires t in s.h.spliced && t in s.h.issued
  {
    R.Pair(s.h.spliced[t].joiner, s.h.issued[t].sock, s.h.issued[t].reg)
  }

  ghost function PairsOf(s: Sys): set<R.Pair> {
    set t | t in s.h.spliced && t in s.h.issued :: PairOf(s, t)
  }

  ghost function UsedOf(s: Sys): set<nat> {
    (set t | t in s.h.issued :: s.h.issued[t].sock) + (set t | t in s.h.spliced :: s.h.spliced[t].joiner)
  }

  ghost function Alpha(s: Sys): R.State {
    R.State(s.sh.controls, WaitingOf(s.sh.pending), PairsOf(s), UsedOf(s))
  }

  // The specification step that a relay step amounts to.
  ghost function OpOf(s: Sys, e: Event): R.Op
    requires Enabled(s, e)
  {
    if Registers(s, e) then R.Join(e.cert, e.i)
    else if e.Cleanup? then R.Leave(s.tasks[e.i].phase.cert)
    else if Offers(s, e) then R.Offer(e.splice, e.i, e.presented)
    else if Joins(s, e) then R.Match(e.presented, e.i)
    else if e.Reap? && e.token in s.sh.pending then R.Expire(e.token)
    else R.Stutter
  }

  lemma NeverWaited(s: Sys, i: nat)
    requires Structure(s) && In(s, i) && s.tasks[i].phase.Reading?
    ensures forall t :: t in s.h.issued ==> s.h.issued[t].sock != i
  {
    assert TaskOk(s, i);
    forall t | t in s.h.issued ensures s.h.issued[t].sock != i {
      assert IssueOk(s, t);
    }
  }

  lemma NeverJoined(s: Sys, i: nat)
    requires Structure(s) && In(s, i) && s.tasks[i].phase.Reading?
    ensures forall t :: t in s.h.spliced ==> s.h.spliced[t].joiner != i
  {
    forall t | t in s.h.spliced ensures s.h.spliced[t].joiner != i {
      assert SpliceOk(s, t);
    }
  }

  // A socket that has just presented its token was never used before.
  lemma NeverUsed(s: Sys, i: nat)
    requires Structure(s) && In(s, i) && s.tasks[i].phase.Reading?
    ensures i !in UsedOf(s)
  {
    NeverWaited(s, i);
    NeverJoined(s, i);
  }

  lemma OfferAlpha(s: Sys, s': Sys, t: Tx3Id, issue: Issue)
    requires s'.h == s.h.(issued := s.h.issued[t := issue]) && t !in s.h.issued
    requires s.h.spliced.Keys <= s.h.issued.Keys && s'.sh.controls == s.sh.controls
    requires s'.sh.pending == s.sh.pending[t := PendingInfo(issue.sock, issue.reg)]
    ensures Alpha(s') == Alpha(s).(
      waiting := Alpha(s).waiting[t := R.Waiting(issue.sock, issue.reg)],
      used := Alpha(s).used + {issue.sock})
  {
    assert WaitingOf(s'.sh.pending) == WaitingOf(s.sh.pending)[t := R.Waiting(issue.sock, issue.reg)];
    OfferPairs(s, s', t, issue);
  }

  lemma OfferShape(s: Sys, e: Event)
    requires Structure(s) && Enabled(s, e) && Offers(s, e)
    ensures var s', info := Apply(s, e), PendingInfo(e.i, s.sh.controls[e.presented]);
      s'.h == s.h.(issued := s.h.issued[e.splice := Issue(e.i, e.presented, info.reg)]) &&
      s'.sh.controls == s.sh.controls && s'.sh.pending == s.sh.pending[e.splice := info]
  {
    PresentResult(s, e);
  }

  lemma OfferNext(s: Sys, s': Sys, t: Tx3Id, issue: Issue)
    requires s'.h == s.h.(issued := s.h.issued[t := issue]) && t !in s.h.issued
    requires s.h.spliced.Keys <= s.h.issued.Keys && s.sh.pending.Keys <= s.h.issued.Keys
    requires s'.sh.controls == s.sh.controls
    requires s'.sh.pending == s.sh.pending[t := PendingInfo(issue.sock, issue.reg)]
    requires issue.cert in s.sh.controls && s.sh.controls[issue.cert] == issue.reg
    requires issue.sock !in UsedOf(s)
    ensures R.Next(Alpha(s), R.Offer(t, issue.sock, issue.cert), Alpha(s'))
  {
    OfferAlpha(s, s', t, issue);
  }

  lemma OfferOp(s: Sys, e: Event)
    requires Enabled(s, e) && Offers(s, e)
    ensures OpOf(s, e) == R.Offer(e.splice, e.i, e.presented)
  {
  }

  lemma OfferRefines(s: Sys, e: Event)
    requires Structure(s) && Enabled(s, e) && Offers(s, e)
    ensures R.Next(Alpha(s), OpOf(s, e), Alpha(Apply(s, e)))
  {
    OfferShape(s, e);
    OfferOp(s, e);
    NeverUsed(s, e.i);
    OfferNext(s, Apply(s, e), e.splice, Issue(e.i, e.presented, s.sh.controls[e.presented]));
  }

  lemma OfferPairs(s: Sys, s': Sys, t: Tx3Id, issue: Issue)
    requires s'.h == s.h.(issued := s.h.issued[t := issue]) && t !in s.h.issued
    requires s.h.spliced.Keys <= s.h.issued.Keys
    ensures PairsOf(s') == PairsOf(s) && UsedOf(s') == UsedOf(s) + {issue.sock}
  {
    forall p ensures p in PairsOf(s') <==> p in PairsOf(s) {
      if p in PairsOf(s) {
        var u :| u in s.h.spliced && u in s.h.issued && p == PairOf(s, u);
        assert p == PairOf(s', u);
      }
      if p in PairsOf(s') {
        var u :| u in s'.h.spliced && u in s'.h.issued && p == PairOf(s', u);
        assert p == PairOf(s, u);
      }
    }
    forall i ensures i in UsedOf(s') <==> i in UsedOf(s) + {issue.sock} {
      if u :| u in s.h.issued && s.h.issued[u].sock == i {
        assert s'.h.issued[u].sock == i;
      }
      assert s'.h.issued[t].sock == issue.sock;
    }
  }

  lemma JoinAlpha(s: Sys, s': Sys, t: Tx3Id, splice: Splice)
    requires s'.h == s.h.(spliced := s.h.spliced[t := splice]) && t !in s.h.spliced && t in s.h.issued
    requires s'.sh.controls == s.sh.controls && t in s.sh.pending
    requires s'.sh.pending == s.sh.pending - {t}
    requires s.sh.pending[t] == PendingInfo(s.h.issued[t].sock, s.h.issued[t].reg)
    ensures Alpha(s') == Alpha(s).(
      waiting := Alpha(s).waiting - {t},
      pairs := Alpha(s).pairs +
        {R.Pair(splice.joiner, Alpha(s).waiting[t].sock, Alpha(s).waiting[t].client)},
      used := Alpha(s).used + {splice.joiner})
  {
    assert WaitingOf(s'.sh.pending) == WaitingOf(s.sh.pending) - {t};
    JoinPairs(s, s', t, splice);
  }

  lemma PendingKnown(s: Sys, t: Tx3Id)
    requires Structure(s) && t in s.sh.pending
    ensures t in s.h.issued && t !in s.h.spliced
    ensures s.sh.pending[t] == PendingInfo(s.h.issued[t].sock, s.h.issued[t].reg)
  {
    assert FateOk(s, t);
  }

  lemma JoinShape(s: Sys, e: Event)
    requires Structure(s) && Enabled(s, e) && Joins(s, e)
    ensures var s' := Apply(s, e);
      s'.h == s.h.(spliced := s.h.spliced[e.presented := Splice(e.i, s.now)]) &&
      s'.sh.controls == s.sh.controls && s'.sh.pending == s.sh.pending - {e.presented}
  {
    PresentResult(s, e);
  }

  lemma JoinOp(s: Sys, e: Event)
    requires Enabled(s, e) && Joins(s, e)
    ensures OpOf(s, e) == R.Match(e.presented, e.i)
  {
  }

  lemma JoinNext(s: Sys, s': Sys, t: Tx3Id, splice: Splice)
    requires s'.h == s.h.(spliced := s.h.spliced[t := splice]) && t !in s.h.spliced && t in s.h.issued
    requires s'.sh.controls == s.sh.controls && t in s.sh.pending
    requires s'.sh.pending == s.sh.pending - {t} && splice.joiner !in UsedOf(s)
    requires s.sh.pending[t] == PendingInfo(s.h.issued[t].sock, s.h.issued[t].reg)
    ensures R.Next(Alpha(s), R.Match(t, splice.joiner), Alpha(s'))
  {
    JoinAlpha(s, s', t, splice);
  }

  lemma JoinRefines(s: Sys, e: Event)
    requires Structure(s) && Enabled(s, e) && Joins(s, e)
    ensures R.Next(Alpha(s), OpOf(s, e), Alpha(Apply(s, e)))
  {
    JoinShape(s, e);
    JoinOp(s, e);
    NeverUsed(s, e.i);
    PendingKnown(s, e.presented);
    JoinNext(s, Apply(s, e), e.presented, Splice(e.i, s.now));
  }

  lemma JoinPairs(s: Sys, s': Sys, t: Tx3Id, splice: Splice)
    requires s'.h == s.h.(spliced := s.h.spliced[t := splice]) && t !in s.h.spliced && t in s.h.issued
    ensures PairsOf(s') == PairsOf(s) + {R.Pair(splice.joiner, s.h.issued[t].sock, s.h.issued[t].reg)}
    ensures UsedOf(s') == UsedOf(s) + {splice.joiner}
  {
    var q := R.Pair(splice.joiner, s.h.issued[t].sock, s.h.issued[t].reg);
    assert q == PairOf(s', t);
    forall p ensures p in PairsOf(s') <==> p in PairsOf(s) + {q} {
      if p in PairsOf(s) {
        var u :| u in s.h.spliced && u in s.h.issued && p == PairOf(s, u);
        assert p == PairOf(s', u);
      }
      if p in PairsOf(s') {
        var u :| u in s'.h.spliced && u in s'.h.issued && p == PairOf(s', u);
        assert u != t ==> p == PairOf(s, u);
      }
    }
    forall i ensures i in UsedOf(s') <==> i in UsedOf(s) + {splice.joiner} {
      if u :| u in s.h.spliced && s.h.spliced[u].joiner == i {
        assert s'.h.spliced[u].joiner == i;
      }
      assert s'.h.spliced[t].joiner == splice.joiner;
    }
  }

  lemma SameTokens(s: Sys, s': Sys)
    requires s'.h.issued == s.h.issued && s'.h.spliced == s.h.spliced
    ensures Alpha(s') == Alpha(s).(clients := s'.sh.controls, waiting := WaitingOf(s'.sh.pending))
  {
    assert forall t | t in s.h.spliced && t in s.h.issued :: PairOf(s', t) == PairOf(s, t);
    assert PairsOf(s') == PairsOf(s) && UsedOf(s') == UsedOf(s);
  }

  lemma ExpireAlpha(pending: map<Tx3Id, PendingInfo>, t: Tx3Id)
    ensures WaitingOf(pending - {t}) == WaitingOf(pending) - {t}
    ensures t !in pending ==> pending - {t} == pending
  {
  }

  lemma OtherRefines(s: Sys, e: Event)
    requires Structure(s) && Enabled(s, e) && !Offers(s, e) && !Joins(s, e)
    ensures R.Next(Alpha(s), OpOf(s, e), Alpha(Apply(s, e)))
  {
    TokenHistory(s, e);
    ControlsResult(s, e);
    PendingResult(s, e);
    if e.Reap? { ExpireAlpha(s.sh.pending, e.token); }
    ClosedRefines(s, e, Apply(s, e));
  }

  lemma ClosedRefines(s: Sys, e: Event, s': Sys)
    requires Enabled(s, e) && !Offers(s, e) && !Joins(s, e)
    requires s'.h.issued == s.h.issued && s'.h.spliced == s.h.spliced
    requires s'.sh.controls ==
      if e.Cleanup? then s.sh.controls - {s.tasks[e.i].phase.cert}
      else if Registers(s, e) then s.sh.controls[e.cert := e.i]
      else s.sh.controls
    requires s'.sh.pending == if e.Reap? then s.sh.pending - {e.token} else s.sh.pending
    requires e.Reap? ==> WaitingOf(s'.sh.pending) == WaitingOf(s.sh.pending) - {e.token}
    requires e.Reap? && e.token !in s.sh.pending ==> s'.sh.pending == s.sh.pending
    ensures R.Next(Alpha(s), OpOf(s, e), Alpha(s'))
  {
    SameTokens(s, s');
  }

  // Each step of the relay is one step of the specification, or a stutter.
  lemma StepRefines(s: Sys, e: Event)
    requires Inv(s) && Enabled(s, e)
    ensures R.Next(Alpha(s), OpOf(s, e), Alpha(Apply(s, e)))
  {
    if Offers(s, e) {
      OfferRefines(s, e);
    } else if Joins(s, e) {
      JoinRefines(s, e);
    } else {
      OtherRefines(s, e);
    }
  }

  lemma {:induction false} RunRefines(s: Sys, es: seq<Event>) returns (ops: seq<R.Op>)
    requires Inv(s) && Legal(s, es)
    ensures |ops| == |es| && R.Run(Alpha(s), ops, Alpha(Exec(s, es)))
    decreases |es|
  {
    ops := [];
    if es != [] {
      StepRefines(s, es[0]);
      InvStep(s, es[0]);
      var rest := RunRefines(Apply(s, es[0]), es[1..]);
      ops := [OpOf(s, es[0])] + rest;
      Cons(Alpha(s), OpOf(s, es[0]), Alpha(Apply(s, es[0])), rest, Alpha(Exec(s, es)));
    }
  }

  lemma Cons(a: R.State, op: R.Op, mid: R.State, rest: seq<R.Op>, b: R.State)
    requires R.Next(a, op, mid) && R.Run(mid, rest, b)
    ensures R.Run(a, [op] + rest, b)
  {
    assert ([op] + rest)[1..] == rest;
  }

  // Every run of the relay is a run of the specification, from its empty state.
  lemma Simulation(cfg: Config, es: seq<Event>) returns (ops: seq<R.Op>)
    requires Legal(Init(cfg), es)
    ensures |ops| == |es| && R.Run(R.Empty, ops, Alpha(Exec(Init(cfg), es)))
  {
    InvInit(cfg);
    assert Alpha(Init(cfg)) == R.Empty;
    ops := RunRefines(Init(cfg), es);
  }

  lemma ReachableMatching(s: Sys)
    requires Reachable(s)
    ensures R.Matching(Alpha(s))
  {
    var es :| Legal(Init(s.cfg), es) && Exec(Init(s.cfg), es) == s;
    var ops := Simulation(s.cfg, es);
    R.MatchingRun(R.Empty, ops, Alpha(s));
  }

  // What the specification guarantees, carried over: in every reachable state
  // a socket is on at most one splice, and on one side of it.
  lemma SplicesFormMatching(s: Sys, t: Tx3Id, u: Tx3Id)
    requires Reachable(s) && t in s.h.spliced && u in s.h.spliced
    ensures t in s.h.issued && u in s.h.issued
    ensures var p, q := PairOf(s, t), PairOf(s, u);
      p.joiner != q.peer && (p.joiner == q.joiner || p.peer == q.peer ==> t == u)
  {
    InvReachable(s);
    ReachableMatching(s);
    assert SpliceOk(s, t) && SpliceOk(s, u) && IssueOk(s, t) && IssueOk(s, u);
    var p, q := PairOf(s, t), PairOf(s, u);
    assert p in Alpha(s).pairs && q in Alpha(s).pairs;
    assert R.Touches(p, p.joiner) && R.Touches(q, q.peer);
  }
}
