// Routing over whole runs: where every registration, token and splice came from.
module RelayRouting {
  import opened Net
  import opened RelayState
  import opened Relay
  import opened RelayCount
  import opened RelayInvariant
  import opened RelayRuns
  import opened RelayStructure
  import opened RelayCounting

  // --- Which step writes which entry of the history ---

  lemma TokenHistory(s: Sys, e: Event)
    requires Structure(s) && Enabled(s, e)
    ensures Apply(s, e).h.issued ==
      if Offers(s, e) then s.h.issued[e.splice := Issue(e.i, e.presented, s.sh.controls[e.presented])]
      else s.h.issued
    ensures Apply(s, e).h.spliced ==
      if Joins(s, e) then s.h.spliced[e.presented := Splice(e.i, s.now)] else s.h.spliced
  {
    if e.Present? {
      PresentResult(s, e);
    } else if e.Reap? {
      ReapResult(s, e);
    } else {
      TokensKeep(s, e);
    }
  }

  lemma IssueOrigin(s: Sys, e: Event, t: Tx3Id)
    requires Structure(s) && Enabled(s, e) && t in Apply(s, e).h.issued
    ensures if t in s.h.issued then Apply(s, e).h.issued[t] == s.h.issued[t]
      else Offers(s, e) && e.splice == t &&
           Apply(s, e).h.issued[t] == Issue(e.i, e.presented, s.sh.controls[e.presented])
  {
    TokenHistory(s, e);
  }

  lemma SpliceOrigin(s: Sys, e: Event, t: Tx3Id)
    requires Structure(s) && Enabled(s, e) && t in Apply(s, e).h.spliced
    ensures if t in s.h.spliced then Apply(s, e).h.spliced[t] == s.h.spliced[t]
      else Joins(s, e) && e.presented == t && Apply(s, e).h.spliced[t] == Splice(e.i, s.now)
  {
    TokenHistory(s, e);
    if Joins(s, e) { assert FateOk(s, e.presented); }
  }

  lemma LogOrigin(s: Sys, e: Event, r: nat)
    requires Structure(s) && Enabled(s, e) && r in Apply(s, e).h.logs
    ensures r in s.h.logs || e == HandshakeDone(r, Apply(s, e).h.logs[r].cert)
  {
    if Drives(e) {
      assert TaskOk(s, e.i);
      DriveLogResult(s, e);
    } else if e.HandshakeDone? {
      HandshakeKeeps(s, e);
    } else {
      LimitsStep(s, e);
    }
  }

  // `reg` completed TLS with identity `cert`.
  lemma {:induction false} RegisteredAt(cfg: Config, es: seq<Event>, n: nat, reg: nat) returns (k: nat)
    requires Legal(Init(cfg), es) && n <= |es| && reg in At(Init(cfg), es, n).h.logs
    ensures k < n && es[k] == HandshakeDone(reg, At(Init(cfg), es, n).h.logs[reg].cert)
    decreases n
  {
    k := 0;
    if n > 0 {
      var before := At(Init(cfg), es, n - 1);
      AtInv(cfg, es, n - 1);
      RunStep(Init(cfg), es, n - 1);
      LogOrigin(before, es[n - 1], reg);
      if reg in before.h.logs {
        StructureGrows(before, es[n - 1]);
        k := RegisteredAt(cfg, es, n - 1, reg);
      } else {
        k := n - 1;
      }
    }
  }

  lemma {:induction false} IssuedAt(cfg: Config, es: seq<Event>, n: nat, t: Tx3Id) returns (k: nat)
    requires Legal(Init(cfg), es) && n <= |es| && t in At(Init(cfg), es, n).h.issued
    ensures k < n && Offers(At(Init(cfg), es, k), es[k]) && es[k].splice == t
    ensures At(Init(cfg), es, n).h.issued[t]
         == Issue(es[k].i, es[k].presented, At(Init(cfg), es, k).sh.controls[es[k].presented])
    decreases n
  {
    k := 0;
    if n > 0 {
      var before := At(Init(cfg), es, n - 1);
      AtInv(cfg, es, n - 1);
      RunStep(Init(cfg), es, n - 1);
      IssueOrigin(before, es[n - 1], t);
      if t in before.h.issued {
        k := IssuedAt(cfg, es, n - 1, t);
      } else {
        k := n - 1;
      }
    }
  }

  lemma {:induction false} SplicedAt(cfg: Config, es: seq<Event>, n: nat, t: Tx3Id) returns (k: nat)
    requires Legal(Init(cfg), es) && n <= |es| && t in At(Init(cfg), es, n).h.spliced
    ensures k < n && Joins(At(Init(cfg), es, k), es[k]) && es[k].presented == t
    ensures At(Init(cfg), es, n).h.spliced[t] == Splice(es[k].i, At(Init(cfg), es, k).now)
    decreases n
  {
    k := 0;
    if n > 0 {
      var before := At(Init(cfg), es, n - 1);
      AtInv(cfg, es, n - 1);
      RunStep(Init(cfg), es, n - 1);
      SpliceOrigin(before, es[n - 1], t);
      if t in before.h.spliced {
        k := SplicedAt(cfg, es, n - 1, t);
      } else {
        k := n - 1;
      }
    }
  }

  // Whenever sockets `a` and `b` are spliced, there were three earlier steps: a
  // control task `reg` completed TLS with some identity `c`; then `b` presented
  // `c` while `reg` was what control_channels held for `c`, and a token was
  // issued for it; then `a` presented exactly that token.
  lemma Routing(cfg: Config, es: seq<Event>, a: nat) returns (registered: nat, offered: nat, joined: nat)
    requires Legal(Init(cfg), es)
    requires var s := Exec(Init(cfg), es); In(s, a) && s.tasks[a].phase.Splicing?
    ensures var Splicing(token, b, reg) := Exec(Init(cfg), es).tasks[a].phase;
      registered < offered < joined < |es| &&
      var atOffer := At(Init(cfg), es, offered); var atJoin := At(Init(cfg), es, joined);
      es[offered].Present? && es[offered].i == b && es[offered].splice == token &&
      var c := es[offered].presented;
      es[registered] == HandshakeDone(reg, c) &&
      c in atOffer.sh.controls && atOffer.sh.controls[c] == reg &&
      In(atOffer, reg) && IsRegistered(atOffer.tasks[reg].phase) && atOffer.tasks[reg].phase.cert == c &&
      es[joined].Present? && es[joined].i == a && es[joined].presented == token &&
      token in atJoin.sh.pending && atJoin.sh.pending[token] == PendingInfo(b, reg)
  {
    var n := |es|;
    assert es[..n] == es;
    AtInv(cfg, es, n);
    var s := At(Init(cfg), es, n);
    var Splicing(token, b, reg) := s.tasks[a].phase;
    assert TaskOk(s, a);
    joined := SplicedAt(cfg, es, n, token);
    AtInv(cfg, es, joined);
    var atJoin := At(Init(cfg), es, joined);
    assert FateOk(atJoin, token);
    GrowsBetween(cfg, es, joined, n);
    offered := IssuedAt(cfg, es, joined, token);
    AtInv(cfg, es, offered);
    var atOffer := At(Init(cfg), es, offered);
    ControlEntry(atOffer, es[offered].presented);
    registered := RegisteredAt(cfg, es, offered, reg);
  }

  ghost predicate IssuesKept(s: Sys, s': Sys) {
    forall t :: t in s.h.issued ==> t in s'.h.issued && s'.h.issued[t] == s.h.issued[t]
  }

  lemma IssuesKeptAt(cfg: Config, es: seq<Event>, k: nat)
    requires Legal(Init(cfg), es) && k < |es|
    ensures IssuesKept(At(Init(cfg), es, k), At(Init(cfg), es, k + 1))
  {
    AtInv(cfg, es, k);
    RunStep(Init(cfg), es, k);
    StructureGrows(At(Init(cfg), es, k), es[k]);
  }

  lemma IssuesKeptOn(s: Sys, mid: Sys, s': Sys)
    requires IssuesKept(s, mid) && IssuesKept(mid, s')
    ensures IssuesKept(s, s')
  {
  }

  // The history only grows along a run.
  lemma {:induction false} GrowsBetween(cfg: Config, es: seq<Event>, j: nat, k: nat)
    requires Legal(Init(cfg), es) && j <= k <= |es|
    ensures IssuesKept(At(Init(cfg), es, j), At(Init(cfg), es, k))
    decreases k
  {
    if j < k {
      GrowsBetween(cfg, es, j, k - 1);
      IssuesKeptAt(cfg, es, k - 1);
      IssuesKeptOn(At(Init(cfg), es, j), At(Init(cfg), es, k - 1), At(Init(cfg), es, k));
    }
  }

  // --- What becomes of a token ---

  ghost predicate FateKept(s: Sys, s': Sys, t: Tx3Id)
    requires t in s.h.issued
  {
    t in s'.h.issued && s'.h.issued[t] == s.h.issued[t] &&
    (t in s.h.spliced ==>
       t in s'.h.spliced && s'.h.spliced[t] == s.h.spliced[t] &&
       t !in s'.h.reaped && t !in s'.sh.pending) &&
    (t in s.h.reaped ==> t in s'.h.reaped && t !in s'.h.spliced && t !in s'.sh.pending) &&
    (t !in s'.sh.pending ==> t in s'.h.spliced || t in s'.h.reaped)
  }

  lemma {:induction false} FateStays(s: Sys, es: seq<Event>, t: Tx3Id)
    requires Inv(s) && Legal(s, es) && t in s.h.issued
    ensures FateKept(s, Exec(s, es), t)
    decreases |es|
  {
    assert FateOk(s, t);
    if es != [] {
      StructureGrows(s, es[0]);
      InvStep(s, es[0]);
      FateStays(Apply(s, es[0]), es[1..], t);
    }
  }

  // A token is consumed at most once, by a splice or by its reaper but never by
  // both; what has become of it never changes again.
  lemma FateIsFinal(s: Sys, es: seq<Event>, t: Tx3Id)
    requires Reachable(s) && Legal(s, es) && t in s.h.issued
    ensures FateKept(s, Exec(s, es), t)
  {
    InvReachable(s);
    FateStays(s, es, t);
  }

  // A reaper drops the one socket that waited under its token, or nothing: an
  // entry that was claimed in time, and every other entry, is left alone.
  lemma LateReaper(s: Sys, token: Tx3Id)
    requires Reachable(s) && Enabled(s, Reap(token))
    ensures var s' := Apply(s, Reap(token));
      token in s.h.issued &&
      s'.sh.pending == s.sh.pending - {token} &&
      (token in s.h.spliced ==> s'.sh.pending == s.sh.pending && s'.h.reaped == s.h.reaped) &&
      (token in s.sh.pending ==> s.sh.pending[token].sock == s.h.issued[token].sock)
  {
    InvReachable(s);
    assert FateOk(s, token);
    ReapResult(s, Reap(token));
  }
}
