// Runs of the relay: sequences of enabled steps, and the states along them.
module RelayRuns {
  import opened Relay

  ghost predicate Legal(s: Sys, es: seq<Event>)
    decreases |es|
  {
    es == [] || (Enabled(s, es[0]) && Legal(Apply(s, es[0]), es[1..]))
  }

  ghost function Exec(s: Sys, es: seq<Event>): Sys
    requires Legal(s, es)
    decreases |es|
  {
    if es == [] then s else Exec(Apply(s, es[0]), es[1..])
  }

  ghost predicate Reachable(s: Sys) {
    exists es :: Legal(Init(s.cfg), es) && Exec(Init(s.cfg), es) == s
  }

  lemma {:induction false} LegalPrefix(s: Sys, es: seq<Event>, k: nat)
    requires Legal(s, es) && k <= |es|
    ensures Legal(s, es[..k])
    decreases k
  {
    if k > 0 {
      LegalPrefix(Apply(s, es[0]), es[1..], k - 1);
      assert es[..k][1..] == es[1..][..k - 1];
    }
  }

  // The state before step `k` of a run.
  ghost function At(s: Sys, es: seq<Event>, k: nat): Sys
    requires Legal(s, es) && k <= |es|
  {
    LegalPrefix(s, es, k);
    Exec(s, es[..k])
  }

  lemma {:induction false} RunStep(s: Sys, es: seq<Event>, k: nat)
    requires Legal(s, es) && k < |es|
    ensures Enabled(At(s, es, k), es[k])
    ensures At(s, es, k + 1) == Apply(At(s, es, k), es[k])
    decreases k
  {
    LegalPrefix(s, es, k);
    LegalPrefix(s, es, k + 1);
    if k == 0 {
      assert es[..0] == [] && es[..1] == [es[0]];
      assert es[..1][1..] == [];
      assert Exec(Apply(s, es[0]), []) == Apply(s, es[0]);
    } else {
      var rest := es[1..];
      RunStep(Apply(s, es[0]), rest, k - 1);
      LegalPrefix(Apply(s, es[0]), rest, k - 1);
      LegalPrefix(Apply(s, es[0]), rest, k);
      assert es[..k][1..] == rest[..k - 1];
      assert es[..k + 1][1..] == rest[..k];
    }
  }

  lemma {:induction false} Extend(s: Sys, es: seq<Event>, e: Event)
    requires Legal(s, es) && Enabled(Exec(s, es), e)
    ensures Legal(s, es + [e]) && Exec(s, es + [e]) == Apply(Exec(s, es), e)
    decreases |es|
  {
    if es == [] {
      assert ([e])[1..] == [];
      assert Exec(Apply(s, e), []) == Apply(s, e);
      assert es + [e] == [e];
    } else {
      Extend(Apply(s, es[0]), es[1..], e);
      assert (es + [e])[1..] == es[1..] + [e];
    }
  }

  lemma Prepend(s: Sys, e: Event, rest: seq<Event>)
    requires Enabled(s, e) && Legal(Apply(s, e), rest)
    ensures Legal(s, [e] + rest) && Exec(s, [e] + rest) == Exec(Apply(s, e), rest)
  {
    assert ([e] + rest)[1..] == rest;
  }

  lemma {:induction false} Append(s: Sys, es: seq<Event>, more: seq<Event>)
    requires Legal(s, es) && Legal(Exec(s, es), more)
    ensures Legal(s, es + more) && Exec(s, es + more) == Exec(Exec(s, es), more)
    decreases |es|
  {
    if es == [] {
      assert es + more == more;
    } else {
      Append(Apply(s, es[0]), es[1..], more);
      assert (es + more)[1..] == es[1..] + more;
    }
  }
}
