// Termination notices: a flag that is stored and then announced, and futures
// that listen first and look at the flag afterwards.
module Termination {

  datatype Phase = Created | Listening | Resolved

  // An `on_term` future. It owns a listener from the moment it exists.
  datatype Future = Future(notified: bool, phase: Phase)

  datatype Shared = Shared(flag: bool, futures: seq<Future>)

  function NotifiedAll(futures: seq<Future>): (r: seq<Future>)
    ensures |r| == |futures|
    ensures forall j :: 0 <= j < |r| ==> r[j] == futures[j].(notified := true)
  {
    seq(|futures|, j requires 0 <= j < |futures| => futures[j].(notified := true))
  }

  // The first poll looks at the flag; a later one only at the listener.
  function Polled(f: Future, flag: bool): Future {
    match f.phase
    case Created => f.(phase := if flag then Resolved else Listening)
    case Listening => f.(phase := if f.notified then Resolved else Listening)
    case Resolved => f
  }

  class Term {
    var term: bool
    var listeners: seq<Future>

    ghost function View(): Shared
      reads this
    {
      Shared(term, listeners)
    }

    constructor ()
      ensures View() == Shared(false, [])
    {
      term, listeners := false, [];
    }

    // The two halves of `term`; other tasks can run in between.
    method Store()
      modifies this
      ensures View() == old(View()).(flag := true)
    {
      term := true;
    }

    method Notify()
      modifies this
      ensures View() == old(View()).(futures := NotifiedAll(old(View()).futures))
    {
      ghost var before := listeners;
      var k := 0;
      while k < |listeners|
        invariant k <= |listeners| == |before| && term == old(term)
        invariant forall j :: 0 <= j < |before| ==>
          listeners[j] == if j < k then before[j].(notified := true) else before[j]
      {
        listeners := listeners[k := listeners[k].(notified := true)];
        k := k + 1;
      }
      assert listeners == NotifiedAll(before);
    }

    method OnTerm() returns (j: nat)
      modifies this
      ensures j == |old(View()).futures|
      ensures View() == old(View()).(futures := old(View()).futures + [Future(false, Created)])
    {
      j := |listeners|;
      listeners := listeners + [Future(false, Created)];
    }

    method Poll(j: nat) returns (ready: bool)
      requires j < |View().futures|
      modifies this
      ensures var f := Polled(old(View()).futures[j], old(View()).flag);
        View() == old(View()).(futures := old(View()).futures[j := f]) && ready == f.phase.Resolved?
    {
      var f := listeners[j];
      ready := f.phase.Resolved? || (if f.phase.Created? then term else f.notified);
      listeners := listeners[j := f.(phase := if ready then Resolved else Listening)];
    }
  }

  // --- Any number of callers and futures, in any order ---

  datatype Caller = Called | Stored | Returned

  datatype State = State(sh: Shared, callers: seq<Caller>)

  datatype Event = Call | StoreBy(k: nat) | NotifyBy(k: nat) | NewFuture | PollOf(j: nat)

  const Start := State(Shared(false, []), [])

  predicate Enabled(s: State, e: Event) {
    match e
    case Call => true
    case StoreBy(k) => k < |s.callers| && s.callers[k].Called?
    case NotifyBy(k) => k < |s.callers| && s.callers[k].Stored?
    case NewFuture => true
    case PollOf(j) => j < |s.sh.futures|
  }

  function Apply(s: State, e: Event): State
    requires Enabled(s, e)
  {
    match e
    case Call => s.(callers := s.callers + [Called])
    case StoreBy(k) => s.(sh := s.sh.(flag := true), callers := s.callers[k := Stored])
    case NotifyBy(k) =>
      s.(sh := s.sh.(futures := NotifiedAll(s.sh.futures)), callers := s.callers[k := Returned])
    case NewFuture => s.(sh := s.sh.(futures := s.sh.futures + [Future(false, Created)]))
    case PollOf(j) =>
      s.(sh := s.sh.(futures := s.sh.futures[j := Polled(s.sh.futures[j], s.sh.flag)]))
  }

  predicate Legal(s: State, es: seq<Event>)
    decreases |es|
  {
    es == [] || (Enabled(s, es[0]) && Legal(Apply(s, es[0]), es[1..]))
  }

  function Exec(s: State, es: seq<Event>): State
    requires Legal(s, es)
    decreases |es|
  {
    if es == [] then s else Exec(Apply(s, es[0]), es[1..])
  }

  ghost predicate SomeReturned(s: State) {
    exists k :: 0 <= k < |s.callers| && s.callers[k].Returned?
  }

  // A caller past its store has set the flag; a notice or a resolved future
  // presupposes it; and once a call has returned, no future listens in vain.
  ghost predicate Inv(s: State) {
    (forall k :: 0 <= k < |s.callers| && !s.callers[k].Called? ==> s.sh.flag) &&
    (forall j :: 0 <= j < |s.sh.futures| ==>
      (s.sh.futures[j].notified || s.sh.futures[j].phase.Resolved? ==> s.sh.flag) &&
      (s.sh.futures[j].phase.Listening? && SomeReturned(s) ==> s.sh.futures[j].notified))
  }

  lemma InvStep(s: State, e: Event)
    requires Inv(s) && Enabled(s, e)
    ensures Inv(Apply(s, e))
  {
    var s' := Apply(s, e);
    if SomeReturned(s') && !e.NotifyBy? {
      var k :| 0 <= k < |s'.callers| && s'.callers[k].Returned?;
      assert k < |s.callers| && s.callers[k].Returned?;
    }
  }

  lemma {:induction false} InvRun(s: State, es: seq<Event>)
    requires Inv(s) && Legal(s, es)
    ensures Inv(Exec(s, es))
    decreases |es|
  {
    if es != [] {
      InvStep(s, es[0]);
      InvRun(Apply(s, es[0]), es[1..]);
    }
  }

  lemma {:induction false} ReturnedStays(s: State, es: seq<Event>)
    requires SomeReturned(s) && Legal(s, es)
    ensures SomeReturned(Exec(s, es))
    decreases |es|
  {
    if es != [] {
      var k :| 0 <= k < |s.callers| && s.callers[k].Returned?;
      var s' := Apply(s, es[0]);
      assert s'.callers[k].Returned?;
      ReturnedStays(s', es[1..]);
    }
  }

  // No lost wakeup: in every interleaving, once some `term` call has returned,
  // every future that exists, or is created later, resolves at its next poll.
  lemma NoLostWakeup(es: seq<Event>, later: seq<Event>, j: nat)
    requires Legal(Start, es) && SomeReturned(Exec(Start, es))
    requires Legal(Exec(Start, es), later)
    requires j < |Exec(Exec(Start, es), later).sh.futures|
    ensures var s := Exec(Exec(Start, es), later);
      Enabled(s, PollOf(j)) && Apply(s, PollOf(j)).sh.futures[j].phase == Resolved
  {
    InvRun(Start, es);
    InvRun(Exec(Start, es), later);
    ReturnedStays(Exec(Start, es), later);
  }

  // And no future resolves before some caller has stored the flag.
  lemma {:induction false} FlagHasCaller(s: State, es: seq<Event>)
    requires Inv(s) && Legal(s, es)
    requires s.sh.flag ==> exists k :: 0 <= k < |s.callers| && !s.callers[k].Called?
    ensures Exec(s, es).sh.flag ==>
      exists k :: 0 <= k < |Exec(s, es).callers| && !Exec(s, es).callers[k].Called?
    decreases |es|
  {
    if es != [] {
      InvStep(s, es[0]);
      var s' := Apply(s, es[0]);
      if es[0].StoreBy? {
        assert !s'.callers[es[0].k].Called?;
      } else if s.sh.flag {
        var k :| 0 <= k < |s.callers| && !s.callers[k].Called?;
        assert !s'.callers[k].Called?;
      }
      FlagHasCaller(s', es[1..]);
    }
  }

  lemma NeverResolvesEarly(es: seq<Event>, j: nat)
    requires Legal(Start, es) && j < |Exec(Start, es).sh.futures|
    requires Exec(Start, es).sh.futures[j].phase.Resolved?
    ensures exists k :: 0 <= k < |Exec(Start, es).callers| && !Exec(Start, es).callers[k].Called?
  {
    InvRun(Start, es);
    FlagHasCaller(Start, es);
  }

  // A listening future is resolved by a notice and by nothing else: as long as no
  // caller notifies, it keeps listening however often it is polled.
  lemma {:induction false} OnlyNoticeResolves(s: State, es: seq<Event>, j: nat)
    requires Legal(s, es) && j < |s.sh.futures| && s.sh.futures[j] == Future(false, Listening)
    requires forall k :: 0 <= k < |es| ==> !es[k].NotifyBy?
    ensures j < |Exec(s, es).sh.futures| && Exec(s, es).sh.futures[j] == Future(false, Listening)
    decreases |es|
  {
    if es != [] {
      assert !es[0].NotifyBy? && forall k :: 0 <= k < |es[1..]| ==> es[1..][k] == es[k + 1];
      OnlyNoticeResolves(Apply(s, es[0]), es[1..], j);
    }
  }
}
