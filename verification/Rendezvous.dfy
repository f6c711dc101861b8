// A simple specification of the relay: clients come and go, sockets wait for a
// client under a token, and a waiting socket is paired with the socket that
// presents its token, or expires.
module Rendezvous {
  import opened Net

  datatype Waiting = Waiting(sock: nat, client: nat)

  datatype Pair = Pair(joiner: nat, peer: nat, client: nat)

  datatype State = State(
    clients: map<Tx3Id, nat>,
    waiting: map<Tx3Id, Waiting>,
    pairs: set<Pair>,
    used: set<nat>)               // sockets that have waited or joined

  datatype Op =
    | Stutter
    | Join(c: Tx3Id, client: nat)
    | Leave(c: Tx3Id)
    | Offer(t: Tx3Id, sock: nat, c: Tx3Id)
    | Match(t: Tx3Id, sock: nat)
    | Expire(t: Tx3Id)

  const Empty := State(map[], map[], {}, {})

  ghost predicate Next(a: State, op: Op, a': State) {
    match op
    case Stutter => a' == a
    case Join(c, client) => a' == a.(clients := a.clients[c := client])
    case Leave(c) => a' == a.(clients := a.clients - {c})
    case Offer(t, sock, c) =>
      c in a.clients && t !in a.waiting && sock !in a.used &&
      a' == a.(waiting := a.waiting[t := Waiting(sock, a.clients[c])], used := a.used + {sock})
    case Match(t, sock) =>
      t in a.waiting && sock !in a.used &&
      a' == a.(waiting := a.waiting - {t},
               pairs := a.pairs + {Pair(sock, a.waiting[t].sock, a.waiting[t].client)},
               used := a.used + {sock})
    case Expire(t) => t in a.waiting && a' == a.(waiting := a.waiting - {t})
  }

  ghost predicate Touches(p: Pair, sock: nat) {
    p.joiner == sock || p.peer == sock
  }

  // Every socket is in at most one pair, on one side of it, and a waiting
  // socket waits under one token and is in no pair.
  ghost predicate Matching(a: State) {
    (forall p :: p in a.pairs ==> p.joiner in a.used && p.peer in a.used && p.joiner != p.peer) &&
    (forall p, q, sock :: p in a.pairs && q in a.pairs && Touches(p, sock) && Touches(q, sock) ==> p == q) &&
    (forall t :: t in a.waiting ==> a.waiting[t].sock in a.used) &&
    (forall t, p :: t in a.waiting && p in a.pairs ==> !Touches(p, a.waiting[t].sock)) &&
    (forall t, u :: t in a.waiting && u in a.waiting && a.waiting[t].sock == a.waiting[u].sock ==> t == u)
  }

  lemma MatchingStep(a: State, op: Op, a': State)
    requires Matching(a) && Next(a, op, a')
    ensures Matching(a') && a.pairs <= a'.pairs
  {
  }

  // A run of the specification.
  ghost predicate Run(a: State, ops: seq<Op>, b: State)
    decreases |ops|
  {
    if ops == [] then a == b
    else exists mid :: Next(a, ops[0], mid) && Run(mid, ops[1..], b)
  }

  lemma {:induction false} MatchingRun(a: State, ops: seq<Op>, b: State)
    requires Matching(a) && Run(a, ops, b)
    ensures Matching(b) && a.pairs <= b.pairs
    decreases |ops|
  {
    if ops != [] {
      var mid :| Next(a, ops[0], mid) && Run(mid, ops[1..], b);
      MatchingStep(a, ops[0], mid);
      MatchingRun(mid, ops[1..], b);
    }
  }
}
