# A verified model of the tx3 relay rendezvous

tx3 lets a client behind a NAT be reached through a relay. The client opens a
TLS control stream to the relay. A peer that wants the client connects to the
relay and sends the client's certificate digest; the relay keeps the peer's
socket under a random splice token and sends token and peer address down the
control stream. If the client connects and sends the token back, the relay
splices the two sockets together.

This project models that protocol as it is coded and proves what holds in every
reachable state and along every run of it. With it come the smaller parts it
relies on: the 50-byte control frame and its stream, the `tx3:` address, the
base64 form of ids, the choice of published interface addresses, and the
termination notice `Term`.

`dafny verify dfyconfig.toml` checks the whole project.

## How the relay is modelled

- `Relay.Sys` is the whole relay: the three hash maps behind the mutex, the
  semaphores, one task per accepted socket, the outstanding reapers, the clock,
  and a history of registrations, issued tokens, splices and bytes written. The
  code never reads the history; the model reads it only for the assumption that
  tokens are fresh.
- `Relay.Event` lists the steps. A step is what one task does between two await
  points, a timer that fires, the passing of time, or the shutdown signal.
  `Enabled` says when a step can happen, `Apply` what it does. Two tasks can
  interleave at every await.
- A permit is part of the phase that holds it. Every way out of a phase (return,
  error, timeout, cancellation) goes through `Finish`, which gives back what the
  phase held, as the destructors of the permits do.
- `RelayState.RelayState` is the state behind the mutex as a class, with one
  method for each closure that runs under it. Each method is proved equal to a
  function on values; the transition system uses those functions.
- A socket and its task are named by accept number. A registration, with the
  channel sender and the relay semaphore it created, is named by the number of
  its control task.
- `Reachable(s)` means that some run from the empty relay ends in `s`.
  `RelayCounting.InvReachable` shows that `Inv` holds in every such state, so
  every lemma that requires `Inv` or its part `Structure` speaks about all of
  them.

What is taken for granted:

- A random splice token is never issued twice, and is never a certificate digest
  that registers, nor the relay's own.
- Code between two awaits takes no time. So reading the token and looking it up
  is one step, and so are the lookup and the spawning of the reaper, and the TLS
  handshake and the registration. The end of a control stream and its cleanup
  are two steps.
- A timeout is counted from the step that accepts the socket (`Task.start`). The
  code takes the instant at the first poll of the task it spawns there
  (relay.rs:403), so `start` stands for that poll.
- A write completes only if the client at the other end reads, so `SendAllClear`
  and `Write` are steps that need the client, as `ControlEnd` and `SpliceEnd` need
  a peer. Where a result needs them it says so: `RelayDrain.Help` names who takes
  part besides the relay and its timers.
- The clock is only constrained by `RelayDeadline.Punctual`, under which it does
  not run past a timer that has not fired. Everywhere else timers may be arbitrarily late.
- After shutdown the model still lets sockets be accepted; the code accepts
  none. What is proved for all runs of the model covers those of the code.
- Counters are unbounded numbers. The code's `u32` counts cannot overflow,
  because `PerIpAccounting` bounds them by a `u32` limit.
- Of the base64 library it is assumed that it decodes what it encodes and that
  `-` is not the text of 32 bytes (`Addr.GoodDecoder`); `Addr.Rfc4648IsGood`
  shows that both decoders section 5 of RFC 4648 admits satisfy this.

## Where the code differs from what its comments say

- relay.rs:581-582 and 592 describe a replaced control stream as ending and
  removing its own channel. The cleanup at line 611 removes by digest, whoever
  owns the entry, so it takes the replacement out of the map for good
  (`CleanupEvictsReplacement`; `EvictionHappens` is a run, with any two client
  addresses the limits admit). `EntryKept` and `EntryOfStream` give the exact
  condition: over any run a stream that has not cleaned up keeps its entry if and
  only if no other task of its digest cleaned up and none registered since.
  `EvictionPossible` says for which limits a running stream can be evicted by an
  older one at all: exactly those that admit two control streams at once. The
  evicted stream has no sender any more, so the relay ends it once its client has
  read what is on its way (`EvictedEnds`), and its cleanup in turn can evict a
  third stream of the same client (`EvictionRepeats`).
  `AllMappedThroughout` is about all streams together: every running one is in
  the map throughout a run if and only if no registration replaces a running one.
- relay.rs:560 creates a count of zero before it compares with the limit. With a
  limit of zero control streams per address the entry stays (`ZeroEntryHappens`;
  `ZeroLimitEntries` says exactly when); with a positive limit no zero count is
  ever stored (`PerIpAccounting`).
- A control task cancelled by shutdown gives back its permits but skips the
  cleanup of the maps (`LeakHappens`). `RestEmptiesMaps` gives the exact condition
  on the run: for a positive limit per address the address table is empty at rest
  if and only if no registered control task was cancelled. For the channel map it
  is `RestEmptiesChannels`: every cancelled stream was out of the map by then, or
  was taken out of it later.
- relay.rs:100 calls `max_inbound_connections` the maximum of incoming
  connections. The permit is given back once the control stream has been notified
  (line 526), while the socket still waits, so more sockets than that can be open
  (`LimitExceeded`, for any limits that let a peer wait at all, and any
  addresses). `InboundLimitBoundsSockets` gives the exact condition: before
  shutdown the limit bounds the open sockets if and only if it is at most 1 or
  one of the other three limits is 0. `OpenSockets` says how many are open in
  every reachable state.
- relay.rs:137-143 promises a time limit for initiated streams. The socket is
  dropped in time (`DeadlineSafety`), but its task may stay: neither the send at
  line 510 nor the write at line 655 has a timeout. While the channel is full and
  its client does not read, the sender keeps its inbound permit, past its deadline
  and after its relay permit is back. `WhenBlocked` gives the exact condition of
  that wait, `BlockedStep` the steps that end it, `OverstayPossible` the limits
  under which it can outlast the deadline: exactly those that let a peer wait at
  all. `InboundExhausted` is a run in which one client that does not read ties up
  every other inbound permit although no socket waits and no timer runs.

## Model

| member | source | states |
|---|---|---|
| `RelayState.RelayState.TryAcquire` | crates/tx3/src/relay.rs:469-475 | a relay permit is taken if and only if one is free |
| `RelayState.RelayState.ReleasePermit` | crates/tx3/src/relay.rs:356-359 | dropping a permit frees exactly one permit of its own semaphore |
| `RelayState.RelayState.Lookup` | crates/tx3/src/relay.rs:465-489 | the lookup closure: control channel first, then pending token, else drop; a full relay limit drops and does not fall through |
| `RelayState.RelayState.Reap` | crates/tx3/src/relay.rs:503-505 | the reaper removes at most its own entry and gives its relay permit back |
| `RelayCounting.LookupConserves` | crates/tx3/src/relay.rs:465-489 | in any state and under any tokens a lookup loses no relay permit and makes none |
| `RelayCounting.ReapConserves` | crates/tx3/src/relay.rs:503-505 | nor does the reaper |
| `RelayState.RelayState.Register` | crates/tx3/src/relay.rs:558-590 | counts the address and maps the digest, or refuses at the limit with the digest unmapped |
| `RelayState.RelayState.Cleanup` | crates/tx3/src/relay.rs:598-612 | uncounts the address, removes the count at zero, and removes the digest's entry whoever owns it |
| `RelayCount.TotalStep` | crates/tx3/src/relay.rs:395-620 | how one step of any kind changes any count over all tasks |
| `RelayFrame.StepMoves` | crates/tx3/src/relay.rs:395-620 | the life cycle of a task: which phase can follow which, from its first move on; it presents one token, is issued at most one, and keeps its address and start |
| `RelayCauses.ReadingMoves` | crates/tx3/src/relay.rs:403-439 | a task that reads its token moves only by presenting one, by an error, by its time limit once that is over, or by shutdown |
| `RelayCauses.HandshakeMoves` | crates/tx3/src/relay.rs:537-546 | the same for a task that negotiates TLS |
| `RelayCauses.ReceiverEnds` | crates/tx3/src/relay.rs:595-667 | a receiver is dropped only by its client, by shutdown, or when it is idle with an empty queue and nobody can send to it any more |
| `RelayCauses.ReceiverMoves` | crates/tx3/src/relay.rs:630-667 | while it receives a control task changes only by its own writes, one after the other, and by notices handed over into a queue with room |
| `RelayCauses.EndingMoves` | crates/tx3/src/relay.rs:595-619 | once its receiver is dropped a control task does nothing but clean up |
| `RelayCauses.SenderMoves` | crates/tx3/src/relay.rs:509-526 | a sender ends by handing its notice over into a queue with room, because the receiver is gone, or by shutdown |
| `RelayCauses.SplicingMoves` | crates/tx3/src/relay.rs:514-526 | a splice ends by the end of its connections or by shutdown |
| `RelayCauses.NeverTimedOutEarly` | crates/tx3/src/relay.rs:403-412 | over any run a new connection that nothing else happens to is still there while its time limit is not over |
| `RelayCauses.KnownStreamLasts` | crates/tx3/src/relay.rs:622-667 | over any run the relay never ends a control stream that it knows, however long it is idle |
| `RelayCauses.NoNoticeLost` | crates/tx3/src/relay.rs:509-512 | before shutdown, for every token of a stream that still receives, the peer's task still notifies or its notice is sent, in writing or queued |
| `RelayStructure.StructureGrows` | crates/tx3/src/relay.rs:465-523 | no step rewrites history: issued tokens, splices, registrations, frames sent and bytes written only grow |
| `RelayStructure.StructureStep` | crates/tx3/src/relay.rs:395-668 | every step keeps the structural invariant that ties tasks, maps, tokens, reapers and bytes together |
| `RelayCounting.CleanupCounted` | crates/tx3/src/relay.rs:599-609 | the cleanup always finds its address with a positive count, so its guard is never needed |
| `RelayCounting.InvStep` | crates/tx3/src/relay.rs:395-620 | every step keeps the whole invariant, structure and all permit and address accounts |
| `RelayCounting.InvReachable` | crates/tx3/src/relay.rs:289-668 | the invariant holds in every reachable state |
| `RelaySafety.RelayPermitConservation` | crates/tx3/src/relay.rs:468-523 | free permits + pending entries + active splices of a registration = its limit, in every reachable state, also after its control stream ended or was replaced |
| `RelaySafety.PerIpAccounting` | crates/tx3/src/relay.rs:559-609 | an address's count is the number of its registered tasks not cleaned up, never above the limit; before shutdown none of them was cancelled |
| `RelaySafety.ChainOfBounds` | crates/tx3/src/relay.rs:312-617 | control channels <= sum of address counts <= control permits held (plus streams cancelled by shutdown) <= limit; splices <= inbound permits held <= limit |
| `RelaySafety.TotalMembers` | crates/tx3/src/relay.rs:312-617 | a count kept over the task table is the size of the set of tasks it counts |
| `RelaySafety.OneHolder` | crates/tx3/src/relay.rs:465-523 | a socket has at most one holder: its own task, one pending entry, or one splice |
| `RelaySafety.DroppedForGood` | crates/tx3/src/relay.rs:465-523 | a holder changes only from own task to pending entry to splice; a dropped socket is never held again |
| `RelaySafety.PendingResult` | crates/tx3/src/relay.rs:467-505 | the only steps that change the pending map are an offer, the join of that token, and its reaper |
| `RelaySockets.OpenIsHeld` | crates/tx3/src/relay.rs:355-359 | the open sockets are exactly those that a task, a pending entry or a splice holds |
| `RelaySockets.OpenSockets` | crates/tx3/src/relay.rs:312-526 | open sockets = inbound permits held + pending entries + splices - tasks that no longer hold their socket; entries and splices are bounded by the relay permits of all registrations, splices by the inbound permits held |
| `RelaySockets.OfferNeeds` | crates/tx3/src/relay.rs:467-481 | before shutdown a socket can come to wait only under limits of two inbound connections and one of everything else |
| `RelaySockets.LimitExceeded` | crates/tx3/src/relay.rs:509-526 | for all such limits and any addresses, a run after which one socket more than `max_inbound_connections` is open |
| `RelaySockets.InboundLimitBoundsSockets` | crates/tx3/src/relay.rs:100-109 | before shutdown the open sockets never outnumber `max_inbound_connections` if and only if it is at most 1 or another limit is 0 |
| `RelayRouting.Routing` | crates/tx3/src/relay.rs:465-590 | for every active splice there were three steps in this order: the target completed TLS with digest c; the peer presented c while the map held that target for c; the other side presented exactly the token issued then |
| `RelayRouting.FateIsFinal` | crates/tx3/src/relay.rs:475-523 | a token is consumed by a splice or by its reaper, never both, and its fate never changes |
| `RelayRouting.LateReaper` | crates/tx3/src/relay.rs:501-506 | a reaper that fires late changes nothing; one that fires in time removes only the socket that waited under its token |
| `RelayRouting.RegisteredAt` | crates/tx3/src/relay.rs:546-590 | every registration goes back to one completed TLS handshake of that very task and digest |
| `RelayRouting.IssuedAt` | crates/tx3/src/relay.rs:465-481 | every token goes back to one step that presented a digest mapped at that moment |
| `RelayRouting.SplicedAt` | crates/tx3/src/relay.rs:482-484 | every splice goes back to one step that presented its token while it was pending |
| `RelayReplacement.EntryOwner` | crates/tx3/src/relay.rs:570-612 | every control_channels entry is owned by a task of that digest that has not cleaned up |
| `RelayReplacement.NeverRemapped` | crates/tx3/src/relay.rs:570-612 | a control task out of the map never returns to it, and no token is issued for it any more |
| `RelayReplacement.UnmappedCanEnd` | crates/tx3/src/relay.rs:653-667 | the relay can end a control stream by itself if and only if nothing is left to write, no map entry names it and no task is about to notify it |
| `RelayReplacement.CleanupEvictsReplacement` | crates/tx3/src/relay.rs:611 | the cleanup of a replaced stream takes its replacement out of the map, whatever that one is doing, and it is never mapped again |
| `RelayReplacement.EntryStep` | crates/tx3/src/relay.rs:570-611 | a step leaves a stream in the map if and only if it was there and the step is neither the cleanup of another task of its digest nor a new registration of it |
| `RelayReplacement.EntryKept` | crates/tx3/src/relay.rs:570-611 | the same over any run, for a stream that has not cleaned up: its entry is kept if and only if no such step occurs |
| `RelayReplacement.EntryOfStream` | crates/tx3/src/relay.rs:570-611 | counted from its registration: a stream is mapped if and only if since then no task of its digest has registered or, another one, cleaned up |
| `RelayReplacement.AllMappedStep` | crates/tx3/src/relay.rs:558-612 | a step keeps every running control stream mapped if and only if it does not register a digest whose stream still runs |
| `RelayReplacement.AllMappedThroughout` | crates/tx3/src/relay.rs:558-612 | over whole runs: all running streams are mapped in every state if and only if no step of the run replaces a running stream |
| `RelayReplacement.EvictionHappens` | crates/tx3/src/relay.rs:570-612 | for any two addresses that the limits admit, a run after which the older stream's cleanup evicts its running replacement |
| `RelayReplacement.EvictionPossible` | crates/tx3/src/relay.rs:595-612 | a running stream can be evicted by an older one if and only if the limits admit two control streams at once |
| `RelayReplacement.EvictionRepeats` | crates/tx3/src/relay.rs:570-612 | a run in which the relay ends the evicted stream, whose cleanup then evicts the third stream of the same client |
| `RelayOutcomes.EvictedEnds` | crates/tx3/src/relay.rs:581-582 | from every state before shutdown a stream that is out of the map comes to its end without any peer leaving, if the clients read |
| `RelayDeadline.DeadlineSafety` | crates/tx3/src/relay.rs:137-143 | every pending token has one reaper, set to the peer's own deadline; no entry outlives it; no splice starts later than the timeout after the peer's task started; no task reads or negotiates TLS for longer, and none is timed out before |
| `RelayDeadline.NegotiatedInTime` | crates/tx3/src/relay.rs:137-143 | whatever a socket presents, and whatever control stream it opens, it does within the timeout |
| `RelayDeadline.NeverReapedEarly` | crates/tx3/src/relay.rs:501-506 | a socket that was reaped had waited until its deadline, whatever the clock does |
| `RelayDrain.TimePasses` | crates/tx3/src/relay.rs:403-507 | a clock that waits for its timers is never stuck: from every such state time can reach any later moment with every timer fired when due |
| `RelayDrain.WorkStep` | crates/tx3/src/relay.rs:395-668 | every step but an accept and the passing of time uses up some of an explicit work measure |
| `RelayDrain.RunsAreFinite` | crates/tx3/src/relay.rs:395-668 | a run without accepts has no more steps than the measure allows |
| `RelayDrain.SenderProgress` | crates/tx3/src/relay.rs:510-512 | a task blocked on the full capacity-1 channel can send, or fail, or its receiver can take a step towards emptying it, if its client reads |
| `RelayDrain.SenderFinishes` | crates/tx3/src/relay.rs:510-512 | if the client reads, a task blocked on the full channel ends by steps of itself and of its receiver alone |
| `RelayDrain.Progress` | crates/tx3/src/relay.rs:395-620 | unless all that is left waits for the other end of a connection, an enabled step of the relay itself makes progress; the clock need move only if all else waits for a timer; after shutdown nothing waits for a peer |
| `RelayDrain.Settle` | crates/tx3/src/relay.rs:395-667 | from every state the relay alone reaches one where only splices, known idle control streams, unread writes and senders blocked behind them are left; only the first two if the clients read; nothing if the peers leave or after shutdown |
| `RelayStall.WhenBlocked` | crates/tx3/src/relay.rs:510-512 | the relay can do nothing for a sender by itself if and only if the channel is full and its receiver is writing to the client |
| `RelayStall.BlockedStep` | crates/tx3/src/relay.rs:509-526 | a blocked sender stays blocked over a step if and only if the client does not finish reading, its connection does not end and neither task is cancelled |
| `RelayStall.BlockedStays` | crates/tx3/src/relay.rs:509-526 | the same over any run, past every deadline |
| `RelayStall.OverstayPossible` | crates/tx3/src/relay.rs:137-143 | before shutdown and with every timer kept, a sender can outlast its deadline if and only if the limits let a peer wait at all |
| `RelayStall.InboundExhausted` | crates/tx3/src/relay.rs:509-526 | for all such limits, any addresses and distinct tokens, a punctual run after which no socket waits, no timer runs and no inbound permit is free: all but the client's own are held by senders past their deadlines |
| `RelayStall.InboundExhaustible` | crates/tx3/src/relay.rs:509-526 | for every 32-bit configuration that lets a peer wait there is such a run |
| `RelayOutcomes.ExhaustedIsRest` | crates/tx3/src/relay.rs:395-620 | nothing but an accept or the shutdown can happen, whatever the time, if and only if the relay is at rest |
| `RelayOutcomes.EveryRunDrains` | crates/tx3/src/relay.rs:395-620 | for a positive limit per address, every run that goes on until nothing can happen leaves all three maps empty and every semaphore full if and only if no registered control task was cancelled |
| `RelayOutcomes.CanDrain` | crates/tx3/src/relay.rs:395-620 | from every reachable state before shutdown there is a run without accepts to such an end |
| `RelayRest.RestReturnsEverything` | crates/tx3/src/relay.rs:501-617 | at rest all semaphores are full and no socket is pending |
| `RelayRest.RestEmptiesMaps` | crates/tx3/src/relay.rs:598-612 | a run that ends at rest has emptied the address table if and only if no registered control task was cancelled or, with a limit of zero, no control handshake completed; the channel map is empty if none was cancelled |
| `RelayRest.RestEmptiesChannels` | crates/tx3/src/relay.rs:598-612 | a run that ends at rest has emptied the channel map if and only if every control stream the shutdown cancelled was out of it by then or was taken out of it later |
| `RelayRest.LeakHappens` | crates/tx3/src/relay.rs:598-612 | a run with one cancelled control stream, after which all is at rest and both control maps still name it |
| `RelayRest.ZeroLimitEntries` | crates/tx3/src/relay.rs:560-568 | under a limit of zero the address table stays empty exactly as long as no control handshake completes |
| `RelayRest.ZeroEntryHappens` | crates/tx3/src/relay.rs:560-568 | under a limit of zero, a run at rest that leaves a count of zero |
| `RelayDelivery.PipeStep` | crates/tx3/src/relay.rs:509-512 | a step appends the sender's notice to the target's stream, leaves the stream alone, or ends it; a sender fails only when its receiver is gone |
| `RelayDelivery.FirstInFirstOut` | crates/tx3/src/relay.rs:652-667 | along any run, notices sent, in writing and queued are those handed over, in order; none is missing while the stream lasts |
| `RelayDelivery.CarriedInOrder` | crates/tx3/src/relay.rs:652-667 | what a control stream has carried since the relay started is the first of what was handed to it |
| `RelayDelivery.NothingAfterEnd` | crates/tx3/src/relay.rs:653-667 | after its receiver is dropped nothing is handed to a control stream any more |
| `RelayDelivery.SentOnce` | crates/tx3/src/relay.rs:510-512 | no token is sent twice, on one stream or on two; each goes to the registration it was issued for, with the waiting socket's address |
| `Rendezvous.MatchingRun` | crates/tx3/src/relay.rs:30-44 | along every run of the simple specification its sockets stay a matching, and its pairs only grow |
| `RelayRefinement.StepRefines` | crates/tx3/src/relay.rs:465-612 | each step of the relay is one step of the specification (join, leave, offer, match, expire) or a stutter |
| `RelayRefinement.Simulation` | crates/tx3/src/relay.rs:395-620 | every run of the relay, however interleaved, is a run of the specification from its empty state |
| `RelayRefinement.SplicesFormMatching` | crates/tx3/src/relay.rs:482-523 | in every reachable state a socket is on at most one splice, on one side of it |
| `EndToEnd.ClientSeesPrefix` | crates/tx3/src/node.rs:358-394 | however many bytes have arrived, the client decodes the first notices the relay sent, in order, addresses canonical |
| `EndToEnd.ClientSeesHanded` | crates/tx3/src/node.rs:358-394 | over a whole run, what a client decodes is the first of the notices handed to its channel, in order |
| `EndToEnd.FrameIsGenuine` | crates/tx3/src/node.rs:365-400 | every frame a client decodes names a token issued for its registration, to a peer that asked for its digest, with that peer's canonical address |
| `EndToEnd.AcceptReachesPeer` | crates/tx3/src/node.rs:246-252 | writing such a token back splices exactly to the peer the frame was about if it still waits, and otherwise changes nothing but the dropped socket |
| `EndToEnd.TimelyAcceptReachesPeer` | crates/tx3/src/node.rs:246-252 | in terms of time: written back before the peer's deadline, the token is spliced to that peer unless it was already used |
| `EndToEnd.ClientIsReachable` | crates/tx3/src/relay.rs:22-44 | from every reachable state with a registered client, whatever it is being sent, and free permits, a peer's connection and the client's answer lead to their splice |
| `Frame.FrameLayout` | crates/tx3/src/relay.rs:46-59 | where address, port and token lie in the frame, the port with its high byte first, IPv4 in mapped form |
| `Frame.DecodeEncode` | crates/tx3/src/node.rs:368-394 | decoding an encoded notice gives it back with its address canonical (IPv4-mapped becomes IPv4, section 2.5.5.2 of RFC 4291; flow and scope zero) |
| `Frame.DecodedAddress` | crates/tx3/src/node.rs:368-394 | by octets: an IPv4 address comes back as it is, an IPv4-mapped one as its last four octets, any other IPv6 address without flow and scope |
| `Frame.EncodeDecode` | crates/tx3/src/relay.rs:656-664 | encoding a decoded buffer gives back all of its 50 bytes |
| `Frame.CanonicalIsWireFixpoint` | crates/tx3/src/node.rs:368-394 | a notice survives the wire unchanged if and only if its address is canonical |
| `Frame.WriteFrame` | crates/tx3/src/relay.rs:655-664 | the output buffer filled in place is the encoded frame |
| `ControlStream.StreamRoundTrip` | crates/tx3/src/relay.rs:652-668 | any sequence of notices, followed by part of a frame, decodes to exactly those notices in order |
| `ControlStream.TruncatedStream` | crates/tx3/src/node.rs:365-366 | a stream cut anywhere decodes to a prefix, never to another message |
| `ControlStream.NotifyLoop` | crates/tx3/src/relay.rs:652-668 | the write loop puts one frame per received command on the wire, in order |
| `ControlStream.ByteStream.Read` | crates/tx3/src/node.rs:366 | one read takes some of the unread bytes, and none only at the end |
| `ControlStream.ByteStream.ReadExact` | crates/tx3/src/node.rs:366 | the buffer is filled with the next bytes, or the read fails if and only if there are too few, however they are chunked |
| `ControlStream.ReadFrame` | crates/tx3/src/node.rs:366 | the buffer holds the next frame of the stream, or the stream holds no further frame |
| `ControlStream.TakeApart` | crates/tx3/src/node.rs:368-394 | the buffer is taken apart in place as the frame decoder says |
| `ControlStream.AcceptLoop` | crates/tx3/src/node.rs:362-409 | the client's loop over one reused buffer hands on the decoded notices of the stream, in order, until it ends or nobody receives |
| `Addr.IdRoundTrip` | crates/tx3/src/addr.rs:47-61 | the text of an optional id decodes to that id, the placeholder to none, and holds no slash |
| `Addr.Rfc4648IsGood` | crates/tx3/src/addr.rs:47-61 | both a strict and a lenient decoder of the standard satisfy what is assumed of the library |
| `Addr.FromUrlPath` | crates/tx3/src/addr.rs:223-254 | whatever the parts of the path, with or without a final slash: the id is the first if it decodes to 32 bytes and none otherwise, the stacks are the pairs after it under `st`, `rst` or another key |
| `Addr.ToUrl` | crates/tx3/src/addr.rs:256-276 | the print loop yields `tx3:` and every part followed by a slash |
| `Addr.PrintedText` | crates/tx3/src/addr.rs:256-276 | the text is the id or a dash, then for each stack in order its key, `st`, `rst` or its own, and its value, each followed by a slash |
| `Addr.SplitTerminated` | crates/tx3/src/addr.rs:227 | every path has exactly one list of slash-free parts, each followed by a slash but for a last that is not empty, and is split into it |
| `Addr.ParseIsNormal` | crates/tx3/src/addr.rs:223-254 | every path parses to an address in normal form; an unpaired key at the end is dropped |
| `Addr.RoundTrip` | crates/tx3/src/addr.rs:89-276 | at the level of the path string: parsing a printed address gives it back if and only if its parts hold no slash and no `Other` stack uses the key `st` or `rst` |
| `Addr.ParsePrintParse` | crates/tx3/src/addr.rs:223-276 | for every path string, what was parsed survives printing and parsing |
| `Base64.DecodeEncode` | crates/tx3/src/addr.rs:47-61 | decoding an encoded byte string of any length gives it back; the strict decoder accepts no other text for it |
| `Base64.IdText` | crates/tx3/src/addr.rs:59-61 | the text of 32 bytes has 43 characters, none of them a slash |
| `Base64.GroupBits` | crates/tx3/src/addr.rs:59-61 | the sextets of a group are the bits of its bytes in order, padded with zeros (section 5 of RFC 4648) |
| `Base64.EncodeAppend` | crates/tx3/src/addr.rs:59-61 | the groups of three bytes are encoded one after the other, in order |
| `Base64.SextetsLength` | crates/tx3/src/addr.rs:59-61 | n bytes take (4n + 2) / 3 characters |
| `Interfaces.GlobalIsTable4` | crates/tx3/src/addr.rs:282-304 | the IPv4 bit masks hold for exactly the addresses outside a table of CIDR blocks, but for two exempt addresses |
| `Interfaces.GlobalIsTable6` | crates/tx3/src/addr.rs:306-319 | the same for IPv6, without exemptions |
| `Interfaces.GlobalsInOrder` | crates/tx3/src/addr.rs:329-332 | the global addresses are all those of the family, in the order of the interface list |
| `Interfaces.FirstIsFirst` | crates/tx3/src/addr.rs:333-340 | the remembered loopback or local address is the first of its kind |
| `Interfaces.PublishedIsOurs` | crates/tx3/src/addr.rs:321-384 | the result has the listener's port and family, is empty exactly when the machine has no such address, and is never outranked (global before local before loopback); several only if all are global |
| `Interfaces.Select` | crates/tx3/src/addr.rs:325-350 | the selection loop returns every global address of the family, in order, else the one at the least position of the best rank, else nothing |
| `Interfaces.UpgradeAddr` | crates/tx3/src/addr.rs:321-384 | a specified address is returned as it is; 0.0.0.0 and :: select so among the interfaces of their family, with global and loopback told by octets; a failure to list them is passed on |
| `Termination.Term.Notify` | crates/tx3/src/util.rs:35 | the second half notifies every future that exists |
| `Termination.Term.OnTerm` | crates/tx3/src/util.rs:45-49 | a new future listens from its creation |
| `Termination.Term.Poll` | crates/tx3/src/util.rs:50-55 | the first poll looks at the flag, later ones at the listener |
| `Termination.InvStep` | crates/tx3/src/util.rs:33-56 | every interleaved step keeps: once a call has returned no future listens in vain |
| `Termination.NoLostWakeup` | crates/tx3/src/util.rs:33-56 | once some call of `term` has returned, every future, created before or after, resolves at its next poll |
| `Termination.NeverResolvesEarly` | crates/tx3/src/util.rs:33-56 | a future that has resolved presupposes a caller that has stored the flag |
| `Termination.OnlyNoticeResolves` | crates/tx3/src/util.rs:50-55 | a future that listens is resolved by a notice and by nothing else |

## Left out

- TLS, certificates, SHA-256 and key generation: a handshake is a step that fails or yields the remote digest.
- TCP connect, keepalive, DNS lookup and the bytes of a splice: only success, failure and end are modelled.
- The insides of tokio, parking_lot and event_listener: only their contracts (counting semaphore, channel of capacity 1, atomic closure, notify all).
- Errors of `listener.accept` (the loop goes on) and of socket configuration beyond the `configured` flag of `Accept`.
- The threads that share `RelayState.RelayState`: the class states what one closure does; interleavings are those of the transition system.
- Quality of randomness, and that a token is unguessable: tokens are assumed fresh.
- Liveness that needs a fair network: proved are progress, finiteness and a way to rest, not that peers cooperate.
- `url::Url` parsing (percent-encoding, white space, and the cut at `?` and `#`): the model starts at the path string, so parts with such signs count as normal.
- Printing after decoding for base64: how lenient the library is cannot be seen from tx3's sources, so only the strict decoder is claimed to accept nothing but encoded text.
- `Tx3Node::new`, `bind_tx3_st`, the retry loop of `bind_tx3_rst` and the fallback loop of `Tx3Node::connect`: they try addresses one after another and would only add easy members.
- The error and trigger callbacks of `Term`, `spawn_err` and `spawn_err2`, and which of two `Term`s ended a task.
- The relay binary, configuration files, serde, tracing and benches.
