# Verification of the P2P transport and the relay

This project models the two protocol cores of the repository in Dafny and proves what they keep on
every run.

**The reliable UDP layer** (`common/src/singleconnection.rs`). Two symmetric endpoints exchange
datagrams. Each has a receive task (cumulative counter, reorder buffer), a send task (sequence
numbers, a store of everything sent, timed retransmission) and an ack task. There is no handshake:
data is numbered from 1, the receiver waits for 0 first, and slot 0 is filled by whichever ack packet
comes first, possibly an ack that was bounced back.

- `Basics.dfy`: bytes, addresses, options.
- `Wire.dfy`: the datagram format, and what the 6600-byte receive buffer does to a datagram.
- `Receiver.dfy`: the receive handler on values, its set-based specification, and the refinement.
- `Sender.dfy`: the store of sent packets, a retransmission scan in any map order, transmission times.
- `SingleConnection.dfy`: the source's objects and tasks, proved against those values.
- `Protocol.dfy`: both endpoints and a network that loses, duplicates, reorders and injects; safety.
- `TaskSteps.dfy`: what the source's tasks do are the steps of `Protocol`.
- `Retransmission.dfy`: when the packets of one number leave, on every run.
- `Acks.dfy`: what an ack number means and how many acks there are.
- `Recovery.dfy`: from every reachable state there is a way to deliver everything.
- `Interleaving.dfy`: the receive handler statement by statement, with the send task reading its
  counters at any moment.
- `Statements.dfy`: both endpoints statement by statement, with all three tasks on each side and the
  network interleaved.
- `Simulation.dfy`, `Refinement.dfy`: every such run is a run of `Protocol`, so its safety holds between
  any two statements.
- `StatementAcks.dfy`: where ack numbers come from, between any two statements.
- `StatementRecovery.dfy`: tasks come to rest, every catch-up schedule of `Recovery` can be carried out
  statement by statement, and so the endpoints can catch up from the middle of anything.

**The relay** (`turn_server/src/lib.rs`, and the older variant `turn_server/src/bin/first_impl.rs`).
1024 fixed buffers travel between the kernel ring, a router, shard queues and a return channel, with
no locks. Everything, including the `unsafe` code, rests on each buffer index being in one place.

- `Bags.dfy`, `Token.dfy`: multisets owned by sequences; the 64-bit token of a request.
- `IoRing.dfy`, `IoRingSafety.dfy`: pool, slots as heap boxes, submission ring, kernel steps; ownership,
  raw pointers, contents of buffers and of datagrams sent.
- `Relay.dfy`, `RelaySafety.dfy`: loop, shards and kernel as interleaved steps; the whole invariant.
- `RelayRouting.dfy`, `RelayOrder.dfy`, `RelayTiming.dfy`, `RelayBounds.dfy`, `RingSizing.dfy`: the
  theorems about every run, whatever the order of the loop's steps.
- `LoopOrder.dfy`: the order in which the loop takes its own steps (start-up, control messages, send
  requests, sync, completions). `RingExact.dfy`, `LostSession.dfy`: what can go wrong, on runs in that
  order: a push rejected by a ring that is too small, and a session lost to a full queue.
- `Buffers.dfy`, `Shards.dfy`, `TurnServer.dfy`: the pool, the shards, the router and the event loop as
  objects; a turn of the loop is a run of the relay's loop steps, and its indexing, unwraps and
  subtractions are defined because of the invariants.
- `FirstImpl.dfy`, `FirstRouting.dfy`, `FirstServer.dfy`: the older variant, phase by phase, where it
  sends what it receives, and as objects. Its channel sends require room, so their verification is the
  proof that they never wait.
- `Publishing.dfy`, `SlotLeaks.dfy`: for both variants, no send request is left unpublished and no slot
  leaked.

Steps of tasks, threads and kernel are labelled and deterministic; a run is a sequence of steps, and
`Valid`/`Run` in `Protocol`, `Interleaving`, `Statements`, `Relay` and `FirstImpl`, and `Allows`/`Reached`
in `LoopOrder`, say which sequences are runs. A state's fields that only record history (what was
received, asked for, wanted, lost) are marked as such where they are declared; no step of the program
reads them.

## Assumptions

- Reliable UDP: an endpoint sends fewer than 2^32 - 1 data packets (`Protocol.MAX_MESSAGES`); the
  wrap-around of the counters is modelled, and `Receiver.ReceiverRefinesSet` shows it matters only
  when all 2^32 numbers have arrived. `output_rx` stays open and is read from. One receive, one send
  and one ack task per endpoint. A message longer than 6592 bytes is cut off by the receive buffer;
  this is modelled, not assumed away. A send on the socket puts the datagram on the network, where it
  may be lost, if it has at most 65507 bytes (UDP over IPv4); a longer one never leaves, and the code
  ignores the error.
- A retransmission's time is the one its scan reads at the start; in `Statements` the datagram may leave
  later.
- In `Protocol` handlers run in one piece, and a data header may carry any number up to the current
  `receiver_acknowledged`. That this covers tasks interleaved statement by statement is proved
  (`Refinement.EveryRunRefines`). There, one step is one access to a counter, a map, a channel, the clock or
  the socket; a scan visits the store in an order fixed at its start, as only the send task changes it.
- Relay: session ids are fresh. A receive delivers at most 1500 bytes and the sender's address; a
  failed one leaves length 0 and no address. A zero-copy send yields either one completion without
  MORE, or one with MORE and later a second without, both under the Send token. The kernel consumes
  published submissions in order, executes them in any order and reads a send's buffer at any moment
  until its last completion. The loop learns what was consumed only at a sync. The kernel's polling
  thread may consume entries between the two halves of a sync, after the tail is stored and before the
  head is read (`Relay.Step.SyncRing`). The older variant has no polling thread: there the kernel
  consumes nothing during a sync.
- Addresses are numbers, `0.0.0.0:0` is 0; time is a number that never decreases.

## Where the source's comments and the code disagree

The model follows the code.

- `turn_server/src/lib.rs:387-389` promises a stable hash of the source; the router uses a table filled
  round-robin (`turn_server/src/lib.rs:407-419`, `turn_server/src/lib.rs:693-697`), and `shard_for` is
  unused. In `turn_server/src/bin/first_impl.rs:312-313` it always answers shard 0.
- `common/src/singleconnection.rs:209` says 500 ms; the timeout is 2000 ms.
- `post_send_sqe` takes a length and ignores it: the whole 1500-byte buffer is sent, so a relayed
  datagram starts with the bytes received and may continue with older contents of the buffer.
- The SAFETY comment at `turn_server/src/lib.rs:139-140` says a slot lives until the completion. It is
  replaced only when the index is posted again; that this is never too early is `RelayBounds.SlotStays`.
- The branch for SendNotif tokens (`turn_server/src/lib.rs:772-774`) is never taken: no token of this
  kind is ever made.
- With the ring of `turn_server/src/main.rs:79`, one entry per buffer, the receives posted at start-up
  fill the ring. Until the next sync only as many sends get in as the kernel consumed during the
  start-up sync; every other is rejected and its buffer lost (`RingSizing.SmallRingLosesFirstBatch`).
  Two entries per buffer suffice, and no fewer do: on some run in the loop's own order a push is
  rejected (`RingExact.RingSizeExact`). The theorem is about any number of entries; the kernel rounds
  the number asked for up to a power of two, so of the sizes from 1024 to 2047 only 1024 occurs.
- A session registered while its shard's queue is full is lost although the router routes by it: the
  packets of its endpoints are dropped with their buffers (`LostSession.SessionLost`).
  `RelayRouting.RegistrationCounts` says exactly, for each endpoint and on every run, when its last
  registration takes effect; a session lost by others does not matter to it.
- A message longer than 65499 bytes is stored and retransmitted for ever but never leaves, and neither
  it nor anything after it is ever delivered (`Recovery.LongMessageBlocks`).

## Model

| member | source | states |
|---|---|---|
| Wire.SerializeInto | common/src/singleconnection.rs:250-258 | the buffer filled piece by piece is the encoding, and decodes to the packet again |
| Wire.WireFormat | common/src/singleconnection.rs:250-258 | the eight header bytes, each as a quotient of the number it belongs to, highest first, then the payload |
| Wire.RoundTrip | common/src/singleconnection.rs:250-280 | decoding an encoded packet gives it back, an empty payload becoming none |
| Wire.DecodeThenEncode | common/src/singleconnection.rs:260-280 | decoding fails exactly below 8 bytes, and otherwise re-encoding gives the very bytes |
| Wire.SerializeInjective | common/src/singleconnection.rs:250-258 | encodings coincide exactly for packets equal up to an empty payload |
| Wire.ParseOfSerialize | common/src/singleconnection.rs:49-58 | what the receive buffer makes of an encoded packet of any size |
| Wire.DeliveredUnchanged | common/src/singleconnection.rs:49-58 | a message arrives unchanged exactly if it is non-empty and at most 6592 bytes long |
| Receiver.DrainClosedForm | common/src/singleconnection.rs:78-89 | draining releases exactly the consecutive run of buffered packets, in order |
| Receiver.DrainKeepsAcks | common/src/singleconnection.rs:80-89 | drained packets queue no acks |
| Receiver.PacketAcks | common/src/singleconnection.rs:62-119 | which number a packet queues (its own in order, its ack number if late and empty, none otherwise) and what it is answered with (an early one by packet 0 with the last acknowledged number) |
| Receiver.ReceiverRefinesSet | common/src/singleconnection.rs:62-120 | over any arrivals, the state is the set-based one (least number never received, everything below it output in order, everything above it buffered) exactly if not all 2^32 numbers arrived |
| Receiver.OrderDoesNotMatter | common/src/singleconnection.rs:62-120 | permuting or repeating arrivals changes neither counters nor buffer nor payload stream |
| Sender.StampsFollowTransmissions | common/src/singleconnection.rs:213-220 | after any scans a packet's stamp is its last transmission, and the packet with its frozen header is unchanged |
| Sender.TransmissionsAreSpaced | common/src/singleconnection.rs:207-229 | transmissions are more than 2000 ms apart, the k-th more than 2000(k-1) ms after the first |
| Sender.TransmissionsAreTimely | common/src/singleconnection.rs:207-229 | with scans at most g apart, gaps are at most 2000+g ms, and every scan leaves no packet older than 2000 ms |
| Retransmission.EmissionsSpaced | common/src/singleconnection.rs:207-229 | on every run of the two endpoints all transmissions of one packet, the first included, lie more than 2000 ms apart, its stamp is the time of the latest, and a scan sends it again exactly if that is more than 2000 ms ago |
| Retransmission.EmissionsOnWire | common/src/singleconnection.rs:197-228 | what a submission or scan puts on the way are exactly the stored packets it emits, those that a datagram can hold |
| Retransmission.ScansLeaveNoneWaiting | common/src/singleconnection.rs:207-229 | on every run, after a scan no packet ever sent has waited longer than 2000 ms |
| SingleConnection.ReliableOneWayUDP.Handle | common/src/singleconnection.rs:56-121 | in order a packet is output first and its own number queued; early it is stored and answered at once by an ack that decodes to receiver_acknowledged; late without payload its ack number is queued; late with payload nothing changes; counters, buffer and output are those of the value-level handler, and the sender's part is left alone |
| SingleConnection.ReliableOneWayUDP.Recv | common/src/singleconnection.rs:48-125 | the receive loop is a chain of steps, one per datagram |
| SingleConnection.ReceivesFromPeer | common/src/singleconnection.rs:50-58 | such a chain handles exactly the decodable datagrams from the peer, in order, with strangers and short buffers anywhere between |
| SingleConnection.ReliableOneWayUDPHandle.CollectOverdue | common/src/singleconnection.rs:208-220 | whatever the map order, exactly the overdue packets are collected, each once, and exactly their stamps change |
| SingleConnection.ReliableOneWayUDPHandle.Transmit | common/src/singleconnection.rs:222-228 | each collected packet is one new entry of the socket, in order |
| SingleConnection.ReliableOneWayUDPHandle.CheckRetransmission | common/src/singleconnection.rs:207-229 | one scan: the packets last sent more than 2000 ms ago, each once and as stored, are the new entries of the socket, and exactly their stamps become the time of the scan |
| SingleConnection.ReliableOneWayUDPHandle.SendMessage | common/src/singleconnection.rs:164-199 | data gets the next number and the receiver_acknowledged of this moment, is stored with the time and sent as one new entry of the socket; an Ack message does nothing |
| SingleConnection.ReliableOneWayUDPHandle.Wake | common/src/singleconnection.rs:163-203 | one event is one step of the send task |
| SingleConnection.ReliableOneWayUDPHandle.Send | common/src/singleconnection.rs:159-205 | the send loop is a chain of such steps, one per event, whatever the receive task does to receiver_acknowledged in between |
| SingleConnection.ReliableOneWayUDPHandle.PeriodicAcks | common/src/singleconnection.rs:231-247 | every queued number leaves as one datagram that decodes to packet 0 with this ack number and no payload |
| TaskSteps.WakeIsStep | common/src/singleconnection.rs:163-229 | one event of the send task is one submission or scan of the system: same sender, and the new entries of the socket that a datagram can hold are what is new on the way |
| TaskSteps.ArrivalIsStep | common/src/singleconnection.rs:50-121 | one datagram received is one delivery of the system, its answers what is new on the way |
| TaskSteps.AckIsStep | common/src/singleconnection.rs:236-245 | one step of the ack task puts one datagram on the way, and it decodes to the number taken from the queue |
| TaskSteps.SubmitCarries | common/src/singleconnection.rs:178-197 | a submitted message leaves under the next number with the acknowledged number that was read |
| Protocol.RunKeepsSafety | common/src/singleconnection.rs:48-247 | every run keeps: stores hold exactly 1..n with the payloads given, everything in flight is genuine, receivers hold only what was sent |
| Protocol.PrefixSafety | common/src/singleconnection.rs:58-120 | in every reachable state an endpoint's output is one empty packet 0, then 1, 2, 3, ... each once with the payloads given to its peer, and the messages seen are a prefix of the peer's non-empty messages |
| Acks.AckProvenance | common/src/singleconnection.rs:65-118 | on every run every ack number queued or on the wire is 0 or below the larger frontier, and one in a data header is below its sender's own |
| Acks.AckConservation | common/src/singleconnection.rs:65-118 | on every run acks in flight plus acks queued number the arrivals that create one, plus acks duplicated, minus acks lost |
| Recovery.Recoverability | common/src/singleconnection.rs:48-229 | from every reachable state in which an endpoint has sent something, some schedule without losses, duplicates or new messages ends with the other holding all of it and an empty reorder buffer, exactly if no message is too long for a datagram |
| Recovery.BothRecoverIff | common/src/singleconnection.rs:48-229 | both can catch up at once exactly if at least one has ever sent something and neither was given a message too long for a datagram |
| Recovery.LongMessageBlocks | common/src/singleconnection.rs:48-229 | on every run, of a direction in which a message too long for a datagram was given only what came before it is ever put out |
| Recovery.CatchUpOn | common/src/singleconnection.rs:62-90 | the schedule, including the detour by which a bounced ack unlocks slot 0 |
| Recovery.UnlockByAnswer | common/src/singleconnection.rs:91-104 | an endpoint whose peer never sends data is unlocked by the peer's answer to its early data |
| Interleaving.EveryInterleaving | common/src/singleconnection.rs:62-119 | at every moment of every interleaving output count, expected_sequence and receiver_acknowledged are exactly as far apart as the next statement says (an arriving packet is output before it is counted, a drained one acknowledged, counted and then output), every ack number read is at most one ahead of the output and covered by its handler, and between handlers the state is that of handlers run in one piece |
| Interleaving.CountersNeverDecrease | common/src/singleconnection.rs:69-85 | neither counter ever decreases |
| Interleaving.AckReadAhead | common/src/singleconnection.rs:84-85 | a run on which the send task reads an ack number equal to expected_sequence, between the two fetch_adds of the drain loop |
| Refinement.EveryRunRefines | common/src/singleconnection.rs:48-247 | every run of two endpoints statement by statement, with receive, send and ack tasks and the network interleaved, is a run of whole handlers: same clock, messages, stores and counters once the started handlers finish, and the same traffic up to order and what they have still to send |
| Refinement.StepSimulates | common/src/singleconnection.rs:48-247 | each single statement is at most one handler step |
| Simulation.HandleFinishes | common/src/singleconnection.rs:62-119 | a statement of the receive task moves neither the state its handler will end in nor what it will have sent |
| Simulation.VisitFinds | common/src/singleconnection.rs:213-220 | visiting one entry of the store, wherever the scan stands, changes neither the store the scan ends with nor the packets it finds |
| Refinement.StatementPrefixSafety | common/src/singleconnection.rs:48-247 | between any two statements of any tasks each endpoint's output is a prefix of what its peer was given |
| StatementAcks.StatementAckProvenance | common/src/singleconnection.rs:65-118 | between any two statements of any tasks every ack number queued, in hand or on the wire is 0 or below what the further endpoint has received in order, and one in a data header below what its own sender has, a packet between the two fetch_adds of the drain loop counted |
| StatementAcks.HeaderCarriesReading | common/src/singleconnection.rs:178-184 | the header of a message in hand gets the number next_seq was raised to and the receiver_acknowledged of the moment it is read |
| StatementAcks.HandleCovers | common/src/singleconnection.rs:62-119 | every statement of the receive task keeps this for what it queues and sends |
| StatementRecovery.Settle | common/src/singleconnection.rs:48-247 | from any moment all six tasks come to rest by their own statements alone |
| StatementRecovery.Realise | common/src/singleconnection.rs:48-247 | every catch-up schedule of whole handlers can be carried out statement by statement and comes to rest in the matching state |
| StatementRecovery.StatementRecoverability | common/src/singleconnection.rs:48-247 | from any moment of any statement-level run in which an endpoint was given a message, some continuation without losses, duplicates or new messages comes to rest with the other holding all of them, exactly if none is too long for a datagram |
| StatementRecovery.BothStatementsRecoverIff | common/src/singleconnection.rs:48-247 | likewise for both at once, exactly if at least one was ever given a message and neither one too long |
| Token.TokenRoundTrip | turn_server/src/lib.rs:452-469 | decoding a token gives back operation and index |
| Token.DecodeThenEncode | turn_server/src/lib.rs:452-469 | encoding a decoded token gives it back exactly if it is one of the three operations' |
| IoRing.WriteOne | turn_server/src/lib.rs:221-228 | writing one buffer of the slab changes that buffer only |
| IoRingSafety.PostSendKeeps | turn_server/src/lib.rs:160-179 | posting a send for an index the loop owns keeps ownership, pointers and contents |
| IoRingSafety.CompleteKeeps | turn_server/src/lib.rs:732-776 | so does processing any completion |
| IoRingSafety.KernelKeeps | turn_server/src/lib.rs:501-567 | and every kernel step: no freed slot is followed, no buffer waiting to be sent is written |
| IoRingSafety.OneRequestPerBuffer | turn_server/src/lib.rs:132-187 | two outstanding requests are never about the same buffer |
| IoRingSafety.PointerAlive | turn_server/src/lib.rs:139-142 | an outstanding request's pointer is the live, allocated slot of its index and leads to its region |
| IoRingSafety.RepostedOnce | turn_server/src/lib.rs:748-751 | a pushed send leads to at most one repost, and a buffer is not under way while it is held |
| Relay.StepLink | turn_server/src/lib.rs:655-778 | every step keeps: the indices outside the ring are exactly those in shard queues, in a shard's hand and in the return channel |
| RelaySafety.RunKeeps | turn_server/src/lib.rs:655-778 | every run keeps the whole invariant: ownership, pointers, contents, tables, and that every packet under way still has the length and source of what its buffer holds |
| RelaySafety.StartInv | turn_server/src/lib.rs:106-130 | the invariant holds after registration |
| RelaySafety.StepTickets | turn_server/src/lib.rs:737-747 | no step but the processing of a receive gives a buffer a new datagram or changes what was wanted for one |
| RelayRouting.Foreseen | turn_server/src/lib.rs:283-295 | taking its next message, a shard routes as its queue foretold |
| RelayRouting.RunRoutes | turn_server/src/lib.rs:335-419 | on every run every packet queued, in a shard's hand, on its way back or sent goes where its shard's tables and queue led its source when it was routed, whatever was registered or refused since |
| RelayRouting.RelayedToPartner | turn_server/src/lib.rs:335-419 | on every run what is sent for a datagram starts with the bytes the kernel received, and goes to the partner its source had when the loop took it exactly if the last registration of that source before had taken effect; nothing is sent for a datagram the router dropped |
| RelayRouting.RegistrationCounts | turn_server/src/lib.rs:689-701 | on every run the shard of an endpoint is led to its last partner exactly if, the last time it was registered, the message fitted the shard's queue or the shard would route that way anyway |
| RelayRouting.RegisterEndpoint | turn_server/src/lib.rs:693-697 | one registration is followed exactly if its message fits the queue or the shard would route that way anyway |
| RelayRouting.RoomSuffices | turn_server/src/lib.rs:693-697 | if no registration of an endpoint was ever refused, its last one has taken effect |
| LostSession.SessionLost | turn_server/src/lib.rs:688-775 | for any number of shards, a run in the loop's order, from start-up on, on which a session is registered at a full queue and a datagram of its host is received, routed, and dropped by the shard with its buffer |
| RelayRouting.AnswerWanted | turn_server/src/lib.rs:335-352 | a shard's answer goes where the packet was led when it was routed; without a full channel it answers exactly if it was led anywhere |
| RelayOrder.ShardKeepsOrder | turn_server/src/lib.rs:275-346 | on every run, of two datagrams through one shard the one received first is asked for first |
| RelayOrder.SessionKeepsOrder | turn_server/src/lib.rs:283-346 | if neither endpoint of a session is registered again, its send requests in both directions follow the order of its receives, through any drops and any other traffic |
| RelayTiming.RunTiming | turn_server/src/lib.rs:189-213 | every run keeps: held buffers have a stamp, sends under way have all three in order |
| RelayTiming.StampAdded | turn_server/src/lib.rs:189-198 | a new receive record keeps the stamps of everything held and of every send under way |
| RelayTiming.MarkedStamps | turn_server/src/lib.rs:199-210 | after both marks of a send request its buffer has all three stamps, in order, and every other record is as good as before |
| RelayTiming.StampTaken | turn_server/src/lib.rs:211-213 | the record of a finished send is complete, and taking it away leaves those of all others |
| RelayTiming.ArrivalStamp | turn_server/src/lib.rs:737-741 | the first stamp is the time at which the loop took the receive |
| RelayTiming.SendStamps | turn_server/src/lib.rs:704-706 | the other two are the times before and after the send was posted |
| RelaySafety.ArrivingDescribed | turn_server/src/lib.rs:215-220 | the address and length the loop reads for a receive are those of the datagram its buffer holds |
| RelayTiming.ReportsAddUp | turn_server/src/lib.rs:752-764 | on every run no unwrap fails, each interval lies exactly between the two stamps it is named after, none is negative, and they add up to the total |
| RelayTiming.RecordFound | turn_server/src/lib.rs:748-764 | every final completion of a send finds its record, complete |
| RelayBounds.EveryIndexInOnePlace | turn_server/src/lib.rs:655-778 | on every run every index is in exactly one stage |
| RelayBounds.StagesAddUp | turn_server/src/lib.rs:655-778 | on every run the stage sizes add up to 1024 |
| RelayBounds.OneRepostPerSend | turn_server/src/lib.rs:748-751 | on every run a buffer's reposts are its finished pushed sends |
| RelayBounds.PointersSafe | turn_server/src/lib.rs:132-179 | on every run no freed slot has been followed, and every outstanding pointer is live and leads to its own buffer |
| RelayBounds.SlotStays | turn_server/src/lib.rs:141-142 | no step replaces the slot of a request that stays outstanding |
| SlotLeaks.SlotsOwned | turn_server/src/lib.rs:139-142 | on every run each boxed slot on the heap is the live one of its buffer: replacing it frees it |
| SlotLeaks.FirstSlotsOwned | turn_server/src/bin/first_impl.rs:571-662 | the same for the older relay |
| RelayBounds.ReturnChannelHasRoom | turn_server/src/main.rs:55 | a shard's try_send finds at most 1023 entries, so it never fails |
| RelayBounds.FullOfRegistrations | turn_server/src/main.rs:45 | a full shard queue holds at least 475 registrations |
| RelayBounds.PacketTurnedAway | turn_server/src/lib.rs:407-414 | a packet of a known source is turned away only if more than 475 registrations wait |
| RelayBounds.PacketAnswered | turn_server/src/lib.rs:335-352 | on every run every packet in a shard's hand was routed at one moment of it; it is answered exactly if its source was led anywhere then, and with its partner of that moment exactly if the last registration of the source had taken effect |
| RelayBounds.LostGrows | turn_server/src/lib.rs:149-414 | a buffer is lost exactly at a rejected push, at the router's two drops and at a shard's, one at a time |
| LoopOrder.LoopRefinesRelay | turn_server/src/lib.rs:688-777 | every run in the loop's order is a run of the relay |
| Publishing.SendsPublished | turn_server/src/lib.rs:702-732 | on every run in the loop's order, whenever the loop looks at completions, the kernel can see every send request ever pushed |
| RingSizing.LargeRingSuffices | turn_server/src/lib.rs:702-713 | with at least two entries per buffer no push is rejected on any run |
| RingSizing.RoomUntilSync | turn_server/src/lib.rs:710-713 | until the next sync no more sends get into the ring than it has room for now, whatever happens |
| RingSizing.SmallRingLosesFirstBatch | turn_server/src/main.rs:76-79 | with one entry per buffer, before the second sync at most as many sends enter the ring as the kernel consumed during the first; every other is rejected and its buffer lost |
| RingExact.RingSizeExact | turn_server/src/lib.rs:688-777 | no push is rejected on any run in the loop's order exactly if the ring has two entries per buffer |
| RingExact.SmallRingRejects | turn_server/src/lib.rs:688-777 | for every ring of 1024 to 2047 entries, a run in the loop's order on which a batch of packets is received and answered and the last send of the drain that follows is rejected |
| RingExact.AskOne | turn_server/src/lib.rs:335-346 | on it, a datagram from a session's host is received, routed, handled and answered |
| RingExact.FillingRuns | turn_server/src/lib.rs:688-777 | the run behind it: start-up, one registration, a batch received and answered, and a drain that fills the ring |
| Buffers.SubmissionQueue.Push | turn_server/src/lib.rs:149-151 | a push is accepted exactly if the loop's view of the ring has room |
| Buffers.SubmissionQueue.Sync | turn_server/src/lib.rs:683 | publishes all entries and forgets those consumed |
| Buffers.BufferPool.RegisterBufferKernel | turn_server/src/lib.rs:106-130 | all indices on the free list, in order |
| Buffers.BufferPool.MsgHdrPtrFor | turn_server/src/lib.rs:557-566 | a new box whose slot points at the buffer; the index must be in bounds |
| Buffers.BufferPool.PostRecvSqe | turn_server/src/lib.rs:132-158 | a fresh slot without address and, if there is room, a receive request for it |
| Buffers.BufferPool.PostSendSqe | turn_server/src/lib.rs:160-179 | a fresh slot with the destination and, if there is room, a send request for it, whatever the length |
| Shards.Shard.AddSession | turn_server/src/lib.rs:261-273 | both endpoints lead to the new session |
| Shards.Shard.HandlePacket | turn_server/src/lib.rs:335-352 | sends the answer exactly if there is a session, a partner and room |
| Shards.Shard.Turn | turn_server/src/lib.rs:283-296 | one message is handled as the value-level shard says; an empty queue changes nothing |
| Shards.Shard.Run | turn_server/src/lib.rs:275-305 | the loop is a chain of turns, one per message, until the queue is empty or as many messages as supplied are handled |
| Shards.TurnRefines | turn_server/src/lib.rs:283-295 | a turn of a shard is its one or two steps in the relay |
| Shards.ShardRouter.Route | turn_server/src/lib.rs:407-414 | the packet is appended to its source's queue exactly if the source is known and there is room; no other queue changes |
| TurnServer.CompletedGood | turn_server/src/lib.rs:732-776 | for any completion index and unwraps are in bounds, and the loop's values afterwards are those of the relay's step |
| TurnServer.EventLoop.constructor | turn_server/src/lib.rs:655-672 | the loop starts in the relay's start state |
| TurnServer.EventLoop.Control | turn_server/src/lib.rs:690-698 | a control message is a registration step |
| TurnServer.EventLoop.Submit | turn_server/src/lib.rs:704-706 | the record gets the time before the post and the time after it |
| TurnServer.EventLoop.SendNext | turn_server/src/lib.rs:703-709 | an entry of the return channel is a send step after some waiting |
| TurnServer.EventLoop.Receive | turn_server/src/lib.rs:737-747 | stamp, source, route |
| TurnServer.EventLoop.Finish | turn_server/src/lib.rs:748-764 | repost, take the record, unwrap it, log the four intervals: each, added to the stamp it begins at, gives the one it ends at |
| TurnServer.EventLoop.Dispatch | turn_server/src/lib.rs:733-775 | the three branches on a completion |
| TurnServer.EventLoop.Complete | turn_server/src/lib.rs:732-776 | a completion is a completion step after some waiting |
| TurnServer.EventLoop.SeedNext | turn_server/src/lib.rs:675-680 | posting for one free buffer is a seeding step |
| TurnServer.EventLoop.Publish | turn_server/src/lib.rs:710-711 | a sync is a sync step, after which everything in the ring is published |
| TurnServer.EventLoop.SeedAll | turn_server/src/lib.rs:674-683 | start-up is 1024 seeding steps and a sync, in the loop's order |
| TurnServer.EventLoop.DrainControl | turn_server/src/lib.rs:689-701 | all control messages, each one registration step, in order |
| TurnServer.EventLoop.DrainReturns | turn_server/src/lib.rs:702-709 | all send requests, counted |
| TurnServer.EventLoop.DrainCompletions | turn_server/src/lib.rs:732-776 | all completions |
| TurnServer.EventLoop.Turn | turn_server/src/lib.rs:688-777 | a turn of the loop is a run in the loop's order: registrations, sends, a sync exactly if there were any, completions |
| FirstImpl.RunKeeps | turn_server/src/bin/first_impl.rs:540-675 | every run keeps ownership, pointers, contents, and at most 1024 entries published |
| FirstImpl.ChannelsHaveRoom | turn_server/src/bin/first_impl.rs:694-698 | neither blocking send finds its 1024-slot channel full |
| FirstImpl.NeverDeadlocked | turn_server/src/bin/first_impl.rs:267-307 | on every run the loop can take its next step, and the shard as soon as it has a packet |
| FirstImpl.NoPushRejected | turn_server/src/bin/first_impl.rs:557-589 | on every run the 2048-entry ring takes every push |
| Publishing.FirstSendsPublished | turn_server/src/bin/first_impl.rs:571-613 | the same for the older relay |
| FirstRouting.ShardAnswers | turn_server/src/bin/first_impl.rs:266-283 | the shard sends a packet of a session's host to its peer, one of the peer to its host, and loses the buffer of any other |
| FirstRouting.RelayedToPartner | turn_server/src/bin/first_impl.rs:258-300 | on every run what is sent for a datagram the loop took goes to the other end of its source's session and starts with the bytes received; without session nothing is sent for it |
| FirstRouting.LostOnlyToStrangers | turn_server/src/bin/first_impl.rs:266-283 | on every run a buffer is lost only to a datagram whose source has no session |
| FirstServer.Server.constructor | turn_server/src/bin/first_impl.rs:691-709 | channels of 1024, a ring of 2048, the sessions of shard 0 |
| FirstServer.Server.SeedAll | turn_server/src/bin/first_impl.rs:558-567 | start-up is a run of loop steps; every receive gets into the ring and is published |
| FirstServer.Server.SendNext | turn_server/src/bin/first_impl.rs:574-583 | one send request is one loop step; it gets into the ring |
| FirstServer.Server.SendBatch | turn_server/src/bin/first_impl.rs:571-585 | takes min(32, waiting) requests, oldest first, one loop step each, and all get into the ring |
| FirstServer.Server.Collect | turn_server/src/bin/first_impl.rs:586-613 | publishes everything if something was pushed, and takes all completions |
| FirstServer.Server.Dispatch | turn_server/src/bin/first_impl.rs:616-662 | the three branches; the router's send needs room |
| FirstServer.Server.Process | turn_server/src/bin/first_impl.rs:616-662 | a completion is one loop step; there is room |
| FirstServer.Server.ProcessAll | turn_server/src/bin/first_impl.rs:616-663 | all collected completions, one loop step each |
| FirstServer.Server.Turn | turn_server/src/bin/first_impl.rs:570-674 | a turn of the loop is a run: the oldest 32 requests, a sync if there were any, all completions |
| FirstServer.Server.ShardTurn | turn_server/src/bin/first_impl.rs:258-283 | the oldest packet is taken; if its source is a session's host the request for it goes to the peer, if it is the peer to the host, without session there is none; its send finds room, and it is two steps of the relay |

## Left out

- Relay liveness: buffers lost at drops and rejected pushes never return, and reposted receives become visible only at a later sync.
- Sockets, runtimes, gRPC, tracing, core affinity, thread start-up and command lines: only channel capacities and FIFO order are kept.
- The insides of io_uring, heapless, DashMap and tokio or std channels: kernel steps, maps and bounded queues stand for them. A full ring rejects a push exactly by the loop's own view of it.
- The layout of sockaddr and msghdr: a slot is a buffer index and an address.
- `Shard::run_n`, `shard_for` and the commented-out loop: a bounded copy of run, and unused code.
- The sleeping and spinning of idle loops.
- TurnServer.EventLoop.Turn: covers a turn during which no other thread acts; turns that overlap with shards, kernel and new messages are covered on values, where the relay's steps interleave freely.
- TurnServer.EventLoop.DrainControl: likewise, no control message arrives during the drain; on values `LoopOrder` lets them arrive at any time.
- TurnServer.EventLoop.DrainReturns: likewise, no send request arrives during the drain.
- TurnServer.EventLoop.DrainCompletions: takes the completions visible at its start, as the loop does; none is added during the drain.
- FirstServer.Server.Turn: covers a turn during which no other thread acts; overlap is covered by the runs of FirstImpl.
- FirstServer.Server.SendNext: leaves out the time stamp of the older variant (`turn_server/src/bin/first_impl.rs:577`); the same stamps are proved for the current one in RelayTiming.
- FirstServer.Server.Dispatch: likewise leaves out its stamps, unwraps and intervals (`turn_server/src/bin/first_impl.rs:619-651`).
- Shards.Shard.Run: handles a bounded number of messages with none arriving meanwhile; the source's loop never ends.
- Hole punching, the controller, the rendezvous server, benches and test clients.
