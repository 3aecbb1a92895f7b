# nRF24 MAC protocol: a verified model

This project models the two-ended MAC protocol that carries IP packets over an nRF24L01 link: a
stop-and-wait ARQ with 1..31 sequence numbers and piggybacked acknowledgements, 27-byte fragments, a
PENDING/GRANT/DATA/ACK schedule driven by a coordinator, and a RESET handshake with failure detection
and backoff. It proves what the protocol as a whole guarantees, over every run: every loss pattern,
every number of resets, every interleaving of the two tunnel threads with the two radio threads.

## How it is built

- `Bytes`, `IpFilter`, `MacFrames`: bytes, the IP length filter, the 32-byte frame and its codec.
- `Arq`: the transmit half (`Sender`) and the receive half (`Receiver`) of an endpoint, as functions.
- `PeerModel`, `CoordinatorModel`, `LinkHealth`: one loop iteration of each end, as functions.
- `Radio`, `PeerRadio`, `CoordinatorRadio`: the same operations as classes that update their fields in
  place and loop where the program loops; each method is proved equal to its function.
- `Flows`: the history of one direction of traffic with unbounded counters, the invariant that ties it
  to both ends, and one preservation lemma per endpoint operation.
- `JointSystem`, `JointInvariant`, `RunHistory`: both ends, the link and the tunnels as one transition
  system whose runs are lists of events, and the invariant of all runs. A `World` carries the two ends
  and histories; the ends never read the histories.
- `Delivery`, `Drain`, `Guarantees`, `LinkRuns`, `ResetEffects`: the results about whole runs.
- `ConstructedRuns`: runs built event by event for every packet, which make the limits exact.
- `FifoLink`: the ARQ of one session over FIFO channels that lose and duplicate packets; `FifoRefinement`:
  every session of a joint run, until its link drops, is one of its runs.
- `Fragmentation`: cutting, sending and joining one packet; damage to the list of fragments.

The environment is in the events. A tunnel event is a read that returned, or a look at the queue length.
A loop event is one iteration of the coordinator with the clock, what the link does to the exchange (request
lost, answer lost, both delivered), what Send reports (a reported failure may have been delivered), and
the tunnel activity in every gap between two locked sections of an exchange (a reset has one locked section,
which tunnel reads before or after it do not disturb, so there they are events of their own). A session
starts when a reset handshake completes and lasts until the next one does: the exchange that drops the link
and the outage after it belong to it. "In session" below means while the link is up. For-all results hold
under any clock that does not go back within an iteration (`ClockOk`); every run and every continuation
that is shown to exist has a clock that never goes back at all (`Steady`, `Follows`). Integers for time and
failure counts are unbounded; sequence numbers, fields and counters of one byte wrap or saturate as in the
program.

Where the program and its documentation differ, the model follows the program:

- README.md:53 calls the ACK cumulative; the program commits only an ack equal to the number in flight
  (nerfnet/net/radio_interface.cc:590). With one fragment in flight the two agree inside a session.
- README.md:196 describes a limit of two local DATA frames while the peer is pending. The branch that applies
  the limit (nerfnet/net/primary_radio_interface.cc:277) is never taken in a joint run (`OneSideSends`),
  because an answer with pending set already leads to a GRANT (`PendingCallsForGrant`): the effective limit is one.

Properties one might expect that are false of the program, each settled exactly:

- At-most-once delivery across resets fails, in each direction, for precisely the packets that fit in one fragment
  (`WrittenTwiceExactly`, with constructed runs), because a reset forgets that the front packet was accepted.
- Delivery at all fails, in each direction, for precisely the packets that need more than one fragment
  (`LostExactly`, with constructed runs), because a reset keeps a front packet that has already been
  shortened. At a session start the front packet can still be written whole if and only if the session
  starts at its first byte (`WholeAgainExactly`); whether it had been written before is another matter. What
  has left the queue and was never cut has been written whole (`LeftQueueWasWritten`). Within the session
  all later packets are unaffected (`SessionDelivery`).
- Nothing bounds how long the coordinator's own data waits: after an answered exchange its next frame is a GRANT exactly
  when the peer's queue was not empty at its check (`PeerQueueDecides`), so a peer whose tunnel keeps
  delivering holds it off for any number of exchanges (`PeerStarvesCoordinator`, with constructed runs).

## Model

| member | source | states |
|---|---|---|
| `IpFilter.ValidExactly` | nerfnet/net/radio_interface.cc:655-694 | every byte string: accepted exactly when it is IPv4 with a header of 20 to 60 bytes that fits and its own length big-endian at bytes 2 and 3, or IPv6 with its length beyond 40 big-endian at bytes 4 and 5 |
| `IpFilter.SameHeaderSameLength` | nerfnet/net/radio_interface.cc:655-694 | two valid packets that agree on their first six bytes have the same length |
| `IpFilter.PrefixFree` | nerfnet/net/radio_interface.cc:655-694 | no valid packet is a proper prefix of another valid packet |
| `MacFrames.WireLayout` | nerfnet/net/radio_interface.cc:509-528 | the wire format byte by byte: type, seq, ack, pending, arg at 0 to 4, payload from 5, zeros up to 32; frames fit up to 27 payload bytes |
| `MacFrames.ReadLayout` | nerfnet/net/radio_interface.cc:530-552 | what is read off any bytes: 32 make a frame, the fields at the same places, and a payload for type 3 only, of arg bytes up to 27 |
| `MacFrames.TypeCodes` | nerfnet/net/radio_interface.h:65-72 | the six type codes |
| `MacFrames.CodecRoundTrip` | nerfnet/net/radio_interface.cc:509-552 | encode then decode is the identity on exactly the frames whose payload length is the one implied by type and arg |
| `MacFrames.EncodeMacFrame` | nerfnet/net/radio_interface.cc:509-528 | the loop fills a 32-byte buffer: each header byte, payload byte and zero at its place; it fails on exactly the payloads over 27 bytes |
| `MacFrames.DecodeMacFrame` | nerfnet/net/radio_interface.cc:530-552 | accepts exactly 32-byte packets and reads each field and payload byte from its place |
| `Arq.ConsumeAnyFrame` | nerfnet/net/radio_interface.cc:610-653 | for arbitrary frames: when a frame is refused, what a refusal clears, and what the next DATA frame adds to the buffer, empties and writes |
| `Arq.TunnelRunFacts` | nerfnet/net/radio_interface.cc:478-507 | any tunnel activity appends only valid packets of at most 3200 bytes and keeps the queue within 1025 |
| `Arq.PollThenRead` | nerfnet/net/radio_interface.cc:478-507 | whatever the device delivers: with at most 1024 packets queued the first 3200 bytes are queued exactly when the filter accepts them, with more nothing is read |
| `Arq.ReadThenWait` | nerfnet/net/radio_interface.cc:478-507 | after a packet was queued nothing is read until the queue is seen with at most 1024; rejected bytes change nothing |
| `Arq.BuildKeepsFlight` | nerfnet/net/radio_interface.cc:554-584 | every field of the DATA frame: the next number, min(bytes left, 255), the first 27 bytes left, the queue hint |
| `Arq.ArgsCountDown` | nerfnet/net/radio_interface.cc:576-577 | from one fragment of a packet to the next: the next number, the next 27 bytes, and an arg that is 27 less once below 255 |
| `Arq.DataStays` | nerfnet/net/radio_interface.cc:495-501 | tunnel activity only adds behind the queue and never touches the fragment in flight |
| `Radio.RadioInterface.constructor` | nerfnet/net/radio_interface.cc:205-225 | the initial endpoint |
| `Radio.RadioInterface.AdvanceTxSeq` | nerfnet/net/radio_interface.cc:449-454 | the in-place increment is the modelled successor |
| `Radio.RadioInterface.ResetRxAssemblyLocked` | nerfnet/net/radio_interface.cc:473-476 | clears the reassembly buffer and the last number, nothing else |
| `Radio.RadioInterface.ResetSessionLocked` | nerfnet/net/secondary_radio_interface.cc:145-154 | the reset both ends share: queue and output stay |
| `Radio.RadioInterface.TunnelPass` | nerfnet/net/radio_interface.cc:482-506 | one pass of the tunnel thread |
| `Radio.RadioInterface.TunnelThread` | nerfnet/net/radio_interface.cc:478-507 | the thread's loop is the fold of its passes |
| `Radio.RadioInterface.BuildNextDataFrameLocked` | nerfnet/net/radio_interface.cc:554-584 | repeats the fragment in flight or cuts a new one, in place |
| `Radio.RadioInterface.CommitAckLocked` | nerfnet/net/radio_interface.cc:586-608 | erases exactly the acknowledged fragment and advances, or does nothing |
| `Radio.RadioInterface.WriteTunnel` | nerfnet/net/radio_interface.cc:696-715 | writes a valid buffer, drops an invalid one, clears it either way |
| `Radio.RadioInterface.ConsumeDataFrameLocked` | nerfnet/net/radio_interface.cc:610-653 | duplicate, next and out-of-turn DATA, in place |
| `PeerRadio.SecondaryRadioInterface.constructor` | nerfnet/net/secondary_radio_interface.cc:26-40 | the initial peer |
| `PeerRadio.SecondaryRadioInterface.HandleReset` | nerfnet/net/secondary_radio_interface.cc:144-179 | session state and grant cleared, RESET answered |
| `PeerRadio.SecondaryRadioInterface.ApplyCoordinatorRequest` | nerfnet/net/secondary_radio_interface.cc:181-213 | commit, consume and grant handling for every frame type |
| `PeerRadio.SecondaryRadioInterface.ChoosePeerResponse` | nerfnet/net/secondary_radio_interface.cc:215-251 | the answer, with tunnel activity between the two locks |
| `PeerRadio.SecondaryRadioInterface.RunIteration` | nerfnet/net/secondary_radio_interface.cc:60-106 | one iteration of the loop on any received bytes |
| `PeerModel.AnswerFields` | nerfnet/net/secondary_radio_interface.cc:215-251 | every field of the peer's answer, by grant and data at the check: ACK, PENDING or DATA |
| `PeerModel.RequestEffects` | nerfnet/net/secondary_radio_interface.cc:181-213 | for any frame: which types are accepted, what they commit and consume, and the credit they leave |
| `PeerModel.TurnEffects` | nerfnet/net/secondary_radio_interface.cc:60-179 | for any bytes: other than 32 are ignored, type 5 resets and is echoed as 5 and zeros, a refused request is not answered |
| `PeerModel.PeerFlight` | nerfnet/net/radio_interface.cc:554-608 | in every run of the peer against arbitrary bytes, the fragment in flight is the one its queue front calls for |
| `PeerModel.GrantFlagMatchesBudget` | nerfnet/net/secondary_radio_interface.cc:181-238 | in every run of the peer against arbitrary bytes, granted exactly when the budget is positive |
| `PeerModel.AnswerNeverFails` | nerfnet/net/secondary_radio_interface.cc:215-251 | from any state, the gap between the has-data check and the second lock never makes the answer fail |
| `PeerModel.DataAnswersGrant` | nerfnet/net/secondary_radio_interface.cc:181-251 | from any state, a DATA answer answers a GRANT with positive arg and spends one credit; an ACK means no data |
| `LinkHealth.DisconnectExactly` | nerfnet/net/primary_radio_interface.cc:463-493 | for every word of failures: disconnected exactly when some prefix ends in 5 without timeout, 7 without send failure, or two such tails of total length 8 |
| `LinkHealth.TripsAtLast` | nerfnet/net/primary_radio_interface.cc:482-492 | the failure that disconnects is the first one at which the word trips |
| `LinkHealth.SendTimeoutTrips` | nerfnet/net/primary_radio_interface.cc:465-485 | without protocol failures a trip is exactly a run of 5 sends or 7 timeouts |
| `LinkHealth.FourProtocolFailuresDisconnect` | nerfnet/net/primary_radio_interface.cc:473-485 | four protocol failures in a row disconnect, whatever came before |
| `LinkHealth.AlternatingNeverDisconnects` | nerfnet/net/primary_radio_interface.cc:465-472 | alternating send and timeout failures never disconnect |
| `LinkHealth.LinkStepsKeepOk` | nerfnet/net/primary_radio_interface.cc:463-493 | the combined streak never exceeds 9; while connected the backoff is 100 ms and the retry time 0 |
| `LinkHealth.OutageContinues` | nerfnet/net/primary_radio_interface.cc:88-92 | a failed attempt keeps the schedule: stored backoff min(100 ms * 2^k, 1 s) |
| `LinkHealth.AttemptsAreSpaced` | nerfnet/net/primary_radio_interface.cc:74-105 | between any two steps of an outage lie at least the waits scheduled between them |
| `LinkHealth.AttemptsAreBounded` | nerfnet/net/primary_radio_interface.cc:74-105 | attempt n of an outage cannot begin before the sum of the waits; closed form from the sixth on |
| `CoordinatorModel.FrameFields` | nerfnet/net/primary_radio_interface.cc:248-305 | every field of the coordinator's frame from any state: RESET, GRANT of 3 with pending for data at the check, DATA with pending 1, PENDING of zeros; the burst limit of 2 |
| `CoordinatorModel.ResetRequest` | nerfnet/net/primary_radio_interface.cc:74-80 | while a reset is due only a RESET of zeros goes out, and not before the retry time |
| `CoordinatorModel.ResetAttempt` | nerfnet/net/primary_radio_interface.cc:191-246 | for any reply: the session state is cleared, and the attempt succeeds on 32 bytes of type 5 only |
| `CoordinatorModel.AnswerEffects` | nerfnet/net/primary_radio_interface.cc:307-357 | for any answer: which types are accepted, what they commit and consume, the pending flag and the next state |
| `CoordinatorModel.ReplyEffects` | nerfnet/net/primary_radio_interface.cc:359-439 | for any reply: how a failure is classified, and the burst counter after it |
| `CoordinatorModel.ChoiceNeverFails` | nerfnet/net/primary_radio_interface.cc:248-305 | from any state, the gap between the has-data check and the second lock never makes the choice fail |
| `CoordinatorModel.PendingCallsForGrant` | nerfnet/net/primary_radio_interface.cc:307-357 | against any peer, a successful exchange with pending set is followed by a GRANT of 3 |
| `CoordinatorRadio.PrimaryRadioInterface.constructor` | nerfnet/net/primary_radio_interface.cc:42-50 | the initial coordinator |
| `CoordinatorRadio.PrimaryRadioInterface.ConnectionReset` | nerfnet/net/primary_radio_interface.cc:191-246 | clears the session state first, succeeds exactly on a RESET answer |
| `CoordinatorRadio.PrimaryRadioInterface.ChooseCoordinatorTxFrame` | nerfnet/net/primary_radio_interface.cc:248-305 | the frame for each state, with tunnel activity between the two locks |
| `CoordinatorRadio.PrimaryRadioInterface.ApplyPeerResponse` | nerfnet/net/primary_radio_interface.cc:307-357 | commit, consume and next state for every frame type |
| `CoordinatorRadio.PrimaryRadioInterface.PerformExchange` | nerfnet/net/primary_radio_interface.cc:359-439 | one exchange for any reply, with the fairness counter |
| `CoordinatorRadio.PrimaryRadioInterface.HandleTransactionFailure` | nerfnet/net/primary_radio_interface.cc:463-493 | streaks, disconnect, next retry time |
| `CoordinatorRadio.PrimaryRadioInterface.MarkConnected` | nerfnet/net/primary_radio_interface.cc:95-102 | what a successful handshake sets |
| `CoordinatorRadio.PrimaryRadioInterface.RunIteration` | nerfnet/net/primary_radio_interface.cc:70-155 | one iteration of the loop for any clock and any reply |
| `Flows.WireSeqSteps` | nerfnet/net/radio_interface.cc:449-461 | the 1..31 numbers are the unbounded fragment count modulo 31; neighbours differ |
| `Flows.OfferStaysSynced` | nerfnet/net/radio_interface.cc:495-501 | tunnel reads at any point keep a session in step and the fragment in flight unchanged |
| `Flows.BuildStaysSynced` | nerfnet/net/radio_interface.cc:554-584 | in session every field of a DATA frame: number from the fragments committed, bytes left up to 255 and 27 bytes from the first uncommitted byte, repeated identically |
| `Flows.ConsumeStaysSynced` | nerfnet/net/radio_interface.cc:610-653 | a fragment that is the last accepted or the next is classified correctly, never refused, and the session stays in step |
| `Flows.CommitStaysSynced` | nerfnet/net/radio_interface.cc:586-608 | an ack sent after k acceptances commits exactly when k is ahead of the sender |
| `Flows.AbsorbStaysSynced` | nerfnet/net/secondary_radio_interface.cc:181-190 | receiving a frame with ack and data keeps both directions in step |
| `Flows.SessionStartIsSynced` | nerfnet/net/primary_radio_interface.cc:195-204 | two ends at session start are in step, wherever the queue front was cut |
| `JointInvariant.ChooseStage` | nerfnet/net/primary_radio_interface.cc:248-305 | in session the coordinator always sends a current, encodable frame of the kind its state calls for, with the arg and pending fields that go with it |
| `JointInvariant.ServeStage` | nerfnet/net/secondary_radio_interface.cc:181-251 | in session the peer always answers, with a current frame of the kind its data and the request call for |
| `JointInvariant.ApplyStage` | nerfnet/net/primary_radio_interface.cc:307-357 | in session the answer is always applied and clears the coordinator's fragment in flight |
| `JointInvariant.ResetStage` | nerfnet/net/primary_radio_interface.cc:191-246 | a reset attempt succeeds exactly when nothing was lost, and then both ends are at session start |
| `JointInvariant.RunKeepsInv` | nerfnet/net/primary_radio_interface.cc:70-155 | every run keeps the joint invariant |
| `RunHistory.FollowsIsSteady` | nerfnet/util/time.cc:28-31 | a steady run with a continuation that begins when it is over is steady as a whole, as runs under a steady clock are |
| `Delivery.HandshakeOpensSession` | nerfnet/net/primary_radio_interface.cc:93-103 | the iteration that connects leaves both ends at session start, with queues and outputs unchanged |
| `Delivery.HandshakeKeepsQueues` | nerfnet/net/primary_radio_interface.cc:115-135 | over any number of lost and retried handshakes neither queue changes until one succeeds |
| `Delivery.SessionDelivery` | nerfnet/net/radio_interface.cc:554-653 | in every session of every run, up to the next completed handshake, each end has written the other's units in order, without gap or repetition; the units are the packets queued at the other end from its first uncommitted byte on; only the first one can be dropped by the filter; what left the queue has arrived |
| `Delivery.UnitsAreWhole` | nerfnet/net/radio_interface.cc:642-649 | every unit of a session but the first is a whole queued packet, and the first is one exactly from the byte where the session started |
| `Drain.QuietExchangeProgress` | nerfnet/net/primary_radio_interface.cc:359-439 | a loss-free exchange brings every connected world exactly one exchange closer to drained |
| `Drain.DrainsExactly` | nerfnet/net/primary_radio_interface.cc:248-357 | both queues are empty with nothing in flight after exactly the computed number of loss-free exchanges, at most remaining fragments plus two |
| `Drain.LossKeepsDrainTime` | nerfnet/net/primary_radio_interface.cc:370-390 | an exchange that loses either frame, while the link stays up, leaves the drain time as it was |
| `Drain.DrainsExactlyUnderLoss` | nerfnet/net/primary_radio_interface.cc:359-439 | whatever is lost in between, both queues are empty with nothing in flight exactly when the computed number of exchanges has been answered |
| `Drain.PeerQueueDecides` | nerfnet/net/primary_radio_interface.cc:320-344 | in every run, after an answered exchange the next frame is a GRANT exactly when the peer's queue was not empty at its check, else DATA exactly when the coordinator has a packet |
| `Drain.CoordinatorWaitsForPeer` | nerfnet/net/secondary_radio_interface.cc:227-238 | while the peer has data every frame of the coordinator is a GRANT and its own queue stays as it is; the frame right after the peer has drained is DATA if it has any, whatever its tunnel does in between |
| `Guarantees.Conservation` | nerfnet/net/radio_interface.cc:586-608 | in every run, outages included, committed bytes followed by queued bytes are the bytes ever queued; the bytes committed in a session are the last ones committed, and the other end accepted exactly those in that session plus at most one fragment |
| `Guarantees.ExchangesAreUnderstood` | nerfnet/net/radio_interface.cc:610-640 | in session the wire numbers agree with unbounded counters and no frame is ever refused: failures are the link's own |
| `Guarantees.AtMostOnce` | nerfnet/net/radio_interface.cc:586-653 | over any number of resets a packet longer than 27 bytes is written whole at most once, a shorter one at most once per session |
| `Guarantees.StableRetransmission` | nerfnet/net/radio_interface.cc:560-565 | while a fragment is in flight it stays a prefix of the queue front and every retransmission repeats it |
| `Guarantees.RunKeepsFlight` | nerfnet/net/radio_interface.cc:571-583 | in every run, at each end, the fragment in flight has the next number, the first 27 bytes of the queue front, and its length up to 255 as bytes-left |
| `Guarantees.FragmentInFlight` | nerfnet/net/radio_interface.cc:571-583 | in session, the same in terms of the packets ever queued and the fragments committed |
| `Guarantees.BurstCounts` | nerfnet/net/primary_radio_interface.cc:419-431 | in every run the burst counter is the number of DATA frames answered by another type since the last other answer or RESET, up to 255 |
| `Guarantees.BoundedMemory` | nerfnet/net/radio_interface.cc:478-507 | in every run at most 1025 packets are queued, none empty, and at most 3200 bytes are in reassembly, at each end |
| `Guarantees.FairSchedule` | nerfnet/net/primary_radio_interface.cc:258-301 | in every run, when the next frame of a session is a GRANT, exactly; only RESET goes out while the link is down |
| `Guarantees.OneSideSends` | nerfnet/net/primary_radio_interface.cc:320-344 | reset required exactly in ResetSync; in Idle no known pending data and no peer fragment in flight, while granting no coordinator fragment in flight |
| `Guarantees.RetrySchedule` | nerfnet/net/primary_radio_interface.cc:74-105 | in every run the failed attempts of an outage keep the waits 100, 100, 200, 400, 800, 1000, ... ms, one by one and over any stretch |
| `Guarantees.AttemptsWait` | nerfnet/net/primary_radio_interface.cc:74-80 | whatever is sent while disconnected is a RESET whose wait is over |
| `Guarantees.EverythingArrives` | nerfnet/net/radio_interface.cc:554-653 | a session followed by silent exchanges, enough of which are answered, has delivered every unit, both ways, whatever is lost in between |
| `LinkRuns.SuccessRefreshes` | nerfnet/net/primary_radio_interface.cc:93-145 | an iteration in which nothing is lost, unless it sleeps, leaves zero streaks and a session |
| `LinkRuns.StretchIsWord` | nerfnet/net/primary_radio_interface.cc:463-493 | after any stretch of failing iterations in a run, the streaks and the disconnected flag are those of the automaton on the stretch's failures |
| `LinkRuns.StretchDisconnectsExactly` | nerfnet/net/primary_radio_interface.cc:482-492 | in every run, the link is down after a failing stretch exactly when some prefix of its failures trips |
| `LinkRuns.SessionEndsExactly` | nerfnet/net/primary_radio_interface.cc:463-493 | in every run, the link of a session is dropped exactly by the fifth send failure or the seventh timeout in a row |
| `ResetEffects.CutPacketNotWrittenAgain` | nerfnet/net/primary_radio_interface.cc:195-204 | a packet a session starts inside of is not written whole from then on, in any continuation |
| `ResetEffects.WholeAgainExactly` | nerfnet/net/primary_radio_interface.cc:195-204 | at a session start, some continuation with a steady clock writes the front packet whole if and only if the session starts at its first byte |
| `ResetEffects.LeftQueueWasWritten` | nerfnet/net/radio_interface.cc:586-653 | in every run, over any number of resets, a packet that has left the queue was written whole, unless a session started inside it |
| `ResetEffects.SmallIsWritten` | nerfnet/net/radio_interface.cc:571-608 | in every run, a packet of at most 27 bytes that has left the queue was written whole |
| `ResetEffects.Recovery` | nerfnet/net/primary_radio_interface.cc:74-105 | from every point of every run with the link down, one loss-free iteration at the retry time and then the drain time deliver everything left |
| `ConstructedRuns.FirstHandshake` | nerfnet/net/primary_radio_interface.cc:115-134 | a first iteration without losses opens a session, both ends as new, so the hypotheses of the session results are met |
| `ConstructedRuns.CutRun` | nerfnet/net/primary_radio_interface.cc:195-204 | for every packet over 27 bytes and each direction, a run with a steady clock in which a session starts inside it before any of it was written |
| `ConstructedRuns.WrittenTwiceExactly` | nerfnet/net/secondary_radio_interface.cc:145-154 | in each direction, some run with a steady clock writes a given packet whole twice if and only if it fits in one fragment |
| `ConstructedRuns.ClearingRun` | nerfnet/net/primary_radio_interface.cc:70-155 | every run has a continuation, later than all of it, that empties both queues |
| `ConstructedRuns.LostExactly` | nerfnet/net/secondary_radio_interface.cc:145-154 | in each direction, some run with a steady clock leaves a given queued packet never written whole, before or in any continuation in time, if and only if it needs more than one fragment |
| `ConstructedRuns.PeerStarvesCoordinator` | nerfnet/net/primary_radio_interface.cc:258-301 | for every n and any two packets, a run in which the coordinator has a packet queued and sends n answered frames in a row, all GRANTs |
| `FifoLink.FifoDelivery` | nerfnet/net/radio_interface.cc:586-653 | over lossy, duplicating FIFO channels with stale frames, under any schedule, a session delivers the queued packets in order as above and refuses no frame |
| `FifoRefinement.HandshakeIsFresh` | nerfnet/net/primary_radio_interface.cc:191-246 | every completed handshake of every run gives a fresh session of the FIFO link |
| `FifoRefinement.StepReaches` | nerfnet/net/primary_radio_interface.cc:359-439 | every step from a connected world is a list of moves of the FIFO link that leaves nothing on the air |
| `FifoRefinement.SessionIsMoves` | nerfnet/net/primary_radio_interface.cc:359-439 | every session of every run, up to and including the exchange that drops the link, is a run of the FIFO link from its fresh session |
| `Fragmentation.FragmentOnTheWire` | nerfnet/net/radio_interface.cc:571-583 | bytes-left is the length clamped at 255, still gives the decoder the exact payload, and marks exactly the last fragment |
| `Fragmentation.PacketRoundTrip` | nerfnet/net/radio_interface.cc:642-649 | fragment, encode, decode, reassemble is the identity on every valid packet, written with its last fragment and not before |
| `Fragmentation.WrongLengthRejected` | nerfnet/net/radio_interface.cc:701-705 | bytes that begin with a valid packet's first fragment but have another length are rejected |
| `Fragmentation.DropOrRepeatRejected` | nerfnet/net/radio_interface.cc:701-705 | dropping or repeating any one later fragment is always detected |

## Left out

- RF24 calls and the IRQ wait inside Send and Receive (nerfnet/net/radio_interface.cc:300-434): the link is nondeterministic instead.
- GPIO and IRQ discovery and setup, command-line parsing, TUN device setup, logging and statistics.
- Failures of the write to the TUN device: writes are an output log that always succeeds.
- Frames delayed past a reset, and a restart of one end without a reset: joint runs use synchronous exchanges, and the FIFO link covers one session.
- current_poll_interval_us_ and all sleep durations: they only pace the loop; the doubled value is overwritten at the next connected iteration.
- peer_grant_budget_, last_tx_was_data_, poll_interval_us_ and IsExpectedRxSeq: not read by the protocol.
- Wrap-around of the 64-bit clock and of the int failure counters.
- Radio.RadioInterface.TunnelThread: the mutex and the thread are not modelled as such; tunnel activity happens in the gaps between locked sections.
