# A Dafny model of the IRATI kernel stack

The project models the data path of the IRATI implementation of RINA and proves what it is for: that
data written to a flow arrives, once, in order and whole, or is accounted for.

- **EFCP**, the error and flow control protocol. `DtpSender` and `DtpReceiver` give every entry point of
  the two halves of a connection as a function on its state vectors; `DtpSenderObject` and
  `DtpReceiverObject` run the same steps in place and are proved against those functions; `RtxQueue`,
  `RateControl` and `Rtt` are the retransmission queue, the rate counters and the round-trip estimator.
  `SenderLaws` and `ReceiverLaws` say what each of those steps does without saying how: which prefix of a queue it
  takes, when it answers, which flags it leaves, and what it does not touch.
  `EfcpWorld` puts a sender, a receiver and a network that loses, duplicates and reorders together. The
  theorems are about every sequence of events from the start of a run of data: `EfcpGenuine` (nothing is
  invented), `EfcpWindow` (sender window discipline, no lost wake-up), `EfcpReliable` (exactly-once,
  in-order delivery), `EfcpLedger` (flags, counters and control numbers as what the events of the run account for),
  `EfcpEstimator` (the round-trip estimate as what the samples of the run make it), `EfcpAgreement` and `EfcpRetreat` (window agreement, and exactly where it ends),
  `EfcpFeed`, `EfcpInTurn`, `EfcpQueueRuns` and `EfcpOvertaking` (the laws of the retransmission queue over
  runs, and exactly where they end), `EfcpNoLoss` (no silent loss, and exactly where that ends), `EfcpGivenUp`
  (giving up on what was posted), `EfcpProgress` (no deadlock), `EfcpRate` (rate bound) and `EfcpRaces` (what
  the choice of atomic steps hides).
- **Delimiting** cuts SDUs into fragments and puts them together; `EndToEnd` composes it with EFCP.
- **Kfa** and `KfaObject` are the kernel flow allocator, a reference-counted state machine with sleeping
  readers and writers; `KfaHistory` gives the state of a flow as its history; `ByteStream` is its stream write and read.
- **PciLayout**, `PciAccess` and `DuCodec` are the table-driven header codec.
- **MsgCodec**, `MsgReports`, `MsgCombine`, `MsgConfigs`, `MsgDifs`, `IratiMsg`, `MsgMeant` and `MsgCursor` are
  the serialiser of control messages, with every kind of structure that a message can carry. `MsgWire`, `MsgFields`,
  `MsgDifFields` and `MsgExact` say field by field what its bytes are and what it comes back as.
- **Cidm** allocates connection-endpoint ids.

How the source is read:

- Every entry point (a write, the arrival of a PDU, the expiry of a timer) is one step. `EfcpRaces` cuts a
  write at the places where the source releases its locks, and says exactly when that shows.
- The network is the set of PDUs ever sent: any of them may arrive at any time, any number of times, or
  never. Timers may expire at any time. Clock readings, the initial sequence number and the outcome of
  calls into lower layers are parameters.
- Sequence numbers do not roll over, as the source has no handling for it. 32-bit arithmetic is written
  out where the source depends on it: in the distance tests of the receiver and in the estimator.
- Nothing is assumed about the Data Run Flag: it is set on every PDU, so a run may start at any number.
- The resequencing queue is not kept sorted, and the model does not assume that it is.
- Writes may come while the writer is stopped: the source writes all fragments of an SDU whatever happens
  to the first (kernel/efcp.c:319-326).
- In `MsgConfigs`, `MsgDifs` and `MsgReports` each structure lists its parts in the order of the writing function and is
  put together in the order of the reading function; its length function is that of the source, and its
  lemma proves it equal to the number of bytes written. Announced lengths are unbounded here; the source adds
  them up in 32 bits.

Results that go against what one might expect:

- `EfcpRetreat.AgreementExactly`: without rendezvous, the edges of a window-only flow agree after every run,
  and the sender's edge never retreats, exactly if the flow retransmits, has no A-timer or has a credit of at
  most three. On every other one a repeated arrival puts a number into the resequencing queue twice and out
  of order, and an A-timer expiry later moves both edges back.
- `EfcpOvertaking.FedExactly`: the sender pushes to the retransmission queue in increasing order on every run
  exactly if it does not retransmit, has no rate to spend or has a window of at most one. On every other flow
  a write at the start of a time unit overtakes the closed-window queue, and the overtaken PDU is then sent
  without a copy being kept (`EfcpOvertaking.OvertakingLoses`), however small the PDUs are that use up the rate.
- `EfcpNoLoss.NoLossExactly`: so a flow that retransmits never loses a number silently, whatever the run, exactly
  if it has no rate to spend or has a window of at most one.
- `EfcpGivenUp.GivenUpExactly`: the receiver drops duplicates without answering (kernel/dtp.c:1649-1671), so a sender
  whose answer is lost counts a PDU as dropped that was posted. That can happen exactly on the flows that retransmit and can transmit
  at all.
- `EfcpRaces.StoppedForNothing` and `EfcpRaces.ParkedForNothing`: a control PDU that arrives in the middle of
  a write leaves the writer stopped with nothing queued, or the PDU parked in an open window, exactly if it is
  processed and opens the window as far as the number just assigned. Such a PDU can be in flight on every
  window-only flow with a credit (`EfcpRaces.RaceExactly`), and the writer stays stopped until the next control
  PDU that opens the window is processed (`EfcpRaces.RestartedBy`).
- `KfaObject.Allocator.DuPost` and `KfaObject.Allocator.DeallocateWorker`: neither a post nor the
  deallocation worker ever destroys a flow, and the look-ups after a sleep never fail.
- `PciAccess.RespectIffMatching`: the setter of the sequence number and the accessors of the last control
  sequence number use the width of data sequence numbers, and the accessors support widths of one, two and
  four bytes; so PDUs can be accessed field by field exactly if all widths in use are supported and, for
  control PDUs, both sequence-number widths are configured equal.
- `DuCodec.EncapRoundTrip`: the payload comes back exactly if the total length fits the length field or, where
  the width of that field is not supported, there was no padding.
- `MsgConfigs.FlowCtrlComesBack`: the flow-control policies of a DTCP configuration are read in another order
  than they are written, so the configuration comes back as it was meant exactly if the three are the same; and a
  message exactly if that holds of every DTCP configuration in it, also of those inside the cubes of a DIF
  (`MsgMeant.MsgComesBack`).
- `IratiMsg.MsgLength` and `IratiMsg.MsgRoundTrip`: a message has an announced length exactly if none of the buffers
  that it points to itself is NULL; it then takes as many bytes as announced exactly if no name in it is NULL. It
  comes back exactly if its numbers and counts are in range and nothing is NULL that the reader expects, and as it is
  exactly if it moreover has no NULL and no over-long string, no empty buffer, and the three policies above the same
  wherever flow control is (`MsgExact.ComesBackIff`). An empty buffer comes back as NULL, so what was read
  cannot always be announced again (`IratiMsg.AnnouncedAgain`).
- `Delimiting.NumUdfsCounts`: the announced number of fragments is right exactly if the SDU is not empty.

## Model

| member | source | states |
|---|---|---|
| EfcpNoLoss.NoSilentLoss | kernel/dtp.c:1286-1471 | With retransmission, and whatever flow control that lets no write overtake the closed-window queue, after any run every number assigned so far is parked, kept for retransmission, counted as dropped, or at or below the receiver's left window edge; the drop counter is the number of numbers dropped. |
| EfcpNoLoss.NoLossExactly | kernel/dtp-utils.c:220-328 | The flows with retransmission that account for every number assigned, after every run, are exactly those without rate-based flow control with a positive rate, or with a window of at most one. |
| EfcpNoLoss.DeliveredOrAccounted | kernel/dtp.c:1553-1782 | On those flows, with no gap allowed, a number from the start of the run of data on is with the sender, counted as dropped, or was posted exactly once with the payload written under it. |
| EfcpReliable.ExactlyOnceInOrder | kernel/dtp.c:1553-1782 | With retransmission, over every run and any A-timer, each posted PDU is genuine and exceeds the one before it by 1 to maxSduGap + 1, the left window edge is the last posted number, and no acknowledgement in flight exceeds it. |
| EfcpReliable.PostedIsBlock | kernel/dtp.c:1649-1752 | With no gap allowed, the posted payloads are the written ones from the first posted number on, without a hole. |
| EfcpReliable.ExpireChain | kernel/dtp.c:549-645 | An A-timer expiry posts numbers in increasing order with bounded gaps although the resequencing queue need not be sorted. |
| EfcpReliable.DrainChain | kernel/dtp.c:1744-1752 | Draining the resequencing queue posts consecutive numbers and leaves the left edge at the last one. |
| EfcpReliable.InGapExact | kernel/dtp.c:595-630 | The 32-bit distance test of the A-timer holds exactly of numbers inside the gap and of numbers so far behind that the distance wraps. |
| EfcpReliable.AtOnceAdvances | kernel/dtp.c:1688-1727 | Without an A-timer, what is posted lies within the gap and the acknowledgement carries the new left edge. |
| EfcpReliable.InSequenceAdvances | kernel/dtp.c:1734-1760 | With an A-timer, what is posted continues the run without a break in order, and the acknowledgement carries the new left edge. |
| EfcpReliable.AckSafe | kernel/dtp-utils.c:410-430 | An acknowledgement removes from the retransmission queue only numbers that the receiver has moved past. |
| EfcpReliable.RtxSafe | kernel/dtp-utils.c:595-674 | A retransmission pass loses no number except those that it counts as dropped. |
| EfcpNoLoss.ControlSafe | kernel/dtcp.c:617-708 | Processing a control PDU that acknowledges no more than the receiver has leaves every number that is not parked safe. |
| EfcpNoLoss.WriteSafe | kernel/dtp.c:1231-1471 | A write that is transmitted finds nothing parked, so its number joins the safe ones in turn. |
| EfcpNoLoss.DeliverSafe | kernel/dtp-utils.c:220-328 | Delivering the closed-window queue keeps every number that is not parked safe, also where the rate is used up in the middle. |
| EfcpNoLoss.SafeStep | kernel/dtp.c:1286-1471 | Every kind of event keeps every number that is not parked in the retransmission queue, among the dropped ones, or behind the receiver's left edge. |
| EfcpGivenUp.GivenUpExactly | kernel/dtp.c:1649-1671 | A run on which a posted PDU is counted as dropped exists exactly on the flows that retransmit and do not stay silent: a window without credit and no rate, a rate of zero, or rate control set without flow control and no open window. |
| EfcpGivenUp.GivingUpRun | kernel/dtp-utils.c:595-674 | For every such flow: the run, in which a PDU is written, posted and retransmitted until it is given up on. |
| EfcpGivenUp.SilentRun | kernel/dtp.c:1231-1471 | On every flow that stays silent nothing is ever transmitted or posted, whatever the run. |
| EfcpGenuine.GenuineRun | kernel/dtp.c:1286-1471 | In every state of every run each PDU queued, in flight or posted carries a number that was assigned and the payload written under it. |
| EfcpGenuine.GenuineStep | kernel/dtp.c:1553-1782 | Every kind of event keeps that. |
| EfcpWindow.SenderDiscipline | kernel/dtp-utils.c:189-328 | With a window, in every state of every run the closed-window queue holds exactly the numbers after the last one sent, in order; if it is not empty the window is used up; first transmissions happened once each, in order, without gaps, inside the window of their moment; the writer is stopped, and the window counts as closed, exactly while the queue is not empty. |
| EfcpWindow.DeliverIsBatch | kernel/dtp-utils.c:220-328 | The delivery loop sends the longest prefix of the queue that the window has room for, keeps copies for retransmission, and lets the writer go on exactly if the queue is emptied. |
| EfcpWindow.NoLostWakeUp | kernel/dtp-ps-default.c:106-128 | A stopped writer has the next number queued outside the window; while the sender-inactivity timer is armed the queue is empty and the writer runs, so the reset discards nothing from it. |
| EfcpWindow.OpeningWakes | kernel/dtp-utils.c:295-328 | From any reachable state, opening the window to the last number assigned empties the queue and starts the writer; opening it less far leaves a stopped writer stopped. |
| EfcpWindow.WriteKeepsDiscipline | kernel/dtp.c:1231-1471 | A write keeps the discipline, whether it transmits or parks. |
| EfcpWindow.RtxKeepsDiscipline | kernel/dtp-utils.c:595-719 | So does an expiry of the retransmission timer. |
| EfcpWindow.ResetExactly | kernel/dtp-ps-default.c:183-251 | In every state in which the sender-inactivity timer can expire, the reset finds nothing parked, throws away what is kept, sets the run flag and a full window after the new number, and leaves the estimator, the rate and all counters; but for the highest number sent, which it leaves, the discipline of a new run holds. |
| EfcpWindow.ResetThenWrite | kernel/dtp-ps-default.c:183-251 | With a credit, the first write after the reset is transmitted with the new number and the flag, and from then on the discipline holds in full. |
| EfcpEstimator.EstimatorFed | kernel/dtcp-ps-default.c:249-331 | After every run of a flow on which nothing overtakes, estimate, variation and timeout are what the estimator makes, from nothing, of the samples of the run: the ages of the PDUs that were sent once and acknowledged by a new control PDU, in order, and of no others. |
| EfcpEstimator.NoRetransmittedSample | kernel/dtcp-ps-default.c:306-331 | From every state of such a run: a control PDU that is newer than all before and acknowledges a queued PDU that was sent once feeds the estimator with its age, and any other control PDU leaves the estimator as it was. |
| EfcpEstimator.TimeoutOverRuns | kernel/dtcp-ps-default.c:249-304 | If all samples of a run lie between two values and nothing wraps, so does the estimate, and the timeout stays within the bounds of the estimator. |
| EfcpEstimator.ControlSamples | kernel/dtcp.c:450-482 | In one step: the estimator takes the age of the acknowledged PDU exactly if it was sent once, also when the window opens as well. |
| EfcpLedger.RetransmissionEvent | kernel/dtp-utils.c:595-765 | An expiry of the retransmission timer sends again, in order, every PDU of the longest prefix of the queue that is due and may be tried once more, counts as dropped the others of that prefix, and touches nothing behind it; with rate control it goes up to the PDU that uses up the rate. |
| EfcpLedger.ReceiverLedger | kernel/dtp.c:1553-1782 | After every run the drop counter is the number of refused PDUs, the byte counter the bytes that count, the last control number the highest that arrived; flow control is repeated exactly while a rendezvous waits for data; every control number up to the last was used exactly once. |
| EfcpLedger.SenderLedger | kernel/dtcp.c:617-708 | After every run on which nothing overtakes: the last control number is the highest that arrived, the drop counter is the number of PDUs given up on, the inactivity timer is armed exactly if the last write went out at once, a rendezvous is asked for exactly if one was called for since the last opening, and every control number was used exactly once. |
| EfcpAgreement.WindowAgreement | kernel/dtcp-ps-default.c:183-214 | Over every run without rendezvous, on flows that retransmit, have no A-timer or have a credit of at most three, the receiver's right edge is its left edge plus the credit, neither the sender's edge, any edge in flight nor any number sent exceeds it, and no PDU was dropped for overrunning the window. |
| EfcpAgreement.EdgeNeverRetreats | kernel/dtcp.c:484-495 | On those runs the sender's right edge never retreats, although control PDUs are reordered and repeated. |
| EfcpAgreement.ReceiveWaits | kernel/dtp.c:1553-1782 | Without retransmission and with a credit of at most three, receiving keeps the resequencing queue strictly sorted with every entry waiting for a number before it, and never moves the left edge back. |
| EfcpAgreement.ExpireWaits | kernel/dtp.c:549-645 | So does an A-timer expiry, whatever the allowed gap. |
| EfcpRetreat.AgreementExactly | kernel/dtcp-ps-default.c:183-214 | Of window-only flows without rendezvous, those whose edges agree after every run, and those whose sender's edge never retreats, are exactly those that retransmit, have no A-timer or have a credit of at most three. |
| EfcpRetreat.EdgeCanRetreat | kernel/dtp.c:321-377 | For every other window-only flow, whatever its credit, A-timer, gap and first number: a run after which the receiver's right edge is below the sender's, and an event that then takes the sender's edge back. |
| EfcpRetreat.Doubled | kernel/dtp.c:321-377 | On those flows the resequencing queue comes to hold a number twice when it arrives twice behind a larger one. |
| EfcpAgreement.ControlEdge | kernel/dtcp.c:617-708 | A control PDU moves the sender's edge only if it is newer than all before, and then only to the edge that it carries. |
| EfcpAgreement.ReceiveAdvertises | kernel/dtcp.c:288-374 | Receiving a PDU leaves the right edge a credit above the left one, and what is sent in answer has the next control number and carries that edge. |
| EfcpProgress.CanDrain | kernel/dtp-utils.c:220-328 | Every run of a reliable window-based flow without rendezvous on which no PDU was given up can be continued, by delivering PDUs in flight and nothing else, until the receiver has everything written, the sender keeps nothing and the writer may go on. |
| EfcpProgress.DrainedIsSuffix | kernel/dtp.c:1649-1752 | With no gap allowed, what has been posted by then is everything written from the start of the run of data on. |
| EfcpProgress.OneRound | kernel/dtcp.c:617-708 | Catching up and taking in the last answer drains the flow or gets a new number sent. |
| EfcpProgress.CatchUp | kernel/dtp.c:1553-1782 | Delivering the PDUs in flight in order brings the receiver to the last number sent. |
| EfcpProgress.NextIsTaken | kernel/dtp.c:1688-1752 | The next number, or the first of a run, is accepted when it arrives, with and without an A-timer. |
| EfcpProgress.LastAnswer | kernel/dtcp.c:1255-1323 | When the receiver has everything sent, its last answer empties the retransmission queue and opens the window, or has done so already. |
| EfcpProgress.AnswerTaken | kernel/dtcp.c:561-593 | A new answer is never refused while no PDU was given up: everything up to the acknowledged number leaves the queue, and the edge is the one carried. |
| EfcpProgress.TrackRun | kernel/dtp-utils.c:410-430 | On such runs the retransmission queue holds consecutive numbers up to the last one sent, answers acknowledge ever more, and those taken in are the ones behind the queue. |
| EfcpProgress.ReceiveEmits | kernel/dtcp.c:1255-1323 | The receiver answers exactly when its left edge moves. |
| EfcpRate.BoundBetweenResets | kernel/dtp-utils.c:272-286 | In any part of any run without a reset of the counter, the bytes of first transmissions, from writes and from the closed-window queue together, stay below the sending rate plus one maximum PDU. |
| EfcpRate.RateBound | kernel/dtcp.c:1348-1391 | In every state the counter is at most the sending rate, and the first transmissions since its reset are covered by it or overshoot the rate by less than one PDU. |
| EfcpRate.WriteBounded | kernel/dtp.c:1421-1433 | A write keeps that, also when the clock reading resets the counter. |
| EfcpRate.DeliverBounded | kernel/dtp-utils.c:220-328 | So does the delivery loop. |
| EfcpRate.RetransmitBounded | kernel/dtp-utils.c:639-658 | So do retransmissions, which charge the same counter. |
| EfcpRate.CountRun | kernel/dtp-utils.c:272-293 | Without a reset the history counter grows by exactly the bytes transmitted for the first time. |
| EfcpRaces.PiecesMakeTheStep | kernel/dtp.c:1372-1419 | A write into a closed window is the check, the push and the stopping of the writer, one after the other. |
| EfcpRaces.StoppedForNothing | kernel/dtp-ps-default.c:106-128 | From every reachable state, a control PDU handled between the push and the stopping leaves the writer stopped with an empty queue exactly if it is processed and opens the window to the number just assigned. |
| EfcpRaces.ParkedForNothing | kernel/dtp-ps-default.c:67-104 | A control PDU handled between the check and the push leaves the PDU parked in an open window under the same condition. |
| EfcpRaces.RestartedBy | kernel/dtp-utils.c:295-325 | A writer stopped with nothing queued is started again by the next control PDU that is processed and opens the window, and by no other event. |
| EfcpRaces.RaceRun | kernel/dtp.c:1372-1419 | For every window-only flow with a credit: a run after which the answer in flight opens the window to the number that the next write finds closed. |
| EfcpRaces.RaceExactly | kernel/dtp.c:1372-1419 | Such a run exists exactly if the credit is not zero. |
| DtpSenderObject.Sender.constructor | kernel/dtp.c:845-881 | The state vectors start with the configured credit above the initial sequence number. |
| DtpSenderObject.Sender.WriteData | kernel/dtp.c:1286-1471 | Takes the write step. |
| DtpSenderObject.Sender.NumberPdu | kernel/dtp.c:1303-1357 | Assigns the next number and decides the Data Run Flag. |
| DtpSenderObject.Sender.CheckWindow | kernel/dtp.c:1231-1270 | Answers whether window or rate are closed, and records it. |
| DtpSenderObject.Sender.ParkPdu | kernel/dtp-ps-default.c:67-128 | Parks the PDU, and stops the writer unless the queue may hold more. |
| DtpSenderObject.Sender.TransmitPdu | kernel/dtp.c:1435-1471 | Keeps a copy, transmits and arms the inactivity timer. |
| DtpSenderObject.Sender.DeliverQueue | kernel/dtp-utils.c:220-328 | The delivery loop does what the recursive step says. |
| DtpSenderObject.Sender.MayDeliver | kernel/dtp-utils.c:189-218 | Whether window or rate let the loop go on, with the received counter standing in for the rate. |
| DtpSenderObject.Sender.SettleQueue | kernel/dtp-utils.c:295-325 | What the loop leaves behind, and whether the writer goes on. |
| DtpSenderObject.Sender.ReceiveCtrl | kernel/dtcp.c:617-708 | Takes the step of a control PDU; old ones are ignored. |
| DtpSenderObject.Sender.ProcessAck | kernel/dtcp.c:450-482 | Feeds the estimator and drops what is acknowledged, unless the PDU is not queued any more: the step of which `EfcpEstimator.ControlSamples` and `SenderLaws.ControlExactly` speak. |
| DtpSenderObject.Sender.OpenWindow | kernel/dtcp.c:484-530 | Sets edge and rate, ends a rendezvous. |
| DtpSenderObject.Sender.RtxTimerExpires | kernel/dtp-utils.c:595-765 | Takes the step of the retransmission timer, of which `EfcpLedger.RetransmissionEvent` says what is sent again. |
| DtpSenderObject.Sender.RateTimerExpires | kernel/dtp.c:797-843 | Takes the step of the rate timer. |
| DtpSenderObject.Sender.InactivityTimerExpires | kernel/dtp-ps-default.c:183-251 | Starts a new run and flushes both queues. |
| DtpSenderObject.Sender.FlushCwq | kernel/dtp-utils.c:151-171 | Empties the closed-window queue and changes nothing else. |
| DtpReceiverObject.Receiver.constructor | kernel/dtp.c:845-881 | A run of data has to start with a Data Run Flag. |
| DtpReceiverObject.Receiver.ReceiveData | kernel/dtp.c:1553-1782 | Takes the step of a data PDU. |
| DtpReceiverObject.Receiver.BeginRun | kernel/dtp.c:1598-1642 | Starts a run at a PDU with the flag, drops others. |
| DtpReceiverObject.Receiver.CountAndCheck | kernel/dtp.c:1499-1526 | Counts the bytes, and says whether the PDU overruns the window. |
| DtpReceiverObject.Receiver.TakeAtOnce | kernel/dtp.c:1688-1727 | Takes a PDU if the gap before it is small enough. |
| DtpReceiverObject.Receiver.TakeInSequence | kernel/dtp.c:1734-1760 | Takes or queues a PDU and drains the queue. |
| DtpReceiverObject.Receiver.PushSeq | kernel/dtp.c:321-377 | Inserts after the first smaller entry; a repeated number and one below all others are lost. |
| DtpReceiverObject.Receiver.DrainSeq | kernel/dtp.c:1744-1752 | Posts from the head while it is the next number. |
| DtpReceiverObject.Receiver.ExpireSeq | kernel/dtp.c:549-645 | What an A-timer expiry posts, discards and leaves. |
| DtpReceiverObject.Receiver.ATimerExpires | kernel/dtp.c:663-723 | Takes the step of the A-timer. |
| DtpReceiverObject.Receiver.UpdateSv | kernel/dtcp.c:1255-1323 | Moves the right edge and answers with flow control, or with an ack if there is something new. |
| DtpReceiverObject.Receiver.EmitCtrl | kernel/dtcp.c:288-374 | The control PDU with the next control number and the edges of the moment. |
| DtpReceiverObject.Receiver.ReceiveRendezvousPdu | kernel/dtcp-ps-default.c:356-421 | Sets the right edge from the sender's left edge, which may move it backwards, and answers. |
| SenderLaws.ParkedExactly | kernel/dtp-ps-default.c:67-128 | A write that finds window or rate closed goes to the end of the closed-window queue with the next number; the writer is stopped exactly if that fills the queue, and a rendezvous asked for if nothing is kept; nothing is sent and nothing else changes. |
| SenderLaws.SentExactly | kernel/dtp.c:1421-1471 | A write that finds both open is transmitted with the next number, a copy is kept if the flow retransmits, and its bytes are charged up to the rate; the queue and the writer are left alone. |
| SenderLaws.DeliverExactly | kernel/dtp-utils.c:220-328 | With any mix of window and rate the delivery loop sends the longest prefix of the queue that there is room for and that can be paid for, keeps a copy of each, takes out without sending one that has room and no rate, charges exactly that, and lets the writer go on exactly if the queue is emptied. |
| SenderLaws.PaidTotal | kernel/dtp-utils.c:272-286 | While no time unit ends, what is charged is the payload of what was sent, up to the rate. |
| SenderLaws.ControlExactly | kernel/dtcp.c:617-708 | A control PDU that is not newer than all before, or acknowledges a number that is not kept, changes nothing but the last number seen. Any other removes exactly the copies up to the acknowledged number, and if it opens the window sets edge and rate, ends the rendezvous and has the queue delivered. |
| SenderLaws.RtxTimerExactly | kernel/dtp-utils.c:676-765 | An expiry of the retransmission timer counts what it gave up on, moves the left edge to the largest of these at least, and asks for a rendezvous exactly if nothing is kept any more and the queue is full. |
| SenderLaws.RateTimerExactly | kernel/dtp.c:797-843 | An expiry of the rate timer resets the counters and not the rates, starts the writer and delivers the queue. |
| SenderLaws.ResetForgets | kernel/dtp-ps-default.c:183-251 | After an inactivity reset, in whatever state it came, no delivery, rate timer or retransmission timer sends anything of the old run or gives up on it; the next write goes out at once, with the new number and the flag, exactly if there is a credit and the rate is not used up. |
| SenderLaws.RendezvousCarries | kernel/dtcp.c:308-322 | The Rendezvous PDU has the next control number and carries the two edges of the sender. |
| ReceiverLaws.RefusedExactly | kernel/dtp.c:1598-1680 | A PDU is dropped exactly if no run has started and it does not start one, it is a duplicate, or it overruns the window; it is then counted and leaves no other trace but its bytes. |
| ReceiverLaws.StartExactly | kernel/dtp.c:1598-1642 | The first PDU of a run is posted, the left edge starts from it, what was queued is thrown away, and it is answered. |
| ReceiverLaws.AtOnceExactly | kernel/dtp.c:1688-1727 | Without an A-timer an accepted PDU is posted exactly if the flow does not retransmit or the numbers missing before it are not more than the gap allows, reckoned in 32 bits; the left edge moves exactly then. |
| ReceiverLaws.InSequenceExactly | kernel/dtp.c:1734-1760 | With an A-timer the next number is posted with everything that follows it in the queue without a gap; any other is queued, and what can be drained is posted. |
| ReceiverLaws.DrainExactly | kernel/dtp.c:1744-1752 | Draining posts the longest prefix of the queue with consecutive numbers and no more. |
| ReceiverLaws.SeqPushExactly | kernel/dtp.c:321-377 | Into a sorted queue a PDU beyond the last goes behind it; any other right behind the head, wherever it belongs, and one that does not exceed the head nowhere. |
| ReceiverLaws.InsertExactly | kernel/dtp.c:321-377 | Into any queue it goes right behind the first entry that does not exceed it, and nowhere if that one has its number. |
| ReceiverLaws.ExpireExactly | kernel/dtp.c:549-645 | An A-timer expiry takes out the longest prefix of entries that are expired or inside the gap, posts of it what has to be posted in order, and leaves the rest alone. |
| ReceiverLaws.ATimerExactly | kernel/dtp.c:663-723 | It answers exactly if it posts something. |
| ReceiverLaws.UpdateAnswers | kernel/dtcp.c:1255-1323 | The right edge is a credit above the left one; a flow without retransmission answers with flow control, one with it exactly if the left edge passed what was acknowledged; the answer has the next control number and carries the edges and the rate of the moment. |
| ReceiverLaws.RendezvousExactly | kernel/dtcp-ps-default.c:356-421 | A Rendezvous PDU that is newer than all before takes the right edge to a credit above the left edge that it carries; flow control is sent then and with every expiry of the timer until data is accepted. |
| EfcpQueueRuns.QueueOverRuns | kernel/dtp-utils.c:386-674 | Over every run of every retransmitting flow without overtaking, the retransmission queue is strictly sorted; the numbers that left the closed-window queue are those kept, removed by acknowledgements and given up on, added up; and no number was resent more than the configured maximum less one, nor more often than its entry has counted. |
| EfcpQueueRuns.SenderFeeds | kernel/dtp.c:1435-1471 | On those flows the sender pushes every number once, in increasing order. |
| EfcpOvertaking.FedExactly | kernel/dtp-utils.c:524-580 | The pushes of a sender are in increasing order on every run exactly if it does not retransmit, has no rate-based flow control with a positive rate, or has a window of at most one. |
| EfcpOvertaking.OvertakingLoses | kernel/dtp-utils.c:220-293 | For every other flow, and any size of at least one byte: a run of writes no larger than that, which pushes out of order and after which a PDU that was sent is in neither queue, not given up on and not behind the receiver's left edge. |
| EfcpOvertaking.SpendsRate | kernel/dtp.c:1372-1471 | PDUs of any size, each taken and answered before the next is written, use up the rate of a time unit. |
| EfcpInTurn.InTurnRun | kernel/dtp.c:1286-1471 | Without overtaking, in every state of every run the closed-window queue holds exactly the numbers after the last one taken, nothing beyond that was sent, and the retransmission queue is strictly sorted below it. |
| EfcpInTurn.NoOvertaking | kernel/dtp.c:1231-1270 | In such a state a write that is not parked finds the closed-window queue empty. |
| EfcpInTurn.DeliverKeepsLine | kernel/dtp-utils.c:220-328 | The delivery loop keeps that, for every mix of window and rate, also when it takes a PDU without sending it. |
| EfcpFeed.QueueMirrors | kernel/dtp-utils.c:386-674 | On every run of every retransmitting flow, the retransmission queue, what was resent and what was given up on are what the operations that the sender applied make of an empty queue. |
| RtxQueue.QueueRunFromEmpty | kernel/dtp-utils.c:386-674 | For every run of operations whose pushes are in increasing order: the queue is strictly sorted; pushed is queued plus acknowledged, dropped and flushed; and no PDU is retransmitted more than the configured maximum less one. |
| RtxQueue.QueueRun | kernel/dtp-utils.c:386-674 | The same from any state of that kind. |
| RtxQueue.AckIsFilter | kernel/dtp-utils.c:410-430 | On a sorted queue early-exit removal is removal of all numbers up to the acknowledged one. |
| RtxQueue.LookupIsSearch | kernel/dtp-utils.c:498-521 | On a sorted queue early-exit lookup is a full search, and only a PDU never retransmitted has a time stamp. |
| RtxQueue.PushAtTail | kernel/dtp-utils.c:524-580 | A number above all others goes to the tail: the loop that inserts in the middle is not reached. |
| RtxQueue.RetransmitConserves | kernel/dtp-utils.c:595-674 | A pass keeps the order, and every PDU is kept or dropped; what is resent is kept. |
| RtxQueue.RetransmitCounts | kernel/dtp-utils.c:618-674 | A pass resends nothing that it drops; the count of an entry that it keeps grows by at least as much as the entry was resent, and without rate control by exactly that; it stays below the maximum or as it was. |
| RtxQueue.RetransmitExactly | kernel/dtp-utils.c:595-674 | Of the longest prefix of the queue that is due, a pass resends in order every PDU that may be tried once more, counts each in its entry, and drops the others; what is behind stays as it is. With rate control it stops at the PDU that uses up the rate, which is counted and not sent. |
| RtxQueue.SpendTotal | kernel/dtp-utils.c:639-658 | While no time unit ends, a pass charges the payload of what it resends, and the rate is used up exactly if that reaches it. |
| RtxQueue.BackOff | kernel/dtp-utils.c:583-593 | A PDU is due after the timeout, each try adds the next odd number of timeouts, and never more than a minute in all. |
| RtxQueue.PushExactly | kernel/dtp-utils.c:524-580 | A PDU beyond the last goes behind it; any other right behind the first entry that does not exceed it; it is refused if that one has its number or there is none. |
| RtxQueue.Queue.constructor | kernel/dtp-utils.c:368-381 | Empty, with a length of zero. |
| RtxQueue.Queue.PushNi | kernel/dtp-utils.c:524-580 | Pushes by number; a repeated number is refused. |
| RtxQueue.Queue.EntriesAck | kernel/dtp-utils.c:410-430 | Removes from the head up to the acknowledged number. |
| RtxQueue.Queue.EntryTimestamp | kernel/dtp-utils.c:498-521 | Finds the time stamp, or says that the PDU is absent or was retransmitted. |
| RtxQueue.Queue.Rtx | kernel/dtp-utils.c:595-674 | The retransmission loop does what the recursive pass says, and so what `RtxQueue.RetransmitExactly` says of it. |
| RtxQueue.Queue.Flush | kernel/dtp-utils.c:386-396 | Empties the queue. |
| Rtt.EstimatorBounds | kernel/dtcp-ps-default.c:249-304 | For every run of samples in [lo, hi] with 128 hi below 2^32, the estimate stays in [lo, hi], the variation at most hi, nothing wraps, and the timeout lies between srtt + 100 + A and max(100, 4 hi) + hi + A; srtt stays the first sample. |
| Rtt.SampleTaken | kernel/dtcp-ps-default.c:249-304 | Without wrap-around the first sample is the estimate, with half of it as variation; a later one moves the estimate by an eighth of the way and the variation by a quarter of the error; the timeout is srtt plus four variations, at least 100 ms, plus A. |
| Rtt.RttStep | kernel/dtcp-ps-default.c:249-304 | Without wrap-around a step is 7/8 of the old estimate plus 1/8 of the sample, rounded down. |
| Rtt.VarStep | kernel/dtcp-ps-default.c:249-304 | Without wrap-around the variation is 3/4 of the old one plus a quarter of the error, and stays bounded. |
| Rtt.TimeoutStep | kernel/dtcp-ps-default.c:249-304 | Without wrap-around the timeout is four variations, at least 100 ms, plus srtt and A. |
| EndToEnd.SdusEndToEnd | kernel/efcp.c:298-337 | With retransmission and no gap, after any run the SDUs handed up are a contiguous block of whole written SDUs in order: exactly those of which every fragment was posted, counted from the first number posted. |
| EndToEnd.BlockReassembled | kernel/efcp.c:894-943 | PDUs that carry a block of the stream of fragments are put together to exactly the SDUs that lie in it whole. |
| Delimiting.RoundTrip | kernel/delim-ps-default.c:140-383 | For every fragment size, feeding the fragments of any SDUs, empty ones included, gives back those SDUs and leaves nothing pending. |
| Delimiting.FeedBlock | kernel/delim-ps-default.c:326-383 | Feeding any contiguous part of the stream from idle hands up exactly the SDUs whose fragments all lie in it. |
| Delimiting.FeedMiddle | kernel/delim-ps-default.c:268-279 | Fragments from the middle of an SDU on are discarded while idle. |
| Delimiting.FeedKeepsSound | kernel/delim-ps-default.c:238-320 | On any stream of UDFs, supported or not, the total length is that of the pending payloads, and idle means that nothing is pending; which payloads those are is what `Delimiting.FeedIsParse` says. |
| Delimiting.FeedIsParse | kernel/delim-ps-default.c:238-383 | On any stream of UDFs, with fragments lost, repeated or mixed up, what is handed up is every complete SDU and, for every last fragment, the data of the fragments since the nearest first one, unless another last one lies between. |
| Delimiting.RefusedExactly | kernel/delim-ps-default.c:326-383 | A UDF is refused exactly if it is not supported, or is a last fragment with no first one before it. |
| Delimiting.Resynchronises | kernel/delim-ps-default.c:254-266 | Whatever is pending from an SDU that was not completed, the next SDU that arrives whole is handed up alone. |
| Delimiting.WholeSduArrives | kernel/delim-ps-default.c:326-383 | So an SDU whose fragments arrive one after the other is handed up, whatever came before and comes after. |
| Delimiting.FragmentFlags | kernel/delim-ps-default.c:140-193 | The first fragment is marked 0x01 and the last 0x02, and all as without a length field. |
| Delimiting.NumUdfsCounts | kernel/delim-ps-default.c:195-215 | The announced number of fragments is the number of fragments exactly if the SDU is not empty. |
| Delimiting.FragmentsFit | kernel/efcp.c:611-614 | Every fragment with its flag byte and the header fits the maximum PDU size. |
| Delimiting.FragmentSdu | kernel/delim-ps-default.c:140-193 | The fragmentation loop produces the fragments that the recursive definition says. |
| Delimiting.NumUdfs | kernel/delim-ps-default.c:195-215 | The count is the smallest number of fragments that hold the SDU. |
| Delimiting.Reassembler.Process | kernel/delim-ps-default.c:326-383 | Processes a UDF by its flags as the step of `Delimiting.FeedIsParse` does, and keeps the state sound. |
| Delimiting.Reassembler.ProcessMid | kernel/delim-ps-default.c:268-279 | Appends while an SDU is being put together; otherwise resets and fails. |
| Delimiting.Reassembler.JoinPending | kernel/delim-ps-default.c:293-308 | The pending payloads, one after the other, fill the announced length exactly. |
| Delimiting.Reassembler.AppendPending | kernel/delim-ps-default.c:238-252 | Adds the UDF and its payload length. |
| Delimiting.Reassembler.Reset | kernel/delim-ps-default.c:68-76 | Nothing is pending. |
| Kfa.FlowLifecycle | kernel/kfa.c:202-444 | For every interleaving, a flow is destroyed at most once and only when deallocated with no thread in it; a deallocated flow that is still mapped has a thread in it; mapped ports are reserved; every thread that wakes up finds the flow that it went to sleep on, counting it. |
| Kfa.NoFlowLeaks | kernel/kfa.c:1261-1319 | For every interleaving, every flow ever created is mapped or was destroyed. |
| KfaHistory.DeallocationIsFinal | kernel/kfa.c:380-444 | For every interleaving: from its deallocation on a flow is destroyed, or mapped and deallocated, and it is destroyed exactly when no thread holds it any more. |
| KfaHistory.StaysDeallocated | kernel/kfa.c:457-554 | No event, a disable or an enable included, brings a deallocated flow back. |
| KfaHistory.StateIsHistory | kernel/kfa.c:380-554 | For every interleaving the state of a mapped flow is decided by the calls that acted on it: deallocated exactly if a deallocation did; otherwise disabled exactly if the last of bind, enable and disable was a disable; pending exactly if neither bind nor disable acted on it. |
| KfaHistory.EntryExactly | kernel/kfa.c:667-693 | A thread gets in exactly if the flow is there and not deallocated, and what it writes not too long; otherwise nothing changes and the error says which. |
| KfaHistory.WorkQueued | kernel/kfa.c:380-444 | A deallocation queues work exactly if a thread holds the flow. |
| KfaHistory.PostExactly | kernel/kfa.c:1164-1242 | A post is accepted exactly by a flow that is there and not deallocated. |
| KfaHistory.ReleaseExactly | kernel/kfa.c:265-309 | A port-id is given back exactly if it is reserved and no flow uses it. |
| Kfa.LastOneDestroys | kernel/kfa.c:853-863 | The last thread to leave a deallocated flow destroys it and gives its port-id back. |
| Kfa.AlwaysHeld | kernel/kfa.c:773-801 | A look-up after a sleep always succeeds and finds the same flow. |
| Kfa.NothingDone | kernel/kfa.c:348-368 | In reachable states no mapped flow is ready for destruction outside the step that makes it so. |
| Kfa.DestroyKeeps | kernel/kfa.c:202-263 | Destroying a flow that nobody is in keeps the invariant. |
| Kfa.DeallocateKeeps | kernel/kfa.c:380-444 | So does deallocating, whether it destroys at once or queues work. |
| Kfa.EndKeeps | kernel/kfa.c:853-863 | So does the last critical section of a read or a write. |
| Kfa.BeginKeeps | kernel/kfa.c:667-693 | So does the first one. |
| KfaObject.Allocator.constructor | kernel/kfa.c:1424-1486 | No flow, no port. |
| KfaObject.Allocator.PortIdReserve | kernel/kfa.c:170-198 | Reserves the port-id drawn. |
| KfaObject.Allocator.PortIdRelease | kernel/kfa.c:265-309 | Does nothing while a flow uses the port-id. |
| KfaObject.Allocator.FlowCreate | kernel/kfa.c:1261-1319 | Maps a new pending flow. |
| KfaObject.Allocator.FlowBind | kernel/kfa.c:1322-1376 | Makes a pending flow usable. |
| KfaObject.Allocator.WriteDisable | kernel/kfa.c:457-499 | Stops the writer, unless the flow is deallocated, which it stays (`KfaHistory.StaysDeallocated`). |
| KfaObject.Allocator.WriteEnable | kernel/kfa.c:501-554 | Lets a stopped writer go on. |
| KfaObject.Allocator.FlowDestroy | kernel/kfa.c:202-263 | Unmaps the flow and releases its port-id. |
| KfaObject.Allocator.FlowDeallocate | kernel/kfa.c:380-444 | Marks the flow; destroys it at once exactly if nobody is in it. |
| KfaObject.Allocator.DeallocateWorker | kernel/kfa.c:312-378 | Takes the step of the work item; its destruction branch is dead. |
| KfaObject.Allocator.Enter | kernel/kfa.c:667-693 | Counts the thread in, or refuses it. |
| KfaObject.Allocator.LookUpAgain | kernel/kfa.c:773-801 | Finds the flow of the thread: the branches for a missing flow are dead. |
| KfaObject.Allocator.Leave | kernel/kfa.c:853-863 | Counts the thread out, and destroys a deallocated flow that nobody is left in. |
| KfaObject.Allocator.DuPost | kernel/kfa.c:1164-1242 | Leaves the life cycle unchanged: its destruction branch is dead. |
| ByteStream.WriteBuffer | kernel/kfa.c:647-869 | A count returned is the number of bytes handed down, as consecutive DUs of full size but for the last; an error is that of the first hand-over and means that nothing was handed down; the count is less than asked for only if a hand-over failed. |
| ByteStream.StreamConserved | kernel/iodev.c:102-160 | After any series of posts and reads of any sizes, the bytes returned followed by those queued are the bytes posted, no read returned bytes of two DUs, and the values returned are the numbers of bytes returned. |
| ByteStream.ReadExactly | kernel/iodev.c:102-160 | A read of an empty queue returns EAGAIN; any other the number of bytes that it copies, which are the first of the head, as many as there are and were asked for; the head leaves the queue exactly if it was read to its end. |
| ByteStream.ReadsSeeWrites | kernel/kfa.c:647-869 | When what is posted is what was handed down, the reader sees the first bytes of the buffer written, as many as the write returned. |
| ByteStream.FlowQueue.DuToRead | kernel/kfa.c:1003-1013 | Takes the head out only if the caller has room for all of it. |
| ByteStream.FlowQueue.Read | kernel/iodev.c:102-160 | Returns a whole DU and its length, or consumes part of one in place and returns how much, as `ByteStream.ReadExactly` says. |
| ByteStream.FlowQueue.Post | kernel/kfa.c:1211-1217 | Appends to the queue. |
| PciLayout.OffsetTableCreate | kernel/pci.c:127-218 | The loop computes the offset table. |
| PciLayout.TableIsLayout | kernel/pci.c:127-218 | The table gives every field of every type of PDU the place that it has when the fields follow one another without gaps. |
| PciLayout.SizeIsLayout | kernel/pci.c:469-488 | The calculated size is the end of the last field. |
| PciLayout.FieldsTile | kernel/pci.c:127-218 | Every byte of a header belongs to exactly one field, and no byte behind it to any. |
| PciLayout.RendezvousIsCack | kernel/pci.c:64-94 | Rendezvous and control-ack PDUs have the same layout. |
| PciLayout.SequenceNumbersShareOffset | kernel/pci.c:127-218 | Data and control sequence numbers start at the same byte. |
| PciAccess.RespectIffMatching | kernel/pci.c:278-346 | For all headers, fields and values that fit, what a setter sets its getter returns and the other getters do not see, exactly if every width in use is one, two or four bytes and the PDU is a data PDU or both sequence-number widths are equal. |
| PciAccess.AccessorsRespect | kernel/pci.c:491-746 | The positive half, for every pair of fields. |
| PciAccess.MismatchFails | kernel/pci.c:390-392 | With different widths, clearing the sequence number of a control PDU clears too little or too much. |
| PciAccess.UnsupportedFails | kernel/pci.c:278-308 | A field that is read with a width that is not supported does not read back. |
| PciAccess.AccessorsStart | kernel/pci.c:348-746 | Every getter and setter starts at the byte that the layout means, whatever the widths. |
| PciAccess.AccessorsFit | kernel/pci.c:628-746 | With matching widths every accessor stays inside a header of the calculated size. |
| PciAccess.Store | kernel/pci.c:310-346 | A store of one, two or four bytes puts the little-endian value there and leaves the other bytes; with any other width it stores nothing. |
| PciAccess.LastWeighsMost | kernel/pci.c:278-346 | The value of a field is little-endian: a byte behind others weighs as much as all values of those. |
| DuCodec.EncapRoundTrip | kernel/du.c:144-185 | For matching widths and headers below 256 bytes, whatever was in the room in front and whatever padding behind, decapsulation gives back type and payload exactly if the total length fits the length field or, where its width is not supported, there was no padding; header values of supported widths read back in any case. |
| DuCodec.FormattedArrives | kernel/pci.c:426-451 | With supported and matching widths and values that fit, the getters give back every value that formatting set, and decapsulation the payload exactly if the total length fits. |
| DuCodec.EachArrives | kernel/pci.c:426-451 | Every getter then gives back its own value: the version 1, the code of the type, and destination and source of addresses and endpoint ids each in its place. |
| DuCodec.CodesByBits | kernel/pci.h:48-65 | Control PDUs have codes from 0xC0 on, with one bit for those that acknowledge and one for those that control the flow. |
| DuCodec.SizeBound | kernel/pci.c:469-488 | Supported widths keep every header below 256 bytes. |
| DuCodec.SetAllReads | kernel/pci.c:426-451 | Values that fit, set one after the other in different fields, all read back. |
| DuCodec.FormatKeepsData | kernel/pci.c:426-451 | Formatting does not touch the payload. |
| DuCodec.CutLength | kernel/du.c:176-180 | A length cut to its field never equals the payload's length by accident. |
| DuCodec.SlotsAreTidy | kernel/pci.c:348-424 | With matching widths setters and getters agree on fields that do not overlap. |
| DuCodec.DataUnit.Encap | kernel/du.c:144-155 | Pushes room for the header in front of the payload. |
| DuCodec.DataUnit.Format | kernel/pci.c:426-451 | Sets the fields of the header, the length last. |
| DuCodec.DataUnit.TailGrow | kernel/du.c:252-271 | Adds bytes at the tail. |
| DuCodec.DataUnit.TakeHeaderOff | kernel/du.c:158-185 | Refuses unknown types, cuts off padding, takes the header off. |
| IratiMsg.MsgRoundTrip | common/serdes-utils.c:4606-4767 | Messages with all kinds of structures come back from their bytes as their parts do exactly if their numbers and counts are in range and nothing is NULL that the reader expects, at any depth; with anything behind them they are refused. |
| MsgExact.ComesBackIff | common/serdes-utils.c:4606-4767 | A message comes back as it is exactly if it is in range, nothing is NULL that the reader expects, and it is what it would come back as field by field: no NULL and no over-long string, no empty buffer, and the same policy in the three places of flow control that are mixed up. |
| MsgExact.MsgFieldByField | common/serdes-utils.c:4284-4389 | The bytes of a message are its fixed part and then, kind by kind and field by field in the order of the source, what it points to; every field comes back in its own place but for those three policies. |
| MsgFields.DtcpAs | common/serdes-utils.c:1325-1424 | The bytes of a DTCP configuration, with flow and retransmission control only if the flags say so, and what each of its fields comes back as. |
| MsgDifFields.DifAs | common/serdes-utils.c:2824-2953 | So for the configuration of a DIF, with everything in it. |
| MsgDifFields.CryptoAs | common/serdes-utils.c:3451-3539 | So for crypto states. |
| MsgDifFields.NeighboursAs | common/serdes-utils.c:3748-3945 | So for neighbour lists. |
| MsgDifFields.ReportAs | common/serdes-utils.c:4143-4232 | So for media reports. |
| MsgCombine.RoundTripIff | common/serdes-utils.c:4284-4767 | Every structure put together from parts comes back exactly if it is in range and nothing in it is NULL that its reader expects. |
| IratiMsg.MsgLength | common/serdes-utils.c:4770-4862 | A message has an announced length exactly if none of its own buffers is NULL; with whatever structures it then takes at most that many bytes, and exactly that many if and only if no name in it is NULL. |
| IratiMsg.MsgRoom | common/serdes-utils.c:4284-4389 | Every message takes at most the sum of the lengths of its parts, a NULL buffer counted as four bytes, and exactly that much if and only if no name in it is NULL. |
| IratiMsg.AnnouncedAgain | common/serdes-utils.c:4855-4859 | What a message comes back as has an announced length exactly if every buffer of the message has data in it. |
| IratiMsg.NullBufferUnannounced | common/serdes-utils.c:4855-4859 | A message without NULL names that comes back from its bytes and has no announced length: one of a NULL buffer. |
| MsgConfigs.FlowSpecsPlain | common/serdes-utils.c:520-568 | Flow specifications come back as they are and take the announced room. |
| MsgConfigs.DtpConfigsLawful | common/serdes-utils.c:767-809 | DTP configurations in range come back if their policy is not NULL, take the announced room, and are never read with a NULL policy. |
| MsgConfigs.WindowsAndRatesLawful | common/serdes-utils.c:837-966 | So for window and rate configurations. |
| MsgConfigs.FlowCtrlsLawful | common/serdes-utils.c:1004-1127 | So for flow-control configurations, whose window and rate parts are there only if the flags say so. |
| MsgConfigs.FlowCtrlComesBack | common/serdes-utils.c:1025-1127 | A flow-control configuration comes back with the overrun, receiving and reconcile policies each in the place of another, and as it was meant exactly if the three are the same. |
| MsgConfigs.RtxCtrlsLawful | common/serdes-utils.c:1180-1272 | Retransmission-control configurations obey the same laws. |
| MsgConfigs.DtcpConfigsLawful | common/serdes-utils.c:1325-1424 | So do DTCP configurations. |
| MsgConfigs.DtcpComesBack | common/serdes-utils.c:1362-1424 | A DTCP configuration comes back as it was meant exactly if it has no flow control or those three policies are the same. |
| MsgMeant.MsgComesBack | common/serdes-utils.c:4606-4767 | A message in range with nothing NULL that the reader expects comes back as it was meant exactly if every DTCP configuration in it, at any depth, has no flow control or the three policies the same. |
| MsgMeant.DifsComeBack | common/serdes-utils.c:2824-2953 | The configuration of a DIF comes back as it was meant exactly if that holds of the DTCP configuration of every cube in it. |
| MsgMeant.CubesComeBack | common/serdes-utils.c:1666-1725 | So for a single cube. |
| MsgDifs.ConstantsLawful | common/serdes-utils.c:1590-1643 | The constants of data transfer obey the laws. |
| MsgDifs.CubesLawful | common/serdes-utils.c:1666-1725 | So do quality-of-service cubes with their DTP and DTCP configurations. |
| MsgDifs.EfcpsLawful | common/serdes-utils.c:1763-1878 | So do EFCP configurations with their lists of cubes. |
| MsgDifs.RmtsLawful | common/serdes-utils.c:1472-1557 | So do those of relaying and forwarding. |
| MsgDifs.FasLawful | common/serdes-utils.c:1930-2001 | So do those of flow allocation. |
| MsgDifs.OnePoliciesLawful | common/serdes-utils.c:2049-2121 | So do those of resource allocation, enrolment and routing, which hold one policy. |
| MsgDifs.AddressingsLawful | common/serdes-utils.c:2260-2364 | So do address tables, two lists one after the other. |
| MsgDifs.NsmsLawful | common/serdes-utils.c:2412-2447 | So do those of namespace management. |
| MsgDifs.ProfilesLawful | common/serdes-utils.c:2480-2535 | So do SDU-protection profiles. |
| MsgDifs.SecmansLawful | common/serdes-utils.c:2579-2666 | So do those of security management, with a profile per lower DIF. |
| MsgDifs.DifsLawful | common/serdes-utils.c:2824-2953 | So do configurations of whole DIFs. |
| MsgDifs.CryptosLawful | common/serdes-utils.c:3451-3539 | So do crypto states, with six buffers. |
| MsgDifs.PropertiesLawful | common/serdes-utils.c:3607-3717 | So do DIF properties, except that their announced length is too large if a name is NULL. |
| MsgDifs.BufferRoundTrip | common/serdes-utils.c:153-201 | Buffers come back, empty ones as NULL, and take the announced room. |
| IratiMsg.ReadMsgGives | common/serdes-utils.c:4606-4767 | From whatever bytes, no reader ever makes a NULL where it expects something, a NULL name, or a number or count out of range. |
| MsgCodec.TextRoundTrip | common/serdes-utils.c:97-151 | Strings come back, cut to 65535 characters and with NULL as the empty string, and take the announced room. |
| MsgCodec.NameRoundTrip | common/serdes-utils.c:107-243 | Names that are not NULL come back; the announced room is exact if and only if the name is not NULL. |
| MsgCodec.PolicyRoundTrip | common/serdes-utils.c:653-726 | Policies with fewer than 65536 parameters come back, and all take the announced room. |
| MsgCodec.RibRespRoundTrip | common/serdes-utils.c:3103-3165 | So do RIB responses. |
| MsgCodec.PffListRoundTrip | common/serdes-utils.c:3358-3420 | So do forwarding tables, lists of entries with lists of lists of ports. |
| MsgCodec.PffEntryRoundTrip | common/serdes-utils.c:3261-3326 | So do their entries. |
| MsgReports.NeighbourListRoundTrip | common/serdes-utils.c:3878-3945 | Neighbour lists in range come back exactly if no entry and no name in them is NULL; the announced room is exact if and only if no name is. |
| MsgReports.NeighbourRoundTrip | common/serdes-utils.c:3748-3831 | Single neighbours come back, and take exactly the announced room, exactly if no name in them is NULL. |
| MsgReports.MediaReportRoundTrip | common/serdes-utils.c:4143-4232 | Media reports, lists of DIFs with lists of base stations, take the announced room, and come back exactly if no entry has its information NULL. |
| MsgReports.MediaDifRoundTrip | common/serdes-utils.c:4161-4232 | So for a single entry, a name and the information. |
| MsgReports.MediaInfoRoundTrip | common/serdes-utils.c:4032-4102 | The information itself comes back and takes the announced room. |
| MsgCursor.Writer.PutPffList | common/serdes-utils.c:3374-3390 | The counting and the writing loop write the bytes of the list at the write position, whatever follows. |
| MsgCursor.Writer.PutPffEntry | common/serdes-utils.c:3278-3297 | So for an entry. |
| MsgCursor.Writer.PutAltList | common/serdes-utils.c:3203-3216 | So for a list of ports. |
| MsgCursor.PffListSerlen | common/serdes-utils.c:3358-3372 | The measuring loop announces exactly the number of bytes that are written. |
| MsgCursor.PffEntrySerlen | common/serdes-utils.c:3261-3276 | So for an entry. |
| MsgCursor.Reader.TakePffList | common/serdes-utils.c:3392-3420 | The reading loop takes the list off the buffer, or finds it too short. |
| MsgCursor.Reader.TakePffEntry | common/serdes-utils.c:3299-3326 | So for an entry. |
| MsgCursor.Reader.TakeAltList | common/serdes-utils.c:3218-3232 | So for a list of ports. |
| Cidm.SearchEnds | kernel/cidm.c:100-142 | The cyclic search has an end exactly if fewer than MAX_CEP_ID ids are live. |
| Cidm.NoneSkipped | kernel/cidm.c:100-142 | Every id between the last one allocated and the one that the search has come to, in cyclic order, is live. |
| Cidm.CepIdManager.Allocate | kernel/cidm.c:100-142 | Terminates and returns the first free id after the last one allocated in cyclic order: no free id lies between the two; live ids stay distinct. |
| Cidm.CepIdManager.Release | kernel/cidm.c:144-173 | Removes exactly that id, or fails if it is not live. |
| Cidm.CepIdManager.IsAllocated | kernel/cidm.c:86-98 | Searches the list. |
| Cidm.CepIdManager.constructor | kernel/cidm.c:45-64 | No id is live. |

## Left out

- Interleavings inside one entry point, other than those in `EfcpRaces`: posting after the state lock is released, several writers on one flow, locks, RCU, wait queues and memory ordering.
- Sequence-number roll-over: the source has no handling for it; the theorems with 32-bit distance tests suppose that it did not happen.
- Runs across inactivity resets: the sender's reset leaves the highest number sent, and the receiver's its last acknowledged number, as they were; the theorems over runs are about one run of data, and `EfcpWindow.ResetExactly` about the reset at its end.
- EfcpWindow.ResetThenWrite: supposes a credit, without which nothing is ever transmitted.
- EfcpProgress.CanDrain: says that the network can finish, not that it will; what is in flight may still arrive. An answer that is lost for good is not repeated (`EfcpGivenUp.GivenUpExactly`).
- EfcpNoLoss.NoLossExactly: supposes that four numbers and the largest gap together stay below 2^32, since the run that loses a number takes three and sequence numbers do not roll over.
- EfcpOvertaking.OvertakingLoses: if the largest gap plus one wraps around to zero and there is no A-timer, a receiver takes nothing after the first PDU; the run is then given only for writes as large as the rate.
- SenderLaws.RendezvousCarries: of the fields of a Rendezvous PDU only the sender's edges are modelled; without a window the source leaves them unset, and no receiver then looks at them.
- Rendezvous as a liveness mechanism: its steps are modelled, but nothing is claimed about when it ends.
- Negative acknowledgements, selective acknowledgements, and the variant that acknowledges only from the A-timer.
- Flows without DTCP, and the round-trip queue of flows without retransmission.
- Both directions of a connection at once: a world has one sender and one receiver.
- In-order delivery without retransmission and with an A-timer: the resequencing queue is not kept sorted (`EfcpRetreat.Doubled`).
- Two sentinel values of the time-stamp lookup (-1 and 0) that a real time stamp could collide with.
- Allocation failures, failing copies to and from user space, statistics counters, logging.
- Delimiting with a fragment size of zero, for which the source's loop does not end.
- Failing writes of single fragments, which the source ignores.
- Blocking and waking in reads and writes of the flow allocator; `ByteStream` models a single reader that does not block, and network buffers (sk_buff) are not a source of stream writes.
- Cidm.CepIdManager.Allocate: one caller at a time. The look-up of an id releases the lock of the manager when it finds the id (kernel/cidm.c:86-98), so with several callers live ids need not stay distinct.
- Kfa.FlowLifecycle: every piece of an operation between two locks is one step. A stream write whose allocation or copy fails finishes without the lock (kernel/kfa.c:696-731, 853-863), and a post and the deallocation worker wake waiters through the flow after they released the lock (kernel/kfa.c:370-375, 1229-1240).
- Kfa: flows are created only on reserved ports without one and bound only while pending, as callers do; the source checks neither.
- ByteStream.WriteBuffer: requires a maximum SDU size of at least one, for which alone the source's loop ends.
- PciAccess.Get: values are unsigned, and the failure value of a getter is told apart from every number, although in an unsigned field it is the largest one.
- DuCodec.EncapRoundTrip: headers of 256 bytes and more, which no configuration of supported widths gives.
- DuCodec.DataUnit.SetFields: loops over a list of fields where the source calls one setter after the other.
- MsgCodec, MsgReports, MsgDifs, IratiMsg: except for forwarding tables, serialisation is modelled on values and not as a cursor that moves; a buffer that ends too early is refused, where the source reads on.
- MsgDifs.DifsLawful: the source returns an unset result code when a DIF configuration has no entries of its own; the model takes it for success.
- The table of message layouts, and the check of the message type against it.
- RMT, PFF, SDU protection, enrolment, sysfs and debugfs, policy selection, configuration accessors.
