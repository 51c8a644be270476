# A model of picoquic-rs in Dafny

picoquic-rs binds the C library picoquic to tokio. An application holds `Stream` and `Connection`
values; a driver future holds their contexts, talks to picoquic through callbacks and moves bytes
between the two over channels. This project models the three parts of that machinery in which many
steps have to fit together, and proves what they keep over whole runs.

**Streams.** `StreamModel` is the state machine of one stream: the application's sender, the control
queue, the chain of send channels, the context's flags and its one leftover buffer, and what picoquic
has been told. Any list of steps is a run. `StreamChain` and `StreamInvariant` hold what every step
keeps. `StreamSending`, `StreamDropping`, `StreamErrors` and `StreamProgress` have the results about
whole runs of the sending half, `StreamReceiving` and `StreamReading` those of the receiving half.
`StreamContext` has the program's objects (`SwappableStream`, `Context`, `Stream`) with their fields
and loops; each method is proved equal to a function of the state machine.

**Connections.** `ConnectionModel` is the state machine of one connection: its map of streams (each a
state of `StreamModel`), the queue of create requests, the establishment and the two owners of the
context. `ConnectionRuns` has the results about ids, requests and owners, `ConnectionRequests` and
`ConnectionClosing` say what becomes of requests and of a close, `ConnectionAnnouncements` how often an
id gets a context, `ConnectionStreams` follows each stream through a run of the connection, and
`ConnectionContext` is the object with its loops.

**Driver.** `ErrorChannel` interleaves the senders and the receiver of a channel with an error,
`Driver` is the driver's poll loop, and `PacketSlot` the packet buffer shared by receiving and
sending. `StreamIds` covers stream identifiers (section 2.1 of RFC 9000), `Base` bytes and buffers.

## What is taken as given

- Channels and one-shots of the futures crate are atomic queues. Back-pressure is a parameter of a
  send. A channel's ends are alive while some value owns them; the model computes this from the
  owners instead of keeping flags.
- A context method is one step. The application runs beside it: a send, a drop or a resize that lands
  during a method counts as before it, which gives the same result because the loops poll their queue
  until it has nothing more. Dropping a `Stream` takes three steps, one for each field.
- Streams need nothing of picoquic: it may ask for data at any time and with any amount of room, and
  may deliver any event in any order.
- For connections, picoquic names only ids of the peer or ids opened here before, and delivers the
  close event once (`ConnectionModel.Trusted`). `UnopenedLocalIdPanics` and `SecondCloseDangles` show
  that both are needed.
- Picoquic may write anything to the slice of a received datagram and to the room it is given for a
  packet, and to nothing else of the packet buffer.
- Integers are unbounded except in stream ids, where 64-bit wrap-around is written out.

## Where the code does less than it seems to promise

- A second resize before the first took effect overwrites the waiting receiver and loses its bytes
  (src/swappable_stream.rs:27-29): `SecondResizeLosesBytes`; `ConservationIff` says exactly when bytes
  are conserved.
- The finished-sending flag can be cleared again (src/stream.rs:401): `StopSendingForgotten`;
  `FlagClearedIff` says exactly when.
- A connection error is stored with the receiver in use only (src/swappable_stream.rs:55-67). A resize
  on its way, a later resize or a stop-sending before keeps it from the sender: `ResizeHidesError`,
  `LaterResizeHidesError`, `StopSendingHidesError`; `ErrorReachesAppIff` says exactly when it is
  reported.
- A stream that was sent an empty buffer and nothing else gets a FIN when it is dropped and is reset
  after that (src/stream.rs:421-432): `EmptyBufferGetsFin`; `DroppedStreamDelivers` has both cases.
- A callback for a stream that was already forgotten makes a new context and announces the stream once
  more (src/connection.rs:347-364): `LateCallbackAnnouncesAgain`; `OneContextEachIff` says exactly when
  each id has one context. The new context starts anew, so "stop-sending at most once" is for each
  context.
- A datagram received while a packet waits in the shared buffer is sent in its place
  (src/context_inner.rs:203-208): `ReceiveCorruptsWaitingPacket`; `PacketSurvivesIff` says exactly when
  the packet survives.
- A later `propagate_error` replaces the earlier error, although the comment at
  src/channel_with_error.rs:155 says that it is discarded; the model follows the code: `LastErrorWins`.
- The comment at src/stream.rs:55 says that a unidirectional id gets no channel; the code makes one at
  the sending end: `EndpointDuality`.

## Model

| member | source | states |
|---|---|---|
| StreamSending.HandedInOrder | src/stream.rs:340-457 | in every run, with any resizes, resets, errors and removals, neither the panic on an unknown control message nor the one of the copy loop is reached, and the bytes handed to picoquic are accepted bytes in their order, each at most once |
| StreamSending.ConservationIff | src/stream.rs:434-471 | in a run that was not aborted, handed bytes, held buffer, both receivers and the receivers on the control queue together equal the accepted bytes if and only if no control poll overwrote a waiting receiver that held bytes |
| StreamSending.OneSwapAtATimeIsLossFree | src/swappable_stream.rs:27-46 | runs with at most one resize outstanding at each control poll satisfy that condition |
| StreamSending.DrainControlTotal | src/stream.rs:434-457 | a control poll without a reset shortens what is on its way by exactly the bytes of all waiting receivers but the last |
| StreamSending.SecondResizeLosesBytes | src/stream.rs:154-162 | a concrete run in which two resizes before a control poll lose an accepted byte |
| StreamSending.HandedIsPrefix | src/stream.rs:264-271 | with resets, stop-sending and removal allowed, the handed bytes are a prefix of the accepted ones in every run whose control polls discard nothing |
| StreamSending.FinIsComplete | src/stream.rs:353-401 | once the FIN of a stream that was not aborted is given, picoquic has every accepted byte and the application holds no sender |
| StreamSending.NoBytesAfterFin | src/stream.rs:379-419 | in every run, unconditionally, no byte is handed over after a FIN |
| StreamSending.EndIff | src/stream.rs:39-43 | the send receiver reports the end exactly when the application's sender is gone, no swap is on the control queue and no buffer is left, so never during a resize |
| StreamChain.PollSendChain | src/swappable_stream.rs:36-46 | one poll takes the first buffer of the chain of receivers, keeps the chain unbroken and reports the end exactly in that case |
| StreamChain.CollectChain | src/stream.rs:340-376 | collecting moves bytes from the chain to the buffers in order; fin means that all of them fit and nothing can follow, and without fin either more than the limit was collected or a sender is still there |
| StreamSending.NothingStranded | src/stream.rs:421-471 | while a stream that was not aborted holds a buffer, or lost its receiver before the FIN, picoquic has it marked active |
| StreamProgress.ActiveIff | src/stream.rs:421-471 | a sending stream that was not aborted is marked active exactly while a buffer is held, or its receiver is gone and the FIN is still due |
| StreamProgress.BufferIsTaken | src/stream.rs:459-474 | in every run, whether or not the application keeps the stream, a data poll that finds a buffer in a receiver leaves a buffer held and the stream active |
| StreamProgress.EveryByteIsHandedOver | src/stream.rs:340-474 | after any loss-free history of a sending stream that was not aborted, whether or not the application keeps it, one poll and as many prepare-to-sends with room for a byte as there are bytes hand over every accepted byte, and the stream stays active until then |
| StreamProgress.SendOutcomeIs | src/stream.rs:191-196 | the outcome of every send of every run: refused on a receive-only stream; accepted (or full) exactly while the stream is intact or a resize is on its way, and then the buffer is added at the end of the channel; otherwise it fails with the error the run left to be heard and changes nothing |
| StreamProgress.ResizeTakesEffect | src/stream.rs:154-162 | a resize gives the application a new, empty channel, and after the next control poll of an intact stream it is the last one the context reads from |
| StreamSending.PrepareOutcome | src/stream.rs:379-419 | every prepare-to-send ends with bytes left and the stream active, or with the FIN and nothing left, or with all buffers taken and a sender alive |
| StreamSending.FinIsReached | src/stream.rs:340-419 | from every state of the invariant with the application gone, enough prepare-to-sends with room for one byte deliver every byte and the FIN |
| StreamDropping.DroppedStreamDelivers | src/stream.rs:379-508 | end to end: after any loss-free history of a sending stream that was not aborted, the application drops it and the context is polled once. If the stream had nothing to send before the drop, it is then reset and finished and got no FIN from this. Otherwise it is not reset by this, picoquic has it marked active or has the FIN before and after every prepare-to-send, and enough of them with room for one byte hand over every accepted byte and the FIN and finish the stream; the poll after that forgets it, with a reset if and only if it never had a byte |
| StreamDropping.SenderGoesLast | src/stream.rs:77-85 | the fields of a `Stream` go one by one: after two the context can see that the application is gone, but the send channel has not ended |
| StreamDropping.EndsEmptyBefore | src/stream.rs:434-474 | whether the poll after the drop finds the stream empty is decided before: exactly if no byte was accepted, no buffer is held, and the receiver in use and the last one waiting behind it hold no buffer |
| StreamDropping.ForgettingPoll | src/stream.rs:459-508 | the poll after the FIN finishes the stream, hands over nothing and resets it exactly if it has a receiver and never had a byte |
| StreamDropping.NothingToSendIff | src/stream.rs:421-432 | if the application sends no empty buffers, a stream has nothing to send exactly if no byte was ever accepted |
| StreamDropping.EmptyBufferGetsFin | src/stream.rs:421-471 | a concrete run in which an empty buffer keeps a stream without any byte from being reset, so that it gets a FIN, and a reset with the next poll |
| StreamDropping.PollDataGone | src/stream.rs:459-474 | the data poll after the application is gone resets the stream if it ends empty, and otherwise leaves it active or with its FIN given |
| StreamSending.DropDecision | src/stream.rs:421-471 | when a data poll finds the channel ended, the stream is reset if and only if no byte was ever accepted; otherwise the FIN was given or is asked for |
| StreamSending.ResetTakesEffect | src/stream.rs:434-443 | a reset anywhere on the control queue is carried out by the next control poll: picoquic resets the stream and its sending half is finished |
| StreamProgress.ResetIsCarriedOut | src/stream.rs:134-138 | a reset the application asks for is carried out by the next control poll, whatever steps lie between: picoquic resets the stream, its sending half is finished, and the stream is finished exactly if its receiving half is |
| StreamProgress.StopSendingTakesEffect | src/stream.rs:312-314 | a stop-sending drops the receivers and finishes the sending half; in every continuation at most the bytes held at that time are handed over, and if none were held the half stays finished |
| StreamSending.SafeRemoval | src/stream.rs:499-508 | a sending stream that was not aborted is finished only after FIN and all bytes, or after a reset without any accepted byte |
| StreamSending.FlagClearedIff | src/stream.rs:383-401 | the finished-sending flag, once set, is cleared by a step exactly if that is a prepare-to-send with less room than bytes held back |
| StreamSending.FlagStaysSet | src/stream.rs:401-401 | with receiver and buffer gone the flag stays set under every further step |
| StreamSending.StopSendingForgotten | src/stream.rs:312-314 | a concrete run in which the flag set by stop-sending is cleared |
| StreamErrors.FailedSendReports | src/channel_with_error.rs:86-110 | in every run a send that fails reports the last connection error that came while the receiver was there and no resize was on its way, unless a resize followed; without such an error it reports the plain send error |
| StreamErrors.ErrorReachesAppIff | src/stream.rs:323-328 | for any steps before a connection error and any steps after it without another one, a send that fails reports the error if and only if the receiver was still there, no resize was on its way and none follows; if the receiver was gone, it reports what the channel had stored by then unless a resize follows, and in all other cases the plain error; after the removal every send fails |
| StreamErrors.ResizeHidesError | src/swappable_stream.rs:55-67 | a concrete run in which an error during a resize leaves the sender with the plain send error |
| StreamErrors.LaterResizeHidesError | src/stream.rs:154-162 | a concrete run in which a resize after the error does the same |
| StreamErrors.StopSendingHidesError | src/stream.rs:312-328 | a concrete run in which the receiver is gone when the error comes, with the same outcome |
| StreamInvariant.StepInv | src/stream.rs:205-516 | every step of application, context, peer and connection keeps the invariant: unbroken chain, order of bytes, flags, activity, no panic |
| StreamInvariant.PrepareTotal | src/stream.rs:403-418 | a prepare-to-send only moves bytes: handed, held and waiting bytes together stay the same |
| StreamInvariant.SwapMessageTotal | src/stream.rs:444-449 | a swap message discards exactly the bytes of the receiver that was already waiting |
| StreamInvariant.StartSendTotal | src/stream.rs:191-196 | an accepted buffer goes to the very end of everything on its way, across all channels |
| StreamModel.EndpointDuality | src/stream.rs:56-70 | the two ends of an id agree on who sends, who receives and which halves start closed, and a locally generated id can always send |
| StreamModel.PollIsTwoSteps | src/stream.rs:499-508 | a poll of the context is a control poll followed by a data poll |
| StreamReceiving.ReceivesExactlyWhatIsDue | src/stream.rs:293-320 | in every run the application is given exactly the bytes up to the first FIN, reset or drop of its receiver, never a swap message, and stop-sending is asked for at most once |
| StreamReceiving.StopSendingOnlyWhenUseful | src/stream.rs:279-291 | stop-sending is never asked for after the peer's FIN or reset nor on a send-only stream, and the inner direction test is redundant |
| StreamReceiving.ResetIsReportedIff | src/stream.rs:309-318 | the application is told of a reset if and only if the peer reset the stream while it held its receiver |
| StreamReading.InboxIs | src/stream.rs:273-333 | in every run the application's queue holds exactly the messages the run was worth while it held its receiver, in order: data until the peer finished, each end the peer signals, errors, closes; and after a removal a close comes last |
| StreamReading.FinIsReportedIff | src/stream.rs:315-318 | while the connection lives and keeps the stream, the application is told of the end if and only if the peer's FIN arrived while it held its receiver |
| StreamReading.ReaderGetsWhatIsDue | src/stream.rs:165-185 | while the connection lives, a reader that reads to the first close or reset gets exactly the bytes due to it |
| StreamReading.StopSendingIff | src/stream.rs:279-291 | in every run, a step ends the receiving half exactly if it shows the application's drop or the peer's end, and asks for stop-sending exactly if it is the first to do so, shows the drop, and the stream receives |
| StreamReading.DropAsksToStop | src/stream.rs:450-453 | dropping a stream makes the next control poll ask for stop-sending exactly if the stream receives and the peer has neither finished nor reset it |
| StreamReading.ReceiveOnlyFinishes | src/stream.rs:499-508 | a receive-only stream is finished exactly when its receiving half is; while the application reads, when the peer finished or reset it |
| StreamContext.SwappableStream.Poll | src/swappable_stream.rs:36-46 | the loop computes the state machine's poll of the send receiver |
| StreamContext.SwappableStream.SetSwapTo | src/swappable_stream.rs:27-29 | the waiting receiver is replaced and nothing else |
| StreamContext.CopyBuffers | src/stream.rs:403-418 | the copy loop fills the destination with the first bytes of all buffers and keeps the rest; it panics if and only if a second buffer has bytes left |
| StreamChain.OneLeftover | src/stream.rs:413-417 | if all buffers but the last fit, the panic of the copy loop cannot happen |
| StreamChain.CollectFits | src/stream.rs:345-373 | collecting keeps that all buffers but the last fit, so it holds whenever the copy loop runs |
| StreamContext.Context.constructor | src/stream.rs:225-256 | a new context is the initial state for its id and side |
| StreamContext.Context.CollectBuffersToSend | src/stream.rs:340-376 | the loop computes the state machine's collection, with its size, and fin implies that everything fits |
| StreamContext.Context.ProvideBuffers | src/stream.rs:383-418 | the collected bytes go to picoquic up to the limit, the rest is held, and still-active is told exactly if something is held |
| StreamContext.Context.HandleSendData | src/stream.rs:379-419 | one prepare-to-send is the state machine's; the destination holds exactly the bytes added to what was handed |
| StreamContext.Context.HandleSendDataDropped | src/stream.rs:421-432 | reset or request for a FIN, as the state machine says |
| StreamContext.Context.HandleControlMessage | src/stream.rs:441-454 | the effect of one control message, with the panic on any other message recorded |
| StreamContext.Context.PollControlMsg | src/stream.rs:434-457 | the loop drains the control queue as the state machine does and notices a dropped `Stream` |
| StreamContext.Context.PollSendData | src/stream.rs:459-474 | one data poll is the state machine's |
| StreamContext.Context.Poll | src/stream.rs:499-508 | one poll is the state machine's and is ready exactly when both halves are finished |
| StreamContext.Context.ReceiveCallback | src/stream.rs:293-320 | the receiving half of a callback: data before the event, as the state machine says |
| StreamContext.Context.HandleCallback | src/stream.rs:293-320 | one callback is the state machine's, with stop-sending for the sending half |
| StreamContext.Context.HandleConnectionError | src/stream.rs:323-328 | message to the application, error to the receiver in use |
| StreamContext.Context.HandleConnectionClose | src/stream.rs:331-333 | close message to the application |
| StreamContext.Context.RecvMessage | src/stream.rs:273-277 | a message is queued or the drop of the receiver is noticed |
| StreamContext.Context.RecvMessageDropped | src/stream.rs:279-291 | the first notice of the drop asks for stop-sending |
| StreamContext.Context.Reset | src/stream.rs:264-271 | flag, receiver and picoquic's reset |
| StreamContext.Context.Drop | src/stream.rs:511-516 | the context's ends of all queues are gone |
| StreamContext.Stream.StartSend | src/stream.rs:191-196 | outcome and effect of a send: accepted, full, on a receive-only stream, or failed with or without the channel's error |
| StreamContext.Stream.SetSendChannelSize | src/stream.rs:154-162 | a new channel whose receiver travels with the old sender |
| StreamContext.Stream.Reset | src/stream.rs:134-138 | a reset message on the control queue |
| StreamIds.GeneratedIdDecodes | src/ffi/connection.rs:171-193 | a generated id gives back who generated it and for which type, and can send |
| StreamIds.GeneratedIdRange | src/ffi/connection.rs:171-193 | exactly when a generated id is at least 4 and below 2^62 |
| StreamIds.GeneratedIdsCollide | src/ffi/connection.rs:168-193 | two generated ids are equal exactly when counters agree modulo 2^62, and side and type agree |
| StreamIds.GeneratedIdsIncrease | src/ffi/connection.rs:168-193 | below 2^62 a larger counter gives a larger id |
| ConnectionRuns.IdsAreFresh | src/connection.rs:385-410 | over every run the ids opened here are at least 4, strictly increasing and send-capable, and the assertion on inserting one never fails |
| ConnectionRuns.UnopenedLocalIdPanics | src/connection.rs:342-360 | a concrete run in which a callback with an unopened local id makes that assertion fail |
| ConnectionRuns.OneAnswerPerRequest | src/connection.rs:385-410 | every request is queued or answered, never both; the stream answers are exactly the opened streams, in the order of the requests, one each |
| ConnectionRuns.AnswersAreFinal | src/connection.rs:385-410 | no request is answered twice: every answer given at any time of a run is the same in every continuation, and opened streams are only added |
| ConnectionRequests.AnswersHaveTheTypeAskedFor | src/connection.rs:385-410 | a request answered with a stream gets the k-th stream opened here, with the k-th id of the type that was asked for: unidirectional exactly if that was asked for |
| ConnectionRequests.PollAnswersRequests | src/connection.rs:385-410 | a poll of a connection that is not closed opens a stream for every waiting request, in order and of its type, with the stream in the map |
| ConnectionRequests.AnswersAfterClose | src/connection.rs:442-463 | every answer given by or after the close event is the connection's error, or says that none is known if there was none |
| ConnectionRuns.ErrorAnswersQueuedRequests | src/connection.rs:442-463 | a close with an error answers every queued request with it and leaves none queued |
| ConnectionRuns.ErrorAnswersLaterRequests | src/connection.rs:549-558 | in every continuation each later request is answered with that error |
| ConnectionRuns.ErrorReachesEveryStream | src/connection.rs:412-446 | every stream whose application listens gets the error and then the close |
| ConnectionRuns.OwnershipCount | src/connection.rs:501-530 | in every run the reference count is the number of owners left, the context is dropped exactly once after both let go, and other callbacks are count-neutral |
| ConnectionRuns.SecondCloseDangles | src/connection.rs:513-519 | a second close event leaves the driver's reference dangling exactly if it still lists the connection |
| ConnectionRuns.CloseEndsEverything | src/context_inner.rs:343-352 | a close event and one poll of the driver drop the context with every request answered |
| ConnectionRuns.EstablishedOnce | src/connection.rs:374-461 | the creation one-shot is completed at most once, by the connection, an error or cancellation, and a later error goes to the connection's messages |
| ConnectionClosing.MessagesAre | src/connection.rs:335-486 | in every run the application is told exactly of each new context for a stream of the peer, of an error after the establishment and of each close, in order; and the establishment is decided by exactly the ready event, the error of the close event or the loss of the last owner |
| ConnectionClosing.ClosedIsTold | src/connection.rs:412-419 | the connection is closed exactly if the application was told so |
| ConnectionClosing.AskedCloseTakesEffect | src/connection.rs:470-486 | a close the application asks for is carried out by the next poll, whatever steps lie between, and one more poll takes the connection off the driver's list |
| ConnectionClosing.AskedCloseReachesStreams | src/connection.rs:412-419 | that poll tells every stream whose application still listens |
| ConnectionStreams.StreamFollowsHistory | src/connection.rs:335-530 | each stream in the map is where its own steps, taken out of the run of the connection, lead in the state machine of streams |
| ConnectionStreams.ConnectionConserves | src/connection.rs:335-486 | over every run of a connection the bytes of a stream that was not aborted are all handed over or on their way if and only if no control poll among its steps discarded any, and then a FIN means that picoquic has them all |
| ConnectionStreams.ForgottenStreamIsDone | src/connection.rs:475-476 | a poll drops exactly the finished streams, and a dropped sending stream that was not aborted and whose steps discarded nothing had delivered its FIN and all bytes, or was reset without any |
| ConnectionStreams.ErrorReachesSenders | src/connection.rs:412-446 | after a connection was closed with an error, whatever a stream of it does then, its sends that fail report what the error left stored, or the plain error if a resize follows |
| ConnectionAnnouncements.OneContextEachIff | src/connection.rs:342-364 | over every run each id has at most one context, so that no stream is announced twice or announced although opened here, if and only if no callback names an id whose context was already forgotten |
| ConnectionAnnouncements.StreamsAreKnown | src/connection.rs:342-410 | every stream in the map is one that was announced or opened here |
| ConnectionAnnouncements.LateCallbackAnnouncesAgain | src/connection.rs:347-364 | a concrete run in which a late callback announces the same stream a second time |
| ConnectionRuns.StepInv | src/connection.rs:466-530 | every trusted step keeps ids, streams, requests, owners and establishment in order |
| ConnectionContext.Context.RetainStreams | src/connection.rs:475-476 | the loop polls each stream once and keeps the unfinished ones |
| ConnectionContext.Context.TellStreams | src/connection.rs:415-446 | the loop tells each stream once |
| ConnectionContext.Context.CheckCreateStreamRequests | src/connection.rs:385-410 | the loop opens one stream for each queued request, as the state machine does |
| ConnectionContext.Context.CheckAndHandleError | src/connection.rs:442-463 | streams, queue and establishment after an error |
| ConnectionContext.Context.ProcessWaitForReadyState | src/connection.rs:421-431 | panics exactly if nothing waits for the establishment |
| ConnectionContext.Context.HandleReady | src/connection.rs:374-378 | that panic is not reached |
| ConnectionContext.Context.ReleaseOne | src/connection.rs:489-499 | one reference less, and the last one drops the context |
| ErrorChannel.FailedSendsReportTheError | src/channel_with_error.rs:86-110 | in every interleaving of a receiver that stores an error before it closes with any senders, no failed send reports the plain error |
| ErrorChannel.BareCloseIsNoticed | src/channel_with_error.rs:156-162 | after a close without a stored error a send does report the plain error |
| ErrorChannel.LastErrorWins | src/channel_with_error.rs:33-35 | a failed send reports the error stored last |
| ErrorChannel.EverySenderSends | src/channel_with_error.rs:69-76 | in every reachable state a fresh clone, or a sender whose last send is over, can send, with an outcome that depends on the channel alone |
| ErrorChannel.Channel.StartSend | src/channel_with_error.rs:108-110 | a send alone has the outcome that its three looks at the channel lead to |
| ErrorChannel.FailureReachesEverySend | src/channel_with_error.rs:86-110 | after a receiver stored an error and closed, every send that was not over by then, by any sender and in any interleaving, ends with that error as long as no other is stored |
| ErrorChannel.Channel.FailWith | src/connection.rs:448-449 | storing the error and closing the channel brings about the state from which that holds |
| Driver.Poll | src/context_inner.rs:253-302 | at most 51 rounds; it stops at the first round in which the context is gone or the timer sleeps; when it is not ready, either the task notified itself or the timer is registered for the requested time |
| PacketSlot.PacketsLeaveAsPrepared | src/context_inner.rs:141-209 | at every point of a run of rounds the packets given to the socket and the waiting one are the prepared packets, byte for byte, in order, each once, if and only if every waiting packet outlived the receptions |
| PacketSlot.RoundKeepsIff | src/context_inner.rs:276-282 | one round keeps them so exactly if its reception leaves every byte of the waiting packet as it was |
| PacketSlot.SendRoundConserves | src/context_inner.rs:155-182 | packets leave in the order of preparation and nothing is prepared before the waiting packet is gone |
| PacketSlot.SendRoundTakesAll | src/context_inner.rs:155-182 | a round whose waiting packet is gone sends it and then every packet picoquic has, up to the first connection that is gone or the first packet for which the socket is full, which then waits |
| PacketSlot.PacketSurvivesIff | src/context_inner.rs:185-209 | a waiting packet survives a receive exactly if at each position the last datagram reaching it has the packet's byte there once picoquic, which may rewrite the slice, is done with it |
| PacketSlot.ReceiveCorruptsWaitingPacket | src/context_inner.rs:156-208 | concrete runs in which a received datagram, or what picoquic makes of one equal to the packet, is sent in place of a waiting packet |
| PacketSlot.ContextInner.SendDataInBuffer | src/context_inner.rs:143-152 | the packet is given to the socket or recorded as waiting |
| PacketSlot.ContextInner.SendPrepared | src/context_inner.rs:162-181 | the loop sends the prepared packets until the socket is full or a connection is gone |
| PacketSlot.ContextInner.SendConnectionPackets | src/context_inner.rs:155-182 | the waiting packet first, then the prepared ones |
| PacketSlot.ContextInner.CheckForIncomingData | src/context_inner.rs:185-209 | every datagram is written over the same buffer and then processed in place |
| PacketSlot.ContextInner.PollIo | src/context_inner.rs:276-282 | one round receives and then sends |

## Left out

- Certificates, TLS and the picoquic context (src/ffi/verify_certificate.rs, src/verify_certificate.rs, src/ffi/quic_ctx.rs): thin wrappers over foreign code.
- Configuration, the outer `Context` future and error kinds (src/config.rs, src/context.rs, src/error.rs): setters and forwarding; an error is an opaque number here.
- Addresses, keep-alive, stateless packets and creating connections on request: they touch none of the modelled state.
- The wake-ups of the stream and connection tasks: that a pushed item wakes its reader belongs to the futures crate.
- The capacity of a send channel: whether a send meets back-pressure is a parameter, and the size given to a resize is not kept.
- `Stream::poll` and `Connection::poll` as steps of their own: the queues they read are modelled as everything ever put there.
- Picoquic's own scheduling: that it asks an active stream for data again is not modelled; `NothingStranded` shows that the stream stays active until the FIN.
- The life of the driver itself, and of the connection list when the driver is dropped.
- The object `ConnectionContext.Context` keeps its streams as values of `StreamModel` instead of `StreamContext.Context` objects, so updates in place of a stream inside the map are not captured there.
- Bit operations on ids are written as arithmetic on the two lowest bits.
