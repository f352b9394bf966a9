# A verified model of the UDP endpoint

This project models the UDP transport of the repository in Dafny and proves what its users rely on: what reaches the
socket and the handlers, in which order and how often; that every buffer and every pooled envelope is given up exactly
once; that backpressure, write interest and the single outstanding read and write stay consistent; that Close is
complete and final; and that the address forms agree. `dafny verify dfyconfig.toml` checks all of it.

## How it is built

The model has two levels.

**The specification.** `World` holds everything outside an endpoint: reference counts and who owns them, the envelope
pool, the socket, the poller and the allocator. What these decide is not known to an endpoint, so it is a list of
answers still to be given, and results hold for every such list. Handlers are part of it too: whenever the pipeline is
told something, they act out a list of actions that may write, flush, read, close, allocate, retain and release, in any
order and at any depth. `EndpointState` is the state of an endpoint with a log of what has happened, and the atoms its
operations are made of; `EndpointSpec` gives each operation of `endpoint.go` as a function that runs the handlers where
the code runs them. `Preservation` and `Runs` prove once that whatever every atom keeps holds after every run, that is,
after every sequence of calls, poller events and changes outside, with any handlers. `Accounting`, `References`,
`Ownership`, `Resting`, `Delivery`, `Submission`, `Backpressure`, `Lifecycle`, `Flushing`, `Reception`, `Announcements`
and `Unsendable` use this, together with `Frames`, which says what an operation leaves alone however often handlers
call back while it runs, `History`, which says that it only adds to what has happened, and `TameHandlers`, which says
what commutes with handlers that neither flush, read nor close. `Acceptance`, `Reading`, `Completions` and `Readiness`
say what one call or one event does on an open endpoint: which datagram a write queues, what a read hands on and what the
handlers hear, what a report about a read or a write leads to, and what a readiness event sends, keeps and asks for.

**The objects.** `OutboundQueue` is the linked list with its free list, updated in place. `BatchIO` has the batch
readers and writers with the arrays they keep between calls. `Endpoint` is the endpoint as a class whose methods update
its fields; each is proved to do to the abstract state exactly what the function of the same name in `EndpointSpec`
does, and never to release a reference that is not there. `Endpoint.Drive` concludes that a real object goes through
the states of every run, so that the theorems about runs are theorems about the object. `Safety` collects the
conditions its methods need. `DatagramPool` is pooled envelopes on the heap, with addresses as slices of the envelope's
own array, and `Codec` the decoder and the encoder. `Addresses`, `Decimal` and `AddressText` are the address forms.

## What does not hold

Seven things a caller may expect do not hold of the code. The code is modelled as it is, and the exact limits are
proved.

- A handler that flushes on a writability notification in the middle of a readiness-mode flush makes datagrams go out
  twice: `flushOutbound` takes a batch off the queue only after all of it has been sent (`Hazards.NestedFlushRun`, a
  whole run from a new endpoint). With handlers that neither flush, read nor close a flush sends something again exactly
  if an earlier send has left the head of the queue in flight and the socket takes something (`Hazards.ResendsExactly`);
  over runs, order and uniqueness fail exactly if that happened (`Delivery.ExactlyOnce`), and it needs such a nested
  flush or the next item (`Delivery.ReadinessDelivery`).
- Off Linux a send error behind the first datagram of a batch leaves the datagrams already sent in the queue. An
  endpoint that is not closed then sends them again (`Hazards.PartialFailureRun`).
- In completion mode the flag `writePending` is down again when handlers are told that a write has failed. A handler
  that flushes then submits the same datagram a second time, before the endpoint closes (`Hazards.FailingWriteRun`, a
  whole run); over runs a datagram is submitted twice exactly if that happened (`Submission.CompletionDelivery`).
- `enableWriteInterest` and `disableWriteInterest` flip the flag before they ask the poller. After a failed Modify the
  flag and the poller disagree until the next such call, whatever becomes of it (`Lifecycle.InterestAgrees`), and a
  blocked flush may report success although nothing waits for write readiness (`Hazards.RefusedModifyStrands`).
- `Write` accepts an IP of any length, the encoders only 4 and 16 bytes (`Unsendable.SendableExactly`). On Linux one such
  datagram among the first 64 of the queue makes every flush fail with nothing sent, until Close
  (`Unsendable.StuckUntilClosed`, and `Unsendable.UnsendableRun` from a new endpoint).
- `hostToNetwork16` always swaps, which puts ports in network order on little-endian hosts only
  (`Addresses.PortOnTheWire`).
- The encoder releases a payload whose write was refused, and `endpoint.Write` releases what it refuses; the two fit
  together only on writes that succeed (`Codec.RefusedByEndpoint`).

## Model

| member | source | states |
|---|---|---|
| `Readiness.ReadyTame` | endpoint.go:87-118 | A readiness event on an open endpoint, with handlers that neither flush, read nor close, datagrams that can be sent, and no error of sends or poller: with data and auto-read exactly what is due is handed on and the handlers hear of each datagram, in order, and then ReadComplete if there was any, or the error that ended it and the end; with room the socket is given, in order, what it takes of the queue and of what handlers add meanwhile, the queue keeps exactly the rest, and either datagrams wait with write interest or the interest is withdrawn and the handlers hear FlushComplete; nothing else is told but the flag. |
| `Readiness.ReadyReads` | endpoint.go:107-111 | Whatever handlers do and whatever fails: a readable event with auto-read hands on the first arrivals up to the limit, all that are ahead of the first failure if the endpoint stays open and no buffer is refused; ReadComplete is told if there was any and nothing failed, a failure is told and closes the endpoint. |
| `Readiness.ReadyWrites` | endpoint.go:112-117 | Whatever handlers do: a writable event leaves the endpoint closed, or with datagrams and write interest, or it has emptied the queue, withdrawn the interest and told FlushComplete, unless a flush was nested. |
| `Readiness.ReadyEnds` | endpoint.go:98-106 | An error is told first and closes the endpoint; a hangup closes it, and the handlers hear only of a falling flag and of the end. |
| `Readiness.ReadyIdle` | endpoint.go:107-117 | Without room nothing is written, and without data, auto-read or allocator nothing is read. |
| `Readiness.TameFlush` | endpoint.go:372-394 | A call of Flush with such handlers and no socket error: sent and kept exactly as above; it fails if and only if the poller has to be asked and refuses (or is closed when asked to watch for room), and then FlushComplete is not told. |
| `Reading.ReadExactly` | endpoint.go:144-229 | A readiness-mode Read, whatever fails and whatever handlers do: a prefix of the arrivals is handed on, exactly what is ahead of the first failure up to max(1, MaxMessagesPerRead) if the endpoint stays open and no buffer is refused; then ReadComplete is told, exactly if something was handed on and nothing failed; a failure is told instead and closes the endpoint. |
| `Reading.TameRead` | endpoint.go:194-229 | With handlers that neither flush, read nor close, the complete list of what they hear: each datagram handed on, then ReadComplete if any, or the failure and the end. |
| `Announcements.AnnouncedOnce` | endpoint.go:294-300 | After every run the ChannelRead events told are, one for one and in order, the datagrams handed on: same buffer and bytes, the sender's IP, port and zone, and an envelope if and only if inbound datagrams are pooled. |
| `Announcements.EnvelopeReused` | datagram.go:38-54 | An inbound pooled datagram comes in a free envelope, which then is free no more, and in a new one only if none is free. |
| `Announcements.NamedLeadsBack` | address.go:105-149 | An address that names a sender leads back to it if and only if it is canonical, and otherwise to the IPv4 form of its first four or, mapped, last four bytes. |
| `Completions.ReadDelivers` | endpoint.go:277-286 | Data from a known sender on an open completion endpoint: exactly this datagram is handed on, the next thing the handlers hear is of it, in the submitted buffer and from its sender, and then ReadComplete. |
| `Completions.TameReadDelivers` | endpoint.go:277-286 | With handlers that neither flush, read nor close that is all they hear, unless a new read cannot be submitted. |
| `Completions.ReadDropped` | endpoint.go:280-282 | Without data or sender nothing is handed on or told, and exactly one reference of the buffer is given up, unless a new read fails and closes the endpoint. |
| `Completions.ReadFails` | endpoint.go:268-275 | A failed read is told, closes the endpoint and hands nothing on. |
| `Completions.ReadGoesOn` | endpoint.go:286-291 | After every read report, whatever handlers do: the endpoint is closed, not auto-reading, without an allocator, or has a read outstanding. |
| `Completions.ReadSubmits` | endpoint.go:325-347 | A completion-mode Read that reports no error leaves a read outstanding, if there is an allocator. |
| `Completions.WriteAdvances` | endpoint.go:302-323 | A successful write report takes the head off the queue; if it was the last, FlushComplete is told, and otherwise the next is submitted or the endpoint closed. |
| `Completions.WriteFails` | endpoint.go:307-311 | A failed write is told and closes the endpoint. |
| `Completions.CloseDoneCloses` | endpoint.go:255-264 | The poller's report that the descriptor is closed closes the endpoint. |
| `Acceptance.WriteExactly` | endpoint.go:120-132 | A write succeeds if and only if the endpoint is open and the message is a datagram with payload, IP and port, or a buffer for a known remote; that datagram, address and envelope included, is then the next in the order of acceptance; a failed write gives up each reference of the message once and does nothing else. |
| `Acceptance.HandlerEchoes` | endpoint.go:294-300 | A handler that writes back the datagram it is told of queues the received buffer for the sender's address, in the envelope it came in. |
| `Acceptance.EchoRun` | endpoint.go:277-286 | Over runs: after a read report to an echoing handler, and as long as the echo waits, it is queued as received, which is what `Ownership.EchoGoesBack` asks for. |
| `History.RunGrows` | endpoint.go:87-192 | No run takes back anything told, handed on, accepted, taken off the queue or sent. |
| `Delivery.ExactlyOnce` | endpoint.go:372-447 | In every run nothing is sent twice or out of order if and only if no batch was sent while earlier sends were still queued. |
| `Delivery.SentPrefix` | endpoint.go:372-447 | In these runs what was sent is a prefix of what Write accepted, and on an open endpoint sent plus the unsent part of the queue is everything accepted. |
| `Delivery.ReadinessDelivery` | endpoint.go:372-394 | Between calls, whatever the socket answered, errors included: without nested flushes (and, off Linux, half-failed batches) an open endpoint has sent exactly what it accepted and no longer queues. |
| `Submission.CompletionDelivery` | endpoint.go:302-370 | In every completion-mode run the submitted positions start at 0, never decrease and skip nothing, and each carries the datagram accepted there; one is repeated if and only if, at some step, a handler told of a failed write flushes and the poller accepts, and then the endpoint is closed. |
| `Submission.CompletionOpen` | endpoint.go:349-370 | While it is open, everything accepted has been submitted once and in order but for what is still queued, of which the head has been submitted exactly while its write is outstanding. |
| `Submission.RunSubmits` | endpoint.go:302-312 | Of one callback in which a write that failed is still at the head: the poller is given it again if and only if it accepts a flush of the handlers, before one of them closes. |
| `Hazards.FailingWriteRun` | endpoint.go:302-312 | A whole run from a new endpoint in which the handler told of a failed write flushes, and the poller is given the same datagram twice. |
| `Flushing.BatchesAreSimple` | endpoint.go:372-386 | If handlers neither flush, read nor close and write only datagrams that can be sent, and neither socket nor address causes an error: the send loop with batches of any size ends in the state, log included, and with the outcome of the loop that sends one datagram at a time, whatever handlers write meanwhile. |
| `Hazards.ClosingHandlerRun` | endpoint.go:380-382 | A run that shows why not for handlers that close: told in the first dequeue, such a handler makes the loop over batches send two datagrams and the one-at-a-time loop one. |
| `TameHandlers.RunCommutes` | endpoint.go:380-382 | It makes no difference to such handlers, nor to what they leave behind, whether datagrams at the head of the queue are marked as sent before or after they run. |
| `Flushing.SmoothFlush` | endpoint.go:372-394 | Under the same hypothesis a flush sends as much of the queue, and of what handlers add to it meanwhile, as the socket takes, in order, keeps exactly the rest, and ends drained if and only if nothing is left. |
| `Flushing.SendBatchIs` | io_batch_fallback.go:13-24 | Without errors the portable loop and the Linux writer have the same result for every batch and every sequence of socket answers. |
| `Hazards.ResendsExactly` | endpoint.go:374-386 | If handlers neither flush, read nor close, a flush sends something again if and only if the head of the queue is in flight from before and the socket takes something of the first batch. |
| `Hazards.NestedFlushRun` | endpoint.go:380-382 | A whole run from a new endpoint in which a handler's flush inside a flush makes the second datagram go out twice. |
| `Hazards.NestedFlushResends` | endpoint.go:380-382 | The same from every state with at least two datagrams, all of which can be sent, whose first dequeue raises the writable flag, if the handlers flush first when told and the socket takes the first batch and one datagram more; whatever handlers and socket do after that. |
| `Hazards.PartialFailureRun` | io_batch_fallback.go:13-24 | A whole run off Linux in which an error behind the first datagram leads to a second transmission. |
| `Hazards.PartialFailureResends` | io_batch_fallback.go:13-24 | From every state with nothing in flight: a send that fails after sending something is reported, leaves the queue as it was and the sent part in flight; with handlers that neither flush, read nor close the next flush sends it again if and only if the socket takes something. |
| `Hazards.RefusedModifyStrands` | endpoint.go:506-512 | From every open state without write interest: a flush of which the socket takes nothing and whose Modify is refused reports it; while the socket takes nothing the next flush reports success and the poller still does not watch for write readiness. |
| `Unsendable.SendableExactly` | io_linux.go:85-108 | A datagram can be sent if and only if its address is valid and its IP has 4 or 16 bytes; `Write` looks at the first only. |
| `Unsendable.FirstSendFails` | io_batch_linux.go:53-59 | On Linux the first send of a flush reports an invalid address if and only if one of the first 64 queued datagrams cannot be sent, and then sends nothing. |
| `Unsendable.StuckUntilClosed` | endpoint.go:120-142 | After a run that leaves such a datagram there, nothing is sent any more over all further runs, and every flush fails with that error until the endpoint is closed. |
| `Unsendable.UnsendableRun` | endpoint.go:120-132 | From a new endpoint: a write to an IP of five bytes is accepted, and no run sends anything after it. |
| `Lifecycle.CloseIsComplete` | endpoint.go:178-192 | After every run the descriptor and the allocator have been closed and the pipeline told, once each if the endpoint is closed and never otherwise; a closed endpoint has no datagram, byte or entry, a lowered flag, and no reference but those of handlers and poller. |
| `Lifecycle.CloseExact` | endpoint.go:178-192 | One Close, whatever handlers do: the pipeline hears of a raised flag falling and then of the end and nothing else, the queue is released in order, nothing is queued, sent or handed on, an error is returned if and only if closing descriptor or allocator failed, and a second Close does nothing. |
| `Lifecycle.ClosedCalls` | endpoint.go:134-182 | A closed endpoint refuses Flush and Read, accepts Close, and changes nothing. |
| `Lifecycle.ClosedForever` | endpoint.go:87-132 | From a closed endpoint no run changes anything: nothing is queued, sent, handed on, told or submitted any more, and it stays closed. |
| `Lifecycle.LateReport` | endpoint.go:566-573 | A write report after Close releases the poller's reference, which is still there, once, and touches no other count. |
| `Lifecycle.LateReadReport` | endpoint.go:566-573 | So does a read report after Close; its data are handed to nobody. |
| `Lifecycle.InterestAgrees` | endpoint.go:506-520 | Between calls write interest of an open endpoint implies waiting datagrams (without nested flushes), and poller and flag agree if and only if an even number of Modify calls has failed since one succeeded. |
| `Lifecycle.FlushSettlesInterest` | endpoint.go:372-394 | A readiness flush without error (and without nested ones) leaves the endpoint closed, or with datagrams and write interest, or it has emptied the queue, withdrawn its interest, told FlushComplete and ended with what the handlers told of that made of exactly this state. |
| `Lifecycle.InterestExact` | endpoint.go:387-394 | If these handlers do nothing, write interest stands if and only if datagrams remain. |
| `Lifecycle.OneOfEach` | endpoint.go:325-370 | In completion mode at most one read and one write are outstanding; on an open endpoint the flags hold exactly while they are, and the write carries the payload and address of the current head. |
| `Lifecycle.FlushMakesProgress` | endpoint.go:349-370 | A completion flush without error leaves the endpoint closed, empty or with a write outstanding. |
| `Lifecycle.CompletionMakesProgress` | endpoint.go:302-323 | A handled write completion leaves the endpoint closed, empty or with a write outstanding, or its datagram was the last and it ends with what the handlers told of that made of the state without it. |
| `Lifecycle.CompletionProgressExact` | endpoint.go:302-323 | If these handlers do nothing, it leaves the endpoint closed, empty or with a write outstanding. |
| `Backpressure.FlagIsHysteresis` | endpoint.go:477-492 | The writable flag of an open endpoint is the hysteresis of the history of its byte level: down exactly if the last level outside the open interval between the watermarks was high; writable implies below high, unwritable above low. |
| `Backpressure.NotificationsAlternate` | endpoint.go:477-504 | Over every run, Close included, the flag falls and rises in turns, the pipeline is told exactly these changes in their order, and the flag is the last one. |
| `Backpressure.FlipBound` | endpoint.go:477-492 | The n-th fall of an open endpoint's flag needs high + (n - 1) * (high - low) bytes queued in all. |
| `Accounting.RunCounted` | endpoint.go:417-475 | After every run `outboundBytes` is the sum of the queued sizes; until Close queued plus free entries are the longest queue ever, which is the number of entries ever allocated; after it all are gone. |
| `Accounting.PoppedCounted` | endpoint.go:441-443 | A dequeue subtracts exactly the size of its datagram: the correction to zero is never taken. |
| `References.RunConserved` | endpoint.go:87-192 | After every run every reference count is the number of holders: handlers, queue entries and outstanding operations; an envelope is referenced once, or free once, or neither. |
| `Ownership.OutstandingAlive` | endpoint.go:266-281 | In every run the buffers of outstanding operations have not been freed, Close or not. |
| `Ownership.QueuedEnvelope` | datagram.go:38-62 | The envelope of a queued datagram has that one reference, is in no other entry and with no handler, is not in the pool and is not what the pool hands out next. |
| `Ownership.QueuedAddressKept` | datagram.go:38-62 | In every run, however long a datagram waits in the endpoint's queue: since it was queued its envelope has not been handed out again, so the memory its address lies in reads what it read then. |
| `Ownership.KeptInvariant` | endpoint.go:372-386 | This holds at every point of every operation, so also whenever a batch is sent or a write submitted. |
| `Ownership.EchoGoesBack` | endpoint.go:294-300 | A datagram queued as it was received (`Acceptance.EchoRun` says when): the memory under its address still reads that address, which leads back to the source if and only if that is canonical. |
| `Resting.RunAtRest` | endpoint.go:178-253 | Between calls no running operation holds a reference, no flush or dispatch is half done, and Close is done completely or not at all. |
| `Runs.RunPreserves` | endpoint.go:87-192 | Whatever every atom keeps holds after every sequence of calls, events and outside changes, for all handlers. |
| `Preservation.RunHandlerPreserves` | endpoint.go:500-535 | The same for every callback: handlers that call back into the endpoint, at any depth, see and leave only such states. |
| `Frames.ReactFramed` | endpoint.go:120-192 | Nothing a handler calls, at any depth, leaves a reference in hand, undoes or half does Close, or sends or removes what a send loop around it counts on (unless a flush was nested). |
| `Frames.CloseFramed` | endpoint.go:178-192 | Close ends closed and, from an open endpoint, with everything closed, released and told once, whatever the handlers it tells do. |
| `Frames.DispatchFramed` | endpoint.go:204-216 | Of a received batch a prefix is handed on, all of it if the endpoint stays open, and each reference of the batch is handed on or released once. |
| `Receiving.ReceiveHand` | endpoint.go:231-244 | On every exit of a receive (no buffer, nothing pending, error, bad address, short or full batch) the references left in hand are one for each returned message. |
| `Reception.ReceiversAgree` | io_receive_batch_linux.go:24-102 | Without failures both batch receivers return the first min(pending, limit, 64) datagrams with their senders, and report drained if and only if pending < min(limit, 64). |
| `Reception.InboundReceives` | endpoint.go:231-244 | With any failures, each receiver returns a prefix of the arrivals, says why if there was room for more, stops short of the first failure of socket or address only if a buffer is refused, and does not do so without reporting an error. |
| `Reception.OpenedExact` | io_receive_batch.go:15-34 | Handlers see as much of a datagram as fits into the buffer, all of it if it fits, and its sender. |
| `Reception.ReadLoopExact` | endpoint.go:194-229 | Whatever fails, the rounds of the read loop hand on a prefix of the arrivals, in order and once; if the endpoint stays open and no buffer is refused, exactly the datagrams ahead of the first failure, up to the limit, and an error is reported only when that failure has been reached; then the pipeline is told and the endpoint closed. |
| `Reception.FairReadExact` | endpoint.go:194-229 | Without failures of allocator, socket and addresses the loop hands on exactly the first min(pending, limit) datagrams and leaves the rest, unless a handler closes the endpoint on the way. |
| `Addresses.EncodingsAgree` | io_linux.go:85-137 | Both encoders reject the same addresses, and decoding the raw form gives the other's result. |
| `Addresses.DecodingExact` | io_linux.go:110-137 | Every sender the kernel can report is decoded to its family, IP, port and scope, mapped ones included; other families and short lengths are errors. |
| `Addresses.ZoneExact` | address.go:92-103 | A zone is a number, or the index of a named interface, or 0. |
| `Addresses.SocketAddressRoundTrip` | address.go:105-149 | Decoding and encoding again is the identity if and only if the socket address is zero-padded zone-free IPv4 or IPv6 that is not IPv4-mapped; any other goes to zero-padded IPv4 with its first four or, mapped, last four bytes (section 2.5.5.2 of RFC 4291). |
| `Addresses.AddressRoundTrip` | address.go:105-149 | Encoding and decoding an address keeps port and IP up to IP equality, and encodes the same again. |
| `Addresses.PortOnTheWire` | io_linux.go:139-141 | The stored port lies in network order in memory if and only if the host is little-endian or the two bytes are equal. |
| `Addresses.SwapBytesInvolution` | io_linux.go:139-145 | The two byte-order functions undo each other on every port. |
| `Decimal.PrintThenParse` | address.go:92-98 | A printed number is read back by the zone parser and by the port parser. |
| `AddressText.JoinThenSplit` | address.go:27-36 | A host without brackets and a port without colons or brackets are recovered from the joined text. |
| `AddressText.ParsedRoundTrip` | address.go:50-86 | Parsing the text of a parsed address gives the same host, port, zone and family and an equal IP, exactly the same value if and only if the IP is not the 16-byte zero of an empty host, and the same again the next time. |
| `AddressText.AddressTextRoundTrip` | address.go:27-78 | The text of an address parses if and only if it has no IP, an IPv4 one, or one of 16 bytes and a zone without brackets and percent signs; then port and IP come back, up to IP equality and with no IP read as the IPv4 zero, and the zone exactly for IPv6. |
| `AddressText.SourceText` | address.go:105-149 | A canonical source address survives being printed, parsed and encoded again. |
| `BatchIO.DatagramBatchWriter.Prepare` | io_batch_linux.go:86-101 | Behind descriptor `i` the kernel finds exactly the datagram, whatever earlier sends left there; an address that cannot be encoded is reported; other descriptors stay. |
| `BatchIO.DatagramBatchWriter.SendLinux` | io_batch_linux.go:39-84 | Of the first 64 datagrams every address is encoded before anything is offered, the kernel finds exactly these datagrams behind the descriptors, and count, would-block and error are those of the socket. |
| `BatchIO.DatagramBatchWriter.SendFallback` | io_batch_fallback.go:13-24 | One datagram at a time up to the first error or refusal, whose index is the count. |
| `BatchIO.DatagramBatchReader.Prepare` | io_receive_batch_linux.go:63-82 | A buffer and a reset descriptor for each slot, or no buffer at all and the acquired ones released. |
| `BatchIO.DatagramBatchReader.Unpack` | io_receive_batch_linux.go:84-102 | Message `i` takes buffer `i`, cut to its length; from a bad address on all buffers are released; no slot keeps one. |
| `BatchIO.DatagramBatchReader.ReleaseBuffers` | io_receive_batch_linux.go:104-111 | Releases each buffer of the range once and empties the slots. |
| `BatchIO.DatagramBatchReader.ResetDescriptors` | io_receive_batch_linux.go:113-119 | Clears the pointers of the first descriptors. |
| `BatchIO.DatagramBatchReader.ReceiveLinux` | io_receive_batch_linux.go:24-61 | On every exit the returned prefix, the drained flag, the error and the counts are those of the specification, all buffer slots are empty, the other message slots are as they were, and past `prepare` the used descriptors are cleared. |
| `BatchIO.DatagramBatchReader.ReceiveFallback` | io_receive_batch_fallback.go:14-40 | The same for the portable loop. |
| `BatchIO.ReceiveOne` | io_receive_batch.go:15-34 | One datagram with its buffer, or the buffer released. |
| `OutboundQueue.OutboundQueue.AcquireEntry` | endpoint.go:449-458 | Takes the head of the free list, or allocates exactly if it is empty; the entry is in neither list and the queue unchanged. |
| `OutboundQueue.OutboundQueue.ReleaseEntry` | endpoint.go:460-464 | The emptied entry heads the free list; the queue is unchanged. |
| `OutboundQueue.OutboundQueue.Append` | endpoint.go:417-430 | The datagram is appended; both lists stay acyclic, end where the fields say and share no entry. |
| `OutboundQueue.OutboundQueue.Unlink` | endpoint.go:432-440 | The head leaves the list, the tail follows when it was the last, and the rest is the queue. |
| `OutboundQueue.OutboundQueue.CopyBatch` | endpoint.go:406-415 | Copies the first min(room, length) datagrams of the queue and changes nothing else. |
| `OutboundQueue.OutboundQueue.FreeEntries` | endpoint.go:470-474 | Gives up the free list; the queue is unchanged. |
| `Endpoint.Endpoint.constructor` | endpoint.go:12-48 | A new endpoint is in the initial state, with empty lists and slots. |
| `Endpoint.Endpoint.CloseWritability` | endpoint.go:494-498 | In place what `EndpointSpec.CloseWritability` says, handlers included. |
| `Endpoint.Endpoint.UpdateWritability` | endpoint.go:477-492 | In place what `EndpointSpec.UpdateWritability` says: at most one flip, then the handlers. |
| `Endpoint.Endpoint.Enqueue` | endpoint.go:417-430 | Appends, counts and takes over the references, then settles the flag. |
| `Endpoint.Endpoint.Dequeue` | endpoint.go:432-447 | Removes the head, uncounts it, releases its references, which are there, and frees its entry, then settles the flag. |
| `Endpoint.Endpoint.ReleaseOutbound` | endpoint.go:466-475 | Both loops end, with both lists empty and every datagram released. |
| `Endpoint.Endpoint.Write` | endpoint.go:120-132 | Queues the datagram, or releases the message once and returns the error. |
| `Endpoint.Endpoint.Flush` | endpoint.go:134-142 | Dispatches on closed and mode to the operation of that mode. |
| `Endpoint.Endpoint.Read` | endpoint.go:144-153 | Likewise for reading. |
| `Endpoint.Endpoint.Close` | endpoint.go:178-192 | Only the first call acts: flag, queue, descriptor, allocator and notification in this order, whatever the handlers do in between. |
| `Endpoint.Endpoint.FireInactiveOnce` | endpoint.go:528-535 | Tells the pipeline at most once. |
| `Endpoint.Endpoint.EnableWriteInterest` | endpoint.go:506-512 | Raises the flag, asks the poller, and returns its error. |
| `Endpoint.Endpoint.DisableWriteInterest` | endpoint.go:514-520 | Lowers the flag and asks the poller; an error for being closed is dropped. |
| `Endpoint.Endpoint.SendOutboundBatch` | endpoint.go:396-404 | The result of the platform's batch send. |
| `Endpoint.Endpoint.DequeueSent` | endpoint.go:380-382 | As many dequeues as datagrams were sent, although handlers run in each. |
| `Endpoint.Endpoint.RunFlushLoop` | endpoint.go:374-386 | The loop over batches of 64 ends, in the state and for the reason the specification gives. |
| `Endpoint.Endpoint.FlushOutbound` | endpoint.go:372-394 | The whole flush, with write interest and the flush notification. |
| `Endpoint.Endpoint.ReceiveInbound` | endpoint.go:231-244 | The received messages are the first slots of one of the two arrays; every other slot is empty. |
| `Endpoint.Endpoint.ReleaseReceived` | endpoint.go:246-253 | Releases each remaining message once and empties its slot. |
| `Endpoint.Endpoint.Dispatch` | endpoint.go:206-215 | Each message leaves its slot before handlers see it, handlers do not disturb the slots still to come, the rest is released once the endpoint is closed, and all slots end empty. |
| `Endpoint.Endpoint.RunReadLoop` | endpoint.go:198-225 | The loop over batches ends, with the state, the read flag and the failure the specification gives. |
| `Endpoint.Endpoint.ReadReady` | endpoint.go:194-229 | The whole of a readiness read. |
| `Endpoint.Endpoint.FireChannelRead` | endpoint.go:294-300 | Buffer and, if pooled, envelope pass to the handlers with the decoded sender. |
| `Endpoint.Endpoint.SubmitWriteCompletion` | endpoint.go:349-370 | Submits the head unless closed, busy or empty; the flag is down again if the poller refuses. |
| `Endpoint.Endpoint.SubmitReadCompletion` | endpoint.go:325-347 | Submits a new buffer and gives up its own reference on both answers. |
| `Endpoint.Endpoint.HandleWriteCompletion` | endpoint.go:302-323 | Releases the report's buffer, dequeues what was written, and submits the next or tells that all is flushed; errors close. |
| `Endpoint.Endpoint.HandleReadCompletion` | endpoint.go:266-292 | Hands on or releases the report's buffer and reads again if open; errors close. |
| `Endpoint.Endpoint.HandleEvent` | endpoint.go:87-118 | Every event in every state, closed ones included. |
| `Endpoint.Drive` | endpoint.go:87-192 | A new object driven through any steps is in the state of that run, so the theorems about runs hold of it. |
| `DatagramPool.Clone` | address.go:18-21 | The copy reads the same and has memory of its own. |
| `DatagramPool.Store` | address.go:131-149 | The address is decoded into the given array and aliases it. |
| `DatagramPool.DatagramPool.AcquireSocketAddress` | datagram.go:38-54 | The envelope was free or is new, now holds payload and address, and no live envelope is touched. |
| `DatagramPool.DatagramPool.Put` | datagram.go:56-62 | A live envelope becomes free, once, and is cleared. |
| `DatagramPool.ReleaseValue` | datagram.go:21-28 | Releasing a copy returns the envelope it was copied from. |
| `DatagramPool.ReleasePointer` | datagram.go:21-28 | A second release through the pointer changes nothing. |
| `DatagramPool.LiveAddress` | datagram.go:50-54 | Every copy of a live datagram reads the address it was received from; a live envelope is not in the pool. |
| `DatagramPool.Churn` | datagram.go:38-62 | Whatever others acquire and release and whatever the pool forgets, live envelopes stay live with what they were handed out with. |
| `DatagramPool.Echo` | endpoint.go:294-300 | On the heap: a copy that waits while the pool is in use is sent to exactly where the datagram came from, for canonical sources and only for these; of the endpoint's queue `Ownership.EchoGoesBack` says so. |
| `DatagramPool.Forward` | codec.go:51-58 | A cloned address survives its datagram's release and any later use of the pool. |
| `DatagramPool.Stale` | codec.go:51-58 | An address that is not cloned reads the next datagram's IP. |
| `Codec.MessageToDatagramEncoder.Write` | codec.go:105-151 | In each case what is written, released and still held: of an encoded list a prefix is sent in order to the message's address and exactly the rest is released, after the message itself. |
| `Codec.MessageToDatagramEncoder.SendAll` | codec.go:132-150 | The two inner release loops and the outer loop split the list at the first message that is not a buffer or is refused. |
| `Codec.SendListMeaning` | codec.go:132-148 | Every sent message is a buffer whose write was accepted; the first unsent one is not a buffer, or was refused with the returned error. |
| `Codec.DatagramToMessageDecoder.ChannelRead` | codec.go:34-68 | In each case what is forwarded, released and reported: an accepted datagram is released once and its messages are all forwarded in order with its address, which they still read after any use of the pool, or all released on an error. |
| `Codec.DatagramToMessageDecoder.ForwardAll` | codec.go:64-67 | The forwarding loop, with handlers that use the pool between messages. |
| `Codec.RefusedByEndpoint` | endpoint.go:120-132 | Over an endpoint a write is refused if and only if it is closed or the address invalid, and the refused payload's only reference is then gone. |

## Left out

- Threads: an endpoint is driven by one event loop; the compare-and-swap of the closed and inactive flags is a test and an assignment.
- System calls: a send, receive, Submit, Modify or Acquire is an answer from a list; retries after EINTR and buffers kept alive are not modelled.
- Kernel contract: a datagram never fills a buffer beyond its end, so the error branch of `AdvanceWriter` does not occur.
- Handlers do not call `Read` while a readiness-mode batch is being dispatched; the model skips such an action, as `readReady` relies on its slots staying put.
- The flag `reading` of the endpoint class marks such a dispatch; the source has no such field.
- `DatagramPool.Echo`: the waiting queue is a variable of the method; the endpoint's own pool is a list of envelope names in `World`, and what its envelopes read is `Ownership.LastSender`.
- `Endpoint.Endpoint.HandleEvent`: takes the events of the endpoint's own poller model, and completion reports that carry the buffer that was submitted, in the order of submission; `HandleEvent` of the source would also look at others, which its pollers do not deliver.
- Close errors: whether closing the descriptor or the allocator fails is fixed per endpoint.
- Lazily created batch readers and writers: they are created with the endpoint, and every batch goes through them, also one of a single datagram.
- Integer width of `outboundBytes`: the counter is unbounded, as it is the sum of the sizes of what is in memory.
- Watermark normalisation: watermarks with 0 <= low < high are assumed where a result needs them.
- Interface lookup by name is a table; SocketAddress.Valid is taken to mean that the family is known.
- The message list, message release and buffers of other packages are modelled by the references they own; the pool behind `sync.Pool` may return any free envelope, or none, and forget any.
- `DatagramPool.ReleaseValue`: requires the envelope of the value to be live; a second release of the same value, which `datagramPool.release` does not look for, would put one envelope into the pool twice.
- Re-entrant use of the codecs: their shared list is in use by one call at a time.
- IP text: printing and parsing of IPs is a parameter that is assumed to be faithful; `AddressText.FaithfulPossible` shows that the assumption can be met. The text of a negative port is not modelled.
- `Endpoint.Endpoint.Read`: requires that no readiness batch is being dispatched, as handlers do not do that here.
- Registration callbacks, interest masks other than write readiness, options, servers, clients, reuse of ports and the sockets of other platforms: easy control flow or platform plumbing.
