# vtel transport: a verified model

vtel carries many TCP streams over an unreliable, rate-limited message channel. This project
models the Go core of that transport in Dafny and proves what it is for: that a stream comes
out as it went in, that nothing is lost or stuck inside the batcher, that resources are handed
back, that the send rate is bounded, and exactly where each of these guarantees ends.

Check the whole project with `dafny verify dfyconfig.toml`.

## The main results

* **End to end** (`EndToEnd.PrefixSafety`, `EndToEndComplete.CompleteExact`). Many conns, any number of
  concurrent senders, the batcher's interleavings, compression and sealing, a channel that drops,
  duplicates and reorders batches, the receive loop and ordered delivery are one state machine,
  for one direction of one link. In every run within the limits what a receiving conn enqueued
  before it closed is a prefix of what was given to `SendData` under its ID; and it is all of it
  exactly when no number met a full buffer on every arrival. The limits are a separate predicate,
  `WithinLimits`. One of them is not a matter of course: a sending server registers a conn
  whenever it handles a CONNECT, and the other direction can repeat a CONNECT.
  `EndToEndLimits.RepeatedConnectExact` shows that this does harm exactly if data has been sent under
  the ID and the client's conn is still open.
* **Ordered delivery** (`Delivery`, `Mux`). Safety, completeness as an if-and-only-if and within the
  window, independence of arrival order and duplicates, and a run showing that 256 is exact.
* **The batcher** (`Batcher*`, `Splitter`, `SendGate`, `Retry`). An interleaved step system: FIFO
  conservation, no stranded batch, byte bounds under interleaving that are proved and reached,
  exactly what Stop promises, the two-slot gate, the splitter and the nested retries.
* **Wire formats** (`Frames`, `ConnectPayloads`, `Base64`, `Naming`, `Poller`). Codecs characterised
  in both directions, truncation and splitting decided exactly, and a poll round that hands on
  the peer's batches in numeric order out of whatever else was posted.
* **Links and resources** (`Connect`, `LinkChoice`, `DnsCache`, `RateLimiter`, `PollCursor`).

Where a promise turned out false of the code, the code is kept as it is, and the exact condition
under which it holds is proved together with the failure, from every state or for every input it
concerns: `EndToEndLimits.RepeatedConnectExact`, `UnregisteredSendExact` and
`UnregisteredSendToServerExact`,
`BatcherStop.StopGuaranteeExact`, `BatcherBudgetTight.QueueWithinBudgetExact`,
`SendGate.UrgentServedExact` and `WaiterProceedsExact`, `Connect.AckReachesExact`,
`Frames.SplitKeepsFramesExact`, `Naming.KeyOrderExact`, `PollCursor.ProcessedExact`,
`DnsCache.TtlKeptExact`, `Delivery.CompleteExact`, `LinkChoice.CooldownBackExact`.

## How the model is built

* Code that updates one object is a class with methods (`Mux.Conn`, `Mux.Mux`, `Frames.Reader`,
  `BatcherObject.Buffer`, `BatcherObject.Counters`, `RateLimiter.Limiter`, `LinkChoice.Health`,
  `DnsCache.Cache`, `PollCursor.Inbox`, `Poller.Poller`); each method is tied to a function on
  values, and the laws are proved about that function.
* Code whose difficulty is interleaving is a state machine: `Enabled` and `Apply` over events,
  `Exec` over any list of events. A step is one critical section or one atomic operation on the
  state that is modelled (Flush's two counter updates are one step). Every theorem with `Exec` or
  `Reaches` in its precondition holds in every reachable state, for every number of goroutines.
* What a machine records of its own history is tied to the run: what was sent, what arrived, what
  was written, acknowledged or answered is also defined from the events alone, and proved equal
  (`EndToEndComplete`, `BatcherRun`, `Connect.OutcomeExact`, `DnsCache.LogIsRun`). Formats are also
  stated in plain arithmetic on bytes, apart from the functions that read and write them.
* Randomness, clocks, sockets and the network are parameters: jitter is any value within 15
  percent, a blocking select is an outcome, the API is a stream of replies, the clock only moves
  forward. zstd and AES-GCM are arbitrary functions of which only "decode undoes encode" and
  "open undoes seal" is known (`Envelope.Sound`). Floating point is `real`.

## Model

| member | source | states |
|---|---|---|
| EndToEnd.PrefixSafety | tunnel/mux.go:230-294 | in every run within the limits, over any interleaving and any drop, repeat or reorder of the batches of this direction, what every receiving conn enqueued before it closed is a prefix of what was given to SendData under its ID, by payloads and by bytes |
| EndToEnd.OneRegistrationPerId | tunnel/mux.go:149-156 | of registrations, by NewConn or by a handled CONNECT, prefix safety needs no more than that each ID is registered at most once |
| EndToEndComplete.PrefixOfSent | tunnel/mux.go:230-294 | prefix safety told from the run: what came out of a conn before it closed is a prefix of the payloads of the SendData events under its ID |
| EndToEndComplete.ConnIsDelivery | tunnel/mux.go:230-270 | in every run within the limits every receiving conn is exactly the ordered delivery of Delivery applied to the DATA frames that stood at the head of the queue at Handle events for it; its stream, until it closes, is what that hands over |
| EndToEndComplete.CompleteExact | tunnel/mux.go:230-257 | a conn that no event closed has a prefix of what was sent, and at least the first n payloads if and only if every number below n arrived at it, as the run shows, without meeting a full buffer |
| EndToEndComplete.CompleteWhenArrived | tunnel/client.go:134-154 | if every payload sent arrived at a conn that no event closed, none more than 256 ahead, and nothing is in hand, then what came out is what was sent |
| EndToEndComplete.ClosedExact | tunnel/mux.go:187-222 | a conn is closed if and only if a CLOSE or RESET for it was handled, its hand-over stalled, or it was closed locally |
| EndToEndComplete.HandleExact | tunnel/mux.go:187-222 | one handled frame moves its registered conn by exactly one Deliver step if it is DATA, closes it if it is CLOSE or RESET, and changes no other conn |
| EndToEndComplete.HandOverExact | tunnel/mux.go:259-270 | one select of the hand-over puts the first payload in hand on the channel, or drops the rest, closing the conn on a stall; nothing else changes |
| EndToEndComplete.GivenIsSent | tunnel/mux.go:280-294 | the payloads given under an ID are those of the SendData events of the run |
| EndToEndComplete.NumberIsRun | tunnel/mux.go:57-59 | a conn is registered, and its next number is how many payloads were sent since, exactly as the registrations, removals and sends of the run say |
| EndToEndComplete.SendReachesBatcher | tunnel/mux.go:280-294 | SendData hands the batcher one DATA frame with the payload, numbered by how many were sent before, and touches nothing else |
| EndToEndComplete.ControlReachesBatcher | tunnel/mux.go:300-317 | a control frame goes to the batcher as it is, urgent, and nothing else changes |
| EndToEndComplete.FetchBringsBatch | tunnel/client.go:134-154 | a batch posted whole and then fetched puts exactly its frames in the receive loop's hands |
| EndToEndComplete.FetchedExact | protocol/batch.go:685-701 | frames come out of a message if and only if it opens and decompresses to exactly those frames marshalled |
| EndToEnd.StepInv | tunnel/client.go:134-154 | every step of sender, batcher, channel and receiver keeps the system invariant: each travelling data frame carries the payload given under its number |
| EndToEnd.PostedDecodes | protocol/batch.go:685-701 | whatever is on the channel decodes to exactly one batch's contiguous block of the frames written |
| EndToEndLimits.RepeatedConnectExact | tunnel/server.go:74-83 | server sending to client: at every quiet state, over all runs that go on within the limits and in which the client makes no new conn under the ID, handling a CONNECT keeps prefix safety if and only if no data has been sent under its ID or the client has no open conn under it |
| EndToEndLimits.RepeatedConnectLeavesGap | tunnel/server.go:74-83 | for every ID and payloads: a CONNECT repeated after the first of three payloads makes the peer get the first and the third |
| EndToEndLimits.ReusedIdLeaks | tunnel/mux.go:128-145 | if NewConn draws an ID again: from every quiet state in which an old batch on the channel carries the old conn's first data, with no CLOSE or RESET of it before, that data comes out on the conn paired with the new one, on which nothing was sent |
| EndToEndLimits.UnregisteredSendExact | tunnel/mux.go:280-294 | at every quiet state, over all runs that go on within the limits and in which the receiver makes no new conn under the ID, a send on an unregistered conn, which is numbered 0, keeps prefix safety if and only if its payload is the first one sent under the ID or equal to it, or no open conn under the ID still expects number 0 |
| EndToEndLimits.UnregisteredSendToServerExact | tunnel/mux.go:149-156 | client sending to server, where a repeated CONNECT registers a new conn: then it does so if and only if its payload is the first one sent under the ID or equal to it |
| Delivery.DeliverAgrees | tunnel/mux.go:230-257 | one arrival hands over exactly the payloads between the old and the new expected number, in order, and keeps buffer and sender in agreement |
| Delivery.HandedOverInOrder | tunnel/mux.go:230-257 | for any arrivals, with losses, repeats and reordering, the payloads handed over are exactly the prefix below the expected number |
| Delivery.BufferNeverRefuses | tunnel/mux.go:237-240 | pigeonhole: a needed frame at most 256 ahead never meets a full buffer, unless it is already in it |
| Delivery.CompleteExact | tunnel/mux.go:230-257 | for any arrivals the first n payloads have been handed over in order if and only if every number below n arrived at least once without meeting a full buffer |
| Delivery.WindowAcceptsAll | tunnel/mux.go:237-240 | if every arrival is at most 256 ahead, none is refused |
| Delivery.CompleteWithinWindow | tunnel/mux.go:230-257 | if every number below n arrives at least once, each at most 256 ahead, the first n payloads have all been handed over in order |
| Delivery.ArrivalOrderIrrelevant | tunnel/mux.go:230-257 | two arrival orders of the same numbers, duplicates included, end in the same state with the same stream |
| Delivery.WindowIsTight | tunnel/mux.go:15-18 | one step outside the window a frame that arrived is lost, so 256 is exact |
| Mux.Conn.NextSendSeq | tunnel/mux.go:57-59 | numbers are handed out one after another from the old counter, modulo 2^32 |
| Mux.Conn.ClassifyDataUrgency | tunnel/mux.go:65-74 | a frame is urgent just when all data classified before it came to at most 512 KiB, for ever after not |
| Mux.Conn.TakeInOrder | tunnel/mux.go:230-257 | the in-place critical section with its drain loop computes the Deliver step |
| Mux.Conn.HandOver | tunnel/mux.go:259-270 | the channel grows by exactly the payloads before the first select that is not a send, and the conn is then closed |
| Mux.Mux.RegisterConn | tunnel/mux.go:149-156 | a new conn in its initial state replaces whatever had the ID; no other conn changes |
| Mux.Mux.RemoveConn | tunnel/mux.go:176-184 | the conn is closed and gone; no other conn changes |
| Mux.Mux.SendData | tunnel/mux.go:280-294 | the frame carries the conn's next number and its urgency, or number 0 on an unregistered conn; the receive side is untouched |
| Mux.Mux.HandleFrame | tunnel/mux.go:187-222 | a DATA frame moves its conn by one Deliver step and nothing else; CLOSE and RESET close it; CONNECT and ACK reach only the right side; unknown conns drop |
| Mux.Mux.RelaySend | tunnel/mux.go:373-403 | the admitted chunks travel under consecutive numbers without a gap, urgent for the first 512 KiB; the first refusal ends the stream with an urgent RESET, the end of input with an urgent CLOSE, and both remove the conn |
| BatcherFifo.StepInv | protocol/batch.go:312-358 | every step of adders, flush loop and senders keeps the FIFO and accounting invariant |
| BatcherFifo.FifoConservation | protocol/batch.go:489-517 | in every reachable state the batches taken, in take order, followed by the buffer are the marshalled frames in write order; the in-flight counter is the exact sum over accounted unfinished batches; batch numbers follow take order |
| BatcherFifo.TakenExact | protocol/batch.go:489-505 | a written frame is in exactly one taken batch if and only if a flush has passed it |
| BatcherFifo.BatchDecodes | protocol/batch.go:685-701 | every taken batch decodes to its own block of the written frames |
| BatcherFifo.StopFlushesEverythingWritten | protocol/batch.go:669-672 | once Stop has returned, every frame written before it was called is in exactly one taken batch |
| BatcherStop.StopGuaranteeExact | protocol/batch.go:669-672 | right after the call of Stop, with an Add call past the budget check, a frame is in a taken batch in every run that reaches the end if and only if it was written before the call |
| BatcherStop.AdmittedButStranded | protocol/batch.go:455-460 | from every reachable state with Stop called and an adder past the budget check there is a run to the end in which that frame is written but, in whatever follows, never taken |
| BatcherStop.StoppedIsFinal | protocol/batch.go:455-460 | once the loop has stopped, no event takes anything out of the buffer |
| BatcherWakeup.NoStrandedBatch | protocol/batch.go:393-463 | in every reachable state a flush loop about to block on a non-empty buffer has a token waiting, an adder about to signal, or both timers armed: the max timer at exactly this batch's start plus its delay, the idle timer at its last write plus the idle delay |
| BatcherWakeup.WakeTakesBatch | protocol/batch.go:442-461 | after a wake by the max timer, the idle timer, the flush token or Stop, in every run the loop is back at its select, or at its end, only with all that was in the buffer in the next batch |
| BatcherWakeup.OverdueBatchCanGo | protocol/batch.go:393-463 | from every reachable state in which the loop is blocked on an overdue batch there is a run, in which no time passes and nothing is added, that takes it whole |
| BatcherWakeup.IdleBatchIsDue | protocol/batch.go:430-434 | a batch nobody has added to for the idle delay has its wake enabled or a signal on the way |
| BatcherWakeup.FullBufferIsFlushed | protocol/batch.go:342-350 | in every reachable state a buffer of 48 MiB or more has a flush token, an adder about to send one, or a flush begun |
| BatcherRun.HistoryIsRun | protocol/batch.go:312-340 | in every run the frames written are those of the Add calls that reached their write, in that order; the batch being filled has the start and the delay of its first write, within 15 percent, and the time of its last |
| BatcherRun.CallsBalance | protocol/batch.go:312-358 | in every run each Add call ends in exactly one write or one refusal, and each write in exactly one signal |
| BatcherRun.RefusedOnlyWhenFull | protocol/batch.go:363-377 | an Add call that finds room is never refused |
| BatcherRun.MarkIsRun | protocol/batch.go:669-672 | the frames that Stop must flush are those of the writes before its call |
| BatcherWakeup.NeverBlockedPastDeadline | protocol/batch.go:426-463 | from the batch's jittered deadline on, a loop blocked on it always has a step that wakes it |
| BatcherWakeup.DeadlineFixedPerBatch | protocol/batch.go:323-332 | no step moves the start or the delay of a batch that stays in the buffer |
| BatcherBudget.BudgetUnderInterleaving | protocol/batch.go:363-377 | in every reachable state, with K adders and frames of at most F bytes, and each load, check, write, take and accounting a step of its own: the queue stays within M+(K-1)F and all live bytes within 2M+2(K-1)F |
| BatcherBudgetTight.QueueBoundReached | protocol/batch.go:312-340 | for every K and every F of which frames fill the budget exactly there is a run that queues M+(K-1)F bytes |
| BatcherBudgetTight.LiveBoundReached | protocol/batch.go:489-510 | and one that holds 2M+2(K-1)F bytes in all |
| BatcherBudgetTight.QueueWithinBudgetExact | protocol/batch.go:363-377 | the queue stays within the budget M in every run if and only if there is one adder |
| BatcherBudgetTight.RelayReachesBound | tunnel/mux.go:376-376 | with the budget of 192 MiB and the 128 KiB reads of Relay, K streams can queue 192 MiB and K-1 full frames |
| BatcherObject.Buffer.Append | protocol/batch.go:321-340 | the locked part of Add appends exactly the marshalled frame, latches urgency and fixes the batch times on the first frame only |
| BatcherObject.Buffer.Add | protocol/batch.go:321-358 | Add after the admission queues the frame and sends the signal that its step in the interleaved system sends |
| BatcherObject.Buffer.Take | protocol/batch.go:489-505 | the locked part of Flush takes exactly the frames written since the last take, in order, with the right urgency, and leaves the buffer empty |
| BatcherObject.Buffer.Snapshot | protocol/batch.go:519-526 | nothing is reported just when every written frame has been taken |
| BatcherObject.Counters.Start | protocol/batch.go:506-510 | the batch's number is above all earlier ones and the in-flight count stays exact |
| BatcherObject.Counters.Finish | protocol/batch.go:511-516 | ending a send keeps the in-flight count exact |
| Splitter.FlushRaw | protocol/batch.go:608-633 | the recursion terminates and sends the numbered leaves of the cut of the batch, left to right |
| Splitter.SplitterCorrect | protocol/batch.go:608-633 | every piece fits the upload limit, the pieces concatenate to the batch, numbers strictly increase left to right, and every number minted meanwhile goes to exactly one batch |
| Splitter.MintedOnce | protocol/batch.go:618-620 | a number lies in the range minted during the split if and only if it went to this batch or to another, never to both |
| SendGate.GateSafety | protocol/batch.go:288-298 | in every reachable state each slot's tokens plus holders are one, at most two sends run, at most one of them normal, never on the reserved slot |
| SendGate.UrgencyIsAsked | protocol/batch.go:288-298 | a sender waits and sends with the urgency it last asked with |
| SendGate.ReleaseNeverBlocks | protocol/batch.go:288-298 | the token a release returns is always missing from its channel |
| SendGate.UrgentServedExact | protocol/batch.go:159-168 | in every reachable state an urgent acquire is served at once, on the reserved slot, if and only if every running send is on the shared slot; otherwise it waits |
| SendGate.WaiterProceedsExact | protocol/batch.go:296-297 | a sender that waits, urgent or not, can proceed if and only if no send runs on the shared slot |
| SendGate.FallbackIgnoresReservedSlot | protocol/batch.go:289-296 | from every reachable state with both slots busy, an urgent sender that arrives waits on although the reserved slot is given back, in every run until the send on the shared slot, normal or urgent, ends |
| Retry.SendRetry | telegram/sender.go:88-117 | terminates after at most 4 replies that are not rate limits; the last reply decides; a permanent error ends it at once; it gives up on a transient error only after 4 calls |
| Retry.SendWithRetry | protocol/batch.go:636-660 | terminates after at most 24 replies that are not rate limits; success or a permanent error is the very last reply; otherwise it gives up only after 24 calls |
| Frames.Marshal | protocol/frame.go:109-123 | the buffer filled field by field is the wire form of the frame, whose bytes WireBytes gives |
| Frames.WireBytes | protocol/frame.go:109-123 | the wire form byte by byte: 1, type, conn ID and number in four bytes each and the length modulo 2^24 in three, most significant first, then the payload |
| Frames.Reader.ReadFrame | protocol/frame.go:125-146 | reading advances by exactly one frame, or fails with the error the data calls for, as ParseBytes says |
| Frames.ParseBytes | protocol/frame.go:125-146 | what is read from any data, field by field as plain base-256 numbers, and exactly which data fail with which error |
| Frames.DecodeBatch | protocol/batch.go:685-701 | the read loop returns all frames of a batch or none |
| Frames.BatchCodecExact | protocol/batch.go:685-701 | a batch decodes to a list of frames if and only if it is that list marshalled and every payload is under 2^24 bytes |
| Frames.FrameRoundTripExact | protocol/frame.go:109-146 | a frame survives the wire if and only if its payload is under 2^24 bytes |
| Frames.WireParse | protocol/frame.go:125-146 | nothing but a marshalled frame is ever read as a frame |
| Frames.TruncatedBatch | protocol/batch.go:692-700 | a truncated batch decodes if and only if the cut is on a frame boundary, and then to the frames before it; otherwise the whole batch is rejected |
| Frames.SplitKeepsFramesExact | protocol/batch.go:618-620 | splitting at a byte offset keeps the frames if and only if the offset is a frame boundary |
| SplitFrames.MidpointSplitInventsFrames | protocol/batch.go:618-620 | for all frames before and after: if the payload of a frame ends in marshalled frames and the byte midpoint falls where they begin, the right half decodes to those frames, which nobody sent, and the left half is rejected |
| SplitFrames.SplitInventsFrames | protocol/batch.go:608-622 | and a batch over the upload limit really goes out as these halves |
| ConnectPayloads.MarshalBytes | protocol/frame.go:38-60 | the buffer filled in place is the payload's wire form, padding and truncation of odd address lengths included |
| ConnectPayloads.MarshalBytesExact | protocol/frame.go:38-60 | that form byte by byte: type, length of a domain, address, port with the high byte first |
| ConnectPayloads.ParseBytes | protocol/frame.go:62-94 | a CONNECT payload byte by byte, the port as 256 times one byte plus the next, and exactly which data are refused and how |
| ConnectPayloads.SocksBytes | socks5/server.go:105-141 | the same for the address part of a SOCKS request |
| ConnectPayloads.RoundTripExact | protocol/frame.go:38-94 | a CONNECT payload reads back as itself if and only if its address has the length of its form |
| ConnectPayloads.ParsedIsMarshalled | protocol/frame.go:62-94 | what is parsed is well formed and is the front of the data, byte for byte |
| ConnectPayloads.SocksAddressReachesServer | socks5/server.go:105-141 | every address the SOCKS parser produces reaches the server unchanged, as the request's own bytes; a request it refuses is no CONNECT payload either |
| Envelope.OpenSeal | protocol/envelope.go:46-89 | an envelope opens to what was sealed, given a sound cipher |
| Envelope.EnvelopeBytes | protocol/envelope.go:46-89 | the envelope byte by byte: VTE2, twelve bytes of nonce, ciphertext; and exactly what is skipped unopened |
| Connect.ResourceInvariant | tunnel/client.go:178-248 | in every reachable state, per link: semaphore occupancy is the number of attempts between admission and outcome and at most 2, the stream count is the number of attempts holding a stream, and no ack channel is closed twice |
| Connect.OutcomeExact | tunnel/client.go:208-248 | an attempt that ended was relayed if and only if it saw its ACK, took its entry off the map if and only if it gave up, and did exactly one of these or was never admitted |
| Connect.SeenOnlyAfterAck | tunnel/client.go:99-113 | whatever saw its ACK had its channel opened before by an ACK for the ID it registered under |
| Connect.AttemptsAreRun | tunnel/client.go:178-190 | each attempt stays on the link it was started on |
| Connect.ReleaseNeverBlocks | tunnel/client.go:186-186 | taking the token back out of the semaphore never blocks |
| Connect.QuiescentIsClean | tunnel/client.go:178-248 | when all attempts have ended no slot, stream or pending entry is left |
| Connect.AckReachesExact | tunnel/client.go:99-113 | an ACK opens the channel of the attempt that registered its ID if and only if no attempt on any link has since registered that ID or taken its entry off the map; otherwise the attempt is left as it was |
| Connect.AckReachesItsAttempt | tunnel/client.go:99-113 | with conn IDs unique across links an ACK opens the channel of the attempt it answers and of no other |
| Connect.CollidingIdsMisroute | tunnel/client.go:71-74 | for every ID: if two links draw it, the ACK for the first attempt opens the second one's channel |
| LinkChoice.Health.RecordSuccess | pool/pool.go:68-74 | for reports one at a time: a success ends any cooldown and restarts the failure count |
| LinkChoice.Health.RecordBad | pool/pool.go:76-83 | for reports one at a time: the fields stay a function of the reports, in cooldown exactly from the third bad report in a row |
| LinkChoice.Health.Healthy | pool/pool.go:63-65 | after reports one at a time: unhealthy exactly when the last three or more were bad and the latest is less than ten seconds old |
| LinkChoice.CooldownBackExact | pool/pool.go:68-83 | with overlapping reports, after a success the link can be in cooldown again before three new bad reports if and only if some bad report has counted three or more and not stored yet |
| LinkChoice.SuccessOvertaken | pool/pool.go:68-83 | from every state with a third bad report counted and not stored, a success in between leaves the link in cooldown with no failure counted |
| LinkChoice.PickFrom | pool/pool.go:144-174 | none exactly when there is no candidate; otherwise one of minimal load and, when all tied candidates report throughput, the earliest of minimal throughput |
| LinkChoice.PickLeastConnExcluding | pool/pool.go:130-142 | none exactly when all links are excluded; a healthy link if any non-excluded one is; the best of its kind in either case |
| LinkChoice.HandleSocks | tunnel/client.go:156-172 | at most three pairwise distinct links are tried, each the best healthy one not tried before, or the best of the rest if none is healthy; it stops with the attempt that ends the request, and gives up only after min(3, n) links |
| DnsCache.CacheRefinesResolver | tunnel/dnscache.go:42-78 | over any interleaving, an answer is what the resolver gave for that host, or failure if it gave no address, stamped later than the call's clock reading minus the TTL (300 s, or 5 s for failures); with delays of at most d1 before the stamp and d2 before the return it was given less than TTL + d1 + d2 before the return; at most 2048 entries |
| DnsCache.LogIsRun | tunnel/dnscache.go:56-58 | every lookup counted there carries what the resolver answered in the run to a call for that host, and when |
| DnsCache.CallsAreRun | tunnel/dnscache.go:42-42 | each call goes on with the host it was begun for |
| DnsCache.AgeBoundReached | tunnel/dnscache.go:42-72 | for all d1, d2 and both kinds of answer there is a run in which an answer is TTL + d1 + d2 - 1 old at the return |
| DnsCache.TtlKeptExact | tunnel/dnscache.go:42-78 | counted to the return, the TTL is kept in all runs with delays d1 and d2 if and only if both are 0 |
| DnsCache.Cache.Find | tunnel/dnscache.go:42-54 | an answer it gives is the last one remembered for the host and within its TTL; it gives none only if the host has no entry or the TTL of that answer is over |
| DnsCache.Cache.Remember | tunnel/dnscache.go:60-72 | the cache stays within 2048 entries, each the last answer for its host, and no other host loses its entry unless the map was full |
| RateLimiter.RateBoundAnyWindow | telegram/ratelimit.go:59-140 | after any run of Wait, RecordSend and RecordRetryAfter, at most burst + T/minInterval Wait calls return in any window of length T |
| RateLimiter.After | telegram/ratelimit.go:90-140 | every run keeps tokens in [0, burst] and the interval in [min, max] |
| RateLimiter.SleepSuffices | telegram/ratelimit.go:70-73 | a waiter that sleeps as computed, plus the nanosecond lost to truncation, finds a token |
| RateLimiter.SleepIsLeast | telegram/ratelimit.go:70-73 | no shorter sleep would do |
| RateLimiter.SuccessLowers | telegram/ratelimit.go:90-106 | a success lowers the interval strictly until it is at the minimum, where it stays |
| RateLimiter.SuccessKeepsTokens | telegram/ratelimit.go:90-106 | a success loses no token, although the interval changes |
| RateLimiter.RateLimitRaises | telegram/ratelimit.go:108-123 | a rate limit raises the interval by half, rounded down, up to the maximum, and strictly below it |
| RateLimiter.RateLimitHolds | telegram/ratelimit.go:108-123 | after a rate limit a Wait can return if and only if a whole new interval has passed |
| RateLimiter.NineRateLimitsReachMaximum | telegram/ratelimit.go:108-123 | nine rate limits in a row take any interval to 30 s; from 800 ms it takes exactly nine |
| RateLimiter.FiftySuccessesRestoreMinimum | telegram/ratelimit.go:90-106 | with the code's integer division, from any interval up to 30 s 50 consecutive successes restore 800 ms |
| RateLimiter.Limiter.Wait | telegram/ratelimit.go:59-75 | the loop takes exactly one token in the first round that finds one and none otherwise |
| RateLimiter.Limiter.Sent | telegram/ratelimit.go:90-106 | the fields follow the RecordSend function and stay in bounds |
| RateLimiter.Limiter.Limited | telegram/ratelimit.go:108-123 | the fields follow the RecordRetryAfter function, of which RateLimitRaises and RateLimitHolds speak, and stay in bounds |
| RateLimiter.Limiter.Fill | telegram/ratelimit.go:125-140 | the fields follow the Refill function and stay in bounds |
| Base64.RoundTrip | telegram/sender.go:82-85 | decoding undoes encoding (section 4 of RFC 4648), for all byte strings |
| Base64.EncodeLetters | telegram/sender.go:82-85 | the encoding letter by letter: each three bytes as one 24-bit number, in four letters of six bits, with padding |
| Base64.SymbolIsLetter | telegram/sender.go:82-85 | the letters are those of the standard alphabet |
| Base64.DecodedShape | telegram/poller.go:97-101 | only whole groups of four letters or padding decode |
| Naming.FitsExact | telegram/sender.go:77-80 | the size check says yes if and only if the formatted text has at most 4096 characters |
| Naming.TextBatchAccepted | telegram/poller.go:91-104 | a text batch is accepted if and only if it comes from the expected bot, and gives back key and data |
| Naming.DocumentAccepted | telegram/poller.go:110-115 | the same for a document name |
| Naming.PrefixExact | telegram/poller.go:52-52 | a name starts with a bot's prefix if and only if it is that bot's, negative IDs included |
| Naming.KeyOrder | telegram/sender.go:32-35 | below 10^12, for any mix of text and document keys, lexicographic key order is numeric order |
| Naming.KeyOrderExact | telegram/sender.go:32-35 | 10^12 is exactly the limit up to which sort keys order batches |
| Naming.KeyOrderBreaks | telegram/sender.go:34-34 | at 10^12 the newer batch sorts first |
| Naming.PaddedSpells | telegram/sender.go:32-35 | below 10^12 the padded number is twelve decimal digits that spell it |
| Naming.NamesSpelled | telegram/sender.go:32-35 | both formats written out, with the three rotating names |
| Naming.UndecodableTextRejected | telegram/poller.go:92-102 | a text with the right prefix whose body does not decode is no batch |
| Naming.UnbrokenTextRejected | telegram/poller.go:92-96 | nor is one without a line break |
| Naming.ForeignDocumentRejected | telegram/poller.go:110-115 | nor a document without the prefix or the extension |
| Poller.Poller.Scan | telegram/poller.go:80-116 | one pass over the updates moves the offset past all of them and collects the accepted items in order |
| Poller.Poller.HandOn | telegram/poller.go:124-141 | the items are handed on in order, each document downloaded once, failed downloads skipped |
| Poller.OffsetPastAll | telegram/poller.go:82-85 | after a round the offset is past every update and is one more than some update's ID, or unchanged |
| Poller.ItemsAreFromPeer | telegram/poller.go:85-115 | the filter keeps exactly the peer's batches of a round; batches of other bots, updates without a post, other chats and posts without the peer's prefix leave nothing |
| Poller.RoundDeliversInOrder | telegram/poller.go:118-141 | whatever order the updates came in and whatever else was posted, also with batches posted more than once: each posting of the peer is handed on exactly once, byte for byte, in numeric order, except documents that cannot be downloaded |
| PollCursor.Inbox.Collect | telegram/account.go:151-165 | the updates at or past the offset are returned in order and nothing else stays in the inbox |
| PollCursor.NeverProcessedTwice | telegram/poller.go:61-85 | over any run of pushes and polls with distinct IDs no update is processed twice, and only pushed ones are |
| PollCursor.DrainedPollIsComplete | telegram/account.go:138-185 | with IDs pushed in increasing order the updates processed are always a prefix of the pushes, and all of them after a drained poll |
| PollCursor.ProcessedExact | telegram/account.go:151-165 | with distinct IDs in any order, a pushed update has been processed at a drained state if and only if its ID was not below the offset at the first poll after its push |
| PollCursor.LateIdIsLost | telegram/account.go:151-165 | for every pair of IDs: an update pushed below the offset is dropped unprocessed |
| PollCursor.OffsetNeverDecreases | telegram/poller.go:83-85 | at no later point of a run is the offset lower than it was |

## Left out

- EndToEnd.PrefixSafety: holds for runs within `EndToEnd.WithinLimits` (fewer than 2^32 data frames a conn, payloads under 2^24 bytes, batches that fit one upload, sends on registered conns, no registration of an ID under which data was sent), because the code relies on these limits and does not check them; nothing is claimed about what a conn enqueues after it closed.
- EndToEnd.PrefixSafety: covers one direction; that the other direction can repeat a CONNECT appears as the free event `Connect`, not as a second copy of the machine.
- EndToEndLimits.ReusedIdLeaks: the harm is shown from every state in which the old conn's first data is on the channel; that the reuse is harmless once no frame of the old conn can be delivered any more is not stated, because streams are kept by ID here and not by registration.
- EndToEnd.PrefixSafety: the graceful drain that the comment at tunnel/mux.go:296-297 promises is not claimed, because CLOSE carries no number and the select may choose the closed channel at any time.
- BatcherFifo.StopFlushesEverythingWritten: covers frames written before Stop was called, not frames merely admitted, because the latter is false of the code (`BatcherStop.StopGuaranteeExact`).
- LinkChoice.Health.RecordSuccess: is about reports one at a time, as `LinkChoice.Health.RecordBad` is, because with overlapping reports it is false (`LinkChoice.SuccessOvertaken`).
- LinkChoice.Health.RecordBad: is about reports one at a time, for the same reason; overlapping reports are covered by `LinkChoice.CooldownBackExact`.
- LinkChoice.Health.Healthy: is about reports one at a time, for the same reason.
- Poller.RoundDeliversInOrder: is about any list sorted by key; how `sort.Slice` sorts is not modelled.
- Batcher, connect attempts, send gate and DNS calls are state machines on values; of the batcher and the cache the critical sections are also given on objects. Goroutine scheduling fairness is not modelled, so nothing is said about how soon an enabled step happens.
- The comment on `Add` (protocol/batch.go:300-302) says that control frames flush at once; the code waits for the idle timer, and the model follows the code. The idle delay itself (adaptiveIdleTimeout, quiet hours, throughput measurement) is any value.
- The receive half of Relay, gc, CloseAllNotify, KEEPALIVE and the server's dialing: socket handling with no protocol state of its own.
- The batch counter is unbounded here and 64 bits wide in the code; the failure counter is 32 bits wide there.
- pickAddr and resolveTarget, the buffer pool, warm-up of idle links, logging: single-branch helpers without effect on the modelled meaning.
- HTTP, MTProto, zstd, AES-GCM and SHA-256 internals; configuration checks; command line, desktop and Android clients.
