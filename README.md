# WebRTC send-side video core, modelled in Dafny

This project models four parts of the WebRTC video send path and proves properties about them:

- **VideoSendStreamImpl bitrate control** (`VideoSendStream`, `SendStreamRules`,
  `BitrateAllocation`, `SendStreamScenarios`).
  - It registers with the bitrate allocator on Start, builds its allocation config
    (min, max, pad-up, enforce-min, track id, priority) and re-registers when the encoder
    reconfigures or padding is switched on or off.
  - It splits a bitrate update into an RTP-sender update and an encoder update. The encoder
    target is capped at the encoder max; the link allocation is payload minus protection,
    floored at the target.
  - It forwards video bitrate allocations, unless the encoder is paused or the allocation is
    too similar to the last one sent within 500 ms. A held-back allocation is flushed by the
    next encoded image after the window.
  - `SendStreamScenarios` replays the unit-test sequences against the class.
- **PacedSender** (`Pacing`, `IntervalBudgets`, `PaddingRouter`).
  - The packet queue is ordered by priority, then retransmission, then insertion order.
  - A media budget and a padding budget are refilled by elapsed time.
  - An optional congestion window limits outstanding bytes.
  - Audio pacing and padding in silence are field-trial switches.
  - When paused or congested, a 1-byte keep-alive is sent every 500 ms.
  - Padding is never sent before the first packet or while packets wait.
  - The model also covers queue-time accounting and the cadence of `Process` (5 ms, or 500 ms
    while paused).
  - `Process` is a method whose drain loop is proved against the pure function `Drain`.
    Every queue property is proved about `Drain` and `Processed`.
- **DefaultVideoQualityAnalyzer frame bookkeeping** (`QualityAnalyzer`).
  - Frame ids are 16-bit and wrap.
  - Per-stream queues of in-flight frame ids are kept oldest first.
  - The model keeps the in-flight frame and stats maps and the global and per-stream counters
    for captured, pre-encoded, encoded, received, decoded, rendered and dropped frames.
  - Dropped frames are detected at render time and on id reuse.
  - It keeps the comparison queue with its overload rule (a comparison queued while 10 or
    more are pending keeps no frames) and the accounting of processed comparisons.
  - `Consistent` is the bookkeeping invariant; every operation is proved to keep it.
- **Vp8TemporalLayersFactory** (`Vp8TemporalLayers`).
  - It builds one frame-buffer controller per simulcast stream.
  - Stream 0 of a conference-mode screenshare codec gets legacy screenshare layers with at
    least two temporal layers; every other stream gets default layers.

The implementation files `video/video_send_stream_impl.cc` and
`modules/pacing/paced_sender.cc` are not part of this model. VideoSendStreamImpl and
PacedSender are modelled from the behaviour their unit tests pin down. Where a test does not
pin a detail, the model follows the WebRTC implementation of the same period:

- the pad-up computation with ALR probing and hysteresis;
- the registered priority, the sum of the layers' priorities once the encoder reports them;
- the interval budget and its clamping;
- the keep-alive condition;
- the order of pending packets within one stream: priority, then retransmission, then
  insertion order. The turn-taking between streams of equal priority is not modelled (see
  "## Left out").

Stop is taken to be terminal for the throttle: an allocation held back before Stop is
discarded, not flushed by a later encoded image. The tests do not exercise this.

Clocks, the network, the packet router and the allocator are parameters or recorded call
lists.

Three choices rest on the unit tests:

- An allocation is "similar" to the last one sent when both enable the same layers and its
  total is at least the last total and below 110% of it. The comparison is on the totals,
  not layer by layer (video/video_send_stream_impl_unittest.cc:465-489).
- The encoder's link allocation is the payload rate minus the protection rate, floored at
  the encoder target (video/video_send_stream_impl_unittest.cc:697-728).
- Queue time is measured from the enqueue time. In every test the capture time and the
  enqueue time coincide (modules/pacing/paced_sender_unittest.cc:995-1046, 1085-1098).

## Model

| member | source | states |
|---|---|---|
| BitrateAllocation.SetBitrate | video/video_send_stream_impl_unittest.cc:441-464 | setting one (spatial, temporal) cell keeps the cached total equal to the sum of the cells: the new total plus the old cell value equals the old total plus the new value, and only that cell changes |
| BitrateAllocation.TotalRemove | video/video_send_stream_impl_unittest.cc:441-464 | the sum over the cells is one cell plus the sum over the rest, whichever cell is taken out |
| BitrateAllocation.TotalUpdate | video/video_send_stream_impl_unittest.cc:441-464 | overwriting or adding a cell changes the sum by exactly the difference of the values |
| BitrateAllocation.CellAtMostTotal | video/video_send_stream_impl_unittest.cc:465-489 | no layer's bitrate exceeds the allocation's total |
| BitrateAllocation.Empty | video/video_send_stream_impl_unittest.cc:441-464 | the empty allocation has no cells and a total of zero, consistently |
| SendStreamRules.SumMaxBitratesAppend | video/video_send_stream_impl_unittest.cc:219-223 | the registered max bitrate adds up layer by layer over concatenated layer lists |
| SendStreamRules.LayerMaxWithinSum | video/video_send_stream_impl_unittest.cc:219-223 | each layer's max is within the registered max |
| SendStreamRules.MaxPadBitrate | video/video_send_stream_impl_unittest.cc:241-306 | the pad-up rate is never below the min transmit bitrate. With ALR probing on several layers, or one layer that pads to its min, it is the larger of layer 0's min and the min transmit rate. With no layers, or one layer without pad-to-min, it is exactly the min transmit rate |
| SendStreamRules.PadUpForTwoLayers | video/video_send_stream_impl_unittest.cc:224-228 | two layers without ALR pad up to the lower layer's target plus the upper layer's min |
| SendStreamRules.ScaleRoundedNearest | video/video_send_stream_impl_unittest.cc:345-355 | the hysteresis scaling is the product rounded to the nearest bps, halves up |
| SendStreamRules.ScaleRoundedExact | video/video_send_stream_impl_unittest.cc:345-355 | when the scaled min is a whole number of bps, the scaling returns it exactly |
| SendStreamRules.PadUpWithoutAlr | video/video_send_stream_impl_unittest.cc:345-355 | for any number of layers above one and without ALR probing, the pad-up rate is the lower layers' targets plus the top layer's min scaled by the hysteresis factor and capped at its target, floored at the min transmit rate |
| SendStreamRules.UnitPrioritiesSumToLayerCount | video/video_send_stream_impl_unittest.cc:199-209 | layers that each carry priority 1 register a priority equal to their count |
| SendStreamRules.PadUpWithHysteresis | video/video_send_stream_impl_unittest.cc:345-355 | with a 1.25 hysteresis factor and two layers, the pad-up rate is the lower target plus the upper min times 5/4 (within half a bps, exactly when whole) capped at the upper target, floored at the min transmit rate |
| SendStreamRules.PadUpWithAlrIsMinTransmit | video/video_send_stream_impl_unittest.cc:277-279 | with ALR probing and a layer-0 min under the min transmit rate, padding is the min transmit rate |
| SendStreamRules.AllocationConfig | video/video_send_stream_impl_unittest.cc:165-170 | the registered config passes min, max, track id and priority through. Pad-up is 0 exactly when padding is disabled or there is nothing to pad. Enforce-min is the negation of suspend-below-min |
| SendStreamRules.SplitEncoderRates | video/video_send_stream_impl_unittest.cc:662-728 | the encoder target is the payload rate capped at the encoder max. The link allocation is at least the target and is either the target or payload minus protection (when protection is smaller) |
| SendStreamRules.PausedIffNoPayload | video/video_send_stream_impl_unittest.cc:418-435 | the encoder is paused (target 0) if and only if the payload rate is 0 |
| SendStreamRules.OneHundredTenPercent | video/video_send_stream_impl_unittest.cc:465-489 | scaling a total by 110/100 with integer division equals adding a tenth |
| SendStreamRules.SimilarIff | video/video_send_stream_impl_unittest.cc:465-489 | similar if and only if the same layers are enabled and last total <= total < last total + a tenth of it |
| SendStreamRules.OfferAllocation | video/video_send_stream_impl_unittest.cc:441-534 | forwarded if and only if nothing was sent before, or the allocation is not similar, or 500 ms have passed. A forwarded allocation becomes the last sent; a held one is cached for a flush |
| SendStreamRules.OfferKeepsContextValid | video/video_send_stream_impl_unittest.cc:536-628 | offering an allocation keeps the throttle context well formed |
| SendStreamRules.ForwardedIff | video/video_send_stream_impl_unittest.cc:465-534 | inside the window an allocation is forwarded if and only if its layer set changed, its total fell, or it rose by at least a tenth |
| SendStreamRules.IdenticalAllocationHeldBack | video/video_send_stream_impl_unittest.cc:575-580 | resending the last allocation inside the window is held back and leaves the last sent unchanged |
| SendStreamRules.FlushOnEncodedImage | video/video_send_stream_impl_unittest.cc:598-623 | an encoded image with nothing cached forwards nothing and changes nothing; otherwise the cached allocation is offered again |
| SendStreamRules.FlushOnceAfterWindow | video/video_send_stream_impl_unittest.cc:598-614 | an encoded image forwards the cached allocation if and only if 500 ms have passed since the last send. After such a flush a later image forwards nothing; a refused flush changes nothing |
| VideoSendStream.VideoSendStreamImpl.constructor | video/video_send_stream_impl_unittest.cc:367-395 | a new stream is inactive with padding disabled and target 0. The screenshare pacing factor is set once if and only if transport-wide feedback is configured and the ALR factor is set |
| VideoSendStream.VideoSendStreamImpl.Start | video/video_send_stream_impl_unittest.cc:154-172 | starting an inactive stream adds exactly one allocator observer with the current config; starting again does nothing |
| VideoSendStream.VideoSendStreamImpl.Stop | video/video_send_stream_impl_unittest.cc:730-733 | stopping an active stream removes the observer once, tells the encoder 0 bps and discards the throttle state, so a held allocation is never flushed; stopping an inactive one does nothing |
| VideoSendStream.VideoSendStreamImpl.OnEncoderConfigurationChanged | video/video_send_stream_impl_unittest.cc:216-230 | a reconfiguration sets min to layer 0's min, max to the sum of layer maxes, the priority to the sum of the layers' priorities and pad-up to the max pad bitrate. An active stream re-registers with the new config; an inactive one does not call the allocator |
| VideoSendStream.VideoSendStreamImpl.OnBitrateUpdated | video/video_send_stream_impl_unittest.cc:630-728 | the RTP sender gets the raw target and RTT; the encoder gets the split target and link rates and the RTT |
| VideoSendStream.VideoSendStreamImpl.OnBitrateAllocationUpdated | video/video_send_stream_impl_unittest.cc:397-439 | while the encoder is paused nothing is forwarded and nothing changes; otherwise the throttle rule decides and exactly the forwarded allocations are appended |
| VideoSendStream.VideoSendStreamImpl.OnEncodedImage | video/video_send_stream_impl_unittest.cc:803-809 | an encoded image switches padding on (re-registering an active stream when it was off) and flushes a cached allocation by the throttle rule |
| VideoSendStream.VideoSendStreamImpl.OnEncoderTimedOut | video/video_send_stream_impl_unittest.cc:812-822 | an encoder timeout switches padding off, and a stream with a nonzero target leaves the allocator, so no padding is sent; a paused stream makes no allocator call |
| SendStreamScenarios.FourLayerAllocation | video/video_send_stream_impl_unittest.cc:441-464 | the test's four-cell allocation is well formed with a total of 100000 bps |
| SendStreamScenarios.RegistrationOnStartAndStop | video/video_send_stream_impl_unittest.cc:154-176 | Start registers min 0, max the initial bitrate, pad-up 0, enforce-min, track "test" and the default priority |
| SendStreamScenarios.PaddingFollowsEncoderActivity | video/video_send_stream_impl_unittest.cc:737-826 | the registered pad-up is 0 after Start, 0 after reconfiguration, 30000 after an encoded frame and 0 after an encoder timeout |
| SendStreamScenarios.AllocationsGatedByPause | video/video_send_stream_impl_unittest.cc:397-439 | an allocation is dropped while paused, forwarded once unpaused, dropped when paused again |
| SendStreamScenarios.SimilarAllocationsThrottled | video/video_send_stream_impl_unittest.cc:441-493 | the first allocation goes out, a small raise is held, a raise of a tenth goes out, a decrease goes out |
| SendStreamScenarios.ThrottleWindowAndFlush | video/video_send_stream_impl_unittest.cc:536-628 | a repeat inside 500 ms is held and goes out after it. An encoded image inside the window flushes nothing, one after it flushes, and a later one flushes nothing |
| SendStreamScenarios.HeldAllocationDiscardedOnStop | video/video_send_stream_impl_unittest.cc:536-628 | a repeat held inside the window is not flushed by an encoded image after Stop |
| SendStreamScenarios.PriorityFollowsLayers | video/video_send_stream_impl_unittest.cc:154-230 | the registered priority is the initial one after Start and 2 once two layers of priority 1 are reported |
| IntervalBudgets.NewBudget | modules/pacing/paced_sender_unittest.cc:325-342 | a fresh budget has the given rate, a cap matching it and nothing to spend |
| IntervalBudgets.SetTargetRateKbps | modules/pacing/paced_sender_unittest.cc:392-443 | a new rate keeps the balance when it lies within plus or minus the new cap and clamps it to the cap otherwise |
| IntervalBudgets.IncreaseBudget | modules/pacing/paced_sender_unittest.cc:392-443 | elapsed time pays off a debt and is capped at the maximum; a non-negative balance is replaced by the interval's bytes, not accumulated |
| IntervalBudgets.UseBudget | modules/pacing/paced_sender_unittest.cc:696-732 | spending lowers the balance, floored at minus the cap, and keeps the budget valid |
| IntervalBudgets.BytesRemaining | modules/pacing/paced_sender_unittest.cc:1182-1205 | the bytes that may still go out are 0 exactly when the balance is not positive, otherwise the balance |
| IntervalBudgets.FiveMsAtTwoThousandKbps | modules/pacing/paced_sender_unittest.cc:347-351 | at 2000 kbps a 5 ms interval grants 1250 bytes, five 250-byte packets |
| PaddingRouter.PaddingForIsLeastCover | modules/pacing/paced_sender_unittest.cc:80-86 | the test router answers a padding request with the least multiple of 224 bytes that covers it |
| PaddingRouter.PacedSenderPadding.TimeToSendPadding | modules/pacing/paced_sender_unittest.cc:80-86 | the router returns that amount and adds it to its running total |
| Pacing.TypeOrderIsPriorityOrder | modules/pacing/paced_sender_unittest.cc:1330-1361 | owned packets leave in type order: audio, retransmission, video, FEC, padding |
| Pacing.TopIndex | modules/pacing/paced_sender_unittest.cc:587-641 | the packet chosen to leave next is queued and no queued packet comes before it |
| Pacing.RemoveAt | modules/pacing/paced_sender_unittest.cc:587-641 | taking the chosen packet out leaves exactly the other packets |
| Pacing.PacketSent | modules/pacing/paced_sender_unittest.cc:325-342 | a sent packet leaves the queue; the first-sent time is set by the first send only |
| Pacing.DrainConserves | modules/pacing/paced_sender_unittest.cc:392-443 | a drain neither loses nor invents packets: what is sent plus what stays is the queue |
| Pacing.DrainConservesBytes | modules/pacing/paced_sender_unittest.cc:1048-1083 | the bytes sent plus the bytes still queued equal the bytes queued before |
| Pacing.DrainLeavesNothingEarlier | modules/pacing/paced_sender_unittest.cc:587-641 | no packet left in the queue should have gone before a packet that was sent |
| Pacing.DrainSendsInOrder | modules/pacing/paced_sender_unittest.cc:587-695 | packets go out in priority order, then retransmissions first, then insertion order |
| Pacing.DrainStopsOnlyWhenHeld | modules/pacing/paced_sender_unittest.cc:392-443 | a drain stops early only when pacing holds the next packet back or the transport refuses it |
| Pacing.DrainFirstSentTime | modules/pacing/paced_sender_unittest.cc:325-342 | the first-sent time becomes the drain time if and only if this is the first drain that sends anything |
| Pacing.RefusedHeadStaysAtHead | modules/pacing/paced_sender_unittest.cc:1010-1020 | when the transport refuses the next packet, nothing is sent and the queue is unchanged |
| Pacing.UrgentFirst | modules/pacing/paced_sender_unittest.cc:587-641 | a queued packet that comes before a sent one was itself sent earlier in the same drain |
| Pacing.SameClassInInsertionOrder | modules/pacing/paced_sender_unittest.cc:941-977 | within one priority and retransmission class, an earlier-inserted packet goes out first |
| Pacing.DrainCountUniform | modules/pacing/paced_sender_unittest.cc:392-443 | with equal-size paced packets, a drain sends the smallest of the queue length, the budget's allowance and the window's allowance |
| Pacing.FivePacketsPerInterval | modules/pacing/paced_sender_unittest.cc:347-351 | 1250 bytes of budget and no window send exactly five 250-byte packets |
| Pacing.AckReleasesExactly | modules/pacing/paced_sender_unittest.cc:849-860 | freeing room for k packets in a full window lets exactly k go out |
| Pacing.DrainWhileCongested | modules/pacing/paced_sender_unittest.cc:734-770 | while the window is full only unpaced audio leaves, the window stays full and the budgets are untouched |
| Pacing.AudioAllSent | modules/pacing/paced_sender_unittest.cc:696-732 | a queue of audio goes out whole without charging the budgets or the window, when audio is unpaced or there is room at the start |
| Pacing.PacedAudioHeld | modules/pacing/paced_sender_unittest.cc:242-306 | with audio pacing on, audio waits like video when the window is full or the budget is spent |
| Pacing.DrainKeepsBudgetsValid | modules/pacing/paced_sender_unittest.cc:696-732 | draining keeps both budgets within their caps |
| Pacing.KeepaliveStage | modules/pacing/paced_sender_unittest.cc:875-938 | Process records the call time and moves the last-send time if and only if a keep-alive is due; the queue and pause state are untouched |
| Pacing.PaddingStage | modules/pacing/paced_sender_unittest.cc:473-511 | one padding request is added if and only if padding is due (empty queue, room in the window, a packet queued before, a positive padding budget), and it asks for the padding budget's remaining bytes |
| Pacing.ProcessPadsWhenIdle | modules/pacing/paced_sender_unittest.cc:502-533 | a running pacer whose drain leaves padding due asks for exactly the padding budget's remaining bytes after any keep-alive; otherwise it asks only for the keep-alive |
| Pacing.SendChargesExactly | modules/pacing/paced_sender_unittest.cc:473-511 | sending a paced packet both budgets can absorb charges each of them and the outstanding bytes exactly its size and moves the send times |
| Pacing.DrainAllUniform | modules/pacing/paced_sender_unittest.cc:473-498 | without a window, a media budget that lasts until the last packet sends the whole uniform queue, charging both budgets the queue's bytes |
| Pacing.FivePacketsUniform | modules/pacing/paced_sender_unittest.cc:484-491 | the scenario's five packets are paced 250-byte media, 1250 bytes in all |
| Pacing.PaddingScenarioFirstInterval | modules/pacing/paced_sender_unittest.cc:477-495 | at 2000 kbps pacing and 800 kbps padding the first 5 ms send the five packets, request no padding and leave the padding budget 750 bytes in debt |
| Pacing.IdleScenarioInterval | modules/pacing/paced_sender_unittest.cc:497-511 | with an empty queue each 5 ms adds 500 bytes to the padding budget; padding is requested only once the balance is positive, and then for that balance |
| Pacing.PaddingOnceBudgetRecovers | modules/pacing/paced_sender_unittest.cc:473-511 | the Padding test: five packets and no padding, then no padding 5 ms later, then exactly one 250-byte padding request |
| Pacing.TimeUntilNextProcess | modules/pacing/paced_sender_unittest.cc:363-368 | the wait is never negative and at most 5 ms (500 ms while paused); it is 0 if and only if that interval has passed |
| Pacing.ProcessWhilePaused | modules/pacing/paced_sender_unittest.cc:875-938 | while paused nothing leaves the queue and the only request is a 1-byte keep-alive when due |
| Pacing.KeepaliveAtMostEvery500Ms | modules/pacing/paced_sender_unittest.cc:921-938 | after a keep-alive, no padding is requested again within 500 ms while paused |
| Pacing.NoPaddingBeforeFirstPacket | modules/pacing/paced_sender_unittest.cc:513-534 | before any packet was queued, Process requests no padding at all |
| Pacing.NoPaddingWhileQueued | modules/pacing/paced_sender_unittest.cc:473-511 | while packets are left waiting, no padding is requested apart from a keep-alive |
| Pacing.ProcessWhileCongested | modules/pacing/paced_sender_unittest.cc:734-770 | while congested only unpaced audio leaves and the only padding is the keep-alive |
| Pacing.ProcessSchedulesNext | modules/pacing/paced_sender_unittest.cc:363-368 | right after Process the next one is due in 5 ms, or 500 ms while paused |
| Pacing.ProcessKeepsBudgetsValid | modules/pacing/paced_sender_unittest.cc:1182-1205 | a Process call keeps both budgets within their caps |
| Pacing.ProcessSendsFivePerInterval | modules/pacing/paced_sender_unittest.cc:399-426 | at 2000 kbps, 5 ms after the last Process, five queued 250-byte packets go out |
| Pacing.QueueSizeBytesAppend | modules/pacing/paced_sender_unittest.cc:1048-1083 | queueing a packet adds its size to the queued bytes |
| Pacing.QueueSizeBytesRemoveAt | modules/pacing/paced_sender_unittest.cc:1048-1083 | sending a packet removes exactly its size from the queued bytes |
| Pacing.ExpectedQueueTimeMs | modules/pacing/paced_sender_unittest.cc:1062-1065 | the expected queue time is the queued bits divided by the pacing rate, rounded down |
| Pacing.ExpectedQueueTimeFromBps | modules/pacing/paced_sender_unittest.cc:1062-1065 | it agrees with the test's formula 1000 * bytes * 8 / bps |
| Pacing.OldestEnqueueTimeMs | modules/pacing/paced_sender_unittest.cc:995-1046 | the oldest enqueue time belongs to a queued packet and is no later than any other's |
| Pacing.QueueInMs | modules/pacing/paced_sender_unittest.cc:995-1046 | an empty queue has waited 0 ms; otherwise the wait is the age of the oldest queued packet |
| Pacing.Inserted | modules/pacing/paced_sender_unittest.cc:344-390 | inserting a packet appends it with its priority level and counts it |
| Pacing.Enqueued | modules/pacing/paced_sender_unittest.cc:1330-1361 | an owned packet is appended with its type's priority and counted |
| Pacing.InsertedKeepsInsertionOrder | modules/pacing/paced_sender_unittest.cc:344-390 | inserting keeps the queue's insertion numbers increasing and below the counter |
| Pacing.EnqueuedKeepsInsertionOrder | modules/pacing/paced_sender_unittest.cc:1330-1361 | the same holds for owned packets |
| Pacing.DrainKeepsInsertionOrder | modules/pacing/paced_sender_unittest.cc:587-641 | a drain keeps that invariant |
| Pacing.InsertionOrderedIsTotal | modules/pacing/paced_sender_unittest.cc:587-695 | in such a queue any two packets are ordered, so the send order is fully determined |
| Pacing.InitialPacer | modules/pacing/paced_sender_unittest.cc:325-333 | a new pacer is empty, unpaused, without a window, with valid budgets and a first-sent time of -1 |
| Pacing.PacedSender.constructor | modules/pacing/paced_sender_unittest.cc:325-333 | the object starts in the initial pacer state |
| Pacing.PacedSender.Process | modules/pacing/paced_sender_unittest.cc:344-390 | one Process call moves the object exactly as the pure Process function says and returns what it sends and the padding it requests |
| Pacing.PacedSender.DrainQueue | modules/pacing/paced_sender_unittest.cc:392-443 | the send loop ends in the state and with the sent sequence of the pure drain, keeping insertion order |
| Pacing.PacedSender.InsertPacket | modules/pacing/paced_sender_unittest.cc:344-390 | insertion updates the object as the pure insertion |
| Pacing.PacedSender.EnqueuePacket | modules/pacing/paced_sender_unittest.cc:1330-1361 | owned-packet enqueue updates the object as the pure enqueue |
| Pacing.PacedSender.Pause | modules/pacing/paced_sender_unittest.cc:875-882 | pausing changes only the pause flag |
| Pacing.PacedSender.Resume | modules/pacing/paced_sender_unittest.cc:986-992 | resuming changes only the pause flag |
| Pacing.PacedSender.SetCongestionWindow | modules/pacing/paced_sender_unittest.cc:734-770 | only the window changes |
| Pacing.PacedSender.UpdateOutstandingData | modules/pacing/paced_sender_unittest.cc:849-860 | only the outstanding bytes change |
| Pacing.PacedSender.SetPacingRates | modules/pacing/paced_sender_unittest.cc:392-443 | the pacing rate and the padding budget's rate change, nothing else |
| QualityAnalyzer.FrameIdAfterStep | test/pc/e2e/analyzer/video/default_video_quality_analyzer.cc:95 | ids are handed out one after another, modulo 65536 |
| QualityAnalyzer.FrameIdsDistinctWithinWrap | test/pc/e2e/analyzer/video/default_video_quality_analyzer.cc:95 | any 65536 consecutive captures get distinct ids, and the 65537th reuses the first |
| QualityAnalyzer.AgeAfterNext | test/pc/e2e/analyzer/video/default_video_quality_analyzer.cc:95 | handing out an id makes every other id one step older and the handed-out id the youngest |
| QualityAnalyzer.AgeOfNextIsMaximal | test/pc/e2e/analyzer/video/default_video_quality_analyzer.cc:122-130 | the id about to be reused is older than every other id |
| QualityAnalyzer.AddEvent | test/pc/e2e/analyzer/video/default_video_quality_analyzer.cc:48-54 | the first event time is set once; the last time and the count always move |
| QualityAnalyzer.AddEventsSummary | test/pc/e2e/analyzer/video/default_video_quality_analyzer.cc:48-54 | after a run of events the first time is the earliest ever, the last is the last and the count grew by the run's length |
| QualityAnalyzer.NewComparison | test/pc/e2e/analyzer/video/default_video_quality_analyzer.cc:420-436 | a comparison queued when 10 or more are pending keeps no frames; otherwise it keeps both. The stats and the dropped flag always pass through |
| QualityAnalyzer.InitialConsistent | test/pc/e2e/analyzer/video/default_video_quality_analyzer.cc:65-69 | the new analyzer satisfies the bookkeeping invariant |
| QualityAnalyzer.DropOldest | test/pc/e2e/analyzer/video/default_video_quality_analyzer.cc:231-254 | dropping a stream's oldest frame removes the front of its queue |
| QualityAnalyzer.DropOldestExact | test/pc/e2e/analyzer/video/default_video_quality_analyzer.cc:231-254 | dropping the oldest frame counts it as dropped globally and for its stream and forgets its frame and stats. It queues a dropped comparison and nothing else changes |
| QualityAnalyzer.DropOldestConsistent | test/pc/e2e/analyzer/video/default_video_quality_analyzer.cc:231-254 | dropping a stream's oldest frame keeps the invariant |
| QualityAnalyzer.DropUntilConsistent | test/pc/e2e/analyzer/video/default_video_quality_analyzer.cc:231-254 | the drop loop keeps the invariant |
| QualityAnalyzer.DropUntilReaches | test/pc/e2e/analyzer/video/default_video_quality_analyzer.cc:231-255 | for a rendered frame that is queued, the loop stops with that frame at the front, after dropping exactly the frames queued before it |
| QualityAnalyzer.DropUntilDropsPrefix | test/pc/e2e/analyzer/video/default_video_quality_analyzer.cc:231-254 | the loop drops that prefix: counters move by its length, its frames are forgotten, one dropped comparison per frame is queued in order |
| QualityAnalyzer.RenderSteps | test/pc/e2e/analyzer/video/default_video_quality_analyzer.cc:204-272 | rendering is the drop loop followed by taking the rendered frame from the front of its stream's queue |
| QualityAnalyzer.RenderedConsistent | test/pc/e2e/analyzer/video/default_video_quality_analyzer.cc:204-272 | rendering a frame in flight keeps the invariant |
| QualityAnalyzer.FrameRenderedEffect | test/pc/e2e/analyzer/video/default_video_quality_analyzer.cc:204-272 | rendering drops the k frames queued before it, takes the frame off the front and counts it rendered. It records k as skipped and stamps the render and previous-render times, then queues the dropped comparisons and one render comparison |
| QualityAnalyzer.RenderFrontExact | test/pc/e2e/analyzer/video/default_video_quality_analyzer.cc:255-272 | taking the rendered frame off the front: its stream's last render time becomes now, it is counted and forgotten, and one comparison with both frames is queued |
| QualityAnalyzer.ReusedIdIsOldestFrame | test/pc/e2e/analyzer/video/default_video_quality_analyzer.cc:122-138 | a reused id still in flight is held by the frame at the front of its owner stream's queue |
| QualityAnalyzer.FrameCapturedConsistent | test/pc/e2e/analyzer/video/default_video_quality_analyzer.cc:91-147 | capturing a frame keeps the invariant, also when the id wraps onto a frame of another stream |
| QualityAnalyzer.FrameCapturedEffect | test/pc/e2e/analyzer/video/default_video_quality_analyzer.cc:91-147 | a capture takes the next id and joins the back of its stream's queue; the stream's stats are created on first use and both capture counters move. A frame still holding the id leaves its owner's queue as dropped with a dropped comparison; otherwise nothing leaves flight |
| QualityAnalyzer.EnqueueConsistent | test/pc/e2e/analyzer/video/default_video_quality_analyzer.cc:114-145 | adding a frame under a free id keeps the invariant |
| QualityAnalyzer.EnqueueFields | test/pc/e2e/analyzer/video/default_video_quality_analyzer.cc:106-145 | adding a frame changes exactly the next id, its stream's queue, the two frame maps, the capture counters and the stream's stats on first use |
| QualityAnalyzer.AsWrittenStrandsOtherStreamsFrame | test/pc/e2e/analyzer/video/default_video_quality_analyzer.cc:119-138 | the capture as written passes its debug check in a consistent state and breaks the invariant |
| QualityAnalyzer.StrandedQueues | test/pc/e2e/analyzer/video/default_video_quality_analyzer.cc:119-138 | as written, the capturing stream's queue loses the new id while the other stream keeps waiting on an id that now belongs to the new frame |
| QualityAnalyzer.BumpMovesOneCounter | test/pc/e2e/analyzer/video/default_video_quality_analyzer.cc:154-200 | counting a stage moves that counter by one and no other |
| QualityAnalyzer.Stamp | test/pc/e2e/analyzer/video/default_video_quality_analyzer.cc:154-201 | stamping a stage sets that stage's time and leaves every other time and field as it was |
| QualityAnalyzer.FrameReachedStageStamps | test/pc/e2e/analyzer/video/default_video_quality_analyzer.cc:149-202 | pre-encode, encode, receive and decode stamp the frame's stage time and touch no other frame, queue or comparison |
| QualityAnalyzer.FrameReachedStageCounts | test/pc/e2e/analyzer/video/default_video_quality_analyzer.cc:149-202 | they move the stage's global counter and the owner stream's counter by one and no other stream's counters |
| QualityAnalyzer.FrameReachedStageConsistent | test/pc/e2e/analyzer/video/default_video_quality_analyzer.cc:149-202 | they keep the invariant |
| QualityAnalyzer.StreamLabelOf | test/pc/e2e/analyzer/video/default_video_quality_analyzer.cc:228-229 | a frame's stream label names a stream whose queue holds the frame |
| QualityAnalyzer.TestCaseName | test/pc/e2e/analyzer/video/default_video_quality_analyzer.cc:637-640 | a per-stream test case name is the test label, a slash and the stream label |
| QualityAnalyzer.TestCaseNamesDistinct | test/pc/e2e/analyzer/video/default_video_quality_analyzer.cc:637-640 | distinct streams get distinct test case names |
| QualityAnalyzer.AnalyzerStarted | test/pc/e2e/analyzer/video/default_video_quality_analyzer.cc:71-89 | Start, allowed only once, records the label and the start time and activates; nothing else changes |
| QualityAnalyzer.AnalyzerStopped | test/pc/e2e/analyzer/video/default_video_quality_analyzer.cc:287-294 | Stop marks the analyzer stopped and changes nothing else; stopping again is a no-op |
| QualityAnalyzer.StartedConsistent | test/pc/e2e/analyzer/video/default_video_quality_analyzer.cc:71-89 | starting keeps the bookkeeping invariant and the comparison account |
| QualityAnalyzer.StoppedConsistent | test/pc/e2e/analyzer/video/default_video_quality_analyzer.cc:287-294 | stopping keeps the bookkeeping invariant and the comparison account |
| QualityAnalyzer.CountComparisonClassifies | test/pc/e2e/analyzer/video/default_video_quality_analyzer.cc:476-512 | a processed comparison counts as exactly one of encoded, dropped by the encoder or dropped before it. It is overloaded if and only if it kept no captured frame, and only its stream's stats change |
| QualityAnalyzer.ComparisonProcessedConsistent | test/pc/e2e/analyzer/video/default_video_quality_analyzer.cc:442-474 | taking the oldest comparison keeps the invariant |
| QualityAnalyzer.ComparisonProcessedKeepsFlight | test/pc/e2e/analyzer/video/default_video_quality_analyzer.cc:442-474 | processing a comparison leaves frames in flight and queues untouched and removes it from the front of the comparison queue |
| QualityAnalyzer.QueueingAccounted | test/pc/e2e/analyzer/video/default_video_quality_analyzer.cc:420-436 | every queued comparison is sampled once and is pending or done; the samples that found 10 or more pending equal the overloaded comparisons done plus the frameless ones still pending, and queueing one more keeps this |
| QualityAnalyzer.FrameCapturedAccounted | test/pc/e2e/analyzer/video/default_video_quality_analyzer.cc:91-147 | a capture keeps that accounting |
| QualityAnalyzer.FrameRenderedAccounted | test/pc/e2e/analyzer/video/default_video_quality_analyzer.cc:204-272 | a render keeps it |
| QualityAnalyzer.ComparisonProcessedAccounted | test/pc/e2e/analyzer/video/default_video_quality_analyzer.cc:476-512 | processing a comparison keeps it |
| QualityAnalyzer.DefaultVideoQualityAnalyzer.constructor | test/pc/e2e/analyzer/video/default_video_quality_analyzer.cc:65-66 | the object starts empty and satisfies the invariant |
| QualityAnalyzer.DefaultVideoQualityAnalyzer.OnFrameCaptured | test/pc/e2e/analyzer/video/default_video_quality_analyzer.cc:91-147 | returns the id handed out and updates the object as the capture function, keeping the invariant |
| QualityAnalyzer.DefaultVideoQualityAnalyzer.OnFramePreEncode | test/pc/e2e/analyzer/video/default_video_quality_analyzer.cc:149-157 | updates the object as the pre-encode stage, keeping the invariant |
| QualityAnalyzer.DefaultVideoQualityAnalyzer.OnFrameEncoded | test/pc/e2e/analyzer/video/default_video_quality_analyzer.cc:159-171 | updates the object as the encode stage, once per frame, keeping the invariant |
| QualityAnalyzer.DefaultVideoQualityAnalyzer.OnFrameReceived | test/pc/e2e/analyzer/video/default_video_quality_analyzer.cc:178-190 | updates the object as the receive stage, once per frame, keeping the invariant |
| QualityAnalyzer.DefaultVideoQualityAnalyzer.OnFrameDecoded | test/pc/e2e/analyzer/video/default_video_quality_analyzer.cc:192-202 | updates the object as the decode stage, keeping the invariant |
| QualityAnalyzer.DefaultVideoQualityAnalyzer.OnFrameRendered | test/pc/e2e/analyzer/video/default_video_quality_analyzer.cc:204-272 | updates the object as the render function, keeping the invariant |
| QualityAnalyzer.DefaultVideoQualityAnalyzer.DropFramesBefore | test/pc/e2e/analyzer/video/default_video_quality_analyzer.cc:230-254 | the drop loop ends in the state of the pure loop and returns its count |
| QualityAnalyzer.DefaultVideoQualityAnalyzer.ProcessNextComparison | test/pc/e2e/analyzer/video/default_video_quality_analyzer.cc:442-474 | processes a comparison if and only if one is pending, taking the oldest, and keeps the invariant |
| QualityAnalyzer.DefaultVideoQualityAnalyzer.Start | test/pc/e2e/analyzer/video/default_video_quality_analyzer.cc:71-89 | updates the object as the start function and keeps it valid, so the frame callbacks can follow |
| QualityAnalyzer.DefaultVideoQualityAnalyzer.Stop | test/pc/e2e/analyzer/video/default_video_quality_analyzer.cc:287-294 | updates the object as the stop function and keeps it valid |
| Vp8TemporalLayers.ControllerFor | api/video_codecs/vp8_temporal_layers_factory.cc:33-45 | stream i gets screenshare layers if and only if the codec is a conference-mode screenshare and i is 0. Those have at least two temporal layers and never fewer than configured; default layers keep the configured count |
| Vp8TemporalLayers.Vp8TemporalLayersFactory.Create | api/video_codecs/vp8_temporal_layers_factory.cc:25-48 | one controller per simulcast stream, each the one the per-stream rule chooses, in stream order |
| Vp8TemporalLayers.Vp8TemporalLayersFactory.Clone | api/video_codecs/vp8_temporal_layers_factory.cc:50-53 | a clone is a new factory object |

## Left out

- Threads, locks, the worker thread pool and the comparison-available event of the analyzer: every operation is modelled as one atomic step, and `ProcessNextComparison` stands for one worker iteration.
- Floating point: PSNR and SSIM, freeze detection, frame rates as events per second, the pacing multiplier 2.5 and packet loss statistics. Rates are given to the model already multiplied.
- Reporting and logging of the analyzer (the per-stream log lines and the reporters), and everything after the comparison counters are updated.
- Probing (the probing tests, probe cluster ids and the send-failure probing test) and the average-bitrate tests of the pacer; also the rate increase that drains a queue within the maximum queue length.
- The queue-time tests that the pacer's unit-test file compiles out with `#if 0`.
- The RTP module, the encoder, the allocator and the packet router: each is a parameter or a recorded call list. Which legacy sends the transport refuses and how many bytes a padding request produces are arguments of `Process`.
- `video/video_send_stream_impl.cc` and `modules/pacing/paced_sender.cc` are not part of this model; the behaviour comes from their unit tests.
- `talk/app/webrtc/androidvideocapturer.cc` and `test/video_encoder_proxy_factory.h` are not part of this model: neither is in the modelled core.
- VideoSendStream.VideoSendStreamImpl.OnEncoderTimedOut: the periodic encoder-activity check is an explicit event; its timer is not modelled.
- Pacing.QueueInMs: an oldest enqueue time of 0 stands for an empty queue, as in the implementation, so its contract only promises the oldest packet's age when no queued packet was enqueued at time 0.
- QualityAnalyzer.DefaultVideoQualityAnalyzer.OnFrameCaptured: requires the bookkeeping invariant, which every other operation keeps. The eviction is the corrected one from the finding below; the as-written eviction is `FrameCapturedAsWritten`.
- The packet queue of this period also takes turns between SSRC streams of equal priority, by bytes sent. The model keeps one global order (priority, retransmission, insertion number); the tests that send on several SSRCs use different priorities, so they do not tell the two apart. The queue implementation is not part of this model.
- BitrateAllocation.SetBitrate: layer indices are unbounded naturals and bitrates unbounded; the real allocation has 5 spatial by 4 temporal cells and refuses a cell that would overflow its 32-bit sum.
- Packets that `Process` drains are charged at their size; the per-packet overhead and the transport feedback on sent packets are outside the model.

## Findings

| source | as written | input that shows it | evidently intended | confidence | as-written member | corrected member |
|---|---|---|---|---|---|---|
| test/pc/e2e/analyzer/video/default_video_quality_analyzer.cc:119-138 | When a reused frame id is still in flight, the capturing stream's queue gets the new id pushed, and then the front of that same queue is popped and the drop counted for the capturing stream, whoever owns the old frame | Stream `holder` still waits on frame 0 and the next id is 0; a different stream with nothing queued captures a frame. The debug check passes, the new id is popped at once, and `holder` keeps waiting on an id that now belongs to the new frame | The old frame leaves the front of its own stream's queue and is counted dropped for that stream; the new frame joins the back of the capturing stream's queue | not executed | QualityAnalyzer.AsWrittenStrandsOtherStreamsFrame | QualityAnalyzer.FrameCapturedConsistent |
