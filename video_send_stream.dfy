/** VideoSendStreamImpl: the part of a video send stream that talks to the bitrate allocator,
 *  the RTP video sender and the video stream encoder. The collaborators are not modelled; what
 *  the stream tells them is recorded in ghost logs, and what they report back (the payload and
 *  protection bitrates of the RTP sender) comes in as method arguments. Time is an explicit
 *  millisecond argument. */
module VideoSendStream {
  import opened Wrappers
  import opened BitrateAllocation
  import opened SendStreamRules

  /** The stream configuration fields the bitrate logic reads. */
  datatype SendStreamConfig = SendStreamConfig(
    trackId: string,
    suspendBelowMinBitrate: bool,
    transportSequenceNumberConfigured: bool,
    periodicAlrBandwidthProbing: bool)

  /** Field-trial derived settings: the pacing factor of the ALR probing experiment that applies
   *  to this stream's content type (None when no such experiment is active) and the simulcast
   *  hysteresis factor (1 unless overridden, 5/4 under a 1.25 video hysteresis trial). */
  datatype FieldTrials = FieldTrials(alrPacingFactor: Option<PositiveRatio>, hysteresis: PositiveRatio)

  /** A network bitrate update from the allocator. */
  datatype BitrateAllocationUpdate = BitrateAllocationUpdate(targetBitrateBps: nat, roundTripTimeMs: nat)

  /** Calls made on the bitrate allocator. */
  datatype AllocatorCall = AddObserver(config: StreamAllocationConfig) | RemoveObserver

  /** What the RTP sender is told on a network update. */
  datatype RtpSenderUpdate = RtpSenderUpdate(targetBitrateBps: nat, roundTripTimeMs: nat)

  /** What the encoder is told on a network update, and on Stop. */
  datatype EncoderUpdate = EncoderUpdate(targetBps: nat, linkAllocationBps: nat, roundTripTimeMs: nat)

  class VideoSendStreamImpl {
    const config: SendStreamConfig
    const trials: FieldTrials
    /** The priority registered with the allocator: the initial one until the encoder reports
     *  its layers, then the sum of theirs. */
    var bitratePriority: real
    /** Probing in application-limited regions, periodic or through an experiment. */
    const hasAlrProbing: bool

    /** Whether the RTP video sender is active (between Start and Stop). */
    var active: bool
    var encoderMinBitrateBps: nat
    var encoderMaxBitrateBps: nat
    var maxPaddingBitrateBps: nat
    /** Padding is withheld until a frame has been encoded, and again after a timeout. */
    var disablePadding: bool
    /** The encoder target of the last network update; 0 means the encoder is paused. */
    var encoderTargetRateBps: nat
    var allocationContext: Option<AllocationContext>

    /** The allocator's view of this stream: the config it was last registered with. */
    ghost var registration: Option<StreamAllocationConfig>
    ghost var allocatorCalls: seq<AllocatorCall>
    ghost var forwardedAllocations: seq<VideoBitrateAllocation>
    ghost var encoderUpdates: seq<EncoderUpdate>
    ghost var rtpUpdates: seq<RtpSenderUpdate>
    ghost var pacingFactorCalls: seq<PositiveRatio>

    /** The registration the stream asks for in its current state. */
    function CurrentAllocationConfig(): StreamAllocationConfig
      reads this
    {
      AllocationConfig(encoderMinBitrateBps, encoderMaxBitrateBps, maxPaddingBitrateBps, disablePadding,
                       config.suspendBelowMinBitrate, config.trackId, bitratePriority)
    }

    /** The padding the allocator may currently grant: none unless registered. */
    ghost function RegisteredPadUpBps(): nat
      reads this
    {
      if registration.Some? then registration.value.padUpBitrateBps else 0
    }

    ghost predicate Valid()
      reads this
    {
      && (allocationContext.Some? ==> ContextValid(allocationContext.value))
      && (registration.Some? ==> active)
    }

    constructor(config: SendStreamConfig, trials: FieldTrials, initialEncoderMaxBitrateBps: nat, bitratePriority: real)
      ensures Valid()
      ensures this.config == config && this.trials == trials && this.bitratePriority == bitratePriority
      ensures hasAlrProbing <==> config.periodicAlrBandwidthProbing || trials.alrPacingFactor.Some?
      ensures !active && disablePadding && encoderTargetRateBps == 0 && allocationContext.None?
      ensures encoderMinBitrateBps == 0 && encoderMaxBitrateBps == initialEncoderMaxBitrateBps
      ensures maxPaddingBitrateBps == 0
      ensures registration.None? && allocatorCalls == [] && forwardedAllocations == []
      ensures encoderUpdates == [] && rtpUpdates == []
      ensures pacingFactorCalls ==
              if config.transportSequenceNumberConfigured && trials.alrPacingFactor.Some?
              then [trials.alrPacingFactor.value] else []
    {
      this.config := config;
      this.trials := trials;
      this.bitratePriority := bitratePriority;
      hasAlrProbing := config.periodicAlrBandwidthProbing || trials.alrPacingFactor.Some?;
      active := false;
      encoderMinBitrateBps := 0;
      encoderMaxBitrateBps := initialEncoderMaxBitrateBps;
      maxPaddingBitrateBps := 0;
      disablePadding := true;
      encoderTargetRateBps := 0;
      allocationContext := None;
      registration := None;
      allocatorCalls := [];
      forwardedAllocations := [];
      encoderUpdates := [];
      rtpUpdates := [];
      new;
      if config.transportSequenceNumberConfigured && trials.alrPacingFactor.Some? {
        pacingFactorCalls := [trials.alrPacingFactor.value];
      } else {
        pacingFactorCalls := [];
      }
    }

    /** Registers with the allocator, once. */
    method Start()
      requires Valid()
      modifies this`active, this`registration, this`allocatorCalls
      ensures Valid() && active
      ensures old(active) ==> registration == old(registration) && allocatorCalls == old(allocatorCalls)
      ensures !old(active) ==> registration == Some(CurrentAllocationConfig())
                               && allocatorCalls == old(allocatorCalls) + [AddObserver(CurrentAllocationConfig())]
    {
      if active {
        return;
      }
      active := true;
      registration := Some(CurrentAllocationConfig());
      allocatorCalls := allocatorCalls + [AddObserver(CurrentAllocationConfig())];
    }

    /** Unregisters, tells the encoder to stop and discards the throttle state (a held
     *  allocation is dropped without being flushed), once. */
    method Stop()
      requires Valid()
      modifies this`active, this`registration, this`allocatorCalls, this`encoderUpdates, this`allocationContext
      ensures Valid() && !active
      ensures old(active) ==> registration.None? && allocatorCalls == old(allocatorCalls) + [RemoveObserver]
                              && encoderUpdates == old(encoderUpdates) + [EncoderUpdate(0, 0, 0)]
                              && allocationContext.None?
      ensures !old(active) ==> registration == old(registration) && allocatorCalls == old(allocatorCalls)
                               && encoderUpdates == old(encoderUpdates) && allocationContext == old(allocationContext)
    {
      if !active {
        return;
      }
      active := false;
      registration := None;
      allocationContext := None;
      allocatorCalls := allocatorCalls + [RemoveObserver];
      encoderUpdates := encoderUpdates + [EncoderUpdate(0, 0, 0)];
    }

    /** The encoder reports a new layer list (only the active layers): the registration bounds,
     *  the priority and the padding bitrate are recomputed, and an active stream registers
     *  again. */
    method OnEncoderConfigurationChanged(layers: seq<VideoStream>, minTransmitBitrateBps: nat)
      requires Valid()
      requires |layers| >= 1
      modifies this`encoderMinBitrateBps, this`encoderMaxBitrateBps, this`maxPaddingBitrateBps,
               this`bitratePriority, this`registration, this`allocatorCalls
      ensures Valid()
      ensures encoderMinBitrateBps == layers[0].minBitrateBps
      ensures encoderMaxBitrateBps == SumMaxBitrates(layers)
      ensures bitratePriority == SumBitratePriorities(layers)
      ensures maxPaddingBitrateBps == MaxPadBitrate(layers, minTransmitBitrateBps, config.suspendBelowMinBitrate,
                                                    hasAlrProbing, trials.hysteresis)
      ensures active ==> registration == Some(CurrentAllocationConfig())
                         && allocatorCalls == old(allocatorCalls) + [AddObserver(CurrentAllocationConfig())]
      ensures !active ==> registration == old(registration) && allocatorCalls == old(allocatorCalls)
    {
      encoderMinBitrateBps := layers[0].minBitrateBps;
      encoderMaxBitrateBps := SumMaxBitrates(layers);
      bitratePriority := SumBitratePriorities(layers);
      maxPaddingBitrateBps := MaxPadBitrate(layers, minTransmitBitrateBps, config.suspendBelowMinBitrate,
                                            hasAlrProbing, trials.hysteresis);
      if active {
        registration := Some(CurrentAllocationConfig());
        allocatorCalls := allocatorCalls + [AddObserver(CurrentAllocationConfig())];
      }
    }

    /** A network update: the RTP sender gets the raw target; the encoder gets the payload
     *  bitrate the RTP sender then reports, capped at the encoder max, and the link share left
     *  after protection. */
    method OnBitrateUpdated(update: BitrateAllocationUpdate, payloadBitrateBps: nat, protectionBitrateBps: nat)
      requires Valid() && active
      modifies this`encoderTargetRateBps, this`encoderUpdates, this`rtpUpdates
      ensures Valid()
      ensures rtpUpdates == old(rtpUpdates) + [RtpSenderUpdate(update.targetBitrateBps, update.roundTripTimeMs)]
      ensures var e := SplitEncoderRates(payloadBitrateBps, protectionBitrateBps, encoderMaxBitrateBps);
              && encoderTargetRateBps == e.targetBps
              && encoderUpdates == old(encoderUpdates) + [EncoderUpdate(e.targetBps, e.linkAllocationBps, update.roundTripTimeMs)]
    {
      rtpUpdates := rtpUpdates + [RtpSenderUpdate(update.targetBitrateBps, update.roundTripTimeMs)];
      var rates := SplitEncoderRates(payloadBitrateBps, protectionBitrateBps, encoderMaxBitrateBps);
      encoderTargetRateBps := rates.targetBps;
      encoderUpdates := encoderUpdates + [EncoderUpdate(rates.targetBps, rates.linkAllocationBps, update.roundTripTimeMs)];
    }

    /** A new layer allocation from the encoder's allocator. Nothing is forwarded while the
     *  encoder is paused; otherwise the throttle decides. */
    method OnBitrateAllocationUpdated(allocation: VideoBitrateAllocation, nowMs: int) returns (forwarded: bool)
      requires Valid()
      modifies this`allocationContext, this`forwardedAllocations
      ensures Valid()
      ensures encoderTargetRateBps == 0 ==>
                !forwarded && allocationContext == old(allocationContext) && forwardedAllocations == old(forwardedAllocations)
      ensures encoderTargetRateBps != 0 ==>
                var r := OfferAllocation(old(allocationContext), allocation, nowMs);
                && forwarded == r.forwarded
                && allocationContext == Some(r.context)
                && forwardedAllocations == old(forwardedAllocations) + (if forwarded then [allocation] else [])
    {
      forwarded := false;
      if encoderTargetRateBps != 0 {
        OfferKeepsContextValid(allocationContext, allocation, nowMs);
        var r := OfferAllocation(allocationContext, allocation, nowMs);
        allocationContext := Some(r.context);
        forwarded := r.forwarded;
        if forwarded {
          forwardedAllocations := forwardedAllocations + [allocation];
        }
      }
    }

    /** An encoded image: padding is enabled (re-registering an active stream so that the
     *  allocator sees it), and a held allocation is offered again. */
    method OnEncodedImage(nowMs: int) returns (forwarded: bool)
      requires Valid()
      modifies this`disablePadding, this`registration, this`allocatorCalls, this`allocationContext,
               this`forwardedAllocations
      ensures Valid() && !disablePadding
      ensures old(disablePadding) && active ==>
                registration == Some(CurrentAllocationConfig())
                && allocatorCalls == old(allocatorCalls) + [AddObserver(CurrentAllocationConfig())]
      ensures !(old(disablePadding) && active) ==>
                registration == old(registration) && allocatorCalls == old(allocatorCalls)
      ensures (old(allocationContext).None? || encoderTargetRateBps == 0) ==>
                !forwarded && allocationContext == old(allocationContext) && forwardedAllocations == old(forwardedAllocations)
      ensures old(allocationContext).Some? && encoderTargetRateBps != 0 ==>
                var r := FlushOnEncodedImage(old(allocationContext), nowMs);
                && forwarded == r.forwarded
                && allocationContext == Some(r.context)
                && forwardedAllocations == old(forwardedAllocations)
                                           + (if forwarded then [allocationContext.value.lastSent] else [])
    {
      if disablePadding {
        disablePadding := false;
        if active {
          registration := Some(CurrentAllocationConfig());
          allocatorCalls := allocatorCalls + [AddObserver(CurrentAllocationConfig())];
        }
      }
      forwarded := false;
      if allocationContext.Some? && allocationContext.value.throttled.Some? {
        forwarded := OnBitrateAllocationUpdated(allocationContext.value.throttled.value, nowMs);
      }
    }

    /** No frame was encoded for a while: padding is disabled again, and a stream that is not
     *  paused leaves the allocator. */
    method OnEncoderTimedOut()
      requires Valid()
      modifies this`disablePadding, this`registration, this`allocatorCalls
      ensures Valid() && disablePadding
      ensures encoderTargetRateBps > 0 ==> registration.None? && allocatorCalls == old(allocatorCalls) + [RemoveObserver]
      ensures encoderTargetRateBps == 0 ==> registration == old(registration) && allocatorCalls == old(allocatorCalls)
    {
      disablePadding := true;
      if encoderTargetRateBps > 0 {
        registration := None;
        allocatorCalls := allocatorCalls + [RemoveObserver];
      }
    }
  }
}
