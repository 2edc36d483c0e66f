/** Call sequences of a video send stream, with what the model then guarantees at each step. */
module SendStreamScenarios {
  import opened Wrappers
  import opened BitrateAllocation
  import opened SendStreamRules
  import opened VideoSendStream

  const kInitialBitrateBps: nat := 333000
  const kBitratePriority: real := 0.5

  /** The four-cell allocation 10/20/30/40 kbps used by the throttle scenarios. */
  function FourLayerAllocation(): (a: VideoBitrateAllocation)
    ensures Valid(a) && a.sumBps == 100000
  {
    var a := SetBitrate(Empty(), 0, 0, 10000);
    var a := SetBitrate(a, 0, 1, 20000);
    var a := SetBitrate(a, 1, 0, 30000);
    SetBitrate(a, 1, 1, 40000)
  }

  /** A started stream that has not heard from the network yet: its encoder is paused. */
  method StartedStream() returns (s: VideoSendStreamImpl)
    ensures fresh(s) && s.Valid() && s.active
    ensures s.encoderTargetRateBps == 0 && s.allocationContext.None? && s.encoderMaxBitrateBps == kInitialBitrateBps
    ensures s.bitratePriority == kBitratePriority
  {
    s := new VideoSendStreamImpl(SendStreamConfig("test", false, false, false),
                                 FieldTrials(None, Ratio(1, 1)), kInitialBitrateBps, kBitratePriority);
    s.Start();
  }

  /** A started stream the network allows 100 kbps, so that its encoder is not paused. */
  method UnpausedStream() returns (s: VideoSendStreamImpl)
    ensures fresh(s) && s.Valid() && s.active
    ensures s.encoderTargetRateBps == 100000 && s.allocationContext.None?
  {
    s := StartedStream();
    s.OnBitrateUpdated(BitrateAllocationUpdate(100000, 0), 100000, 0);
  }

  /** Start registers the initial bounds, Stop unregisters exactly once. */
  method RegistrationOnStartAndStop() returns (registered: StreamAllocationConfig)
    ensures registered == StreamAllocationConfig(0, kInitialBitrateBps, 0, true, "test", kBitratePriority)
  {
    var s := new VideoSendStreamImpl(SendStreamConfig("test", false, false, false),
                                     FieldTrials(None, Ratio(1, 1)), kInitialBitrateBps, kBitratePriority);
    s.Start();
    registered := s.CurrentAllocationConfig();
    assert s.registration == Some(registered);
    s.Stop();
    s.Stop();
    assert s.allocatorCalls == [AddObserver(registered), RemoveObserver];
  }

  /** Padding is offered only after a frame was encoded while unpaused, and withdrawn on a
   *  timeout: the pad-up bitrate the stream asks for after Start, after a layer change, after
   *  an encoded frame and after the timeout (registered as well, except after the timeout,
   *  when the stream has left the allocator). */
  method PaddingFollowsEncoderActivity() returns (afterStart: nat, afterReconfiguration: nat, afterEncodedFrame: nat,
                                                  afterTimeout: nat)
    ensures afterStart == 0 && afterReconfiguration == 0 && afterEncodedFrame == 30000 && afterTimeout == 0
  {
    var s := new VideoSendStreamImpl(SendStreamConfig("test", false, true, false),
                                     FieldTrials(None, Ratio(1, 1)), kInitialBitrateBps, kBitratePriority);
    s.Start();
    afterStart := s.CurrentAllocationConfig().padUpBitrateBps;
    assert s.RegisteredPadUpBps() == afterStart;
    s.OnEncoderConfigurationChanged([VideoStream(30000, 150000, 200000, Some(1.0))], 30000);
    afterReconfiguration := s.CurrentAllocationConfig().padUpBitrateBps;
    assert s.RegisteredPadUpBps() == afterReconfiguration;
    s.OnBitrateUpdated(BitrateAllocationUpdate(100000, 0), 100000, 0);
    var _ := s.OnEncodedImage(0);
    afterEncodedFrame := s.CurrentAllocationConfig().padUpBitrateBps;
    assert s.RegisteredPadUpBps() == afterEncodedFrame;
    s.OnEncoderTimedOut();
    afterTimeout := s.CurrentAllocationConfig().padUpBitrateBps;
    assert s.registration.None?;
    s.Stop();
  }

  /** Nothing is forwarded while paused; after an unpause the same allocation goes through,
   *  and after a pause again it is held back. */
  method AllocationsGatedByPause() returns (whilePaused: bool, afterUnpause: bool, afterPauseAgain: bool)
    ensures !whilePaused && afterUnpause && !afterPauseAgain
  {
    var s := StartedStream();
    var alloc := FourLayerAllocation();
    whilePaused := s.OnBitrateAllocationUpdated(alloc, 0);
    s.OnBitrateUpdated(BitrateAllocationUpdate(100000, 0), 100000, 0);
    afterUnpause := s.OnBitrateAllocationUpdated(alloc, 0);
    s.OnBitrateUpdated(BitrateAllocationUpdate(0, 0), 0, 0);
    afterPauseAgain := s.OnBitrateAllocationUpdated(alloc, 0);
    s.Stop();
  }

  /** A raise of the base layer by one less than a tenth of the total is held back, a raise of
   *  a full tenth is forwarded, and the following decrease is forwarded too. */
  method SimilarAllocationsThrottled() returns (first: bool, smallRaise: bool, fullTenthRaise: bool, decrease: bool)
    ensures first && !smallRaise && fullTenthRaise && decrease
  {
    var s := UnpausedStream();
    var alloc := FourLayerAllocation();
    first := s.OnBitrateAllocationUpdated(alloc, 0);
    var small := SetBitrate(alloc, 0, 0, 10000 + 10000 - 1);
    smallRaise := s.OnBitrateAllocationUpdated(small, 0);
    assert !smallRaise by { ForwardedIff(AllocationContext(alloc, 0, None), small, 0); }
    var large := SetBitrate(alloc, 0, 0, 10000 + 10000);
    fullTenthRaise := s.OnBitrateAllocationUpdated(large, 0);
    assert fullTenthRaise by { ForwardedIff(AllocationContext(alloc, 0, Some(small)), large, 0); }
    var lower := SetBitrate(large, 0, 0, 10000 + 10000 - 1);
    decrease := s.OnBitrateAllocationUpdated(lower, 0);
    s.Stop();
  }

  /** An identical allocation is held back, forwarded once the window has passed and held back
   *  again; the held one is flushed by an encoded image only after the window, exactly once.
   *  Allocation updates come at 0, 0, 500 and 500 ms, encoded images at 500, 1000 and 1500 ms. */
  method ThrottleWindowAndFlush() returns (first: bool, repeated: bool, afterWindow: bool, repeatedAgain: bool,
                                           imageInWindow: bool, imageAfterWindow: bool, imageLater: bool)
    ensures first && !repeated && afterWindow && !repeatedAgain
    ensures !imageInWindow && imageAfterWindow && !imageLater
  {
    var s := UnpausedStream();
    var alloc := FourLayerAllocation();
    first := s.OnBitrateAllocationUpdated(alloc, 0);
    repeated := s.OnBitrateAllocationUpdated(alloc, 0);
    afterWindow := s.OnBitrateAllocationUpdated(alloc, 500);
    repeatedAgain := s.OnBitrateAllocationUpdated(alloc, 500);
    imageInWindow := s.OnEncodedImage(500);
    imageAfterWindow := s.OnEncodedImage(1000);
    imageLater := s.OnEncodedImage(1500);
    s.Stop();
  }

  /** A held allocation does not outlive Stop: an encoded image after the window flushes
   *  nothing once the stream has been stopped. */
  method HeldAllocationDiscardedOnStop() returns (first: bool, repeated: bool, imageAfterStop: bool)
    ensures first && !repeated && !imageAfterStop
  {
    var s := UnpausedStream();
    var alloc := FourLayerAllocation();
    first := s.OnBitrateAllocationUpdated(alloc, 0);
    repeated := s.OnBitrateAllocationUpdated(alloc, 0);
    s.Stop();
    imageAfterStop := s.OnEncodedImage(1000);
  }

  /** The registered priority is the initial one until the encoder reports its layers, then the
   *  sum of the layers' priorities: two layers of priority 1 register priority 2. */
  method PriorityFollowsLayers() returns (beforeLayers: real, afterLayers: real)
    ensures beforeLayers == kBitratePriority && afterLayers == 2.0
  {
    var s := StartedStream();
    beforeLayers := s.CurrentAllocationConfig().bitratePriority;
    var layers := [VideoStream(30000, 100000, 200000, Some(1.0)), VideoStream(150000, 500000, 750000, Some(1.0))];
    s.OnEncoderConfigurationChanged(layers, 0);
    UnitPrioritiesSumToLayerCount(layers);
    afterLayers := s.CurrentAllocationConfig().bitratePriority;
    assert s.registration == Some(s.CurrentAllocationConfig());
    s.Stop();
  }
}
