/** The arithmetic of VideoSendStreamImpl: what it registers with the bitrate allocator for a
 *  layer list, how it splits a network bitrate update between the RTP sender and the encoder,
 *  and when it forwards a new bitrate allocation to the encoder. */
module SendStreamRules {
  import opened Wrappers
  import opened BitrateAllocation

  /** A non-negative rational num/den, used for the hysteresis factor and the pacing factor. */
  datatype Ratio = Ratio(num: nat, den: nat)

  type PositiveRatio = r: Ratio | r.den > 0 witness Ratio(1, 1)

  /** One simulcast layer as the encoder reports it after a configuration change; its bitrate
   *  priority is optional. */
  datatype VideoStream = VideoStream(minBitrateBps: nat, targetBitrateBps: nat, maxBitrateBps: nat,
                                     bitratePriority: Option<real>)

  /** What the stream registers with the bitrate allocator. */
  datatype StreamAllocationConfig = StreamAllocationConfig(
    minBitrateBps: nat,
    maxBitrateBps: nat,
    padUpBitrateBps: nat,
    enforceMinBitrate: bool,
    trackId: string,
    bitratePriority: real)

  function Min(a: int, b: int): int { if a < b then a else b }
  function Max(a: int, b: int): int { if a < b then b else a }

  // ---------------------------------------------------------------------------------------
  // Registration bounds derived from the layer list.

  /** Sum of the layers' max bitrates. */
  function SumMaxBitrates(layers: seq<VideoStream>): nat
  {
    if |layers| == 0 then 0 else SumMaxBitrates(layers[..|layers| - 1]) + layers[|layers| - 1].maxBitrateBps
  }

  /** Sum of the layers' target bitrates. */
  function SumTargetBitrates(layers: seq<VideoStream>): nat
  {
    if |layers| == 0 then 0 else SumTargetBitrates(layers[..|layers| - 1]) + layers[|layers| - 1].targetBitrateBps
  }

  /** Sum of the layers' bitrate priorities, a layer without one counting 0: the priority the
   *  stream registers with once the encoder has reported its layers. */
  function SumBitratePriorities(layers: seq<VideoStream>): real
  {
    if |layers| == 0 then 0.0
    else
      var last := layers[|layers| - 1];
      SumBitratePriorities(layers[..|layers| - 1]) + (if last.bitratePriority.Some? then last.bitratePriority.value else 0.0)
  }

  /** Layers that all carry priority 1 register a priority equal to their number. */
  lemma {:induction false} UnitPrioritiesSumToLayerCount(layers: seq<VideoStream>)
    requires forall i :: 0 <= i < |layers| ==> layers[i].bitratePriority == Some(1.0)
    ensures SumBitratePriorities(layers) == |layers| as real
  {
    if |layers| > 0 {
      UnitPrioritiesSumToLayerCount(layers[..|layers| - 1]);
    }
  }

  /** The sum of max bitrates is additive over a split of the layer list. */
  lemma {:induction false} SumMaxBitratesAppend(a: seq<VideoStream>, b: seq<VideoStream>)
    ensures SumMaxBitrates(a + b) == SumMaxBitrates(a) + SumMaxBitrates(b)
    decreases |b|
  {
    if |b| == 0 {
      assert a + b == a;
    } else {
      var b' := b[..|b| - 1];
      assert (a + b)[..|a + b| - 1] == a + b';
      SumMaxBitratesAppend(a, b');
    }
  }

  /** Every layer's max bitrate fits inside the registered max. */
  lemma {:induction false} LayerMaxWithinSum(layers: seq<VideoStream>, i: nat)
    requires i < |layers|
    ensures layers[i].maxBitrateBps <= SumMaxBitrates(layers)
  {
    SumMaxBitratesAppend(layers[..i], layers[i..]);
    assert layers == layers[..i] + layers[i..];
    SumMaxBitratesAppend([layers[i]], layers[i + 1..]);
    assert layers[i..] == [layers[i]] + layers[i + 1..];
    assert [layers[i]][..0] == [];
  }

  /** round(h * x), rounding half up, as the integer conversion of `h * x + 0.5` does. */
  function ScaleRounded(h: PositiveRatio, x: nat): nat
  {
    (2 * h.num * x + h.den) / (2 * h.den)
  }

  /** The padding bitrate the stream may ask for:
   *  - several layers with ALR probing: the lowest layer's min bitrate;
   *  - several layers otherwise: the lower layers' targets plus the top layer's min bitrate
   *    scaled by the hysteresis factor, the latter capped at the top layer's target;
   *  - a single layer that pads up to its min bitrate (suspend-below-min): its min bitrate;
   *  - never below the configured min transmit bitrate. */
  function MaxPadBitrate(layers: seq<VideoStream>, minTransmitBitrateBps: nat, padToMinBitrate: bool,
                         alrProbing: bool, hysteresis: PositiveRatio): (r: nat)
    ensures r >= minTransmitBitrateBps
    ensures |layers| > 1 && alrProbing ==> r == Max(layers[0].minBitrateBps, minTransmitBitrateBps)
    ensures |layers| == 1 && padToMinBitrate ==> r == Max(layers[0].minBitrateBps, minTransmitBitrateBps)
    ensures |layers| == 0 || (|layers| == 1 && !padToMinBitrate) ==> r == minTransmitBitrateBps
  {
    var padUp: nat :=
      if |layers| > 1 then
        if alrProbing then layers[0].minBitrateBps
        else
          var top := layers[|layers| - 1];
          Min(ScaleRounded(hysteresis, top.minBitrateBps), top.targetBitrateBps)
            + SumTargetBitrates(layers[..|layers| - 1])
      else if |layers| == 1 && padToMinBitrate then layers[0].minBitrateBps
      else 0;
    Max(padUp, minTransmitBitrateBps)
  }

  /** ScaleRounded is h * x rounded to the nearest integer, halves rounded up:
   *  r - 1/2 <= h * x < r + 1/2, written over the common denominator 2 * h.den. */
  lemma ScaleRoundedNearest(h: PositiveRatio, x: nat)
    ensures 2 * h.den * ScaleRounded(h, x) <= 2 * h.num * x + h.den < 2 * h.den * (ScaleRounded(h, x) + 1)
  {
    var d := 2 * h.den;
    var n := 2 * h.num * x + h.den;
    var r := n / d;
    assert n == d * r + n % d;
    assert d * (r + 1) == d * r + d;
  }

  /** When h * x is a whole number, ScaleRounded returns it exactly. */
  lemma ScaleRoundedExact(h: PositiveRatio, x: nat)
    requires (h.num * x) % h.den == 0
    ensures ScaleRounded(h, x) == h.num * x / h.den
  {
    var q := h.num * x / h.den;
    assert h.num * x == h.den * q;
    assert 2 * h.num * x + h.den == 2 * h.den * q + h.den;
    DivideWithRemainder(2 * h.num * x + h.den, 2 * h.den, q, h.den);
  }

  /** Division is unique: n = d * q + rem with 0 <= rem < d gives n / d == q. */
  lemma DivideWithRemainder(n: nat, d: nat, q: nat, rem: nat)
    requires d > 0 && rem < d && n == d * q + rem
    ensures n / d == q
  {
    var q' := n / d;
    assert n == d * q' + n % d;
    if q' < q {
      MultiplyMonotone(d, q' + 1, q);
      assert false;
    } else if q' > q {
      MultiplyMonotone(d, q + 1, q');
      assert false;
    }
  }

  lemma MultiplyMonotone(d: nat, a: nat, b: nat)
    requires a <= b
    ensures d * a <= d * b
  {
    var k: nat := b - a;
    assert d * b == d * a + d * k;
  }

  /** Several layers without ALR probing, for any layer count and hysteresis factor: the
   *  lower layers' targets plus the top layer's min scaled by the hysteresis factor (capped
   *  at the top layer's target), floored at the min transmit bitrate. */
  lemma {:induction false} PadUpWithoutAlr(lower: seq<VideoStream>, top: VideoStream, minTransmitBitrateBps: nat,
                                           padToMinBitrate: bool, hysteresis: PositiveRatio)
    requires |lower| >= 1
    ensures MaxPadBitrate(lower + [top], minTransmitBitrateBps, padToMinBitrate, false, hysteresis)
            == Max(SumTargetBitrates(lower) + Min(ScaleRounded(hysteresis, top.minBitrateBps), top.targetBitrateBps),
                   minTransmitBitrateBps)
  {
    var layers := lower + [top];
    assert layers[..|layers| - 1] == lower;
    assert layers[|layers| - 1] == top;
  }

  /** Two simulcast layers without ALR and with no hysteresis: the pad-up bitrate is the lower
   *  layer's target plus the upper layer's min bitrate. */
  lemma PadUpForTwoLayers(low: VideoStream, high: VideoStream, minTransmitBitrateBps: nat, padToMinBitrate: bool)
    requires high.minBitrateBps <= high.targetBitrateBps
    requires minTransmitBitrateBps <= low.targetBitrateBps + high.minBitrateBps
    ensures MaxPadBitrate([low, high], minTransmitBitrateBps, padToMinBitrate, false, Ratio(1, 1))
            == low.targetBitrateBps + high.minBitrateBps
  {
    assert [low, high] == [low] + [high];
    PadUpWithoutAlr([low], high, minTransmitBitrateBps, padToMinBitrate, Ratio(1, 1));
    assert [low][..0] == [];
    assert SumTargetBitrates([low]) == low.targetBitrateBps;
    ScaleRoundedExact(Ratio(1, 1), high.minBitrateBps);
  }

  /** With hysteresis 5/4 the upper layer's contribution is its min bitrate times 5/4, rounded
   *  to the nearest bps (exactly five quarters when that is whole) and capped at its target. */
  lemma PadUpWithHysteresis(low: VideoStream, high: VideoStream, minTransmitBitrateBps: nat, padToMinBitrate: bool)
    ensures var scaled := ScaleRounded(Ratio(5, 4), high.minBitrateBps);
            && MaxPadBitrate([low, high], minTransmitBitrateBps, padToMinBitrate, false, Ratio(5, 4))
               == Max(low.targetBitrateBps + Min(scaled, high.targetBitrateBps), minTransmitBitrateBps)
            && 5 * high.minBitrateBps - 2 < 4 * scaled <= 5 * high.minBitrateBps + 2
            && (high.minBitrateBps % 4 == 0 ==> scaled == high.minBitrateBps / 4 * 5)
  {
    assert [low, high] == [low] + [high];
    PadUpWithoutAlr([low], high, minTransmitBitrateBps, padToMinBitrate, Ratio(5, 4));
    assert [low][..0] == [];
    assert SumTargetBitrates([low]) == low.targetBitrateBps;
    ScaleRoundedNearest(Ratio(5, 4), high.minBitrateBps);
    if high.minBitrateBps % 4 == 0 {
      var q := high.minBitrateBps / 4;
      assert (5 * high.minBitrateBps) % 4 == 0 by {
        assert 5 * high.minBitrateBps == 4 * (5 * q);
      }
      ScaleRoundedExact(Ratio(5, 4), high.minBitrateBps);
      assert 5 * high.minBitrateBps / 4 == 5 * q;
    }
  }

  /** With ALR probing on several layers, the pad-up bitrate is the min transmit bitrate
   *  whenever that is at least the lowest layer's min bitrate. */
  lemma PadUpWithAlrIsMinTransmit(layers: seq<VideoStream>, minTransmitBitrateBps: nat, padToMinBitrate: bool,
                                  hysteresis: PositiveRatio)
    requires |layers| > 1
    requires layers[0].minBitrateBps <= minTransmitBitrateBps
    ensures MaxPadBitrate(layers, minTransmitBitrateBps, padToMinBitrate, true, hysteresis) == minTransmitBitrateBps
  {
  }

  /** The configuration registered with the bitrate allocator. Padding is offered only while
   *  it is not disabled, and the min bitrate is enforced unless the stream may be suspended. */
  function AllocationConfig(minBitrateBps: nat, maxBitrateBps: nat, maxPaddingBitrateBps: nat,
                            disablePadding: bool, suspendBelowMinBitrate: bool, trackId: string,
                            bitratePriority: real): (c: StreamAllocationConfig)
    ensures c.minBitrateBps == minBitrateBps && c.maxBitrateBps == maxBitrateBps
    ensures c.padUpBitrateBps == 0 <==> disablePadding || maxPaddingBitrateBps == 0
    ensures !disablePadding ==> c.padUpBitrateBps == maxPaddingBitrateBps
    ensures c.enforceMinBitrate <==> !suspendBelowMinBitrate
    ensures c.trackId == trackId && c.bitratePriority == bitratePriority
  {
    StreamAllocationConfig(minBitrateBps, maxBitrateBps, if disablePadding then 0 else maxPaddingBitrateBps,
                           !suspendBelowMinBitrate, trackId, bitratePriority)
  }

  // ---------------------------------------------------------------------------------------
  // Splitting a network update between the RTP sender and the encoder.

  /** What the encoder is told: its target bitrate and the link capacity it may assume. */
  datatype EncoderRates = EncoderRates(targetBps: nat, linkAllocationBps: nat)

  /** The encoder target is the payload bitrate the RTP sender reports, capped at the encoder
   *  max; the link share is the payload minus protection overhead, never below the target. */
  function SplitEncoderRates(payloadBitrateBps: nat, protectionBitrateBps: nat, encoderMaxBitrateBps: nat): (r: EncoderRates)
    ensures r.targetBps <= payloadBitrateBps && r.targetBps <= encoderMaxBitrateBps
    ensures r.targetBps == payloadBitrateBps || r.targetBps == encoderMaxBitrateBps
    ensures r.linkAllocationBps >= r.targetBps
    ensures protectionBitrateBps < payloadBitrateBps ==> r.linkAllocationBps >= payloadBitrateBps - protectionBitrateBps
    ensures r.linkAllocationBps == r.targetBps
            || (protectionBitrateBps < payloadBitrateBps && r.linkAllocationBps == payloadBitrateBps - protectionBitrateBps)
  {
    var headroom: nat := if payloadBitrateBps > protectionBitrateBps then payloadBitrateBps - protectionBitrateBps else 0;
    var target := Min(encoderMaxBitrateBps, payloadBitrateBps);
    EncoderRates(target, Max(target, headroom))
  }

  /** The encoder target is 0 exactly when the RTP sender reports no payload bitrate (or the
   *  encoder max is 0): that is the paused state. */
  lemma PausedIffNoPayload(payloadBitrateBps: nat, protectionBitrateBps: nat, encoderMaxBitrateBps: nat)
    requires encoderMaxBitrateBps > 0
    ensures SplitEncoderRates(payloadBitrateBps, protectionBitrateBps, encoderMaxBitrateBps).targetBps == 0
            <==> payloadBitrateBps == 0
  {
  }

  // ---------------------------------------------------------------------------------------
  // Throttling of bitrate allocations forwarded to the encoder.

  const kMaxVbaSizeDifferencePercent: nat := 10
  const kMaxVbaThrottleTimeMs: int := 500

  /** The last forwarded allocation, when it went out, and at most one allocation held back. */
  datatype AllocationContext = AllocationContext(
    lastSent: VideoBitrateAllocation,
    lastSendTimeMs: int,
    throttled: Option<VideoBitrateAllocation>)

  /** An allocation is similar to the last forwarded one when it populates the same layers and
   *  its total is at least the old total and less than 110% of it. */
  predicate IsSimilar(a: VideoBitrateAllocation, last: VideoBitrateAllocation)
  {
    && a.sumBps >= last.sumBps
    && a.sumBps < (last.sumBps * (100 + kMaxVbaSizeDifferencePercent)) / 100
    && SameStreamsEnabled(a, last)
  }

  lemma OneHundredTenPercent(s: nat)
    ensures (s * 110) / 100 == s + s / 10
  {
    var q := s / 10;
    var r := s % 10;
    assert s == 10 * q + r;
    assert s * 110 == 100 * (11 * q + r) + 10 * r;
    assert 0 <= 10 * r < 100;
  }

  /** Similarity in plain terms: same populated layers and a total raised by less than a tenth
   *  (rounded down) of the last forwarded total. */
  lemma SimilarIff(a: VideoBitrateAllocation, last: VideoBitrateAllocation)
    ensures IsSimilar(a, last) <==>
            SameStreamsEnabled(a, last) && last.sumBps <= a.sumBps < last.sumBps + last.sumBps / 10
  {
    OneHundredTenPercent(last.sumBps);
  }

  /** The result of offering an allocation: the new context and whether it was forwarded. */
  datatype ThrottleResult = ThrottleResult(context: AllocationContext, forwarded: bool)

  /** An allocation is forwarded when there is no previous one, when it is not similar to the
   *  last one, or when the throttle window has run out; otherwise it replaces the held one. */
  function OfferAllocation(ctx: Option<AllocationContext>, a: VideoBitrateAllocation, nowMs: int): (r: ThrottleResult)
    ensures r.forwarded <==> (ctx.None? || !IsSimilar(a, ctx.value.lastSent)
                              || nowMs - ctx.value.lastSendTimeMs >= kMaxVbaThrottleTimeMs)
    ensures r.forwarded ==> r.context == AllocationContext(a, nowMs, None)
    ensures !r.forwarded ==> r.context == ctx.value.(throttled := Some(a))
  {
    if ctx.Some? && IsSimilar(a, ctx.value.lastSent) && nowMs - ctx.value.lastSendTimeMs < kMaxVbaThrottleTimeMs then
      ThrottleResult(ctx.value.(throttled := Some(a)), false)
    else
      ThrottleResult(AllocationContext(a, nowMs, None), true)
  }

  /** The held allocation, if any, is always similar to the last forwarded one. */
  ghost predicate ContextValid(c: AllocationContext)
  {
    c.throttled.Some? ==> IsSimilar(c.throttled.value, c.lastSent)
  }

  lemma OfferKeepsContextValid(ctx: Option<AllocationContext>, a: VideoBitrateAllocation, nowMs: int)
    requires ctx.Some? ==> ContextValid(ctx.value)
    ensures ContextValid(OfferAllocation(ctx, a, nowMs).context)
  {
  }

  /** The forwarding rule in terms of totals: within the window an allocation is held back
   *  exactly when it keeps the populated layers and raises the total by less than a tenth. */
  lemma ForwardedIff(last: AllocationContext, a: VideoBitrateAllocation, nowMs: int)
    requires nowMs - last.lastSendTimeMs < kMaxVbaThrottleTimeMs
    ensures OfferAllocation(Some(last), a, nowMs).forwarded <==>
            (|| a.bitrates.Keys != last.lastSent.bitrates.Keys
             || a.sumBps < last.lastSent.sumBps
             || a.sumBps >= last.lastSent.sumBps + last.lastSent.sumBps / 10)
  {
    SimilarIff(a, last.lastSent);
  }

  /** An identical allocation inside the window is held back and the last forwarded one kept
   *  (for totals below 10 bps the 110% bound rounds down to the total itself, so there even an
   *  identical allocation is forwarded). */
  lemma IdenticalAllocationHeldBack(last: AllocationContext, nowMs: int)
    requires nowMs - last.lastSendTimeMs < kMaxVbaThrottleTimeMs
    requires last.lastSent.sumBps >= 10
    ensures !OfferAllocation(Some(last), last.lastSent, nowMs).forwarded
    ensures OfferAllocation(Some(last), last.lastSent, nowMs).context.lastSent == last.lastSent
  {
    SimilarIff(last.lastSent, last.lastSent);
  }

  /** What an encoded image does to the throttle: re-offer the held allocation, if any. */
  function FlushOnEncodedImage(ctx: Option<AllocationContext>, nowMs: int): (r: ThrottleResult)
    requires ctx.Some?
    ensures ctx.value.throttled.None? ==> r == ThrottleResult(ctx.value, false)
    ensures ctx.value.throttled.Some? ==> r == OfferAllocation(ctx, ctx.value.throttled.value, nowMs)
  {
    if ctx.value.throttled.Some? then OfferAllocation(ctx, ctx.value.throttled.value, nowMs)
    else ThrottleResult(ctx.value, false)
  }

  /** A held allocation is flushed exactly when the window has run out; once flushed nothing is
   *  held, so a further encoded image forwards nothing. */
  lemma {:induction false} FlushOnceAfterWindow(c: AllocationContext, nowMs: int, laterMs: int)
    requires ContextValid(c) && c.throttled.Some?
    ensures FlushOnEncodedImage(Some(c), nowMs).forwarded <==> nowMs - c.lastSendTimeMs >= kMaxVbaThrottleTimeMs
    ensures var f := FlushOnEncodedImage(Some(c), nowMs);
            f.forwarded ==> f.context.lastSent == c.throttled.value
                            && !FlushOnEncodedImage(Some(f.context), laterMs).forwarded
    ensures var f := FlushOnEncodedImage(Some(c), nowMs);
            !f.forwarded ==> f.context == c
  {
  }
}
