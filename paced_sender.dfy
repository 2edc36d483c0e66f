/** PacedSender: a packet queue drained every few milliseconds at a pacing rate, with a media
 *  budget, a padding budget, an optional congestion window on outstanding bytes, a pause
 *  state with keep-alive padding, and queue-time accounting. The packet router is not
 *  modelled: which sends fail with "transport unavailable" and how many padding bytes the
 *  router produces for a request are arguments of Process. Time is an explicit argument. */
module Pacing {
  import opened Wrappers
  import opened IntervalBudgets

  const kMinPacketLimitMs: int := 5
  const kPausedProcessIntervalMs: int := 500
  const kCongestedPacketIntervalMs: int := 500
  const kMaxElapsedTimeMs: int := 2000
  const kMaxIntervalTimeMs: int := 30

  /** Priorities of packets handed over by (ssrc, sequence number). */
  datatype Priority = HighPriority | NormalPriority | LowPriority

  /** Types of packets handed over whole. */
  datatype PacketType = Audio | Retransmission | Video | ForwardErrorCorrection | Padding

  /** Queue priority of a legacy packet; smaller leaves first. */
  function PriorityLevel(p: Priority): nat
  {
    match p
    case HighPriority => 0
    case NormalPriority => 2
    case LowPriority => 3
  }

  /** Queue priority of an owned packet by type; smaller leaves first. */
  function PriorityForType(t: PacketType): nat
  {
    match t
    case Audio => 0
    case Retransmission => 1
    case Video => 2
    case ForwardErrorCorrection => 3
    case Padding => 4
  }

  /** The type order of owned packets: audio, retransmission, video, FEC, padding. */
  lemma TypeOrderIsPriorityOrder()
    ensures PriorityForType(Audio) < PriorityForType(Retransmission) < PriorityForType(Video)
            < PriorityForType(ForwardErrorCorrection) < PriorityForType(Padding)
  {
  }

  /** A queued packet. Legacy packets are sent by (ssrc, sequence number) and may fail;
   *  owned packets are handed to the router whole. */
  datatype QueuedPacket = QueuedPacket(
    priority: nat,
    kind: PacketType,
    ssrc: nat,
    sequenceNumber: nat,
    captureTimeMs: int,
    enqueueTimeMs: int,
    sizeBytes: nat,
    retransmission: bool,
    enqueueOrder: nat,
    owned: bool)

  /** `a` leaves the queue before `b`: lower priority value first, then retransmissions, then
   *  the earlier insertion. This is the order within one SSRC stream; the turn-taking between
   *  streams of equal priority is not modelled, so it is applied across all packets. */
  predicate Before(a: QueuedPacket, b: QueuedPacket)
  {
    if a.priority != b.priority then a.priority < b.priority
    else if a.retransmission != b.retransmission then a.retransmission
    else a.enqueueOrder < b.enqueueOrder
  }

  /** The index of the packet that leaves next: no queued packet comes before it. */
  function TopIndex(q: seq<QueuedPacket>): (i: nat)
    requires |q| > 0
    ensures i < |q|
    ensures forall j :: 0 <= j < |q| ==> !Before(q[j], q[i])
    decreases |q|
  {
    if |q| == 1 then 0
    else
      var k := TopIndex(q[1..]) + 1;
      if Before(q[k], q[0]) then k else 0
  }

  function RemoveAt(q: seq<QueuedPacket>, i: nat): (r: seq<QueuedPacket>)
    requires i < |q|
    ensures |r| == |q| - 1
    ensures multiset(r) + multiset{q[i]} == multiset(q)
  {
    assert q == q[..i] + [q[i]] + q[i + 1..];
    q[..i] + q[i + 1..]
  }

  /** No packet of the sequence comes before an earlier one. */
  ghost predicate InSendOrder(s: seq<QueuedPacket>)
  {
    forall i, j :: 0 <= i < j < |s| ==> !Before(s[j], s[i])
  }

  /** The pacer's state. */
  datatype Pacer = Pacer(
    queue: seq<QueuedPacket>,
    media: IntervalBudget,
    padding: IntervalBudget,
    pacingBitrateKbps: nat,
    congestionWindowBytes: Option<nat>,
    outstandingBytes: int,
    paused: bool,
    packetCounter: nat,
    firstSentPacketMs: int,
    lastSendTimeMs: int,
    timeLastProcessMs: int,
    padInSilence: bool,
    paceAudio: bool)

  predicate Congested(s: Pacer)
  {
    s.congestionWindowBytes.Some? && s.outstandingBytes >= s.congestionWindowBytes.value
  }

  /** Pacing holds `p` back: it is paced (not audio, or audio pacing is on) and the window is
   *  full or the media budget is spent. */
  predicate Blocked(s: Pacer, p: QueuedPacket)
  {
    (p.kind != Audio || s.paceAudio) && (Congested(s) || BytesRemaining(s.media) == 0)
  }

  /** The router refuses a legacy packet because the transport is unavailable. */
  predicate Refused(p: QueuedPacket, unavailable: set<(nat, nat)>)
  {
    !p.owned && (p.ssrc, p.sequenceNumber) in unavailable
  }

  /** Bytes went out: both budgets are charged and the bytes count as outstanding. */
  function BytesSent(s: Pacer, bytes: nat): Pacer
  {
    s.(media := UseBudget(s.media, bytes), padding := UseBudget(s.padding, bytes),
       outstandingBytes := s.outstandingBytes + bytes)
  }

  /** Packet `i` was sent at `nowMs`. Audio is not charged to the budgets. */
  function PacketSent(s: Pacer, i: nat, nowMs: int): (r: Pacer)
    requires i < |s.queue|
    ensures r.queue == RemoveAt(s.queue, i)
    ensures r.firstSentPacketMs == if s.firstSentPacketMs == -1 then nowMs else s.firstSentPacketMs
  {
    var p := s.queue[i];
    var s1 := s.(queue := RemoveAt(s.queue, i),
                 firstSentPacketMs := if s.firstSentPacketMs == -1 then nowMs else s.firstSentPacketMs);
    if p.kind == Audio then s1 else BytesSent(s1, p.sizeBytes).(lastSendTimeMs := nowMs)
  }

  /** Padding was produced at `nowMs`; the send time moves even when the router produced none. */
  function PaddingSent(s: Pacer, bytes: nat, nowMs: int): Pacer
  {
    (if bytes > 0 then BytesSent(s, bytes) else s).(lastSendTimeMs := nowMs)
  }

  /** Moving one packet from the head of the packets still to go onto the end of those sent. */
  lemma AppendOne(sent: seq<QueuedPacket>, p: QueuedPacket, rest: seq<QueuedPacket>)
    ensures sent + ([p] + rest) == (sent + [p]) + rest
  {
  }

  datatype DrainResult = DrainResult(state: Pacer, sent: seq<QueuedPacket>)

  /** The drain loop of one Process call: send the next packet until the queue is empty, the
   *  next packet is held back by pacing, or the router refuses it (it then stays queued). */
  function Drain(s: Pacer, nowMs: int, unavailable: set<(nat, nat)>): (r: DrainResult)
    decreases |s.queue|
  {
    if |s.queue| == 0 then DrainResult(s, [])
    else
      var i := TopIndex(s.queue);
      var p := s.queue[i];
      if Blocked(s, p) || Refused(p, unavailable) then DrainResult(s, [])
      else
        var rest := Drain(PacketSent(s, i, nowMs), nowMs, unavailable);
        DrainResult(rest.state, [p] + rest.sent)
  }

  lemma DrainEmpty(s: Pacer, nowMs: int, unavailable: set<(nat, nat)>)
    requires |s.queue| == 0
    ensures Drain(s, nowMs, unavailable) == DrainResult(s, [])
  {
  }

  lemma DrainHeld(s: Pacer, nowMs: int, unavailable: set<(nat, nat)>)
    requires |s.queue| > 0
    requires var p := s.queue[TopIndex(s.queue)]; Blocked(s, p) || Refused(p, unavailable)
    ensures Drain(s, nowMs, unavailable) == DrainResult(s, [])
  {
  }

  lemma DrainStep(s: Pacer, nowMs: int, unavailable: set<(nat, nat)>)
    requires |s.queue| > 0
    requires var p := s.queue[TopIndex(s.queue)]; !(Blocked(s, p) || Refused(p, unavailable))
    ensures var rest := Drain(PacketSent(s, TopIndex(s.queue), nowMs), nowMs, unavailable);
            Drain(s, nowMs, unavailable) == DrainResult(rest.state, [s.queue[TopIndex(s.queue)]] + rest.sent)
  {
  }

  /** The fields the drain loop does not touch. */
  predicate UnchangedByDrain(s: Pacer, t: Pacer)
  {
    && t.pacingBitrateKbps == s.pacingBitrateKbps && t.congestionWindowBytes == s.congestionWindowBytes
    && t.paused == s.paused && t.packetCounter == s.packetCounter && t.timeLastProcessMs == s.timeLastProcessMs
    && t.padInSilence == s.padInSilence && t.paceAudio == s.paceAudio
    && t.media.targetRateKbps == s.media.targetRateKbps && t.media.maxBytesInBudget == s.media.maxBytesInBudget
    && t.padding.targetRateKbps == s.padding.targetRateKbps && t.padding.maxBytesInBudget == s.padding.maxBytesInBudget
  }

  lemma {:induction false} DrainFrame(s: Pacer, nowMs: int, unavailable: set<(nat, nat)>)
    ensures UnchangedByDrain(s, Drain(s, nowMs, unavailable).state)
    decreases |s.queue|
  {
    if |s.queue| > 0 {
      var i := TopIndex(s.queue);
      var p := s.queue[i];
      if !(Blocked(s, p) || Refused(p, unavailable)) {
        DrainFrame(PacketSent(s, i, nowMs), nowMs, unavailable);
      }
    }
  }

  /** Every packet the drain takes out was queued, and every queued packet is either sent or
   *  still queued. */
  lemma {:induction false} DrainConserves(s: Pacer, nowMs: int, unavailable: set<(nat, nat)>)
    ensures var r := Drain(s, nowMs, unavailable);
            multiset(r.state.queue) + multiset(r.sent) == multiset(s.queue)
    decreases |s.queue|
  {
    if |s.queue| > 0 {
      var i := TopIndex(s.queue);
      var p := s.queue[i];
      if !(Blocked(s, p) || Refused(p, unavailable)) {
        DrainConserves(PacketSent(s, i, nowMs), nowMs, unavailable);
      }
    }
  }

  /** No packet still queued once the head is taken out comes before the head. */
  lemma NotBeforeTop(q: seq<QueuedPacket>, x: QueuedPacket)
    requires |q| > 0 && x in multiset(RemoveAt(q, TopIndex(q)))
    ensures !Before(x, q[TopIndex(q)])
  {
    assert x in multiset(q);
  }

  /** Nothing left behind by the drain comes before a packet it sent. */
  lemma {:induction false} DrainLeavesNothingEarlier(s: Pacer, nowMs: int, unavailable: set<(nat, nat)>)
    ensures var r := Drain(s, nowMs, unavailable);
            forall i, j :: 0 <= i < |r.sent| && 0 <= j < |r.state.queue| ==> !Before(r.state.queue[j], r.sent[i])
    decreases |s.queue|
  {
    if |s.queue| > 0 {
      var i := TopIndex(s.queue);
      var p := s.queue[i];
      if !(Blocked(s, p) || Refused(p, unavailable)) {
        var s' := PacketSent(s, i, nowMs);
        var rest := Drain(s', nowMs, unavailable);
        DrainLeavesNothingEarlier(s', nowMs, unavailable);
        DrainConserves(s', nowMs, unavailable);
        DrainStep(s, nowMs, unavailable);
        forall j | 0 <= j < |rest.state.queue|
          ensures !Before(rest.state.queue[j], p)
        {
          assert rest.state.queue[j] in multiset(rest.state.queue);
          NotBeforeTop(s.queue, rest.state.queue[j]);
        }
        NothingEarlierPrepend(p, rest.sent, rest.state.queue);
      }
    }
  }

  /** Nothing left comes before any sent packet, and nothing left comes before `p` either,
   *  so nothing left comes before `p` followed by the sent packets. */
  lemma NothingEarlierPrepend(p: QueuedPacket, sent: seq<QueuedPacket>, left: seq<QueuedPacket>)
    requires forall i, j :: 0 <= i < |sent| && 0 <= j < |left| ==> !Before(left[j], sent[i])
    requires forall j :: 0 <= j < |left| ==> !Before(left[j], p)
    ensures forall i, j :: 0 <= i < |[p] + sent| && 0 <= j < |left| ==> !Before(left[j], ([p] + sent)[i])
  {
    forall i, j | 0 <= i < |[p] + sent| && 0 <= j < |left|
      ensures !Before(left[j], ([p] + sent)[i])
    {
      if i > 0 {
        assert ([p] + sent)[i] == sent[i - 1];
      }
    }
  }

  /** Packets leave in queue order. */
  lemma {:induction false} DrainSendsInOrder(s: Pacer, nowMs: int, unavailable: set<(nat, nat)>)
    ensures InSendOrder(Drain(s, nowMs, unavailable).sent)
    decreases |s.queue|
  {
    if |s.queue| > 0 {
      var i := TopIndex(s.queue);
      var p := s.queue[i];
      if !(Blocked(s, p) || Refused(p, unavailable)) {
        var s' := PacketSent(s, i, nowMs);
        var rest := Drain(s', nowMs, unavailable);
        DrainSendsInOrder(s', nowMs, unavailable);
        DrainConserves(s', nowMs, unavailable);
        DrainStep(s, nowMs, unavailable);
        forall k | 0 <= k < |rest.sent|
          ensures !Before(rest.sent[k], p)
        {
          assert rest.sent[k] in multiset(rest.sent);
          NotBeforeTop(s.queue, rest.sent[k]);
        }
        InSendOrderPrepend(p, rest.sent);
      }
    }
  }

  /** A packet nothing after it comes before, followed by packets in send order, is in send
   *  order. */
  lemma InSendOrderPrepend(p: QueuedPacket, sent: seq<QueuedPacket>)
    requires InSendOrder(sent)
    requires forall k :: 0 <= k < |sent| ==> !Before(sent[k], p)
    ensures InSendOrder([p] + sent)
  {
    var r := [p] + sent;
    forall i, j | 0 <= i < j < |r|
      ensures !Before(r[j], r[i])
    {
      assert r[j] == sent[j - 1];
      if i > 0 {
        assert r[i] == sent[i - 1];
      }
    }
  }

  /** The drain ends only when it must: the queue is empty, or its next packet is held back
   *  by pacing or refused by the router. */
  lemma {:induction false} DrainStopsOnlyWhenHeld(s: Pacer, nowMs: int, unavailable: set<(nat, nat)>)
    ensures var r := Drain(s, nowMs, unavailable);
            |r.state.queue| > 0 ==>
              var p := r.state.queue[TopIndex(r.state.queue)]; Blocked(r.state, p) || Refused(p, unavailable)
    decreases |s.queue|
  {
    if |s.queue| > 0 {
      var i := TopIndex(s.queue);
      var p := s.queue[i];
      if !(Blocked(s, p) || Refused(p, unavailable)) {
        DrainStopsOnlyWhenHeld(PacketSent(s, i, nowMs), nowMs, unavailable);
      }
    }
  }

  /** The first send time is taken by the first packet ever sent and never moves afterwards. */
  lemma {:induction false} DrainFirstSentTime(s: Pacer, nowMs: int, unavailable: set<(nat, nat)>)
    ensures var r := Drain(s, nowMs, unavailable);
            r.state.firstSentPacketMs == if r.sent != [] && s.firstSentPacketMs == -1 then nowMs else s.firstSentPacketMs
    decreases |s.queue|
  {
    if |s.queue| > 0 {
      var i := TopIndex(s.queue);
      var p := s.queue[i];
      if !(Blocked(s, p) || Refused(p, unavailable)) {
        DrainFirstSentTime(PacketSent(s, i, nowMs), nowMs, unavailable);
      }
    }
  }

  /** A packet refused at the head ends the drain with nothing sent and the queue as it was,
   *  so the same packet is at the head of the next attempt. */
  lemma RefusedHeadStaysAtHead(s: Pacer, nowMs: int, unavailable: set<(nat, nat)>)
    requires |s.queue| > 0
    requires Refused(s.queue[TopIndex(s.queue)], unavailable)
    ensures Drain(s, nowMs, unavailable) == DrainResult(s, [])
  {
  }

  /** If a packet comes before a sent packet, it was sent too, and earlier. */
  lemma UrgentFirst(s: Pacer, nowMs: int, unavailable: set<(nat, nat)>, a: QueuedPacket, j: nat)
    requires a in s.queue
    requires var r := Drain(s, nowMs, unavailable); j < |r.sent| && Before(a, r.sent[j])
    ensures var r := Drain(s, nowMs, unavailable); exists i :: 0 <= i < j && r.sent[i] == a
  {
    var r := Drain(s, nowMs, unavailable);
    DrainConserves(s, nowMs, unavailable);
    DrainLeavesNothingEarlier(s, nowMs, unavailable);
    DrainSendsInOrder(s, nowMs, unavailable);
    EarlierAlreadySent(s.queue, r.sent, r.state.queue, a, j);
  }

  /** The order argument behind UrgentFirst, on the queue split into what was sent and what stayed. */
  lemma EarlierAlreadySent(q: seq<QueuedPacket>, sent: seq<QueuedPacket>, rest: seq<QueuedPacket>,
                           a: QueuedPacket, j: nat)
    requires multiset(rest) + multiset(sent) == multiset(q)
    requires forall i, k :: 0 <= i < |sent| && 0 <= k < |rest| ==> !Before(rest[k], sent[i])
    requires InSendOrder(sent)
    requires a in q && j < |sent| && Before(a, sent[j])
    ensures exists i :: 0 <= i < j && sent[i] == a
  {
    assert a in multiset(q);
    forall k | 0 <= k < |rest|
      ensures rest[k] != a
    {
      assert !Before(rest[k], sent[j]);
    }
    assert a !in multiset(rest);
    assert a in multiset(sent);
    var i :| 0 <= i < |sent| && sent[i] == a;
    if j <= i {
      assert false;
    }
  }

  // ---------------------------------------------------------------------------------------
  // How many packets one drain sends.

  /** How many sends fit while `room` stays positive, each taking `size` bytes of it. */
  function Allowance(room: int, size: nat): nat
    requires size > 0
  {
    if room <= 0 then 0 else (room + size - 1) / size
  }

  lemma MulAtLeast(e: int, d: nat)
    requires e >= 1 && d > 0
    ensures e * d >= d
  {
    assert e * d == (e - 1) * d + d;
    assert (e - 1) * d >= 0;
  }

  lemma DivUnique(x: int, d: nat, q: int, r: int)
    requires d > 0 && 0 <= r < d && x == q * d + r
    ensures x / d == q
  {
    var q' := x / d;
    var r' := x % d;
    assert x == q' * d + r';
    assert q * d - q' * d == (q - q') * d;
    if q > q' {
      MulAtLeast(q - q', d);
    } else if q < q' {
      MulAtLeast(q' - q, d);
    }
  }

  /** One send of `size` bytes uses up exactly one unit of allowance. */
  lemma AllowanceStep(room: int, size: nat)
    requires size > 0 && room > 0
    ensures Allowance(room - size, size) == Allowance(room, size) - 1
  {
    if room - size <= 0 {
      DivUnique(room + size - 1, size, 1, room - 1);
    } else {
      var x := room - 1;
      DivUnique(x, size, x / size, x % size);
      DivUnique(x + size, size, x / size + 1, x % size);
    }
  }

  /** Sends the congestion window still allows; unlimited (the queue length) without a window. */
  function WindowAllowance(s: Pacer, size: nat): nat
    requires size > 0
  {
    if s.congestionWindowBytes.None? then |s.queue|
    else Allowance(s.congestionWindowBytes.value - s.outstandingBytes, size)
  }

  /** Every queued packet is paced media of the same size and the router accepts it. */
  ghost predicate UniformMedia(q: seq<QueuedPacket>, size: nat, unavailable: set<(nat, nat)>)
  {
    forall p :: p in q ==> p.kind != Audio && p.sizeBytes == size && !Refused(p, unavailable)
  }

  lemma RemoveAtKeepsUniform(q: seq<QueuedPacket>, i: nat, size: nat, unavailable: set<(nat, nat)>)
    requires i < |q| && UniformMedia(q, size, unavailable)
    ensures UniformMedia(RemoveAt(q, i), size, unavailable)
  {
    forall x | x in RemoveAt(q, i)
      ensures x in q
    {
      assert x in multiset(RemoveAt(q, i));
    }
  }

  /** With same-size media packets, one drain sends as many packets as the queue, the media
   *  budget and the congestion window all allow, and no more. */
  lemma {:induction false} DrainCountUniform(s: Pacer, nowMs: int, unavailable: set<(nat, nat)>, size: nat)
    requires size > 0
    requires UniformMedia(s.queue, size, unavailable)
    requires s.media.maxBytesInBudget >= 0
    ensures |Drain(s, nowMs, unavailable).sent|
            == Min(|s.queue|, Min(Allowance(s.media.bytesRemaining, size), WindowAllowance(s, size)))
    decreases |s.queue|
  {
    if |s.queue| > 0 {
      var i := TopIndex(s.queue);
      var p := s.queue[i];
      assert p in s.queue;
      if !Blocked(s, p) {
        var s' := PacketSent(s, i, nowMs);
        assert |Drain(s, nowMs, unavailable).sent| == 1 + |Drain(s', nowMs, unavailable).sent|;
        SendUsesOneAllowance(s, i, nowMs, size);
        RemoveAtKeepsUniform(s.queue, i, size, unavailable);
        DrainCountUniform(s', nowMs, unavailable, size);
      }
    }
  }

  /** Sending one paced packet of `size` bytes uses one unit of both allowances. */
  lemma SendUsesOneAllowance(s: Pacer, i: nat, nowMs: int, size: nat)
    requires size > 0 && i < |s.queue| && s.media.maxBytesInBudget >= 0
    requires s.queue[i].kind != Audio && s.queue[i].sizeBytes == size && !Blocked(s, s.queue[i])
    ensures var t := PacketSent(s, i, nowMs);
            && t.media.maxBytesInBudget == s.media.maxBytesInBudget
            && Allowance(t.media.bytesRemaining, size) == Allowance(s.media.bytesRemaining, size) - 1
            && WindowAllowance(t, size) == WindowAllowance(s, size) - 1
  {
    var t := PacketSent(s, i, nowMs);
    AllowanceStep(s.media.bytesRemaining, size);
    if t.media.bytesRemaining != s.media.bytesRemaining - size {
      assert t.media.bytesRemaining <= 0 && s.media.bytesRemaining - size <= 0;
    }
    if s.congestionWindowBytes.Some? {
      AllowanceStep(s.congestionWindowBytes.value - s.outstandingBytes, size);
    }
  }

  /** A 5 ms interval at 2000 kbps sends exactly five 250-byte packets from a longer queue. */
  lemma FivePacketsPerInterval(s: Pacer, nowMs: int, unavailable: set<(nat, nat)>)
    requires UniformMedia(s.queue, 250, unavailable) && |s.queue| >= 5
    requires s.media.maxBytesInBudget >= 0 && s.media.bytesRemaining == 1250
    requires s.congestionWindowBytes.None?
    ensures |Drain(s, nowMs, unavailable).sent| == 5
  {
    DrainCountUniform(s, nowMs, unavailable, 250);
    DivUnique(1250 + 249, 250, 5, 249);
  }

  /** k sends' worth of room allows exactly k sends; more room allows at least k. */
  lemma {:induction false} AllowanceOfMultiple(room: int, size: nat, k: nat)
    requires size > 0 && room >= k * size
    ensures Allowance(room, size) >= k
    ensures room == k * size ==> Allowance(room, size) == k
  {
    if k > 0 {
      assert k * size == (k - 1) * size + size;
      assert room > 0;
      AllowanceStep(room, size);
      AllowanceOfMultiple(room - size, size, k - 1);
    }
  }

  /** Acknowledging k packets' worth of a full congestion window releases exactly k packets
   *  when the budget and the queue allow at least that many. */
  lemma AckReleasesExactly(s: Pacer, nowMs: int, unavailable: set<(nat, nat)>, size: nat, k: nat)
    requires size > 0 && UniformMedia(s.queue, size, unavailable) && |s.queue| >= k
    requires s.media.maxBytesInBudget >= 0 && s.media.bytesRemaining >= k * size
    requires s.congestionWindowBytes.Some? && s.outstandingBytes == s.congestionWindowBytes.value - k * size
    ensures |Drain(s, nowMs, unavailable).sent| == k
  {
    var room := s.congestionWindowBytes.value - s.outstandingBytes;
    AllowanceOfMultiple(room, size, k);
    assert WindowAllowance(s, size) == k;
    AllowanceOfMultiple(s.media.bytesRemaining, size, k);
    DrainCountUniform(s, nowMs, unavailable, size);
  }

  // ---------------------------------------------------------------------------------------
  // Audio and congestion.

  lemma RemoveAtSubset(q: seq<QueuedPacket>, i: nat, x: QueuedPacket)
    requires i < |q| && x in RemoveAt(q, i)
    ensures x in q
  {
    assert x in multiset(RemoveAt(q, i));
  }

  /** While the window is full only unpaced audio leaves; audio adds nothing to the
   *  outstanding bytes or the budgets, so the window is still full afterwards. */
  lemma {:induction false} DrainWhileCongested(s: Pacer, nowMs: int, unavailable: set<(nat, nat)>)
    requires Congested(s)
    ensures var r := Drain(s, nowMs, unavailable);
            && Congested(r.state)
            && r.state.outstandingBytes == s.outstandingBytes
            && r.state.media == s.media && r.state.padding == s.padding
            && forall p :: p in r.sent ==> p.kind == Audio && !s.paceAudio
    decreases |s.queue|
  {
    if |s.queue| > 0 {
      var i := TopIndex(s.queue);
      var p := s.queue[i];
      if !(Blocked(s, p) || Refused(p, unavailable)) {
        var s' := PacketSent(s, i, nowMs);
        DrainWhileCongested(s', nowMs, unavailable);
        assert Drain(s, nowMs, unavailable).sent == [p] + Drain(s', nowMs, unavailable).sent;
      }
    }
  }

  /** Audio is not charged to the budgets or the window. So a queue of audio the router
   *  accepts goes out whole in one drain, whatever its size, when audio pacing is off or the
   *  window and the budget have room at the start; the budgets and the outstanding bytes stay
   *  as they were. */
  lemma {:induction false} AudioAllSent(s: Pacer, nowMs: int, unavailable: set<(nat, nat)>)
    requires !s.paceAudio || (!Congested(s) && BytesRemaining(s.media) > 0)
    requires forall p :: p in s.queue ==> p.kind == Audio && !Refused(p, unavailable)
    ensures var r := Drain(s, nowMs, unavailable);
            && r.state.queue == [] && |r.sent| == |s.queue|
            && r.state.media == s.media && r.state.padding == s.padding
            && r.state.outstandingBytes == s.outstandingBytes
    decreases |s.queue|
  {
    if |s.queue| > 0 {
      var i := TopIndex(s.queue);
      var p := s.queue[i];
      assert p in s.queue;
      var s' := PacketSent(s, i, nowMs);
      forall x | x in s'.queue
        ensures x.kind == Audio && !Refused(x, unavailable)
      {
        RemoveAtSubset(s.queue, i, x);
      }
      AudioAllSent(s', nowMs, unavailable);
    }
  }

  /** With audio pacing on, audio at the head is held while the window is full or the
   *  budget is spent, like any other packet. */
  lemma PacedAudioHeld(s: Pacer, nowMs: int, unavailable: set<(nat, nat)>)
    requires s.paceAudio && |s.queue| > 0 && s.queue[TopIndex(s.queue)].kind == Audio
    requires Congested(s) || s.media.bytesRemaining <= 0
    ensures Drain(s, nowMs, unavailable) == DrainResult(s, [])
  {
  }

  /** The drain keeps both budgets well-formed. */
  lemma {:induction false} DrainKeepsBudgetsValid(s: Pacer, nowMs: int, unavailable: set<(nat, nat)>)
    requires Valid(s.media) && Valid(s.padding)
    ensures var r := Drain(s, nowMs, unavailable); Valid(r.state.media) && Valid(r.state.padding)
    decreases |s.queue|
  {
    if |s.queue| > 0 {
      var i := TopIndex(s.queue);
      var p := s.queue[i];
      if !(Blocked(s, p) || Refused(p, unavailable)) {
        DrainKeepsBudgetsValid(PacketSent(s, i, nowMs), nowMs, unavailable);
      }
    }
  }

  // ---------------------------------------------------------------------------------------
  // One Process call.

  datatype ProcessResult = ProcessResult(state: Pacer, sent: seq<QueuedPacket>, paddingRequests: seq<nat>)

  /** A 1-byte keep-alive padding is due: the pacer pads in silence, is paused or is congested,
   *  nothing went out for 500 ms, and some packet was queued before (padding before the
   *  first media packet would confuse timestamps). */
  predicate ShouldSendKeepalive(s: Pacer, nowMs: int)
  {
    && (s.padInSilence || s.paused || Congested(s))
    && nowMs - s.lastSendTimeMs >= kCongestedPacketIntervalMs
    && s.packetCounter > 0
  }

  /** Time since the previous Process call, capped at two seconds. */
  function ElapsedMs(s: Pacer, nowMs: int): int
  {
    Min(nowMs - s.timeLastProcessMs, kMaxElapsedTimeMs)
  }

  /** Both budgets refilled for `elapsedMs` (at most 30 ms counts); the media budget first
   *  takes the current pacing rate. Nothing happens when no time has passed. */
  function Refill(s: Pacer, elapsedMs: int): Pacer
  {
    if elapsedMs > 0 then
      var deltaMs := Min(elapsedMs, kMaxIntervalTimeMs);
      s.(media := IncreaseBudget(SetTargetRateKbps(s.media, s.pacingBitrateKbps), deltaMs),
         padding := IncreaseBudget(s.padding, deltaMs))
    else s
  }

  /** Process at `nowMs`: a keep-alive padding when due; nothing more while paused; otherwise
   *  the budgets are refilled, the queue is drained, and when it is empty, the window is not
   *  full and some packet was queued before, padding is requested up to the padding budget.
   *  `unavailable` lists the legacy packets the router refuses; `paddingResponse` says how
   *  many bytes the router produces for a padding request. */
  function Processed(s: Pacer, nowMs: int, unavailable: set<(nat, nat)>, paddingResponse: nat -> nat): ProcessResult
  {
    var s2 := KeepaliveStage(s, nowMs, paddingResponse);
    var requests := if ShouldSendKeepalive(s, nowMs) then [1] else [];
    if s2.paused then ProcessResult(s2, [], requests)
    else PaddingStage(Drain(Refill(s2, ElapsedMs(s, nowMs)), nowMs, unavailable), requests, nowMs, paddingResponse)
  }

  /** The start of Process: the call time is recorded and a due keep-alive is sent. */
  function KeepaliveStage(s: Pacer, nowMs: int, paddingResponse: nat -> nat): (r: Pacer)
    ensures r.timeLastProcessMs == nowMs && r.paused == s.paused && r.queue == s.queue
    ensures r.packetCounter == s.packetCounter && r.congestionWindowBytes == s.congestionWindowBytes
    ensures r.outstandingBytes >= s.outstandingBytes
    ensures r.lastSendTimeMs == if ShouldSendKeepalive(s, nowMs) then nowMs else s.lastSendTimeMs
  {
    var s1 := s.(timeLastProcessMs := nowMs);
    if ShouldSendKeepalive(s, nowMs) then PaddingSent(s1, paddingResponse(1), nowMs) else s1
  }

  /** Padding is wanted after the drain: the queue is empty, the window has room, some packet
   *  was queued before and the padding budget has bytes left. */
  predicate PaddingDue(t: Pacer)
  {
    |t.queue| == 0 && !Congested(t) && t.packetCounter > 0 && BytesRemaining(t.padding) > 0
  }

  /** The end of Process: padding up to the padding budget once the queue is empty. */
  function PaddingStage(d: DrainResult, requests: seq<nat>, nowMs: int, paddingResponse: nat -> nat): (r: ProcessResult)
    ensures r.sent == d.sent && r.state.queue == d.state.queue
    ensures r.state.timeLastProcessMs == d.state.timeLastProcessMs && r.state.paused == d.state.paused
    ensures r.paddingRequests == requests || (|d.state.queue| == 0 && r.paddingRequests == requests + [BytesRemaining(d.state.padding)])
    ensures PaddingDue(d.state) <==> |r.paddingRequests| == |requests| + 1
    ensures PaddingDue(d.state) ==> r.paddingRequests == requests + [BytesRemaining(d.state.padding)]
  {
    var t := d.state;
    if PaddingDue(t) then
      var wanted := BytesRemaining(t.padding);
      ProcessResult(PaddingSent(t, paddingResponse(wanted), nowMs), d.sent, requests + [wanted])
    else ProcessResult(t, d.sent, requests)
  }

  /** Milliseconds until Process is due: every 500 ms while paused, every 5 ms otherwise. */
  function TimeUntilNextProcess(s: Pacer, nowMs: int): (r: int)
    ensures r >= 0
    ensures nowMs >= s.timeLastProcessMs ==> r <= if s.paused then kPausedProcessIntervalMs else kMinPacketLimitMs
    ensures r == 0 <==> nowMs - s.timeLastProcessMs >= (if s.paused then kPausedProcessIntervalMs else kMinPacketLimitMs)
  {
    var elapsedMs := nowMs - s.timeLastProcessMs;
    if s.paused then Max(kPausedProcessIntervalMs - elapsedMs, 0) else Max(kMinPacketLimitMs - elapsedMs, 0)
  }

  /** While paused nothing leaves the queue; the only traffic is the keep-alive padding. */
  lemma ProcessWhilePaused(s: Pacer, nowMs: int, unavailable: set<(nat, nat)>, paddingResponse: nat -> nat)
    requires s.paused
    ensures var r := Processed(s, nowMs, unavailable, paddingResponse);
            && r.sent == [] && r.state.queue == s.queue && r.state.paused
            && r.paddingRequests == (if ShouldSendKeepalive(s, nowMs) then [1] else [])
            && (ShouldSendKeepalive(s, nowMs) ==> r.state.lastSendTimeMs == nowMs)
            && (!ShouldSendKeepalive(s, nowMs) ==> r.state.lastSendTimeMs == s.lastSendTimeMs)
  {
  }

  /** Keep-alive padding goes out at most once per 500 ms: after one, the next Process call
   *  less than 500 ms later while still paused requests no padding. */
  lemma KeepaliveAtMostEvery500Ms(s: Pacer, t1: int, t2: int, unavailable: set<(nat, nat)>, paddingResponse: nat -> nat)
    requires s.paused && ShouldSendKeepalive(s, t1) && t2 - t1 < kCongestedPacketIntervalMs
    ensures var r1 := Processed(s, t1, unavailable, paddingResponse);
            Processed(r1.state, t2, unavailable, paddingResponse).paddingRequests == []
  {
    ProcessWhilePaused(s, t1, unavailable, paddingResponse);
  }

  /** No padding of any kind before the first packet was queued. */
  lemma NoPaddingBeforeFirstPacket(s: Pacer, nowMs: int, unavailable: set<(nat, nat)>, paddingResponse: nat -> nat)
    requires s.packetCounter == 0
    ensures Processed(s, nowMs, unavailable, paddingResponse).paddingRequests == []
  {
    var s2 := KeepaliveStage(s, nowMs, paddingResponse);
    if !s.paused {
      DrainFrame(Refill(s2, ElapsedMs(s, nowMs)), nowMs, unavailable);
    }
  }

  /** Apart from a due keep-alive, no padding is requested while media is still queued. */
  lemma NoPaddingWhileQueued(s: Pacer, nowMs: int, unavailable: set<(nat, nat)>, paddingResponse: nat -> nat)
    requires !ShouldSendKeepalive(s, nowMs)
    requires |Processed(s, nowMs, unavailable, paddingResponse).state.queue| > 0
    ensures Processed(s, nowMs, unavailable, paddingResponse).paddingRequests == []
  {
  }

  /** While the window is full and the pacer runs, only unpaced audio leaves and the only
   *  padding is a due keep-alive. */
  lemma ProcessWhileCongested(s: Pacer, nowMs: int, unavailable: set<(nat, nat)>, paddingResponse: nat -> nat)
    requires !s.paused && Congested(s)
    ensures var r := Processed(s, nowMs, unavailable, paddingResponse);
            && (forall p :: p in r.sent ==> p.kind == Audio && !s.paceAudio)
            && r.paddingRequests == (if ShouldSendKeepalive(s, nowMs) then [1] else [])
  {
    var s3 := Refill(KeepaliveStage(s, nowMs, paddingResponse), ElapsedMs(s, nowMs));
    assert Congested(s3);
    DrainWhileCongested(s3, nowMs, unavailable);
  }

  /** After Process the next one is due a full interval later. */
  lemma ProcessSchedulesNext(s: Pacer, nowMs: int, unavailable: set<(nat, nat)>, paddingResponse: nat -> nat)
    ensures var r := Processed(s, nowMs, unavailable, paddingResponse);
            TimeUntilNextProcess(r.state, nowMs) == if s.paused then kPausedProcessIntervalMs else kMinPacketLimitMs
  {
    var s2 := KeepaliveStage(s, nowMs, paddingResponse);
    if !s.paused {
      var s3 := Refill(s2, ElapsedMs(s, nowMs));
      DrainFrame(s3, nowMs, unavailable);
      var d := Drain(s3, nowMs, unavailable);
      var r := PaddingStage(d, if ShouldSendKeepalive(s, nowMs) then [1] else [], nowMs, paddingResponse);
      assert Processed(s, nowMs, unavailable, paddingResponse) == r;
      assert r.state.timeLastProcessMs == nowMs && !r.state.paused;
    }
  }

  /** Process keeps both budgets well-formed. */
  lemma ProcessKeepsBudgetsValid(s: Pacer, nowMs: int, unavailable: set<(nat, nat)>, paddingResponse: nat -> nat)
    requires Valid(s.media) && Valid(s.padding)
    ensures var r := Processed(s, nowMs, unavailable, paddingResponse); Valid(r.state.media) && Valid(r.state.padding)
  {
    var s2 := KeepaliveStage(s, nowMs, paddingResponse);
    assert Valid(s2.media) && Valid(s2.padding);
    if !s.paused {
      var s3 := Refill(s2, ElapsedMs(s, nowMs));
      assert Valid(s3.media) && Valid(s3.padding);
      DrainKeepsBudgetsValid(s3, nowMs, unavailable);
    }
  }

  /** At 2000 kbps, 5 ms after a Process call that spent the budget exactly, the next Process
   *  sends exactly five 250-byte packets from a queue of at least five. */
  lemma ProcessSendsFivePerInterval(s: Pacer, nowMs: int, unavailable: set<(nat, nat)>, paddingResponse: nat -> nat)
    requires !s.paused && !s.padInSilence && s.congestionWindowBytes.None?
    requires s.pacingBitrateKbps == 2000 && s.media.bytesRemaining == 0
    requires nowMs - s.timeLastProcessMs == 5
    requires UniformMedia(s.queue, 250, unavailable) && |s.queue| >= 5
    ensures |Processed(s, nowMs, unavailable, paddingResponse).sent| == 5
  {
    var s2 := KeepaliveStage(s, nowMs, paddingResponse);
    assert s2 == s.(timeLastProcessMs := nowMs);
    var s3 := Refill(s2, ElapsedMs(s, nowMs));
    FiveMsAtTwoThousandKbps(s.media);
    assert s3.media.bytesRemaining == 1250;
    FivePacketsPerInterval(s3, nowMs, unavailable);
  }

  /** The pacer after the budgets are refilled and the queue is drained, before padding. */
  function Drained(s: Pacer, nowMs: int, unavailable: set<(nat, nat)>, paddingResponse: nat -> nat): Pacer
  {
    Drain(Refill(KeepaliveStage(s, nowMs, paddingResponse), ElapsedMs(s, nowMs)), nowMs, unavailable).state
  }

  /** A running pacer pads exactly when padding is due after its drain, and then asks for
   *  the padding budget's remaining bytes, after any keep-alive. */
  lemma ProcessPadsWhenIdle(s: Pacer, nowMs: int, unavailable: set<(nat, nat)>, paddingResponse: nat -> nat)
    requires !s.paused
    ensures var r := Processed(s, nowMs, unavailable, paddingResponse);
            var t := Drained(s, nowMs, unavailable, paddingResponse);
            var keepalive := if ShouldSendKeepalive(s, nowMs) then [1] else [];
            && (PaddingDue(t) ==> r.paddingRequests == keepalive + [BytesRemaining(t.padding)])
            && (!PaddingDue(t) ==> r.paddingRequests == keepalive)
  {
  }

  /** The pacer of the padding scenario at `nowMs`: 2000 kbps pacing, 800 kbps padding, the
   *  given queue and padding balance, `sent` packets handed over so far, last processed at
   *  `lastProcessMs`. */
  function PaddingScenarioPacer(queue: seq<QueuedPacket>, paddingBalance: int, sent: nat, lastProcessMs: int): Pacer
  {
    Pacer(queue, IntervalBudget(2000, 125000, 0), IntervalBudget(800, 50000, paddingBalance), 2000, None, 0,
          false, sent, -1, lastProcessMs, lastProcessMs, false, false)
  }

  /** A normal-priority 250-byte video packet inserted at `nowMs` as the `n`-th packet. */
  function NormalPacket(n: nat, nowMs: int): QueuedPacket
  {
    QueuedPacket(PriorityLevel(NormalPriority), Video, 12345, 1234 + n, nowMs, nowMs, 250, false, n, false)
  }

  /** The five packets of the padding scenario, queued at `t`. */
  function FivePackets(t: int): seq<QueuedPacket>
  {
    [NormalPacket(0, t), NormalPacket(1, t), NormalPacket(2, t), NormalPacket(3, t), NormalPacket(4, t)]
  }

  /** Sending one paced packet whose bytes both budgets can absorb charges each budget and
   *  the window exactly its size. */
  lemma SendChargesExactly(s: Pacer, i: nat, nowMs: int)
    requires i < |s.queue| && s.queue[i].kind != Audio
    requires s.media.bytesRemaining - s.queue[i].sizeBytes >= -s.media.maxBytesInBudget
    requires s.padding.bytesRemaining - s.queue[i].sizeBytes >= -s.padding.maxBytesInBudget
    ensures var t := PacketSent(s, i, nowMs);
            var size := s.queue[i].sizeBytes;
            t == s.(queue := RemoveAt(s.queue, i),
                    media := s.media.(bytesRemaining := s.media.bytesRemaining - size),
                    padding := s.padding.(bytesRemaining := s.padding.bytesRemaining - size),
                    outstandingBytes := s.outstandingBytes + size,
                    firstSentPacketMs := if s.firstSentPacketMs == -1 then nowMs else s.firstSentPacketMs,
                    lastSendTimeMs := nowMs)
  {
  }

  /** Without a congestion window, a media budget that stays positive until the last packet
   *  of a uniform queue sends them all: both budgets are charged the queue's bytes, which
   *  become outstanding. */
  lemma {:induction false} DrainAllUniform(s: Pacer, nowMs: int, unavailable: set<(nat, nat)>, size: nat)
    requires size > 0 && UniformMedia(s.queue, size, unavailable) && s.congestionWindowBytes.None?
    requires |s.queue| > 0
    requires s.media.bytesRemaining > QueueSizeBytes(s.queue) - size
    requires s.media.bytesRemaining - QueueSizeBytes(s.queue) >= -s.media.maxBytesInBudget
    requires s.padding.bytesRemaining - QueueSizeBytes(s.queue) >= -s.padding.maxBytesInBudget
    ensures |Drain(s, nowMs, unavailable).sent| == |s.queue|
    ensures var t := Drain(s, nowMs, unavailable).state;
            && t.queue == [] && t.lastSendTimeMs == nowMs
            && t.media.bytesRemaining == s.media.bytesRemaining - QueueSizeBytes(s.queue)
            && t.padding.bytesRemaining == s.padding.bytesRemaining - QueueSizeBytes(s.queue)
            && t.outstandingBytes == s.outstandingBytes + QueueSizeBytes(s.queue)
    decreases |s.queue|
  {
    var i := TopIndex(s.queue);
    var p := s.queue[i];
    assert p in s.queue;
    var rest := RemoveAt(s.queue, i);
    QueueSizeBytesRemoveAt(s.queue, i);
    assert !Blocked(s, p) && !Refused(p, unavailable);
    SendChargesExactly(s, i, nowMs);
    var s' := PacketSent(s, i, nowMs);
    if |s.queue| == 1 {
      assert rest == [];
      DrainEmpty(s', nowMs, unavailable);
    } else {
      RemoveAtKeepsUniform(s.queue, i, size, unavailable);
      DrainAllUniform(s', nowMs, unavailable, size);
    }
  }

  /** The pacer of the padding scenario once the queue is empty: 2000 kbps pacing with no
   *  media debt, 800 kbps padding with `paddingBalance` bytes, five packets handed
   *  over, running, no window, no padding in silence, last processed at `lastProcessMs`. */
  ghost predicate IdleScenarioPacer(s: Pacer, paddingBalance: int, lastProcessMs: int)
  {
    && s.queue == [] && s.media.targetRateKbps == 2000 && s.media.maxBytesInBudget == 125000 && s.media.bytesRemaining >= 0
    && s.padding == IntervalBudget(800, 50000, paddingBalance) && s.pacingBitrateKbps == 2000
    && s.congestionWindowBytes.None? && !s.paused && s.packetCounter == 5 && !s.padInSilence
    && s.timeLastProcessMs == lastProcessMs
  }

  /** The scenario's packets are paced 250-byte media, 1250 bytes in all. */
  lemma FivePacketsUniform(t: int)
    ensures UniformMedia(FivePackets(t), 250, {}) && QueueSizeBytes(FivePackets(t)) == 1250
  {
    var q := FivePackets(t);
    assert QueueSizeBytes(q[4..]) == 250;
    assert QueueSizeBytes(q[3..]) == 500;
    assert QueueSizeBytes(q[2..]) == 750;
    assert QueueSizeBytes(q[1..]) == 1000;
  }

  /** The first interval of the padding scenario: the five packets fill it, spend the media
   *  budget and overdraw the padding budget by 750 bytes; no padding goes out. */
  lemma PaddingScenarioFirstInterval(t: int, paddingResponse: nat -> nat)
    ensures var r := Processed(PaddingScenarioPacer(FivePackets(t), 0, 5, t), t + 5, {}, paddingResponse);
            && |r.sent| == 5 && r.paddingRequests == [] && IdleScenarioPacer(r.state, -750, t + 5)
  {
    var s := PaddingScenarioPacer(FivePackets(t), 0, 5, t);
    var s2 := KeepaliveStage(s, t + 5, paddingResponse);
    assert !ShouldSendKeepalive(s, t + 5);
    assert s2 == s.(timeLastProcessMs := t + 5);
    assert ElapsedMs(s, t + 5) == 5;
    var s3 := Refill(s2, 5);
    assert SetTargetRateKbps(s.media, 2000) == s.media;
    assert s3.media == IntervalBudget(2000, 125000, 1250);
    assert s3.padding == IntervalBudget(800, 50000, 500);
    FivePacketsUniform(t);
    DrainAllUniform(s3, t + 5, {}, 250);
    DrainFrame(s3, t + 5, {});
  }

  /** A later interval of the padding scenario: with an empty queue, 5 ms refill the padding
   *  budget by 500 bytes; padding is requested only once the balance is positive, and then
   *  for exactly that balance. */
  lemma IdleScenarioInterval(s: Pacer, balance: int, t: int, paddingResponse: nat -> nat)
    requires IdleScenarioPacer(s, balance, t) && -50000 <= balance < 0
    ensures var r := Processed(s, t + 5, {}, paddingResponse);
            && r.sent == []
            && (balance + 500 <= 0 ==> r.paddingRequests == [] && IdleScenarioPacer(r.state, balance + 500, t + 5))
            && (balance + 500 > 0 ==> r.paddingRequests == [balance + 500])
  {
    var s2 := KeepaliveStage(s, t + 5, paddingResponse);
    assert !ShouldSendKeepalive(s, t + 5);
    assert s2 == s.(timeLastProcessMs := t + 5);
    assert ElapsedMs(s, t + 5) == 5;
    var s3 := Refill(s2, 5);
    assert s3.padding == IntervalBudget(800, 50000, balance + 500);
    DrainEmpty(s3, t + 5, {});
  }

  /** The padding scenario: five 250-byte packets fill the first 5 ms interval and overdraw
   *  the padding budget by 750 bytes; 5 ms later the budget is still in debt and nothing pads;
   *  5 ms after that it holds 250 bytes and exactly one 250-byte padding request goes out. */
  lemma PaddingOnceBudgetRecovers(t: int, paddingResponse: nat -> nat)
    ensures var r1 := Processed(PaddingScenarioPacer(FivePackets(t), 0, 5, t), t + 5, {}, paddingResponse);
            var r2 := Processed(r1.state, t + 10, {}, paddingResponse);
            var r3 := Processed(r2.state, t + 15, {}, paddingResponse);
            && |r1.sent| == 5 && r1.paddingRequests == []
            && r2.sent == [] && r2.paddingRequests == []
            && r3.sent == [] && r3.paddingRequests == [250]
  {
    PaddingScenarioFirstInterval(t, paddingResponse);
    var r1 := Processed(PaddingScenarioPacer(FivePackets(t), 0, 5, t), t + 5, {}, paddingResponse);
    IdleScenarioInterval(r1.state, -750, t + 5, paddingResponse);
    var r2 := Processed(r1.state, t + 10, {}, paddingResponse);
    IdleScenarioInterval(r2.state, -250, t + 10, paddingResponse);
  }

  /** Packets of the same priority and retransmission class leave in insertion order. */
  lemma SameClassInInsertionOrder(s: Pacer, nowMs: int, unavailable: set<(nat, nat)>, a: QueuedPacket, j: nat)
    requires a in s.queue
    requires var r := Drain(s, nowMs, unavailable);
             && j < |r.sent| && a.priority == r.sent[j].priority
             && a.retransmission == r.sent[j].retransmission && a.enqueueOrder < r.sent[j].enqueueOrder
    ensures var r := Drain(s, nowMs, unavailable); exists i :: 0 <= i < j && r.sent[i] == a
  {
    UrgentFirst(s, nowMs, unavailable, a, j);
  }

  // ---------------------------------------------------------------------------------------
  // Queue queries.

  /** Bytes of all packets in the sequence. */
  function QueueSizeBytes(q: seq<QueuedPacket>): nat
  {
    if |q| == 0 then 0 else q[0].sizeBytes + QueueSizeBytes(q[1..])
  }

  lemma {:induction false} QueueSizeBytesAppend(q: seq<QueuedPacket>, p: QueuedPacket)
    ensures QueueSizeBytes(q + [p]) == QueueSizeBytes(q) + p.sizeBytes
    decreases |q|
  {
    if |q| > 0 {
      assert (q + [p])[1..] == q[1..] + [p];
      QueueSizeBytesAppend(q[1..], p);
    }
  }

  lemma {:induction false} QueueSizeBytesRemoveAt(q: seq<QueuedPacket>, i: nat)
    requires i < |q|
    ensures QueueSizeBytes(RemoveAt(q, i)) + q[i].sizeBytes == QueueSizeBytes(q)
    decreases i
  {
    if i == 0 {
      assert RemoveAt(q, i) == q[1..];
    } else {
      assert RemoveAt(q, i) == [q[0]] + RemoveAt(q[1..], i - 1);
      assert RemoveAt(q, i)[1..] == RemoveAt(q[1..], i - 1);
      QueueSizeBytesRemoveAt(q[1..], i - 1);
    }
  }

  /** The drain moves bytes from the queue to the wire: queued bytes before equal queued
   *  bytes after plus the bytes of the packets sent. */
  lemma {:induction false} DrainConservesBytes(s: Pacer, nowMs: int, unavailable: set<(nat, nat)>)
    ensures var r := Drain(s, nowMs, unavailable);
            QueueSizeBytes(r.state.queue) + QueueSizeBytes(r.sent) == QueueSizeBytes(s.queue)
    decreases |s.queue|
  {
    if |s.queue| > 0 {
      var i := TopIndex(s.queue);
      var p := s.queue[i];
      if !(Blocked(s, p) || Refused(p, unavailable)) {
        var s' := PacketSent(s, i, nowMs);
        DrainConservesBytes(s', nowMs, unavailable);
        QueueSizeBytesRemoveAt(s.queue, i);
        var r := Drain(s, nowMs, unavailable);
        assert r.sent[1..] == Drain(s', nowMs, unavailable).sent;
      }
    }
  }

  /** How long draining the queue takes at the pacing rate, in whole milliseconds. */
  function ExpectedQueueTimeMs(s: Pacer): (r: nat)
    requires s.pacingBitrateKbps > 0
    ensures r * s.pacingBitrateKbps <= 8 * QueueSizeBytes(s.queue) < (r + 1) * s.pacingBitrateKbps
  {
    8 * QueueSizeBytes(s.queue) / s.pacingBitrateKbps
  }

  /** With a whole-kbps pacing rate the expected queue time is 1000 * bytes * 8 / bps. */
  lemma ExpectedQueueTimeFromBps(s: Pacer, bps: nat)
    requires s.pacingBitrateKbps > 0 && bps == 1000 * s.pacingBitrateKbps
    ensures ExpectedQueueTimeMs(s) == 1000 * QueueSizeBytes(s.queue) * 8 / bps
  {
    var bits := 8 * QueueSizeBytes(s.queue);
    var k := s.pacingBitrateKbps;
    var q := bits / k;
    assert bits == q * k + bits % k;
    assert 1000 * QueueSizeBytes(s.queue) * 8 == q * bps + 1000 * (bits % k);
    DivUnique(1000 * QueueSizeBytes(s.queue) * 8, bps, q, 1000 * (bits % k));
  }

  /** The oldest enqueue time among the queued packets. */
  function OldestEnqueueTimeMs(q: seq<QueuedPacket>): (t: int)
    requires |q| > 0
    ensures exists i :: 0 <= i < |q| && t == q[i].enqueueTimeMs
    ensures forall i :: 0 <= i < |q| ==> t <= q[i].enqueueTimeMs
    decreases |q|
  {
    if |q| == 1 then q[0].enqueueTimeMs
    else
      var rest := OldestEnqueueTimeMs(q[1..]);
      assert forall i :: 1 <= i < |q| ==> q[i] == q[1..][i - 1];
      Min(q[0].enqueueTimeMs, rest)
  }

  /** How long the oldest queued packet has waited; 0 for an empty queue. An oldest enqueue
   *  time of 0 doubles as "empty", so it also gives 0. */
  function QueueInMs(s: Pacer, nowMs: int): (r: int)
    ensures |s.queue| == 0 ==> r == 0
    ensures |s.queue| > 0 && r != 0 ==>
              (exists i :: 0 <= i < |s.queue| && r == nowMs - s.queue[i].enqueueTimeMs)
              && forall i :: 0 <= i < |s.queue| ==> r >= nowMs - s.queue[i].enqueueTimeMs
    ensures |s.queue| > 0 && (forall i :: 0 <= i < |s.queue| ==> s.queue[i].enqueueTimeMs != 0) ==>
              (exists i :: 0 <= i < |s.queue| && r == nowMs - s.queue[i].enqueueTimeMs)
  {
    if |s.queue| == 0 then 0
    else
      var oldest := OldestEnqueueTimeMs(s.queue);
      if oldest == 0 then 0 else nowMs - oldest
  }

  // ---------------------------------------------------------------------------------------
  // Inserting packets.

  /** The type a legacy packet is treated as: high priority is audio. */
  function LegacyKind(priority: Priority, retransmission: bool): PacketType
  {
    if priority == HighPriority then Audio else if retransmission then Retransmission else Video
  }

  /** The queue entry for a packet inserted at `nowMs`: a negative capture time is replaced by
   *  the insertion time, and the insertion counter fixes its place among equals. */
  function NewEntry(s: Pacer, priority: nat, kind: PacketType, ssrc: nat, sequenceNumber: nat,
                    captureTimeMs: int, sizeBytes: nat, retransmission: bool, owned: bool, nowMs: int): QueuedPacket
  {
    QueuedPacket(priority, kind, ssrc, sequenceNumber, if captureTimeMs < 0 then nowMs else captureTimeMs,
                 nowMs, sizeBytes, retransmission, s.packetCounter, owned)
  }

  /** A legacy packet, identified by ssrc and sequence number, was inserted. */
  function Inserted(s: Pacer, priority: Priority, ssrc: nat, sequenceNumber: nat, captureTimeMs: int,
                    sizeBytes: nat, retransmission: bool, nowMs: int): (r: Pacer)
    ensures |r.queue| == |s.queue| + 1 && r.queue[..|s.queue|] == s.queue
    ensures r.queue[|s.queue|].priority == PriorityLevel(priority) && !r.queue[|s.queue|].owned
    ensures r.packetCounter == s.packetCounter + 1
  {
    var p := NewEntry(s, PriorityLevel(priority), LegacyKind(priority, retransmission), ssrc, sequenceNumber,
                      captureTimeMs, sizeBytes, retransmission, false, nowMs);
    s.(queue := s.queue + [p], packetCounter := s.packetCounter + 1)
  }

  /** A whole packet of the given type was handed over; its type fixes its priority. */
  function Enqueued(s: Pacer, kind: PacketType, ssrc: nat, sequenceNumber: nat, captureTimeMs: int,
                    sizeBytes: nat, nowMs: int): (r: Pacer)
    ensures |r.queue| == |s.queue| + 1 && r.queue[..|s.queue|] == s.queue
    ensures r.queue[|s.queue|].priority == PriorityForType(kind) && r.queue[|s.queue|].owned
    ensures r.packetCounter == s.packetCounter + 1
  {
    var p := NewEntry(s, PriorityForType(kind), kind, ssrc, sequenceNumber, captureTimeMs, sizeBytes,
                      kind == Retransmission, true, nowMs);
    s.(queue := s.queue + [p], packetCounter := s.packetCounter + 1)
  }

  /** Every queued packet got its insertion number before the current counter, and the queue
   *  holds them in insertion order. */
  ghost predicate InsertionOrdered(s: Pacer)
  {
    && (forall i :: 0 <= i < |s.queue| ==> s.queue[i].enqueueOrder < s.packetCounter)
    && (forall i, j :: 0 <= i < j < |s.queue| ==> s.queue[i].enqueueOrder < s.queue[j].enqueueOrder)
  }

  lemma InsertedKeepsInsertionOrder(s: Pacer, priority: Priority, ssrc: nat, sequenceNumber: nat, captureTimeMs: int,
                                    sizeBytes: nat, retransmission: bool, nowMs: int)
    requires InsertionOrdered(s)
    ensures InsertionOrdered(Inserted(s, priority, ssrc, sequenceNumber, captureTimeMs, sizeBytes, retransmission, nowMs))
  {
  }

  lemma EnqueuedKeepsInsertionOrder(s: Pacer, kind: PacketType, ssrc: nat, sequenceNumber: nat, captureTimeMs: int,
                                    sizeBytes: nat, nowMs: int)
    requires InsertionOrdered(s)
    ensures InsertionOrdered(Enqueued(s, kind, ssrc, sequenceNumber, captureTimeMs, sizeBytes, nowMs))
  {
  }

  lemma RemoveAtKeepsInsertionOrder(s: Pacer, i: nat, nowMs: int)
    requires i < |s.queue| && InsertionOrdered(s)
    ensures InsertionOrdered(PacketSent(s, i, nowMs))
  {
    var q := s.queue;
    var r := RemoveAt(q, i);
    assert forall k :: 0 <= k < |r| ==> r[k] == if k < i then q[k] else q[k + 1];
  }

  /** The drain only takes packets out, so the queue stays in insertion order. */
  lemma {:induction false} DrainKeepsInsertionOrder(s: Pacer, nowMs: int, unavailable: set<(nat, nat)>)
    requires InsertionOrdered(s)
    ensures InsertionOrdered(Drain(s, nowMs, unavailable).state)
    decreases |s.queue|
  {
    if |s.queue| > 0 {
      var i := TopIndex(s.queue);
      var p := s.queue[i];
      if !(Blocked(s, p) || Refused(p, unavailable)) {
        RemoveAtKeepsInsertionOrder(s, i, nowMs);
        DrainKeepsInsertionOrder(PacketSent(s, i, nowMs), nowMs, unavailable);
      }
    }
  }

  /** In an insertion-ordered queue no two packets tie: of any two, one leaves first. */
  lemma InsertionOrderedIsTotal(s: Pacer, a: nat, b: nat)
    requires InsertionOrdered(s) && a < |s.queue| && b < |s.queue| && a != b
    ensures Before(s.queue[a], s.queue[b]) || Before(s.queue[b], s.queue[a])
  {
  }

  // ---------------------------------------------------------------------------------------
  // The pacer object.

  /** The state of a new pacer: empty queue, zero budgets and rates, no window, not paused,
   *  nothing sent yet, and the clock read at construction as last send and process time. */
  function InitialPacer(nowMs: int, padInSilence: bool, paceAudio: bool): (s: Pacer)
    ensures Valid(s.media) && Valid(s.padding) && InsertionOrdered(s)
    ensures s.queue == [] && s.firstSentPacketMs == -1 && !s.paused && s.congestionWindowBytes.None?
  {
    Pacer([], NewBudget(0), NewBudget(0), 0, None, 0, false, 0, -1, nowMs, nowMs, padInSilence, paceAudio)
  }

  class PacedSender {
    var queue: seq<QueuedPacket>
    var media: IntervalBudget
    var padding: IntervalBudget
    var pacingBitrateKbps: nat
    var congestionWindowBytes: Option<nat>
    var outstandingBytes: int
    var paused: bool
    var packetCounter: nat
    var firstSentPacketMs: int
    var lastSendTimeMs: int
    var timeLastProcessMs: int
    /** Keep-alive padding also when neither paused nor congested. */
    const padInSilence: bool
    /** Audio is held back by the budget and the window like other media. */
    const paceAudio: bool

    function Snapshot(): Pacer
      reads this
    {
      Pacer(queue, media, padding, pacingBitrateKbps, congestionWindowBytes, outstandingBytes, paused,
            packetCounter, firstSentPacketMs, lastSendTimeMs, timeLastProcessMs, padInSilence, paceAudio)
    }

    ghost predicate Valid()
      reads this
    {
      IntervalBudgets.Valid(media) && IntervalBudgets.Valid(padding) && InsertionOrdered(Snapshot())
    }

    constructor(nowMs: int, padInSilence: bool, paceAudio: bool)
      ensures Snapshot() == InitialPacer(nowMs, padInSilence, paceAudio)
      ensures Valid()
    {
      queue := [];
      media := NewBudget(0);
      padding := NewBudget(0);
      pacingBitrateKbps := 0;
      congestionWindowBytes := None;
      outstandingBytes := 0;
      paused := false;
      packetCounter := 0;
      firstSentPacketMs := -1;
      lastSendTimeMs := nowMs;
      timeLastProcessMs := nowMs;
      this.padInSilence := padInSilence;
      this.paceAudio := paceAudio;
    }

    /** Rates arrive in bps and are kept in whole kbps; the padding rate goes to the padding
     *  budget at once, the pacing rate reaches the media budget at the next Process. */
    method SetPacingRates(pacingRateBps: nat, paddingRateBps: nat)
      requires Valid() && pacingRateBps > 0
      modifies this`pacingBitrateKbps, this`padding
      ensures Valid()
      ensures Snapshot() == old(Snapshot()).(pacingBitrateKbps := pacingRateBps / 1000,
                                             padding := SetTargetRateKbps(old(padding), paddingRateBps / 1000))
    {
      pacingBitrateKbps := pacingRateBps / 1000;
      padding := SetTargetRateKbps(padding, paddingRateBps / 1000);
    }

    method SetCongestionWindow(congestionWindowBytes: nat)
      modifies this`congestionWindowBytes
      ensures Snapshot() == old(Snapshot()).(congestionWindowBytes := Some(congestionWindowBytes))
    {
      this.congestionWindowBytes := Some(congestionWindowBytes);
    }

    /** Feedback reports how many sent bytes are still unacknowledged. */
    method UpdateOutstandingData(outstandingBytes: int)
      modifies this`outstandingBytes
      ensures Snapshot() == old(Snapshot()).(outstandingBytes := outstandingBytes)
    {
      this.outstandingBytes := outstandingBytes;
    }

    method Pause()
      modifies this`paused
      ensures Snapshot() == old(Snapshot()).(paused := true)
    {
      paused := true;
    }

    method Resume()
      modifies this`paused
      ensures Snapshot() == old(Snapshot()).(paused := false)
    {
      paused := false;
    }

    /** Queue a legacy packet; the pacing rate must have been set before. */
    method InsertPacket(priority: Priority, ssrc: nat, sequenceNumber: nat, captureTimeMs: int,
                        sizeBytes: nat, retransmission: bool, nowMs: int)
      requires Valid() && pacingBitrateKbps > 0
      modifies this`queue, this`packetCounter
      ensures Valid()
      ensures Snapshot() == Inserted(old(Snapshot()), priority, ssrc, sequenceNumber, captureTimeMs,
                                     sizeBytes, retransmission, nowMs)
    {
      InsertedKeepsInsertionOrder(Snapshot(), priority, ssrc, sequenceNumber, captureTimeMs, sizeBytes, retransmission, nowMs);
      var p := NewEntry(Snapshot(), PriorityLevel(priority), LegacyKind(priority, retransmission), ssrc,
                        sequenceNumber, captureTimeMs, sizeBytes, retransmission, false, nowMs);
      queue := queue + [p];
      packetCounter := packetCounter + 1;
    }

    /** Queue a whole packet of the given type; the pacing rate must have been set before. */
    method EnqueuePacket(kind: PacketType, ssrc: nat, sequenceNumber: nat, captureTimeMs: int,
                         sizeBytes: nat, nowMs: int)
      requires Valid() && pacingBitrateKbps > 0
      modifies this`queue, this`packetCounter
      ensures Valid()
      ensures Snapshot() == Enqueued(old(Snapshot()), kind, ssrc, sequenceNumber, captureTimeMs, sizeBytes, nowMs)
    {
      EnqueuedKeepsInsertionOrder(Snapshot(), kind, ssrc, sequenceNumber, captureTimeMs, sizeBytes, nowMs);
      var p := NewEntry(Snapshot(), PriorityForType(kind), kind, ssrc, sequenceNumber, captureTimeMs,
                        sizeBytes, kind == Retransmission, true, nowMs);
      queue := queue + [p];
      packetCounter := packetCounter + 1;
    }

    /** Bookkeeping for the packet at index `i` that the router accepted. */
    method OnPacketSent(i: nat, nowMs: int)
      requires i < |queue|
      modifies this`queue, this`firstSentPacketMs, this`media, this`padding, this`outstandingBytes, this`lastSendTimeMs
      ensures Snapshot() == PacketSent(old(Snapshot()), i, nowMs)
    {
      var p := queue[i];
      queue := RemoveAt(queue, i);
      if firstSentPacketMs == -1 {
        firstSentPacketMs := nowMs;
      }
      if p.kind != Audio {
        media := UseBudget(media, p.sizeBytes);
        padding := UseBudget(padding, p.sizeBytes);
        outstandingBytes := outstandingBytes + p.sizeBytes;
        lastSendTimeMs := nowMs;
      }
    }

    /** Bookkeeping for padding the router produced. */
    method OnPaddingSent(bytes: nat, nowMs: int)
      modifies this`media, this`padding, this`outstandingBytes, this`lastSendTimeMs
      ensures Snapshot() == PaddingSent(old(Snapshot()), bytes, nowMs)
    {
      if bytes > 0 {
        media := UseBudget(media, bytes);
        padding := UseBudget(padding, bytes);
        outstandingBytes := outstandingBytes + bytes;
      }
      lastSendTimeMs := nowMs;
    }

    /** One Process call at `nowMs`. Returns the packets handed to the router, in order, and
     *  the padding sizes requested from it. */
    method Process(nowMs: int, unavailable: set<(nat, nat)>, paddingResponse: nat -> nat)
        returns (sent: seq<QueuedPacket>, paddingRequests: seq<nat>)
      requires Valid()
      modifies this
      ensures Valid()
      ensures ProcessResult(Snapshot(), sent, paddingRequests) == Processed(old(Snapshot()), nowMs, unavailable, paddingResponse)
    {
      ghost var s0 := Snapshot();
      ProcessKeepsBudgetsValid(s0, nowMs, unavailable, paddingResponse);
      var elapsedMs := Min(nowMs - timeLastProcessMs, kMaxElapsedTimeMs);
      paddingRequests := SendKeepaliveIfDue(nowMs, paddingResponse);
      sent := [];
      if paused {
        return;
      }
      ghost var s2 := Snapshot();
      RefillBudgets(elapsedMs);
      ghost var s3 := Snapshot();
      assert s3 == Refill(s2, ElapsedMs(s0, nowMs));
      sent := DrainQueue(nowMs, unavailable);
      ghost var d := DrainResult(Snapshot(), sent);
      assert Processed(s0, nowMs, unavailable, paddingResponse) == PaddingStage(d, paddingRequests, nowMs, paddingResponse);
      paddingRequests := PadIfIdle(sent, paddingRequests, nowMs, paddingResponse);
    }

    method SendKeepaliveIfDue(nowMs: int, paddingResponse: nat -> nat) returns (requests: seq<nat>)
      requires Valid()
      modifies this`timeLastProcessMs, this`media, this`padding, this`outstandingBytes, this`lastSendTimeMs
      ensures Valid()
      ensures Snapshot() == KeepaliveStage(old(Snapshot()), nowMs, paddingResponse)
      ensures requests == if ShouldSendKeepalive(old(Snapshot()), nowMs) then [1] else []
    {
      var keepalive := ShouldSendKeepalive(Snapshot(), nowMs);
      timeLastProcessMs := nowMs;
      requests := [];
      if keepalive {
        OnPaddingSent(paddingResponse(1), nowMs);
        requests := [1];
      }
    }

    method RefillBudgets(elapsedMs: int)
      requires Valid()
      modifies this`media, this`padding
      ensures Valid()
      ensures Snapshot() == Refill(old(Snapshot()), elapsedMs)
    {
      if elapsedMs > 0 {
        var deltaMs := Min(elapsedMs, kMaxIntervalTimeMs);
        media := IncreaseBudget(SetTargetRateKbps(media, pacingBitrateKbps), deltaMs);
        padding := IncreaseBudget(padding, deltaMs);
      }
    }

    /** The drain loop: packets go to the router in queue order until the queue is empty, the
     *  next one is held back by pacing, or the router refuses it. */
    method DrainQueue(nowMs: int, unavailable: set<(nat, nat)>) returns (sent: seq<QueuedPacket>)
      requires InsertionOrdered(Snapshot())
      modifies this`queue, this`firstSentPacketMs, this`media, this`padding, this`outstandingBytes, this`lastSendTimeMs
      ensures InsertionOrdered(Snapshot())
      ensures DrainResult(Snapshot(), sent) == Drain(old(Snapshot()), nowMs, unavailable)
    {
      ghost var d := Drain(Snapshot(), nowMs, unavailable);
      DrainKeepsInsertionOrder(Snapshot(), nowMs, unavailable);
      ghost var rest := d;
      sent := [];
      while |queue| > 0
        invariant rest == Drain(Snapshot(), nowMs, unavailable)
        invariant d == DrainResult(rest.state, sent + rest.sent)
        decreases |queue|
      {
        var next := SendNextPacket(nowMs, unavailable);
        if next.None? {
          assert sent + [] == sent;
          return;
        }
        ghost var after := Drain(Snapshot(), nowMs, unavailable);
        AppendOne(sent, next.value, after.sent);
        sent := sent + [next.value];
        rest := after;
      }
      DrainEmpty(Snapshot(), nowMs, unavailable);
    }

    /** One turn of the drain loop: the next packet is sent, or it is held back or refused and
     *  nothing changes. */
    method SendNextPacket(nowMs: int, unavailable: set<(nat, nat)>) returns (next: Option<QueuedPacket>)
      requires |queue| > 0
      modifies this`queue, this`firstSentPacketMs, this`media, this`padding, this`outstandingBytes, this`lastSendTimeMs
      ensures next.None? ==> Snapshot() == old(Snapshot()) && Drain(Snapshot(), nowMs, unavailable) == DrainResult(Snapshot(), [])
      ensures next.Some? ==> |queue| < old(|queue|)
      ensures next.Some? ==>
                var rest := Drain(Snapshot(), nowMs, unavailable);
                Drain(old(Snapshot()), nowMs, unavailable) == DrainResult(rest.state, [next.value] + rest.sent)
    {
      var i := TopIndex(queue);
      var p := queue[i];
      if Blocked(Snapshot(), p) || Refused(p, unavailable) {
        DrainHeld(Snapshot(), nowMs, unavailable);
        return None;
      }
      DrainStep(Snapshot(), nowMs, unavailable);
      OnPacketSent(i, nowMs);
      next := Some(p);
    }

    method PadIfIdle(sent: seq<QueuedPacket>, requests: seq<nat>, nowMs: int, paddingResponse: nat -> nat)
        returns (allRequests: seq<nat>)
      modifies this`media, this`padding, this`outstandingBytes, this`lastSendTimeMs
      ensures ProcessResult(Snapshot(), sent, allRequests)
              == PaddingStage(DrainResult(old(Snapshot()), sent), requests, nowMs, paddingResponse)
    {
      allRequests := requests;
      if |queue| == 0 && !Congested(Snapshot()) && packetCounter > 0 && BytesRemaining(padding) > 0 {
        var wanted := BytesRemaining(padding);
        OnPaddingSent(paddingResponse(wanted), nowMs);
        allRequests := requests + [wanted];
      }
    }
  }
}
