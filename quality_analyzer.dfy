/** DefaultVideoQualityAnalyzer's frame bookkeeping: frames get 16-bit ids at capture, wait in
 *  a per-stream queue of in-flight ids, are counted at every stage of the pipeline, and leave
 *  the queue when rendered or when a later frame of the same stream is rendered first
 *  (dropped). Every frame that leaves is queued for comparison; when ten or more comparisons
 *  are pending a new one keeps only the frame's statistics. Time is an explicit argument;
 *  PSNR/SSIM, freeze detection and reporting are not part of this model. */
module QualityAnalyzer {
  import opened Wrappers

  const kMaxActiveComparisons: nat := 10
  const kFrameIdModulus: nat := 65536

  type FrameId = x: nat | x < kFrameIdModulus

  /** The id after `id`: uint16 arithmetic wraps to 0 after 65535. */
  function NextFrameId(id: FrameId): FrameId
  {
    (id + 1) % kFrameIdModulus
  }

  /** The id handed out `n` captures after `start`. */
  function FrameIdAfter(start: FrameId, n: nat): FrameId
  {
    (start + n) % kFrameIdModulus
  }

  lemma {:induction false} FrameIdAfterStep(start: FrameId, n: nat)
    ensures FrameIdAfter(start, n + 1) == NextFrameId(FrameIdAfter(start, n))
  {
    var q := (start + n) / kFrameIdModulus;
    var r := (start + n) % kFrameIdModulus;
    assert start + n + 1 == q * kFrameIdModulus + (r + 1);
    if r + 1 < kFrameIdModulus {
      assert (start + n + 1) % kFrameIdModulus == r + 1;
    } else {
      assert start + n + 1 == (q + 1) * kFrameIdModulus;
      assert (start + n + 1) % kFrameIdModulus == 0;
    }
  }

  /** 65536 consecutive captures get pairwise different ids, and the 65537th reuses the first. */
  lemma FrameIdsDistinctWithinWrap(start: FrameId, i: nat, j: nat)
    requires i < j < kFrameIdModulus
    ensures FrameIdAfter(start, i) != FrameIdAfter(start, j)
    ensures FrameIdAfter(start, kFrameIdModulus) == start
  {
    var qi := (start + i) / kFrameIdModulus;
    var qj := (start + j) / kFrameIdModulus;
    assert start + i == qi * kFrameIdModulus + FrameIdAfter(start, i);
    assert start + j == qj * kFrameIdModulus + FrameIdAfter(start, j);
    assert start + kFrameIdModulus == 1 * kFrameIdModulus + start;
  }

  /** A video frame as far as the analyzer looks at it. */
  datatype VideoFrame = VideoFrame(id: FrameId, width: nat, height: nat)

  /** Per-frame timestamps; a missing time is an unset (infinite) Timestamp. */
  datatype FrameStats = FrameStats(
    streamLabel: string,
    capturedTime: int,
    preEncodeTime: Option<int>,
    encodedTime: Option<int>,
    receivedTime: Option<int>,
    decodedTime: Option<int>,
    renderedTime: Option<int>,
    prevFrameRenderedTime: Option<int>,
    renderedFrameWidth: Option<nat>,
    renderedFrameHeight: Option<nat>)

  function NewFrameStats(streamLabel: string, capturedTime: int): FrameStats
  {
    FrameStats(streamLabel, capturedTime, None, None, None, None, None, None, None, None)
  }

  datatype FrameCounters = FrameCounters(
    captured: nat, preEncoded: nat, encoded: nat, received: nat, decoded: nat, rendered: nat, dropped: nat)

  const NoFrames := FrameCounters(0, 0, 0, 0, 0, 0, 0)

  datatype CounterKind = Captured | PreEncoded | Encoded | Received | Decoded | Rendered | Dropped

  /** The counters with the one of kind `k` incremented. */
  function Bump(c: FrameCounters, k: CounterKind): FrameCounters
  {
    match k
    case Captured => c.(captured := c.captured + 1)
    case PreEncoded => c.(preEncoded := c.preEncoded + 1)
    case Encoded => c.(encoded := c.encoded + 1)
    case Received => c.(received := c.received + 1)
    case Decoded => c.(decoded := c.decoded + 1)
    case Rendered => c.(rendered := c.rendered + 1)
    case Dropped => c.(dropped := c.dropped + 1)
  }

  /** The per-stream counters with one counter of `stream` incremented; a stream seen for the
   *  first time starts from zero. */
  function BumpStream(m: map<string, FrameCounters>, stream: string, k: CounterKind): map<string, FrameCounters>
  {
    m[stream := Bump(if stream in m then m[stream] else NoFrames, k)]
  }

  /** First time, last time and number of events. */
  datatype RateCounter = RateCounter(firstTime: Option<int>, lastTime: Option<int>, count: nat)

  /** An event at `t`: the first time is set once, the last time and the count always move. */
  function AddEvent(r: RateCounter, t: int): (r': RateCounter)
    ensures r'.firstTime == (if r.firstTime.None? then Some(t) else r.firstTime)
    ensures r'.lastTime == Some(t) && r'.count == r.count + 1
  {
    r.(firstTime := if r.firstTime.None? then Some(t) else r.firstTime, lastTime := Some(t), count := r.count + 1)
  }

  function AddEvents(r: RateCounter, ts: seq<int>): RateCounter
    decreases |ts|
  {
    if |ts| == 0 then r else AddEvents(AddEvent(r, ts[0]), ts[1..])
  }

  /** Starting empty, a series of events leaves its first and last time and its length. */
  lemma {:induction false} AddEventsSummary(r: RateCounter, ts: seq<int>)
    requires |ts| > 0
    ensures var r' := AddEvents(r, ts);
            && r'.firstTime == (if r.firstTime.None? then Some(ts[0]) else r.firstTime)
            && r'.lastTime == Some(ts[|ts| - 1]) && r'.count == r.count + |ts|
    decreases |ts|
  {
    if |ts| > 1 {
      AddEventsSummary(AddEvent(r, ts[0]), ts[1..]);
    }
  }

  datatype StreamStats = StreamStats(
    droppedByEncoder: nat,
    droppedBeforeEncoder: nat,
    skippedBetweenRendered: seq<nat>,
    encodeFrameRate: RateCounter)

  const NewStreamStats := StreamStats(0, 0, [], RateCounter(None, None, 0))

  datatype AnalyzerStats = AnalyzerStats(comparisonsQueueSize: seq<nat>, comparisonsDone: nat, overloadedComparisonsDone: nat)

  /** The ids of a stream's frames still in flight, oldest first, and when it last rendered. */
  datatype StreamState = StreamState(frameIds: seq<FrameId>, lastRenderedFrameTime: Option<int>)

  datatype FrameComparison = FrameComparison(
    captured: Option<VideoFrame>, rendered: Option<VideoFrame>, dropped: bool, frameStats: FrameStats)

  /** The comparison queued when `queueSize` comparisons are pending: under overload (ten or
   *  more pending) the frames are left out to keep the later work light. */
  function NewComparison(queueSize: nat, captured: Option<VideoFrame>, rendered: Option<VideoFrame>,
                         dropped: bool, frameStats: FrameStats): (c: FrameComparison)
    ensures c.dropped == dropped && c.frameStats == frameStats
    ensures queueSize >= kMaxActiveComparisons ==> c.captured.None? && c.rendered.None?
    ensures queueSize < kMaxActiveComparisons ==> c.captured == captured && c.rendered == rendered
  {
    if queueSize >= kMaxActiveComparisons then FrameComparison(None, None, dropped, frameStats)
    else FrameComparison(captured, rendered, dropped, frameStats)
  }

  datatype RunState = New | Active | Stopped

  /** The analyzer's state. */
  datatype Analyzer = Analyzer(
    nextFrameId: FrameId,
    frameCounters: FrameCounters,
    streamFrameCounters: map<string, FrameCounters>,
    streamStates: map<string, StreamState>,
    capturedFramesInFlight: map<FrameId, VideoFrame>,
    frameStats: map<FrameId, FrameStats>,
    streamStats: map<string, StreamStats>,
    streamLastFreezeEndTime: map<string, Option<int>>,
    comparisons: seq<FrameComparison>,
    analyzerStats: AnalyzerStats,
    runState: RunState,
    startTime: Option<int>,
    testLabel: string)

  const InitialAnalyzer := Analyzer(0, NoFrames, map[], map[], map[], map[], map[], map[], [],
                                    AnalyzerStats([], 0, 0), New, None, "")

  // ---------------------------------------------------------------------------------------
  // The invariant.

  /** Every frame ever captured was rendered, was dropped, or is still in flight. */
  predicate Balanced(c: FrameCounters, inFlight: nat)
  {
    c.captured == c.rendered + c.dropped + inFlight
  }

  /** How many captures ago `id` was handed out, counted modulo 65536, when `next` is the
   *  id the next capture gets. */
  function Age(next: FrameId, id: FrameId): nat
  {
    if id < next then next - id - 1 else next + kFrameIdModulus - id - 1
  }

  /** Handing out `next` makes it the youngest id and every other id one capture older. */
  lemma AgeAfterNext(next: FrameId, id: FrameId)
    ensures Age(NextFrameId(next), id) == if id == next then 0 else Age(next, id) + 1
  {
  }

  /** No id is older than the one about to be handed out again. */
  lemma AgeOfNextIsMaximal(next: FrameId, id: FrameId)
    ensures Age(next, id) <= Age(next, next) == kFrameIdModulus - 1
    ensures Age(next, id) == kFrameIdModulus - 1 ==> id == next
  {
  }

  /** The queue of `stream` lists ids in flight for that stream, oldest first (which also
   *  makes them distinct). */
  ghost predicate QueueConsistent(a: Analyzer, stream: string)
    requires stream in a.streamStates
  {
    var ids := a.streamStates[stream].frameIds;
    && (forall k :: 0 <= k < |ids| ==>
          ids[k] in a.frameStats && ids[k] in a.capturedFramesInFlight && a.frameStats[ids[k]].streamLabel == stream)
    && (forall k, m {:trigger Age(a.nextFrameId, ids[k]), Age(a.nextFrameId, ids[m])} ::
          0 <= k < m < |ids| ==> Age(a.nextFrameId, ids[k]) > Age(a.nextFrameId, ids[m]))
  }

  /** Both maps of frames in flight cover the same ids, and each frame carries its own id. */
  ghost predicate MapsAgree(a: Analyzer)
  {
    && a.capturedFramesInFlight.Keys == a.frameStats.Keys
    && (forall id :: id in a.capturedFramesInFlight ==> a.capturedFramesInFlight[id].id == id)
  }

  /** Every frame in flight is listed in the queue of the stream it was captured on. */
  ghost predicate FramesQueued(a: Analyzer)
  {
    forall id :: id in a.frameStats ==>
      a.frameStats[id].streamLabel in a.streamStates && id in a.streamStates[a.frameStats[id].streamLabel].frameIds
  }

  ghost predicate QueuesConsistent(a: Analyzer)
  {
    forall stream :: stream in a.streamStates ==> QueueConsistent(a, stream)
  }

  ghost predicate CountersBalanced(a: Analyzer)
    requires a.streamStates.Keys == a.streamFrameCounters.Keys
  {
    && (forall stream :: stream in a.streamStates ==>
          Balanced(a.streamFrameCounters[stream], |a.streamStates[stream].frameIds|))
    && Balanced(a.frameCounters, |a.frameStats.Keys|)
  }

  ghost predicate Consistent(a: Analyzer)
  {
    && MapsAgree(a)
    && a.streamStates.Keys == a.streamFrameCounters.Keys == a.streamStats.Keys
    && FramesQueued(a)
    && QueuesConsistent(a)
    && CountersBalanced(a)
    && (forall c :: c in a.comparisons ==> c.frameStats.streamLabel in a.streamStats)
  }

  lemma InitialConsistent()
    ensures Consistent(InitialAnalyzer)
  {
  }

  // ---------------------------------------------------------------------------------------
  // Transitions.

  /** Queues a comparison and samples the queue's size first. */
  function AddComparison(a: Analyzer, captured: Option<VideoFrame>, rendered: Option<VideoFrame>,
                         dropped: bool, frameStats: FrameStats): Analyzer
  {
    var size := |a.comparisons|;
    a.(analyzerStats := a.analyzerStats.(comparisonsQueueSize := a.analyzerStats.comparisonsQueueSize + [size]),
       comparisons := a.comparisons + [NewComparison(size, captured, rendered, dropped, frameStats)])
  }

  /** The set of ids a queue lists. */
  ghost function Ids(ids: seq<FrameId>): set<FrameId>
  {
    set k | 0 <= k < |ids| :: ids[k]
  }

  /** The oldest in-flight frame of `stream` is given up as dropped: it leaves the queue and
   *  both maps, both drop counters move and a dropped comparison is queued. */
  function DropOldest(a: Analyzer, stream: string): (r: Analyzer)
    requires stream in a.streamStates && |a.streamStates[stream].frameIds| > 0
    requires a.streamStates[stream].frameIds[0] in a.frameStats
    requires a.streamStates[stream].frameIds[0] in a.capturedFramesInFlight
    ensures stream in r.streamStates && r.streamStates[stream].frameIds == a.streamStates[stream].frameIds[1..]
  {
    var st := a.streamStates[stream];
    var id := st.frameIds[0];
    var b := AddComparison(a, Some(a.capturedFramesInFlight[id]), None, true, a.frameStats[id]);
    b.(frameCounters := Bump(a.frameCounters, Dropped),
       streamFrameCounters := BumpStream(a.streamFrameCounters, stream, Dropped),
       streamStates := a.streamStates[stream := st.(frameIds := st.frameIds[1..])],
       capturedFramesInFlight := a.capturedFramesInFlight - {id},
       frameStats := a.frameStats - {id})
  }

  datatype DropResult = DropResult(state: Analyzer, dropped: nat)

  /** Drops the frames of `stream` queued before `id`, oldest first, and counts them. */
  function DropUntil(a: Analyzer, stream: string, id: FrameId): DropResult
    requires stream in a.streamStates && QueueConsistent(a, stream)
    decreases |a.streamStates[stream].frameIds|
  {
    var ids := a.streamStates[stream].frameIds;
    if |ids| == 0 || ids[0] == id then DropResult(a, 0)
    else
      DropOldestKeepsQueue(a, stream);
      var d := DropUntil(DropOldest(a, stream), stream, id);
      DropResult(d.state, d.dropped + 1)
  }

  lemma DropOldestKeepsQueue(a: Analyzer, stream: string)
    requires stream in a.streamStates && QueueConsistent(a, stream) && |a.streamStates[stream].frameIds| > 0
    ensures QueueConsistent(DropOldest(a, stream), stream)
  {
    var ids := a.streamStates[stream].frameIds;
    var r := DropOldest(a, stream);
    forall k | 1 <= k < |ids|
      ensures ids[k] in r.frameStats && ids[k] in r.capturedFramesInFlight
    {
      assert Age(a.nextFrameId, ids[0]) > Age(a.nextFrameId, ids[k]);
    }
    forall k, m | 0 <= k < m < |ids| - 1
      ensures Age(r.nextFrameId, ids[1..][k]) > Age(r.nextFrameId, ids[1..][m])
    {
      assert Age(a.nextFrameId, ids[k + 1]) > Age(a.nextFrameId, ids[m + 1]);
    }
  }

  lemma AddKeyCard<V>(m: map<FrameId, V>, id: FrameId, v: V)
    requires id !in m
    ensures |m[id := v].Keys| == |m.Keys| + 1
  {
    assert m[id := v].Keys == m.Keys + {id};
  }

  lemma RemoveKeyCard<V>(m: map<FrameId, V>, id: FrameId)
    requires id in m
    ensures |(m - {id}).Keys| == |m.Keys| - 1
  {
    assert (m - {id}).Keys == m.Keys - {id};
  }

  /** `r` is `a` after the oldest frame of `stream` left flight, counted under `kind`
   *  (dropped or rendered), with one comparison queued for it. */
  ghost predicate LeftFront(a: Analyzer, r: Analyzer, stream: string, kind: CounterKind)
  {
    && stream in a.streamStates && |a.streamStates[stream].frameIds| > 0
    && var id := a.streamStates[stream].frameIds[0];
    && id in a.frameStats && id in a.capturedFramesInFlight
    && r.nextFrameId == a.nextFrameId
    && r.frameStats == a.frameStats - {id}
    && r.capturedFramesInFlight == a.capturedFramesInFlight - {id}
    && r.streamStates.Keys == a.streamStates.Keys
    && r.streamStates[stream].frameIds == a.streamStates[stream].frameIds[1..]
    && (forall l :: l in a.streamStates && l != stream ==> r.streamStates[l] == a.streamStates[l])
    && r.frameCounters == Bump(a.frameCounters, kind)
    && r.streamFrameCounters == BumpStream(a.streamFrameCounters, stream, kind)
    && r.streamStats.Keys == a.streamStats.Keys
    && |r.comparisons| == |a.comparisons| + 1
    && r.comparisons[..|a.comparisons|] == a.comparisons
    && r.comparisons[|a.comparisons|].frameStats.streamLabel == stream
  }

  lemma DropOldestFields(a: Analyzer, stream: string)
    requires stream in a.streamStates && |a.streamStates[stream].frameIds| > 0
    requires a.streamStates[stream].frameIds[0] in a.frameStats
    requires a.streamStates[stream].frameIds[0] in a.capturedFramesInFlight
    requires a.frameStats[a.streamStates[stream].frameIds[0]].streamLabel == stream
    ensures LeftFront(a, DropOldest(a, stream), stream, Dropped)
  {
  }

  /** Giving up the oldest frame of a stream keeps the bookkeeping consistent. */
  lemma DropOldestConsistent(a: Analyzer, stream: string)
    requires Consistent(a) && stream in a.streamStates && |a.streamStates[stream].frameIds| > 0
    ensures Consistent(DropOldest(a, stream))
  {
    assert QueueConsistent(a, stream);
    DropOldestFields(a, stream);
    LeftFrontConsistent(a, DropOldest(a, stream), stream, Dropped);
  }

  /** A frame leaving flight from the front of its stream's queue, rendered or dropped,
   *  keeps the bookkeeping consistent. */
  lemma LeftFrontConsistent(a: Analyzer, r: Analyzer, stream: string, kind: CounterKind)
    requires Consistent(a) && LeftFront(a, r, stream, kind) && (kind == Dropped || kind == Rendered)
    ensures Consistent(r)
  {
    LeftFrontBalanced(a, r, stream, kind);
    LeftFrontQueues(a, r, stream, kind);
    LeftFrontFramesQueued(a, r, stream, kind);
    ComparisonsKnownAfterPush(a.comparisons, r.comparisons, r.streamStats.Keys);
  }

  /** Comparisons extending known ones by one more for a known stream are all known. */
  lemma ComparisonsKnownAfterPush(cs: seq<FrameComparison>, cs': seq<FrameComparison>, streams: set<string>)
    requires forall c :: c in cs ==> c.frameStats.streamLabel in streams
    requires |cs'| == |cs| + 1 && cs'[..|cs|] == cs && cs'[|cs|].frameStats.streamLabel in streams
    ensures forall c :: c in cs' ==> c.frameStats.streamLabel in streams
  {
    assert cs' == cs + [cs'[|cs|]];
  }

  lemma LeftFrontFramesQueued(a: Analyzer, r: Analyzer, stream: string, kind: CounterKind)
    requires Consistent(a) && LeftFront(a, r, stream, kind)
    ensures FramesQueued(r)
  {
    var ids := a.streamStates[stream].frameIds;
    forall x | x in r.frameStats
      ensures r.frameStats[x].streamLabel in r.streamStates
      ensures x in r.streamStates[r.frameStats[x].streamLabel].frameIds
    {
      var l := a.frameStats[x].streamLabel;
      if l == stream {
        var k :| 0 <= k < |ids| && ids[k] == x;
        assert k != 0;
        assert ids[1..][k - 1] == x;
      }
    }
  }

  lemma LeftFrontQueues(a: Analyzer, r: Analyzer, stream: string, kind: CounterKind)
    requires Consistent(a) && LeftFront(a, r, stream, kind)
    ensures QueuesConsistent(r)
  {
    forall l | l in r.streamStates
      ensures QueueConsistent(r, l)
    {
      assert QueueConsistent(a, stream) && QueueConsistent(a, l);
      LeftFrontQueue(a, r, stream, kind, l);
    }
  }

  lemma LeftFrontQueue(a: Analyzer, r: Analyzer, stream: string, kind: CounterKind, l: string)
    requires LeftFront(a, r, stream, kind) && l in r.streamStates
    requires QueueConsistent(a, stream) && QueueConsistent(a, l)
    ensures QueueConsistent(r, l)
  {
    var ids := a.streamStates[stream].frameIds;
    var id := ids[0];
    var q := a.streamStates[l].frameIds;
    var q' := r.streamStates[l].frameIds;
    if l == stream {
      assert q' == ids[1..];
      forall k | 0 <= k < |q'|
        ensures q'[k] in r.frameStats && q'[k] in r.capturedFramesInFlight && r.frameStats[q'[k]].streamLabel == l
      {
        assert Age(a.nextFrameId, ids[0]) > Age(a.nextFrameId, ids[k + 1]);
      }
      forall k, m | 0 <= k < m < |q'|
        ensures Age(r.nextFrameId, q'[k]) > Age(r.nextFrameId, q'[m])
      {
        assert Age(a.nextFrameId, ids[k + 1]) > Age(a.nextFrameId, ids[m + 1]);
      }
    } else {
      assert q' == q;
      forall k | 0 <= k < |q'|
        ensures q'[k] in r.frameStats && q'[k] in r.capturedFramesInFlight && r.frameStats[q'[k]].streamLabel == l
      {
        assert a.frameStats[q[k]].streamLabel == l;
        assert q[k] != id;
      }
    }
  }

  lemma LeftFrontBalanced(a: Analyzer, r: Analyzer, stream: string, kind: CounterKind)
    requires a.streamStates.Keys == a.streamFrameCounters.Keys && CountersBalanced(a)
    requires LeftFront(a, r, stream, kind) && (kind == Dropped || kind == Rendered)
    ensures r.streamStates.Keys == r.streamFrameCounters.Keys && CountersBalanced(r)
  {
    var id := a.streamStates[stream].frameIds[0];
    RemoveKeyCard(a.frameStats, id);
    forall l | l in r.streamStates
      ensures Balanced(r.streamFrameCounters[l], |r.streamStates[l].frameIds|)
    {
      assert Balanced(a.streamFrameCounters[l], |a.streamStates[l].frameIds|);
      if l != stream {
        assert r.streamStates[l] == a.streamStates[l];
      }
    }
  }

  /** Dropping frames until `id` keeps the bookkeeping consistent. */
  lemma {:induction false} DropUntilConsistent(a: Analyzer, stream: string, id: FrameId)
    requires Consistent(a) && stream in a.streamStates
    ensures Consistent(DropUntil(a, stream, id).state)
    decreases |a.streamStates[stream].frameIds|
  {
    var ids := a.streamStates[stream].frameIds;
    if |ids| > 0 && ids[0] != id {
      DropOldestConsistent(a, stream);
      DropUntilConsistent(DropOldest(a, stream), stream, id);
    }
  }

  /** When `id` is queued for the stream, dropping stops exactly at it: the frames dropped are
   *  those queued before it, and it is left at the front. */
  lemma {:induction false} DropUntilReaches(a: Analyzer, stream: string, id: FrameId)
    requires stream in a.streamStates && QueueConsistent(a, stream)
    requires id in a.streamStates[stream].frameIds
    ensures var d := DropUntil(a, stream, id);
            var ids := a.streamStates[stream].frameIds;
            && d.dropped < |ids| && ids[d.dropped] == id
            && (forall j :: 0 <= j < d.dropped ==> ids[j] != id)
            && stream in d.state.streamStates
            && d.state.streamStates[stream].frameIds == ids[d.dropped..]
    decreases |a.streamStates[stream].frameIds|
  {
    var ids := a.streamStates[stream].frameIds;
    if ids[0] != id {
      DropOldestKeepsQueue(a, stream);
      var b := DropOldest(a, stream);
      assert b.streamStates[stream].frameIds == ids[1..];
      assert id in ids[1..];
      DropUntilReaches(b, stream, id);
      var d := DropUntil(b, stream, id);
      assert ids[1..][d.dropped..] == ids[d.dropped + 1..];
      forall j | 0 <= j < d.dropped + 1
        ensures ids[j] != id
      {
        if j > 0 {
          assert ids[j] == ids[1..][j - 1];
        }
      }
    }
  }

  /** The rendered frame, now at the front of its stream's queue, leaves flight: it is counted
   *  as rendered, the stream remembers when it last rendered and how many frames were skipped
   *  since, and a comparison of the captured and the rendered frame is queued. */
  function RenderFront(b: Analyzer, stream: string, frame: VideoFrame, nowMs: int, dropped: nat): Analyzer
    requires stream in b.streamStates && stream in b.streamStats
    requires |b.streamStates[stream].frameIds| > 0 && b.streamStates[stream].frameIds[0] == frame.id
    requires frame.id in b.frameStats && frame.id in b.capturedFramesInFlight
  {
    var id := frame.id;
    var st := b.streamStates[stream];
    var fs0 := b.frameStats[id];
    var fs := fs0.(renderedTime := Some(nowMs),
                   renderedFrameWidth := Some(frame.width), renderedFrameHeight := Some(frame.height),
                   prevFrameRenderedTime := if st.lastRenderedFrameTime.Some? then st.lastRenderedFrameTime
                                            else fs0.prevFrameRenderedTime);
    var ss := b.streamStats[stream];
    var c := AddComparison(b, Some(b.capturedFramesInFlight[id]), Some(frame), false, fs);
    c.(frameCounters := Bump(b.frameCounters, Rendered),
       streamFrameCounters := BumpStream(b.streamFrameCounters, stream, Rendered),
       streamStates := b.streamStates[stream := StreamState(st.frameIds[1..], Some(nowMs))],
       streamStats := b.streamStats[stream := ss.(skippedBetweenRendered := ss.skippedBetweenRendered + [dropped])],
       capturedFramesInFlight := b.capturedFramesInFlight - {id},
       frameStats := b.frameStats - {id})
  }

  /** OnFrameRendered: the frames of the same stream queued before the rendered one are
   *  dropped, then the rendered one leaves flight. */
  function FrameRendered(a: Analyzer, frame: VideoFrame, nowMs: int): Analyzer
    requires Consistent(a) && frame.id in a.frameStats
  {
    var stream := a.frameStats[frame.id].streamLabel;
    assert QueueConsistent(a, stream);
    DropUntilReaches(a, stream, frame.id);
    DropUntilConsistent(a, stream, frame.id);
    var d := DropUntil(a, stream, frame.id);
    assert QueueConsistent(d.state, stream);
    RenderFront(d.state, stream, frame, nowMs, d.dropped)
  }

  lemma RenderFrontConsistent(b: Analyzer, stream: string, frame: VideoFrame, nowMs: int, dropped: nat)
    requires Consistent(b) && stream in b.streamStates
    requires |b.streamStates[stream].frameIds| > 0 && b.streamStates[stream].frameIds[0] == frame.id
    ensures Consistent(RenderFront(b, stream, frame, nowMs, dropped))
  {
    assert QueueConsistent(b, stream);
    RenderFrontFields(b, stream, frame, nowMs, dropped);
    LeftFrontConsistent(b, RenderFront(b, stream, frame, nowMs, dropped), stream, Rendered);
  }

  lemma RenderFrontFields(b: Analyzer, stream: string, frame: VideoFrame, nowMs: int, dropped: nat)
    requires stream in b.streamStates && stream in b.streamStats
    requires |b.streamStates[stream].frameIds| > 0 && b.streamStates[stream].frameIds[0] == frame.id
    requires frame.id in b.frameStats && frame.id in b.capturedFramesInFlight
    requires b.frameStats[frame.id].streamLabel == stream
    ensures LeftFront(b, RenderFront(b, stream, frame, nowMs, dropped), stream, Rendered)
  {
  }

  /** Rendering a frame in flight keeps the bookkeeping consistent. */
  lemma RenderedConsistent(a: Analyzer, frame: VideoFrame, nowMs: int)
    requires Consistent(a) && frame.id in a.frameStats
    ensures Consistent(FrameRendered(a, frame, nowMs))
  {
    var stream := a.frameStats[frame.id].streamLabel;
    assert QueueConsistent(a, stream);
    DropUntilReaches(a, stream, frame.id);
    DropUntilConsistent(a, stream, frame.id);
    var d := DropUntil(a, stream, frame.id);
    RenderFrontConsistent(d.state, stream, frame, nowMs, d.dropped);
  }

  /** Rendering splits into the two steps the callback takes: dropping the frames queued
   *  before the rendered one, then letting the rendered one leave from the front. */
  lemma RenderSteps(a: Analyzer, frame: VideoFrame, nowMs: int)
    requires Consistent(a) && frame.id in a.frameStats
    ensures var stream := a.frameStats[frame.id].streamLabel;
            && stream in a.streamStates && QueueConsistent(a, stream)
            && frame.id in a.streamStates[stream].frameIds
            && var d := DropUntil(a, stream, frame.id);
            && stream in d.state.streamStates && stream in d.state.streamStats
            && |d.state.streamStates[stream].frameIds| > 0 && d.state.streamStates[stream].frameIds[0] == frame.id
            && frame.id in d.state.frameStats && frame.id in d.state.capturedFramesInFlight
            && FrameRendered(a, frame, nowMs) == RenderFront(d.state, stream, frame, nowMs, d.dropped)
  {
    var stream := a.frameStats[frame.id].streamLabel;
    assert QueueConsistent(a, stream);
    DropUntilReaches(a, stream, frame.id);
    DropUntilKeepsQueue(a, stream, frame.id);
    DropUntilConsistent(a, stream, frame.id);
    var d := DropUntil(a, stream, frame.id);
    assert QueueConsistent(d.state, stream);
  }

  /** The id about to be handed out is either free or held by the oldest in-flight frame of the
   *  stream that captured it. */
  ghost predicate ReusedIdIsOldest(a: Analyzer)
  {
    a.nextFrameId in a.frameStats ==>
      var owner := a.frameStats[a.nextFrameId].streamLabel;
      owner in a.streamStates && |a.streamStates[owner].frameIds| > 0
      && a.streamStates[owner].frameIds[0] == a.nextFrameId
  }

  /** Ids are handed out in order and every queue is kept oldest first, so a frame whose id
   *  comes round again has been in flight longer than any other and waits at the front of
   *  its stream's queue. */
  lemma ReusedIdIsOldestFrame(a: Analyzer)
    requires Consistent(a)
    ensures ReusedIdIsOldest(a)
  {
    var id := a.nextFrameId;
    if id in a.frameStats {
      var owner := a.frameStats[id].streamLabel;
      var ids := a.streamStates[owner].frameIds;
      assert QueueConsistent(a, owner);
      var k :| 0 <= k < |ids| && ids[k] == id;
      if k > 0 {
        assert Age(id, ids[0]) > Age(id, ids[k]);
        AgeOfNextIsMaximal(id, ids[0]);
        assert false;
      }
    }
  }

  /** OnFrameCaptured: the frame gets the next id (wrapping after 65535) and joins the back of
   *  its stream's queue. If that id is still held by a frame in flight (ids wrapped while it
   *  waited), the old frame is first dropped from the queue it waits in. */
  function FrameCaptured(a: Analyzer, stream: string, frame: VideoFrame, nowMs: int): Analyzer
    requires Consistent(a)
  {
    ReusedIdIsOldestFrame(a);
    var id := a.nextFrameId;
    var b := if id in a.frameStats then DropOldest(a, a.frameStats[id].streamLabel) else a;
    Enqueue(b, stream, frame.(id := id), nowMs)
  }

  /** The frame joins the back of `stream`'s queue under its id, which is free. */
  function Enqueue(b: Analyzer, stream: string, frame: VideoFrame, nowMs: int): Analyzer
  {
    var id := b.nextFrameId;
    var st := if stream in b.streamStates then b.streamStates[stream] else StreamState([], None);
    var isNew := stream !in b.streamStats;
    b.(nextFrameId := NextFrameId(id),
       streamStats := if isNew then b.streamStats[stream := NewStreamStats] else b.streamStats,
       streamLastFreezeEndTime := if isNew then b.streamLastFreezeEndTime[stream := b.startTime]
                                  else b.streamLastFreezeEndTime,
       frameCounters := Bump(b.frameCounters, Captured),
       streamFrameCounters := BumpStream(b.streamFrameCounters, stream, Captured),
       streamStates := b.streamStates[stream := st.(frameIds := st.frameIds + [id])],
       capturedFramesInFlight := b.capturedFramesInFlight[id := frame],
       frameStats := b.frameStats[id := NewFrameStats(stream, nowMs)])
  }

  /** `r` is `b` with a frame joining the back of `stream`'s queue under the free id `id`. */
  ghost predicate JoinedBack(b: Analyzer, r: Analyzer, stream: string, id: FrameId)
  {
    && id !in b.frameStats && id !in b.capturedFramesInFlight
    && id == b.nextFrameId && r.nextFrameId == NextFrameId(id)
    && id in r.frameStats && r.frameStats == b.frameStats[id := r.frameStats[id]]
    && r.frameStats[id].streamLabel == stream
    && id in r.capturedFramesInFlight && r.capturedFramesInFlight == b.capturedFramesInFlight[id := r.capturedFramesInFlight[id]]
    && r.capturedFramesInFlight[id].id == id
    && stream in r.streamStates && r.streamStates == b.streamStates[stream := r.streamStates[stream]]
    && r.streamStates[stream].frameIds == (if stream in b.streamStates then b.streamStates[stream].frameIds else []) + [id]
    && r.frameCounters == Bump(b.frameCounters, Captured)
    && r.streamFrameCounters == BumpStream(b.streamFrameCounters, stream, Captured)
    && stream in r.streamStats && r.streamStats == b.streamStats[stream := r.streamStats[stream]]
    && r.comparisons == b.comparisons
  }

  lemma EnqueueConsistent(b: Analyzer, stream: string, frame: VideoFrame, nowMs: int)
    requires Consistent(b) && b.nextFrameId !in b.frameStats && frame.id == b.nextFrameId
    ensures Consistent(Enqueue(b, stream, frame, nowMs))
  {
    assert b.nextFrameId !in b.capturedFramesInFlight;
    EnqueueJoinsBack(b, stream, frame, nowMs);
    JoinedBackConsistent(b, Enqueue(b, stream, frame, nowMs), stream, b.nextFrameId);
  }

  lemma EnqueueJoinsBack(b: Analyzer, stream: string, frame: VideoFrame, nowMs: int)
    requires b.nextFrameId !in b.frameStats && b.nextFrameId !in b.capturedFramesInFlight
    requires frame.id == b.nextFrameId
    ensures JoinedBack(b, Enqueue(b, stream, frame, nowMs), stream, b.nextFrameId)
  {
  }

  lemma JoinedBackConsistent(b: Analyzer, r: Analyzer, stream: string, id: FrameId)
    requires Consistent(b) && JoinedBack(b, r, stream, id)
    ensures Consistent(r)
  {
    JoinedBackQueues(b, r, stream, id);
    JoinedBackFramesQueued(b, r, stream, id);
    JoinedBackBalanced(b, r, stream, id);
    JoinedBackMaps(b, r, stream, id);
  }

  lemma JoinedBackMaps(b: Analyzer, r: Analyzer, stream: string, id: FrameId)
    requires MapsAgree(b) && b.streamStates.Keys == b.streamFrameCounters.Keys == b.streamStats.Keys
    requires (forall c :: c in b.comparisons ==> c.frameStats.streamLabel in b.streamStats)
    requires JoinedBack(b, r, stream, id)
    ensures MapsAgree(r) && r.streamStates.Keys == r.streamFrameCounters.Keys == r.streamStats.Keys
    ensures forall c :: c in r.comparisons ==> c.frameStats.streamLabel in r.streamStats
  {
    assert r.streamStates.Keys == b.streamStates.Keys + {stream};
    assert r.streamStats.Keys == b.streamStats.Keys + {stream};
    assert r.frameStats.Keys == b.frameStats.Keys + {id};
    assert r.capturedFramesInFlight.Keys == b.capturedFramesInFlight.Keys + {id};
  }

  lemma JoinedBackBalanced(b: Analyzer, r: Analyzer, stream: string, id: FrameId)
    requires b.streamStates.Keys == b.streamFrameCounters.Keys && CountersBalanced(b) && JoinedBack(b, r, stream, id)
    ensures r.streamStates.Keys == r.streamFrameCounters.Keys && CountersBalanced(r)
  {
    JoinedBackKeys(b, r, stream, id);
    JoinedBackGlobal(b, r, stream, id);
    forall l | l in r.streamStates
      ensures Balanced(r.streamFrameCounters[l], |r.streamStates[l].frameIds|)
    {
      if l == stream {
        JoinedBackOwnStream(b, r, stream, id);
      } else {
        assert r.streamStates[l] == b.streamStates[l];
        assert Balanced(b.streamFrameCounters[l], |b.streamStates[l].frameIds|);
      }
    }
  }

  lemma JoinedBackKeys(b: Analyzer, r: Analyzer, stream: string, id: FrameId)
    requires b.streamStates.Keys == b.streamFrameCounters.Keys && JoinedBack(b, r, stream, id)
    ensures r.streamStates.Keys == r.streamFrameCounters.Keys
  {
    assert r.streamStates.Keys == b.streamStates.Keys + {stream};
  }

  lemma JoinedBackGlobal(b: Analyzer, r: Analyzer, stream: string, id: FrameId)
    requires Balanced(b.frameCounters, |b.frameStats.Keys|) && JoinedBack(b, r, stream, id)
    ensures Balanced(r.frameCounters, |r.frameStats.Keys|)
  {
    AddKeyCard(b.frameStats, id, r.frameStats[id]);
  }

  lemma JoinedBackOwnStream(b: Analyzer, r: Analyzer, stream: string, id: FrameId)
    requires b.streamStates.Keys == b.streamFrameCounters.Keys && CountersBalanced(b) && JoinedBack(b, r, stream, id)
    ensures Balanced(r.streamFrameCounters[stream], |r.streamStates[stream].frameIds|)
  {
    if stream in b.streamStates {
      assert Balanced(b.streamFrameCounters[stream], |b.streamStates[stream].frameIds|);
    }
  }

  lemma JoinedBackQueues(b: Analyzer, r: Analyzer, stream: string, id: FrameId)
    requires QueuesConsistent(b) && JoinedBack(b, r, stream, id)
    ensures QueuesConsistent(r)
  {
    forall l | l in r.streamStates
      ensures QueueConsistent(r, l)
    {
      if l in b.streamStates {
        assert QueueConsistent(b, l);
        JoinedBackQueue(b, r, stream, id, l);
      } else {
        assert r.streamStates[l].frameIds == [id];
      }
    }
  }

  lemma JoinedBackFramesQueued(b: Analyzer, r: Analyzer, stream: string, id: FrameId)
    requires FramesQueued(b) && JoinedBack(b, r, stream, id)
    ensures FramesQueued(r)
  {
    forall x | x in r.frameStats
      ensures r.frameStats[x].streamLabel in r.streamStates && x in r.streamStates[r.frameStats[x].streamLabel].frameIds
    {
      if x != id {
        var l := b.frameStats[x].streamLabel;
        assert x in b.streamStates[l].frameIds;
        if l == stream {
          assert r.streamStates[l].frameIds == b.streamStates[l].frameIds + [id];
        }
      } else {
        assert r.streamStates[stream].frameIds[|r.streamStates[stream].frameIds| - 1] == id;
      }
    }
  }

  lemma JoinedBackQueue(b: Analyzer, r: Analyzer, stream: string, id: FrameId, l: string)
    requires JoinedBack(b, r, stream, id) && l in b.streamStates && QueueConsistent(b, l)
    ensures l in r.streamStates && QueueConsistent(r, l)
  {
    var q := b.streamStates[l].frameIds;
    var q' := r.streamStates[l].frameIds;
    forall k | 0 <= k < |q| ensures q[k] != id {
      assert q[k] in b.frameStats;
    }
    forall k, m | 0 <= k < m < |q|
      ensures Age(r.nextFrameId, q[k]) > Age(r.nextFrameId, q[m])
    {
      assert Age(b.nextFrameId, q[k]) > Age(b.nextFrameId, q[m]);
      AgeAfterNext(id, q[k]);
      AgeAfterNext(id, q[m]);
    }
    if l == stream {
      assert q' == q + [id];
      forall k, m | 0 <= k < m < |q'|
        ensures Age(r.nextFrameId, q'[k]) > Age(r.nextFrameId, q'[m])
      {
        if m == |q| {
          AgeAfterNext(id, q[k]);
          AgeAfterNext(id, id);
        } else {
          assert Age(r.nextFrameId, q[k]) > Age(r.nextFrameId, q[m]);
        }
      }
    } else {
      assert q' == q;
    }
  }

  /** Capturing a frame keeps the bookkeeping consistent, also when its id comes round again
   *  while the frame that held it is still in flight. */
  lemma FrameCapturedConsistent(a: Analyzer, stream: string, frame: VideoFrame, nowMs: int)
    requires Consistent(a)
    ensures Consistent(FrameCaptured(a, stream, frame, nowMs))
  {
    ReusedIdIsOldestFrame(a);
    var id := a.nextFrameId;
    if id in a.frameStats {
      var owner := a.frameStats[id].streamLabel;
      assert QueueConsistent(a, owner);
      DropOldestFields(a, owner);
      DropOldestConsistent(a, owner);
      EnqueueConsistent(DropOldest(a, owner), stream, frame.(id := id), nowMs);
    } else {
      EnqueueConsistent(a, stream, frame.(id := id), nowMs);
    }
  }

  // ---------------------------------------------------------------------------------------
  // The eviction as written in default_video_quality_analyzer.cc.

  /** OnFrameCaptured as the source writes it: the new id is pushed onto the capturing
   *  stream's queue first, and an id still in flight is then evicted from the front of that
   *  same queue, whichever stream the old frame was captured on. */
  function FrameCapturedAsWritten(a: Analyzer, stream: string, frame: VideoFrame, nowMs: int): Analyzer
    requires a.nextFrameId in a.capturedFramesInFlight ==> a.nextFrameId in a.frameStats
  {
    var id := a.nextFrameId;
    var st := if stream in a.streamStates then a.streamStates[stream] else StreamState([], None);
    var pushed := st.frameIds + [id];
    var isNew := stream !in a.streamStats;
    var b := a.(nextFrameId := NextFrameId(id),
                streamStats := if isNew then a.streamStats[stream := NewStreamStats] else a.streamStats,
                streamLastFreezeEndTime := if isNew then a.streamLastFreezeEndTime[stream := a.startTime]
                                           else a.streamLastFreezeEndTime,
                frameCounters := Bump(a.frameCounters, Captured),
                streamFrameCounters := BumpStream(a.streamFrameCounters, stream, Captured),
                streamStates := a.streamStates[stream := st.(frameIds := pushed)]);
    var c := if id in a.capturedFramesInFlight then
               var d := AddComparison(b, Some(a.capturedFramesInFlight[id]), None, true, a.frameStats[id]);
               d.(streamStates := b.streamStates[stream := st.(frameIds := pushed[1..])],
                  frameCounters := Bump(b.frameCounters, Dropped),
                  streamFrameCounters := BumpStream(b.streamFrameCounters, stream, Dropped),
                  capturedFramesInFlight := a.capturedFramesInFlight - {id},
                  frameStats := a.frameStats - {id})
             else b;
    c.(capturedFramesInFlight := c.capturedFramesInFlight[id := frame.(id := id)],
       frameStats := c.frameStats[id := NewFrameStats(stream, nowMs)])
  }

  /** The debug check before the eviction: after the push, the front of the capturing
   *  stream's queue is the reused id. */
  predicate EvictionCheckPasses(a: Analyzer, stream: string)
  {
    a.nextFrameId in a.capturedFramesInFlight ==>
      var ids := if stream in a.streamStates then a.streamStates[stream].frameIds else [];
      (ids + [a.nextFrameId])[0] == a.nextFrameId
  }

  /** Stream `holder` still waits on its frame with id 0, which is the id the next capture
   *  gets (ids have come round). */
  function StrandingExample(holder: string): Analyzer
  {
    InitialAnalyzer.(
      frameCounters := NoFrames.(captured := 1),
      streamFrameCounters := map[holder := NoFrames.(captured := 1)],
      streamStates := map[holder := StreamState([0], None)],
      capturedFramesInFlight := map[0 := VideoFrame(0, 640, 480)],
      frameStats := map[0 := NewFrameStats(holder, 0)],
      streamStats := map[holder := NewStreamStats],
      streamLastFreezeEndTime := map[holder := None])
  }

  lemma StrandingExampleConsistent(holder: string)
    ensures Consistent(StrandingExample(holder))
  {
    StrandingExampleMaps(holder);
    StrandingExampleQueues(holder);
    StrandingExampleBalanced(holder);
  }

  lemma StrandingExampleMaps(holder: string)
    ensures var a := StrandingExample(holder);
            && MapsAgree(a) && a.streamStates.Keys == a.streamFrameCounters.Keys == a.streamStats.Keys
            && a.comparisons == []
  {
    var a := StrandingExample(holder);
    assert a.frameStats.Keys == {0} == a.capturedFramesInFlight.Keys;
    assert a.streamStates.Keys == {holder} && a.streamFrameCounters.Keys == {holder} && a.streamStats.Keys == {holder};
  }

  lemma StrandingExampleQueues(holder: string)
    ensures QueuesConsistent(StrandingExample(holder)) && FramesQueued(StrandingExample(holder))
  {
    var a := StrandingExample(holder);
    assert a.streamStates.Keys == {holder};
    assert a.frameStats.Keys == {0};
    assert QueueConsistent(a, holder);
  }

  lemma StrandingExampleBalanced(holder: string)
    ensures var a := StrandingExample(holder);
            a.streamStates.Keys == a.streamFrameCounters.Keys && CountersBalanced(a)
  {
    var a := StrandingExample(holder);
    assert a.streamStates.Keys == {holder} && a.streamFrameCounters.Keys == {holder};
    assert a.frameStats.Keys == {0};
  }

  /** The example after stream `capturer`, with nothing in flight, captures a frame. */
  function StrandingCapture(holder: string, capturer: string): Analyzer
  {
    FrameCapturedAsWritten(StrandingExample(holder), capturer, VideoFrame(0, 640, 480), 1000)
  }

  /** A consistent state where a stream with nothing in flight captures a frame whose id
   *  another stream still holds: the debug check passes and the bookkeeping breaks. */
  lemma AsWrittenStrandsOtherStreamsFrame(holder: string, capturer: string)
    requires holder != capturer
    ensures Consistent(StrandingExample(holder)) && EvictionCheckPasses(StrandingExample(holder), capturer)
    ensures !Consistent(StrandingCapture(holder, capturer))
  {
    StrandingExampleConsistent(holder);
    StrandedQueues(holder, capturer);
    assert !QueueConsistent(StrandingCapture(holder, capturer), holder);
  }

  /** How it breaks: the new id is popped again from the capturing stream's queue, and the
   *  other stream is left waiting on an id that now belongs to a frame of the capturing one. */
  lemma StrandedQueues(holder: string, capturer: string)
    requires holder != capturer
    ensures EvictionCheckPasses(StrandingExample(holder), capturer)
    ensures var r := StrandingCapture(holder, capturer);
            && capturer in r.streamStates && r.streamStates[capturer].frameIds == []
            && holder in r.streamStates && r.streamStates[holder].frameIds == [0]
            && 0 in r.frameStats && r.frameStats[0].streamLabel == capturer
  {
    var a := StrandingExample(holder);
    assert a.nextFrameId == 0 && 0 in a.capturedFramesInFlight && capturer !in a.streamStates;
  }

  /** What a capture does: the frame joins the back of its stream's queue under the id handed
   *  out, both capture counters move, and the next id follows. When that id was still in
   *  flight, the frame holding it leaves the front of its own stream's queue as dropped and
   *  a dropped comparison is queued for it; otherwise nothing else leaves flight. */
  lemma FrameCapturedEffect(a: Analyzer, stream: string, frame: VideoFrame, nowMs: int)
    requires Consistent(a)
    ensures CaptureEffect(a, FrameCaptured(a, stream, frame, nowMs), stream, frame, nowMs)
  {
    ReusedIdIsOldestFrame(a);
    var id := a.nextFrameId;
    var b := if id in a.frameStats then DropOldest(a, a.frameStats[id].streamLabel) else a;
    var r := FrameCaptured(a, stream, frame, nowMs);
    assert r == Enqueue(b, stream, frame.(id := id), nowMs);
    EnqueueFields(b, stream, frame.(id := id), nowMs);
    if id in a.frameStats {
      var owner := a.frameStats[id].streamLabel;
      assert QueueConsistent(a, owner);
      DropOldestExact(a, owner);
      CaptureEffectWrapped(a, b, r, stream, frame, nowMs);
    } else {
      CaptureEffectFresh(a, r, stream, frame, nowMs);
    }
  }

  ghost predicate CaptureEffect(a: Analyzer, r: Analyzer, stream: string, frame: VideoFrame, nowMs: int)
  {
    var id := a.nextFrameId;
    var wrapped := id in a.frameStats && id in a.capturedFramesInFlight;
    var owner := if wrapped then a.frameStats[id].streamLabel else stream;
    var before := if stream in a.streamStates then a.streamStates[stream].frameIds else [];
    && r.nextFrameId == NextFrameId(id)
    && stream in r.streamStates
    && (wrapped && owner == stream ==> |before| > 0 && r.streamStates[stream].frameIds == before[1..] + [id])
    && (!(wrapped && owner == stream) ==> r.streamStates[stream].frameIds == before + [id])
    && (wrapped && owner != stream ==>
          owner in a.streamStates && |a.streamStates[owner].frameIds| > 0
          && owner in r.streamStates && r.streamStates[owner].frameIds == a.streamStates[owner].frameIds[1..])
    && r.capturedFramesInFlight == (if wrapped then a.capturedFramesInFlight - {id} else a.capturedFramesInFlight)[id := frame.(id := id)]
    && r.frameStats == (if wrapped then a.frameStats - {id} else a.frameStats)[id := NewFrameStats(stream, nowMs)]
    && r.frameCounters.captured == a.frameCounters.captured + 1
    && r.frameCounters.dropped == a.frameCounters.dropped + (if wrapped then 1 else 0)
    && stream in r.streamFrameCounters
    && r.streamFrameCounters[stream].captured ==
         (if stream in a.streamFrameCounters then a.streamFrameCounters[stream].captured else 0) + 1
    && (wrapped ==> owner in r.streamFrameCounters
                    && r.streamFrameCounters[owner].dropped ==
                         (if owner in a.streamFrameCounters then a.streamFrameCounters[owner].dropped else 0) + 1)
    && r.streamStats == (if stream in a.streamStats then a.streamStats else a.streamStats[stream := NewStreamStats])
    && (wrapped ==> r.comparisons == a.comparisons +
                      [NewComparison(|a.comparisons|, Some(a.capturedFramesInFlight[id]), None, true, a.frameStats[id])])
    && (!wrapped ==> r.comparisons == a.comparisons)
  }

  lemma CaptureEffectWrapped(a: Analyzer, b: Analyzer, r: Analyzer, stream: string, frame: VideoFrame, nowMs: int)
    requires a.nextFrameId in a.frameStats && a.nextFrameId in a.capturedFramesInFlight
    requires var owner := a.frameStats[a.nextFrameId].streamLabel;
             && owner in a.streamStates && |a.streamStates[owner].frameIds| > 0
             && a.streamStates[owner].frameIds[0] == a.nextFrameId
             && b == DropOldest(a, owner)
    requires r == Enqueue(b, stream, frame.(id := a.nextFrameId), nowMs)
    ensures CaptureEffect(a, r, stream, frame, nowMs)
  {
    var owner := a.frameStats[a.nextFrameId].streamLabel;
    DropOldestExact(a, owner);
    EnqueueFields(b, stream, frame.(id := a.nextFrameId), nowMs);
  }

  lemma CaptureEffectFresh(a: Analyzer, r: Analyzer, stream: string, frame: VideoFrame, nowMs: int)
    requires a.nextFrameId !in a.frameStats
    requires r == Enqueue(a, stream, frame.(id := a.nextFrameId), nowMs)
    ensures CaptureEffect(a, r, stream, frame, nowMs)
  {
    EnqueueFields(a, stream, frame.(id := a.nextFrameId), nowMs);
  }

  lemma EnqueueFields(b: Analyzer, stream: string, frame: VideoFrame, nowMs: int)
    ensures var r := Enqueue(b, stream, frame, nowMs);
            var id := b.nextFrameId;
            && r.nextFrameId == NextFrameId(id)
            && r.streamStates == b.streamStates[stream := StreamState(
                 (if stream in b.streamStates then b.streamStates[stream].frameIds else []) + [id],
                 if stream in b.streamStates then b.streamStates[stream].lastRenderedFrameTime else None)]
            && r.capturedFramesInFlight == b.capturedFramesInFlight[id := frame]
            && r.frameStats == b.frameStats[id := NewFrameStats(stream, nowMs)]
            && r.frameCounters == Bump(b.frameCounters, Captured)
            && r.streamFrameCounters == BumpStream(b.streamFrameCounters, stream, Captured)
            && r.streamStats == (if stream in b.streamStats then b.streamStats else b.streamStats[stream := NewStreamStats])
            && r.comparisons == b.comparisons
  {
  }

  lemma DropOldestExact(a: Analyzer, stream: string)
    requires stream in a.streamStates && |a.streamStates[stream].frameIds| > 0
    requires a.streamStates[stream].frameIds[0] in a.frameStats
    requires a.streamStates[stream].frameIds[0] in a.capturedFramesInFlight
    ensures var id := a.streamStates[stream].frameIds[0];
            var r := DropOldest(a, stream);
            && r.nextFrameId == a.nextFrameId
            && r.streamStates == a.streamStates[stream := a.streamStates[stream].(frameIds := a.streamStates[stream].frameIds[1..])]
            && r.frameStats == a.frameStats - {id} && r.capturedFramesInFlight == a.capturedFramesInFlight - {id}
            && r.frameCounters == Bump(a.frameCounters, Dropped)
            && r.streamFrameCounters == BumpStream(a.streamFrameCounters, stream, Dropped)
            && r.streamStats == a.streamStats
            && r.comparisons == a.comparisons + [NewComparison(|a.comparisons|, Some(a.capturedFramesInFlight[id]), None, true, a.frameStats[id])]
  {
  }

  /** `r` is `a` after the first `k` frames queued for `stream` were dropped, oldest first. */
  ghost predicate DroppedPrefix(a: Analyzer, r: Analyzer, stream: string, k: nat)
    requires stream in a.streamStates && QueueConsistent(a, stream) && k <= |a.streamStates[stream].frameIds|
    requires stream in a.streamFrameCounters
  {
    var ids := a.streamStates[stream].frameIds;
    var n := |a.comparisons|;
    && r.nextFrameId == a.nextFrameId
    && stream in r.streamStates && r.streamStates[stream].frameIds == ids[k..]
    && r.frameStats == a.frameStats - Ids(ids[..k])
    && r.capturedFramesInFlight == a.capturedFramesInFlight - Ids(ids[..k])
    && r.frameCounters == a.frameCounters.(dropped := a.frameCounters.dropped + k)
    && stream in r.streamFrameCounters
    && r.streamFrameCounters[stream] == a.streamFrameCounters[stream].(dropped := a.streamFrameCounters[stream].dropped + k)
    && r.streamStats == a.streamStats
    && |r.comparisons| == n + k && r.comparisons[..n] == a.comparisons
    && (forall j :: 0 <= j < k ==>
          r.comparisons[n + j] == NewComparison(n + j, Some(a.capturedFramesInFlight[ids[j]]), None, true, a.frameStats[ids[j]]))
  }

  /** Dropping until `id` gives up exactly the frames queued before it, oldest first: each
   *  leaves both maps, is counted as dropped, and is queued as a dropped comparison. */
  lemma {:induction false} DropUntilDropsPrefix(a: Analyzer, stream: string, id: FrameId)
    requires stream in a.streamStates && QueueConsistent(a, stream) && stream in a.streamFrameCounters
    requires id in a.streamStates[stream].frameIds
    ensures DropUntil(a, stream, id).dropped < |a.streamStates[stream].frameIds|
    ensures DroppedPrefix(a, DropUntil(a, stream, id).state, stream, DropUntil(a, stream, id).dropped)
    decreases |a.streamStates[stream].frameIds|
  {
    var ids := a.streamStates[stream].frameIds;
    DropUntilReaches(a, stream, id);
    if ids[0] == id {
      DroppedNothing(a, stream);
    } else {
      DropOldestKeepsQueue(a, stream);
      var b := DropOldest(a, stream);
      assert id in ids[1..];
      DropUntilDropsPrefix(b, stream, id);
      var d := DropUntil(b, stream, id);
      DroppedPrefixStep(a, b, d.state, stream, d.dropped);
    }
  }

  lemma DroppedNothing(a: Analyzer, stream: string)
    requires stream in a.streamStates && QueueConsistent(a, stream) && stream in a.streamFrameCounters
    ensures DroppedPrefix(a, a, stream, 0)
  {
    var ids := a.streamStates[stream].frameIds;
    assert ids[..0] == [];
    assert Ids([]) == {};
    assert a.frameStats - {} == a.frameStats;
    assert a.capturedFramesInFlight - {} == a.capturedFramesInFlight;
  }

  lemma DroppedPrefixStep(a: Analyzer, b: Analyzer, r: Analyzer, stream: string, k: nat)
    requires stream in a.streamStates && QueueConsistent(a, stream) && k < |a.streamStates[stream].frameIds|
    requires stream in a.streamFrameCounters
    requires b == DropOldest(a, stream) && QueueConsistent(b, stream)
    requires DroppedPrefix(b, r, stream, k)
    ensures DroppedPrefix(a, r, stream, k + 1)
  {
    var ids := a.streamStates[stream].frameIds;
    DropOldestExact(a, stream);
    assert b.streamStates[stream].frameIds == ids[1..];
    assert ids[1..][k..] == ids[k + 1..];
    DroppedPrefixStepFlight(a, b, r, stream, k);
    DroppedPrefixStepComparisons(a, b, r, stream, k);
  }

  lemma DroppedPrefixStepFlight(a: Analyzer, b: Analyzer, r: Analyzer, stream: string, k: nat)
    requires stream in a.streamStates && QueueConsistent(a, stream) && k < |a.streamStates[stream].frameIds|
    requires stream in a.streamFrameCounters
    requires b == DropOldest(a, stream) && QueueConsistent(b, stream)
    requires DroppedPrefix(b, r, stream, k)
    ensures var ids := a.streamStates[stream].frameIds;
            && r.frameStats == a.frameStats - Ids(ids[..k + 1])
            && r.capturedFramesInFlight == a.capturedFramesInFlight - Ids(ids[..k + 1])
  {
    var ids := a.streamStates[stream].frameIds;
    DropOldestExact(a, stream);
    assert b.streamStates[stream].frameIds == ids[1..];
    assert ids[1..][..k] == ids[1..k + 1];
    IdsOfPrefix(ids, k);
  }

  lemma DroppedPrefixStepComparisons(a: Analyzer, b: Analyzer, r: Analyzer, stream: string, k: nat)
    requires stream in a.streamStates && QueueConsistent(a, stream) && k < |a.streamStates[stream].frameIds|
    requires stream in a.streamFrameCounters
    requires b == DropOldest(a, stream) && QueueConsistent(b, stream)
    requires DroppedPrefix(b, r, stream, k)
    ensures var ids := a.streamStates[stream].frameIds;
            var n := |a.comparisons|;
            && |r.comparisons| == n + k + 1 && r.comparisons[..n] == a.comparisons
            && (forall j :: 0 <= j < k + 1 ==>
                  r.comparisons[n + j] == NewComparison(n + j, Some(a.capturedFramesInFlight[ids[j]]), None, true, a.frameStats[ids[j]]))
  {
    var ids := a.streamStates[stream].frameIds;
    var n := |a.comparisons|;
    DropOldestExact(a, stream);
    assert b.streamStates[stream].frameIds == ids[1..];
    forall j | 0 <= j < k + 1
      ensures r.comparisons[n + j] == NewComparison(n + j, Some(a.capturedFramesInFlight[ids[j]]), None, true, a.frameStats[ids[j]])
    {
      if j > 0 {
        assert Age(a.nextFrameId, ids[0]) > Age(a.nextFrameId, ids[j]);
        assert r.comparisons[n + 1 + (j - 1)] == NewComparison(n + 1 + (j - 1), Some(b.capturedFramesInFlight[ids[1..][j - 1]]), None, true, b.frameStats[ids[1..][j - 1]]);
      } else {
        assert r.comparisons[..n + 1] == b.comparisons;
      }
    }
    assert r.comparisons[..n] == r.comparisons[..n + 1][..n];
  }

  lemma IdsOfPrefix(ids: seq<FrameId>, k: nat)
    requires k < |ids|
    ensures Ids(ids[..k + 1]) == {ids[0]} + Ids(ids[1..k + 1])
  {
    var p := ids[..k + 1];
    var q := ids[1..k + 1];
    forall x | x in Ids(p) ensures x in {ids[0]} + Ids(q) {
      var j :| 0 <= j < k + 1 && p[j] == x;
      if j > 0 {
        assert q[j - 1] == x;
      }
    }
    forall x | x in Ids(q) ensures x in Ids(p) {
      var j :| 0 <= j < k && q[j] == x;
      assert p[j + 1] == x;
    }
    assert p[0] == ids[0];
  }

  /** What rendering a frame does, with `k` the number of frames of its stream queued
   *  before it: those `k` frames are dropped (as `DroppedPrefix` says), the rendered frame
   *  leaves flight too, the stream records `k` skipped frames and the render time, and a
   *  comparison of the captured and the rendered frame follows the dropped ones. */
  ghost predicate RenderEffect(a: Analyzer, r: Analyzer, stream: string, frame: VideoFrame, nowMs: int, k: nat)
    requires stream in a.streamStates && stream in a.streamFrameCounters && stream in a.streamStats
    requires frame.id in a.capturedFramesInFlight
    requires forall j :: 0 <= j < k && j < |a.streamStates[stream].frameIds| ==>
               a.streamStates[stream].frameIds[j] in a.capturedFramesInFlight && a.streamStates[stream].frameIds[j] in a.frameStats
  {
    var ids := a.streamStates[stream].frameIds;
    var n := |a.comparisons|;
    && k < |ids| && ids[k] == frame.id && (forall j :: 0 <= j < k ==> ids[j] != frame.id)
    && stream in r.streamStates && r.streamStates[stream] == StreamState(ids[k + 1..], Some(nowMs))
    && r.frameStats == a.frameStats - Ids(ids[..k + 1])
    && r.capturedFramesInFlight == a.capturedFramesInFlight - Ids(ids[..k + 1])
    && r.frameCounters == a.frameCounters.(dropped := a.frameCounters.dropped + k, rendered := a.frameCounters.rendered + 1)
    && stream in r.streamFrameCounters
    && r.streamFrameCounters[stream].dropped == a.streamFrameCounters[stream].dropped + k
    && r.streamFrameCounters[stream].rendered == a.streamFrameCounters[stream].rendered + 1
    && stream in r.streamStats
    && r.streamStats[stream].skippedBetweenRendered == a.streamStats[stream].skippedBetweenRendered + [k]
    && |r.comparisons| == n + k + 1 && r.comparisons[..n] == a.comparisons
    && (forall j :: 0 <= j < k ==>
          r.comparisons[n + j] == NewComparison(n + j, Some(a.capturedFramesInFlight[ids[j]]), None, true, a.frameStats[ids[j]]))
    && var last := r.comparisons[n + k];
    && last == NewComparison(n + k, Some(a.capturedFramesInFlight[frame.id]), Some(frame), false, last.frameStats)
    && last.frameStats.renderedTime == Some(nowMs)
    && (a.streamStates[stream].lastRenderedFrameTime.Some? ==>
          last.frameStats.prevFrameRenderedTime == a.streamStates[stream].lastRenderedFrameTime)
  }

  /** OnFrameRendered does what `RenderEffect` says, for the number of frames queued ahead of
   *  the rendered one. */
  lemma FrameRenderedEffect(a: Analyzer, frame: VideoFrame, nowMs: int)
    requires Consistent(a) && frame.id in a.frameStats
    ensures var stream := a.frameStats[frame.id].streamLabel;
            && stream in a.streamStates && stream in a.streamFrameCounters && stream in a.streamStats
            && QueueConsistent(a, stream)
            && exists k: nat :: RenderEffect(a, FrameRendered(a, frame, nowMs), stream, frame, nowMs, k)
  {
    var stream := a.frameStats[frame.id].streamLabel;
    assert QueueConsistent(a, stream);
    DropUntilReaches(a, stream, frame.id);
    DropUntilDropsPrefix(a, stream, frame.id);
    DropUntilKeepsQueue(a, stream, frame.id);
    var d := DropUntil(a, stream, frame.id);
    var r := FrameRendered(a, frame, nowMs);
    assert r == RenderFront(d.state, stream, frame, nowMs, d.dropped);
    RenderFrontExact(d.state, stream, frame, nowMs, d.dropped);
    RenderEffectFromSteps(a, d.state, r, stream, frame, nowMs, d.dropped);
    assert RenderEffect(a, r, stream, frame, nowMs, d.dropped);
  }

  lemma {:induction false} DropUntilKeepsQueue(a: Analyzer, stream: string, id: FrameId)
    requires stream in a.streamStates && QueueConsistent(a, stream)
    ensures var b := DropUntil(a, stream, id).state;
            && stream in b.streamStates && QueueConsistent(b, stream)
            && b.streamStates[stream].lastRenderedFrameTime == a.streamStates[stream].lastRenderedFrameTime
    decreases |a.streamStates[stream].frameIds|
  {
    var ids := a.streamStates[stream].frameIds;
    if |ids| > 0 && ids[0] != id {
      DropOldestKeepsQueue(a, stream);
      DropOldestExact(a, stream);
      DropUntilKeepsQueue(DropOldest(a, stream), stream, id);
    }
  }

  lemma RenderFrontExact(b: Analyzer, stream: string, frame: VideoFrame, nowMs: int, dropped: nat)
    requires stream in b.streamStates && stream in b.streamStats
    requires |b.streamStates[stream].frameIds| > 0 && b.streamStates[stream].frameIds[0] == frame.id
    requires frame.id in b.frameStats && frame.id in b.capturedFramesInFlight
    ensures var r := RenderFront(b, stream, frame, nowMs, dropped);
            var st := b.streamStates[stream];
            var n := |b.comparisons|;
            && r.streamStates == b.streamStates[stream := StreamState(st.frameIds[1..], Some(nowMs))]
            && r.frameStats == b.frameStats - {frame.id}
            && r.capturedFramesInFlight == b.capturedFramesInFlight - {frame.id}
            && r.frameCounters == Bump(b.frameCounters, Rendered)
            && r.streamFrameCounters == BumpStream(b.streamFrameCounters, stream, Rendered)
            && r.streamStats == b.streamStats[stream := b.streamStats[stream].(
                 skippedBetweenRendered := b.streamStats[stream].skippedBetweenRendered + [dropped])]
            && |r.comparisons| == n + 1 && r.comparisons[..n] == b.comparisons
            && var last := r.comparisons[n];
            && last == NewComparison(n, Some(b.capturedFramesInFlight[frame.id]), Some(frame), false, last.frameStats)
            && last.frameStats.renderedTime == Some(nowMs)
            && (st.lastRenderedFrameTime.Some? ==> last.frameStats.prevFrameRenderedTime == st.lastRenderedFrameTime)
  {
  }

  lemma RenderEffectFromSteps(a: Analyzer, b: Analyzer, r: Analyzer, stream: string, frame: VideoFrame, nowMs: int, k: nat)
    requires stream in a.streamStates && stream in a.streamFrameCounters && stream in a.streamStats
    requires frame.id in a.capturedFramesInFlight
    requires var ids := a.streamStates[stream].frameIds;
             && QueueConsistent(a, stream)
             && k < |ids| && ids[k] == frame.id && (forall j :: 0 <= j < k ==> ids[j] != frame.id)
             && DroppedPrefix(a, b, stream, k)
             && stream in b.streamStats && |b.streamStates[stream].frameIds| > 0
             && b.streamStates[stream].frameIds[0] == frame.id
             && frame.id in b.frameStats && frame.id in b.capturedFramesInFlight
             && b.streamStates[stream].lastRenderedFrameTime == a.streamStates[stream].lastRenderedFrameTime
             && r == RenderFront(b, stream, frame, nowMs, k)
    ensures RenderEffect(a, r, stream, frame, nowMs, k)
  {
    var ids := a.streamStates[stream].frameIds;
    var n := |a.comparisons|;
    RenderFrontExact(b, stream, frame, nowMs, k);
    assert ids[k..][1..] == ids[k + 1..];
    IdsOfLonger(ids, k);
    assert r.comparisons[..n + k] == b.comparisons;
    assert r.comparisons[..n] == b.comparisons[..n];
  }

  lemma IdsOfLonger(ids: seq<FrameId>, k: nat)
    requires k < |ids|
    ensures Ids(ids[..k + 1]) == Ids(ids[..k]) + {ids[k]}
  {
    var p := ids[..k + 1];
    var q := ids[..k];
    forall x | x in Ids(p) ensures x in Ids(q) + {ids[k]} {
      var j :| 0 <= j < k + 1 && p[j] == x;
      if j < k {
        assert q[j] == x;
      }
    }
    forall x | x in Ids(q) ensures x in Ids(p) {
      var j :| 0 <= j < k && q[j] == x;
      assert p[j] == x;
    }
    assert p[k] == ids[k];
  }

  // ---------------------------------------------------------------------------------------
  // The stages between capture and render.

  /** The stages a frame passes between capture and render. */
  predicate IsMidStage(k: CounterKind)
  {
    k == PreEncoded || k == Encoded || k == Received || k == Decoded
  }

  /** When a frame reached a stage, if it has. */
  function StageTime(fs: FrameStats, k: CounterKind): Option<int>
  {
    match k
    case Captured => Some(fs.capturedTime)
    case PreEncoded => fs.preEncodeTime
    case Encoded => fs.encodedTime
    case Received => fs.receivedTime
    case Decoded => fs.decodedTime
    case Rendered => fs.renderedTime
    case Dropped => None
  }

  /** The counter of kind `k`. */
  function Count(c: FrameCounters, k: CounterKind): nat
  {
    match k
    case Captured => c.captured
    case PreEncoded => c.preEncoded
    case Encoded => c.encoded
    case Received => c.received
    case Decoded => c.decoded
    case Rendered => c.rendered
    case Dropped => c.dropped
  }

  /** `Bump` moves the counter it names by one and no other. */
  lemma BumpMovesOneCounter(c: FrameCounters, k: CounterKind)
    ensures forall j :: Count(Bump(c, k), j) == Count(c, j) + (if j == k then 1 else 0)
  {
    forall j ensures Count(Bump(c, k), j) == Count(c, j) + (if j == k then 1 else 0) {
      match k
      case Captured =>
      case PreEncoded =>
      case Encoded =>
      case Received =>
      case Decoded =>
      case Rendered =>
      case Dropped =>
    }
  }

  /** The frame's statistics with the time of reaching `k` set to `t`. */
  function Stamp(fs: FrameStats, k: CounterKind, t: int): (r: FrameStats)
    requires IsMidStage(k)
    ensures StageTime(r, k) == Some(t)
    ensures forall j :: j != k ==> StageTime(r, j) == StageTime(fs, j)
    ensures r.streamLabel == fs.streamLabel && r.prevFrameRenderedTime == fs.prevFrameRenderedTime
    ensures r.renderedFrameWidth == fs.renderedFrameWidth && r.renderedFrameHeight == fs.renderedFrameHeight
  {
    match k
    case PreEncoded => fs.(preEncodeTime := Some(t))
    case Encoded => fs.(encodedTime := Some(t))
    case Received => fs.(receivedTime := Some(t))
    case Decoded => fs.(decodedTime := Some(t))
  }

  /** OnFramePreEncode, OnFrameEncoded, OnFrameReceived and OnFrameDecoded: the frame in flight
   *  is counted at `stage`, globally and for its stream, and the time is stamped on it. A frame
   *  is encoded, and received, once: a second spatial layer is a caller error. */
  function FrameReachedStage(a: Analyzer, id: FrameId, stage: CounterKind, nowMs: int): Analyzer
    requires id in a.frameStats && IsMidStage(stage)
    requires stage == Encoded || stage == Received ==> StageTime(a.frameStats[id], stage).None?
  {
    var fs := a.frameStats[id];
    a.(frameCounters := Bump(a.frameCounters, stage),
       streamFrameCounters := BumpStream(a.streamFrameCounters, fs.streamLabel, stage),
       frameStats := a.frameStats[id := Stamp(fs, stage, nowMs)])
  }

  /** A stage callback stamps the time of that stage only, on that frame only, and leaves the
   *  queues, the frames' streams and the comparisons alone. */
  lemma FrameReachedStageStamps(a: Analyzer, id: FrameId, stage: CounterKind, nowMs: int)
    requires id in a.frameStats && IsMidStage(stage)
    requires stage == Encoded || stage == Received ==> StageTime(a.frameStats[id], stage).None?
    ensures var r := FrameReachedStage(a, id, stage, nowMs);
            && r.frameStats.Keys == a.frameStats.Keys
            && r.frameStats[id].streamLabel == a.frameStats[id].streamLabel
            && StageTime(r.frameStats[id], stage) == Some(nowMs)
            && (forall j :: j != stage ==> StageTime(r.frameStats[id], j) == StageTime(a.frameStats[id], j))
            && (forall x :: x in a.frameStats && x != id ==> r.frameStats[x] == a.frameStats[x])
            && r.streamStates == a.streamStates && r.capturedFramesInFlight == a.capturedFramesInFlight
            && r.comparisons == a.comparisons
  {
  }

  /** A stage callback moves that stage's counter by one, globally and for the frame's stream,
   *  and no other counter. */
  lemma FrameReachedStageCounts(a: Analyzer, id: FrameId, stage: CounterKind, nowMs: int)
    requires id in a.frameStats && IsMidStage(stage) && a.frameStats[id].streamLabel in a.streamFrameCounters
    requires stage == Encoded || stage == Received ==> StageTime(a.frameStats[id], stage).None?
    ensures var r := FrameReachedStage(a, id, stage, nowMs);
            var stream := a.frameStats[id].streamLabel;
            && r.streamFrameCounters.Keys == a.streamFrameCounters.Keys
            && (forall j :: Count(r.frameCounters, j) == Count(a.frameCounters, j) + (if j == stage then 1 else 0))
            && (forall j :: Count(r.streamFrameCounters[stream], j) ==
                             Count(a.streamFrameCounters[stream], j) + (if j == stage then 1 else 0))
            && (forall l :: l in a.streamFrameCounters && l != stream ==> r.streamFrameCounters[l] == a.streamFrameCounters[l])
  {
    var stream := a.frameStats[id].streamLabel;
    BumpMovesOneCounter(a.frameCounters, stage);
    BumpMovesOneCounter(a.streamFrameCounters[stream], stage);
  }

  /** A stage callback keeps the bookkeeping consistent. */
  lemma FrameReachedStageConsistent(a: Analyzer, id: FrameId, stage: CounterKind, nowMs: int)
    requires Consistent(a) && id in a.frameStats && IsMidStage(stage)
    requires stage == Encoded || stage == Received ==> StageTime(a.frameStats[id], stage).None?
    ensures Consistent(FrameReachedStage(a, id, stage, nowMs))
  {
    assert a.frameStats[id].streamLabel in a.streamFrameCounters;
    FrameReachedStageRestamps(a, id, stage, nowMs);
    RestampedConsistent(a, FrameReachedStage(a, id, stage, nowMs));
  }

  lemma FrameReachedStageRestamps(a: Analyzer, id: FrameId, stage: CounterKind, nowMs: int)
    requires id in a.frameStats && IsMidStage(stage) && a.frameStats[id].streamLabel in a.streamFrameCounters
    requires stage == Encoded || stage == Received ==> StageTime(a.frameStats[id], stage).None?
    ensures Restamped(a, FrameReachedStage(a, id, stage, nowMs))
  {
  }

  /** `r` is `a` with some frames' stage times and some mid-stage counters changed. */
  ghost predicate Restamped(a: Analyzer, r: Analyzer)
  {
    && r.nextFrameId == a.nextFrameId && r.streamStates == a.streamStates
    && r.capturedFramesInFlight == a.capturedFramesInFlight
    && r.streamStats == a.streamStats && r.comparisons == a.comparisons
    && r.frameStats.Keys == a.frameStats.Keys
    && (forall x :: x in r.frameStats ==> r.frameStats[x].streamLabel == a.frameStats[x].streamLabel)
    && r.streamFrameCounters.Keys == a.streamFrameCounters.Keys
    && (forall l :: l in r.streamFrameCounters ==> SameFate(r.streamFrameCounters[l], a.streamFrameCounters[l]))
    && SameFate(r.frameCounters, a.frameCounters)
  }

  /** The counters agree on how many frames were captured, rendered and dropped. */
  predicate SameFate(c: FrameCounters, d: FrameCounters)
  {
    c.captured == d.captured && c.rendered == d.rendered && c.dropped == d.dropped
  }

  lemma RestampedConsistent(a: Analyzer, r: Analyzer)
    requires Consistent(a) && Restamped(a, r)
    ensures Consistent(r)
  {
    forall l | l in r.streamStates ensures QueueConsistent(r, l) {
      assert QueueConsistent(a, l);
    }
    forall l | l in r.streamStates
      ensures Balanced(r.streamFrameCounters[l], |r.streamStates[l].frameIds|)
    {
      assert Balanced(a.streamFrameCounters[l], |a.streamStates[l].frameIds|);
    }
  }

  /** GetStreamLabel: the stream a frame in flight was captured on, whose queue lists it. */
  function StreamLabelOf(a: Analyzer, id: FrameId): (stream: string)
    requires id in a.frameStats
    ensures Consistent(a) ==> stream in a.streamStates && id in a.streamStates[stream].frameIds
  {
    a.frameStats[id].streamLabel
  }

  /** GetTestCaseName: the test label and the stream label joined by a slash. */
  function TestCaseName(testLabel: string, stream: string): (name: string)
    ensures |name| == |testLabel| + 1 + |stream|
    ensures name[..|testLabel|] == testLabel && name[|testLabel|] == '/' && name[|testLabel| + 1..] == stream
  {
    testLabel + "/" + stream
  }

  /** Within one test, different streams are reported under different names. */
  lemma TestCaseNamesDistinct(testLabel: string, s1: string, s2: string)
    requires s1 != s2
    ensures TestCaseName(testLabel, s1) != TestCaseName(testLabel, s2)
  {
  }

  // ---------------------------------------------------------------------------------------
  // Start, Stop and the comparison worker.

  /** Start: the analyzer may be started once; it takes the test's name and the start time. */
  function AnalyzerStarted(a: Analyzer, testCaseName: string, nowMs: int): (r: Analyzer)
    requires a.startTime.None?
    ensures r.runState == Active && r.startTime == Some(nowMs) && r.testLabel == testCaseName
    ensures r.(runState := a.runState, startTime := a.startTime, testLabel := a.testLabel) == a
  {
    a.(testLabel := testCaseName, runState := Active, startTime := Some(nowMs))
  }

  /** Stop: the analyzer is stopped, whatever state it was in; stopping again changes nothing. */
  function AnalyzerStopped(a: Analyzer): (r: Analyzer)
    ensures r.runState == Stopped && r.(runState := a.runState) == a
    ensures a.runState == Stopped ==> r == a
  {
    if a.runState == Stopped then a else a.(runState := Stopped)
  }

  /** Start touches only the run state, the start time and the label, so the bookkeeping
   *  invariant and the comparison account carry over. */
  lemma StartedConsistent(a: Analyzer, testCaseName: string, nowMs: int)
    requires Consistent(a) && Accounted(a) && a.startTime.None?
    ensures Consistent(AnalyzerStarted(a, testCaseName, nowMs)) && Accounted(AnalyzerStarted(a, testCaseName, nowMs))
  {
    var r := AnalyzerStarted(a, testCaseName, nowMs);
    forall stream | stream in r.streamStates
      ensures QueueConsistent(r, stream)
    {
      assert QueueConsistent(a, stream);
    }
  }

  /** Stop touches only the run state, so the bookkeeping invariant and the comparison account
   *  carry over. */
  lemma StoppedConsistent(a: Analyzer)
    requires Consistent(a) && Accounted(a)
    ensures Consistent(AnalyzerStopped(a)) && Accounted(AnalyzerStopped(a))
  {
    var r := AnalyzerStopped(a);
    forall stream | stream in r.streamStates
      ensures QueueConsistent(r, stream)
    {
      assert QueueConsistent(a, stream);
    }
  }

  /** ProcessComparison's counting: the comparison is done; it is overloaded when it came
   *  without frames; and its stream learns whether the frame was encoded (its encode time is
   *  an encode-rate event), dropped by the encoder (it only reached pre-encode) or dropped
   *  before the encoder. */
  function CountComparison(a: Analyzer, c: FrameComparison): Analyzer
    requires c.frameStats.streamLabel in a.streamStats
  {
    var stream := c.frameStats.streamLabel;
    var fs := c.frameStats;
    var st := a.analyzerStats;
    var ss := a.streamStats[stream];
    var ss' :=
      if fs.encodedTime.Some? then ss.(encodeFrameRate := AddEvent(ss.encodeFrameRate, fs.encodedTime.value))
      else if fs.preEncodeTime.Some? then ss.(droppedByEncoder := ss.droppedByEncoder + 1)
      else ss.(droppedBeforeEncoder := ss.droppedBeforeEncoder + 1);
    a.(analyzerStats := st.(comparisonsDone := st.comparisonsDone + 1,
                            overloadedComparisonsDone := st.overloadedComparisonsDone + (if c.captured.None? then 1 else 0)),
       streamStats := a.streamStats[stream := ss'])
  }

  /** The comparison worker takes the oldest pending comparison and counts it. */
  function ComparisonProcessed(a: Analyzer): Analyzer
    requires |a.comparisons| > 0 && a.comparisons[0].frameStats.streamLabel in a.streamStats
  {
    CountComparison(a.(comparisons := a.comparisons[1..]), a.comparisons[0])
  }

  /** How many of a stream's frames reached the encoder stage outcome: encoded, dropped by
   *  the encoder, or dropped before it. */
  function EncoderOutcomes(ss: StreamStats): nat
  {
    ss.encodeFrameRate.count + ss.droppedByEncoder + ss.droppedBeforeEncoder
  }

  /** Every comparison lands in exactly one encoder outcome of its own stream, chosen by how far
   *  the frame got; it is counted as done, and as overloaded exactly when it came without
   *  frames. Nothing else changes. */
  lemma CountComparisonClassifies(a: Analyzer, c: FrameComparison)
    requires c.frameStats.streamLabel in a.streamStats
    ensures var r := CountComparison(a, c);
            var stream := c.frameStats.streamLabel;
            var fs := c.frameStats;
            var ss := a.streamStats[stream];
            && stream in r.streamStats && r.streamStats.Keys == a.streamStats.Keys
            && var ss' := r.streamStats[stream];
            && EncoderOutcomes(ss') == EncoderOutcomes(ss) + 1
            && (ss'.encodeFrameRate.count == ss.encodeFrameRate.count + 1 <==> fs.encodedTime.Some?)
            && (ss'.droppedByEncoder == ss.droppedByEncoder + 1 <==> fs.encodedTime.None? && fs.preEncodeTime.Some?)
            && (ss'.droppedBeforeEncoder == ss.droppedBeforeEncoder + 1 <==> fs.encodedTime.None? && fs.preEncodeTime.None?)
            && (fs.encodedTime.Some? ==> ss'.encodeFrameRate.lastTime == fs.encodedTime)
            && (forall l :: l in a.streamStats && l != stream ==> r.streamStats[l] == a.streamStats[l])
            && r.analyzerStats.comparisonsDone == a.analyzerStats.comparisonsDone + 1
            && (r.analyzerStats.overloadedComparisonsDone == a.analyzerStats.overloadedComparisonsDone + 1 <==> c.captured.None?)
            && r.analyzerStats.overloadedComparisonsDone <= a.analyzerStats.overloadedComparisonsDone + 1
            && r.analyzerStats.overloadedComparisonsDone >= a.analyzerStats.overloadedComparisonsDone
            && r.(analyzerStats := a.analyzerStats, streamStats := a.streamStats) == a
  {
  }

  /** Taking a pending comparison keeps the bookkeeping consistent. */
  lemma ComparisonProcessedConsistent(a: Analyzer)
    requires Consistent(a) && |a.comparisons| > 0
    ensures a.comparisons[0].frameStats.streamLabel in a.streamStats
    ensures Consistent(ComparisonProcessed(a))
  {
    assert a.comparisons[0] in a.comparisons;
    ComparisonProcessedKeepsFlight(a);
    var r := ComparisonProcessed(a);
    forall c | c in r.comparisons ensures c.frameStats.streamLabel in r.streamStats {
      assert c in a.comparisons;
    }
    SameFlightConsistent(a, r);
  }

  /** `r` has the same frames in flight, queues and counters as `a`, and statistics for the
   *  same streams. */
  ghost predicate SameFlight(a: Analyzer, r: Analyzer)
  {
    && r.nextFrameId == a.nextFrameId && r.frameStats == a.frameStats
    && r.capturedFramesInFlight == a.capturedFramesInFlight && r.streamStates == a.streamStates
    && r.frameCounters == a.frameCounters && r.streamFrameCounters == a.streamFrameCounters
    && r.streamStats.Keys == a.streamStats.Keys
  }

  lemma ComparisonProcessedKeepsFlight(a: Analyzer)
    requires |a.comparisons| > 0 && a.comparisons[0].frameStats.streamLabel in a.streamStats
    ensures SameFlight(a, ComparisonProcessed(a)) && ComparisonProcessed(a).comparisons == a.comparisons[1..]
  {
  }

  lemma SameFlightConsistent(a: Analyzer, r: Analyzer)
    requires Consistent(a) && SameFlight(a, r)
    requires forall c :: c in r.comparisons ==> c.frameStats.streamLabel in r.streamStats
    ensures Consistent(r)
  {
    forall l | l in r.streamStates ensures QueueConsistent(r, l) {
      assert QueueConsistent(a, l);
    }
  }

  // ---------------------------------------------------------------------------------------
  // Accounting for comparisons.

  /** How many queue-size samples found ten or more comparisons pending. */
  function FullSamples(samples: seq<nat>): nat
    decreases |samples|
  {
    if |samples| == 0 then 0
    else FullSamples(samples[..|samples| - 1]) + (if samples[|samples| - 1] >= kMaxActiveComparisons then 1 else 0)
  }

  /** How many comparisons came without frames. */
  function Frameless(cs: seq<FrameComparison>): nat
    decreases |cs|
  {
    if |cs| == 0 then 0 else (if cs[0].captured.None? then 1 else 0) + Frameless(cs[1..])
  }

  lemma {:induction false} FramelessAppend(cs: seq<FrameComparison>, c: FrameComparison)
    ensures Frameless(cs + [c]) == Frameless(cs) + (if c.captured.None? then 1 else 0)
    decreases |cs|
  {
    if |cs| > 0 {
      assert (cs + [c])[1..] == cs[1..] + [c];
      FramelessAppend(cs[1..], c);
    }
  }

  /** Every comparison ever queued was sampled once on the way in and is either pending or
   *  done; the ones without frames are exactly those queued while ten or more were pending;
   *  and the overloaded ones are among those done. */
  predicate ComparisonsAccounted(st: AnalyzerStats, cs: seq<FrameComparison>)
  {
    && |st.comparisonsQueueSize| == st.comparisonsDone + |cs|
    && FullSamples(st.comparisonsQueueSize) == st.overloadedComparisonsDone + Frameless(cs)
    && st.overloadedComparisonsDone <= st.comparisonsDone
  }

  predicate Accounted(a: Analyzer)
  {
    ComparisonsAccounted(a.analyzerStats, a.comparisons)
  }

  lemma InitialAccounted()
    ensures Accounted(InitialAnalyzer)
  {
  }

  /** Queueing a comparison for a captured frame keeps the account: the sample and the
   *  comparison arrive together, and the comparison is frameless exactly when the sample
   *  shows a full queue. */
  lemma {:induction false} QueueingAccounted(st: AnalyzerStats, cs: seq<FrameComparison>, captured: VideoFrame,
                                             rendered: Option<VideoFrame>, dropped: bool, fs: FrameStats)
    requires ComparisonsAccounted(st, cs)
    ensures ComparisonsAccounted(st.(comparisonsQueueSize := st.comparisonsQueueSize + [|cs|]),
                                 cs + [NewComparison(|cs|, Some(captured), rendered, dropped, fs)])
  {
    var samples := st.comparisonsQueueSize + [|cs|];
    assert samples[..|samples| - 1] == st.comparisonsQueueSize;
    FramelessAppend(cs, NewComparison(|cs|, Some(captured), rendered, dropped, fs));
  }

  /** Counting the oldest pending comparison keeps the account. */
  lemma ComparisonProcessedAccounted(a: Analyzer)
    requires Accounted(a) && |a.comparisons| > 0 && a.comparisons[0].frameStats.streamLabel in a.streamStats
    ensures Accounted(ComparisonProcessed(a))
  {
  }

  lemma AddComparisonAccounted(a: Analyzer, captured: VideoFrame, rendered: Option<VideoFrame>,
                               dropped: bool, fs: FrameStats)
    requires Accounted(a)
    ensures Accounted(AddComparison(a, Some(captured), rendered, dropped, fs))
  {
    QueueingAccounted(a.analyzerStats, a.comparisons, captured, rendered, dropped, fs);
  }

  lemma DropOldestAccounted(a: Analyzer, stream: string)
    requires Accounted(a)
    requires stream in a.streamStates && |a.streamStates[stream].frameIds| > 0
    requires a.streamStates[stream].frameIds[0] in a.frameStats
    requires a.streamStates[stream].frameIds[0] in a.capturedFramesInFlight
    ensures Accounted(DropOldest(a, stream))
  {
    var id := a.streamStates[stream].frameIds[0];
    AddComparisonAccounted(a, a.capturedFramesInFlight[id], None, true, a.frameStats[id]);
  }

  lemma {:induction false} DropUntilAccounted(a: Analyzer, stream: string, id: FrameId)
    requires Accounted(a) && stream in a.streamStates && QueueConsistent(a, stream)
    ensures Accounted(DropUntil(a, stream, id).state)
    decreases |a.streamStates[stream].frameIds|
  {
    var ids := a.streamStates[stream].frameIds;
    if |ids| > 0 && ids[0] != id {
      DropOldestKeepsQueue(a, stream);
      DropOldestAccounted(a, stream);
      DropUntilAccounted(DropOldest(a, stream), stream, id);
    }
  }

  /** Rendering a frame keeps the account of comparisons. */
  lemma FrameRenderedAccounted(a: Analyzer, frame: VideoFrame, nowMs: int)
    requires Consistent(a) && Accounted(a) && frame.id in a.frameStats
    ensures Accounted(FrameRendered(a, frame, nowMs))
  {
    var stream := a.frameStats[frame.id].streamLabel;
    assert QueueConsistent(a, stream);
    DropUntilAccounted(a, stream, frame.id);
    DropUntilReaches(a, stream, frame.id);
    DropUntilDropsPrefix(a, stream, frame.id);
    DropUntilKeepsQueue(a, stream, frame.id);
    var d := DropUntil(a, stream, frame.id);
    assert FrameRendered(a, frame, nowMs) == RenderFront(d.state, stream, frame, nowMs, d.dropped);
    RenderFrontAccounted(d.state, stream, frame, nowMs, d.dropped);
  }

  lemma RenderFrontAccounted(b: Analyzer, stream: string, frame: VideoFrame, nowMs: int, dropped: nat)
    requires Accounted(b)
    requires stream in b.streamStates && stream in b.streamStats
    requires |b.streamStates[stream].frameIds| > 0 && b.streamStates[stream].frameIds[0] == frame.id
    requires frame.id in b.frameStats && frame.id in b.capturedFramesInFlight
    ensures Accounted(RenderFront(b, stream, frame, nowMs, dropped))
  {
    var id := frame.id;
    var st := b.streamStates[stream];
    var fs0 := b.frameStats[id];
    var fs := fs0.(renderedTime := Some(nowMs),
                   renderedFrameWidth := Some(frame.width), renderedFrameHeight := Some(frame.height),
                   prevFrameRenderedTime := if st.lastRenderedFrameTime.Some? then st.lastRenderedFrameTime
                                            else fs0.prevFrameRenderedTime);
    AddComparisonAccounted(b, b.capturedFramesInFlight[id], Some(frame), false, fs);
  }

  /** Capturing a frame keeps the account of comparisons. */
  lemma FrameCapturedAccounted(a: Analyzer, stream: string, frame: VideoFrame, nowMs: int)
    requires Consistent(a) && Accounted(a)
    ensures Accounted(FrameCaptured(a, stream, frame, nowMs))
  {
    ReusedIdIsOldestFrame(a);
    var id := a.nextFrameId;
    if id in a.frameStats {
      var owner := a.frameStats[id].streamLabel;
      assert QueueConsistent(a, owner);
      DropOldestAccounted(a, owner);
    }
  }

  // ---------------------------------------------------------------------------------------
  // The analyzer object.

  /** DefaultVideoQualityAnalyzer: the state above held in fields that the callbacks update in
   *  place. Each method leaves the state its pure counterpart computes, and keeps the
   *  bookkeeping consistent and the comparisons accounted for. */
  class DefaultVideoQualityAnalyzer {
    var nextFrameId: FrameId
    var frameCounters: FrameCounters
    var streamFrameCounters: map<string, FrameCounters>
    var streamStates: map<string, StreamState>
    var capturedFramesInFlight: map<FrameId, VideoFrame>
    var frameStats: map<FrameId, FrameStats>
    var streamStats: map<string, StreamStats>
    var streamLastFreezeEndTime: map<string, Option<int>>
    var comparisons: seq<FrameComparison>
    var analyzerStats: AnalyzerStats
    var runState: RunState
    var startTime: Option<int>
    var testLabel: string

    function Snapshot(): Analyzer
      reads this
    {
      Analyzer(nextFrameId, frameCounters, streamFrameCounters, streamStates, capturedFramesInFlight,
               frameStats, streamStats, streamLastFreezeEndTime, comparisons, analyzerStats, runState,
               startTime, testLabel)
    }

    ghost predicate Valid()
      reads this
    {
      Consistent(Snapshot()) && Accounted(Snapshot())
    }

    constructor()
      ensures Snapshot() == InitialAnalyzer
      ensures Valid()
    {
      nextFrameId := 0;
      frameCounters := NoFrames;
      streamFrameCounters := map[];
      streamStates := map[];
      capturedFramesInFlight := map[];
      frameStats := map[];
      streamStats := map[];
      streamLastFreezeEndTime := map[];
      comparisons := [];
      analyzerStats := AnalyzerStats([], 0, 0);
      runState := New;
      startTime := None;
      testLabel := "";
      new;
      InitialValid(this);
    }

    static lemma InitialValid(x: DefaultVideoQualityAnalyzer)
      requires x.Snapshot() == InitialAnalyzer
      ensures x.Valid()
    {
      InitialConsistent();
      InitialAccounted();
    }

    static lemma ValidState(x: DefaultVideoQualityAnalyzer, s: Analyzer)
      requires x.Snapshot() == s && Consistent(s) && Accounted(s)
      ensures x.Valid()
    {
    }

    method Start(testCaseName: string, nowMs: int)
      requires Valid() && startTime.None?
      modifies this`testLabel, this`runState, this`startTime
      ensures Valid()
      ensures Snapshot() == AnalyzerStarted(old(Snapshot()), testCaseName, nowMs)
    {
      ghost var before := Snapshot();
      StartedConsistent(before, testCaseName, nowMs);
      testLabel := testCaseName;
      runState := Active;
      startTime := Some(nowMs);
      assert Snapshot() == AnalyzerStarted(before, testCaseName, nowMs);
    }

    method Stop()
      requires Valid()
      modifies this`runState
      ensures Valid()
      ensures Snapshot() == AnalyzerStopped(old(Snapshot()))
    {
      ghost var before := Snapshot();
      StoppedConsistent(before);
      if runState == Stopped {
        return;
      }
      runState := Stopped;
      assert Snapshot() == AnalyzerStopped(before);
    }

    /** Samples the queue's size and queues a comparison, without frames under overload. */
    method QueueComparison(captured: Option<VideoFrame>, rendered: Option<VideoFrame>, dropped: bool, fs: FrameStats)
      modifies this`analyzerStats, this`comparisons
      ensures Snapshot() == AddComparison(old(Snapshot()), captured, rendered, dropped, fs)
    {
      var size := |comparisons|;
      analyzerStats := analyzerStats.(comparisonsQueueSize := analyzerStats.comparisonsQueueSize + [size]);
      if size >= kMaxActiveComparisons {
        comparisons := comparisons + [FrameComparison(None, None, dropped, fs)];
      } else {
        comparisons := comparisons + [FrameComparison(captured, rendered, dropped, fs)];
      }
    }

    /** Gives up the oldest frame of `stream` as dropped. */
    method DropOldestFrame(stream: string)
      requires stream in streamStates && |streamStates[stream].frameIds| > 0
      requires streamStates[stream].frameIds[0] in frameStats
      requires streamStates[stream].frameIds[0] in capturedFramesInFlight
      modifies this
      ensures Snapshot() == DropOldest(old(Snapshot()), stream)
    {
      var st := streamStates[stream];
      var id := st.frameIds[0];
      QueueComparison(Some(capturedFramesInFlight[id]), None, true, frameStats[id]);
      CountFrame(stream, Dropped);
      streamStates := streamStates[stream := st.(frameIds := st.frameIds[1..])];
      ForgetFrame(id);
    }

    /** One frame of `stream` is counted under `kind`, globally and for the stream. */
    method CountFrame(stream: string, kind: CounterKind)
      modifies this`frameCounters, this`streamFrameCounters
      ensures Snapshot() == old(Snapshot()).(frameCounters := Bump(old(frameCounters), kind),
                                             streamFrameCounters := BumpStream(old(streamFrameCounters), stream, kind))
    {
      frameCounters := Bump(frameCounters, kind);
      streamFrameCounters := BumpStream(streamFrameCounters, stream, kind);
    }

    /** The frame leaves both maps of frames in flight. */
    method ForgetFrame(id: FrameId)
      modifies this`capturedFramesInFlight, this`frameStats
      ensures Snapshot() == old(Snapshot()).(capturedFramesInFlight := old(capturedFramesInFlight) - {id},
                                             frameStats := old(frameStats) - {id})
    {
      capturedFramesInFlight := capturedFramesInFlight - {id};
      frameStats := frameStats - {id};
    }

    method OnFrameCaptured(stream: string, frame: VideoFrame, nowMs: int) returns (id: FrameId)
      requires Valid()
      modifies this
      ensures Valid()
      ensures id == old(nextFrameId)
      ensures Snapshot() == FrameCaptured(old(Snapshot()), stream, frame, nowMs)
    {
      ghost var a := Snapshot();
      ReusedIdIsOldestFrame(a);
      FrameCapturedConsistent(a, stream, frame, nowMs);
      FrameCapturedAccounted(a, stream, frame, nowMs);
      id := nextFrameId;
      if id in frameStats {
        var owner := frameStats[id].streamLabel;
        DropOldestFrame(owner);
      }
      EnqueueFrame(stream, frame.(id := id), nowMs);
      ValidState(this, FrameCaptured(a, stream, frame, nowMs));
    }

    /** The frame joins the back of `stream`'s queue under the next id; a stream seen for the
     *  first time gets its statistics. */
    method EnqueueFrame(stream: string, frame: VideoFrame, nowMs: int)
      modifies this
      ensures Snapshot() == Enqueue(old(Snapshot()), stream, frame, nowMs)
    {
      var id := nextFrameId;
      AddStream(stream);
      PushFrameId(stream, id);
      StoreFrame(stream, frame, nowMs);
      CountFrame(stream, Captured);
    }

    /** A stream seen for the first time gets empty statistics and its freeze clock starts at
     *  the analyzer's start. */
    method AddStream(stream: string)
      modifies this`streamStats, this`streamLastFreezeEndTime
      ensures Snapshot() == old(Snapshot()).(
                streamStats := if stream in old(streamStats) then old(streamStats) else old(streamStats)[stream := NewStreamStats],
                streamLastFreezeEndTime := if stream in old(streamStats) then old(streamLastFreezeEndTime)
                                           else old(streamLastFreezeEndTime)[stream := startTime])
    {
      if stream !in streamStats {
        streamStats := streamStats[stream := NewStreamStats];
        streamLastFreezeEndTime := streamLastFreezeEndTime[stream := startTime];
      }
    }

    /** The id joins the back of the stream's queue (a new queue for a new stream). */
    method PushFrameId(stream: string, id: FrameId)
      modifies this`streamStates
      ensures var st := if stream in old(streamStates) then old(streamStates)[stream] else StreamState([], None);
              Snapshot() == old(Snapshot()).(streamStates := old(streamStates)[stream := st.(frameIds := st.frameIds + [id])])
    {
      var st := if stream in streamStates then streamStates[stream] else StreamState([], None);
      streamStates := streamStates[stream := st.(frameIds := st.frameIds + [id])];
    }

    /** The frame is stored under the next id, which moves on. */
    method StoreFrame(stream: string, frame: VideoFrame, nowMs: int)
      modifies this`nextFrameId, this`capturedFramesInFlight, this`frameStats
      ensures var id := old(nextFrameId);
              Snapshot() == old(Snapshot()).(
                nextFrameId := NextFrameId(id),
                capturedFramesInFlight := old(capturedFramesInFlight)[id := frame],
                frameStats := old(frameStats)[id := NewFrameStats(stream, nowMs)])
    {
      var id := nextFrameId;
      nextFrameId := NextFrameId(id);
      capturedFramesInFlight := capturedFramesInFlight[id := frame];
      frameStats := frameStats[id := NewFrameStats(stream, nowMs)];
    }

    /** Counts the frame at `stage` and stamps the time on it. */
    method CountStage(id: FrameId, stage: CounterKind, nowMs: int)
      requires Valid() && id in frameStats && IsMidStage(stage)
      requires stage == Encoded || stage == Received ==> StageTime(frameStats[id], stage).None?
      modifies this`frameCounters, this`streamFrameCounters, this`frameStats
      ensures Valid()
      ensures Snapshot() == FrameReachedStage(old(Snapshot()), id, stage, nowMs)
    {
      ghost var a := Snapshot();
      FrameReachedStageConsistent(a, id, stage, nowMs);
      StampStage(id, stage, nowMs);
      ValidState(this, FrameReachedStage(a, id, stage, nowMs));
    }

    /** The field updates of `CountStage`. */
    method StampStage(id: FrameId, stage: CounterKind, nowMs: int)
      requires id in frameStats && IsMidStage(stage)
      requires stage == Encoded || stage == Received ==> StageTime(frameStats[id], stage).None?
      modifies this`frameCounters, this`streamFrameCounters, this`frameStats
      ensures Snapshot() == FrameReachedStage(old(Snapshot()), id, stage, nowMs)
    {
      var fs := frameStats[id];
      CountFrame(fs.streamLabel, stage);
      frameStats := frameStats[id := Stamp(fs, stage, nowMs)];
    }

    method OnFramePreEncode(frame: VideoFrame, nowMs: int)
      requires Valid() && frame.id in frameStats
      modifies this`frameCounters, this`streamFrameCounters, this`frameStats
      ensures Valid()
      ensures Snapshot() == FrameReachedStage(old(Snapshot()), frame.id, PreEncoded, nowMs)
    {
      CountStage(frame.id, PreEncoded, nowMs);
    }

    method OnFrameEncoded(id: FrameId, nowMs: int)
      requires Valid() && id in frameStats && StageTime(frameStats[id], Encoded).None?
      modifies this`frameCounters, this`streamFrameCounters, this`frameStats
      ensures Valid()
      ensures Snapshot() == FrameReachedStage(old(Snapshot()), id, Encoded, nowMs)
    {
      CountStage(id, Encoded, nowMs);
    }

    method OnFrameReceived(id: FrameId, nowMs: int)
      requires Valid() && id in frameStats && StageTime(frameStats[id], Received).None?
      modifies this`frameCounters, this`streamFrameCounters, this`frameStats
      ensures Valid()
      ensures Snapshot() == FrameReachedStage(old(Snapshot()), id, Received, nowMs)
    {
      CountStage(id, Received, nowMs);
    }

    method OnFrameDecoded(frame: VideoFrame, nowMs: int)
      requires Valid() && frame.id in frameStats
      modifies this`frameCounters, this`streamFrameCounters, this`frameStats
      ensures Valid()
      ensures Snapshot() == FrameReachedStage(old(Snapshot()), frame.id, Decoded, nowMs)
    {
      CountStage(frame.id, Decoded, nowMs);
    }

    /** Drops the frames queued before the rendered one, one at a time, then lets the rendered
     *  one leave flight. */
    method OnFrameRendered(frame: VideoFrame, nowMs: int)
      requires Valid() && frame.id in frameStats
      modifies this
      ensures Valid()
      ensures Snapshot() == FrameRendered(old(Snapshot()), frame, nowMs)
    {
      ghost var a := Snapshot();
      RenderedConsistent(a, frame, nowMs);
      FrameRenderedAccounted(a, frame, nowMs);
      var stream := frameStats[frame.id].streamLabel;
      RenderSteps(a, frame, nowMs);
      var dropped := DropFramesBefore(stream, frame.id);
      RenderFrontFrame(stream, frame, nowMs, dropped);
      ValidState(this, FrameRendered(a, frame, nowMs));
    }

    /** OnFrameRendered's loop: pops and drops the frames of `stream` queued before `id`, and
     *  counts them. */
    method DropFramesBefore(stream: string, id: FrameId) returns (dropped: nat)
      requires stream in streamStates && QueueConsistent(Snapshot(), stream)
      requires id in streamStates[stream].frameIds
      modifies this
      ensures Snapshot() == DropUntil(old(Snapshot()), stream, id).state
      ensures dropped == DropUntil(old(Snapshot()), stream, id).dropped
    {
      ghost var goal := DropUntil(Snapshot(), stream, id);
      dropped := 0;
      while |streamStates[stream].frameIds| > 0 && streamStates[stream].frameIds[0] != id
        invariant stream in streamStates && QueueConsistent(Snapshot(), stream)
        invariant id in streamStates[stream].frameIds
        invariant DropUntil(Snapshot(), stream, id).state == goal.state
        invariant DropUntil(Snapshot(), stream, id).dropped + dropped == goal.dropped
        decreases |streamStates[stream].frameIds|
      {
        ghost var b := Snapshot();
        DropOldestKeepsQueue(b, stream);
        DropOldestFrame(stream);
        dropped := dropped + 1;
      }
    }

    /** The rendered frame, now at the front of its stream's queue, leaves flight. */
    method RenderFrontFrame(stream: string, frame: VideoFrame, nowMs: int, dropped: nat)
      requires stream in streamStates && stream in streamStats
      requires |streamStates[stream].frameIds| > 0 && streamStates[stream].frameIds[0] == frame.id
      requires frame.id in frameStats && frame.id in capturedFramesInFlight
      modifies this
      ensures Snapshot() == RenderFront(old(Snapshot()), stream, frame, nowMs, dropped)
    {
      var id := frame.id;
      var st := streamStates[stream];
      var fs0 := frameStats[id];
      var fs := fs0.(renderedTime := Some(nowMs),
                     renderedFrameWidth := Some(frame.width), renderedFrameHeight := Some(frame.height),
                     prevFrameRenderedTime := if st.lastRenderedFrameTime.Some? then st.lastRenderedFrameTime
                                              else fs0.prevFrameRenderedTime);
      var ss := streamStats[stream];
      QueueComparison(Some(capturedFramesInFlight[id]), Some(frame), false, fs);
      CountFrame(stream, Rendered);
      streamStates := streamStates[stream := StreamState(st.frameIds[1..], Some(nowMs))];
      streamStats := streamStats[stream := ss.(skippedBetweenRendered := ss.skippedBetweenRendered + [dropped])];
      ForgetFrame(id);
    }

    /** One turn of the comparison worker: the oldest pending comparison, if any, is taken and
     *  counted. */
    method ProcessNextComparison() returns (processed: bool)
      requires Valid()
      modifies this`comparisons, this`analyzerStats, this`streamStats
      ensures Valid()
      ensures processed <==> |old(comparisons)| > 0
      ensures !processed ==> Snapshot() == old(Snapshot())
      ensures processed ==> old(comparisons[0].frameStats.streamLabel in streamStats)
                            && Snapshot() == ComparisonProcessed(old(Snapshot()))
    {
      if |comparisons| == 0 {
        return false;
      }
      ghost var a := Snapshot();
      ComparisonProcessedConsistent(a);
      ComparisonProcessedAccounted(a);
      TakeComparison();
      ValidState(this, ComparisonProcessed(a));
      return true;
    }

    /** The field updates of `ProcessNextComparison` when a comparison is pending. */
    method TakeComparison()
      requires |comparisons| > 0 && comparisons[0].frameStats.streamLabel in streamStats
      modifies this`comparisons, this`analyzerStats, this`streamStats
      ensures Snapshot() == ComparisonProcessed(old(Snapshot()))
    {
      var c := comparisons[0];
      comparisons := comparisons[1..];
      var stream := c.frameStats.streamLabel;
      var fs := c.frameStats;
      var ss := streamStats[stream];
      analyzerStats := analyzerStats.(comparisonsDone := analyzerStats.comparisonsDone + 1);
      if c.captured.None? {
        analyzerStats := analyzerStats.(overloadedComparisonsDone := analyzerStats.overloadedComparisonsDone + 1);
      }
      if fs.encodedTime.Some? {
        ss := ss.(encodeFrameRate := AddEvent(ss.encodeFrameRate, fs.encodedTime.value));
      } else if fs.preEncodeTime.Some? {
        ss := ss.(droppedByEncoder := ss.droppedByEncoder + 1);
      } else {
        ss := ss.(droppedBeforeEncoder := ss.droppedBeforeEncoder + 1);
      }
      streamStats := streamStats[stream := ss];
    }
  }
}
