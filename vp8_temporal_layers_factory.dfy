/** Selection of one VP8 frame-buffer controller per simulcast stream. */
module Vp8TemporalLayers {

  /** The codec facts the factory reads through its simulcast helpers: the temporal-layer
   *  count of each simulcast stream (the number of streams is the length of the list) and
   *  whether the codec is in conference-mode screenshare. */
  datatype CodecSettings = CodecSettings(temporalLayersPerStream: seq<int>, conferenceModeScreenshare: bool)

  /** The controller built for one stream; each carries its temporal-layer count. */
  datatype FrameBufferController =
    | ScreenshareLayers(numTemporalLayers: int)
    | DefaultTemporalLayers(numTemporalLayers: int)

  /** The composite controller handed back by Create: one controller per stream. */
  datatype Vp8Controllers = Vp8Controllers(controllers: seq<FrameBufferController>)

  function Max(a: int, b: int): int { if a < b then b else a }

  /** The rule for stream `i`: stream 0 of a conference-mode screenshare codec gets legacy
   *  screenshare layers with at least two temporal layers, every other stream gets default
   *  layers with its own count. */
  function ControllerFor(codec: CodecSettings, i: nat): (c: FrameBufferController)
    requires i < |codec.temporalLayersPerStream|
    ensures c.ScreenshareLayers? <==> (codec.conferenceModeScreenshare && i == 0)
    ensures c.ScreenshareLayers? ==> c.numTemporalLayers >= 2 && c.numTemporalLayers >= codec.temporalLayersPerStream[i]
    ensures c.ScreenshareLayers? && codec.temporalLayersPerStream[i] >= 2 ==> c.numTemporalLayers == codec.temporalLayersPerStream[i]
    ensures c.DefaultTemporalLayers? ==> c.numTemporalLayers == codec.temporalLayersPerStream[i]
  {
    var n := codec.temporalLayersPerStream[i];
    if codec.conferenceModeScreenshare && i == 0 then ScreenshareLayers(Max(2, n))
    else DefaultTemporalLayers(n)
  }

  /** The factory holds no state; Create and Clone depend on their arguments only. */
  class Vp8TemporalLayersFactory {
    constructor() {}

    /** Builds the controllers stream by stream, in stream-index order. */
    method Create(codec: CodecSettings) returns (r: Vp8Controllers)
      requires |codec.temporalLayersPerStream| >= 1
      ensures |r.controllers| == |codec.temporalLayersPerStream|
      ensures forall i :: 0 <= i < |r.controllers| ==> r.controllers[i] == ControllerFor(codec, i)
    {
      var controllers: seq<FrameBufferController> := [];
      var numStreams := |codec.temporalLayersPerStream|;
      for i := 0 to numStreams
        invariant |controllers| == i
        invariant forall j :: 0 <= j < i ==> controllers[j] == ControllerFor(codec, j)
      {
        var numTemporalLayers := codec.temporalLayersPerStream[i];
        if codec.conferenceModeScreenshare && i == 0 {
          numTemporalLayers := Max(2, numTemporalLayers);
          controllers := controllers + [ScreenshareLayers(numTemporalLayers)];
        } else {
          controllers := controllers + [DefaultTemporalLayers(numTemporalLayers)];
        }
      }
      r := Vp8Controllers(controllers);
    }

    /** A new, independent factory. */
    method Clone() returns (f: Vp8TemporalLayersFactory)
      ensures fresh(f)
    {
      f := new Vp8TemporalLayersFactory();
    }
  }
}
