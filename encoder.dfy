// The write side of the FFmpeg context as the save helpers use it: a
// destination is opened, one output format is declared, the header is
// written, then frames are written. The context itself wraps native FFmpeg;
// here it is a state machine that records the calls it accepted.
module Encoder {
  import opened Base
  import opened SampleFormats

  /** The codec ids the helpers pass (with AV_CODEC_ID_NONE the codec is left
      to the write context). */
  datatype CodecId = CodecNone | Png

  /** The pixel formats the helpers pass. */
  datatype PixelFormat = Bgra

  /** One call on a write context. SetOutputFormat has an image overload and an
      audio overload. */
  datatype EncodeCall =
    | SetImageFormat(codec: CodecId, width: int, height: int, pixelFormat: PixelFormat, compression: int)
    | SetAudioFormat(codec: CodecId, sampleRate: int, sampleCount: int, sampleFormat: AVSampleFormat)
    | WriteHeader
    | WriteFrame(data: seq<byte>)
  {
    predicate IsSetOutputFormat()
    {
      SetImageFormat? || SetAudioFormat?
    }
  }

  datatype Stage = Opened | FormatSet | HeaderWritten

  /** The calls the context accepts in each stage: the format first, then the
      header, then any number of frames. */
  function Step(stage: Stage, call: EncodeCall): Option<Stage>
  {
    match stage
    case Opened => if call.IsSetOutputFormat() then Some(FormatSet) else None
    case FormatSet => if call == WriteHeader then Some(HeaderWritten) else None
    case HeaderWritten => if call.WriteFrame? then Some(HeaderWritten) else None
  }

  /** The stage a freshly opened context reaches through `calls`, or None if
      some call was out of order. */
  function Replay(calls: seq<EncodeCall>): Option<Stage>
  {
    if calls == [] then Some(Opened)
    else match Replay(calls[..|calls| - 1])
      case None => None
      case Some(stage) => Step(stage, calls[|calls| - 1])
  }

  /** The call sequences the protocol admits: one output format, then one
      header, then frames only. */
  ghost predicate WellOrdered(calls: seq<EncodeCall>)
  {
    && (|calls| >= 1 ==> calls[0].IsSetOutputFormat())
    && (|calls| >= 2 ==> calls[1] == WriteHeader)
    && (forall i :: 2 <= i < |calls| ==> calls[i].WriteFrame?)
  }

  function StageAfter(n: nat): Stage
  {
    if n == 0 then Opened else if n == 1 then FormatSet else HeaderWritten
  }

  /** A sequence of calls is accepted exactly when it is well ordered, and then
      its length decides the stage. So the header is written once, after the
      format and before every frame. */
  lemma {:induction false} ReplayAccepts(calls: seq<EncodeCall>)
    ensures Replay(calls).Some? <==> WellOrdered(calls)
    ensures Replay(calls).Some? ==> Replay(calls) == Some(StageAfter(|calls|))
  {
    if calls != [] {
      var init := calls[..|calls| - 1];
      ReplayAccepts(init);
      assert forall i :: 0 <= i < |init| ==> init[i] == calls[i];
    }
  }

  /** An FFmpeg context opened for writing. */
  class EncoderContext {
    const path: string
    var calls: seq<EncodeCall>
    var stage: Stage
    var disposed: bool

    /** The recorded calls are what brought the context to its stage. */
    ghost predicate Valid()
      reads this
    {
      Replay(calls) == Some(stage)
    }

    /** FFmpegContext.Write(path). */
    constructor Write(path: string)
      ensures Valid()
      ensures this.path == path && calls == [] && stage == Opened && !disposed
    {
      this.path := path;
      calls := [];
      stage := Opened;
      disposed := false;
    }

    /** SetOutputFormat, image overload. */
    method SetImageOutputFormat(codec: CodecId, width: int, height: int, pixelFormat: PixelFormat, compression: int)
      requires Valid() && !disposed && stage == Opened
      modifies this
      ensures Valid() && stage == FormatSet && !disposed
      ensures calls == old(calls) + [SetImageFormat(codec, width, height, pixelFormat, compression)]
    {
      calls := calls + [SetImageFormat(codec, width, height, pixelFormat, compression)];
      stage := FormatSet;
    }

    /** SetOutputFormat, audio overload. */
    method SetAudioOutputFormat(codec: CodecId, sampleRate: int, sampleCount: int, sampleFormat: AVSampleFormat)
      requires Valid() && !disposed && stage == Opened
      modifies this
      ensures Valid() && stage == FormatSet && !disposed
      ensures calls == old(calls) + [SetAudioFormat(codec, sampleRate, sampleCount, sampleFormat)]
    {
      calls := calls + [SetAudioFormat(codec, sampleRate, sampleCount, sampleFormat)];
      stage := FormatSet;
    }

    method WriteHeader()
      requires Valid() && !disposed && stage == FormatSet
      modifies this
      ensures Valid() && stage == HeaderWritten && !disposed
      ensures calls == old(calls) + [EncodeCall.WriteHeader]
    {
      calls := calls + [EncodeCall.WriteHeader];
      stage := HeaderWritten;
    }

    method WriteFrame(data: seq<byte>)
      requires Valid() && !disposed && stage == HeaderWritten
      modifies this
      ensures Valid() && stage == HeaderWritten && !disposed
      ensures calls == old(calls) + [EncodeCall.WriteFrame(data)]
    {
      calls := calls + [EncodeCall.WriteFrame(data)];
    }

    /** The end of the `using` block: the context is released whatever stage
      it reached. */
    method Dispose()
      modifies this
      ensures disposed && calls == old(calls) && stage == old(stage)
      ensures old(Valid()) ==> Valid()
    {
      disposed := true;
    }
  }
}
