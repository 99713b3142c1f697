// FFmpegHelper (Pulsus/FFmpeg/FFmpegHelper.cs): loading sounds through an
// FFmpeg read context, saving images and sounds through a write context, the
// forwarding of FFmpeg's log lines and the lazily computed FFmpeg directory.
module FFmpegHelper {
  import opened Base
  import opened DotNetText
  import opened SampleFormats
  import opened Decode
  import opened Encoder

  /** The audio stream SelectStream picks: its sample rate, channel count and
      sample format, and the frames it decodes to. */
  datatype AudioStream = AudioStream(sampleRate: int, channels: int, sampleFormat: AVSampleFormat, source: FrameSource)

  /** What SoundFromFile hands back: the decoded bytes and its out parameters. */
  datatype LoadedSound = LoadedSound(data: seq<byte>, sampleRate: int, channels: int, sampleFormatSDL: ushort)

  /** The resampler quality levels; High is the default. */
  datatype ResampleQuality = Low | Medium | High

  /** What ConvertToFormat asks of the converter. */
  datatype ConversionRequest = ConversionRequest(sampleFormat: AVSampleFormat, sampleRate: int, channels: int, quality: ResampleQuality)

  /** SoundFromFile: the stream's rate and channel count, its sample format as
      an SDL code, and the decoded bytes; an unmapped sample format is an error
      raised before any frame is read. */
  method SoundFromFile(stream: AudioStream) returns (r: Result<LoadedSound, FormatError>)
    requires IsSupportedSampleFormat(stream.sampleFormat) ==> TotalSize(stream.source.frames) <= INT32_MAX
    ensures r.Failure? <==> !IsSupportedSampleFormat(stream.sampleFormat)
    ensures r.Failure? ==> r.error == UnmappedSampleFormat(stream.sampleFormat)
    ensures r.Success? ==>
      && r.value.sampleRate == stream.sampleRate
      && r.value.channels == stream.channels
      && ToSdlFormat(stream.sampleFormat) == Success(r.value.sampleFormatSDL)
      && IsDecodedBuffer(r.value.data, stream.source)
  {
    var sampleFormatSDL;
    match ToSdlFormat(stream.sampleFormat)
    case Failure(e) =>
      return Failure(e);
    case Success(code) =>
      sampleFormatSDL := code;
    var bytes := ReadAllFrames(stream.source);
    r := Success(LoadedSound(bytes[..], stream.sampleRate, stream.channels, sampleFormatSDL));
  }

  /** The request SoundFromFileResample hands to ConvertToFormat once the SDL
      code has been mapped. */
  function ResampleRequest(sampleRate: int, channels: int, sampleFormatSDL: ushort, quality: ResampleQuality): (r: Result<ConversionRequest, FormatError>)
    ensures r.Success? <==> IsSupportedSdlFormat(sampleFormatSDL)
    ensures r.Failure? ==> r.error == UnmappedSdlFormat(sampleFormatSDL)
    ensures r.Success? ==>
      && r.value.sampleRate == sampleRate && r.value.channels == channels && r.value.quality == quality
      && ToSdlFormat(r.value.sampleFormat) == Success(sampleFormatSDL)
  {
    match ToSampleFormat(sampleFormatSDL)
    case Failure(e) => Failure(e)
    case Success(f) =>
      SdlFormatRoundTrip(sampleFormatSDL);
      Success(ConversionRequest(f, sampleRate, channels, quality))
  }

  /** SoundFromFileResample: maps the SDL code first (an unmapped code fails
      before the file is opened), then opens the file, asks the converter for
      the requested shape and decodes the converted frames. `openConverted`
      stands for FFmpeg: what the opened stream delivers after ConvertToFormat
      with the given request. */
  method SoundFromFileResample(openConverted: ConversionRequest -> FrameSource, sampleRate: int, channels: int,
                               sampleFormatSDL: ushort, resampleQuality: ResampleQuality := High)
    returns (r: Result<seq<byte>, FormatError>)
    requires ResampleRequest(sampleRate, channels, sampleFormatSDL, resampleQuality).Success? ==>
      TotalSize(openConverted(ResampleRequest(sampleRate, channels, sampleFormatSDL, resampleQuality).value).frames) <= INT32_MAX
    ensures r.Failure? <==> !IsSupportedSdlFormat(sampleFormatSDL)
    ensures r.Failure? ==> r.error == UnmappedSdlFormat(sampleFormatSDL)
    ensures r.Success? ==>
      var request := ResampleRequest(sampleRate, channels, sampleFormatSDL, resampleQuality).value;
      IsDecodedBuffer(r.value, openConverted(request))
  {
    var request;
    match ResampleRequest(sampleRate, channels, sampleFormatSDL, resampleQuality)
    case Failure(e) =>
      return Failure(e);
    case Success(q) =>
      request := q;
    var bytes := ReadAllFrames(openConverted(request));
    r := Success(bytes[..]);
  }

  /** SaveImagePNG: one PNG frame of BGRA pixels, compression level 1 unless
      given. The returned context records the calls it received. */
  method SaveImagePNG(path: string, data: seq<byte>, width: int, height: int, compression: int := 1)
    returns (file: EncoderContext)
    ensures file.path == path && file.disposed && file.Valid()
    ensures file.calls == [SetImageFormat(Png, width, height, Bgra, compression), EncodeCall.WriteHeader, EncodeCall.WriteFrame(data)]
  {
    file := new EncoderContext.Write(path);
    file.SetImageOutputFormat(Png, width, height, Bgra, compression);
    file.WriteHeader();
    file.WriteFrame(data);
    file.Dispose();
  }

  /** SaveSound: one block of 16-bit PCM at the given rate; with
      AV_CODEC_ID_NONE the codec is left to the write context. */
  method SaveSound(path: string, data: seq<byte>, sampleCount: int, targetSampleRate: int)
    returns (file: EncoderContext)
    ensures file.path == path && file.disposed && file.Valid()
    ensures file.calls == [SetAudioFormat(CodecNone, targetSampleRate, sampleCount, S16), EncodeCall.WriteHeader, EncodeCall.WriteFrame(data)]
  {
    file := new EncoderContext.Write(path);
    file.SetAudioOutputFormat(CodecNone, targetSampleRate, sampleCount, S16);
    file.WriteHeader();
    file.WriteFrame(data);
    file.Dispose();
  }

  /** FFmpeg's log levels. */
  const AV_LOG_QUIET: int := -8
  const AV_LOG_PANIC: int := 0
  const AV_LOG_FATAL: int := 8
  const AV_LOG_ERROR: int := 16
  const AV_LOG_WARNING: int := 24
  const AV_LOG_INFO: int := 32
  const AV_LOG_VERBOSE: int := 40
  const AV_LOG_DEBUG: int := 48
  const AV_LOG_TRACE: int := 56

  /** A message reaches the debug output when it is at least as severe as a
      warning (a smaller level is more severe). */
  predicate IsForwarded(level: int)
  {
    level <= AV_LOG_WARNING
  }

  /** The levels run from QUIET to TRACE in strictly increasing order; the
      levels up to WARNING are forwarded and the ones after it are not. */
  lemma LogLevels()
    ensures AV_LOG_QUIET < AV_LOG_PANIC < AV_LOG_FATAL < AV_LOG_ERROR < AV_LOG_WARNING
    ensures AV_LOG_WARNING < AV_LOG_INFO < AV_LOG_VERBOSE < AV_LOG_DEBUG < AV_LOG_TRACE
    ensures IsForwarded(AV_LOG_QUIET) && IsForwarded(AV_LOG_PANIC) && IsForwarded(AV_LOG_FATAL)
    ensures IsForwarded(AV_LOG_ERROR) && IsForwarded(AV_LOG_WARNING)
    ensures !IsForwarded(AV_LOG_INFO) && !IsForwarded(AV_LOG_VERBOSE)
    ensures !IsForwarded(AV_LOG_DEBUG) && !IsForwarded(AV_LOG_TRACE)
  {
  }

  /** For a base path that is not empty and does not end in a separator, the
      FFmpeg directory is `<basePath>\ffmpeg\x64` in a 64-bit process and
      `<basePath>\ffmpeg\x86` otherwise. */
  lemma FFmpegDirectory(basePath: string, is64BitProcess: bool)
    requires basePath != [] && !IsSeparator(basePath[|basePath| - 1])
    ensures Combine(Combine(basePath, "ffmpeg"), if is64BitProcess then "x64" else "x86")
      == basePath + (if is64BitProcess then "\\ffmpeg\\x64" else "\\ffmpeg\\x86")
  {
    var leaf := if is64BitProcess then "x64" else "x86";
    CombineNested(basePath, "ffmpeg", leaf);
    assert basePath + "\\" + "ffmpeg" + "\\" + leaf
      == basePath + (if is64BitProcess then "\\ffmpeg\\x64" else "\\ffmpeg\\x86");
  }

  /** The static state of the FFmpegHelper class. */
  class FFmpegHelperState {
    /** `_ffmpegPath`, None while still null. */
    var ffmpegPathCache: Option<string>
    /** `logLastLine`, None while still null. */
    var logLastLine: Option<string>
    /** The lines written to System.Diagnostics.Debug, oldest first. */
    var debugOutput: seq<string>

    constructor ()
      ensures ffmpegPathCache == None && logLastLine == None && debugOutput == []
    {
      ffmpegPathCache := None;
      logLastLine := None;
      debugOutput := [];
    }

    /** The `ffmpegPath` getter: computed from the base path and the process
      bitness on the first call, then returned unchanged by every later call,
      whatever its arguments. */
    method FFmpegPath(basePath: string, is64BitProcess: bool) returns (p: string)
      modifies this`ffmpegPathCache
      ensures old(ffmpegPathCache).Some? ==> p == old(ffmpegPathCache).value
      ensures old(ffmpegPathCache).None? ==>
        p == Combine(Combine(basePath, "ffmpeg"), if is64BitProcess then "x64" else "x86")
      ensures ffmpegPathCache == Some(p)
    {
      if ffmpegPathCache.None? {
        ffmpegPathCache := Some(Combine(Combine(basePath, "ffmpeg"), if is64BitProcess then "x64" else "x86"));
      }
      p := ffmpegPathCache.value;
    }

    /** The log callback: always remembers the trimmed message, and writes it
      to the debug output, prefixed with "ffmpeg: ", only when the level is
      forwarded. */
    method Log(level: int, fmt: string)
      modifies this`logLastLine, this`debugOutput
      ensures logLastLine == Some(Trim(fmt))
      ensures IsForwarded(level) ==> debugOutput == old(debugOutput) + ["ffmpeg: " + Trim(fmt)]
      ensures !IsForwarded(level) ==> debugOutput == old(debugOutput)
    {
      logLastLine := Some(Trim(fmt));
      if level > AV_LOG_WARNING {
        return;
      }
      debugOutput := debugOutput + ["ffmpeg: " + logLastLine.value];
    }
  }
}
