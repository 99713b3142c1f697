// The two switches of FFmpegHelper that translate between FFmpeg's
// AVSampleFormat and SDL's audio format codes. Only 16-bit signed, 32-bit
// float and 32-bit signed samples have a counterpart; every other value is
// reported as an error that names it.
module SampleFormats {
  import opened Base

  /** FFmpeg's AVSampleFormat (FFmpeg 3.0): interleaved and planar layouts,
      with the NONE and NB sentinels. */
  datatype AVSampleFormat =
    | FmtNone | U8 | S16 | S32 | Flt | Dbl
    | U8P | S16P | S32P | FltP | DblP | FmtNb

  /** SDL audio format codes (little-endian aliases of SDL2). */
  const AUDIO_S16: ushort := 0x8010
  const AUDIO_F32: ushort := 0x8120
  const AUDIO_S32: ushort := 0x8020

  /** The exceptions the two switches throw, carrying the unmapped value. */
  datatype FormatError =
    | UnmappedSampleFormat(sampleFormat: AVSampleFormat)
    | UnmappedSdlFormat(sdlFormat: ushort)

  predicate IsSupportedSampleFormat(f: AVSampleFormat)
  {
    f == S16 || f == Flt || f == S32
  }

  predicate IsSupportedSdlFormat(code: ushort)
  {
    code == AUDIO_S16 || code == AUDIO_F32 || code == AUDIO_S32
  }

  /** The switch in SoundFromFile: the codec's sample format as an SDL code. */
  function ToSdlFormat(f: AVSampleFormat): (r: Result<ushort, FormatError>)
    ensures r.Success? <==> IsSupportedSampleFormat(f)
    ensures r.Success? ==> IsSupportedSdlFormat(r.value)
    ensures r.Failure? ==> r.error == UnmappedSampleFormat(f)
  {
    match f
    case S16 => Success(AUDIO_S16)
    case Flt => Success(AUDIO_F32)
    case S32 => Success(AUDIO_S32)
    case _ => Failure(UnmappedSampleFormat(f))
  }

  /** The switch in SoundFromFileResample: an SDL code as the target sample
      format handed to the converter. */
  function ToSampleFormat(code: ushort): (r: Result<AVSampleFormat, FormatError>)
    ensures r.Success? <==> IsSupportedSdlFormat(code)
    ensures r.Success? ==> IsSupportedSampleFormat(r.value)
    ensures r.Failure? ==> r.error == UnmappedSdlFormat(code)
  {
    if code == AUDIO_S16 then Success(S16)
    else if code == AUDIO_F32 then Success(Flt)
    else if code == AUDIO_S32 then Success(S32)
    else Failure(UnmappedSdlFormat(code))
  }

  /** The three SDL codes are distinct, so no two cases of the SDL switch
      overlap. */
  lemma SdlCodesDistinct()
    ensures AUDIO_S16 != AUDIO_F32 && AUDIO_S16 != AUDIO_S32 && AUDIO_F32 != AUDIO_S32
  {
  }

  /** The pairs of the table: S16 with AUDIO_S16, FLT with AUDIO_F32, S32 with
      AUDIO_S32. */
  lemma FormatPairs()
    ensures ToSdlFormat(S16) == Success(AUDIO_S16) && ToSampleFormat(AUDIO_S16) == Success(S16)
    ensures ToSdlFormat(Flt) == Success(AUDIO_F32) && ToSampleFormat(AUDIO_F32) == Success(Flt)
    ensures ToSdlFormat(S32) == Success(AUDIO_S32) && ToSampleFormat(AUDIO_S32) == Success(S32)
  {
  }

  /** Codec format to SDL and back gives the codec format again. */
  lemma SampleFormatRoundTrip(f: AVSampleFormat)
    requires IsSupportedSampleFormat(f)
    ensures ToSdlFormat(f).Success?
    ensures ToSampleFormat(ToSdlFormat(f).value) == Success(f)
  {
  }

  /** SDL code to codec format and back gives the SDL code again. */
  lemma SdlFormatRoundTrip(code: ushort)
    requires IsSupportedSdlFormat(code)
    ensures ToSampleFormat(code).Success?
    ensures ToSdlFormat(ToSampleFormat(code).value) == Success(code)
  {
  }

  /** Distinct supported codec formats map to distinct SDL codes. */
  lemma ToSdlFormatInjective(f: AVSampleFormat, g: AVSampleFormat)
    requires ToSdlFormat(f).Success? && ToSdlFormat(g).Success?
    requires ToSdlFormat(f).value == ToSdlFormat(g).value
    ensures f == g
  {
  }
}
