# Pulsus: sound loading, saving and offline rendering

A Dafny model of two pieces of Pulsus, a rhythm-game player written in C#:

- `FFmpegHelper`, the static class that loads sounds through FFmpeg and saves images and sounds. It covers:
  - the two switches that translate FFmpeg's `AVSampleFormat` into SDL audio format codes and back;
  - the loop that collects decoded frames into a byte array;
  - the order of calls on an FFmpeg write context in `SaveImagePNG` and `SaveSound`;
  - the log callback that remembers the last line and forwards warnings and worse;
  - the lazily cached FFmpeg directory.
- `RenderAudioScene`, whose constructor renders a song to a sound file without real-time playback. It runs two players in non-realtime mode: the background-music player (`BGM`) and an autoplaying game player (`Player`). It fails if either is still playing after one update. It saves the mix only when the mix is not empty.

Files:

| file | module | contents |
|---|---|---|
| base.dfy | `Base` | `byte`, `ushort`, `Option`, `Result`, `Max`, the `int` limit |
| dotnet_text.dfy | `DotNetText` | the .NET helpers the core calls: `String.Trim`, `String.IsNullOrWhiteSpace`, `Path.GetExtension`, `Path.Combine` |
| sample_formats.dfy | `SampleFormats` | the AV ↔ SDL sample format table |
| decode.dfy | `Decode` | the frame source, the specification of the decoded buffer and the decode loop over an `array<byte>` |
| encoder.dfy | `Encoder` | the write context as a state machine that records its calls |
| ffmpeg_helper.dfy | `FFmpegHelper` | `SoundFromFile`, `SoundFromFileResample`, `SaveImagePNG`, `SaveSound`, the log levels, and the class's static state (`ffmpegPath`, `Log`) |
| render_audio_scene.dfy | `RenderAudioScene` | extension defaulting, the abstract players and mixer, and the scene constructor |

The central result concerns the decode loop, `Decode.ReadAllFrames`. It is specified by `Decode.IsDecodedBuffer`:
- the returned array has `max(estimate, decoded bytes)` bytes;
- it starts with the concatenation of all frames;
- it holds zero bytes after them.

This holds for every estimate and every sequence of frame sizes. `NoDecodedByteLost` then places every byte of every frame at its offset. `BufferNeverTrimmed` states that the buffer is never shorter than the estimate.

## Model

| member | source | states |
|---|---|---|
| `SampleFormats.ToSdlFormat` | Pulsus/FFmpeg/FFmpegHelper.cs:102-116 | succeeds exactly for S16, FLT and S32, always with one of the three SDL codes; every other sample format fails with an error that carries that format |
| `SampleFormats.ToSampleFormat` | Pulsus/FFmpeg/FFmpegHelper.cs:139-153 | succeeds exactly for AUDIO_S16, AUDIO_F32 and AUDIO_S32, always with a supported sample format; every other code fails with an error that carries that code |
| `SampleFormats.FormatPairs` | Pulsus/FFmpeg/FFmpegHelper.cs:105-113 | the table pairs S16 with AUDIO_S16, FLT with AUDIO_F32 and S32 with AUDIO_S32 in both directions |
| `SampleFormats.SdlCodesDistinct` | Pulsus/FFmpeg/FFmpegHelper.cs:142-149 | the three SDL codes are distinct, so the SDL switch's cases do not overlap |
| `SampleFormats.SampleFormatRoundTrip` | Pulsus/FFmpeg/FFmpegHelper.cs:103-116 | a supported sample format mapped to SDL and back is unchanged |
| `SampleFormats.SdlFormatRoundTrip` | Pulsus/FFmpeg/FFmpegHelper.cs:140-153 | a supported SDL code mapped to a sample format and back is unchanged |
| `SampleFormats.ToSdlFormatInjective` | Pulsus/FFmpeg/FFmpegHelper.cs:103-113 | two sample formats that map to the same SDL code are equal |
| `Decode.ConcatLength` | Pulsus/FFmpeg/FFmpegHelper.cs:124-131 | the sum of the frame sizes equals the number of decoded bytes |
| `Decode.TotalSizePrefix` | Pulsus/FFmpeg/FFmpegHelper.cs:127-128 | the bytes of any prefix of the frames are at most the total, so every `(int)` cast of `offset + frameSize` fits when the total does |
| `Decode.ConcatAt` | Pulsus/FFmpeg/FFmpegHelper.cs:123-131 | byte `b` of frame `j` is at position (sizes of frames before `j`) + `b` of the concatenation |
| `Decode.NoDecodedByteLost` | Pulsus/FFmpeg/FFmpegHelper.cs:164-177 | in any buffer the loop can return, byte `b` of frame `j` is at its offset, however wrong the estimate was |
| `Decode.BufferNeverTrimmed` | Pulsus/FFmpeg/FFmpegHelper.cs:120-133 | the returned buffer is at least as long as the estimate and as the decoded data |
| `Decode.DecodedBufferUnique` | Pulsus/FFmpeg/FFmpegHelper.cs:164-177 | the estimate and the frames determine the returned buffer completely |
| `Decode.Resize` | Pulsus/FFmpeg/FFmpegHelper.cs:127-128 | growing a buffer gives a new array of the requested length that keeps the old bytes and adds zero bytes |
| `Decode.GetFrameData` | Pulsus/FFmpeg/FFmpegHelper.cs:130 | the frame is copied at the offset, the count returned is its size, and the bytes before and after it are unchanged |
| `Decode.ReadAllFrames` | Pulsus/FFmpeg/FFmpegHelper.cs:120-133 | the returned array has max(estimate, total) bytes, starts with the concatenated frames and is zero after them |
| `FFmpegHelper.SoundFromFile` | Pulsus/FFmpeg/FFmpegHelper.cs:93-135 | fails with the unmapped format exactly when the stream's sample format is unsupported; otherwise returns the stream's rate, its channel count, the SDL code paired with its format, and the decoded buffer |
| `FFmpegHelper.ResampleRequest` | Pulsus/FFmpeg/FFmpegHelper.cs:139-160 | asks the converter for the requested rate, channel count and quality, and for the sample format paired with the SDL code; an unsupported code fails with that code |
| `FFmpegHelper.SoundFromFileResample` | Pulsus/FFmpeg/FFmpegHelper.cs:137-179 | fails with the code exactly when the SDL code is unsupported; otherwise returns the decoded buffer of what the converted stream delivers |
| `FFmpegHelper.SaveImagePNG` | Pulsus/FFmpeg/FFmpegHelper.cs:181-190 | opens the path and calls, in order: output format (PNG, width, height, BGRA, compression level, 1 by default), header, one frame of the data; then disposes the context |
| `FFmpegHelper.SaveSound` | Pulsus/FFmpeg/FFmpegHelper.cs:192-200 | opens the path and calls, in order: output format (codec NONE, rate, sample count, S16), header, one frame of the data; then disposes the context |
| `FFmpegHelper.LogLevels` | Pulsus/FFmpeg/FFmpegHelper.cs:202-210 | the levels increase strictly from QUIET (-8) to TRACE (56); QUIET to WARNING are forwarded, INFO to TRACE are not |
| `FFmpegHelper.IsForwarded` | Pulsus/FFmpeg/FFmpegHelper.cs:39-42 | defines the forwarded levels: those at most AV_LOG_WARNING; a larger level returns before the debug write |
| `FFmpegHelper.FFmpegHelperState.constructor` | Pulsus/FFmpeg/FFmpegHelper.cs:12-24 | before any call the cached FFmpeg path and the last log line are null, and nothing has been written to the debug output |
| `FFmpegHelper.FFmpegDirectory` | Pulsus/FFmpeg/FFmpegHelper.cs:18 | for a non-empty base path that does not end in a separator, the FFmpeg directory is `<basePath>\ffmpeg\x64` in a 64-bit process and `<basePath>\ffmpeg\x86` otherwise |
| `FFmpegHelper.FFmpegHelperState.FFmpegPath` | Pulsus/FFmpeg/FFmpegHelper.cs:12-21 | the first call computes `Combine(basePath, "ffmpeg", x64 or x86)` and caches it; every later call returns the cached value |
| `FFmpegHelper.FFmpegHelperState.Log` | Pulsus/FFmpeg/FFmpegHelper.cs:35-43 | the last line becomes the trimmed message at every level; "ffmpeg: " + that line is appended to the debug output only when the level is at most WARNING |
| `Encoder.ReplayAccepts` | Pulsus/FFmpeg/FFmpegHelper.cs:186-188 | the write context accepts exactly the call sequences of the form output format, then header, then frames; so the header is written once, before every frame |
| `Encoder.EncoderContext.Write` | Pulsus/FFmpeg/FFmpegHelper.cs:184 | a context opened for writing has received no call |
| `Encoder.EncoderContext.SetImageOutputFormat` | Pulsus/FFmpeg/FFmpegHelper.cs:186 | the image format is declared only on a fresh context, and it is recorded |
| `Encoder.EncoderContext.SetAudioOutputFormat` | Pulsus/FFmpeg/FFmpegHelper.cs:196 | the audio format is declared only on a fresh context, and it is recorded |
| `Encoder.EncoderContext.WriteHeader` | Pulsus/FFmpeg/FFmpegHelper.cs:187 | the header is written only after the format, and it is recorded |
| `Encoder.EncoderContext.WriteFrame` | Pulsus/FFmpeg/FFmpegHelper.cs:188 | frames are written only after the header, and each is recorded |
| `Encoder.EncoderContext.Dispose` | Pulsus/FFmpeg/FFmpegHelper.cs:184-189 | leaving the `using` block releases the context and keeps what it recorded |
| `DotNetText.TrimStart` | Pulsus/FFmpeg/FFmpegHelper.cs:37 | the result is a suffix of the input, only white space was removed, and it does not start with white space |
| `DotNetText.TrimEnd` | Pulsus/FFmpeg/FFmpegHelper.cs:37 | the result is a prefix of the input, only white space was removed, and it does not end with white space |
| `DotNetText.Trim` | Pulsus/FFmpeg/FFmpegHelper.cs:37 | the trimmed line is the message with a white-space prefix and a white-space suffix cut off, a contiguous slice of it and nothing else; it neither starts nor ends with white space |
| `DotNetText.TrimIdempotent` | Pulsus/FFmpeg/FFmpegHelper.cs:37 | trimming a trimmed line changes nothing |
| `DotNetText.IsWhiteSpace` | Pulsus/FFmpeg/FFmpegHelper.cs:37 | defines the characters `Trim` removes: `Char.IsWhiteSpace`, U+0009..U+000D, U+0020, U+0085, U+00A0, U+1680, U+2000..U+200A, U+2028, U+2029, U+202F, U+205F, U+3000 |
| `DotNetText.IsNullOrWhiteSpace` | Pulsus/Scenes/RenderAudioScene.cs:21 | defines `String.IsNullOrWhiteSpace` on a non-null string: every character is white space |
| `DotNetText.NullOrWhiteSpaceIffTrimmedEmpty` | Pulsus/Scenes/RenderAudioScene.cs:21 | a string is null-or-white-space exactly when trimming it leaves the empty string |
| `DotNetText.IsPathRooted` | Pulsus/FFmpeg/FFmpegHelper.cs:18 | defines the rooted paths `Path.Combine` restarts at: a leading '\' or '/', or ':' as the second character |
| `DotNetText.Combine` | Pulsus/FFmpeg/FFmpegHelper.cs:18 | an empty second part gives the first part; a rooted second part, or an empty first part, gives the second part itself; otherwise the two parts are joined by exactly one '\', or by nothing when the first part already ends in a separator |
| `DotNetText.CombineNested` | Pulsus/FFmpeg/FFmpegHelper.cs:18 | combining a base that does not end in a separator with two plain names joins the three with single '\' separators |
| `DotNetText.ExtensionDot` | Pulsus/Scenes/RenderAudioScene.cs:21 | finds the last '.' after the last separator, or reports that the file name has no '.' |
| `DotNetText.GetExtension` | Pulsus/Scenes/RenderAudioScene.cs:21 | the extension is empty, or it is a suffix of the path of at least two characters that starts with its only '.' and contains no separator |
| `DotNetText.ExtensionOfFileName` | Pulsus/Scenes/RenderAudioScene.cs:21-22 | a path ending in "." + ext, where ext has no '.' and no separator, has exactly the extension "." + ext |
| `RenderAudioScene.WithDefaultExtension` | Pulsus/Scenes/RenderAudioScene.cs:21-22 | ".wav" is appended exactly when the path has an empty or white-space extension; otherwise the path is unchanged; the result always has an extension |
| `RenderAudioScene.DefaultExtensionIdempotent` | Pulsus/Scenes/RenderAudioScene.cs:21-22 | defaulting the extension twice equals defaulting it once |
| `RenderAudioScene.Player.constructor` | Pulsus/Scenes/RenderAudioScene.cs:29-30 | a new player is of the given kind, not on autoplay, not started, not playing |
| `RenderAudioScene.Player.StartPlayer` | Pulsus/Scenes/RenderAudioScene.cs:37-38 | a started player is playing and keeps its mode flags |
| `RenderAudioScene.Player.Update` | Pulsus/Scenes/RenderAudioScene.cs:40-41 | an update records its time step and keeps the mode flags; `playing` afterwards is left open |
| `RenderAudioScene.RenderAudioScene.constructor` | Pulsus/Scenes/RenderAudioScene.cs:13-52 | the scene is inactive. Without a song nothing else happens. With a song: both players are non-realtime, only the game player is on autoplay, and each is started and updated once by 1.0. The render fails exactly when a player is still playing. A file is written exactly when the render succeeded and the mix is non-empty: to the defaulted path, as `SaveSound` of the mix, `Length / 4` samples and the mixer's rate |

## Left out

- `FFmpegHelper.Init` (FFmpegHelper.cs:45-77): it only sets an environment variable, loads native libraries, keeps the log delegate alive and registers it. All of that is process state and foreign calls.
- `ImageFromFile` and the FFmpeg context internals are not modelled: `Read`, `SelectStream`, `ConvertToFormat`, `ReadFrame`, `GetFrameBufferSize`, `GetFrameData` and the write methods wrap native FFmpeg code that is not part of this model. The read side is an abstract `FrameSource`, which holds the estimate and the frames. `ReadFrame` is "another frame remains". `GetFrameBufferSize` is the frame's length.
- Decode.GetFrameData: assumed to copy exactly the current frame at the offset, return its size and keep the array it was given. The C# method receives the array by `ref` and could in principle replace it.
- FFmpegHelper.SoundFromFileResample: the converter is the parameter `openConverted`. Given the request, it returns what the opened and converted stream delivers. Resampling itself is not modelled.
- `SelectStream` failing for a file without an audio stream is not modelled, and neither are failures to open a file or write a frame. The actual decoding, resampling and PNG encoding happen inside FFmpeg.
- FFmpegHelper.ResampleQuality: the enum is declared outside the files modelled here. It is given the members Low, Medium and High, with High as the default, as the signature at FFmpegHelper.cs:137 shows.
- The exception messages of the two switches are not modelled. The errors carry the unmapped value instead of the formatted text.
- The `(int)` casts in the decode loop: the decoded total fitting in an `int` is a precondition (`TotalSize(...) <= INT32_MAX`), not modelled wrap-around.
- FFmpegHelper.FFmpegHelperState.Log: only the `fmt` string the callback receives is modelled, as in the source. The variadic arguments are never expanded. A null `fmt` is not modelled.
- DotNetText: the .NET Framework rules on Windows are modelled, with separators '\', '/' and ':'. Rejection of invalid path characters by `Path.GetExtension` and `Path.Combine` is not modelled. Null strings are not modelled, so `renderPath` is never null.
- RenderAudioScene.Player: `BGM`, `Player`, `Song` and the mixer's `RenderAudio` are declared outside the files modelled here. Each player keeps only its mode flags, `started`, `playing` and the time steps it was given. What `Update` does to `playing` is a nondeterministic choice, and the mix is an input of `AudioMixer`. The constructors of `BGM` and `Player` are not part of this model: a new player is assumed to be off autoplay, not started and not playing; `StartPlayer` (whose source is not part of this model either) is assumed to set `playing`; and its initial `realtime` value is left unstated because the scene always overwrites it.
- `song.Load()`, `song.GenerateEvents()` and the loading of the chart's sound objects (RenderAudioScene.cs:19, 24-27) are calls into code that is not part of this model.
- RenderAudioScene.RenderAudioScene.constructor: the C# constructor throws `ApplicationException` when a player is still playing. A Dafny constructor cannot throw, so the scene records `error == Some(PlayersDidNotFinish)`, and nothing is saved afterwards.
- `Dispose`, `Draw` and `Update` of the scene only release resources or do nothing.
- Settings.cs (configuration defaults and key bindings) and SoundEvent.cs (a pulse and a sound reference) hold no behaviour to model.
- The constructor calls `Update(1.0f)` once on each player and then reads `playing`; there is no tick loop that advances the players until they finish.
- The decode buffer grows to exactly `offset + frameSize` and is never trimmed, so an over-estimate leaves zero bytes at the end of the returned sound.
