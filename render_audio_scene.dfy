// RenderAudioScene (Pulsus/Scenes/RenderAudioScene.cs): renders a song to a
// sound file without playing it. Two players, the background-music player and
// an autoplaying game player, run the song in non-realtime mode; the mixed
// result is saved only when both finished and the mix is not empty.
module RenderAudioScene {
  import opened Base
  import opened DotNetText
  import opened SampleFormats
  import opened Encoder
  import FFmpegHelper

  /** The render path with ".wav" appended when it has no extension. */
  function WithDefaultExtension(renderPath: string): (r: string)
    ensures r == renderPath || r == renderPath + ".wav"
    ensures r == renderPath <==> !IsNullOrWhiteSpace(GetExtension(renderPath))
    ensures !IsNullOrWhiteSpace(GetExtension(r))
  {
    if IsNullOrWhiteSpace(GetExtension(renderPath)) then
      assert renderPath + ".wav" == renderPath + "." + "wav";
      ExtensionOfFileName(renderPath, "wav");
      assert GetExtension(renderPath + ".wav")[0] == '.';
      renderPath + ".wav"
    else
      renderPath
  }

  /** Defaulting the extension a second time changes nothing. */
  lemma DefaultExtensionIdempotent(renderPath: string)
    ensures WithDefaultExtension(WithDefaultExtension(renderPath)) == WithDefaultExtension(renderPath)
  {
  }

  /** The song being rendered; its chart, events and sound objects belong to
      the players' tick logic and are not part of this model. */
  datatype Song = Song(path: string)

  /** BGM, the song player, or Player, the game player. */
  datatype PlayerKind = BgmPlayer | GamePlayer

  /** A player reduced to the flags the scene sets and reads. What one Update
      call does to `playing` depends on the song and is left open. */
  class Player {
    const kind: PlayerKind
    var realtime: bool
    var autoplay: bool
    var playing: bool
    var started: bool
    /** The time steps passed to Update, oldest first. */
    var updates: seq<real>

    constructor (kind: PlayerKind)
      ensures this.kind == kind && !autoplay && !playing && !started && updates == []
    {
      this.kind := kind;
      realtime := true;
      autoplay := false;
      playing := false;
      started := false;
      updates := [];
    }

    method StartPlayer()
      modifies this
      ensures started && playing
      ensures realtime == old(realtime) && autoplay == old(autoplay) && updates == old(updates)
    {
      started := true;
      playing := true;
    }

    /** Advances the player; whether it is still playing afterwards is the
      outcome of its tick logic. */
    method Update(deltaTime: real)
      modifies this
      ensures updates == old(updates) + [deltaTime]
      ensures realtime == old(realtime) && autoplay == old(autoplay) && started == old(started)
    {
      var stillPlaying: bool :| true;
      playing := stillPlaying;
      updates := updates + [deltaTime];
    }
  }

  /** The game's audio mixer: the sample rate of its output and the bytes
      RenderAudio returns once the players have run. */
  class AudioMixer {
    const freq: int
    var rendered: seq<byte>

    constructor (freq: int, rendered: seq<byte>)
      ensures this.freq == freq && this.rendered == rendered
    {
      this.freq := freq;
      this.rendered := rendered;
    }
  }

  /** The ApplicationException the constructor throws. */
  datatype RenderError = PlayersDidNotFinish

  class RenderAudioScene {
    var active: bool
    var songPlayer: Player?
    var autoplay: Player?
    /** The file written by SaveSound, null when nothing was saved. */
    var output: EncoderContext?
    /** Set when the constructor throws. */
    var error: Option<RenderError>

    /** Renders `song` into `renderPath`: both players in non-realtime mode,
      only the game player on autoplay, each started and updated once by 1.0;
      a player still playing afterwards is an error and nothing is saved;
      otherwise the mix is saved when it is not empty, as `Length / 4`
      samples (stereo 16-bit frames) at the mixer's rate. Without a song the
      scene does nothing. */
    constructor (audio: AudioMixer, song: Option<Song>, renderPath: string)
      ensures !active
      ensures song.None? ==> songPlayer == null && autoplay == null && output == null && error.None?
      ensures song.Some? ==>
        && songPlayer != null && autoplay != null && songPlayer != autoplay
        && songPlayer.kind == BgmPlayer && autoplay.kind == GamePlayer
        && !songPlayer.realtime && !autoplay.realtime
        && !songPlayer.autoplay && autoplay.autoplay
        && songPlayer.started && autoplay.started
        && songPlayer.updates == [1.0] && autoplay.updates == [1.0]
        && (error.Some? <==> songPlayer.playing || autoplay.playing)
      ensures output != null <==> song.Some? && error.None? && |audio.rendered| > 0
      ensures output != null ==>
        && output.path == WithDefaultExtension(renderPath)
        && output.disposed && output.Valid()
        && output.calls == [SetAudioFormat(CodecNone, audio.freq, |audio.rendered| / 4, S16),
                            EncodeCall.WriteHeader, EncodeCall.WriteFrame(audio.rendered)]
    {
      active := false;
      songPlayer := null;
      autoplay := null;
      output := null;
      error := None;
      if song.Some? {
        var path := WithDefaultExtension(renderPath);
        var bgm := new Player(BgmPlayer);
        var game := new Player(GamePlayer);
        bgm.realtime := false;
        game.realtime := false;
        game.autoplay := true;
        bgm.StartPlayer();
        game.StartPlayer();
        bgm.Update(1.0);
        game.Update(1.0);
        songPlayer := bgm;
        autoplay := game;
        if bgm.playing || game.playing {
          error := Some(PlayersDidNotFinish);
        } else {
          var audioData := audio.rendered;
          if |audioData| > 0 {
            var file := FFmpegHelper.SaveSound(path, audioData, |audioData| / 4, audio.freq);
            output := file;
          }
        }
      }
    }
  }
}
