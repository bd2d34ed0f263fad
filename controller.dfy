/** The player controller of controllers/player_controller.py: the UI-facing
    state record and the operations that forward user intent to the real-time
    engine, clamp it, and mirror the engine's flags back into the record. */
module Controller {

  import opened Common
  import opened OutQueue
  import opened RtEngine

  /** `UIState`, without the cover-art bytes. */
  datatype UIState = UIState(
    title: string,
    durationS: real,
    posS: real,
    isLoaded: bool,
    isPlaying: bool,
    isPaused: bool,
    tempo: real,
    semitones: real,
    isApplyingFx: bool,
    fxMessage: string)

  /** The record a fresh controller starts from. */
  function InitialState(): (s: UIState)
    ensures s.title == "No file loaded" && !s.isLoaded && !s.isPlaying && !s.isPaused
    ensures s.durationS == 0.0 && s.posS == 0.0 && s.tempo == 1.0 && s.semitones == 0.0
    ensures !s.isApplyingFx && s.fxMessage == ""
  {
    UIState("No file loaded", 0.0, 0.0, false, false, false, 1.0, 0.0, false, "")
  }

  /** Index just past the last '/' in `p[..n]`, or 0 when there is none. */
  function LastSlashEnd(p: string, n: nat): (k: nat)
    requires n <= |p|
    ensures k <= n
    ensures forall i :: k <= i < n ==> p[i] != '/'
    ensures k > 0 ==> p[k - 1] == '/'
  {
    if n == 0 then 0
    else if p[n - 1] == '/' then n
    else LastSlashEnd(p, n - 1)
  }

  /** `os.path.basename` with '/' as the separator: the text after the last
      separator, the whole path when it has none. */
  function Basename(p: string): (b: string)
    ensures |b| <= |p| && b == p[|p| - |b|..]
    ensures forall i :: 0 <= i < |b| ==> b[i] != '/'
    ensures |b| < |p| ==> p[|p| - |b| - 1] == '/'
  {
    p[LastSlashEnd(p, |p|)..]
  }

  /** The position `seek` keeps: within [0, duration] when the duration is
      known, otherwise only non-negative. */
  function SeekTarget(posS: real, durationS: real): (p: real)
    ensures p >= 0.0
    ensures durationS > 0.0 ==> p <= durationS
    ensures durationS > 0.0 && 0.0 <= posS <= durationS ==> p == posS
    ensures durationS <= 0.0 && posS >= 0.0 ==> p == posS
    ensures posS < 0.0 ==> p == 0.0
  {
    if durationS > 0.0 then MaxReal(0.0, MinReal(posS, durationS))
    else MaxReal(0.0, posS)
  }

  /** The volume `set_volume` forwards. */
  function VolumeLevel(v: real): (r: real)
    ensures 0.0 <= r <= 1.0
    ensures 0.0 <= v <= 1.0 ==> r == v
    ensures v < 0.0 ==> r == 0.0
    ensures v > 1.0 ==> r == 1.0
  {
    if v < 0.0 then 0.0 else if v > 1.0 then 1.0 else v
  }

  /** `set_volume`'s explicit branches agree with the clamp used elsewhere. */
  lemma VolumeLevelIsClamp(v: real)
    ensures VolumeLevel(v) == Clamp(0.0, 1.0, v)
  {
  }

  class PlayerController {
    const engine: RealTimeAudioEngine
    var state: UIState
    var path: Option<string>

    /** The engine is consistent, and a loaded record means loaded audio. */
    ghost predicate Valid()
      reads this, engine, engine.st
    {
      && engine.Valid()
      && (state.isLoaded ==> engine.audio.Some?)
      && 0.5 <= state.tempo <= 2.0
      && -12.0 <= state.semitones <= 12.0
    }

    constructor (engine: RealTimeAudioEngine)
      requires engine.Valid()
      ensures Valid()
      ensures this.engine == engine && state == InitialState() && path.None?
    {
      this.engine := engine;
      state := InitialState();
      path := None;
    }

    /** `_sync`: the record's flags mirror the engine's. */
    method Sync()
      modifies this`state
      ensures state == old(state).(isPlaying := engine.playing, isPaused := engine.paused)
    {
      state := state.(isPlaying := engine.playing, isPaused := engine.paused);
    }

    /** `load`: a decode failure propagates and nothing changes; otherwise the
        record describes the new track from its start, with neutral tempo and
        pitch on both the record and the engine. */
    method Load(p: string, decoded: Result<Decoded>) returns (r: Result<()>)
      requires Valid()
      modifies this`state, this`path, engine`audio, engine`sr, engine`ch, engine`track
      modifies engine`playing, engine`paused, engine`inPos, engine`outq, engine`outqFrames
      modifies engine`hasStretcher, engine`feedStart, engine`tempo, engine`pitchSemitones, engine.st
      ensures Valid()
      ensures decoded.Err? ==>
        && r == Err(decoded.msg) && state == old(state) && path == old(path)
        && unchanged(engine) && unchanged(engine.st)
      ensures decoded.Ok? ==>
        && r == Ok(())
        && path == Some(p)
        && state.title == Basename(p)
        && state.durationS == Duration(|decoded.value.frames|, decoded.value.sampleRate)
        && state.posS == 0.0 && state.isLoaded && !state.isPlaying && !state.isPaused
        && state.tempo == 1.0 && state.semitones == 0.0
        && !state.isApplyingFx && state.fxMessage == ""
        && engine.tempo == 1.0 && engine.pitchSemitones == 0.0
        && engine.audio == Some(decoded.value.frames) && engine.inPos == 0
        && !engine.playing && !engine.paused
    {
      var t := engine.Load(p, decoded);
      if t.Err? {
        assert unchanged(this) && unchanged(engine) && unchanged(engine.st);
        assert Valid();
        return Err(t.msg);
      }
      var track := t.value;
      path := Some(p);
      state := state.(title := Basename(track.path), durationS := track.durationS, posS := 0.0,
                      isLoaded := true, isPlaying := false, isPaused := false);
      NeutralEffects();
      state := state.(isApplyingFx := false, fxMessage := "");
      r := Ok(());
    }

    /** Tempo 1 and no pitch shift, on the record and on the engine. */
    method NeutralEffects()
      requires engine.Valid() && (state.isLoaded ==> engine.audio.Some?)
      modifies this`state, engine`tempo, engine`pitchSemitones, engine.st`params
      ensures Valid()
      ensures state == old(state).(tempo := 1.0, semitones := 0.0)
      ensures engine.tempo == 1.0 && engine.pitchSemitones == 0.0
      ensures engine.audio == old(engine.audio) && engine.inPos == old(engine.inPos)
      ensures engine.playing == old(engine.playing) && engine.paused == old(engine.paused)
    {
      state := state.(tempo := 1.0, semitones := 0.0);
      engine.SetTempo(1.0);
      engine.SetPitchSemitones(0.0);
    }

    /** `play`: a no-op unless loaded; a paused engine is only resumed,
        otherwise the engine seeks to the record's position and plays. A stream
        failure propagates before the flags are mirrored. */
    method Play(device: StreamOutcome) returns (r: Result<()>)
      requires Valid()
      modifies this`state, engine`inPos, engine`outq, engine`outqFrames, engine`hasStretcher
      modifies engine`feedStart, engine`streamOpen, engine`playing, engine`paused, engine.st
      ensures Valid()
      ensures !old(state.isLoaded) ==> r == Ok(()) && state == old(state) && unchanged(engine) && unchanged(engine.st)
      ensures old(state.isLoaded) && old(engine.playing && engine.paused) ==>
                && r == Ok(()) && engine.inPos == old(engine.inPos)
                && engine.playing && !engine.paused
                && engine.outq == old(engine.outq) && engine.streamOpen == old(engine.streamOpen)
                && unchanged(engine.st)
      ensures old(state.isLoaded) && !old(engine.playing && engine.paused) ==>
                Restarted(old(state.posS), device, r)
      ensures old(state.isLoaded) && r.Ok? ==>
                state == old(state).(isPlaying := engine.playing, isPaused := engine.paused)
      ensures r.Err? ==> state == old(state)
    {
      if !state.isLoaded {
        return Ok(());
      }
      if engine.playing && engine.paused {
        engine.Unpause();
      } else {
        r := Restart(device);
        if r.Err? {
          return;
        }
      }
      Sync();
      r := Ok(());
    }

    /** What `play` does when not resuming: the engine's cursor is at the
        position `posS` asks for, its queue is empty, its stretcher rebuilt,
        and it plays unless the stream could not be opened, in which case the
        flags are as they were. */
    twostate predicate Restarted(posS: real, device: StreamOutcome, new r: Result<()>)
      reads engine, engine.st
    {
      && engine.audio.Some?
      && engine.inPos == SeekFrame(posS, engine.sr, |engine.audio.value|)
      && engine.outq == [] && engine.st.fed == [] && engine.st.pending == []
      && (r.Ok? <==> old(engine.streamOpen) || device.Opens?)
      && (r.Ok? ==> engine.playing && !engine.paused)
      && (r.Err? ==> engine.playing == old(engine.playing) && engine.paused == old(engine.paused))
    }

    /** The non-resuming branch of `play`: seek to the record's position, then play. */
    method Restart(device: StreamOutcome) returns (r: Result<()>)
      requires Valid() && state.isLoaded
      modifies engine`inPos, engine`outq, engine`outqFrames, engine`hasStretcher
      modifies engine`feedStart, engine`streamOpen, engine`playing, engine`paused, engine.st
      ensures Valid()
      ensures Restarted(state.posS, device, r)
    {
      engine.Seek(state.posS);
      r := engine.Play(device);
    }

    /** `pause_toggle`: only for a loaded, playing engine, whose paused flag
        flips; the record then mirrors the engine. */
    method PauseToggle()
      requires Valid()
      modifies this`state, engine`paused
      ensures Valid()
      ensures !old(state.isLoaded) || !engine.playing ==> state == old(state) && engine.paused == old(engine.paused)
      ensures old(state.isLoaded) && engine.playing ==>
                && engine.paused == !old(engine.paused)
                && state == old(state).(isPlaying := true, isPaused := engine.paused)
    {
      if !state.isLoaded {
        return;
      }
      if !engine.playing {
        return;
      }
      if engine.paused {
        engine.Unpause();
      } else {
        engine.Pause();
      }
      Sync();
    }

    /** `stop`: for a loaded player, the engine stops and rewinds and the
        record shows position 0 and cleared flags. */
    method Stop()
      requires Valid()
      modifies this`state, engine`playing, engine`paused, engine`inPos, engine`outq, engine`outqFrames
      modifies engine`hasStretcher, engine`feedStart, engine.st
      ensures Valid()
      ensures !old(state.isLoaded) ==> state == old(state) && unchanged(engine) && unchanged(engine.st)
      ensures old(state.isLoaded) ==>
                && state == old(state).(posS := 0.0, isPlaying := false, isPaused := false)
                && engine.inPos == 0 && !engine.playing && !engine.paused
                && engine.outq == [] && engine.st.fed == [] && engine.st.pending == []
    {
      if !state.isLoaded {
        return;
      }
      engine.Stop();
      state := state.(posS := 0.0);
      Sync();
    }

    /** `seek`: for a loaded player, the position is clamped (see `SeekTarget`)
        and the same value goes to the engine and to the record. */
    method Seek(posS: real)
      requires Valid()
      modifies this`state, engine`inPos, engine`outq, engine`outqFrames, engine`hasStretcher
      modifies engine`feedStart, engine.st
      ensures Valid()
      ensures !old(state.isLoaded) ==> state == old(state) && unchanged(engine) && unchanged(engine.st)
      ensures old(state.isLoaded) ==>
                var p := SeekTarget(posS, old(state.durationS));
                && state == old(state).(posS := p, isPlaying := engine.playing, isPaused := engine.paused)
                && engine.inPos == SeekFrame(p, engine.sr, |engine.audio.value|)
                && engine.playing == old(engine.playing) && engine.paused == old(engine.paused)
                && engine.outq == [] && engine.st.fed == [] && engine.st.pending == []
    {
      if !state.isLoaded {
        return;
      }
      var p := SeekTarget(posS, state.durationS);
      engine.Seek(p);
      state := state.(posS := p);
      Sync();
    }

    /** `set_tempo`: clamped to [0.5, 2.0]; the record and the engine get the
        same value. */
    method SetTempo(t: real)
      requires Valid()
      modifies this`state, engine`tempo, engine.st`params
      ensures Valid()
      ensures state == old(state).(tempo := Clamp(0.5, 2.0, t))
      ensures engine.tempo == state.tempo
    {
      var c := Clamp(0.5, 2.0, t);
      state := state.(tempo := c);
      engine.SetTempo(c);
    }

    /** `set_semitones`: clamped to [-12, 12]; the record and the engine get
        the same value. */
    method SetSemitones(s: real)
      requires Valid()
      modifies this`state, engine`pitchSemitones, engine.st`params
      ensures Valid()
      ensures state == old(state).(semitones := Clamp(-12.0, 12.0, s))
      ensures engine.pitchSemitones == state.semitones
    {
      var c := Clamp(-12.0, 12.0, s);
      state := state.(semitones := c);
      engine.SetPitchSemitones(c);
    }

    /** `set_volume`: the engine gets a level in [0, 1]. */
    method SetVolume(v: real)
      requires Valid()
      modifies engine`volume
      ensures Valid()
      ensures engine.volume == VolumeLevel(v)
    {
      engine.SetVolume(VolumeLevel(v));
    }

    /** `tick`: for a loaded player, the record shows the engine's position,
        clamped to [0, duration] when the duration is known, and its flags. */
    method Tick()
      requires Valid()
      modifies this`state
      ensures Valid()
      ensures !old(state.isLoaded) ==> state == old(state)
      ensures old(state.isLoaded) ==>
                var pos := engine.GetPosS();
                var d := old(state.durationS);
                state == old(state).(posS := if d > 0.0 then MaxReal(0.0, MinReal(pos, d)) else pos,
                                     isPlaying := engine.playing, isPaused := engine.paused)
    {
      if !state.isLoaded {
        return;
      }
      var pos := engine.GetPosS();
      var dur := state.durationS;
      if dur > 0.0 {
        pos := MaxReal(0.0, MinReal(pos, dur));
      }
      state := state.(posS := pos);
      Sync();
    }

    /** `shutdown`: the engine halts and closes its stream. */
    method Shutdown()
      requires Valid()
      modifies engine`playing, engine`paused, engine`streamOpen
      ensures Valid()
      ensures !engine.playing && !engine.paused && !engine.streamOpen
    {
      engine.Shutdown();
    }
  }
}
