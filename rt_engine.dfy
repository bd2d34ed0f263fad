/** The real-time playback session of core/rt_audio_engine.py: the decoded
    track, the input cursor, the stretcher, the output queue and the
    playing/paused flags, driven by the device callback. Each locked method is
    one atomic step. */
module RtEngine {

  import opened Common
  import opened OutQueue
  import opened Stretch

  const SafetyIters := 24

  datatype TrackInfo = TrackInfo(path: string, durationS: real, sampleRate: int, channels: int)

  /** What the decoder hands to `load`: the frames, their rate and channel count. */
  datatype Decoded = Decoded(frames: seq<Frame>, sampleRate: int, channels: int)

  /** The cursor, stretcher and flags a top-up starts from. */
  datatype Start = Start(audio: Option<seq<Frame>>, inPos: int, pending: seq<Frame>,
                         retrieved: seq<Frame>, playing: bool, paused: bool)

  /** How opening the output stream goes: it opens and starts, the stream object
      cannot be created, or it is created but fails to start. */
  datatype StreamOutcome = Opens | CreateFails(msg: string) | StartFails(msg: string)

  lemma MulSuccInt(k: int, c: int)
    ensures (k + 1) * c == k * c + c
  {
  }

  /** What `iters` rounds of the top-up, with block size `b`, did between the
      state `s` and the state `h`: the cursor stands where `iters` rounds take
      it (see `Cursor`); after a round nothing is left pending; `got` is
      everything retrieved, in order; either playback `ended` in the last
      round with input and stretcher exhausted, or the flags are untouched. */
  ghost predicate ProgressAt(b: int, s: Start, iters: nat, got: seq<Frame>, ended: bool, h: Start)
  {
    && h.audio.Some? && h.audio == s.audio
    && iters <= SafetyIters
    && h.inPos == Cursor(s.inPos, iters, b, |h.audio.value|)
    && (iters > 0 ==> h.pending == [])
    && (iters == 0 ==> h.inPos == s.inPos && h.pending == s.pending && got == [] && !ended)
    && h.retrieved == s.retrieved + got
    && (ended ==> !h.playing && !h.paused && (h.inPos == |h.audio.value| || b <= 0))
    && (!ended ==> h.playing == s.playing && h.paused == s.paused)
  }

  /** A round from `h0` to `h1` that moved the cursor by one block, retrieved
      `more` and ended playback exactly when `exhausted` carries `ProgressAt`
      one round further. */
  lemma ProgressStep(b: int, s: Start, iters: nat, got: seq<Frame>, more: seq<Frame>, exhausted: bool,
                     h0: Start, h1: Start)
    requires ProgressAt(b, s, iters, got, false, h0) && iters < SafetyIters
    requires h1.audio == h0.audio && h1.audio.Some?
    requires h1.inPos == h0.inPos + MaxInt(0, MinInt(b, |h1.audio.value| - h0.inPos))
    requires h1.pending == [] && h1.retrieved == h0.retrieved + more
    requires exhausted ==> !h1.playing && !h1.paused && (h1.inPos == |h1.audio.value| || b <= 0)
    requires !exhausted ==> h1.playing == h0.playing && h1.paused == h0.paused
    ensures ProgressAt(b, s, iters + 1, got + more, exhausted, h1)
  {
    ConcatAssoc(s.retrieved, got, more);
  }

  /** Where the input cursor stands after `k` feeding rounds from `p` over an
      input of `len` frames: each round takes min(b, what is left) frames, and
      none when that is not positive. */
  function Cursor(p: int, k: nat, b: int, len: int): int
  {
    if k == 0 then p
    else
      var q := Cursor(p, k - 1, b, len);
      q + MaxInt(0, MinInt(b, len - q))
  }

  /** The rounds add up to `k` blocks, cut off at the end of the input; with
      no positive block size the cursor stays put. */
  lemma {:induction false} CursorClosedForm(p: int, k: nat, b: int, len: int)
    requires p <= len
    ensures b > 0 ==> Cursor(p, k, b, len) == MinInt(p + k * b, len)
    ensures b <= 0 ==> Cursor(p, k, b, len) == p
    ensures p <= Cursor(p, k, b, len) <= len
  {
    if k > 0 {
      CursorClosedForm(p, k - 1, b, len);
      MulSuccInt(k - 1, b);
    }
  }

  /** What the loop of `_ensure_outq_locked` works on: the input cursor, the
      input fed to the stretcher since its rebuild, the stretcher's pending
      output, the queued frame count, the rounds run, the frames moved to the
      queue so far, and whether playback ended. */
  datatype Fill = Fill(inPos: int, fed: seq<Frame>, pending: seq<Frame>, queued: int,
                       rounds: nat, got: seq<Frame>, ended: bool)

  /** No input is left for a round and the stretcher holds nothing. */
  predicate Exhausted(audio: seq<Frame>, b: int, f: Fill)
  {
    MinInt(b, |audio| - f.inPos) <= 0 && f.pending == []
  }

  /** One round of that loop over the track `audio` with block size `b`: with
      input left, the next block goes through `synth` and everything pending is
      queued; at the end of the input what is pending is queued; with nothing
      left at all playback ends. */
  function FillRound(synth: Synth, params: StretchParams, audio: seq<Frame>, b: int, f: Fill): (g: Fill)
    requires 0 <= f.inPos <= |audio|
    ensures 0 <= g.inPos <= |audio| && g.rounds == f.rounds + 1 && g.pending == []
    ensures g.inPos == Cursor(f.inPos, 1, b, |audio|)
    ensures g.ended <==> Exhausted(audio, b, f)
    ensures f.got <= g.got && g.queued - f.queued == |g.got| - |f.got|
  {
    var inN := MinInt(b, |audio| - f.inPos);
    if inN <= 0 then
      if f.pending != [] then
        Fill(f.inPos, f.fed, [], f.queued + |f.pending|, f.rounds + 1, f.got + f.pending, false)
      else
        Fill(f.inPos, f.fed, [], f.queued, f.rounds + 1, f.got, true)
    else
      var chunk := audio[f.inPos..f.inPos + inN];
      var out := f.pending + synth(params, f.fed, chunk);
      Fill(f.inPos + inN, f.fed + chunk, [], f.queued + |out|, f.rounds + 1, f.got + out, false)
  }

  /** A round described by its effect on the cursor, the fed input, the
      pending output, the queue and the end of playback is `FillRound`. */
  lemma RoundIsFillRound(synth: Synth, params: StretchParams, audio: seq<Frame>, b: int, f: Fill, g: Fill, more: seq<Frame>)
    requires 0 <= f.inPos <= |audio|
    requires var n := MaxInt(0, MinInt(b, |audio| - f.inPos));
             && g.inPos == f.inPos + n
             && more == f.pending + (if n > 0 then synth(params, f.fed, audio[f.inPos..g.inPos]) else [])
             && g.fed == f.fed + (if n > 0 then audio[f.inPos..g.inPos] else [])
    requires g.pending == [] && g.queued == f.queued + |more| && g.rounds == f.rounds + 1
    requires g.got == f.got + more && (g.ended <==> Exhausted(audio, b, f))
    ensures g == FillRound(synth, params, audio, b, f)
  {
  }

  /** The whole loop towards `target` queued frames: rounds while the queue is
      below the target, fewer than 24 rounds ran and playback has not ended.
      The cursor only moves forward within the track, and the rounds only grow,
      up to the limit of 24 (see `FillLoopStops` for the frames it moves). */
  function FillLoop(synth: Synth, params: StretchParams, audio: seq<Frame>, b: int, target: int, f: Fill): (r: Fill)
    requires 0 <= f.inPos <= |audio|
    ensures f.inPos <= r.inPos <= |audio| && f.rounds <= r.rounds <= MaxInt(f.rounds, SafetyIters)
    decreases SafetyIters - f.rounds
  {
    if f.ended || f.queued >= target || f.rounds >= SafetyIters then f
    else FillLoop(synth, params, audio, b, target, FillRound(synth, params, audio, b, f))
  }

  /** While the loop condition holds, the loop is one round followed by the loop. */
  lemma FillLoopUnroll(synth: Synth, params: StretchParams, audio: seq<Frame>, b: int, target: int, f: Fill)
    requires 0 <= f.inPos <= |audio| && !f.ended && f.queued < target && f.rounds < SafetyIters
    ensures FillLoop(synth, params, audio, b, target, f)
            == FillLoop(synth, params, audio, b, target, FillRound(synth, params, audio, b, f))
  {
  }

  /** The loop stops at the target, at the round limit, or right after the
      round that found the input and the stretcher exhausted, which is the only
      way it ends playback; it runs no round when the target is already met,
      and every frame it queues is counted. */
  lemma {:induction false} FillLoopStops(synth: Synth, params: StretchParams, audio: seq<Frame>, b: int, target: int, f: Fill)
    requires 0 <= f.inPos <= |audio| && f.rounds <= SafetyIters && !f.ended
    ensures var r := FillLoop(synth, params, audio, b, target, f);
            && f.rounds <= r.rounds <= SafetyIters
            && (r.ended || r.queued >= target || r.rounds == SafetyIters)
            && (f.queued >= target ==> r == f)
            && (r.ended ==> r.rounds > f.rounds && Exhausted(audio, b, r) && r.queued < target)
            && f.got <= r.got && r.queued - f.queued == |r.got| - |f.got|
    decreases SafetyIters - f.rounds
  {
    if f.queued < target && f.rounds < SafetyIters {
      var g := FillRound(synth, params, audio, b, f);
      if !g.ended {
        FillLoopStops(synth, params, audio, b, target, g);
      }
    }
  }

  /** Cut interleaved samples into frames of `channels` samples: every complete
      frame is kept in order, the fewer than `channels` trailing samples are dropped. */
  function Rows(samples: seq<real>, channels: nat): (rows: seq<seq<real>>)
    requires channels > 0
    ensures |rows| * channels <= |samples| < |rows| * channels + channels
    ensures forall i :: 0 <= i < |rows| ==> |rows[i]| == channels
    ensures Flatten(rows) == samples[..|rows| * channels]
    decreases |samples|
  {
    if |samples| < channels then []
    else
      var rest := Rows(samples[channels..], channels);
      var rows := [samples[..channels]] + rest;
      var k := |rest|;
      MulSuccInt(k, channels);
      assert rows[1..] == rest;
      var m := k * channels;
      assert samples[..channels] + samples[channels..][..m] == samples[..m + channels];
      rows
  }

  /** The tail of the ffmpeg decode path: raw samples to frames, or the error
      for empty output. */
  function DecodeTail(samples: seq<real>, targetChannels: nat): (r: Result<seq<seq<real>>>)
    requires targetChannels > 0
    ensures r.Err? <==> |samples| == 0
    ensures r.Err? ==> r.msg == "ffmpeg produced no audio samples."
    ensures r.Ok? ==>
              && |r.value| * targetChannels <= |samples| < |r.value| * targetChannels + targetChannels
              && (forall i :: 0 <= i < |r.value| ==> |r.value[i]| == targetChannels)
              && Flatten(r.value) == samples[..|r.value| * targetChannels]
  {
    if |samples| == 0 then Err("ffmpeg produced no audio samples.")
    else Ok(Rows(samples, targetChannels))
  }

  /** Track duration in seconds, 0 if the sample rate is not positive. */
  function Duration(frames: nat, sr: int): (d: real)
    ensures d >= 0.0
    ensures sr > 0 ==> d * sr as real == frames as real
    ensures sr <= 0 ==> d == 0.0
  {
    if sr > 0 then frames as real / sr as real else 0.0
  }

  /** The cursor `seek` installs: `int(max(0, p) * sr)` kept inside the track. */
  function SeekFrame(posS: real, sr: int, n: nat): (f: int)
    ensures 0 <= f <= n
    ensures posS <= 0.0 ==> f == 0
  {
    MaxInt(0, MinInt(Trunc(MaxReal(0.0, posS) * sr as real), n))
  }

  /** For a positive sample rate the cursor lands on the frame at or just below
      the requested position clamped to [0, duration]: the reported position is
      at most the clamped target and less than one frame before it. */
  lemma SeekFrameAccuracy(posS: real, sr: int, n: nat)
    requires sr > 0
    ensures var f := SeekFrame(posS, sr, n);
            var c := Clamp(0.0, Duration(n, sr), posS);
            f as real <= c * sr as real < f as real + 1.0
  {
    var s := sr as real;
    var p := MaxReal(0.0, posS);
    var d := Duration(n, sr);
    var c := Clamp(0.0, d, posS);
    var f := SeekFrame(posS, sr, n);
    assert c == MinReal(p, d);
    assert p * s >= 0.0 by {
      MulLess(-1.0, p, s);
    }
    var t := Trunc(p * s);
    assert 0 <= t && t as real <= p * s < t as real + 1.0;
    ScaledClamp(p, d, s, n, t, f, c);
  }

  lemma ScaledClamp(p: real, d: real, s: real, n: nat, t: int, f: int, c: real)
    requires s > 0.0 && p >= 0.0 && d * s == n as real
    requires 0 <= t && t as real <= p * s < t as real + 1.0
    requires f == MaxInt(0, MinInt(t, n)) && c == MinReal(p, d)
    ensures f as real <= c * s < f as real + 1.0
  {
    MulLess(p, d, s);
    if t < n {
      assert p * s < n as real;
      assert c == p;
    } else {
      assert c == d;
    }
  }

  /** `max(1e-6, tempo)` under the reciprocal, as the stretcher is configured. */
  function TimeRatio(tempo: real): (r: real)
    ensures tempo >= 0.25 ==> r * tempo == 1.0
  {
    1.0 / MaxReal(0.000001, tempo)
  }

  /** A frame scaled by the volume. */
  function Gain(x: Frame, v: real): Frame
  {
    x * v
  }

  class RealTimeAudioEngine {
    const blocksize: int
    const targetSr: int
    const targetChannels: int
    const st: Stretcher

    var track: Option<TrackInfo>
    var audio: Option<seq<Frame>>
    var sr: int
    var ch: int
    var streamOpen: bool
    var playing: bool
    var paused: bool
    var inPos: int
    /** False until a stretcher has been built (first load or stop). */
    var hasStretcher: bool
    var tempo: real
    var pitchSemitones: real
    var volume: real
    var outq: seq<Block>
    var outqFrames: int
    /** The cursor at the last stretcher rebuild. */
    ghost var feedStart: int

    /** The clamps `set_tempo` and `set_volume` keep. */
    ghost predicate Settled()
      reads this
    {
      0.25 <= tempo <= 4.0 && 0.0 <= volume <= 1.0
    }

    /** Consistency of the session: the counter matches the queue, no queued
        block is empty, `paused` implies `playing`, a built stretcher runs at the
        current ratios and has been fed exactly the audio between the cursor at
        its rebuild and the current cursor. */
    ghost predicate Valid()
      reads this, st
    {
      && Settled()
      && outqFrames == Total(outq)
      && NoEmptyBlocks(outq)
      && (paused ==> playing)
      && (hasStretcher ==> st.params == StretchParams(TimeRatio(tempo), pitchSemitones))
      && (audio.None? ==> inPos == 0 && !playing)
      && (audio.Some? ==>
            && hasStretcher
            && 0 <= feedStart <= inPos <= |audio.value|
            && st.fed == audio.value[feedStart..inPos])
    }

    constructor (blocksize: int, targetSr: int, targetChannels: int, synth: Synth)
      ensures Valid()
      ensures this.blocksize == blocksize && this.targetSr == targetSr
      ensures this.targetChannels == targetChannels && st.synth == synth
      ensures audio.None? && track.None? && sr == targetSr && ch == targetChannels
      ensures !playing && !paused && !streamOpen && !hasStretcher && inPos == 0
      ensures tempo == 1.0 && pitchSemitones == 0.0 && volume == 1.0
      ensures outq == [] && outqFrames == 0
    {
      this.blocksize := blocksize;
      this.targetSr := targetSr;
      this.targetChannels := targetChannels;
      st := new Stretcher(synth, StretchParams(1.0, 0.0));
      track, audio := None, None;
      sr, ch := targetSr, targetChannels;
      streamOpen, playing, paused := false, false, false;
      inPos := 0;
      hasStretcher := false;
      tempo, pitchSemitones, volume := 1.0, 0.0, 1.0;
      outq, outqFrames := [], 0;
      feedStart := 0;
    }

    /** `_clear_outq_locked`. */
    method ClearOutq()
      modifies this`outq, this`outqFrames
      ensures outq == [] && outqFrames == 0
    {
      outq := [];
      outqFrames := 0;
    }

    /** `_build_stretcher_locked`: a fresh stretcher at the current ratios. */
    method BuildStretcher()
      modifies this`hasStretcher, this`feedStart, st
      ensures hasStretcher && feedStart == inPos
      ensures st.params == StretchParams(TimeRatio(tempo), pitchSemitones)
      ensures st.fed == [] && st.pending == [] && st.retrieved == []
    {
      st.Reset(StretchParams(TimeRatio(tempo), pitchSemitones));
      hasStretcher := true;
      feedStart := inPos;
    }

    /** Install a decoded track and its metadata. */
    method Install(path: string, d: Decoded)
      modifies this`audio, this`sr, this`ch, this`track
      ensures audio == Some(d.frames) && sr == d.sampleRate && ch == d.channels
      ensures track == Some(TrackInfo(path, Duration(|d.frames|, d.sampleRate), d.sampleRate, d.channels))
    {
      audio := Some(d.frames);
      sr := d.sampleRate;
      ch := d.channels;
      track := Some(TrackInfo(path, Duration(|d.frames|, sr), sr, ch));
    }

    /** `load`: a decode failure raises before anything changes; otherwise the
        track is installed, and the cursor, the queue, the stretcher and both
        flags are reset exactly as `stop` resets them. */
    method Load(path: string, decoded: Result<Decoded>) returns (r: Result<TrackInfo>)
      requires Valid()
      modifies this`audio, this`sr, this`ch, this`track, this`playing, this`paused, this`inPos
      modifies this`outq, this`outqFrames, this`hasStretcher, this`feedStart, st
      ensures Valid()
      ensures decoded.Err? ==> r == Err(decoded.msg) && unchanged(this) && unchanged(st)
      ensures decoded.Ok? ==>
        var d := decoded.value;
        && audio == Some(d.frames) && sr == d.sampleRate && ch == d.channels
        && track == Some(TrackInfo(path, Duration(|d.frames|, d.sampleRate), d.sampleRate, d.channels))
        && r == Ok(track.value)
        && inPos == 0 && outq == [] && outqFrames == 0 && !playing && !paused
        && st.fed == [] && st.pending == []
    {
      if decoded.Err? {
        return Err(decoded.msg);
      }
      Install(path, decoded.value);
      Stop();
      r := Ok(track.value);
    }

    /** `play`: a no-op without audio; opens the stream if there is none (a
        failure there raises and leaves the flags alone); then playing, not paused. */
    method Play(device: StreamOutcome) returns (r: Result<()>)
      requires Valid()
      modifies this`streamOpen, this`playing, this`paused
      ensures Valid()
      ensures audio.None? ==> r == Ok(()) && unchanged(this)
      ensures audio.Some? && !old(streamOpen) && device.CreateFails? ==>
                r == Err(device.msg) && unchanged(this)
      ensures audio.Some? && !old(streamOpen) && device.StartFails? ==>
                r == Err(device.msg) && streamOpen && playing == old(playing) && paused == old(paused)
      ensures audio.Some? && (old(streamOpen) || device.Opens?) ==>
                r == Ok(()) && streamOpen && playing && !paused
    {
      if audio.None? {
        return Ok(());
      }
      if !streamOpen {
        match device
        case CreateFails(msg) =>
          return Err(msg);
        case StartFails(msg) =>
          streamOpen := true;
          return Err(msg);
        case Opens =>
          streamOpen := true;
      }
      playing := true;
      paused := false;
      r := Ok(());
    }

    /** `pause`: only while playing. */
    method Pause()
      requires Valid()
      modifies this`paused
      ensures Valid()
      ensures paused == (old(paused) || playing)
    {
      if playing {
        paused := true;
      }
    }

    /** `unpause`: only while playing. */
    method Unpause()
      requires Valid()
      modifies this`paused
      ensures Valid()
      ensures paused == (old(paused) && !playing)
    {
      if playing {
        paused := false;
      }
    }

    /** Cursor to `pos`, queue emptied, stretcher rebuilt: the common tail of
        `stop` and `seek`. */
    method Rewind(pos: int)
      requires Settled() && (paused ==> playing)
      requires audio.None? ==> pos == 0 && !playing
      requires audio.Some? ==> 0 <= pos <= |audio.value|
      modifies this`inPos, this`outq, this`outqFrames, this`hasStretcher, this`feedStart, st
      ensures Valid()
      ensures inPos == pos && outq == [] && outqFrames == 0 && hasStretcher
      ensures st.fed == [] && st.pending == [] && st.retrieved == []
    {
      inPos := pos;
      ClearOutq();
      BuildStretcher();
    }

    /** `stop`: halt, cursor to 0, empty queue, fresh stretcher. Track, stream,
        tempo, pitch and volume are outside its frame. */
    method Stop()
      requires Settled()
      modifies this`playing, this`paused, this`inPos, this`outq, this`outqFrames
      modifies this`hasStretcher, this`feedStart, st
      ensures Valid()
      ensures !playing && !paused && inPos == 0 && outq == [] && outqFrames == 0
      ensures hasStretcher && st.fed == [] && st.pending == []
    {
      playing := false;
      paused := false;
      Rewind(0);
    }

    /** `seek`: a no-op without audio; otherwise the cursor moves to the clamped
        frame, the queue is emptied and the stretcher rebuilt; the flags are
        outside its frame. */
    method Seek(posS: real)
      requires Valid()
      modifies this`inPos, this`outq, this`outqFrames, this`hasStretcher, this`feedStart, st
      ensures Valid()
      ensures audio.None? ==> unchanged(this) && unchanged(st)
      ensures audio.Some? ==>
        && inPos == SeekFrame(posS, sr, |audio.value|)
        && outq == [] && outqFrames == 0 && st.fed == [] && st.pending == []
    {
      if audio.None? {
        return;
      }
      Rewind(SeekFrame(posS, sr, |audio.value|));
    }

    /** `set_pitch_semitones`: stored unclamped and forwarded to a built stretcher. */
    method SetPitchSemitones(semitones: real)
      requires Valid()
      modifies this`pitchSemitones, st`params
      ensures Valid()
      ensures pitchSemitones == semitones
      ensures hasStretcher ==> st.params.semitones == semitones
    {
      pitchSemitones := semitones;
      if hasStretcher {
        st.SetSemitones(pitchSemitones);
      }
    }

    /** `set_tempo`: clamped to [0.25, 4.0]; the stretcher's time ratio follows. */
    method SetTempo(t: real)
      requires Valid()
      modifies this`tempo, st`params
      ensures Valid()
      ensures tempo == Clamp(0.25, 4.0, t)
      ensures hasStretcher ==> st.params.timeRatio * tempo == 1.0
    {
      tempo := Clamp(0.25, 4.0, t);
      if hasStretcher {
        st.SetTimeRatio(TimeRatio(tempo));
      }
    }

    /** `set_volume`: clamped to [0, 1]. */
    method SetVolume(v: real)
      requires Valid()
      modifies this`volume
      ensures Valid()
      ensures volume == Clamp(0.0, 1.0, v)
    {
      volume := Clamp(0.0, 1.0, v);
    }

    /** `get_pos_s`: source time consumed, from the cursor alone. */
    function GetPosS(): (p: real)
      requires Valid()
      reads this, st
      ensures p >= 0.0
      ensures sr > 0 ==> p * sr as real == inPos as real
      ensures sr > 0 && audio.Some? ==> p <= Duration(|audio.value|, sr)
    {
      if sr <= 0 then 0.0
      else
        var p := inPos as real / sr as real;
        if audio.Some? then
          MulLess(Duration(|audio.value|, sr), p, sr as real);
          p
        else p
    }

    /** `shutdown`: both flags cleared, the stream closed. */
    method Shutdown()
      requires Valid()
      modifies this`playing, this`paused, this`streamOpen
      ensures Valid()
      ensures !playing && !paused && !streamOpen
    {
      playing := false;
      paused := false;
      streamOpen := false;
    }

    /** `_append_out_locked`: an empty block is ignored. */
    method AppendOut(out: Block)
      modifies this`outq, this`outqFrames
      ensures |out| == 0 ==> outq == old(outq) && outqFrames == old(outqFrames)
      ensures |out| > 0 ==> outq == old(outq) + [out] && outqFrames == old(outqFrames) + |out|
    {
      if |out| == 0 {
        return;
      }
      outq := outq + [out];
      outqFrames := outqFrames + |out|;
    }

    /** Retrieve everything available and queue it (the retrieval step of
        `_ensure_outq_locked`); `got` is what was retrieved, in order. */
    method RetrieveAvailable() returns (ghost got: seq<Frame>)
      requires outqFrames == Total(outq) && NoEmptyBlocks(outq)
      modifies this`outq, this`outqFrames, st`pending, st`retrieved
      ensures outqFrames == Total(outq) && NoEmptyBlocks(outq)
      ensures got == old(st.pending) && st.pending == []
      ensures st.retrieved == old(st.retrieved) + got
      ensures Flatten(outq) == Flatten(old(outq)) + got
      ensures old(outq) <= outq
    {
      got := [];
      var avail := st.Available();
      if avail > 0 {
        var rbOut := st.Retrieve(avail);
        got := rbOut;
        FlattenAppend(outq, rbOut);
        AppendOut(rbOut);
      }
    }

    /** One feeding round of `_ensure_outq_locked`: the next `inN` input frames
        go to the stretcher and whatever it then has available is queued. */
    method FeedBlock(inN: int) returns (ghost got: seq<Frame>)
      requires Valid() && audio.Some? && 0 < inN <= |audio.value| - inPos
      modifies this`inPos, this`outq, this`outqFrames, st`fed, st`pending, st`retrieved
      ensures Valid()
      ensures inPos == old(inPos) + inN
      ensures got == old(st.pending) + st.synth(st.params, old(st.fed), old(audio.value[inPos..inPos + inN]))
      ensures st.fed == old(st.fed) + old(audio.value[inPos..inPos + inN])
      ensures st.pending == []
      ensures st.retrieved == old(st.retrieved) + got
      ensures Flatten(outq) == Flatten(old(outq)) + got
    {
      var frames := audio.value;
      var inChunk := frames[inPos..inPos + inN];
      assert frames[feedStart..inPos] + inChunk == frames[feedStart..inPos + inN];
      inPos := inPos + inN;
      st.Process(inChunk);
      got := RetrieveAvailable();
    }

    /** Neither the input nor the stretcher has anything left to give. */
    ghost predicate Drained()
      reads this`audio, this`inPos, st`pending
    {
      audio.Some? && MinInt(blocksize, |audio.value| - inPos) <= 0 && st.pending == []
    }

    /** The body of the `_ensure_outq_locked` loop. With input left, the next
        block of at most `blocksize` frames is fed; at the end of the input, what
        the stretcher still has is queued. When neither the input nor the
        stretcher has anything left, playback ends and `exhausted` is reported. */
    method Round() returns (exhausted: bool, ghost more: seq<Frame>)
      requires Valid() && audio.Some?
      modifies this`inPos, this`outq, this`outqFrames, this`playing, this`paused
      modifies st`fed, st`pending, st`retrieved
      ensures Valid()
      ensures var n := old(MaxInt(0, MinInt(blocksize, |audio.value| - inPos)));
              && inPos == old(inPos) + n
              && more == old(st.pending) + (if n > 0 then st.synth(st.params, old(st.fed), old(audio.value)[old(inPos)..inPos]) else [])
              && st.fed == old(st.fed) + (if n > 0 then old(audio.value)[old(inPos)..inPos] else [])
      ensures outqFrames == old(outqFrames) + |more|
      ensures blocksize > 0 ==> inPos == MinInt(old(inPos) + blocksize, |audio.value|)
      ensures st.pending == []
      ensures st.retrieved == old(st.retrieved) + more
      ensures Flatten(outq) == Flatten(old(outq)) + more
      ensures exhausted <==> old(Drained())
      ensures exhausted ==> !playing && !paused && (inPos == |audio.value| || blocksize <= 0)
      ensures !exhausted ==> playing == old(playing) && paused == old(paused)
    {
      var remaining := |audio.value| - inPos;
      var inN := MinInt(blocksize, remaining);
      if inN <= 0 {
        if st.Available() > 0 {
          more := RetrieveAvailable();
          return false, more;
        }
        playing := false;
        paused := false;
        return true, [];
      }
      more := FeedBlock(inN);
      exhausted := false;
    }

    /** The part of the state a top-up starts from that `ProgressFrom` compares with. */
    ghost function Here(): Start
      reads this`audio, this`inPos, this`playing, this`paused, st`pending, st`retrieved
    {
      Start(audio, inPos, st.pending, st.retrieved, playing, paused)
    }

    /** What `iters` rounds of the top-up did since `s` to the cursor, the
        stretcher and the flags (see `ProgressAt`). */
    ghost predicate ProgressFrom(s: Start, iters: nat, got: seq<Frame>, ended: bool)
      reads this`audio, this`inPos, this`playing, this`paused, st`pending, st`retrieved
    {
      ProgressAt(blocksize, s, iters, got, ended, Here())
    }

    /** The loop state `FillLoop` compares with. */
    ghost function Filling(queued: int, iters: nat, got: seq<Frame>, ended: bool): Fill
      reads this`inPos, st`fed, st`pending
    {
      Fill(inPos, st.fed, st.pending, queued, iters, got, ended)
    }

    /** What a top-up towards `target` frames, leaving `queued` frames queued,
        did since a state whose cursor and flags are `s`, whose loop state is
        `f0`, whose stretch parameters are `params` and which was `drained` or
        not: `ProgressFrom(s, ...)` holds for the rounds run; the cursor, the
        stretcher, the queued count, the rounds, the frames moved and the end of
        playback are those of `FillLoop` run from `f0`; no round runs when the
        target is already met, a single one ends playback when nothing is left
        to play, and unless playback ended the loop stops only at the target or
        at the round limit. The queue itself is not read, so this survives
        draining it. */
    ghost predicate ToppedUpFrom(s: Start, f0: Fill, params: StretchParams, drained: bool,
                                 target: int, queued: int, iters: nat, got: seq<Frame>, ended: bool)
      reads this`audio, this`inPos, this`playing, this`paused, st`fed, st`pending, st`retrieved
    {
      && ProgressFrom(s, iters, got, ended)
      && 0 <= f0.inPos <= |audio.value|
      && Filling(queued, iters, got, ended) == FillLoop(st.synth, params, audio.value, blocksize, target, f0)
      && (!ended ==> queued >= target || iters == SafetyIters)
      && (f0.queued >= target ==> iters == 0)
      && (f0.queued < target && drained ==> ended && iters == 1)
    }

    /** `ToppedUpFrom` the state on entry. */
    twostate predicate ToppedUp(target: int, queued: int, iters: nat, got: seq<Frame>, ended: bool)
      reads this`audio, this`inPos, this`playing, this`paused, st`fed, st`pending, st`retrieved
    {
      ToppedUpFrom(old(Here()), old(Filling(outqFrames, 0, [], false)), old(st.params), old(Drained()),
                   target, queued, iters, got, ended)
    }

    /** What a top-up towards `target` frames guarantees: the session stays
        consistent, `ToppedUp` holds for the queue as it now is, and the frames
        moved are appended to the queue in order. */
    twostate predicate Refilled(target: int, iters: nat, got: seq<Frame>, ended: bool)
      reads this, st
    {
      && Valid()
      && ToppedUp(target, outqFrames, iters, got, ended)
      && Flatten(outq) == Flatten(old(outq)) + got
    }

    /** One more round of the top-up loop, carrying `ProgressFrom(s, ...)` and
        the queue's growth from `queued` forward. */
    method Step(ghost s: Start, ghost queued: seq<Frame>, ghost iters: nat, ghost got: seq<Frame>)
      returns (exhausted: bool, ghost gotAfter: seq<Frame>)
      requires Valid() && ProgressFrom(s, iters, got, false) && iters < SafetyIters
      requires Flatten(outq) == queued + got
      modifies this`inPos, this`outq, this`outqFrames, this`playing, this`paused
      modifies st`fed, st`pending, st`retrieved
      ensures Valid() && ProgressFrom(s, iters + 1, gotAfter, exhausted)
      ensures Flatten(outq) == queued + gotAfter
      ensures exhausted <==> old(Drained())
      ensures Filling(outqFrames, iters + 1, gotAfter, exhausted)
              == FillRound(st.synth, st.params, audio.value, blocksize, old(Filling(outqFrames, iters, got, false)))
    {
      ghost var before, h := Filling(outqFrames, iters, got, false), Here();
      ghost var more;
      exhausted, more := Round();
      gotAfter := got + more;
      RoundIsFillRound(st.synth, st.params, audio.value, blocksize, before,
                       Filling(outqFrames, iters + 1, gotAfter, exhausted), more);
      ProgressStep(blocksize, s, iters, got, more, exhausted, h, Here());
      ConcatAssoc(queued, got, more);
    }

    /** The loop of `_ensure_outq_locked`: rounds until the queue holds
        `target` frames, at most 24 of them, or until the input and the
        stretcher are both exhausted (`ended`), which ends playback. */
    method TopUp(target: int) returns (ghost iters: nat, ghost got: seq<Frame>, ghost ended: bool)
      requires Valid() && audio.Some?
      modifies this`inPos, this`outq, this`outqFrames, this`playing, this`paused
      modifies st`fed, st`pending, st`retrieved
      ensures Refilled(target, iters, got, ended)
    {
      ghost var start, drained, params := Here(), Drained(), st.params;
      ghost var init := Filling(outqFrames, 0, [], false);
      got := [];
      var safetyIters, done := 0, false;
      while outqFrames < target && safetyIters < SafetyIters && !done
        invariant Valid()
        invariant ProgressFrom(start, safetyIters, got, done)
        invariant Flatten(outq) == Flatten(old(outq)) + got
        invariant st.params == params
        invariant FillLoop(st.synth, params, audio.value, blocksize, target, Filling(outqFrames, safetyIters, got, done))
                  == FillLoop(st.synth, params, audio.value, blocksize, target, init)
        invariant safetyIters == 0 ==> outqFrames == old(outqFrames)
        invariant old(outqFrames) >= target ==> safetyIters == 0
        invariant safetyIters == 0 ==> Drained() == drained
        invariant old(outqFrames) < target && drained ==> safetyIters == 0 || (done && safetyIters == 1)
        decreases SafetyIters - safetyIters
        modifies this`inPos, this`outq, this`outqFrames, this`playing, this`paused
        modifies st`fed, st`pending, st`retrieved
      {
        ghost var f := Filling(outqFrames, safetyIters, got, done);
        FillLoopUnroll(st.synth, params, audio.value, blocksize, target, f);
        done, got := Step(start, Flatten(old(outq)), safetyIters, got);
        safetyIters := safetyIters + 1;
      }
      iters, ended := safetyIters, done;
    }

    /** `_ensure_outq_locked`: without audio or stretcher nothing happens;
        otherwise the queue is topped up to `framesNeeded + 2 * blocksize` frames
        (see `TopUp`). `got` is everything moved from the stretcher to the queue. */
    method EnsureOutq(framesNeeded: int) returns (ghost iters: nat, ghost got: seq<Frame>, ghost ended: bool)
      requires Valid()
      modifies this`inPos, this`outq, this`outqFrames, this`playing, this`paused
      modifies st`fed, st`pending, st`retrieved
      ensures Valid()
      ensures audio.None? || !hasStretcher ==> unchanged(this) && unchanged(st) && iters == 0 && got == [] && !ended
      ensures audio.Some? && hasStretcher ==> Refilled(framesNeeded + blocksize * 2, iters, got, ended)
      ensures audio.Some? && hasStretcher && blocksize > 0 ==>
                inPos == MinInt(old(inPos) + iters * blocksize, |audio.value|)
      ensures audio.Some? && hasStretcher && blocksize <= 0 ==> inPos == old(inPos)
    {
      if audio.None? || !hasStretcher {
        return 0, [], false;
      }
      iters, got, ended := TopUp(framesNeeded + blocksize * 2);
      CursorClosedForm(old(inPos), iters, blocksize, |audio.value|);
    }

    /** One round of the copy loop of `_callback`: up to `need` frames of the
        front block go to `outdata` from index `at` on, scaled by `vol`; the
        block is popped when used up, otherwise its unread tail stays in front.
        Nothing else in `outdata` changes. */
    static method TakeFront(outdata: array<Frame>, at: nat, need: nat, q: seq<Block>, vol: real)
      returns (take: nat, rest: seq<Block>)
      requires NoEmptyBlocks(q) && q != [] && 0 < need && at + need <= outdata.Length
      modifies outdata
      ensures take == MinInt(need, |q[0]|) && 0 < take
      ensures rest == Drop(q, take) && NoEmptyBlocks(rest) && Total(rest) == Total(q) - take
      ensures Flatten(rest) == Flatten(q)[take..]
      ensures forall i :: at <= i < at + take ==> outdata[i] == Gain(Flatten(q)[i - at], vol)
      ensures forall i :: 0 <= i < outdata.Length && !(at <= i < at + take) ==> outdata[i] == old(outdata[i])
    {
      var chunk := q[0];
      take := MinInt(need, |chunk|);
      assert Flatten(q) == chunk + Flatten(q[1..]);
      forall i | at <= i < at + take {
        outdata[i] := Gain(chunk[i - at], vol);
      }
      DropFront(q, take);
      DropFlattenWithin(q, take);
      DropNoEmpty(q, take);
      if take == |chunk| {
        rest := q[1..];
      } else {
        rest := [chunk[take..]] + q[1..];
      }
    }

    /** The copy loop of `_callback`: take frames from the front of the queue,
        splitting the front block when only part of it is needed, scaled by the
        volume, until `outdata` is full or the queue is empty; the rest of
        `outdata` is silence. */
    method DrainOutq(outdata: array<Frame>) returns (written: nat)
      requires outqFrames == Total(outq) && NoEmptyBlocks(outq)
      modifies this`outq, this`outqFrames, outdata
      ensures written == MinInt(outdata.Length, Total(old(outq)))
      ensures outq == Drop(old(outq), written) && outqFrames == Total(outq) && NoEmptyBlocks(outq)
      ensures Flatten(outq) == Flatten(old(outq))[written..]
      ensures forall i :: 0 <= i < written ==> outdata[i] == Gain(Flatten(old(outq))[i], volume)
      ensures forall i :: written <= i < outdata.Length ==> outdata[i] == 0.0
    {
      var q, qf := outq, outqFrames;
      ghost var f0 := Flatten(q);
      var vol := volume;
      forall i | 0 <= i < outdata.Length {
        outdata[i] := 0.0;
      }
      var need := outdata.Length;
      written := 0;
      while need > 0 && qf > 0
        invariant 0 <= written <= outdata.Length && need == outdata.Length - written
        invariant written <= |f0|
        invariant q == Drop(outq, written) && qf == Total(q)
        invariant forall i :: 0 <= i < written ==> outdata[i] == Gain(f0[i], vol)
        invariant forall i :: written <= i < outdata.Length ==> outdata[i] == 0.0
        modifies outdata
        decreases need
      {
        var take;
        DropFlattenWithin(outq, written);
        DropNoEmpty(outq, written);
        DropDrop(outq, written, MinInt(need, |q[0]|));
        take, q := TakeFront(outdata, written, need, q, vol);
        qf := qf - take;
        written := written + take;
        need := need - take;
      }
      DropFlatten(outq, written);
      DropNoEmpty(outq, written);
      outq, outqFrames := q, qf;
    }

    /** `_callback`: silence unless playing, unpaused and loaded; otherwise top
        up the queue (see `EnsureOutq`) and copy min(frames, queued) frames,
        scaled by the volume, from its front in order, zero-filling the rest.
        `topped` is the queue as the top-up left it, `iters`, `got` and `ended`
        describe the top-up as in `ToppedUp`. */
    method Callback(outdata: array<Frame>)
      returns (ghost topped: seq<Block>, ghost iters: nat, ghost got: seq<Frame>, ghost ended: bool)
      requires Valid()
      modifies this`inPos, this`outq, this`outqFrames, this`playing, this`paused
      modifies st`fed, st`pending, st`retrieved, outdata
      ensures Valid()
      ensures audio == old(audio) && volume == old(volume) && tempo == old(tempo)
      ensures !old(playing) || old(paused) || old(audio).None? || !old(hasStretcher) ==>
                && (forall i :: 0 <= i < outdata.Length ==> outdata[i] == 0.0)
                && unchanged(this) && unchanged(st)
      ensures old(playing) && !old(paused) && old(audio).Some? && old(hasStretcher) ==>
                && ToppedUp(outdata.Length + blocksize * 2, Total(topped), iters, got, ended)
                && Flatten(topped) == Flatten(old(outq)) + got
      ensures old(playing) && !old(paused) && old(audio).Some? && old(hasStretcher) ==>
                var k := MinInt(outdata.Length, Total(topped));
                && (forall i :: 0 <= i < k ==> outdata[i] == Gain(Flatten(topped)[i], volume))
                && (forall i :: k <= i < outdata.Length ==> outdata[i] == 0.0)
                && outq == Drop(topped, k)
                && Flatten(outq) == Flatten(topped)[k..]
    {
      topped, iters, got, ended := outq, 0, [], false;
      if !playing || paused || audio.None? || !hasStretcher {
        forall i | 0 <= i < outdata.Length {
          outdata[i] := 0.0;
        }
        return;
      }
      topped, iters, got, ended := Serve(outdata);
    }

    /** The active half of `_callback`: top up for `outdata`, then drain into it. */
    method Serve(outdata: array<Frame>)
      returns (ghost topped: seq<Block>, ghost iters: nat, ghost got: seq<Frame>, ghost ended: bool)
      requires Valid() && audio.Some? && hasStretcher
      modifies this`inPos, this`outq, this`outqFrames, this`playing, this`paused
      modifies st`fed, st`pending, st`retrieved, outdata
      ensures Valid()
      ensures ToppedUp(outdata.Length + blocksize * 2, Total(topped), iters, got, ended)
      ensures Flatten(topped) == Flatten(old(outq)) + got
      ensures var k := MinInt(outdata.Length, Total(topped));
                && (forall i :: 0 <= i < k ==> outdata[i] == Gain(Flatten(topped)[i], volume))
                && (forall i :: k <= i < outdata.Length ==> outdata[i] == 0.0)
                && outq == Drop(topped, k)
                && Flatten(outq) == Flatten(topped)[k..]
    {
      iters, got, ended := EnsureOutq(outdata.Length);
      topped := outq;
      label topped:
      var written := DrainOutq(outdata);
      QueueOnlyChanged@topped();
    }

    /** A step that changes only the queue, and keeps its counter and its
        blocks consistent, keeps `Valid`. */
    twostate lemma QueueOnlyChanged()
      requires old(Valid())
      requires outqFrames == Total(outq) && NoEmptyBlocks(outq)
      requires unchanged(this`audio, this`inPos, this`feedStart, this`hasStretcher, this`tempo, this`volume)
      requires unchanged(this`pitchSemitones, this`playing, this`paused, st)
      ensures Valid()
    {
    }
  }
}
