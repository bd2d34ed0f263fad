/** The simple playback backend of core/audio_engine.py. The mixer plays the
    file by itself, so the engine only keeps the bookkeeping: a track, the two
    flags, and the position as an offset plus the time elapsed since the last
    (re)start. The monotonic clock is a `now` parameter; whether the mixer
    accepts a start position is the `mixerSeeks` parameter. */
module SimpleEngine {

  import opened Common

  datatype SimpleTrack = SimpleTrack(path: string, durationS: real)

  /** The position `seek` keeps: a known duration bounds it, a duration of
      zero means unknown and only the lower bound 0 applies. */
  function SeekClamp(posS: real, durationS: real): (p: real)
    ensures p >= 0.0
    ensures durationS > 0.0 ==> p <= durationS
    ensures durationS > 0.0 && 0.0 <= posS <= durationS ==> p == posS
    ensures durationS == 0.0 && posS >= 0.0 ==> p == posS
    ensures posS < 0.0 || durationS < 0.0 ==> p == 0.0
  {
    if durationS != 0.0 then MaxReal(0.0, MinReal(posS, durationS)) else MaxReal(0.0, posS)
  }

  class AudioEngine {
    var track: Option<SimpleTrack>
    var isPlaying: bool
    var isPaused: bool
    var offsetS: real
    var startMono: real

    ghost predicate Valid()
      reads this
    {
      && (isPaused ==> isPlaying)
      && (track.None? ==> !isPlaying)
      && offsetS >= 0.0
    }

    constructor ()
      ensures Valid()
      ensures track.None? && !isPlaying && !isPaused && offsetS == 0.0 && startMono == 0.0
    {
      track := None;
      isPlaying, isPaused := false, false;
      offsetS, startMono := 0.0, 0.0;
    }

    /** The clock reading is needed only while the position advances; the
        clock is monotone, so it is then no earlier than the last start. */
    ghost predicate ClockOk(now: real)
      reads this
    {
      isPlaying && !isPaused ==> now >= startMono
    }

    /** `get_pos_s`: frozen at the offset unless playing and not paused, then
        the offset plus the time since the last start; never before the offset. */
    function GetPosS(now: real): (p: real)
      requires ClockOk(now)
      reads this
      ensures p >= offsetS
      ensures !isPlaying || isPaused ==> p == offsetS
      ensures isPlaying && !isPaused ==> p - offsetS == now - startMono
    {
      if !isPlaying then offsetS
      else if isPaused then offsetS
      else offsetS + (now - startMono)
    }

    /** `load`: a new track, stopped at position 0. */
    method Load(path: string, durationS: real) returns (t: SimpleTrack)
      modifies this
      ensures Valid()
      ensures t == SimpleTrack(path, durationS) && track == Some(t)
      ensures !isPlaying && !isPaused && offsetS == 0.0 && startMono == 0.0
    {
      t := SimpleTrack(path, durationS);
      track := Some(t);
      isPlaying, isPaused := false, false;
      offsetS, startMono := 0.0, 0.0;
    }

    /** `play`: a no-op without a track. Otherwise it starts from `startS`, or
        from the stored offset when none is given, never below 0; a mixer that
        cannot start at a position restarts from 0. The clock restarts now. */
    method Play(startS: Option<real>, mixerSeeks: bool, now: real)
      requires Valid()
      modifies this`offsetS, this`startMono, this`isPlaying, this`isPaused
      ensures Valid()
      ensures track.None? ==> unchanged(this)
      ensures track.Some? ==>
                var s := MaxReal(0.0, if startS.Some? then startS.value else old(offsetS));
                && offsetS == (if mixerSeeks then s else 0.0)
                && startMono == now && isPlaying && !isPaused
                && GetPosS(now) == offsetS
    {
      if track.None? {
        return;
      }
      var s := if startS.Some? then startS.value else offsetS;
      s := MaxReal(0.0, s);
      if mixerSeeks {
        offsetS := s;
      } else {
        offsetS := 0.0;
      }
      startMono := now;
      isPlaying, isPaused := true, false;
    }

    /** `pause`: only while playing and not paused; the offset freezes at the
        current position. */
    method Pause(now: real)
      requires Valid() && ClockOk(now)
      modifies this`offsetS, this`isPaused
      ensures Valid()
      ensures !old(isPlaying) || old(isPaused) ==> unchanged(this)
      ensures old(isPlaying) && !old(isPaused) ==>
                offsetS == old(GetPosS(now)) && isPaused && GetPosS(now) == old(GetPosS(now))
    {
      if !isPlaying || isPaused {
        return;
      }
      offsetS := GetPosS(now);
      isPaused := true;
    }

    /** `unpause`: only while playing and paused; the clock restarts now, so
        the position resumes from the frozen offset. */
    method Unpause(now: real)
      requires Valid()
      modifies this`startMono, this`isPaused
      ensures Valid()
      ensures !old(isPlaying) || !old(isPaused) ==> unchanged(this)
      ensures old(isPlaying) && old(isPaused) ==>
                startMono == now && !isPaused && GetPosS(now) == old(GetPosS(now))
    {
      if !isPlaying || !isPaused {
        return;
      }
      startMono := now;
      isPaused := false;
    }

    /** `stop`: both flags cleared and the position back to 0. */
    method Stop()
      requires Valid()
      modifies this`offsetS, this`startMono, this`isPlaying, this`isPaused
      ensures Valid()
      ensures !isPlaying && !isPaused && offsetS == 0.0 && startMono == 0.0
      ensures GetPosS(0.0) == 0.0
    {
      isPlaying, isPaused := false, false;
      offsetS, startMono := 0.0, 0.0;
    }

    /** `seek`: a no-op without a track. The clamped position becomes the
        offset; a playing engine restarts there (from 0 when the mixer cannot
        seek), reading the clock at `now1`, and a paused one is then paused
        again, which reads the clock a second time at `now2`: the offset it
        freezes includes the time between the two readings. */
    method Seek(posS: real, mixerSeeks: bool, now1: real, now2: real)
      requires Valid() && now1 <= now2
      modifies this`offsetS, this`startMono, this`isPlaying, this`isPaused
      ensures Valid()
      ensures track.None? ==> unchanged(this)
      ensures track.Some? ==>
                var p := SeekClamp(posS, track.value.durationS);
                var start := if mixerSeeks then p else 0.0;
                && isPlaying == old(isPlaying) && isPaused == old(isPaused)
                && (!isPlaying ==> offsetS == p && startMono == old(startMono))
                && (isPlaying ==> startMono == now1)
                && (isPlaying && !isPaused ==> offsetS == start)
                && (isPlaying && isPaused ==> offsetS == start + (now2 - now1))
                && ClockOk(now2)
                && (isPlaying ==> GetPosS(now2) == start + (now2 - now1))
                && (!isPlaying ==> GetPosS(now2) == p)
    {
      if track.None? {
        return;
      }
      var p := SeekClamp(posS, track.value.durationS);
      offsetS := p;
      if isPlaying {
        var wasPaused := isPaused;
        Play(Some(p), mixerSeeks, now1);
        if wasPaused {
          Pause(now2);
        }
      }
    }
  }

  /** With a monotone clock the position never goes backwards between two
      readings of the same state. */
  lemma GetPosMonotone(e: AudioEngine, now1: real, now2: real)
    requires e.ClockOk(now1) && now1 <= now2
    ensures e.ClockOk(now2)
    ensures e.GetPosS(now1) <= e.GetPosS(now2)
  {
  }
}
