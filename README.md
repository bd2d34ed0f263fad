# Offline music player — verified model of the playback core

This project models the playback bookkeeping of the offline music player:

- the real-time engine (`core/rt_audio_engine.py`): a decoded track, an input cursor,
  a time-stretcher fed in blocks, an output queue of blocks with a frame counter, the
  playing/paused flags, and the device callback that drains the queue into the output
  buffer;
- the player controller (`controllers/player_controller.py`): the UI state record,
  input clamping, and the mirroring of the engine's flags into the record;
- the offline renderer (`core/audio_processor.py`): a render cache keyed by clamped
  effects, invalidated by `load_source`, and the preview window in milliseconds;
- the simple backend (`core/audio_engine.py`): position as offset plus elapsed time,
  the pause/unpause guards and the seek clamp;
- the pure helpers of the main window (`ui/main_window.py`): `mm:ss` formatting, the
  playback badge, bind-tag installation over the widget tree, the nudge clamps, the
  remaining time and the space-bar filter.

Files:

| file | module |
|---|---|
| `common.dfy` | `Common`: `Option`, `Result`, min/max, `Clamp` (Python's `max(lo, min(hi, x))`), `Trunc` (Python's `int()` of a float) |
| `out_queue.dfy` | `OutQueue`: the output queue as values (`Total`, `Flatten`, `Drop`) and its lemmas |
| `stretcher.dfy` | `Stretch`: the stretcher as an abstract block processor |
| `rt_engine.dfy` | `RtEngine`: class `RealTimeAudioEngine` |
| `controller.dfy` | `Controller`: `UIState`, class `PlayerController` over the real-time engine |
| `processor.dfy` | `Processor`: class `AudioProcessor` |
| `simple_engine.dfy` | `SimpleEngine`: class `AudioEngine` with an injected clock |
| `main_window.dfy` | `MainWindow`: the window's pure helpers and the two nudge operations |

Modelling choices:

- A frame is an abstract `real` that stands for a whole multi-channel frame.
  - Volume scaling is the product `Gain(x, v)`.
  - Silence is `0.0`.
  - Frame counts are exact integers.
- The stretcher is a class with an oracle `synth`. The oracle maps the current ratios, all the input fed since the last rebuild and the new block to the output that block yields.
  - `Available()` is the number of frames produced and not yet retrieved.
  - `Retrieve(n)` hands out the oldest `n` of them.
- Each locked method is one atomic step.
- The top-up loop of `_ensure_outq_locked` also exists on values: `Fill` holds the loop's state, `FillRound` runs one round and `FillLoop` runs the whole loop. `TopUp`, `EnsureOutq` and `Callback` state that the object ends in the state `FillLoop` computes from its state on entry (`ToppedUp`).
- `Valid()` of the engine is the consistency invariant. Every operation preserves it:
  - the counter equals the total length of the queued blocks;
  - no queued block is empty;
  - `paused` implies `playing`;
  - the cursor lies within the track;
  - the stretcher has been fed exactly the audio between the cursor at its last rebuild and the current cursor.
- Device, tool and decoder outcomes are parameters of type `Result`, `StreamOutcome` or `ToolRun`. An exception becomes `Err(message)`, and the state at that point is kept as the source leaves it.
- The ghost `toolLog` of `AudioProcessor` records every invocation of the external tool, and so gives the invocation count.
- The monotonic clock of `AudioEngine` is a `now` parameter. A position query requires `now` to be no earlier than the last start, which a monotonic clock guarantees.

Playback ends during the top-up: `_playing` is cleared as soon as the input is exhausted and the stretcher has nothing available (`core/rt_audio_engine.py:338-348`). The callback in which this happens still copies out the frames already queued, up to one buffer. Later callbacks are silent until `play` sets `_playing` again. `play` does not clear the queue (`core/rt_audio_engine.py:124-131`), so the engine's next callback first plays the frames left over, before the top-up ends playback again. Only through the controller are those frames never played, because its `play` seeks first, and the seek empties the queue (`controllers/player_controller.py:52-62`). `RealTimeAudioEngine.Round` states when playback ends, and `Callback` states that the drain starts from the queue exactly as the top-up (`ToppedUp`) left it.

The controller is modelled over `RealTimeAudioEngine`, the engine type its constructor is annotated with (`controllers/player_controller.py:24`). `main.py` passes it an `AudioEngine` instead. That class has no `set_tempo` or `set_pitch_semitones`, so with that engine `load` would raise `AttributeError` when it resets the effects.

When the decode step of `load_source` fails, the source has already recorded the new path and cleared the cache. It also keeps the previously decoded file, so a later `render` stretches the previous track. `AudioProcessor.LoadSource` states exactly this.

## Model

| member | source | states |
|---|---|---|
| OutQueue.FlattenAppend | core/rt_audio_engine.py:318-323 | appending a block puts its frames after the queued ones and adds its length to the total |
| OutQueue.DropFlatten | core/rt_audio_engine.py:379-392 | consuming `n` frames from the front leaves exactly the frames after the first `min(n, total)`, in order, and lowers the total by that amount |
| OutQueue.DropFront | core/rt_audio_engine.py:385-388 | a fully used front block is popped; a partly used one is replaced by its unconsumed suffix, still in front |
| OutQueue.DropNoEmpty | core/rt_audio_engine.py:385-388 | consuming frames never leaves an empty block in the queue |
| OutQueue.DropDrop | core/rt_audio_engine.py:379-392 | consuming `a` frames and then `b` is consuming `a + b`, so the rounds of the copy loop compose |
| Stretch.Stretcher.Process | core/rt_audio_engine.py:354-357 | the block joins the input fed since the rebuild and its output joins the pending frames |
| Stretch.Stretcher.Retrieve | core/rt_audio_engine.py:339-341 | hands out `min(n, pending)` frames, oldest first; those handed out and those still pending make up what was pending |
| RtEngine.Rows | core/rt_audio_engine.py:66-69 | the trailing samples that do not fill a frame are dropped; every complete frame is kept, in order, with `channels` samples |
| RtEngine.DecodeTail | core/rt_audio_engine.py:62-70 | fails with "ffmpeg produced no audio samples." exactly when the decoder output is empty; otherwise yields the frames of `Rows` |
| RtEngine.Duration | core/rt_audio_engine.py:114 | duration times the sample rate equals the number of frames; 0 when the rate is not positive |
| RtEngine.SeekFrame | core/rt_audio_engine.py:155-157 | the seek cursor lies within the track; 0 for a non-positive position |
| RtEngine.SeekFrameAccuracy | core/rt_audio_engine.py:151-161 | with a positive rate the cursor is the frame at or less than one frame before the requested position clamped to [0, duration] |
| RtEngine.TimeRatio | core/rt_audio_engine.py:172-173 | for any tempo the engine keeps, the time ratio is its reciprocal |
| RtEngine.RealTimeAudioEngine.constructor | core/rt_audio_engine.py:74-100 | no track, no stream, no stretcher, both flags false, cursor 0, empty queue, tempo 1, pitch 0, volume 1 |
| RtEngine.RealTimeAudioEngine.ClearOutq | core/rt_audio_engine.py:224-226 | the queue is empty and its counter 0 |
| RtEngine.RealTimeAudioEngine.BuildStretcher | core/rt_audio_engine.py:239-276 | a fresh stretcher with nothing fed or pending, at the current time ratio and pitch |
| RtEngine.RealTimeAudioEngine.Load | core/rt_audio_engine.py:103-122 | a decode failure changes nothing; otherwise the track, rate and channels are installed with the duration, and cursor 0, empty queue, fresh stretcher and both flags false |
| RtEngine.RealTimeAudioEngine.Play | core/rt_audio_engine.py:124-131 | a no-op without audio; a stream that cannot be created or started raises with the flags unchanged; otherwise playing and not paused |
| RtEngine.RealTimeAudioEngine.Pause | core/rt_audio_engine.py:133-136 | `paused` becomes true only while playing, otherwise stays |
| RtEngine.RealTimeAudioEngine.Unpause | core/rt_audio_engine.py:138-141 | `paused` becomes false only while playing, otherwise stays |
| RtEngine.RealTimeAudioEngine.Stop | core/rt_audio_engine.py:143-149 | both flags false, cursor 0, empty queue, fresh stretcher; the invariant holds |
| RtEngine.RealTimeAudioEngine.Seek | core/rt_audio_engine.py:151-161 | a no-op without audio; otherwise cursor `SeekFrame(p, sr, len)`, empty queue, fresh stretcher, and the flags are outside its frame |
| RtEngine.RealTimeAudioEngine.SetPitchSemitones | core/rt_audio_engine.py:163-167 | the pitch is stored unclamped and reaches a built stretcher |
| RtEngine.RealTimeAudioEngine.SetTempo | core/rt_audio_engine.py:169-173 | the tempo is clamped to [0.25, 4] and a built stretcher's time ratio is its reciprocal |
| RtEngine.RealTimeAudioEngine.SetVolume | core/rt_audio_engine.py:175-177 | the volume is clamped to [0, 1] |
| RtEngine.RealTimeAudioEngine.GetPosS | core/rt_audio_engine.py:195-199 | position times rate equals the cursor; never negative, never past the duration; 0 when the rate is not positive |
| RtEngine.RealTimeAudioEngine.Shutdown | core/rt_audio_engine.py:201-214 | both flags false and the stream closed |
| RtEngine.RealTimeAudioEngine.AppendOut | core/rt_audio_engine.py:318-323 | an empty block leaves queue and counter unchanged; otherwise the block is queued last and the counter grows by its length |
| RtEngine.RealTimeAudioEngine.RetrieveAvailable | core/rt_audio_engine.py:359-364 | everything available is retrieved and queued after the queued frames, in order; the counter invariant holds |
| RtEngine.RealTimeAudioEngine.FeedBlock | core/rt_audio_engine.py:350-364 | the cursor advances by the block length; the stretcher is fed exactly those frames; everything it then holds, earlier pending output first and then the block's output, is queued in order and nothing stays pending |
| RtEngine.RealTimeAudioEngine.Round | core/rt_audio_engine.py:335-364 | with input left, the next `min(blocksize, remaining)` frames are fed, so the cursor reaches `min(cursor + blocksize, len)`; the pending and new output is queued in order and nothing stays pending; playback ends exactly when neither input nor stretcher output remains, otherwise the flags are untouched |
| RtEngine.RealTimeAudioEngine.TopUp | core/rt_audio_engine.py:332-364 | the cursor, the frames fed to the stretcher, what stays pending, the queued count, the number of rounds, the frames moved and the end of playback are exactly those of `FillLoop`, the loop of the source run on values from the state on entry: no round when the queue already holds the target, one round ending playback when nothing is left to play, otherwise rounds until the target, the limit of 24 or the end of playback; the frames moved are appended to the queue in order, and the flags are cleared exactly when playback ended |
| RtEngine.FillRound | core/rt_audio_engine.py:335-364 | one round of the loop on values: the cursor moves as `Cursor` does by one block, nothing stays pending, the round ends playback exactly when input and stretcher are exhausted, and the frames it moves are those it adds to the queued count, after the ones moved before |
| RtEngine.FillLoop | core/rt_audio_engine.py:332-364 | the `while` of `_ensure_outq_locked` on values: `FillRound` repeated while playback has not ended, the queued count is below the target and fewer than 24 rounds ran; the cursor only moves forward within the track and the rounds only grow, up to the limit of 24 (`FillLoopStops` states where it stops and that the frames moved are appended and counted) |
| RtEngine.FillLoopStops | core/rt_audio_engine.py:332-348 | the loop stops at the target, at the limit of 24 rounds or when a round ended playback, and only there; it runs no round when the target is already met; ending playback takes a round that found input and stretcher exhausted with the target not met; every frame moved is counted in the queue |
| RtEngine.RealTimeAudioEngine.Step | core/rt_audio_engine.py:335-364 | one round of `TopUp` on the object is `FillRound` on its state; it ends playback exactly when input and stretcher were exhausted, and the frames it moves are queued after the earlier ones |
| RtEngine.CursorClosedForm | core/rt_audio_engine.py:332-351 | after `k` rounds from `p` the cursor is `min(p + k * blocksize, len)` for a positive block size and stays at `p` otherwise; it never leaves `[p, len]` |
| RtEngine.RealTimeAudioEngine.EnsureOutq | core/rt_audio_engine.py:325-364 | nothing changes without audio or stretcher; otherwise exactly the top-up of `TopUp` (that is, of `FillLoop`) towards `frames_needed + 2 * blocksize`, after which the cursor is `min(cursor + rounds * blocksize, len)` |
| RtEngine.RealTimeAudioEngine.TakeFront | core/rt_audio_engine.py:380-392 | copies `min(need, front block)` scaled frames from the queue's front to the output at the write index and nothing else; the rest of the queue is what remains after them |
| RtEngine.RealTimeAudioEngine.DrainOutq | core/rt_audio_engine.py:375-392 | exactly `min(frames, queued)` frames are written, in FIFO order and scaled by the volume; the rest of the output is zero; the queue loses exactly those frames, keeping the invariant |
| RtEngine.RealTimeAudioEngine.Callback | core/rt_audio_engine.py:366-392 | silence with the engine untouched unless playing, unpaused, loaded and with a stretcher; otherwise the top-up towards `frames + 2 * blocksize` is exactly that of `FillLoop` (`ToppedUp`: rounds, cursor, pending, frames moved, queued count, end of playback, no round when the queue is full, one when nothing is left), the moved frames follow the queued ones, and then `min(frames, queued)` frames are copied, scaled, from the topped-up queue in order, the rest is zero and the queue loses exactly those frames |
| RtEngine.RealTimeAudioEngine.Serve | core/rt_audio_engine.py:373-392 | the active part of the callback: the top-up of `EnsureOutq` as `FillLoop` runs it, then the drain of `DrainOutq` from the topped-up queue |
| Controller.InitialState | controllers/player_controller.py:6-21 | the record of a fresh controller: "No file loaded", nothing loaded or playing, tempo 1, pitch 0 |
| Controller.Basename | controllers/player_controller.py:35 | the title is the suffix of the path after its last separator, without separators |
| Controller.SeekTarget | controllers/player_controller.py:89-93 | the seek position lies in [0, duration] when the duration is positive, in [0, ∞) otherwise, and is the request when that is in range |
| Controller.VolumeLevel | controllers/player_controller.py:109-115 | the forwarded volume lies in [0, 1] and is the request when that is in range |
| Controller.PlayerController.constructor | controllers/player_controller.py:24-29 | the default record and no path |
| Controller.PlayerController.Sync | controllers/player_controller.py:132-134 | the record's flags are the engine's, nothing else changes |
| Controller.PlayerController.Load | controllers/player_controller.py:31-50 | a decode failure propagates with the record, the path, the engine and its stretcher unchanged; otherwise title, duration, position 0, loaded, both flags false, tempo 1 and pitch 0 on the record and the engine, no effects message |
| Controller.PlayerController.Play | controllers/player_controller.py:52-62 | a no-op unless loaded, with the engine and its stretcher untouched; a playing paused engine is only unpaused, with cursor, queue, stream and stretcher untouched; otherwise the engine seeks to the record's position (cursor `SeekFrame`, empty queue, rebuilt stretcher) and plays, and a stream failure propagates with the engine's flags and the record as they were; on success the record's flags mirror the engine's |
| Controller.PlayerController.PauseToggle | controllers/player_controller.py:64-75 | a no-op unless loaded and the engine plays; otherwise the engine's paused flag flips and the record mirrors it |
| Controller.PlayerController.Stop | controllers/player_controller.py:77-83 | a no-op unless loaded; otherwise the engine stops with cursor 0, an empty queue and a fresh stretcher, and the record shows position 0 and cleared flags |
| Controller.PlayerController.Seek | controllers/player_controller.py:85-97 | a no-op unless loaded; the clamped position goes both to the engine's cursor and to the record; the queue is emptied and the stretcher rebuilt; the flags stay |
| Controller.PlayerController.SetTempo | controllers/player_controller.py:99-102 | clamped to [0.5, 2]; the record and the engine hold the same value; only the stretcher's parameters may change, so its fed and pending frames stay |
| Controller.PlayerController.SetSemitones | controllers/player_controller.py:104-107 | clamped to [-12, 12]; the record and the engine hold the same value; only the stretcher's parameters may change, so its fed and pending frames stay |
| Controller.PlayerController.SetVolume | controllers/player_controller.py:109-115 | the engine's volume is the request kept in [0, 1] |
| Controller.PlayerController.Tick | controllers/player_controller.py:117-127 | a no-op unless loaded; the record's position is the engine's, clamped to [0, duration] when the duration is positive, and the flags mirror the engine's |
| Controller.PlayerController.Shutdown | controllers/player_controller.py:129-130 | the engine halts and closes its stream |
| Processor.Clamped | core/audio_processor.py:51-54 | tempo in [0.25, 4] and semitones in [-24, 24], an in-range setting unchanged and an out-of-range value replaced by the nearest bound |
| Processor.FailureMessage | core/audio_processor.py:69-71 | the error text is the tool's error output, or a fixed non-empty text when there is none |
| Processor.PreviewWindow | core/audio_processor.py:90-91 | start and end are the whole milliseconds of the non-negative start and of start plus a length of at least one second; the window lasts at least 1000 ms |
| Processor.PreviewWholeSeconds | core/audio_processor.py:90-91 | a length of a whole number of seconds, at least one, gives a window of exactly that many thousand milliseconds |
| Processor.DefaultPreviewSpan | core/audio_processor.py:78-91 | a preview of the default length of 10 s cuts exactly 10000 ms |
| Processor.AudioProcessor.constructor | core/audio_processor.py:23-30 | no source, no decoded file, empty cache, no tool invocation |
| Processor.AudioProcessor.LoadSource | core/audio_processor.py:32-48 | the path is recorded and the cache emptied; a successful decode installs the decoded file, a failed one propagates and keeps the previous file |
| Processor.AudioProcessor.Render | core/audio_processor.py:50-76 | a cached clamped setting is answered without a tool run; otherwise without a decoded source it raises with cache unchanged; otherwise exactly one tool run, a failure raises and caches nothing, a success is cached under the clamped setting |
| Processor.AudioProcessor.RenderTwice | core/audio_processor.py:56-58 | of two renders of one setting, when the first succeeds the second returns the same file and the tool ran at most once |
| Processor.AudioProcessor.RenderPreview | core/audio_processor.py:78-101 | raises without a source; otherwise one tool run on `PreviewWindow` of the source; the cache is outside its frame |
| SimpleEngine.SeekClamp | core/audio_engine.py:79-80 | non-negative; at most a positive duration; a duration of zero bounds only below; the request when in range |
| SimpleEngine.AudioEngine.constructor | core/audio_engine.py:14-22 | no track, both flags false, offset and start 0 |
| SimpleEngine.AudioEngine.GetPosS | core/audio_engine.py:105-110 | the offset unless playing and unpaused, then the offset plus the time since the last start; never before the offset |
| SimpleEngine.GetPosMonotone | core/audio_engine.py:105-110 | with a monotone clock the position never goes backwards |
| SimpleEngine.AudioEngine.Load | core/audio_engine.py:24-33 | the new track, both flags false, offset and start 0 |
| SimpleEngine.AudioEngine.Play | core/audio_engine.py:35-52 | a no-op without a track; the start is the request or the stored offset, at least 0 (0 when the mixer cannot seek); the clock restarts; playing and not paused |
| SimpleEngine.AudioEngine.Pause | core/audio_engine.py:54-59 | a no-op unless playing and unpaused; otherwise the offset freezes at the current position and paused is set |
| SimpleEngine.AudioEngine.Unpause | core/audio_engine.py:61-66 | a no-op unless playing and paused; otherwise the clock restarts and the position resumes from the frozen offset |
| SimpleEngine.AudioEngine.Stop | core/audio_engine.py:68-73 | both flags false, offset and start 0 |
| SimpleEngine.AudioEngine.Seek | core/audio_engine.py:75-88 | a no-op without a track; the flags are kept; a stopped engine holds the clamped position; a playing one restarts at it (at 0 when the mixer cannot seek) with the clock read at `now1`; a paused one is paused again with the clock read at `now2`, so its frozen offset is that start plus `now2 - now1`; at `now2` the position is that start plus the time between the readings, or the clamped position when stopped |
| MainWindow.Digits | ui/main_window.py:495 | decimal digits, one exactly for numbers below 10, no leading zero for a positive number, "0" for zero |
| MainWindow.ParseDigits | ui/main_window.py:495 | reading the digits back yields the number |
| MainWindow.DigitsUnique | ui/main_window.py:495 | every digit string without a leading zero is `Digits` of its value, so `Digits` is the canonical decimal text |
| MainWindow.Pad2 | ui/main_window.py:495 | `{:02d}`: the digits of the number when it has two or more of them, otherwise "0" and its one digit; they read back as the number |
| MainWindow.Pad2Unique | ui/main_window.py:495 | every digit string of at least two characters with a leading zero only at width two is `Pad2` of its value, so `{:02d}` has exactly one text per number |
| MainWindow.FmtTime | ui/main_window.py:491-495 | minutes, a colon, seconds; anything below one second, negatives included, is "00:00" |
| MainWindow.FmtTimeRoundTrip | ui/main_window.py:491-495 | the two fields read back as minutes and seconds below 60 of the truncated non-negative seconds, are all digits, and are each written exactly as `{:02d}` writes the value read back, the minutes with a leading zero only at width two; with `Pad2Unique` this pins the minutes field for any count of minutes |
| MainWindow.Remaining | ui/main_window.py:639 | never negative; with the position before the end, position plus remaining is the duration |
| MainWindow.PlaybackBadge | ui/main_window.py:713-730 | "Stopped" exactly when not loaded, "Playing" exactly when playing and unpaused, "Paused" exactly when playing and paused, "Ready" otherwise, with their styles and button captions |
| MainWindow.NudgedTempo | ui/main_window.py:659-661 | the nudged tempo stays in [0.5, 2] |
| MainWindow.NudgedPitch | ui/main_window.py:670-672 | the nudged pitch stays in [-12, 12] |
| MainWindow.NudgeTempoInverse | ui/main_window.py:655-664 | nudges up and down cancel away from the bounds; a nudge past a bound changes nothing |
| MainWindow.NudgePitchInverse | ui/main_window.py:666-675 | nudges up and down cancel away from the bounds; a nudge past a bound changes nothing |
| MainWindow.NudgeTempo | ui/main_window.py:655-664 | a no-op, on the record, the engine and its stretcher, unless loaded; otherwise the record and the engine hold the nudged tempo, and only the stretcher's parameters may change |
| MainWindow.NudgePitch | ui/main_window.py:666-675 | a no-op, on the record, the engine and its stretcher, unless loaded; otherwise the record and the engine hold the nudged pitch, and only the stretcher's parameters may change |
| MainWindow.OnSpace | ui/main_window.py:469-475 | the event passes through exactly when the focused widget is a text-entry widget; otherwise playback toggles and the event stops |
| MainWindow.InsertTag | ui/main_window.py:461-464 | a present tag leaves the list alone; otherwise it is inserted second (last in a list of at most one) with the other tags around it unchanged |
| MainWindow.InsertTagKeepsOthers | ui/main_window.py:461-464 | the other tags keep their relative order |
| MainWindow.Install | ui/main_window.py:455-467 | a widget whose tags cannot be read is left alone with its subtree; otherwise its list gets the tag and every child is processed |
| MainWindow.InstallTags | ui/main_window.py:455-467 | afterwards every widget reached carries the tag |
| MainWindow.InstallIdempotent | ui/main_window.py:455-467 | installing twice is installing once |

## Left out

- Audio device I/O: creating, starting, stopping and closing the output stream are reduced to `streamOpen` and the `StreamOutcome` parameter. The error log written by the callback is not part of this model.
- The callback's exception handler is not modelled (zero-fill and log). The modelled callback body cannot fail.
- RubberBand internals, the probing for method names and the channel transposition are left out. The stretcher is the `synth` oracle, and retrieval always returns what it asked for.
- `SetPitchSemitones`: the pitch is recorded as the semitone value, not as the scale `2^(s/12)`, because floating-point powers are not modelled.
- Decoding (ffmpeg and soundfile) and the ffmpeg discovery are left out. The decoder is a `Result<Decoded>` parameter; only the frame truncation at its end (`DecodeTail`) is modelled.
- The external tool and pydub of `AudioProcessor` are left out. A render's outcome is a `ToolRun` parameter, a preview's outcomes are `Result` parameters, and file names are the abstract `renderPath` and `previewPath`.
- Locks and concurrency: each locked method is one atomic step.
- Floating-point arithmetic: frames, volumes, ratios and positions are exact reals, and the infinities and NaN of Python floats do not occur.
- `AudioEngine` mixer calls, `set_volume`, `is_busy`, `shutdown`, the duration lookup and cover-art extraction are left out. A mixer that rejects a start position is the `mixerSeeks` flag.
- `SimpleEngine.AudioEngine.GetPosS` requires a clock reading no earlier than the last start. This is the guarantee of a monotonic clock, which the model does not produce itself.
- `Basename`: only `/` separates path components, as in POSIX `os.path.basename`. On Windows that function also splits at `\` and after a drive prefix, which is not modelled.
- The cover bytes of `UIState` and `_extract_cover_bytes` are left out.
- All Tk and PIL widget construction, styling, layout and geometry are left out. The widget tree is a value (`Widget`), so aliasing between widgets is not captured.
- The window calls `toggle_play_pause`, `skip`, `reset_tempo`, `reset_pitch` and `state.volume` of the controller, and the controller shown does not define them. `_play_pause`, `_skip` and the reset buttons are therefore not modelled; `OnSpace` stops at the decision to toggle.
- `main.py` only wires objects together and is not part of this model.
