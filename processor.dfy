/** The offline renderer of core/audio_processor.py: full-track renders through
    an external time-stretch tool, cached per clamped effect setting and
    invalidated when a new source is loaded, and short previews of a window of
    the source. The tool is an abstract call whose outcome is a parameter; every
    invocation is recorded in a ghost log. */
module Processor {

  import opened Common

  /** The effect setting a render is made for. */
  datatype Effects = Effects(tempo: real, semitones: real)

  /** The only tempo and pitch values a render is ever made for. */
  predicate InRange(e: Effects)
  {
    0.25 <= e.tempo <= 4.0 && -24.0 <= e.semitones <= 24.0
  }

  /** The clamping `render` and `render_preview` apply before anything else:
      tempo into [0.25, 4] and semitones into [-24, 24], each nearest bound
      replacing an out-of-range value. */
  function Clamped(e: Effects): (c: Effects)
    ensures InRange(c)
    ensures InRange(e) ==> c == e
    ensures e.tempo < 0.25 ==> c.tempo == 0.25
    ensures e.tempo > 4.0 ==> c.tempo == 4.0
    ensures e.semitones < -24.0 ==> c.semitones == -24.0
    ensures e.semitones > 24.0 ==> c.semitones == 24.0
  {
    Effects(Clamp(0.25, 4.0, e.tempo), Clamp(-24.0, 24.0, e.semitones))
  }

  /** Clamping twice is clamping once, so a clamped key is its own key. */
  lemma ClampedIdempotent(e: Effects)
    ensures Clamped(Clamped(e)) == Clamped(e)
  {
  }

  /** What one run of the external tool does. */
  datatype ToolRun = Succeeds | Fails(stderr: string)

  /** The message `render` raises for a failed run: the tool's error output,
      or a fixed text when it printed none. */
  function FailureMessage(stderr: string): (m: string)
    ensures m != []
    ensures stderr != [] ==> m == stderr
  {
    if stderr != [] then stderr else "rubberband failed"
  }

  /** One recorded invocation of the external tool. */
  datatype ToolCall =
    | Full(effects: Effects, input: string)
    | Preview(effects: Effects, source: string, startMs: int, endMs: int)

  /** The default preview length, in seconds. */
  const DefaultPreviewLengthS: real := 10.0

  /** The window, in milliseconds, that `render_preview` cuts from the
      source: it starts at the whole milliseconds of the (non-negative) start
      and lasts at least a second. */
  function PreviewWindow(startS: real, lengthS: real): (w: (int, int))
    ensures 0 <= w.0 <= w.1
    ensures w.1 >= w.0 + 1000
    ensures w.0 as real <= MaxReal(0.0, startS) * 1000.0 < w.0 as real + 1.0
    ensures w.1 as real <= (MaxReal(0.0, startS) + MaxReal(1.0, lengthS)) * 1000.0 < w.1 as real + 1.0
    ensures startS <= 0.0 ==> w.0 == 0
  {
    var s := MaxReal(0.0, startS);
    (Trunc(s * 1000.0), Trunc((s + MaxReal(1.0, lengthS)) * 1000.0))
  }

  /** A whole number of seconds, of at least one, is cut exactly: the window
      lasts that many thousand milliseconds wherever it starts. */
  lemma PreviewWholeSeconds(startS: real, n: nat)
    requires n >= 1
    ensures PreviewWindow(startS, n as real).1 == PreviewWindow(startS, n as real).0 + n * 1000
  {
  }

  /** A preview of the default length covers ten seconds of the source. */
  lemma DefaultPreviewSpan(startS: real)
    ensures PreviewWindow(startS, DefaultPreviewLengthS).1 == PreviewWindow(startS, DefaultPreviewLengthS).0 + 10000
  {
    PreviewWholeSeconds(startS, 10);
  }

  class AudioProcessor {
    /** Where the render for a setting is written (the formatted name under
        the temporary directory). */
    const renderPath: Effects -> string
    /** Where the preview for a setting is written. */
    const previewPath: Effects -> string
    /** Where the decoded source is written. */
    const decodedPath: string

    var srcPath: Option<string>
    var cache: map<Effects, string>
    var decodedWav: Option<string>
    /** Every invocation of the external tool, oldest first. */
    ghost var toolLog: seq<ToolCall>

    /** Every cached entry is for a clamped setting and names the file the
        render for that setting was written to. */
    ghost predicate Valid()
      reads this
    {
      forall e :: e in cache ==> InRange(e) && cache[e] == renderPath(e)
    }

    constructor (renderPath: Effects -> string, previewPath: Effects -> string, decodedPath: string)
      ensures Valid()
      ensures this.renderPath == renderPath && this.previewPath == previewPath
      ensures this.decodedPath == decodedPath
      ensures srcPath.None? && cache == map[] && decodedWav.None? && toolLog == []
    {
      this.renderPath := renderPath;
      this.previewPath := previewPath;
      this.decodedPath := decodedPath;
      srcPath := None;
      cache := map[];
      decodedWav := None;
      toolLog := [];
    }

    /** `load_source`: the new path is recorded and the cache emptied before
        decoding; a decode failure then propagates and leaves the previous
        decoded file in place, while a successful decode replaces it. */
    method LoadSource(path: string, decode: Result<()>) returns (r: Result<()>)
      requires Valid()
      modifies this`srcPath, this`cache, this`decodedWav
      ensures Valid()
      ensures srcPath == Some(path) && cache == map[]
      ensures decode.Err? ==> r == Err(decode.msg) && decodedWav == old(decodedWav)
      ensures decode.Ok? ==> r == Ok(()) && decodedWav == Some(decodedPath)
    {
      srcPath := Some(path);
      cache := map[];
      if decode.Err? {
        return Err(decode.msg);
      }
      decodedWav := Some(decodedPath);
      r := Ok(());
    }

    /** `render`: a cached setting is answered from the cache without running
        the tool; otherwise a decoded source is needed; a failed run raises and
        caches nothing, a successful one is cached under the clamped setting. */
    method Render(e: Effects, run: ToolRun) returns (r: Result<string>)
      requires Valid()
      modifies this`cache, this`toolLog
      ensures Valid()
      ensures Clamped(e) in old(cache) ==>
                r == Ok(old(cache)[Clamped(e)]) && cache == old(cache) && toolLog == old(toolLog)
      ensures Clamped(e) !in old(cache) && decodedWav.None? ==>
                && r == Err("AudioProcessor: no source loaded/decoded.")
                && cache == old(cache) && toolLog == old(toolLog)
      ensures Clamped(e) !in old(cache) && decodedWav.Some? ==>
                toolLog == old(toolLog) + [Full(Clamped(e), decodedWav.value)]
      ensures Clamped(e) !in old(cache) && decodedWav.Some? && run.Fails? ==>
                r == Err(FailureMessage(run.stderr)) && cache == old(cache)
      ensures Clamped(e) !in old(cache) && decodedWav.Some? && run.Succeeds? ==>
                r == Ok(renderPath(Clamped(e))) && cache == old(cache)[Clamped(e) := renderPath(Clamped(e))]
      ensures r.Ok? ==> r.value == renderPath(Clamped(e)) && Clamped(e) in cache
    {
      var k := Clamped(e);
      if k in cache {
        return Ok(cache[k]);
      }
      if decodedWav.None? {
        return Err("AudioProcessor: no source loaded/decoded.");
      }
      var out := renderPath(k);
      toolLog := toolLog + [Full(k, decodedWav.value)];
      if run.Fails? {
        return Err(FailureMessage(run.stderr));
      }
      cache := cache[k := out];
      r := Ok(out);
    }

    /** Two renders of the same setting, with whatever tool outcomes, run the
        tool at most once when the first succeeds, and answer the same file. */
    method RenderTwice(e: Effects, first: ToolRun, second: ToolRun) returns (r1: Result<string>, r2: Result<string>)
      requires Valid()
      modifies this`cache, this`toolLog
      ensures Valid()
      ensures r1.Ok? ==> r2 == r1 && |toolLog| <= |old(toolLog)| + 1
    {
      r1 := Render(e, first);
      r2 := Render(e, second);
    }

    /** `render_preview`: raises when no source was ever loaded; otherwise the
        source is decoded (a failure propagates) and the tool runs on the
        millisecond window of it (a failure propagates too). The cache is
        neither read nor written. */
    method RenderPreview(e: Effects, startS: real, lengthS: real, decode: Result<()>, run: Result<()>)
      returns (r: Result<string>)
      modifies this`toolLog
      ensures srcPath.None? ==> r == Err("AudioProcessor: no source loaded.") && toolLog == old(toolLog)
      ensures srcPath.Some? && decode.Err? ==> r == Err(decode.msg) && toolLog == old(toolLog)
      ensures srcPath.Some? && decode.Ok? ==>
                var w := PreviewWindow(startS, lengthS);
                toolLog == old(toolLog) + [Preview(Clamped(e), srcPath.value, w.0, w.1)]
      ensures srcPath.Some? && decode.Ok? && run.Err? ==> r == Err(run.msg)
      ensures srcPath.Some? && decode.Ok? && run.Ok? ==> r == Ok(previewPath(Clamped(e)))
    {
      var k := Clamped(e);
      if srcPath.None? {
        return Err("AudioProcessor: no source loaded.");
      }
      if decode.Err? {
        return Err(decode.msg);
      }
      var w := PreviewWindow(startS, lengthS);
      toolLog := toolLog + [Preview(k, srcPath.value, w.0, w.1)];
      if run.Err? {
        return Err(run.msg);
      }
      r := Ok(previewPath(k));
    }
  }
}
