/** The logic of ui/main_window.py that is not widget construction: the mm:ss
    time format, the playback badge, the installation of the shortcut bind
    tag over the widget tree, the tempo and pitch nudges, the remaining time,
    and the space-bar filter. */
module MainWindow {

  import opened Common
  import opened Controller

  // ---------------------------------------------------------------- time text

  function DigitChar(d: nat): (c: char)
    requires d < 10
    ensures '0' <= c <= '9' && c as int - '0' as int == d
  {
    "0123456789"[d]
  }

  predicate IsDigit(c: char)
  {
    '0' <= c <= '9'
  }

  function DigitVal(c: char): nat
  {
    if IsDigit(c) then (c as int - '0' as int) as nat else 0
  }

  /** Decimal digits of `n`, without leading zeros ("0" for zero). */
  function Digits(n: nat): (s: string)
    ensures |s| >= 1
    ensures forall i :: 0 <= i < |s| ==> IsDigit(s[i])
    ensures n < 10 <==> |s| == 1
    ensures n > 0 ==> s[0] != '0'
    ensures n == 0 ==> s == "0"
    decreases n
  {
    if n < 10 then [DigitChar(n)] else Digits(n / 10) + [DigitChar(n % 10)]
  }

  /** The value of a string of decimal digits. */
  function ParseNat(s: string): nat
  {
    if s == [] then 0 else ParseNat(s[..|s| - 1]) * 10 + DigitVal(s[|s| - 1])
  }

  lemma {:induction false} ParseDigits(n: nat)
    ensures ParseNat(Digits(n)) == n
    decreases n
  {
    var s := Digits(n);
    if n < 10 {
      assert s[..0] == [];
    } else {
      ParseDigits(n / 10);
      assert s[..|s| - 1] == Digits(n / 10);
      assert DigitVal(s[|s| - 1]) == n % 10;
    }
  }

  /** Digits with a nonzero lead have a positive value. */
  lemma {:induction false} ParsePositive(s: string)
    requires |s| >= 1 && s[0] != '0'
    requires forall i :: 0 <= i < |s| ==> IsDigit(s[i])
    ensures ParseNat(s) > 0
    decreases |s|
  {
    if |s| == 1 {
      assert s[..0] == [];
    } else {
      ParsePositive(s[..|s| - 1]);
    }
  }

  /** `Digits` is the only decimal text without a leading zero: every such
      string is `Digits` of its own value. */
  lemma {:induction false} DigitsUnique(s: string)
    requires |s| >= 1 && (|s| > 1 ==> s[0] != '0')
    requires forall i :: 0 <= i < |s| ==> IsDigit(s[i])
    ensures Digits(ParseNat(s)) == s
    decreases |s|
  {
    var t, c := s[..|s| - 1], s[|s| - 1];
    var n := ParseNat(s);
    if |s| == 1 {
      assert t == [] && IsDigit(c);
      assert n == ParseNat(t) * 10 + DigitVal(c);
      assert n == DigitVal(c) < 10;
      assert DigitChar(n) == c;
    } else {
      DigitsUnique(t);
      ParsePositive(t);
      var m := ParseNat(t);
      assert n == m * 10 + DigitVal(c) && DigitVal(c) < 10;
      assert n / 10 == m && n % 10 == DigitVal(c);
      assert DigitChar(n % 10) == c;
      assert s == t + [c];
    }
  }

  /** A leading zero does not change the value. */
  lemma {:induction false} ParseLeadingZero(s: string)
    ensures ParseNat(['0'] + s) == ParseNat(s)
    decreases |s|
  {
    if s == [] {
      assert (['0'] + s)[..0] == [];
    } else {
      var t := ['0'] + s;
      assert t[..|t| - 1] == ['0'] + s[..|s| - 1];
      ParseLeadingZero(s[..|s| - 1]);
    }
  }

  /** `{n:02d}`: at least two digits, padded with a zero. */
  function Pad2(n: nat): (s: string)
    ensures |s| >= 2 && (n < 100 ==> |s| == 2)
    ensures forall i :: 0 <= i < |s| ==> IsDigit(s[i])
    ensures ParseNat(s) == n
    ensures n >= 10 ==> s == Digits(n)
    ensures n < 10 ==> s == "0" + Digits(n)
  {
    ParseDigits(n);
    if n < 10 then
      ParseLeadingZero(Digits(n));
      ['0'] + Digits(n)
    else
      Digits(n)
  }

  /** `Pad2` is the only decimal text of at least two digits whose lead is
      zero only at width two: every such string is `Pad2` of its own value. */
  lemma Pad2Unique(s: string)
    requires |s| >= 2 && (|s| > 2 ==> s[0] != '0')
    requires forall i :: 0 <= i < |s| ==> IsDigit(s[i])
    ensures Pad2(ParseNat(s)) == s
  {
    var n := ParseNat(s);
    if s[0] == '0' {
      var t := s[1..];
      assert s == ['0'] + t;
      ParseLeadingZero(t);
      assert t[..0] == [];
      assert n == DigitVal(t[0]) < 10;
      assert Digits(n) == [DigitChar(n)] == t;
    } else {
      DigitsUnique(s);
    }
  }

  /** `_fmt_time`: whole seconds (truncated, never negative) as minutes, a
      colon and two-digit seconds. */
  function FmtTime(seconds: real): (r: string)
    ensures |r| >= 5 && r[|r| - 3] == ':'
    ensures seconds < 1.0 ==> r == "00:00"
  {
    var n := MaxInt(0, Trunc(seconds));
    Pad2(n / 60) + ":" + Pad2(n % 60)
  }

  /** The two fields of "a:b" where `b` has two characters. */
  lemma ClockFields(a: string, b: string)
    requires |b| == 2
    requires forall i :: 0 <= i < |a| ==> IsDigit(a[i])
    requires forall i :: 0 <= i < |b| ==> IsDigit(b[i])
    ensures var r := a + ":" + b;
            && r[..|r| - 3] == a && r[|r| - 2..] == b
            && (forall i :: 0 <= i < |r| && i != |r| - 3 ==> IsDigit(r[i]))
  {
    var r := a + ":" + b;
    assert r[..|r| - 3] == a;
    assert r[|r| - 2..] == b;
    forall i | 0 <= i < |r| && i != |r| - 3
      ensures IsDigit(r[i])
    {
      if i < |a| {
        assert r[i] == a[i];
      } else {
        assert r[i] == b[i - |a| - 1];
      }
    }
  }

  /** Reading the formatted text back yields the whole seconds shown: the
      minutes field and a seconds field below 60, made only of digits; both
      fields are written as `{:02d}` writes their values, the minutes with a
      leading zero only at width two (see `Pad2Unique`). */
  lemma FmtTimeRoundTrip(seconds: real)
    ensures var r := FmtTime(seconds);
            var n := MaxInt(0, Trunc(seconds));
            var m := ParseNat(r[..|r| - 3]);
            var s := ParseNat(r[|r| - 2..]);
            && s < 60 && m * 60 + s == n
            && (forall i :: 0 <= i < |r| && i != |r| - 3 ==> IsDigit(r[i]))
            && |r| - 3 >= 2 && (|r| - 3 > 2 ==> r[0] != '0')
            && r[..|r| - 3] == Pad2(m) && r[|r| - 2..] == Pad2(s)
  {
    var n := MaxInt(0, Trunc(seconds));
    ClockFields(Pad2(n / 60), Pad2(n % 60));
  }

  /** The remaining time shown next to the position. */
  function Remaining(durationS: real, posS: real): (r: real)
    ensures r >= 0.0
    ensures posS <= durationS ==> posS + r == durationS
    ensures posS >= durationS ==> r == 0.0
  {
    MaxReal(0.0, durationS - posS)
  }

  // ------------------------------------------------------------ playback badge

  /** The badge text, its style, and the play button's caption. */
  datatype Badge = Badge(text: string, style: string, button: string)

  /** `_update_playback_state`: one of four badges, chosen by the flags of
      the record. */
  function PlaybackBadge(st: UIState): (b: Badge)
    ensures b.text == "Stopped" <==> !st.isLoaded
    ensures b.text == "Playing" <==> st.isLoaded && st.isPlaying && !st.isPaused
    ensures b.text == "Paused" <==> st.isLoaded && st.isPlaying && st.isPaused
    ensures b.text == "Ready" <==> st.isLoaded && !st.isPlaying
    ensures b.style == (if b.text == "Playing" then "BadgePlaying.TLabel"
                        else if b.text == "Paused" then "BadgePaused.TLabel"
                        else "BadgeStop.TLabel")
    ensures b.button == (if b.text == "Playing" then "Pause"
                         else if b.text == "Paused" then "Resume"
                         else "Play")
  {
    if !st.isLoaded then Badge("Stopped", "BadgeStop.TLabel", "Play")
    else if st.isPlaying && !st.isPaused then Badge("Playing", "BadgePlaying.TLabel", "Pause")
    else if st.isPlaying && st.isPaused then Badge("Paused", "BadgePaused.TLabel", "Resume")
    else Badge("Ready", "BadgeStop.TLabel", "Play")
  }

  // ------------------------------------------------------------ nudges

  const TempoStep: real := 0.02
  const PitchStep: real := 1.0

  /** The tempo `_nudge_tempo` asks for: one step in `direction`, kept in [0.5, 2]. */
  function NudgedTempo(tempo: real, direction: int): (t: real)
    ensures 0.5 <= t <= 2.0
  {
    Clamp(0.5, 2.0, tempo + direction as real * TempoStep)
  }

  /** The pitch `_nudge_pitch` asks for: one step in `direction`, kept in [-12, 12]. */
  function NudgedPitch(semitones: real, direction: int): (p: real)
    ensures -12.0 <= p <= 12.0
  {
    Clamp(-12.0, 12.0, semitones + direction as real * PitchStep)
  }

  /** Away from the limits, a nudge up and a nudge down cancel; at the limits
      a nudge outward changes nothing. */
  lemma NudgeTempoInverse(tempo: real)
    requires 0.5 <= tempo <= 2.0
    ensures tempo <= 1.98 ==> NudgedTempo(NudgedTempo(tempo, 1), -1) == tempo
    ensures tempo >= 0.52 ==> NudgedTempo(NudgedTempo(tempo, -1), 1) == tempo
    ensures tempo == 2.0 ==> NudgedTempo(tempo, 1) == tempo
    ensures tempo == 0.5 ==> NudgedTempo(tempo, -1) == tempo
  {
  }

  lemma NudgePitchInverse(semitones: real)
    requires -12.0 <= semitones <= 12.0
    ensures semitones <= 11.0 ==> NudgedPitch(NudgedPitch(semitones, 1), -1) == semitones
    ensures semitones >= -11.0 ==> NudgedPitch(NudgedPitch(semitones, -1), 1) == semitones
    ensures semitones == 12.0 ==> NudgedPitch(semitones, 1) == semitones
    ensures semitones == -12.0 ==> NudgedPitch(semitones, -1) == semitones
  {
  }

  /** `_nudge_tempo`: nothing without a loaded track; otherwise the
      controller gets the nudged tempo, and the record and the engine show it. */
  method NudgeTempo(c: PlayerController, direction: int)
    requires c.Valid()
    modifies c`state, c.engine`tempo, c.engine.st`params
    ensures c.Valid()
    ensures !old(c.state.isLoaded) ==> c.state == old(c.state) && unchanged(c.engine) && unchanged(c.engine.st)
    ensures old(c.state.isLoaded) ==>
              && c.state == old(c.state).(tempo := NudgedTempo(old(c.state.tempo), direction))
              && c.engine.tempo == c.state.tempo
  {
    if !c.state.isLoaded {
      return;
    }
    c.SetTempo(NudgedTempo(c.state.tempo, direction));
  }

  /** `_nudge_pitch`: nothing without a loaded track; otherwise the
      controller gets the nudged pitch, and the record and the engine show it. */
  method NudgePitch(c: PlayerController, direction: int)
    requires c.Valid()
    modifies c`state, c.engine`pitchSemitones, c.engine.st`params
    ensures c.Valid()
    ensures !old(c.state.isLoaded) ==> c.state == old(c.state) && unchanged(c.engine) && unchanged(c.engine.st)
    ensures old(c.state.isLoaded) ==>
              && c.state == old(c.state).(semitones := NudgedPitch(old(c.state.semitones), direction))
              && c.engine.pitchSemitones == c.state.semitones
  {
    if !c.state.isLoaded {
      return;
    }
    c.SetSemitones(NudgedPitch(c.state.semitones, direction));
  }

  // ------------------------------------------------------------ shortcuts

  /** The widget classes in which the space bar types a character. */
  const TextEntryClasses: set<string> :=
    {"Entry", "TEntry", "Text", "Spinbox", "TSpinbox", "Combobox", "TCombobox"}

  /** What `_on_space_shortcut` does with the event. */
  datatype SpaceAction = PassThrough | ToggleAndBreak

  /** The space bar toggles playback (and stops the event) unless the focused
      widget is a text-entry widget; no widget counts as class "". */
  function OnSpace(widgetClass: Option<string>): (a: SpaceAction)
    ensures a.PassThrough? <==> widgetClass.Some? && widgetClass.value in TextEntryClasses
    ensures widgetClass.None? ==> a.ToggleAndBreak?
  {
    var cls := if widgetClass.Some? then widgetClass.value else "";
    if cls in TextEntryClasses then PassThrough else ToggleAndBreak
  }

  /** The tag the window's shortcuts are bound to. */
  const ShortcutTag: string := "PlayerShortcuts"

  /** The bind-tag list after `_install_shortcut_tag` looked at one widget:
      unchanged when the tag is present; otherwise the tag goes second, or
      last when the list has at most one entry. */
  function InsertTag(tags: seq<string>, tag: string): (r: seq<string>)
    ensures tag in r
    ensures tag in tags ==> r == tags
    ensures tag !in tags ==>
              var at := if |tags| > 1 then 1 else |tags|;
              && |r| == |tags| + 1 && r[at] == tag
              && r[..at] == tags[..at] && r[at + 1..] == tags[at..]
  {
    if tag in tags then tags
    else
      var at := if |tags| > 1 then 1 else |tags|;
      tags[..at] + [tag] + tags[at..]
  }

  /** The list without any occurrence of `tag`. */
  function Without(s: seq<string>, tag: string): seq<string>
  {
    if s == [] then [] else (if s[0] == tag then [] else [s[0]]) + Without(s[1..], tag)
  }

  lemma {:induction false} WithoutConcat(a: seq<string>, b: seq<string>, tag: string)
    ensures Without(a + b, tag) == Without(a, tag) + Without(b, tag)
    decreases |a|
  {
    if a == [] {
      assert a + b == b;
    } else {
      assert (a + b)[1..] == a[1..] + b;
      WithoutConcat(a[1..], b, tag);
    }
  }

  /** Inserting the tag keeps every other tag, in its relative order. */
  lemma {:induction false} InsertTagKeepsOthers(tags: seq<string>, tag: string)
    ensures Without(InsertTag(tags, tag), tag) == Without(tags, tag)
  {
    if tag !in tags {
      var at := if |tags| > 1 then 1 else |tags|;
      assert tags == tags[..at] + tags[at..];
      WithoutConcat(tags[..at] + [tag], tags[at..], tag);
      WithoutConcat(tags[..at], [tag], tag);
      WithoutConcat(tags[..at], tags[at..], tag);
    }
  }

  /** A widget as `_install_shortcut_tag` sees it: its bind tags, or `None`
      when reading them raises, and its children. */
  datatype Widget = Widget(tags: Option<seq<string>>, children: seq<Widget>)

  /** `_install_shortcut_tag` over a widget tree: a widget whose tags cannot
      be read is left alone together with its subtree; otherwise its list gets
      the tag and each child is processed. */
  function Install(w: Widget, tag: string): (r: Widget)
    ensures r.tags.Some? == w.tags.Some?
    ensures w.tags.None? ==> r == w
    ensures w.tags.Some? ==> r.tags.value == InsertTag(w.tags.value, tag)
    ensures w.tags.Some? ==> |r.children| == |w.children|
    decreases w
  {
    if w.tags.None? then w
    else Widget(Some(InsertTag(w.tags.value, tag)), InstallAll(w.children, tag))
  }

  function InstallAll(ws: seq<Widget>, tag: string): (rs: seq<Widget>)
    ensures |rs| == |ws|
    decreases ws
  {
    if ws == [] then [] else [Install(ws[0], tag)] + InstallAll(ws[1..], tag)
  }

  /** Every widget reachable without passing one whose tags cannot be read
      carries the tag. */
  ghost predicate Tagged(w: Widget, tag: string)
    decreases w
  {
    w.tags.Some? ==> tag in w.tags.value && forall i :: 0 <= i < |w.children| ==> Tagged(w.children[i], tag)
  }

  lemma {:induction false} InstallTags(w: Widget, tag: string)
    ensures Tagged(Install(w, tag), tag)
    decreases w
  {
    if w.tags.Some? {
      InstallAllTags(w.children, tag);
    }
  }

  lemma {:induction false} InstallAllTags(ws: seq<Widget>, tag: string)
    ensures forall i :: 0 <= i < |ws| ==> Tagged(InstallAll(ws, tag)[i], tag)
    decreases ws
  {
    if ws != [] {
      InstallTags(ws[0], tag);
      InstallAllTags(ws[1..], tag);
    }
  }

  /** Installing twice is installing once. */
  lemma {:induction false} InstallIdempotent(w: Widget, tag: string)
    ensures Install(Install(w, tag), tag) == Install(w, tag)
    decreases w
  {
    if w.tags.Some? {
      InstallAllIdempotent(w.children, tag);
    }
  }

  lemma {:induction false} InstallAllIdempotent(ws: seq<Widget>, tag: string)
    ensures InstallAll(InstallAll(ws, tag), tag) == InstallAll(ws, tag)
    decreases ws
  {
    if ws != [] {
      var rs := InstallAll(ws, tag);
      assert rs[0] == Install(ws[0], tag) && rs[1..] == InstallAll(ws[1..], tag);
      InstallIdempotent(ws[0], tag);
      InstallAllIdempotent(ws[1..], tag);
    }
  }
}
