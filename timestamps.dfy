/**
 * `_format_timestamp_value` (main.py): a time rendered as an SRT or WebVTT
 * cue time, or in one of the user-selected display formats. Times are
 * integer milliseconds: the value the source obtains with
 * `int(round(max(0.0, seconds) * 1000))`. The two branches that print the
 * float itself (`seconds` and the frame count of `timecode`) go through a
 * `FloatRender` the caller supplies.
 */
module Timestamps {
  import opened Text

  /** The `target` argument: `None`, `"srt"` or `"vtt"`. */
  datatype Target = Plain | Srt | Vtt

  /**
   * The float renderings the model does not compute: `f"{seconds:.1f}"` and
   * the frame number `int(round(fraction * 25))`, both as functions of the
   * millisecond value.
   */
  datatype FloatRender = FloatRender(oneDecimal: int -> string, frames: int -> nat)

  /** `max(0.0, seconds)` on milliseconds. */
  function Clamp(ms: int): (c: nat)
    ensures ms >= 0 ==> c == ms
    ensures ms < 0 ==> c == 0
    ensures c >= ms && (c == ms || c == 0)
  {
    if ms < 0 then 0 else ms
  }

  datatype Parts = Parts(hours: nat, minutes: nat, seconds: nat, millis: nat)

  /** The three `divmod` steps. */
  function Decompose(ms: int): (p: Parts)
    ensures p.minutes < 60 && p.seconds < 60 && p.millis < 1000
    ensures p.hours * 3600000 + p.minutes * 60000 + p.seconds * 1000 + p.millis == Clamp(ms)
  {
    var c := Clamp(ms);
    var hours, afterHours := c / 3600000, c % 3600000;
    var minutes, afterMinutes := afterHours / 60000, afterHours % 60000;
    var secs, millis := afterMinutes / 1000, afterMinutes % 1000;
    assert c == hours * 3600000 + afterHours;
    assert afterHours == minutes * 60000 + afterMinutes;
    assert afterMinutes == secs * 1000 + millis;
    Parts(hours, minutes, secs, millis)
  }

  /** The decomposition is the only one whose minutes, seconds and milliseconds are in range. */
  lemma DecomposeUnique(ms: int, p: Parts)
    requires p.minutes < 60 && p.seconds < 60 && p.millis < 1000
    requires p.hours * 3600000 + p.minutes * 60000 + p.seconds * 1000 + p.millis == Clamp(ms)
    ensures p == Decompose(ms)
  {
    var c := Clamp(ms);
    var low := p.minutes * 60000 + p.seconds * 1000 + p.millis;
    assert low < 3600000;
    assert c / 3600000 == p.hours && c % 3600000 == low;
    assert low / 60000 == p.minutes && low % 60000 == p.seconds * 1000 + p.millis;
  }

  /** `f"{hours:02}:{minutes:02}:{secs:02}"`. */
  function Clock(p: Parts): string {
    Pad2(p.hours) + ":" + Pad2(p.minutes) + ":" + Pad2(p.seconds)
  }

  /** The SRT (`,`) or WebVTT (`.`) cue time. */
  function CueTime(ms: int, sep: char): string {
    var p := Decompose(ms);
    Clock(p) + [sep] + Pad3(p.millis)
  }

  /** The `minutes` format: total minutes, seconds and one digit of tenths. */
  function MinutesStamp(ms: int): string {
    var p := Decompose(ms);
    Pad2(p.hours * 60 + p.minutes) + ":" + Pad2(p.seconds) + "." + [DigitChar(p.millis / 100)]
  }

  /** `_format_timestamp_value(seconds, fmt, target)`. */
  function FormatTimestamp(ms: int, fmt: string, target: Target, fr: FloatRender): string {
    var p := Decompose(ms);
    match target
    case Srt => CueTime(ms, ',')
    case Vtt => CueTime(ms, '.')
    case Plain =>
      if fmt == "seconds" then fr.oneDecimal(ms) + "s"
      else if fmt == "minutes" then MinutesStamp(ms)
      else if fmt == "timecode" then Clock(p) + ":" + Pad2(fr.frames(ms))
      else Clock(p)
  }

  /** A subtitle target decides the format on its own: `fmt` is ignored. */
  lemma TargetOverridesFormat(ms: int, fmt1: string, fmt2: string, target: Target, fr: FloatRender)
    requires target != Plain
    ensures FormatTimestamp(ms, fmt1, target, fr) == FormatTimestamp(ms, fmt2, target, fr)
  {
  }

  /** The layout of `HH:MM:SS<sep>mmm`, read from the end (hours may take more than two digits). */
  predicate IsCueTime(s: string) {
    |s| >= 12
    && AllDigits(s[..|s| - 10]) && s[|s| - 10] == ':'
    && AllDigits(s[|s| - 9..|s| - 7]) && s[|s| - 7] == ':'
    && AllDigits(s[|s| - 6..|s| - 4])
    && (s[|s| - 4] == ',' || s[|s| - 4] == '.')
    && AllDigits(s[|s| - 3..])
  }

  /** The milliseconds a cue time denotes. */
  function ParseCueTime(s: string): nat
    requires IsCueTime(s)
  {
    ParseDec(s[..|s| - 10]) * 3600000 + ParseDec(s[|s| - 9..|s| - 7]) * 60000
    + ParseDec(s[|s| - 6..|s| - 4]) * 1000 + ParseDec(s[|s| - 3..])
  }

  /** Where each part of a cue time sits. */
  lemma CueTimeLayout(ms: int, sep: char)
    ensures var s, p := CueTime(ms, sep), Decompose(ms);
      && |s| == |Pad2(p.hours)| + 10
      && s[..|s| - 10] == Pad2(p.hours) && s[|s| - 10] == ':'
      && s[|s| - 9..|s| - 7] == Pad2(p.minutes) && s[|s| - 7] == ':'
      && s[|s| - 6..|s| - 4] == Pad2(p.seconds) && s[|s| - 4] == sep
      && s[|s| - 3..] == Pad3(p.millis)
  {
    var s, p := CueTime(ms, sep), Decompose(ms);
    var h, m, x, f := Pad2(p.hours), Pad2(p.minutes), Pad2(p.seconds), Pad3(p.millis);
    Pad2Facts(p.minutes);
    Pad2Facts(p.seconds);
    Pad3Facts(p.millis);
    assert s == h + ":" + m + ":" + x + [sep] + f;
    assert |m| == 2 && |x| == 2 && |f| == 3;
  }

  lemma CueTimeParse(ms: int, sep: char)
    requires sep == ',' || sep == '.'
    ensures IsCueTime(CueTime(ms, sep)) && ParseCueTime(CueTime(ms, sep)) == Clamp(ms)
  {
    CueTimeLayout(ms, sep);
    var s, p := CueTime(ms, sep), Decompose(ms);
    Pad2Facts(p.hours);
    Pad2Facts(p.minutes);
    Pad2Facts(p.seconds);
    Pad3Facts(p.millis);
    assert ParseDec(s[..|s| - 10]) == p.hours;
    assert ParseDec(s[|s| - 9..|s| - 7]) == p.minutes;
    assert ParseDec(s[|s| - 6..|s| - 4]) == p.seconds;
    assert ParseDec(s[|s| - 3..]) == p.millis;
  }

  /** Reading an SRT or WebVTT cue time back gives the clamped time exactly. */
  lemma CueTimeRoundTrip(ms: int, fmt: string, target: Target, fr: FloatRender)
    requires target != Plain
    ensures IsCueTime(FormatTimestamp(ms, fmt, target, fr))
    ensures ParseCueTime(FormatTimestamp(ms, fmt, target, fr)) == Clamp(ms)
  {
    if target == Srt {
      CueTimeParse(ms, ',');
    } else {
      CueTimeParse(ms, '.');
    }
  }

  /** SRT and WebVTT cue times differ in the millisecond separator only. */
  lemma SrtVttDiffer(ms: int, fmt: string, fr: FloatRender)
    ensures var s, v := FormatTimestamp(ms, fmt, Srt, fr), FormatTimestamp(ms, fmt, Vtt, fr);
      && |s| == |v| && s[|s| - 4] == ',' && v[|v| - 4] == '.'
      && forall i :: 0 <= i < |s| && i != |s| - 4 ==> s[i] == v[i]
  {
    CueTimeLayout(ms, ',');
    CueTimeLayout(ms, '.');
  }

  /** The default format (`full` and any unknown code) is the SRT time without its milliseconds. */
  lemma DefaultIsCuePrefix(ms: int, fmt: string, fr: FloatRender)
    requires fmt != "seconds" && fmt != "minutes" && fmt != "timecode"
    ensures FormatTimestamp(ms, fmt, Plain, fr) + "," + Pad3(Decompose(ms).millis)
            == FormatTimestamp(ms, fmt, Srt, fr)
  {
  }

  /** The timecode format is the default clock followed by `:` and the two-digit frame number. */
  lemma TimecodeLayout(ms: int, fr: FloatRender)
    ensures FormatTimestamp(ms, "timecode", Plain, fr)
            == FormatTimestamp(ms, "full", Plain, fr) + ":" + Pad2(fr.frames(ms))
  {
  }

  /** The layout `M...M:SS.t` of the `minutes` format. */
  predicate IsMinutesStamp(s: string) {
    |s| >= 6
    && AllDigits(s[..|s| - 5]) && s[|s| - 5] == ':'
    && AllDigits(s[|s| - 4..|s| - 2]) && s[|s| - 2] == '.'
    && AllDigits(s[|s| - 1..])
  }

  function ParseMinutesStamp(s: string): nat
    requires IsMinutesStamp(s)
  {
    ParseDec(s[..|s| - 5]) * 60000 + ParseDec(s[|s| - 4..|s| - 2]) * 1000 + ParseDec(s[|s| - 1..]) * 100
  }

  lemma MinutesLayout(ms: int)
    ensures var s, p := MinutesStamp(ms), Decompose(ms);
      && |s| >= 6
      && s[..|s| - 5] == Pad2(p.hours * 60 + p.minutes) && s[|s| - 5] == ':'
      && s[|s| - 4..|s| - 2] == Pad2(p.seconds) && s[|s| - 2] == '.'
      && s[|s| - 1..] == [DigitChar(p.millis / 100)]
  {
    var s, p := MinutesStamp(ms), Decompose(ms);
    var tm, x, t := Pad2(p.hours * 60 + p.minutes), Pad2(p.seconds), [DigitChar(p.millis / 100)];
    Pad2Facts(p.hours * 60 + p.minutes);
    Pad2Facts(p.seconds);
    assert s == tm + ":" + x + "." + t;
    assert |x| == 2;
  }

  /** Tenths of a second: the clamped time with its last two digits dropped. */
  lemma TenthsArithmetic(c: nat, totalMinutes: nat, secs: nat, millis: nat)
    requires millis < 1000
    requires c == totalMinutes * 60000 + secs * 1000 + millis
    ensures c / 100 * 100 == totalMinutes * 60000 + secs * 1000 + millis / 100 * 100
  {
    var q := totalMinutes * 600 + secs * 10 + millis / 100;
    assert c == q * 100 + millis % 100;
    assert c / 100 == q;
  }

  /** The `minutes` format denotes the clamped time truncated to a tenth of a second. */
  lemma MinutesRoundTrip(ms: int, fr: FloatRender)
    ensures IsMinutesStamp(FormatTimestamp(ms, "minutes", Plain, fr))
    ensures ParseMinutesStamp(FormatTimestamp(ms, "minutes", Plain, fr)) == Clamp(ms) / 100 * 100
  {
    MinutesLayout(ms);
    var s, p := MinutesStamp(ms), Decompose(ms);
    assert FormatTimestamp(ms, "minutes", Plain, fr) == s;
    var t := [DigitChar(p.millis / 100)];
    Pad2Facts(p.hours * 60 + p.minutes);
    Pad2Facts(p.seconds);
    assert t[..0] == [];
    assert ParseDec(s[|s| - 1..]) == p.millis / 100;
    TenthsArithmetic(Clamp(ms), p.hours * 60 + p.minutes, p.seconds, p.millis);
  }
}
