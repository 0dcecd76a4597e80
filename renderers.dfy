/**
 * The five output writers of `TranscriptionManager` (main.py): Word and text
 * files hold the paragraphs `_build_paragraphs` forms, SRT and WebVTT files
 * one cue per segment whose cleaned text is not blank, and JSON files every
 * segment with the settings used. A file is modelled as the string written
 * to it, a Word document as the sequence of its paragraphs.
 */
module Renderers {
  import opened Wrappers
  import opened Text
  import opened Timestamps
  import opened Cleaning
  import opened Settings
  import opened Paragraphs

  // ---------------------------------------------------------------------
  // Subtitle cues
  // ---------------------------------------------------------------------

  /** `_clean_text(segment.get("text", ""), settings).strip()`: what a segment shows in a subtitle file. */
  function CueText(seg: Segment, o: Options): string {
    Strip(Clean(TextOf(seg), o))
  }

  /** One subtitle cue: its `enumerate(segments, start=1)` position, its times and its text. */
  datatype Cue = Cue(index: nat, startMs: int, endMs: int, text: string)

  /** `CueText` as a function of the segment, the form the cue functions take. */
  function CueShown(o: Options): Segment -> string {
    seg => CueText(seg, o)
  }

  /**
   * The cues the subtitle loops write, `shown` giving each segment's cue
   * text: one cue for each segment whose text is not empty, at that
   * segment's position.
   */
  function Cues(segs: seq<Segment>, shown: Segment -> string): (cues: seq<Cue>)
    ensures |cues| <= |segs|
  {
    if segs == [] then []
    else
      var seg := LastOf(segs);
      var text := shown(seg);
      Cues(segs[..|segs| - 1], shown)
      + (if text != [] then [Cue(|segs|, StartMs(seg), EndMs(seg), text)] else [])
  }

  /** The positions the cues carry. */
  function Indices(cues: seq<Cue>): set<nat> {
    if cues == [] then {} else Indices(cues[..|cues| - 1]) + {LastOf(cues).index}
  }

  /** Each cue shows the segment at its position, with that segment's times and its non-empty text. */
  predicate ShowsSegments(cues: seq<Cue>, segs: seq<Segment>, shown: Segment -> string) {
    forall k :: 0 <= k < |cues| ==>
      && 1 <= cues[k].index <= |segs|
      && cues[k].text == shown(segs[cues[k].index - 1]) && cues[k].text != []
      && cues[k].startMs == StartMs(segs[cues[k].index - 1])
      && cues[k].endMs == EndMs(segs[cues[k].index - 1])
  }

  /** Cue positions strictly increase. */
  predicate Increasing(cues: seq<Cue>) {
    forall j, k :: 0 <= j < k < |cues| ==> cues[j].index < cues[k].index
  }

  lemma {:induction false} CuesFaithful(segs: seq<Segment>, shown: Segment -> string)
    ensures ShowsSegments(Cues(segs, shown), segs, shown)
  {
    if segs != [] {
      var init := segs[..|segs| - 1];
      CuesFaithful(init, shown);
      var c, d := Cues(init, shown), Cues(segs, shown);
      var text := shown(LastOf(segs));
      assert d == c + (if text != [] then [Cue(|segs|, StartMs(LastOf(segs)), EndMs(LastOf(segs)), text)] else []);
    }
  }

  lemma {:induction false} CuesIncreasing(segs: seq<Segment>, shown: Segment -> string)
    ensures Increasing(Cues(segs, shown))
  {
    if segs != [] {
      var init := segs[..|segs| - 1];
      CuesFaithful(init, shown);
      CuesIncreasing(init, shown);
      var c, d := Cues(init, shown), Cues(segs, shown);
      var text := shown(LastOf(segs));
      assert d == c + (if text != [] then [Cue(|segs|, StartMs(LastOf(segs)), EndMs(LastOf(segs)), text)] else []);
    }
  }

  /**
   * A segment gets a cue if and only if its text is not empty; a segment
   * without one leaves its position unused, so cue numbers can skip.
   */
  /** The positions in `ix` are exactly those of the segments whose text is not empty. */
  predicate PositionsOfShown(ix: set<nat>, segs: seq<Segment>, shown: Segment -> string) {
    && (forall i :: i in ix ==> 1 <= i <= |segs|)
    && (forall i :: 1 <= i <= |segs| ==> (i in ix <==> shown(segs[i - 1]) != []))
  }

  /** One more segment adds its own position to the cue positions if its text is not empty. */
  lemma IndicesStep(segs: seq<Segment>, shown: Segment -> string)
    requires segs != []
    ensures Indices(Cues(segs, shown))
            == Indices(Cues(segs[..|segs| - 1], shown)) + (if shown(LastOf(segs)) != [] then {|segs|} else {})
  {
    var c, d := Cues(segs[..|segs| - 1], shown), Cues(segs, shown);
    if shown(LastOf(segs)) != [] {
      var cue := Cue(|segs|, StartMs(LastOf(segs)), EndMs(LastOf(segs)), shown(LastOf(segs)));
      assert d == c + [cue];
      assert d[..|d| - 1] == c;
    } else {
      assert d == c;
    }
  }

  lemma {:induction false} CuesComplete(segs: seq<Segment>, shown: Segment -> string)
    ensures PositionsOfShown(Indices(Cues(segs, shown)), segs, shown)
  {
    if segs != [] {
      CuesComplete(segs[..|segs| - 1], shown);
      IndicesStep(segs, shown);
      forall i | 1 <= i <= |segs|
        ensures i in Indices(Cues(segs, shown)) <==> shown(segs[i - 1]) != []
      {
        PositionStep(segs, shown, i);
      }
    }
  }

  lemma PositionStep(segs: seq<Segment>, shown: Segment -> string, i: nat)
    requires 1 <= i <= |segs|
    requires PositionsOfShown(Indices(Cues(segs[..|segs| - 1], shown)), segs[..|segs| - 1], shown)
    requires Indices(Cues(segs, shown))
             == Indices(Cues(segs[..|segs| - 1], shown)) + (if shown(LastOf(segs)) != [] then {|segs|} else {})
    ensures i in Indices(Cues(segs, shown)) <==> shown(segs[i - 1]) != []
  {
    if i < |segs| {
      assert segs[i - 1] == segs[..|segs| - 1][i - 1];
    }
  }

  /** There are no cues exactly when every segment's text is empty. */
  lemma NoCuesIff(segs: seq<Segment>, shown: Segment -> string)
    ensures Cues(segs, shown) == [] <==> forall i :: 0 <= i < |segs| ==> shown(segs[i]) == []
  {
    var cues := Cues(segs, shown);
    if cues != [] {
      CuesFaithful(segs, shown);
      var i := cues[0].index - 1;
      assert shown(segs[i]) != [];
    } else {
      CuesComplete(segs, shown);
      forall i | 0 <= i < |segs|
        ensures shown(segs[i]) == []
      {
        assert i + 1 !in Indices(cues);
      }
    }
  }

  lemma IndicesSnoc(cues: seq<Cue>, c: Cue)
    ensures Indices(cues + [c]) == Indices(cues) + {c.index}
  {
    assert (cues + [c])[..|cues|] == cues;
  }

  /** Two cue-text functions that agree everywhere give the same cues. */
  lemma {:induction false} CuesPointwise(segs: seq<Segment>, s1: Segment -> string, s2: Segment -> string)
    requires forall seg :: s1(seg) == s2(seg)
    ensures Cues(segs, s1) == Cues(segs, s2)
  {
    if segs != [] {
      CuesPointwise(segs[..|segs| - 1], s1, s2);
    }
  }

  /** With punctuation kept the cue text is the cleaned text itself: cleaning already stripped it. */
  lemma CueTextWithPunctuation(seg: Segment, o: Options)
    requires o.punctuation
    ensures CueText(seg, o) == Clean(TextOf(seg), o)
  {
    CasedStripped(Strip(TextOf(seg)), o.capitalization);
    StripOfStripped(Clean(TextOf(seg), o));
  }

  /** The timestamp format is no input of the cues: only capitalization and punctuation are. */
  lemma CuesIgnoreFormat(segs: seq<Segment>, o: Options, fmt: string)
    ensures Cues(segs, CueShown(o.(timestampFormat := fmt))) == Cues(segs, CueShown(o))
  {
    CuesPointwise(segs, CueShown(o.(timestampFormat := fmt)), CueShown(o));
  }

  // ---------------------------------------------------------------------
  // SRT and WebVTT files
  // ---------------------------------------------------------------------

  /** `_format_timestamp_value(seconds, settings.timestamp_format, target="srt")`. */
  function SrtStamp(o: Options, fr: FloatRender): int -> string {
    ms => FormatTimestamp(ms, o.timestampFormat, Srt, fr)
  }

  /** `_format_timestamp_value(seconds, settings.timestamp_format, target="vtt")`. */
  function VttStamp(o: Options, fr: FloatRender): int -> string {
    ms => FormatTimestamp(ms, o.timestampFormat, Vtt, fr)
  }

  /** `f"{index}\n{start} --> {end}\n{text}\n\n"`. */
  function SrtBlock(c: Cue, stamp: int -> string): string {
    DecStr(c.index) + "\n" + stamp(c.startMs) + " --> " + stamp(c.endMs) + "\n" + c.text + "\n\n"
  }

  /** `f"{start} --> {end}\n{text}\n\n"`. */
  function VttBlock(c: Cue, stamp: int -> string): string {
    stamp(c.startMs) + " --> " + stamp(c.endMs) + "\n" + c.text + "\n\n"
  }

  /** The blocks of the cues, one after another. */
  function SrtFile(cues: seq<Cue>, stamp: int -> string): string {
    if cues == [] then "" else SrtFile(cues[..|cues| - 1], stamp) + SrtBlock(LastOf(cues), stamp)
  }

  function VttCues(cues: seq<Cue>, stamp: int -> string): string {
    if cues == [] then "" else VttCues(cues[..|cues| - 1], stamp) + VttBlock(LastOf(cues), stamp)
  }

  /** The `WEBVTT` header line and a blank line, then the blocks. */
  function VttFile(cues: seq<Cue>, stamp: int -> string): string {
    "WEBVTT\n\n" + VttCues(cues, stamp)
  }

  /** One more segment adds at most one cue, at the end. */
  lemma CuesSnoc(segs: seq<Segment>, i: nat, shown: Segment -> string)
    requires i < |segs|
    ensures Cues(segs[..i + 1], shown)
            == Cues(segs[..i], shown)
               + (if shown(segs[i]) != [] then [Cue(i + 1, StartMs(segs[i]), EndMs(segs[i]), shown(segs[i]))] else [])
  {
    assert segs[..i + 1][..i] == segs[..i];
  }

  lemma SrtFileSnoc(cues: seq<Cue>, c: Cue, stamp: int -> string)
    ensures SrtFile(cues + [c], stamp) == SrtFile(cues, stamp) + SrtBlock(c, stamp)
  {
    assert (cues + [c])[..|cues|] == cues;
  }

  lemma VttFileSnoc(cues: seq<Cue>, c: Cue, stamp: int -> string)
    ensures VttFile(cues + [c], stamp) == VttFile(cues, stamp) + VttBlock(c, stamp)
  {
    assert (cues + [c])[..|cues|] == cues;
  }

  lemma VttFileEmpty(stamp: int -> string)
    ensures VttFile([], stamp) == "WEBVTT\n\n"
  {
  }

  /** `_save_srt`: the text written to the file. */
  method SaveSrt(segs: seq<Segment>, o: Options, stamp: int -> string) returns (file: string)
    ensures file == SrtFile(Cues(segs, CueShown(o)), stamp)
  {
    file := "";
    for i := 0 to |segs|
      invariant file == SrtFile(Cues(segs[..i], CueShown(o)), stamp)
    {
      CuesSnoc(segs, i, CueShown(o));
      var index := i + 1;
      var start := stamp(StartMs(segs[i]));
      var end := stamp(EndMs(segs[i]));
      var text := Clean(TextOf(segs[i]), o);
      assert Strip(text) == CueShown(o)(segs[i]);
      if Strip(text) != [] {
        ghost var c := Cue(index, StartMs(segs[i]), EndMs(segs[i]), Strip(text));
        SrtFileSnoc(Cues(segs[..i], CueShown(o)), c, stamp);
        assert Cues(segs[..i + 1], CueShown(o)) == Cues(segs[..i], CueShown(o)) + [c];
        var block := DecStr(index) + "\n" + start + " --> " + end + "\n" + Strip(text) + "\n\n";
        assert block == SrtBlock(c, stamp);
        file := file + block;
      } else {
        assert Cues(segs[..i + 1], CueShown(o)) == Cues(segs[..i], CueShown(o));
      }
    }
    assert segs[..|segs|] == segs;
  }

  /** `_save_vtt`: the text written to the file. */
  method SaveVtt(segs: seq<Segment>, o: Options, stamp: int -> string) returns (file: string)
    ensures file == VttFile(Cues(segs, CueShown(o)), stamp)
  {
    file := "WEBVTT\n\n";
    VttFileEmpty(stamp);
    for i := 0 to |segs|
      invariant file == VttFile(Cues(segs[..i], CueShown(o)), stamp)
    {
      CuesSnoc(segs, i, CueShown(o));
      var start := stamp(StartMs(segs[i]));
      var end := stamp(EndMs(segs[i]));
      var text := Clean(TextOf(segs[i]), o);
      assert Strip(text) == CueShown(o)(segs[i]);
      if Strip(text) != [] {
        ghost var c := Cue(i + 1, StartMs(segs[i]), EndMs(segs[i]), Strip(text));
        VttFileSnoc(Cues(segs[..i], CueShown(o)), c, stamp);
        assert Cues(segs[..i + 1], CueShown(o)) == Cues(segs[..i], CueShown(o)) + [c];
        var block := start + " --> " + end + "\n" + Strip(text) + "\n\n";
        assert block == VttBlock(c, stamp);
        file := file + block;
      } else {
        assert Cues(segs[..i + 1], CueShown(o)) == Cues(segs[..i], CueShown(o));
      }
    }
    assert segs[..|segs|] == segs;
  }

  /** An SRT block is the WebVTT block under a line holding the cue number. */
  lemma SrtBlockIsNumberedVttBlock(c: Cue, stamp: int -> string)
    ensures SrtBlock(c, stamp) == DecStr(c.index) + "\n" + VttBlock(c, stamp)
  {
  }

  /**
   * The parts of an SRT block read back: the first line is the cue number in
   * decimal, and the two cue times denote the clamped start and end.
   */
  lemma SrtBlockRoundTrip(c: Cue, o: Options, fr: FloatRender)
    ensures var stamp := SrtStamp(o, fr);
      var n, s, e := DecStr(c.index), stamp(c.startMs), stamp(c.endMs);
      && SrtBlock(c, stamp) == n + "\n" + s + " --> " + e + "\n" + c.text + "\n\n"
      && AllDigits(n) && ParseDec(n) == c.index
      && IsCueTime(s) && ParseCueTime(s) == Clamp(c.startMs)
      && IsCueTime(e) && ParseCueTime(e) == Clamp(c.endMs)
  {
    DecStrFacts(c.index);
    CueTimeRoundTrip(c.startMs, o.timestampFormat, Srt, fr);
    CueTimeRoundTrip(c.endMs, o.timestampFormat, Srt, fr);
  }

  /** The WebVTT cue times read back as the clamped start and end. */
  lemma VttBlockRoundTrip(c: Cue, o: Options, fr: FloatRender)
    ensures var stamp := VttStamp(o, fr);
      var s, e := stamp(c.startMs), stamp(c.endMs);
      && VttBlock(c, stamp) == s + " --> " + e + "\n" + c.text + "\n\n"
      && IsCueTime(s) && ParseCueTime(s) == Clamp(c.startMs)
      && IsCueTime(e) && ParseCueTime(e) == Clamp(c.endMs)
  {
    CueTimeRoundTrip(c.startMs, o.timestampFormat, Vtt, fr);
    CueTimeRoundTrip(c.endMs, o.timestampFormat, Vtt, fr);
  }

  /** An SRT file is empty exactly when it has no cues. */
  lemma SrtFileEmpty(cues: seq<Cue>, stamp: int -> string)
    ensures SrtFile(cues, stamp) == [] <==> cues == []
  {
    if cues != [] {
      DecStrFacts(LastOf(cues).index);
    }
  }

  /** A WebVTT file is the bare header exactly when it has no cues. */
  lemma VttFileBare(cues: seq<Cue>, stamp: int -> string)
    ensures VttFile(cues, stamp) == "WEBVTT\n\n" <==> cues == []
  {
    if cues != [] {
      assert |VttCues(cues, stamp)| > 0;
    }
  }

  /** `_save_srt` writes nothing exactly when every segment is blank after cleaning. */
  lemma SrtEmptyIffBlank(segs: seq<Segment>, o: Options, stamp: int -> string)
    ensures SrtFile(Cues(segs, CueShown(o)), stamp) == [] <==> forall i :: 0 <= i < |segs| ==> CueText(segs[i], o) == []
  {
    SrtFileEmpty(Cues(segs, CueShown(o)), stamp);
    NoCuesIff(segs, CueShown(o));
  }

  /** `_save_vtt` writes only the header exactly when every segment is blank after cleaning. */
  lemma VttBareIffBlank(segs: seq<Segment>, o: Options, stamp: int -> string)
    ensures VttFile(Cues(segs, CueShown(o)), stamp) == "WEBVTT\n\n" <==> forall i :: 0 <= i < |segs| ==> CueText(segs[i], o) == []
  {
    VttFileBare(Cues(segs, CueShown(o)), stamp);
    NoCuesIff(segs, CueShown(o));
  }

  /** Two renderings of the times that agree everywhere give the same SRT file. */
  lemma {:induction false} SrtFileStamps(cues: seq<Cue>, s1: int -> string, s2: int -> string)
    requires forall ms :: s1(ms) == s2(ms)
    ensures SrtFile(cues, s1) == SrtFile(cues, s2)
  {
    if cues != [] {
      SrtFileStamps(cues[..|cues| - 1], s1, s2);
    }
  }

  lemma {:induction false} VttCuesStamps(cues: seq<Cue>, s1: int -> string, s2: int -> string)
    requires forall ms :: s1(ms) == s2(ms)
    ensures VttCues(cues, s1) == VttCues(cues, s2)
  {
    if cues != [] {
      VttCuesStamps(cues[..|cues| - 1], s1, s2);
    }
  }

  /** The timestamp format setting does not change an SRT file. */
  lemma SrtIgnoresFormat(segs: seq<Segment>, o: Options, fmt: string, fr: FloatRender)
    ensures var o' := o.(timestampFormat := fmt);
      SrtFile(Cues(segs, CueShown(o')), SrtStamp(o', fr)) == SrtFile(Cues(segs, CueShown(o)), SrtStamp(o, fr))
  {
    var o' := o.(timestampFormat := fmt);
    CuesIgnoreFormat(segs, o, fmt);
    forall ms ensures SrtStamp(o', fr)(ms) == SrtStamp(o, fr)(ms) {
      TargetOverridesFormat(ms, fmt, o.timestampFormat, Srt, fr);
    }
    SrtFileStamps(Cues(segs, CueShown(o)), SrtStamp(o', fr), SrtStamp(o, fr));
  }

  /** The timestamp format setting does not change a WebVTT file. */
  lemma VttIgnoresFormat(segs: seq<Segment>, o: Options, fmt: string, fr: FloatRender)
    ensures var o' := o.(timestampFormat := fmt);
      VttFile(Cues(segs, CueShown(o')), VttStamp(o', fr)) == VttFile(Cues(segs, CueShown(o)), VttStamp(o, fr))
  {
    var o' := o.(timestampFormat := fmt);
    CuesIgnoreFormat(segs, o, fmt);
    forall ms ensures VttStamp(o', fr)(ms) == VttStamp(o, fr)(ms) {
      TargetOverridesFormat(ms, fmt, o.timestampFormat, Vtt, fr);
    }
    VttCuesStamps(Cues(segs, CueShown(o)), VttStamp(o', fr), VttStamp(o, fr));
  }

  // ---------------------------------------------------------------------
  // JSON files
  // ---------------------------------------------------------------------

  /** One entry of `"segments"`: the raw times (`null` when missing) and the cleaned text. */
  datatype JsonSegment = JsonSegment(start: Option<int>, end: Option<int>, text: string)

  /** The payload `_save_json` dumps. */
  datatype JsonPayload = JsonPayload(text: string, segments: seq<JsonSegment>, settings: map<string, Value>)

  function Payload(resultText: Option<string>, segs: seq<Segment>, o: Options): JsonPayload {
    JsonPayload(resultText.GetOr(""), JsonSegments(segs, CleanOf(o)), ToDict(o))
  }

  /** `_clean_text(segment.get("text", ""), settings)` as a function of the segment. */
  function CleanOf(o: Options): Segment -> string {
    seg => Clean(TextOf(seg), o)
  }

  /** The `"segments"` list, `clean` giving each entry's text: one entry per segment, in order. */
  function JsonSegments(segs: seq<Segment>, clean: Segment -> string): seq<JsonSegment> {
    seq(|segs|, k requires 0 <= k < |segs| => JsonSegment(segs[k].start, segs[k].end, clean(segs[k])))
  }

  /** A JSON entry agrees with a cue: its text once stripped, its times once a missing time is read as 0. */
  predicate MatchesCue(js: JsonSegment, c: Cue) {
    Strip(js.text) == c.text && js.start.GetOr(0) == c.startMs && js.end.GetOr(0) == c.endMs
  }

  /**
   * The JSON entries keep every segment, blank ones included, and the entry
   * at each cue's position agrees with that cue whenever the cue text is the
   * entry text stripped.
   */
  lemma JsonAgreesWithCues(segs: seq<Segment>, clean: Segment -> string, shown: Segment -> string)
    requires forall seg :: shown(seg) == Strip(clean(seg))
    ensures |JsonSegments(segs, clean)| == |segs|
    ensures forall k :: 0 <= k < |Cues(segs, shown)| ==>
      && 1 <= Cues(segs, shown)[k].index <= |segs|
      && MatchesCue(JsonSegments(segs, clean)[Cues(segs, shown)[k].index - 1], Cues(segs, shown)[k])
  {
    CuesFaithful(segs, shown);
    forall k | 0 <= k < |Cues(segs, shown)|
      ensures 1 <= Cues(segs, shown)[k].index <= |segs|
      ensures MatchesCue(JsonSegments(segs, clean)[Cues(segs, shown)[k].index - 1], Cues(segs, shown)[k])
    {
      JsonAtCue(segs, clean, shown, Cues(segs, shown)[k]);
    }
  }

  lemma JsonAtCue(segs: seq<Segment>, clean: Segment -> string, shown: Segment -> string, c: Cue)
    requires forall seg :: shown(seg) == Strip(clean(seg))
    requires 1 <= c.index <= |segs|
    requires c.text == shown(segs[c.index - 1])
    requires c.startMs == StartMs(segs[c.index - 1]) && c.endMs == EndMs(segs[c.index - 1])
    ensures MatchesCue(JsonSegments(segs, clean)[c.index - 1], c)
  {
    var seg := segs[c.index - 1];
    assert JsonSegments(segs, clean)[c.index - 1] == JsonSegment(seg.start, seg.end, clean(seg));
  }

  /** The cue text is the JSON entry text stripped. */
  lemma CueShownStripsClean(o: Options)
    ensures forall seg :: CueShown(o)(seg) == Strip(CleanOf(o)(seg))
  {
  }

  /** The JSON file and the subtitle files agree: the entry at each cue's position has the cue's text and times. */
  lemma JsonMatchesSubtitles(resultText: Option<string>, segs: seq<Segment>, o: Options)
    ensures var js := Payload(resultText, segs, o).segments;
      && |js| == |segs|
      && forall k :: 0 <= k < |Cues(segs, CueShown(o))| ==>
           && 1 <= Cues(segs, CueShown(o))[k].index <= |segs|
           && MatchesCue(js[Cues(segs, CueShown(o))[k].index - 1], Cues(segs, CueShown(o))[k])
  {
    CueShownStripsClean(o);
    JsonAgreesWithCues(segs, CleanOf(o), CueShown(o));
  }

  /** Reading the `"settings"` part back with `from_dict` restores every setting but the presets path. */
  lemma JsonSettingsRoundTrip(resultText: Option<string>, segs: seq<Segment>, o: Options, defaultPath: string)
    ensures var p := Payload(resultText, segs, o);
      WellTyped(p.settings) && FromDict(p.settings, defaultPath) == o.(presetsFile := defaultPath)
  {
    FromDictToDict(o, defaultPath);
  }

  // ---------------------------------------------------------------------
  // Text and Word files
  // ---------------------------------------------------------------------

  /** `_save_txt`: the paragraphs separated by blank lines. */
  function TxtFile(paragraphs: seq<string>): string {
    Join("\n\n", paragraphs)
  }

  /** A join whose last part is not empty is not empty. */
  lemma JoinNotEmpty(sep: string, parts: seq<string>)
    requires parts != [] && LastOf(parts) != []
    ensures Join(sep, parts) != []
  {
  }

  /** `_save_txt` writes nothing exactly when there are no paragraphs. */
  lemma TxtEmptyIff(segs: seq<Segment>, o: Options, stamp: int -> string)
    ensures TxtFile(Paragraphs.Paragraphs(segs, o, stamp)) == [] <==> Paragraphs.Paragraphs(segs, o, stamp) == []
  {
    var ps := Paragraphs.Paragraphs(segs, o, stamp);
    ParagraphsNonEmpty(segs, o, stamp);
    if ps != [] {
      assert LastOf(ps) in ps;
      JoinNotEmpty("\n\n", ps);
    }
  }

  /** The paragraphs `doc.add_paragraph` receives: those that are not blank, in order. */
  function DocxParagraphs(paragraphs: seq<string>): (kept: seq<string>)
    ensures |kept| <= |paragraphs|
  {
    if paragraphs == [] then []
    else
      var p := LastOf(paragraphs);
      DocxParagraphs(paragraphs[..|paragraphs| - 1]) + (if Strip(p) != [] then [p] else [])
  }

  /** `_save_docx`: the document's paragraphs. */
  method SaveDocx(paragraphs: seq<string>) returns (doc: seq<string>)
    ensures doc == DocxParagraphs(paragraphs)
  {
    doc := [];
    for i := 0 to |paragraphs|
      invariant doc == DocxParagraphs(paragraphs[..i])
    {
      assert paragraphs[..i + 1][..i] == paragraphs[..i];
      if Strip(paragraphs[i]) != [] {
        doc := doc + [paragraphs[i]];
      }
    }
    assert paragraphs[..|paragraphs|] == paragraphs;
  }

  /** A paragraph reaches the document if and only if it is one of the paragraphs and not blank. */
  lemma {:induction false} DocxKeepsSolid(paragraphs: seq<string>)
    ensures forall p :: p in DocxParagraphs(paragraphs) <==> p in paragraphs && Strip(p) != []
  {
    if paragraphs != [] {
      var init, last := paragraphs[..|paragraphs| - 1], LastOf(paragraphs);
      DocxKeepsSolid(init);
      assert paragraphs == init + [last];
      var kept := DocxParagraphs(paragraphs);
      assert kept == DocxParagraphs(init) + (if Strip(last) != [] then [last] else []);
      forall p
        ensures p in kept <==> p in paragraphs && Strip(p) != []
      {
        assert p in paragraphs <==> p in init || p == last;
      }
    }
  }

  /** A string that starts with a non-space character is not blank. */
  lemma SolidStart(s: string)
    requires s != [] && !IsSpace(s[0])
    ensures Strip(s) != []
  {
    StripDropsSpace(s);
    StripSlice(s);
  }

  /** With punctuation kept, a text that does not clean to nothing is not blank once cleaned. */
  lemma CleanSolid(text: string, o: Options)
    requires o.punctuation && Clean(text, o) != []
    ensures Strip(Clean(text, o)) != []
  {
    CasedStripped(Strip(text), o.capitalization);
    SolidStart(Clean(text, o));
  }

  lemma BracketSolid(s: string)
    requires s != [] && s[0] == '['
    ensures Strip(s) != []
  {
    SolidStart(s);
  }

  /** With punctuation kept a group's paragraph is not blank. */
  lemma ParagraphOfSolid(group: seq<Segment>, o: Options, stamp: int -> string)
    requires group != [] && o.punctuation
    ensures var p := ParagraphOf(group, o, stamp);
      p.Some? ==> Strip(p.value) != []
  {
    var p := ParagraphOf(group, o, stamp);
    if p.Some? {
      if o.includeTimestamps && (o.timestampMode == "paragraph" || o.timestampMode == "segment") {
        ParagraphOfShape(group, o, stamp);
        BracketSolid(p.value);
      } else {
        assert p.value == Clean(JoinedText(group), o);
        CleanSolid(JoinedText(group), o);
      }
    }
  }

  lemma {:induction false} CollectSolid(groups: seq<seq<Segment>>, o: Options, stamp: int -> string)
    requires o.punctuation
    ensures forall k :: 0 <= k < |Collect(groups, o, stamp)| ==> Strip(Collect(groups, o, stamp)[k]) != []
  {
    if groups != [] {
      var init := groups[..|groups| - 1];
      CollectSolid(init, o, stamp);
      var c := Collect(init, o, stamp);
      if LastOf(groups) != [] {
        ParagraphOfSolid(LastOf(groups), o, stamp);
      }
      var d := Collect(groups, o, stamp);
      assert d[..|c|] == c;
      forall k | 0 <= k < |c| ensures d[k] == c[k] {
        assert d[k] == d[..|c|][k];
      }
    }
  }

  /** With punctuation kept no paragraph is blank, so the Word document receives all of them. */
  lemma DocxKeepsAllWithPunctuation(segs: seq<Segment>, o: Options, stamp: int -> string)
    requires o.punctuation
    ensures DocxParagraphs(Paragraphs.Paragraphs(segs, o, stamp)) == Paragraphs.Paragraphs(segs, o, stamp)
  {
    var ps := Paragraphs.Paragraphs(segs, o, stamp);
    CollectSolid(Groups(segs, o.autoParagraphs, PauseThresholdMs(o.paragraphSensitivity)), o, stamp);
    var full := Clean(JoinedText(segs), o);
    if full != [] {
      CleanSolid(JoinedText(segs), o);
    }
    DocxAllSolid(ps);
  }

  lemma {:induction false} DocxAllSolid(paragraphs: seq<string>)
    requires forall k :: 0 <= k < |paragraphs| ==> Strip(paragraphs[k]) != []
    ensures DocxParagraphs(paragraphs) == paragraphs
  {
    if paragraphs != [] {
      var init := paragraphs[..|paragraphs| - 1];
      DocxAllSolid(init);
      assert paragraphs == init + [LastOf(paragraphs)];
    }
  }

  /**
   * With punctuation dropped the two outputs part ways: segments `"!"` and
   * `"?"` give the text file a single blank, and the Word document nothing.
   */
  lemma BlankFallbackOnlyInTxt(stamp: int -> string)
    ensures var o := Defaults("").(autoParagraphs := false, punctuation := false);
      var segs := [Segment(None, None, Some("!")), Segment(None, None, Some("?"))];
      TxtFile(Paragraphs.Paragraphs(segs, o, stamp)) == " " && DocxParagraphs(Paragraphs.Paragraphs(segs, o, stamp)) == []
  {
    FallbackCanBeBlank(stamp);
    assert Strip(" ") == [];
    assert [" "][..0] == [];
  }
}
