/**
 * `_build_paragraphs` (main.py): recognised segments are grouped into
 * paragraphs at long pauses (or one paragraph per segment when automatic
 * paragraphs are off), each group becomes one text with the timestamps the
 * settings ask for, and when no group yields any text the whole transcript
 * becomes the only paragraph.
 */
module Paragraphs {
  import opened Wrappers
  import opened Text
  import opened Timestamps
  import opened Cleaning
  import opened Settings

  /**
   * One recognised segment. Each key may be missing from the recogniser's
   * dictionary; times are milliseconds.
   */
  datatype Segment = Segment(start: Option<int>, end: Option<int>, text: Option<string>)

  function StartMs(s: Segment): int { s.start.GetOr(0) }

  function EndMs(s: Segment): int { s.end.GetOr(0) }

  function TextOf(s: Segment): string { s.text.GetOr("") }

  /** `2.0 + (paragraph_sensitivity / 100.0) * 3.0` seconds, in milliseconds. */
  function PauseThresholdMs(sensitivity: int): int {
    2000 + 30 * sensitivity
  }

  /** The silence between one segment and the next. */
  function Pause(a: Segment, b: Segment): int {
    StartMs(b) - EndMs(a)
  }

  /** Whether the group is closed after segment `i`: only before another segment, at a pause longer than the threshold. */
  predicate BreakAfter(segs: seq<Segment>, i: nat, threshold: int)
    requires i < |segs|
  {
    i < |segs| - 1 && Pause(segs[i], segs[i + 1]) > threshold
  }

  /** The concatenation of the groups. */
  function Flatten(groups: seq<seq<Segment>>): seq<Segment> {
    if groups == [] then [] else Flatten(groups[..|groups| - 1]) + groups[|groups| - 1]
  }

  lemma FlattenAppend(groups: seq<seq<Segment>>, g: seq<Segment>)
    ensures Flatten(groups + [g]) == Flatten(groups) + g
  {
    assert (groups + [g])[..|groups|] == groups;
  }

  /** No pause inside the group exceeds the threshold. */
  predicate Cohesive(group: seq<Segment>, threshold: int) {
    forall k :: 0 <= k < |group| - 1 ==> Pause(group[k], group[k + 1]) <= threshold
  }

  /** Every group is non-empty and cohesive, and every pause between two groups exceeds the threshold. */
  predicate WellSplit(groups: seq<seq<Segment>>, threshold: int) {
    (forall k :: 0 <= k < |groups| ==> groups[k] != [] && Cohesive(groups[k], threshold))
    && forall k :: 0 <= k < |groups| - 1 ==>
         Pause(groups[k][|groups[k]| - 1], groups[k + 1][0]) > threshold
  }

  /** The state of the grouping loop: `groups` and `current_group`. */
  datatype Grouping = Grouping(closed: seq<seq<Segment>>, current: seq<Segment>)

  /** The grouping loop after its first `n` iterations. */
  function Scan(segs: seq<Segment>, threshold: int, n: nat): Grouping
    requires n <= |segs|
  {
    if n == 0 then Grouping([], [])
    else
      var prev := Scan(segs, threshold, n - 1);
      var current := prev.current + [segs[n - 1]];
      if BreakAfter(segs, n - 1, threshold) then Grouping(prev.closed + [current], [])
      else Grouping(prev.closed, current)
  }

  /** The groups `_build_paragraphs` forms. */
  function Groups(segs: seq<Segment>, autoParagraphs: bool, threshold: int): seq<seq<Segment>> {
    if autoParagraphs then
      var last := Scan(segs, threshold, |segs|);
      if last.current != [] then last.closed + [last.current] else last.closed
    else
      seq(|segs|, k requires 0 <= k < |segs| => [segs[k]])
  }

  function LastOf<T>(s: seq<T>): T
    requires s != []
  {
    s[|s| - 1]
  }

  /** What the grouping loop keeps true after `n` iterations. */
  predicate ScanInv(segs: seq<Segment>, threshold: int, n: nat, st: Grouping)
    requires n <= |segs|
  {
    && Flatten(st.closed) + st.current == segs[..n]
    && WellSplit(st.closed, threshold)
    && Cohesive(st.current, threshold)
    && (n == 0 ==> st.closed == [] && st.current == [])
    && (n > 0 ==> (st.current == [] <==> BreakAfter(segs, n - 1, threshold)))
    && (st.closed != [] && st.current != [] ==> Pause(LastOf(LastOf(st.closed)), st.current[0]) > threshold)
  }

  lemma FlattenLast(groups: seq<seq<Segment>>)
    requires groups != [] && LastOf(groups) != []
    ensures Flatten(groups) != [] && LastOf(Flatten(groups)) == LastOf(LastOf(groups))
  {
  }

  lemma CohesiveAppend(c: seq<Segment>, x: Segment, threshold: int)
    requires Cohesive(c, threshold)
    requires c != [] ==> Pause(LastOf(c), x) <= threshold
    ensures Cohesive(c + [x], threshold)
  {
  }

  lemma WellSplitAppend(groups: seq<seq<Segment>>, c: seq<Segment>, threshold: int)
    requires WellSplit(groups, threshold) && c != [] && Cohesive(c, threshold)
    requires groups != [] ==> Pause(LastOf(LastOf(groups)), c[0]) > threshold
    ensures WellSplit(groups + [c], threshold)
  {
  }

  /** The last segment the grouping loop has seen sits at the end of `current`, or of the last closed group when `current` is empty. */
  lemma ScanPrevLast(segs: seq<Segment>, threshold: int, n: nat)
    requires 1 < n <= |segs|
    requires ScanInv(segs, threshold, n - 1, Scan(segs, threshold, n - 1))
    ensures var prev := Scan(segs, threshold, n - 1);
      && (prev.current != [] ==> LastOf(prev.current) == segs[n - 2])
      && (prev.current == [] ==> prev.closed != [] && LastOf(prev.closed) != []
                                 && LastOf(LastOf(prev.closed)) == segs[n - 2])
  {
    var prev := Scan(segs, threshold, n - 1);
    var g, c := prev.closed, prev.current;
    assert LastOf(segs[..n - 1]) == segs[n - 2];
    if c == [] {
      assert Flatten(g) == segs[..n - 1];
      assert g != [];
      assert LastOf(g) == g[|g| - 1];
      FlattenLast(g);
    }
  }

  /** The segments seen so far are the closed groups followed by `current`. */
  lemma ScanStepCover(segs: seq<Segment>, threshold: int, n: nat)
    requires 0 < n <= |segs|
    requires Flatten(Scan(segs, threshold, n - 1).closed) + Scan(segs, threshold, n - 1).current == segs[..n - 1]
    ensures Flatten(Scan(segs, threshold, n).closed) + Scan(segs, threshold, n).current == segs[..n]
  {
    var prev := Scan(segs, threshold, n - 1);
    var c' := prev.current + [segs[n - 1]];
    assert segs[..n] == segs[..n - 1] + [segs[n - 1]];
    if BreakAfter(segs, n - 1, threshold) {
      FlattenAppend(prev.closed, c');
    }
  }

  /** Appending the next segment keeps `current` cohesive and separated from the last closed group. */
  lemma ScanStepJoin(segs: seq<Segment>, threshold: int, n: nat)
    requires 0 < n <= |segs|
    requires ScanInv(segs, threshold, n - 1, Scan(segs, threshold, n - 1))
    ensures var prev := Scan(segs, threshold, n - 1);
      var c' := prev.current + [segs[n - 1]];
      && Cohesive(c', threshold)
      && (prev.closed != [] ==> Pause(LastOf(LastOf(prev.closed)), c'[0]) > threshold)
  {
    var prev := Scan(segs, threshold, n - 1);
    var c := prev.current;
    if n > 1 {
      ScanPrevLast(segs, threshold, n);
    }
    CohesiveAppend(c, segs[n - 1], threshold);
  }

  /** One iteration of the grouping loop keeps `ScanInv`. */
  lemma ScanStep(segs: seq<Segment>, threshold: int, n: nat)
    requires 0 < n <= |segs|
    requires ScanInv(segs, threshold, n - 1, Scan(segs, threshold, n - 1))
    ensures ScanInv(segs, threshold, n, Scan(segs, threshold, n))
  {
    var prev := Scan(segs, threshold, n - 1);
    ScanStepCover(segs, threshold, n);
    ScanStepJoin(segs, threshold, n);
    if BreakAfter(segs, n - 1, threshold) {
      WellSplitAppend(prev.closed, prev.current + [segs[n - 1]], threshold);
    }
  }

  lemma {:induction false} ScanShape(segs: seq<Segment>, threshold: int, n: nat)
    requires n <= |segs|
    ensures ScanInv(segs, threshold, n, Scan(segs, threshold, n))
  {
    if n > 0 {
      ScanShape(segs, threshold, n - 1);
      ScanStep(segs, threshold, n);
    }
  }

  /** Automatic paragraphs partition the segments into maximal runs without a long pause. */
  lemma GroupsSplitAtPauses(segs: seq<Segment>, threshold: int)
    ensures Flatten(Groups(segs, true, threshold)) == segs
    ensures WellSplit(Groups(segs, true, threshold), threshold)
  {
    ScanShape(segs, threshold, |segs|);
    var last := Scan(segs, threshold, |segs|);
    assert segs[..|segs|] == segs;
    if last.current != [] {
      FlattenAppend(last.closed, last.current);
      WellSplitAppend(last.closed, last.current, threshold);
    }
  }

  /** Without automatic paragraphs each segment is a group of its own. */
  lemma {:induction false} GroupsSingletons(segs: seq<Segment>, threshold: int)
    ensures var gs := Groups(segs, false, threshold);
      |gs| == |segs| && (forall k :: 0 <= k < |gs| ==> gs[k] == [segs[k]]) && Flatten(gs) == segs
  {
    if segs != [] {
      var init := segs[..|segs| - 1];
      GroupsSingletons(init, threshold);
      var gs := Groups(segs, false, threshold);
      assert gs[..|gs| - 1] == Groups(init, false, threshold);
      assert segs == init + [segs[|segs| - 1]];
    }
  }

  /** `[seg.get("text", "").strip() for seg in segs]`. */
  function Texts(segs: seq<Segment>): (texts: seq<string>)
    ensures |texts| == |segs|
    ensures forall i :: 0 <= i < |segs| ==> texts[i] == Strip(TextOf(segs[i]))
  {
    if segs == [] then [] else Texts(segs[..|segs| - 1]) + [Strip(TextOf(segs[|segs| - 1]))]
  }

  /** `" ".join(seg.get("text", "").strip() for seg in segs)`. */
  function JoinedText(segs: seq<Segment>): string {
    Join(" ", Texts(segs))
  }

  /**
   * `_format_timestamp_value(seconds, settings.timestamp_format)` as a
   * function of the time: the paragraph functions below take this as their
   * `stamp` parameter.
   */
  function Stamper(o: Options, fr: FloatRender): int -> string {
    ms => FormatTimestamp(ms, o.timestampFormat, Plain, fr)
  }

  function Clean(text: string, o: Options): string {
    CleanText(text, o.capitalization, o.punctuation)
  }

  /** The `[timestamp] text` parts of a group in segment mode, segments whose cleaned text is empty dropped. */
  function SegmentParts(group: seq<Segment>, o: Options, stamp: int -> string): (parts: seq<string>)
    ensures |parts| <= |group|
    ensures forall p :: p in parts ==> |p| > 3 && p[0] == '['
  {
    if group == [] then []
    else
      var seg := group[|group| - 1];
      var text := Clean(Strip(TextOf(seg)), o);
      SegmentParts(group[..|group| - 1], o, stamp)
      + (if text != [] then ["[" + stamp(StartMs(seg)) + "] " + text] else [])
  }

  /** The paragraph a non-empty group yields, if its text is not empty after cleaning. */
  function ParagraphOf(group: seq<Segment>, o: Options, stamp: int -> string): Option<string>
    requires group != []
  {
    if o.includeTimestamps && o.timestampMode == "paragraph" then
      var combined := Clean(JoinedText(group), o);
      if combined != [] then Some("[" + stamp(StartMs(group[0])) + "] " + combined) else None
    else if o.includeTimestamps && o.timestampMode == "segment" then
      var parts := SegmentParts(group, o, stamp);
      if parts != [] then Some(Join(" ", parts)) else None
    else
      var combined := Clean(JoinedText(group), o);
      if combined != [] then Some(combined) else None
  }

  /** The paragraphs the groups loop collects. */
  function Collect(groups: seq<seq<Segment>>, o: Options, stamp: int -> string): seq<string> {
    if groups == [] then []
    else
      var group := groups[|groups| - 1];
      Collect(groups[..|groups| - 1], o, stamp)
      + (if group == [] then []
         else match ParagraphOf(group, o, stamp)
              case Some(p) => [p]
              case None => [])
  }

  /** `_build_paragraphs(segments, settings)`. */
  function Paragraphs(segs: seq<Segment>, o: Options, stamp: int -> string): seq<string> {
    var collected := Collect(Groups(segs, o.autoParagraphs, PauseThresholdMs(o.paragraphSensitivity)), o, stamp);
    if collected != [] then collected
    else
      var full := Clean(JoinedText(segs), o);
      if full != [] then [full] else []
  }

  /** The grouping loop of `_build_paragraphs` and the closing `if current_group`. */
  method GroupAtPauses(segs: seq<Segment>, threshold: int) returns (groups: seq<seq<Segment>>)
    ensures groups == Groups(segs, true, threshold)
  {
    groups := [];
    var current: seq<Segment> := [];
    for i := 0 to |segs|
      invariant Grouping(groups, current) == Scan(segs, threshold, i)
    {
      current := current + [segs[i]];
      if i < |segs| - 1 {
        var pause := StartMs(segs[i + 1]) - EndMs(segs[i]);
        if pause > threshold {
          groups := groups + [current];
          current := [];
        }
      }
    }
    if current != [] {
      groups := groups + [current];
    }
  }

  /** The `for seg in group` loop of segment mode. */
  method CollectSegmentParts(group: seq<Segment>, o: Options, stamp: int -> string) returns (parts: seq<string>)
    ensures parts == SegmentParts(group, o, stamp)
  {
    parts := [];
    for i := 0 to |group|
      invariant parts == SegmentParts(group[..i], o, stamp)
    {
      assert group[..i + 1][..i] == group[..i];
      var seg := group[i];
      var text := Clean(Strip(TextOf(seg)), o);
      if text != [] {
        parts := parts + ["[" + stamp(StartMs(seg)) + "] " + text];
      }
    }
    assert group[..|group|] == group;
  }

  /** The body of the loop over the groups, for a non-empty group. */
  method BuildParagraph(group: seq<Segment>, o: Options, stamp: int -> string) returns (p: Option<string>)
    requires group != []
    ensures p == ParagraphOf(group, o, stamp)
  {
    if o.includeTimestamps && o.timestampMode == "paragraph" {
      var combined := Clean(JoinedText(group), o);
      p := if combined != [] then Some("[" + stamp(StartMs(group[0])) + "] " + combined) else None;
    } else if o.includeTimestamps && o.timestampMode == "segment" {
      var parts := CollectSegmentParts(group, o, stamp);
      p := if parts != [] then Some(Join(" ", parts)) else None;
    } else {
      var combined := Clean(JoinedText(group), o);
      p := if combined != [] then Some(combined) else None;
    }
  }

  /** The loop over the groups: a paragraph for each non-empty group that yields one. */
  method CollectParagraphs(groups: seq<seq<Segment>>, o: Options, stamp: int -> string) returns (paragraphs: seq<string>)
    ensures paragraphs == Collect(groups, o, stamp)
  {
    paragraphs := [];
    for i := 0 to |groups|
      invariant paragraphs == Collect(groups[..i], o, stamp)
    {
      var group := groups[i];
      assert groups[..i + 1][..i] == groups[..i];
      if group == [] {
        continue;
      }
      var p := BuildParagraph(group, o, stamp);
      if p.Some? {
        paragraphs := paragraphs + [p.value];
      }
    }
    assert groups[..|groups|] == groups;
  }

  /** `_build_paragraphs`: the groups, the loop over them, and the whole-transcript fallback. */
  method BuildParagraphs(segs: seq<Segment>, o: Options, stamp: int -> string) returns (paragraphs: seq<string>)
    ensures paragraphs == Paragraphs(segs, o, stamp)
  {
    var groups: seq<seq<Segment>>;
    if o.autoParagraphs {
      groups := GroupAtPauses(segs, PauseThresholdMs(o.paragraphSensitivity));
    } else {
      groups := seq(|segs|, k requires 0 <= k < |segs| => [segs[k]]);
    }
    paragraphs := CollectParagraphs(groups, o, stamp);
    if paragraphs == [] {
      var full := Clean(JoinedText(segs), o);
      if full != [] {
        paragraphs := [full];
      }
    }
  }

  /** A group's paragraph is never empty, and opens with `[` when it carries timestamps. */
  lemma ParagraphOfShape(group: seq<Segment>, o: Options, stamp: int -> string)
    requires group != []
    ensures var p := ParagraphOf(group, o, stamp);
      && (p.Some? ==> p.value != [])
      && (p.Some? && o.includeTimestamps && (o.timestampMode == "paragraph" || o.timestampMode == "segment")
          ==> p.value[0] == '[')
  {
    if o.includeTimestamps && o.timestampMode != "paragraph" && o.timestampMode == "segment" {
      var parts := SegmentParts(group, o, stamp);
      if parts != [] {
        JoinStartsWith(parts);
      }
    }
  }

  /** No collected paragraph is empty. */
  lemma {:induction false} CollectNonEmpty(groups: seq<seq<Segment>>, o: Options, stamp: int -> string)
    ensures forall p :: p in Collect(groups, o, stamp) ==> p != []
  {
    if groups != [] {
      CollectNonEmpty(groups[..|groups| - 1], o, stamp);
      if LastOf(groups) != [] {
        ParagraphOfShape(LastOf(groups), o, stamp);
      }
    }
  }

  /** Every paragraph is a non-empty string. */
  lemma ParagraphsNonEmpty(segs: seq<Segment>, o: Options, stamp: int -> string)
    ensures forall p :: p in Paragraphs(segs, o, stamp) ==> p != []
  {
    CollectNonEmpty(Groups(segs, o.autoParagraphs, PauseThresholdMs(o.paragraphSensitivity)), o, stamp);
  }

  /** A transcript without segments has no paragraphs. */
  lemma NoSegmentsNoParagraphs(o: Options, stamp: int -> string)
    ensures Paragraphs([], o, stamp) == []
  {
    assert Collect(Groups([], o.autoParagraphs, PauseThresholdMs(o.paragraphSensitivity)), o, stamp) == [];
    assert Join(" ", []) == "";
    StripOfStripped("");
  }

  /** `word` (and `none` or any other mode) with timestamps on gives the same paragraphs as timestamps off. */
  lemma {:induction false} CollectWordModeIsPlain(groups: seq<seq<Segment>>, o: Options, stamp: int -> string)
    requires o.timestampMode != "paragraph" && o.timestampMode != "segment"
    ensures Collect(groups, o, stamp) == Collect(groups, o.(includeTimestamps := false), stamp)
  {
    if groups != [] {
      CollectWordModeIsPlain(groups[..|groups| - 1], o, stamp);
    }
  }

  lemma WordModeIsPlain(segs: seq<Segment>, o: Options, stamp: int -> string)
    requires o.timestampMode != "paragraph" && o.timestampMode != "segment"
    ensures Paragraphs(segs, o, stamp) == Paragraphs(segs, o.(includeTimestamps := false), stamp)
  {
    CollectWordModeIsPlain(Groups(segs, o.autoParagraphs, PauseThresholdMs(o.paragraphSensitivity)), o, stamp);
  }

  /** In paragraph and segment mode every collected paragraph opens with a bracketed timestamp. */
  lemma {:induction false} CollectStamped(groups: seq<seq<Segment>>, o: Options, stamp: int -> string)
    requires o.includeTimestamps && (o.timestampMode == "paragraph" || o.timestampMode == "segment")
    ensures forall p :: p in Collect(groups, o, stamp) ==> p != [] && p[0] == '['
  {
    if groups != [] {
      CollectStamped(groups[..|groups| - 1], o, stamp);
      if LastOf(groups) != [] {
        ParagraphOfShape(LastOf(groups), o, stamp);
      }
    }
  }

  /** A join starts with its first part. */
  lemma {:induction false} JoinStartsWith(parts: seq<string>)
    requires parts != [] && parts[0] != []
    ensures Join(" ", parts) != [] && Join(" ", parts)[0] == parts[0][0]
  {
    if |parts| > 1 {
      JoinStartsWith(parts[..|parts| - 1]);
    }
  }

  /**
   * When every group cleans to nothing the transcript as a whole is cleaned
   * instead, and with punctuation off that can leave a lone blank: segments
   * `"!"` and `"?"` yield the single paragraph `" "`.
   */
  lemma FallbackCanBeBlank(stamp: int -> string)
    ensures var o := Defaults("").(autoParagraphs := false, punctuation := false);
      Paragraphs([Segment(None, None, Some("!")), Segment(None, None, Some("?"))], o, stamp) == [" "]
  {
    var o := Defaults("").(autoParagraphs := false, punctuation := false);
    var a, b := Segment(None, None, Some("!")), Segment(None, None, Some("?"));
    var segs := [a, b];
    var groups := Groups(segs, false, PauseThresholdMs(o.paragraphSensitivity));
    assert groups == [[a], [b]];
    MarksCollectNothing(a, b, o, stamp);
    MarksJoined(a, b);
    BlankAfterCleaning();
  }

  /** Two groups of one lone mark each collect no paragraph. */
  lemma MarksCollectNothing(a: Segment, b: Segment, o: Options, stamp: int -> string)
    requires a.text == Some("!") && b.text == Some("?")
    requires !o.includeTimestamps && !o.punctuation
    ensures Collect([[a], [b]], o, stamp) == []
  {
    MarkCleansToNothing(a, o, stamp);
    MarkCleansToNothing(b, o, stamp);
    var gs := [[a], [b]];
    assert gs[..1] == [[a]] && gs[1] == [b];
    assert ParagraphOf(gs[1], o, stamp) == None;
    assert Collect(gs, o, stamp) == Collect([[a]], o, stamp) + [];
  }

  lemma MarksJoined(a: Segment, b: Segment)
    requires a.text == Some("!") && b.text == Some("?")
    ensures JoinedText([a, b]) == "! ?"
  {
    TextsOfMark(a);
    TextsOfMark(b);
    TextsOfTwo(a, b);
    assert ["!"] + ["?"] == ["!", "?"];
    JoinTwo(" ", "!", "?");
    SpacedMarks();
  }

  lemma SpacedMarks()
    ensures "!" + " " + "?" == "! ?"
  {
    var s := "!" + " " + "?";
    assert s[0] == '!' && s[1] == ' ' && s[2] == '?';
  }

  lemma TextsOfTwo(a: Segment, b: Segment)
    ensures Texts([a, b]) == Texts([a]) + Texts([b])
  {
    assert [a, b][..1] == [a];
    assert [b][..0] == [];
  }

  lemma JoinTwo(sep: string, x: string, y: string)
    ensures Join(sep, [x, y]) == x + sep + y
  {
    assert [x, y][..1] == [x];
  }

  lemma BlankAfterCleaning()
    ensures CleanText("! ?", true, false) == " "
  {
    assert Stripped("! ?");
    StripOfStripped("! ?");
    assert CapFirst("! ?") == "! ?";
    assert RemovePunct("! ?") == " " by {
      assert "! ?"[1..] == " ?";
      assert " ?"[1..] == "?";
      assert "?"[1..] == [];
    }
  }

  /** The text of a one-character segment is that character. */
  lemma TextsOfMark(seg: Segment)
    requires seg.text.Some? && |seg.text.value| == 1 && IsPunct(seg.text.value[0])
    ensures Texts([seg]) == [seg.text.value]
  {
    var t := seg.text.value;
    assert !IsSpace(t[0]);
    assert Stripped(t);
    StripOfStripped(t);
    assert [seg][..0] == [];
  }

  /** A segment that is a lone punctuation mark yields no paragraph once punctuation is dropped. */
  lemma MarkCleansToNothing(seg: Segment, o: Options, stamp: int -> string)
    requires seg.text.Some? && |seg.text.value| == 1 && IsPunct(seg.text.value[0])
    requires !o.includeTimestamps && !o.punctuation
    ensures ParagraphOf([seg], o, stamp) == None
    ensures Collect([[seg]], o, stamp) == []
  {
    TextsOfMark(seg);
    LoneMarkCleansToNothing(seg.text.value, o.capitalization);
    assert JoinedText([seg]) == seg.text.value;
    assert ParagraphOf([seg], o, stamp) == None;
    assert [[seg]][..0] == [];
  }
}
