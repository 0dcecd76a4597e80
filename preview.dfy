/**
 * The live preview of the settings window (advanced_settings.py): its own
 * text normaliser `_apply_text_formatting`, the pause threshold and
 * description of the sensitivity slider, and the text branch of
 * `update_preview`, which lays the sample sentences out in paragraphs.
 * The preview works on its own rules, which differ from those of the files
 * main.py writes.
 */
module Preview {
  import opened Wrappers
  import opened Text
  import opened Cleaning
  import Paragraphs
  import Renderers

  // ---------------------------------------------------------------------
  // _apply_text_formatting
  // ---------------------------------------------------------------------

  /** The marks of `['.', '!', '?', ',']`: a text ending in one gets nothing appended. */
  predicate IsClosingMark(c: char) {
    c == '.' || c == '!' || c == '?' || c == ','
  }

  /** The marks of `rstrip('.,!?;:')`. */
  predicate IsTrailingMark(c: char) {
    IsClosingMark(c) || c == ';' || c == ':'
  }

  predicate EndsClosed(s: string) {
    s != [] && IsClosingMark(s[|s| - 1])
  }

  /** `s.rstrip('.,!?;:')`. */
  function TrimMarks(s: string): (r: string)
    ensures |r| <= |s|
    ensures r == [] || !IsTrailingMark(r[|r| - 1])
  {
    if s != [] && IsTrailingMark(s[|s| - 1]) then TrimMarks(s[..|s| - 1]) else s
  }

  /** `TrimMarks` keeps a prefix and drops only marks. */
  lemma {:induction false} TrimMarksPrefix(s: string)
    ensures TrimMarks(s) == s[..|TrimMarks(s)|]
    ensures forall k :: |TrimMarks(s)| <= k < |s| ==> IsTrailingMark(s[k])
  {
    if s != [] && IsTrailingMark(s[|s| - 1]) {
      TrimMarksPrefix(s[..|s| - 1]);
    }
  }

  /** The appended mark: `?` for a question — a `?` in the text, or `você` in it once lower-cased — else `.`. */
  function AppendedMark(text: string): char {
    if '?' in text || Contains(Lower(text), "você") then '?' else '.'
  }

  /** `_apply_text_formatting(text, punct, caps)`. */
  function FormatText(text: string, punct: bool, caps: bool): string {
    var cased := Cased(text, caps);
    if punct && !EndsClosed(cased) then cased + [AppendedMark(text)]
    else if !punct then TrimMarks(cased)
    else cased
  }

  /**
   * With punctuation on the result ends in a closing mark: the cased text
   * when it ends in one already, else the cased text and one appended mark.
   */
  lemma FormatWithPunctuation(text: string, caps: bool)
    ensures var r, cased := FormatText(text, true, caps), Cased(text, caps);
      && EndsClosed(r)
      && (EndsClosed(cased) ==> r == cased)
      && (!EndsClosed(cased) ==> r == cased + [AppendedMark(text)])
      && (!EndsClosed(cased) ==> (r[|r| - 1] == '?' <==> '?' in text || Contains(Lower(text), "você")))
  {
  }

  /**
   * With punctuation off only trailing marks go: the result is the cased
   * text up to its last character outside `.,!?;:`, so marks inside it stay.
   */
  lemma FormatWithoutPunctuation(text: string, caps: bool)
    ensures var r, cased := FormatText(text, false, caps), Cased(text, caps);
      && r == cased[..|r|]
      && (r == [] || !IsTrailingMark(r[|r| - 1]))
      && (forall k :: |r| <= k < |cased| ==> IsTrailingMark(cased[k]))
  {
    TrimMarksPrefix(Cased(text, caps));
  }

  /** In the case step both settings agree with `_clean_text`: lower-case everything, or upper-case the first character. */
  lemma FormatCase(text: string, punct: bool)
    ensures IsLowerStr(FormatText(text, punct, false))
    ensures text != [] && FormatText(text, punct, true) != [] ==> FormatText(text, punct, true)[0] == ToUpper(text[0])
  {
    var l := Lower(text);
    LowerIsLowerStr(text);
    if !punct {
      TrimMarksPrefix(l);
      var r := TrimMarks(l);
      forall i | 0 <= i < |r| ensures ToLower(r[i]) == r[i] {
        assert r[i] == l[i];
      }
      TrimMarksPrefix(CapFirst(text));
    } else if !EndsClosed(l) {
      var r := l + [AppendedMark(text)];
      forall i | 0 <= i < |r| ensures ToLower(r[i]) == r[i] {
        if i < |l| {
          assert r[i] == l[i];
        }
      }
    }
  }

  /** A text the case step would not change. */
  predicate CaseFixed(s: string, caps: bool) {
    if caps then s == [] || ToUpper(s[0]) == s[0] else IsLowerStr(s)
  }

  lemma CasedFixed(s: string, caps: bool)
    requires CaseFixed(s, caps)
    ensures Cased(s, caps) == s
  {
    if caps {
      if s != [] {
        assert s == [s[0]] + s[1..];
      }
    } else {
      LowerOfLowerStr(s);
    }
  }

  /** What `_apply_text_formatting` returns is left alone by its own case step. */
  lemma FormatCaseFixed(text: string, punct: bool, caps: bool)
    ensures CaseFixed(FormatText(text, punct, caps), caps)
  {
    if caps {
      var cased := Cased(text, true);
      var r := FormatText(text, punct, true);
      if text != [] {
        UpperFacts(text[0]);
      }
      if !punct {
        TrimMarksPrefix(cased);
      }
      if r != [] && cased != [] {
        assert r[0] == cased[0];
      }
    } else {
      FormatCase(text, punct);
    }
  }

  /** A second pass changes nothing. */
  lemma FormatIdempotent(text: string, punct: bool, caps: bool)
    ensures FormatText(FormatText(text, punct, caps), punct, caps) == FormatText(text, punct, caps)
  {
    var r := FormatText(text, punct, caps);
    FormatCaseFixed(text, punct, caps);
    CasedFixed(r, caps);
    if punct {
      FormatWithPunctuation(text, caps);
    }
  }

  lemma TrimMarksOfTrimmed(s: string)
    requires s == [] || !IsTrailingMark(s[|s| - 1])
    ensures TrimMarks(s) == s
  {
  }

  /**
   * The preview keeps a comma inside a sentence that `_clean_text` (main.py)
   * removes: `"a,b"` with punctuation off.
   */
  lemma PreviewKeepsInnerMarks()
    ensures FormatText("a,b", false, false) == "a,b"
    ensures CleanText("a,b", false, false) == "ab"
  {
    assert Lower("a,b") == "a,b" by {
      LowerOfLowerStr("a,b");
    }
    assert Stripped("a,b");
    StripOfStripped("a,b");
    assert RemovePunct("a,b") == "ab" by {
      assert "a,b"[1..] == ",b";
      assert ",b"[1..] == "b";
      RemovePunctOfClean("b");
    }
  }

  // ---------------------------------------------------------------------
  // update_sensitivity_label
  // ---------------------------------------------------------------------

  /** `0.5 + (value / 100.0) * 4.5` seconds, in milliseconds. */
  function PreviewThresholdMs(value: int): int {
    500 + 45 * value
  }

  /** The four descriptions of the slider, from very to barely sensitive. */
  datatype Bucket = VerySensitive | Moderate | LessSensitive | BarelySensitive

  function BucketFor(value: int): Bucket {
    if value < 25 then VerySensitive
    else if value < 50 then Moderate
    else if value < 75 then LessSensitive
    else BarelySensitive
  }

  function Description(b: Bucket): string {
    match b
    case VerySensitive => "Muito sensível - Cria parágrafos com pausas curtas"
    case Moderate => "Moderado - Equilíbrio entre parágrafos curtos e longos"
    case LessSensitive => "Menos sensível - Parágrafos mais longos"
    case BarelySensitive => "Pouco sensível - Apenas pausas muito longas criam parágrafos"
  }

  function Rank(b: Bucket): nat {
    match b
    case VerySensitive => 0
    case Moderate => 1
    case LessSensitive => 2
    case BarelySensitive => 3
  }

  /** On the slider's range 0..100 the threshold grows strictly from 0.5 s to 5.0 s. */
  lemma ThresholdRange(v1: int, v2: int)
    ensures 0 <= v1 <= 100 ==> 500 <= PreviewThresholdMs(v1) <= 5000
    ensures v1 < v2 ==> PreviewThresholdMs(v1) < PreviewThresholdMs(v2)
  {
  }

  /** The description never gets more sensitive as the slider moves up. */
  lemma BucketsOrdered(v1: int, v2: int)
    requires v1 <= v2
    ensures Rank(BucketFor(v1)) <= Rank(BucketFor(v2))
  {
  }

  /** The description a value gets is decided by the pause it sets: below 1.625 s, 2.75 s and 3.875 s. */
  lemma BucketByPause(v: int)
    ensures BucketFor(v) == VerySensitive <==> PreviewThresholdMs(v) < 1625
    ensures BucketFor(v) == Moderate <==> 1625 <= PreviewThresholdMs(v) < 2750
    ensures BucketFor(v) == LessSensitive <==> 2750 <= PreviewThresholdMs(v) < 3875
    ensures BucketFor(v) == BarelySensitive <==> 3875 <= PreviewThresholdMs(v)
  {
  }

  /**
   * The preview pause and the pause main.py groups paragraphs at agree only
   * at the top of the slider; below it the preview breaks on shorter pauses.
   */
  lemma ThresholdsDiffer(v: int)
    ensures PreviewThresholdMs(v) == Paragraphs.PauseThresholdMs(v) <==> v == 100
    ensures v < 100 ==> PreviewThresholdMs(v) < Paragraphs.PauseThresholdMs(v)
  {
  }

  // ---------------------------------------------------------------------
  // update_preview, text branch
  // ---------------------------------------------------------------------

  /** The length of the word `s` starts with. */
  function WordLength(s: string): (n: nat)
    ensures n <= |s|
  {
    if s == [] || IsSpace(s[0]) then 0 else 1 + WordLength(s[1..])
  }

  /** Python's `str.split()`: the maximal runs of non-whitespace, in order. */
  function Words(s: string): seq<string>
    decreases |s|
  {
    if s == [] then []
    else if IsSpace(s[0]) then Words(s[1..])
    else
      var n := WordLength(s);
      [s[..n]] + Words(s[n..])
  }

  /** The characters of `s` that are not whitespace, in order. */
  function NonSpace(s: string): string {
    if s == [] then [] else (if IsSpace(s[0]) then [] else [s[0]]) + NonSpace(s[1..])
  }

  function Concat(ws: seq<string>): string {
    if ws == [] then [] else ws[0] + Concat(ws[1..])
  }

  /** A word is whitespace-free and its end is whitespace or the end of the text. */
  lemma {:induction false} WordLengthFacts(s: string)
    ensures forall k :: 0 <= k < WordLength(s) ==> !IsSpace(s[k])
    ensures WordLength(s) < |s| ==> IsSpace(s[WordLength(s)])
  {
    if s != [] && !IsSpace(s[0]) {
      WordLengthFacts(s[1..]);
      forall k | 1 <= k < WordLength(s) ensures !IsSpace(s[k]) {
        assert s[k] == s[1..][k - 1];
      }
    }
  }

  /** The whitespace-free characters of a text are those of its first word and of the rest. */
  lemma {:induction false} NonSpaceOfWord(s: string)
    ensures NonSpace(s) == s[..WordLength(s)] + NonSpace(s[WordLength(s)..])
  {
    if s != [] && !IsSpace(s[0]) {
      NonSpaceOfWord(s[1..]);
      var n := WordLength(s);
      assert s[1..][..n - 1] == s[1..n];
      assert s[1..][n - 1..] == s[n..];
      assert s[..n] == [s[0]] + s[1..n];
    }
  }

  /** `str.split()` loses only whitespace: the words put together are the text without its whitespace. */
  lemma {:induction false} WordsKeepText(s: string)
    ensures Concat(Words(s)) == NonSpace(s)
    decreases |s|
  {
    if s != [] {
      if IsSpace(s[0]) {
        WordsKeepText(s[1..]);
      } else {
        var n := WordLength(s);
        NonSpaceOfWord(s);
        WordsKeepText(s[n..]);
        assert Words(s) == [s[..n]] + Words(s[n..]);
        assert Concat(Words(s)) == s[..n] + Concat(Words(s[n..])) by {
          assert ([s[..n]] + Words(s[n..]))[1..] == Words(s[n..]);
        }
      }
    }
  }

  /** Every word is non-empty and holds no whitespace. */
  lemma {:induction false} WordsAreWords(s: string)
    ensures forall w :: w in Words(s) ==> w != [] && forall k :: 0 <= k < |w| ==> !IsSpace(w[k])
    decreases |s|
  {
    if s != [] {
      if IsSpace(s[0]) {
        WordsAreWords(s[1..]);
      } else {
        var n := WordLength(s);
        WordLengthFacts(s);
        WordsAreWords(s[n..]);
      }
    }
  }

  /** One of the sample sentences: its start, its text and its speaker. */
  datatype Entry = Entry(timeMs: int, text: string, speaker: string)

  /** The values `update_preview` reads from the window's variables. */
  datatype PreviewOptions = PreviewOptions(
    includeTimestamps: bool, timestampMode: string, showSpeakers: bool,
    autoParagraphs: bool, punctuation: bool, capitalization: bool, sensitivity: int)

  /** `example_text`, times in milliseconds. */
  const ExampleText: seq<Entry> := [
    Entry(0, "Olá e bem-vindo ao TextifyVoice", "Speaker 1"),
    Entry(3500, "este é um exemplo de como suas configurações afetarão o resultado final da transcrição", "Speaker 1"),
    Entry(9200, "note como os timestamps e a formatação mudam conforme você ajusta as opções", "Speaker 1"),
    Entry(15800, "você concorda com isso", "Speaker 2"),
    Entry(17500, "sim concordo perfeitamente", "Speaker 1"),
    Entry(20100, "as configurações de parágrafo detectam pausas longas na fala", "Speaker 1"),
    Entry(26300, "e criam quebras automáticas para melhorar a legibilidade do texto transcrito", "Speaker 1")]

  /**
   * On the sample at the default sensitivity (a 2.75 s threshold), automatic
   * paragraphs break before the second, third, fourth and last sentences,
   * which follow gaps of 3.5 s, 5.7 s, 6.6 s and 6.2 s.
   */
  lemma SampleBreaksAtDefault(o: PreviewOptions)
    requires o.autoParagraphs && o.sensitivity == 50
    ensures forall i :: 0 <= i < |ExampleText| ==> (PauseBreak(ExampleText, i, o) <==> i == 1 || i == 2 || i == 3 || i == 6)
  {
  }

  /** `should_break`: with automatic paragraphs, the start-to-start gap from the previous sentence exceeds the threshold. */
  predicate PauseBreak(es: seq<Entry>, i: nat, o: PreviewOptions)
    requires i < |es|
  {
    o.autoParagraphs && i > 0 && es[i].timeMs - es[i - 1].timeMs > PreviewThresholdMs(o.sensitivity)
  }

  /** `last_speaker` once `i` sentences are written: speakers are recorded only when they are shown. */
  function LastSpeaker(es: seq<Entry>, i: nat, o: PreviewOptions): Option<string>
    requires i <= |es|
  {
    if o.showSpeakers && i > 0 then Some(es[i - 1].speaker) else None
  }

  /** Sentence `i` opens a paragraph: a long pause, or a speaker change while speakers are shown. */
  predicate OpensParagraph(es: seq<Entry>, i: nat, o: PreviewOptions)
    requires i < |es|
  {
    PauseBreak(es, i, o) || (o.showSpeakers && Some(es[i].speaker) != LastSpeaker(es, i, o))
  }

  /** `paragraph_start_index` once sentence `i` has been looked at. */
  function ParagraphStart(es: seq<Entry>, i: nat, o: PreviewOptions): (j: nat)
    requires i < |es|
    ensures j <= i
  {
    if i == 0 || OpensParagraph(es, i, o) then i else ParagraphStart(es, i - 1, o)
  }

  /** The speaker label is written when the speaker changes or a pause breaks the paragraph. */
  predicate Labelled(es: seq<Entry>, i: nat, o: PreviewOptions)
    requires i < |es|
  {
    o.showSpeakers && (Some(es[i].speaker) != LastSpeaker(es, i, o) || PauseBreak(es, i, o))
  }

  /** Word mode: each word with its own time (0.3 s apart), formatted on its own and followed by a space. */
  function WordPieces(words: seq<string>, timeMs: int, o: PreviewOptions, stamp: int -> string): string {
    if words == [] then ""
    else
      WordPieces(words[..|words| - 1], timeMs, o, stamp)
      + "[" + stamp(timeMs + 300 * (|words| - 1)) + "] "
      + FormatText(words[|words| - 1], o.punctuation, o.capitalization) + " "
  }

  /** A segment or paragraph timestamp precedes sentence `i`. */
  predicate Stamped(es: seq<Entry>, i: nat, o: PreviewOptions)
    requires i < |es|
  {
    o.includeTimestamps && o.timestampMode != "word"
    && (o.timestampMode == "segment" || (o.timestampMode == "paragraph" && i == ParagraphStart(es, i, o)))
  }

  /** What sentence `i` contributes after its label. */
  function Body(es: seq<Entry>, i: nat, o: PreviewOptions, stamp: int -> string): string
    requires i < |es|
  {
    if o.includeTimestamps && o.timestampMode == "word" then WordPieces(Words(es[i].text), es[i].timeMs, o, stamp)
    else (if Stamped(es, i, o) then "[" + stamp(es[i].timeMs) + "] " else "")
         + FormatText(es[i].text, o.punctuation, o.capitalization)
  }

  /** Everything written for sentence `i`: a blank line if it opens a later paragraph, the label, the body, a space between sentences. */
  function Piece(es: seq<Entry>, i: nat, o: PreviewOptions, stamp: int -> string): string
    requires i < |es|
  {
    (if OpensParagraph(es, i, o) && i > 0 then "\n\n" else "")
    + (if Labelled(es, i, o) then es[i].speaker + ": " else "")
    + Body(es, i, o, stamp)
    + (if i < |es| - 1 then " " else "")
  }

  /** The pieces of the first `n` sentences. */
  function Pieces(es: seq<Entry>, n: nat, o: PreviewOptions, stamp: int -> string): string
    requires n <= |es|
  {
    if n == 0 then "" else Pieces(es, n - 1, o, stamp) + Piece(es, n - 1, o, stamp)
  }

  /** The words of one sentence in word mode: the inner `for j, word in enumerate(words)` loop. */
  method WriteWords(text: string, timeMs: int, o: PreviewOptions, stamp: int -> string) returns (out: string)
    ensures out == WordPieces(Words(text), timeMs, o, stamp)
  {
    var words := Words(text);
    out := "";
    for j := 0 to |words|
      invariant out == WordPieces(words[..j], timeMs, o, stamp)
    {
      assert words[..j + 1][..j] == words[..j];
      var wordTime := timeMs + 300 * j;
      out := out + "[" + stamp(wordTime) + "] ";
      out := out + FormatText(words[j], o.punctuation, o.capitalization) + " ";
    }
    assert words[..|words|] == words;
  }

  /** What follows the label of sentence `i`: word stamps, or a segment or paragraph stamp and the text. */
  method WriteBody(es: seq<Entry>, i: nat, o: PreviewOptions, stamp: int -> string, paragraphStartIndex: nat)
    returns (body: string)
    requires i < |es| && paragraphStartIndex == ParagraphStart(es, i, o)
    ensures body == Body(es, i, o, stamp)
  {
    var e := es[i];
    if o.includeTimestamps {
      if o.timestampMode == "word" {
        body := WriteWords(e.text, e.timeMs, o, stamp);
      } else {
        body := "";
        if o.timestampMode == "segment" || (o.timestampMode == "paragraph" && i == paragraphStartIndex) {
          body := body + "[" + stamp(e.timeMs) + "] ";
        }
        body := body + FormatText(e.text, o.punctuation, o.capitalization);
      }
    } else {
      body := FormatText(e.text, o.punctuation, o.capitalization);
    }
  }

  lemma PieceOf(es: seq<Entry>, i: nat, o: PreviewOptions, stamp: int -> string,
                gap: string, speakerLabel: string, body: string, tail: string)
    requires i < |es|
    requires gap == if OpensParagraph(es, i, o) && i > 0 then "\n\n" else ""
    requires speakerLabel == if Labelled(es, i, o) then es[i].speaker + ": " else ""
    requires body == Body(es, i, o, stamp)
    requires tail == if i < |es| - 1 then " " else ""
    ensures Pieces(es, i + 1, o, stamp) == Pieces(es, i, o, stamp) + (gap + speakerLabel + body + tail)
  {
  }

  /**
   * The text branch of `update_preview` on the sentences `es`, the text
   * widget modelled as the string written to it and `stamp` standing for
   * `_format_preview_timestamp(., ts_format)`.
   */
  method PreviewText(es: seq<Entry>, o: PreviewOptions, stamp: int -> string) returns (widget: string)
    ensures widget == Pieces(es, |es|, o, stamp)
  {
    widget := "";
    var lastSpeaker: Option<string> := None;
    var paragraphStartIndex := 0;
    for i := 0 to |es|
      invariant widget == Pieces(es, i, o, stamp)
      invariant lastSpeaker == LastSpeaker(es, i, o)
      invariant paragraphStartIndex == if i == 0 then 0 else ParagraphStart(es, i - 1, o)
    {
      var e := es[i];
      var shouldBreak := false;
      if o.autoParagraphs && i > 0 {
        var timeDiff := e.timeMs - es[i - 1].timeMs;
        shouldBreak := timeDiff > PreviewThresholdMs(o.sensitivity);
      }
      assert shouldBreak == PauseBreak(es, i, o);
      var gap := "";
      if shouldBreak || (o.showSpeakers && Some(e.speaker) != lastSpeaker) {
        if i > 0 {
          gap := "\n\n";
        }
        paragraphStartIndex := i;
      }
      assert gap == if OpensParagraph(es, i, o) && i > 0 then "\n\n" else "";
      assert paragraphStartIndex == ParagraphStart(es, i, o);
      var speakerLabel := "";
      if o.showSpeakers && (Some(e.speaker) != lastSpeaker || shouldBreak) {
        speakerLabel := e.speaker + ": ";
        lastSpeaker := Some(e.speaker);
      }
      assert speakerLabel == if Labelled(es, i, o) then es[i].speaker + ": " else "";
      var body := WriteBody(es, i, o, stamp, paragraphStartIndex);
      var tail := if i < |es| - 1 then " " else "";
      PieceOf(es, i, o, stamp, gap, speakerLabel, body, tail);
      var piece := gap + speakerLabel + body + tail;
      widget := widget + piece;
    }
  }

  /** The paragraph a sentence belongs to starts at the first sentence or at one that opens a paragraph, and nothing after that start opens another. */
  lemma {:induction false} ParagraphStartFacts(es: seq<Entry>, i: nat, o: PreviewOptions)
    requires i < |es|
    ensures var j := ParagraphStart(es, i, o);
      (j == 0 || OpensParagraph(es, j, o))
      && forall k :: j < k <= i ==> !OpensParagraph(es, k, o)
  {
    if i > 0 && !OpensParagraph(es, i, o) {
      ParagraphStartFacts(es, i - 1, o);
    }
  }

  /**
   * Which sentences get a timestamp of their own: every one in `segment`
   * mode, the first of each paragraph in `paragraph` mode, none otherwise
   * (word mode stamps the words instead).
   */
  lemma StampRule(es: seq<Entry>, i: nat, o: PreviewOptions)
    requires i < |es|
    ensures o.includeTimestamps && o.timestampMode == "segment" ==> Stamped(es, i, o)
    ensures o.includeTimestamps && o.timestampMode == "paragraph" ==> (Stamped(es, i, o) <==> i == 0 || OpensParagraph(es, i, o))
    ensures !o.includeTimestamps || (o.timestampMode != "segment" && o.timestampMode != "paragraph") ==> !Stamped(es, i, o)
  {
  }

  /** While speakers are shown, the speaker's name is written exactly where a paragraph opens; otherwise never. */
  lemma LabelAtParagraphs(es: seq<Entry>, i: nat, o: PreviewOptions)
    requires i < |es|
    ensures o.showSpeakers ==> (Labelled(es, i, o) <==> OpensParagraph(es, i, o))
    ensures !o.showSpeakers ==> !Labelled(es, i, o)
    ensures o.showSpeakers ==> Labelled(es, 0, o)
  {
  }

  /** A paragraph opens only on a pause longer than the threshold or on a change of the speaker shown. */
  lemma BreakRule(es: seq<Entry>, i: nat, o: PreviewOptions)
    requires 0 < i < |es|
    ensures OpensParagraph(es, i, o) <==>
      (o.autoParagraphs && es[i].timeMs - es[i - 1].timeMs > PreviewThresholdMs(o.sensitivity))
      || (o.showSpeakers && es[i].speaker != es[i - 1].speaker)
  {
  }

  /**
   * Without automatic paragraphs and without speakers the preview is one
   * paragraph: no blank lines, no labels, and in `paragraph` mode only the
   * first sentence is stamped.
   */
  lemma {:induction false} OneParagraph(es: seq<Entry>, i: nat, o: PreviewOptions, stamp: int -> string)
    requires !o.autoParagraphs && !o.showSpeakers && i < |es|
    ensures ParagraphStart(es, i, o) == 0
    ensures Piece(es, i, o, stamp) == Body(es, i, o, stamp) + (if i < |es| - 1 then " " else "")
    ensures o.includeTimestamps && o.timestampMode == "paragraph" ==> (Stamped(es, i, o) <==> i == 0)
  {
    if i > 0 {
      OneParagraph(es, i - 1, o, stamp);
    }
  }

  // ---------------------------------------------------------------------
  // update_preview, subtitle and JSON branches
  // ---------------------------------------------------------------------

  /** Sentence `i` as a subtitle cue: numbered `i + 1`, three seconds long, its text formatted for the preview. */
  function SampleCue(es: seq<Entry>, i: nat, o: PreviewOptions): Renderers.Cue
    requires i < |es|
  {
    Renderers.Cue(i + 1, es[i].timeMs, es[i].timeMs + 3000, FormatText(es[i].text, o.punctuation, o.capitalization))
  }

  /** The first `n` sentences as cues. */
  function SampleCues(es: seq<Entry>, n: nat, o: PreviewOptions): (cues: seq<Renderers.Cue>)
    requires n <= |es|
    ensures |cues| == n
  {
    if n == 0 then [] else SampleCues(es, n - 1, o) + [SampleCue(es, n - 1, o)]
  }

  /** Every sentence becomes a cue, in order and numbered by position; unlike `_save_srt`, none is skipped. */
  lemma {:induction false} SampleCuesShape(es: seq<Entry>, n: nat, o: PreviewOptions)
    requires n <= |es|
    ensures forall k :: 0 <= k < n ==>
      SampleCues(es, n, o)[k] == SampleCue(es, k, o)
  {
    if n > 0 {
      SampleCuesShape(es, n - 1, o);
    }
  }

  /** The `srt` branch: the numbered blocks `_save_srt` writes, for the sample cues. */
  method PreviewSrt(es: seq<Entry>, o: PreviewOptions, stamp: int -> string) returns (widget: string)
    ensures widget == Renderers.SrtFile(SampleCues(es, |es|, o), stamp)
  {
    widget := "";
    for i := 0 to |es|
      invariant widget == Renderers.SrtFile(SampleCues(es, i, o), stamp)
    {
      var e := es[i];
      var ts := stamp(e.timeMs);
      var endTs := stamp(e.timeMs + 3000);
      var finalText := FormatText(e.text, o.punctuation, o.capitalization);
      Renderers.SrtFileSnoc(SampleCues(es, i, o), SampleCue(es, i, o), stamp);
      widget := widget + (DecStr(i + 1) + "\n" + ts + " --> " + endTs + "\n" + finalText + "\n\n");
    }
  }

  /** The `vtt` branch: the header and the blocks `_save_vtt` writes, for the sample cues. */
  method PreviewVtt(es: seq<Entry>, o: PreviewOptions, stamp: int -> string) returns (widget: string)
    ensures widget == Renderers.VttFile(SampleCues(es, |es|, o), stamp)
  {
    widget := "WEBVTT\n\n";
    for i := 0 to |es|
      invariant widget == Renderers.VttFile(SampleCues(es, i, o), stamp)
    {
      var e := es[i];
      var ts := stamp(e.timeMs);
      var endTs := stamp(e.timeMs + 3000);
      var finalText := FormatText(e.text, o.punctuation, o.capitalization);
      Renderers.VttFileSnoc(SampleCues(es, i, o), SampleCue(es, i, o), stamp);
      widget := widget + (ts + " --> " + endTs + "\n" + finalText + "\n\n");
    }
  }

  /** The fixed text of the `json` branch. */
  const JsonPreview: string :=
    "{\n  \"text\": \"Transcrição completa...\",\n  \"segments\": [\n"
    + "    {\n      \"start\": 0.0,\n      \"end\": 3.5,\n"
    + "      \"text\": \"Olá e bem-vindo...\"\n    },\n"
    + "    ...\n  ]\n}"

  /**
   * `update_preview` on the sample `es` (the window always shows
   * `ExampleText`): nothing without a preview widget; otherwise the widget's
   * new contents for the chosen output format. `srtStamp`, `vttStamp` and
   * `stamp` stand for `_format_preview_timestamp` with the mode `"srt"`,
   * `"vtt"` and the chosen timestamp format.
   */
  method UpdatePreview(hasWidget: bool, outputFormat: string, es: seq<Entry>, o: PreviewOptions,
                       srtStamp: int -> string, vttStamp: int -> string, stamp: int -> string)
    returns (widget: Option<string>)
    ensures !hasWidget ==> widget == None
    ensures hasWidget && outputFormat == "srt" ==> widget == Some(Renderers.SrtFile(SampleCues(es, |es|, o), srtStamp))
    ensures hasWidget && outputFormat == "vtt" ==> widget == Some(Renderers.VttFile(SampleCues(es, |es|, o), vttStamp))
    ensures hasWidget && outputFormat == "json" ==> widget == Some(JsonPreview)
    ensures hasWidget && outputFormat != "srt" && outputFormat != "vtt" && outputFormat != "json" ==>
      widget == Some(Pieces(es, |es|, o, stamp))
  {
    if !hasWidget {
      return None;
    }
    var text;
    if outputFormat == "srt" {
      text := PreviewSrt(es, o, srtStamp);
    } else if outputFormat == "vtt" {
      text := PreviewVtt(es, o, vttStamp);
    } else if outputFormat == "json" {
      text := JsonPreview;
    } else {
      text := PreviewText(es, o, stamp);
    }
    widget := Some(text);
  }
}
