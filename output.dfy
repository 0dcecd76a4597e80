/**
 * `format_output` (main.py): the output file is named after the input,
 * `<directory>/<stem>_text<extension>`, and written by the handler the
 * output format selects. Both the extension table and the handler table fall
 * back to Word for a format they do not know.
 */
module Output {
  import opened Wrappers
  import opened Paths
  import opened Timestamps
  import opened Settings
  import opened Paragraphs
  import Renderers

  /** The five handlers of `format_handlers`. */
  datatype Writer = WordWriter | TextWriter | SrtWriter | VttWriter | JsonWriter

  /** `extension_map.get(settings.output_format, ".docx")`. */
  function ExtensionOf(fmt: string): string {
    if fmt == "docx" then ".docx"
    else if fmt == "txt" then ".txt"
    else if fmt == "srt" then ".srt"
    else if fmt == "vtt" then ".vtt"
    else if fmt == "json" then ".json"
    else ".docx"
  }

  /** `format_handlers.get(settings.output_format, TranscriptionManager._save_docx)`. */
  function WriterFor(fmt: string): Writer {
    if fmt == "docx" then WordWriter
    else if fmt == "txt" then TextWriter
    else if fmt == "srt" then SrtWriter
    else if fmt == "vtt" then VttWriter
    else if fmt == "json" then JsonWriter
    else WordWriter
  }

  /** The extension of the kind of file each handler writes. */
  function FileExtension(w: Writer): string {
    match w
    case WordWriter => ".docx"
    case TextWriter => ".txt"
    case SrtWriter => ".srt"
    case VttWriter => ".vtt"
    case JsonWriter => ".json"
  }

  predicate KnownFormat(fmt: string) {
    fmt == "docx" || fmt == "txt" || fmt == "srt" || fmt == "vtt" || fmt == "json"
  }

  /** The path `format_output` returns for an input file and an output format. */
  function OutputPath(original: string, fmt: string): string {
    PathJoin(Dirname(original), Stem(Basename(original)) + "_text" + ExtensionOf(fmt))
  }

  /** The two keys of Whisper's result that the writers read: `"text"` and `"segments"`. */
  datatype Transcript = Transcript(text: Option<string>, segments: Option<seq<Segment>>)

  /** What a handler leaves behind: a Word document's paragraphs, a text file's contents, or a JSON payload. */
  datatype Written = WordDoc(paragraphs: seq<string>) | PlainText(content: string) | JsonDoc(payload: Renderers.JsonPayload)

  /** What each handler writes for `result.get("segments", [])`. */
  function Rendered(w: Writer, result: Transcript, o: Options, fr: FloatRender): Written {
    var segs := result.segments.GetOr([]);
    match w
    case WordWriter => WordDoc(Renderers.DocxParagraphs(Paragraphs.Paragraphs(segs, o, Stamper(o, fr))))
    case TextWriter => PlainText(Renderers.TxtFile(Paragraphs.Paragraphs(segs, o, Stamper(o, fr))))
    case SrtWriter => PlainText(Renderers.SrtFile(Renderers.Cues(segs, Renderers.CueShown(o)), Renderers.SrtStamp(o, fr)))
    case VttWriter => PlainText(Renderers.VttFile(Renderers.Cues(segs, Renderers.CueShown(o)), Renderers.VttStamp(o, fr)))
    case JsonWriter => JsonDoc(Renderers.Payload(result.text, segs, o))
  }

  /** `format_output`: the path it returns and what the chosen handler writes there. */
  method FormatOutput(result: Transcript, o: Options, original: string, fr: FloatRender)
    returns (outputPath: string, written: Written)
    ensures outputPath == OutputPath(original, o.outputFormat)
    ensures written == Rendered(WriterFor(o.outputFormat), result, o, fr)
  {
    var segs := result.segments.GetOr([]);
    var baseDir := Dirname(original);
    var baseName := Stem(Basename(original));
    var extension := ExtensionOf(o.outputFormat);
    outputPath := PathJoin(baseDir, baseName + "_text" + extension);
    match WriterFor(o.outputFormat)
    case WordWriter =>
      var paragraphs := BuildParagraphs(segs, o, Stamper(o, fr));
      var doc := Renderers.SaveDocx(paragraphs);
      written := WordDoc(doc);
    case TextWriter =>
      var paragraphs := BuildParagraphs(segs, o, Stamper(o, fr));
      written := PlainText(Renderers.TxtFile(paragraphs));
    case SrtWriter =>
      var file := Renderers.SaveSrt(segs, o, Renderers.SrtStamp(o, fr));
      written := PlainText(file);
    case VttWriter =>
      var file := Renderers.SaveVtt(segs, o, Renderers.VttStamp(o, fr));
      written := PlainText(file);
    case JsonWriter =>
      written := JsonDoc(Renderers.Payload(result.text, segs, o));
  }

  /** The two tables agree: the extension always names the kind of file the handler writes. */
  lemma ExtensionNamesWriter(fmt: string)
    ensures ExtensionOf(fmt) == FileExtension(WriterFor(fmt))
  {
  }

  /** A known format is its own extension; any other format gets a Word file with `.docx`. */
  lemma FormatFallback(fmt: string)
    ensures KnownFormat(fmt) ==> ExtensionOf(fmt) == "." + fmt
    ensures !KnownFormat(fmt) ==> ExtensionOf(fmt) == ".docx" && WriterFor(fmt) == WordWriter
  {
  }

  /** The output file lies in the input file's directory. */
  lemma OutputBesideInput(original: string, fmt: string)
    ensures Dirname(OutputPath(original, fmt)) == Dirname(original)
  {
    var name := Stem(Basename(original)) + "_text" + ExtensionOf(fmt);
    OutputNameHasNoSlash(original, fmt);
    DirnameShape(original);
    DirnameOfJoin(Dirname(original), name);
  }

  /** Every extension is a dot and letters. */
  lemma ExtensionShape(fmt: string)
    ensures var e := ExtensionOf(fmt);
      e != [] && e[0] == '.' && '.' !in e[1..] && '/' !in e
  {
    var e := ExtensionOf(fmt);
    if fmt == "txt" {
      assert e == ".txt";
    } else if fmt == "srt" {
      assert e == ".srt";
    } else if fmt == "vtt" {
      assert e == ".vtt";
    } else if fmt == "json" {
      assert e == ".json";
    } else {
      assert e == ".docx";
    }
  }

  lemma OutputNameHasNoSlash(original: string, fmt: string)
    ensures '/' !in Stem(Basename(original)) + "_text" + ExtensionOf(fmt)
  {
    HeadBasename(original);
    StemHasNoSlash(Basename(original));
    ExtensionShape(fmt);
    NameHasNoSlash(Stem(Basename(original)), ExtensionOf(fmt));
  }

  lemma NameHasNoSlash(stem: string, ext: string)
    requires '/' !in stem && '/' !in ext
    ensures '/' !in stem + "_text" + ext
  {
    assert '/' !in "_text";
  }

  /** The output file's name is the input's stem, `_text` and the extension. */
  lemma OutputName(original: string, fmt: string)
    ensures Basename(OutputPath(original, fmt)) == Stem(Basename(original)) + "_text" + ExtensionOf(fmt)
  {
    OutputNameHasNoSlash(original, fmt);
    BasenameOfJoin(Dirname(original), Stem(Basename(original)) + "_text" + ExtensionOf(fmt));
  }

  /** `os.path.splitext` on the output file's name gives back `<stem>_text` and the extension. */
  lemma OutputExtension(original: string, fmt: string)
    ensures SplitExt(Basename(OutputPath(original, fmt)))
            == (Stem(Basename(original)) + "_text", ExtensionOf(fmt))
  {
    var root := Stem(Basename(original)) + "_text";
    var ext := ExtensionOf(fmt);
    OutputName(original, fmt);
    OutputNameHasNoSlash(original, fmt);
    assert root + ext == Stem(Basename(original)) + "_text" + ext;
    assert '/' !in root by {
      forall k | 0 <= k < |root| ensures root[k] != '/' {
        assert root[k] == (root + ext)[k];
      }
    }
    assert root[|root| - 5] == '_';
    ExtensionShape(fmt);
    SplitExtOfName(root, ext, |root| - 5);
  }
}
