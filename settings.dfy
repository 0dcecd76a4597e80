/**
 * The transcription settings record (`TranscriptionSettings` in
 * transcription_settings.py): its default values, its dictionary form
 * (`to_dict`/`from_dict`), the attribute updates `setattr` performs, the
 * human-readable `summary`, and the presets file with its four built-in
 * presets. The presets file is a JSON document on disk; here the disk is a
 * `PresetStore` object mapping a path to what that file holds.
 */
module Settings {
  import opened Wrappers
  import opened Text

  /** A JSON scalar as the settings and presets files hold them. */
  datatype Value = VStr(s: string) | VBool(b: bool) | VInt(i: int)

  /** The fifteen dataclass fields of one settings instance, as a value. */
  datatype Options = Options(
    outputFormat: string,
    includeTimestamps: bool,
    timestampMode: string,
    timestampFormat: string,
    autoParagraphs: bool,
    detectSpeakers: bool,
    punctuation: bool,
    capitalization: bool,
    languageStrategy: string,
    manualLanguage: string,
    qualityPreset: string,
    paragraphSensitivity: int,
    removeNoise: bool,
    normalizeAudio: bool,
    presetsFile: string)

  /** The dataclass defaults; `presetsFile` is the path `_default_presets_path` computes. */
  function Defaults(presetsFile: string): Options {
    Options("docx", false, "segment", "minutes", true, false, true, true,
            "auto", "pt", "balanced", 50, false, false, presetsFile)
  }

  /** The dataclass fields, one constructor each. */
  datatype Field =
    | OutputFormat | IncludeTimestamps | TimestampMode | TimestampFormat
    | AutoParagraphs | DetectSpeakers | Punctuation | Capitalization
    | LanguageStrategy | ManualLanguage | QualityPreset | ParagraphSensitivity
    | RemoveNoise | NormalizeAudio | PresetsFile

  /** The attribute name of a field, as used for `getattr` and as a dictionary key. */
  function Name(f: Field): string {
    match f
    case OutputFormat => "output_format"
    case IncludeTimestamps => "include_timestamps"
    case TimestampMode => "timestamp_mode"
    case TimestampFormat => "timestamp_format"
    case AutoParagraphs => "auto_paragraphs"
    case DetectSpeakers => "detect_speakers"
    case Punctuation => "punctuation"
    case Capitalization => "capitalization"
    case LanguageStrategy => "language_strategy"
    case ManualLanguage => "manual_language"
    case QualityPreset => "quality_preset"
    case ParagraphSensitivity => "paragraph_sensitivity"
    case RemoveNoise => "remove_noise"
    case NormalizeAudio => "normalize_audio"
    case PresetsFile => "presets_file"
  }

  /** `hasattr(instance, name)` for data attributes: the field called `name`, if any. */
  function FieldNamed(name: string): (r: Option<Field>)
    ensures r.Some? ==> Name(r.value) == name
  {
    if name == "output_format" then Some(OutputFormat)
    else if name == "include_timestamps" then Some(IncludeTimestamps)
    else if name == "timestamp_mode" then Some(TimestampMode)
    else if name == "timestamp_format" then Some(TimestampFormat)
    else if name == "auto_paragraphs" then Some(AutoParagraphs)
    else if name == "detect_speakers" then Some(DetectSpeakers)
    else if name == "punctuation" then Some(Punctuation)
    else if name == "capitalization" then Some(Capitalization)
    else if name == "language_strategy" then Some(LanguageStrategy)
    else if name == "manual_language" then Some(ManualLanguage)
    else if name == "quality_preset" then Some(QualityPreset)
    else if name == "paragraph_sensitivity" then Some(ParagraphSensitivity)
    else if name == "remove_noise" then Some(RemoveNoise)
    else if name == "normalize_audio" then Some(NormalizeAudio)
    else if name == "presets_file" then Some(PresetsFile)
    else None
  }

  /** Every field is found under its own name, so two fields never share a name. */
  lemma FieldNamedName(f: Field)
    ensures FieldNamed(Name(f)) == Some(f)
  {
    match f
    case OutputFormat => assert Name(f) == "output_format";
    case IncludeTimestamps => assert Name(f) == "include_timestamps";
    case TimestampMode => assert Name(f) == "timestamp_mode";
    case TimestampFormat => assert Name(f) == "timestamp_format";
    case AutoParagraphs => assert Name(f) == "auto_paragraphs";
    case DetectSpeakers => assert Name(f) == "detect_speakers";
    case Punctuation => assert Name(f) == "punctuation";
    case Capitalization => assert Name(f) == "capitalization";
    case LanguageStrategy => assert Name(f) == "language_strategy";
    case ManualLanguage => assert Name(f) == "manual_language";
    case QualityPreset => assert Name(f) == "quality_preset";
    case ParagraphSensitivity => assert Name(f) == "paragraph_sensitivity";
    case RemoveNoise => assert Name(f) == "remove_noise";
    case NormalizeAudio => assert Name(f) == "normalize_audio";
    case PresetsFile => assert Name(f) == "presets_file";
  }

  lemma NameInjective(f: Field, g: Field)
    ensures Name(f) == Name(g) <==> f == g
  {
    FieldNamedName(f);
    FieldNamedName(g);
  }

  /** A value of the JSON type its field is declared with. */
  predicate Fits(f: Field, v: Value) {
    match f
    case IncludeTimestamps | AutoParagraphs | DetectSpeakers | Punctuation
       | Capitalization | RemoveNoise | NormalizeAudio => v.VBool?
    case ParagraphSensitivity => v.VInt?
    case _ => v.VStr?
  }

  /** Every key of `data` that names a field holds a value of that field's type. */
  predicate WellTyped(data: map<string, Value>) {
    forall f :: Name(f) in data ==> Fits(f, data[Name(f)])
  }

  /** The methods `TranscriptionSettings` defines; `hasattr` finds them on every instance. */
  const MethodNames: set<string> := {
    "to_dict", "from_dict", "save_preset", "load_preset", "export_config",
    "import_config", "available_presets", "summary", "_load_presets", "_write_presets"}

  /** A name spelt `__name__`, as the special attributes every Python object has are. */
  predicate IsDunder(k: string) {
    |k| >= 4 && k[..2] == "__" && k[|k| - 2..] == "__"
  }

  /** A name that may be an attribute of an instance other than one of its fields. */
  predicate ClassAttribute(k: string) {
    k in MethodNames || IsDunder(k)
  }

  /** Every key of `data` names a field or cannot name a method or a special attribute, so `hasattr` finds only fields among them. */
  predicate PlainKeys(data: map<string, Value>) {
    forall k :: k in data ==> FieldNamed(k).Some? || !ClassAttribute(k)
  }

  /** `getattr(instance, name)` for a field. */
  function Attr(o: Options, f: Field): (v: Value)
    ensures Fits(f, v)
  {
    match f
    case OutputFormat => VStr(o.outputFormat)
    case IncludeTimestamps => VBool(o.includeTimestamps)
    case TimestampMode => VStr(o.timestampMode)
    case TimestampFormat => VStr(o.timestampFormat)
    case AutoParagraphs => VBool(o.autoParagraphs)
    case DetectSpeakers => VBool(o.detectSpeakers)
    case Punctuation => VBool(o.punctuation)
    case Capitalization => VBool(o.capitalization)
    case LanguageStrategy => VStr(o.languageStrategy)
    case ManualLanguage => VStr(o.manualLanguage)
    case QualityPreset => VStr(o.qualityPreset)
    case ParagraphSensitivity => VInt(o.paragraphSensitivity)
    case RemoveNoise => VBool(o.removeNoise)
    case NormalizeAudio => VBool(o.normalizeAudio)
    case PresetsFile => VStr(o.presetsFile)
  }

  /** Two settings values that agree on every field are equal. */
  lemma Extensionality(a: Options, b: Options)
    requires forall f :: Attr(a, f) == Attr(b, f)
    ensures a == b
  {
    assert Attr(a, OutputFormat) == Attr(b, OutputFormat);
    assert Attr(a, IncludeTimestamps) == Attr(b, IncludeTimestamps);
    assert Attr(a, TimestampMode) == Attr(b, TimestampMode);
    assert Attr(a, TimestampFormat) == Attr(b, TimestampFormat);
    assert Attr(a, AutoParagraphs) == Attr(b, AutoParagraphs);
    assert Attr(a, DetectSpeakers) == Attr(b, DetectSpeakers);
    assert Attr(a, Punctuation) == Attr(b, Punctuation);
    assert Attr(a, Capitalization) == Attr(b, Capitalization);
    assert Attr(a, LanguageStrategy) == Attr(b, LanguageStrategy);
    assert Attr(a, ManualLanguage) == Attr(b, ManualLanguage);
    assert Attr(a, QualityPreset) == Attr(b, QualityPreset);
    assert Attr(a, ParagraphSensitivity) == Attr(b, ParagraphSensitivity);
    assert Attr(a, RemoveNoise) == Attr(b, RemoveNoise);
    assert Attr(a, NormalizeAudio) == Attr(b, NormalizeAudio);
    assert Attr(a, PresetsFile) == Attr(b, PresetsFile);
  }

  /** `setattr(instance, name, v)` for a field. */
  function With(o: Options, f: Field, v: Value): Options
    requires Fits(f, v)
  {
    match f
    case OutputFormat => o.(outputFormat := v.s)
    case IncludeTimestamps => o.(includeTimestamps := v.b)
    case TimestampMode => o.(timestampMode := v.s)
    case TimestampFormat => o.(timestampFormat := v.s)
    case AutoParagraphs => o.(autoParagraphs := v.b)
    case DetectSpeakers => o.(detectSpeakers := v.b)
    case Punctuation => o.(punctuation := v.b)
    case Capitalization => o.(capitalization := v.b)
    case LanguageStrategy => o.(languageStrategy := v.s)
    case ManualLanguage => o.(manualLanguage := v.s)
    case QualityPreset => o.(qualityPreset := v.s)
    case ParagraphSensitivity => o.(paragraphSensitivity := v.i)
    case RemoveNoise => o.(removeNoise := v.b)
    case NormalizeAudio => o.(normalizeAudio := v.b)
    case PresetsFile => o.(presetsFile := v.s)
  }

  /** After `setattr(f, v)`, `getattr` gives `v` for `f` and the old value for every other field. */
  lemma WithAttr(o: Options, f: Field, v: Value, g: Field)
    requires Fits(f, v)
    ensures Attr(With(o, f, v), g) == if g == f then v else Attr(o, g)
  {
  }

  /** The string `data[key]` holds, or `default` when it holds none. */
  function StrOr(data: map<string, Value>, key: string, default: string): string {
    if key in data && data[key].VStr? then data[key].s else default
  }

  function BoolOr(data: map<string, Value>, key: string, default: bool): bool {
    if key in data && data[key].VBool? then data[key].b else default
  }

  function IntOr(data: map<string, Value>, key: string, default: int): int {
    if key in data && data[key].VInt? then data[key].i else default
  }

  /**
   * The effect of `for key, value in data.items(): if hasattr(self, key):
   * setattr(self, key, value)` on a settings value.
   */
  function Overlay(o: Options, data: map<string, Value>): Options
    requires WellTyped(data)
  {
    Options(
      StrOr(data, Name(OutputFormat), o.outputFormat),
      BoolOr(data, Name(IncludeTimestamps), o.includeTimestamps),
      StrOr(data, Name(TimestampMode), o.timestampMode),
      StrOr(data, Name(TimestampFormat), o.timestampFormat),
      BoolOr(data, Name(AutoParagraphs), o.autoParagraphs),
      BoolOr(data, Name(DetectSpeakers), o.detectSpeakers),
      BoolOr(data, Name(Punctuation), o.punctuation),
      BoolOr(data, Name(Capitalization), o.capitalization),
      StrOr(data, Name(LanguageStrategy), o.languageStrategy),
      StrOr(data, Name(ManualLanguage), o.manualLanguage),
      StrOr(data, Name(QualityPreset), o.qualityPreset),
      IntOr(data, Name(ParagraphSensitivity), o.paragraphSensitivity),
      BoolOr(data, Name(RemoveNoise), o.removeNoise),
      BoolOr(data, Name(NormalizeAudio), o.normalizeAudio),
      StrOr(data, Name(PresetsFile), o.presetsFile))
  }

  /** Fields named in `data` take its values, all others keep theirs; other keys are ignored. */
  lemma OverlayAttr(o: Options, data: map<string, Value>, g: Field)
    requires WellTyped(data)
    ensures Attr(Overlay(o, data), g) == if Name(g) in data then data[Name(g)] else Attr(o, g)
  {
  }

  /** `to_dict`: every field except `presets_file`, under its Python name. */
  function ToDict(o: Options): map<string, Value> {
    map[
      "output_format" := VStr(o.outputFormat),
      "include_timestamps" := VBool(o.includeTimestamps),
      "timestamp_mode" := VStr(o.timestampMode),
      "timestamp_format" := VStr(o.timestampFormat),
      "auto_paragraphs" := VBool(o.autoParagraphs),
      "detect_speakers" := VBool(o.detectSpeakers),
      "punctuation" := VBool(o.punctuation),
      "capitalization" := VBool(o.capitalization),
      "language_strategy" := VStr(o.languageStrategy),
      "manual_language" := VStr(o.manualLanguage),
      "quality_preset" := VStr(o.qualityPreset),
      "paragraph_sensitivity" := VInt(o.paragraphSensitivity),
      "remove_noise" := VBool(o.removeNoise),
      "normalize_audio" := VBool(o.normalizeAudio)]
  }

  /** `to_dict` holds every field but `presets_file`, each under its name with its value. */
  lemma ToDictAt(o: Options, f: Field)
    ensures Name(f) in ToDict(o) <==> f != PresetsFile
    ensures f != PresetsFile ==> ToDict(o)[Name(f)] == Attr(o, f)
  {
  }

  /** Every key of `to_dict` names a field other than `presets_file`. */
  lemma ToDictKeys(o: Options, k: string)
    ensures k in ToDict(o) <==> FieldNamed(k).Some? && FieldNamed(k).value != PresetsFile
  {
    if FieldNamed(k).Some? {
      ToDictAt(o, FieldNamed(k).value);
    }
  }

  /** `to_dict` has field names as keys only. */
  lemma ToDictPlain(o: Options)
    ensures PlainKeys(ToDict(o))
  {
    forall k | k in ToDict(o) ensures FieldNamed(k).Some? {
      ToDictKeys(o, k);
    }
  }

  lemma ToDictWellTyped(o: Options)
    ensures WellTyped(ToDict(o))
  {
    forall f | Name(f) in ToDict(o) ensures Fits(f, ToDict(o)[Name(f)]) {
      ToDictAt(o, f);
    }
  }

  /** `from_dict`: the defaults, overridden by the keys of `data` that name fields. */
  function FromDict(data: map<string, Value>, defaultPath: string): Options
    requires WellTyped(data)
  {
    Overlay(Defaults(defaultPath), data)
  }

  lemma OverlayToDictAt(x: Options, o: Options, f: Field)
    requires WellTyped(ToDict(o))
    ensures Attr(Overlay(x, ToDict(o)), f) == Attr(o.(presetsFile := x.presetsFile), f)
  {
    OverlayAttr(x, ToDict(o), f);
    ToDictAt(o, f);
  }

  /** Overlaying a full dictionary form restores every field but `presets_file`. */
  lemma OverlayToDict(x: Options, o: Options)
    ensures WellTyped(ToDict(o))
    ensures Overlay(x, ToDict(o)) == o.(presetsFile := x.presetsFile)
  {
    ToDictWellTyped(o);
    var a, b := Overlay(x, ToDict(o)), o.(presetsFile := x.presetsFile);
    forall f ensures Attr(a, f) == Attr(b, f) {
      OverlayToDictAt(x, o, f);
    }
    Extensionality(a, b);
  }

  /** `from_dict(s.to_dict())` agrees with `s` on every field except `presets_file`. */
  lemma FromDictToDict(o: Options, defaultPath: string)
    ensures WellTyped(ToDict(o))
    ensures FromDict(ToDict(o), defaultPath) == o.(presetsFile := defaultPath)
  {
    OverlayToDict(Defaults(defaultPath), o);
  }

  /**
   * After `import_config`, a field named in the file has the file's value and
   * every other field has its default again; `presets_file` keeps its value.
   */
  lemma ImportedField(data: map<string, Value>, defaultPath: string, kept: string, f: Field)
    requires WellTyped(data) && PlainKeys(data)
    ensures var r := FromDict(data, defaultPath).(presetsFile := kept);
      Attr(r, f) == if f == PresetsFile then VStr(kept)
                    else if Name(f) in data then data[Name(f)]
                    else Attr(Defaults(defaultPath), f)
  {
    OverlayAttr(Defaults(defaultPath), data, f);
  }

  const OutputFormatLabels: map<string, string> := map[
    "docx" := "Documento Word (.docx)",
    "txt" := "Texto Simples (.txt)",
    "srt" := "Legendas (.srt)",
    "vtt" := "WebVTT (.vtt)",
    "json" := "JSON estruturado"]

  const TimestampModeLabels: map<string, string> := map[
    "none" := "Sem marcas de tempo",
    "segment" := "Marca de tempo por segmento",
    "word" := "Marca de tempo por palavra",
    "paragraph" := "Marca de tempo por parágrafo"]

  const QualityLabels: map<string, string> := map[
    "fast" := "Rápido",
    "balanced" := "Equilibrado",
    "accurate" := "Preciso"]

  const NoTimestampsLabel: string := "Sem timestamps"

  const SummarySeparator: string := " • "

  /** `labels.get(code, code)`. */
  function LabelOr(labels: map<string, string>, code: string): string {
    if code in labels then labels[code] else code
  }

  /** The three parts of `summary`: format, timestamp mode, quality. */
  function SummaryParts(o: Options): (p: seq<string>)
    ensures |p| == 3
    ensures p[0] == LabelOr(OutputFormatLabels, o.outputFormat)
    ensures !o.includeTimestamps ==> p[1] == NoTimestampsLabel
    ensures o.includeTimestamps ==> p[1] == LabelOr(TimestampModeLabels, o.timestampMode)
    ensures p[2] == LabelOr(QualityLabels, o.qualityPreset)
  {
    [LabelOr(OutputFormatLabels, o.outputFormat),
     if o.includeTimestamps then LabelOr(TimestampModeLabels, o.timestampMode) else NoTimestampsLabel,
     LabelOr(QualityLabels, o.qualityPreset)]
  }

  /** `summary`: exactly the three parts, joined by `" • "`. */
  function Summary(o: Options): (r: string)
    ensures r == SummaryParts(o)[0] + SummarySeparator + SummaryParts(o)[1]
                 + SummarySeparator + SummaryParts(o)[2]
  {
    var p := SummaryParts(o);
    assert p[..2][..1] == [p[0]] && p[..2][1] == p[1];
    assert Join(SummarySeparator, p[..2]) == p[0] + SummarySeparator + p[1];
    Join(SummarySeparator, p)
  }

  /** The codes `summary` has a label for. */
  predicate KnownCodes(o: Options) {
    && o.outputFormat in OutputFormatLabels && o.qualityPreset in QualityLabels
    && (o.includeTimestamps ==> o.timestampMode in TimestampModeLabels)
  }

  /**
   * For known codes the summary text tells the settings apart: it determines
   * the output format, whether timestamps are on and in which mode, and the
   * quality preset.
   */
  lemma SummaryDetermines(o1: Options, o2: Options)
    requires KnownCodes(o1) && KnownCodes(o2) && Summary(o1) == Summary(o2)
    ensures o1.outputFormat == o2.outputFormat && o1.qualityPreset == o2.qualityPreset
    ensures o1.includeTimestamps == o2.includeTimestamps
    ensures o1.includeTimestamps ==> o1.timestampMode == o2.timestampMode
  {
    var p, q := SummaryParts(o1), SummaryParts(o2);
    HeadStarts(p[0], p[1], p[2], SummarySeparator);
    HeadStarts(q[0], q[1], q[2], SummarySeparator);
    FormatLabelAtStart(o1.outputFormat, o2.outputFormat, Summary(o1));
    MiddleStarts(p[0], p[1], p[2], q[1], q[2], SummarySeparator);
    TimestampPartAtStart(o1, o2, Summary(o1)[|p[0]| + |SummarySeparator|..]);
    TailsAgree(p[0], p[1], p[2], q[2], SummarySeparator);
    QualityLabelInjective(o1.qualityPreset, o2.qualityPreset);
  }

  /** The first of three joined parts begins the text. */
  lemma HeadStarts(a: string, b: string, c: string, sep: string)
    ensures a <= a + sep + b + sep + c
  {
    assert a + sep + b + sep + c == a + (sep + b + sep + c);
  }

  /** With the same first part, the second part of either joining begins what follows the first separator. */
  lemma MiddleStarts(a: string, b: string, c: string, b': string, c': string, sep: string)
    requires a + sep + b + sep + c == a + sep + b' + sep + c'
    ensures var t := (a + sep + b + sep + c)[|a| + |sep|..]; b <= t && b' <= t
  {
    var s := a + sep + b + sep + c;
    assert s == (a + sep) + (b + (sep + c));
    assert s == (a + sep) + (b' + (sep + c'));
    assert s[|a + sep|..] == b + (sep + c);
    assert s[|a + sep|..] == b' + (sep + c');
  }

  /** With the same first two parts, the third parts agree too. */
  lemma TailsAgree(a: string, b: string, c: string, c': string, sep: string)
    requires a + sep + b + sep + c == a + sep + b + sep + c'
    ensures c == c'
  {
    var front := a + sep + b + sep;
    assert c == (front + c)[|front|..];
    assert c' == (front + c')[|front|..];
  }

  /** Two output-format labels that both start a text are the same label: their first letters differ. */
  lemma FormatLabelAtStart(a: string, b: string, s: string)
    requires a in OutputFormatLabels && b in OutputFormatLabels
    requires OutputFormatLabels[a] <= s && OutputFormatLabels[b] <= s
    ensures a == b
  {
    assert OutputFormatLabels[a][0] == s[0] == OutputFormatLabels[b][0];
  }

  /** The timestamp part that starts a text is determined by it: the labels differ at position 0, 4, 19 or 21. */
  lemma TimestampPartAtStart(o1: Options, o2: Options, t: string)
    requires KnownCodes(o1) && KnownCodes(o2)
    requires SummaryParts(o1)[1] <= t && SummaryParts(o2)[1] <= t
    ensures o1.includeTimestamps == o2.includeTimestamps
    ensures o1.includeTimestamps ==> o1.timestampMode == o2.timestampMode
  {
    var p, q := SummaryParts(o1)[1], SummaryParts(o2)[1];
    assert p[0] == t[0] == q[0] && p[4] == t[4] == q[4];
    if p[0] == 'M' {
      assert p[19] == t[19] == q[19] && p[21] == t[21] == q[21];
    }
  }

  /** The quality labels are distinct. */
  lemma QualityLabelInjective(a: string, b: string)
    requires a in QualityLabels && b in QualityLabels && QualityLabels[a] == QualityLabels[b]
    ensures a == b
  {
  }

  /** An unknown code appears verbatim in the summary; a known one by its label. */
  lemma SummaryFallsBack(o: Options)
    ensures o.outputFormat !in OutputFormatLabels ==> SummaryParts(o)[0] == o.outputFormat
    ensures o.qualityPreset !in QualityLabels ==> SummaryParts(o)[2] == o.qualityPreset
    ensures o.includeTimestamps && o.timestampMode !in TimestampModeLabels ==>
      SummaryParts(o)[1] == o.timestampMode
    ensures o.outputFormat in OutputFormatLabels ==>
      SummaryParts(o)[0] == OutputFormatLabels[o.outputFormat]
  {
  }

  /** What a presets file on disk holds: text that is not valid JSON, or a JSON object of presets. */
  datatype StoredFile = Corrupt | PresetsJson(presets: map<string, map<string, Value>>)

  /** `_load_presets`: the stored map, or `{}` when the file is missing or not valid JSON. */
  function LoadPresets(files: map<string, StoredFile>, path: string): (r: map<string, map<string, Value>>)
    ensures path !in files ==> r == map[]
    ensures path in files && files[path].Corrupt? ==> r == map[]
    ensures path in files && files[path].PresetsJson? ==> r == files[path].presets
  {
    if path in files then
      match files[path]
      case Corrupt => map[]
      case PresetsJson(m) => m
    else map[]
  }

  /**
   * Reading a presets file gives back what was last written to it, and
   * writing one file leaves every other file's presets as they were.
   */
  lemma LoadPresetsAfterWrite(files: map<string, StoredFile>, path: string, other: string,
                              m: map<string, map<string, Value>>, s: StoredFile)
    ensures LoadPresets(files[path := PresetsJson(m)], path) == m
    ensures other != path ==> LoadPresets(files[path := s], other) == LoadPresets(files, other)
  {
  }

  /** The presets file after `save_preset(name)` succeeded with `name` already stripped. */
  function SavedFiles(files: map<string, StoredFile>, path: string, name: string, o: Options)
    : map<string, StoredFile>
  {
    files[path := PresetsJson(LoadPresets(files, path)[name := ToDict(o)])]
  }

  /**
   * Saving a preset under a stripped name and loading it back restores every
   * field but `presets_file`, and leaves the other presets as they were read.
   */
  lemma SaveThenLoad(files: map<string, StoredFile>, path: string, name: string, o: Options, x: Options)
    ensures var after := LoadPresets(SavedFiles(files, path, name, o), path);
      && name in after && WellTyped(after[name])
      && Overlay(x, after[name]) == o.(presetsFile := x.presetsFile)
      && forall n :: n != name ==>
           (n in after <==> n in LoadPresets(files, path))
           && (n in after ==> after[n] == LoadPresets(files, path)[n])
  {
    OverlayToDict(x, o);
  }

  const DefaultPresetNames: seq<string> := ["Entrevista", "Aula", "Reunião", "Podcast"]

  /**
   * One entry of `DEFAULT_PRESETS`. All four set the same ten keys and agree
   * on segment timestamps, punctuation, capitalization and automatic
   * language; none sets `paragraph_sensitivity`, `manual_language`,
   * `remove_noise` or `normalize_audio`.
   */
  function PresetEntry(format: string, timestamps: bool, timestampFormat: string,
                       autoParagraphs: bool, speakers: bool, quality: string): map<string, Value>
  {
    map[
      Name(OutputFormat) := VStr(format),
      Name(IncludeTimestamps) := VBool(timestamps),
      Name(TimestampMode) := VStr("segment"),
      Name(TimestampFormat) := VStr(timestampFormat),
      Name(AutoParagraphs) := VBool(autoParagraphs),
      Name(DetectSpeakers) := VBool(speakers),
      Name(Punctuation) := VBool(true),
      Name(Capitalization) := VBool(true),
      Name(LanguageStrategy) := VStr("auto"),
      Name(QualityPreset) := VStr(quality)]
  }

  /** `DEFAULT_PRESETS`. */
  const DefaultPresets: map<string, map<string, Value>> := map[
    "Entrevista" := PresetEntry("docx", true, "full", true, true, "accurate"),
    "Aula" := PresetEntry("txt", false, "minutes", true, false, "balanced"),
    "Reunião" := PresetEntry("docx", true, "minutes", true, true, "balanced"),
    "Podcast" := PresetEntry("srt", true, "full", false, false, "fast")]

  /**
   * Each built-in preset is well typed, names only fields `to_dict` writes,
   * and leaves the paragraph sensitivity alone, so loading one keeps the
   * current value.
   */
  lemma PresetEntryField(format: string, timestamps: bool, timestampFormat: string,
                         autoParagraphs: bool, speakers: bool, quality: string, f: Field)
    ensures var p := PresetEntry(format, timestamps, timestampFormat, autoParagraphs, speakers, quality);
      && (Name(f) in p ==> Fits(f, p[Name(f)]))
      && (Name(f) in p <==> f !in {ManualLanguage, ParagraphSensitivity, RemoveNoise, NormalizeAudio, PresetsFile})
  {
  }

  lemma PresetEntryShape(format: string, timestamps: bool, timestampFormat: string,
                         autoParagraphs: bool, speakers: bool, quality: string)
    ensures var p := PresetEntry(format, timestamps, timestampFormat, autoParagraphs, speakers, quality);
      && WellTyped(p)
      && (forall k :: k in p ==> FieldNamed(k).Some? && FieldNamed(k).value != PresetsFile)
      && Name(ParagraphSensitivity) !in p
  {
    var p := PresetEntry(format, timestamps, timestampFormat, autoParagraphs, speakers, quality);
    forall f ensures Name(f) in p ==> Fits(f, p[Name(f)]) {
      PresetEntryField(format, timestamps, timestampFormat, autoParagraphs, speakers, quality, f);
    }
    PresetEntryField(format, timestamps, timestampFormat, autoParagraphs, speakers, quality, ParagraphSensitivity);
    forall k | k in p ensures FieldNamed(k).Some? && FieldNamed(k).value != PresetsFile {
      var f: Field :| f !in {ManualLanguage, ParagraphSensitivity, RemoveNoise, NormalizeAudio, PresetsFile} && Name(f) == k;
      FieldNamedName(f);
    }
  }

  /** The presets map with every missing built-in preset added. */
  function WithDefaults(m: map<string, map<string, Value>>): (r: map<string, map<string, Value>>)
    ensures DefaultPresets.Keys <= r.Keys
    ensures forall k :: k in m ==> k in r && r[k] == m[k]
    ensures forall k :: k in r && k !in m ==> k in DefaultPresets && r[k] == DefaultPresets[k]
  {
    map k | k in m.Keys + DefaultPresets.Keys :: if k in m then m[k] else DefaultPresets[k]
  }

  /** The result of an operation that may raise. */
  datatype Status = Ok | ValueError(message: string) | KeyError(message: string)

  const EmptyNameMessage: string := "O nome do preset não pode estar vazio."

  function MissingPresetMessage(name: string): string {
    "Preset '" + name + "' não encontrado."
  }

  /** The files on disk that presets are read from and written to. */
  class PresetStore {
    var files: map<string, StoredFile>

    constructor (files: map<string, StoredFile>)
      ensures this.files == files
    {
      this.files := files;
    }
  }

  /** A settings instance whose fields `from_dict`, `load_preset` and `import_config` update in place. */
  class TranscriptionSettings {
    var outputFormat: string
    var includeTimestamps: bool
    var timestampMode: string
    var timestampFormat: string
    var autoParagraphs: bool
    var detectSpeakers: bool
    var punctuation: bool
    var capitalization: bool
    var languageStrategy: string
    var manualLanguage: string
    var qualityPreset: string
    var paragraphSensitivity: int
    var removeNoise: bool
    var normalizeAudio: bool
    var presetsFile: string

    /** The current field values. */
    function Snapshot(): Options
      reads this
    {
      Options(outputFormat, includeTimestamps, timestampMode, timestampFormat,
              autoParagraphs, detectSpeakers, punctuation, capitalization,
              languageStrategy, manualLanguage, qualityPreset, paragraphSensitivity,
              removeNoise, normalizeAudio, presetsFile)
    }

    /** `TranscriptionSettings()`: all defaults. */
    constructor (defaultPath: string)
      ensures Snapshot() == Defaults(defaultPath)
    {
      var d := Defaults(defaultPath);
      outputFormat, includeTimestamps, timestampMode, timestampFormat := d.outputFormat, d.includeTimestamps, d.timestampMode, d.timestampFormat;
      autoParagraphs, detectSpeakers, punctuation, capitalization := d.autoParagraphs, d.detectSpeakers, d.punctuation, d.capitalization;
      languageStrategy, manualLanguage, qualityPreset := d.languageStrategy, d.manualLanguage, d.qualityPreset;
      paragraphSensitivity, removeNoise, normalizeAudio, presetsFile := d.paragraphSensitivity, d.removeNoise, d.normalizeAudio, d.presetsFile;
    }

    /** `from_dict(data)`: a fresh instance with the defaults overridden by `data`. */
    constructor FromData(data: map<string, Value>, defaultPath: string)
      requires WellTyped(data) && PlainKeys(data)
      ensures Snapshot() == FromDict(data, defaultPath)
    {
      var d := Defaults(defaultPath);
      outputFormat, includeTimestamps, timestampMode, timestampFormat := d.outputFormat, d.includeTimestamps, d.timestampMode, d.timestampFormat;
      autoParagraphs, detectSpeakers, punctuation, capitalization := d.autoParagraphs, d.detectSpeakers, d.punctuation, d.capitalization;
      languageStrategy, manualLanguage, qualityPreset := d.languageStrategy, d.manualLanguage, d.qualityPreset;
      paragraphSensitivity, removeNoise, normalizeAudio, presetsFile := d.paragraphSensitivity, d.removeNoise, d.normalizeAudio, d.presetsFile;
      new;
      ApplyAll(data);
    }

    /** `setattr(self, name, v)` for a field: the new field values are those of `With`, so only `f` changes. */
    method SetAttr(f: Field, v: Value)
      requires Fits(f, v)
      modifies this
      ensures Snapshot() == With(old(Snapshot()), f, v)
    {
      Assign(With(Snapshot(), f, v));
    }

    /** Stores every field of `o`. */
    method Assign(o: Options)
      modifies this
      ensures Snapshot() == o
    {
      AssignFirst(o);
      AssignMiddle(o);
      AssignLast(o);
    }

    method AssignFirst(o: Options)
      modifies this
      ensures Snapshot() == old(Snapshot()).(outputFormat := o.outputFormat, includeTimestamps := o.includeTimestamps, timestampMode := o.timestampMode, timestampFormat := o.timestampFormat, autoParagraphs := o.autoParagraphs)
    {
      outputFormat, includeTimestamps, timestampMode, timestampFormat, autoParagraphs := o.outputFormat, o.includeTimestamps, o.timestampMode, o.timestampFormat, o.autoParagraphs;
    }

    method AssignMiddle(o: Options)
      modifies this
      ensures Snapshot() == old(Snapshot()).(detectSpeakers := o.detectSpeakers, punctuation := o.punctuation, capitalization := o.capitalization, languageStrategy := o.languageStrategy, manualLanguage := o.manualLanguage)
    {
      detectSpeakers, punctuation, capitalization, languageStrategy, manualLanguage := o.detectSpeakers, o.punctuation, o.capitalization, o.languageStrategy, o.manualLanguage;
    }

    method AssignLast(o: Options)
      modifies this
      ensures Snapshot() == old(Snapshot()).(qualityPreset := o.qualityPreset, paragraphSensitivity := o.paragraphSensitivity, removeNoise := o.removeNoise, normalizeAudio := o.normalizeAudio, presetsFile := o.presetsFile)
    {
      qualityPreset, paragraphSensitivity, removeNoise, normalizeAudio, presetsFile := o.qualityPreset, o.paragraphSensitivity, o.removeNoise, o.normalizeAudio, o.presetsFile;
    }

    /** The `if hasattr: setattr` loop shared by `from_dict`, `load_preset` and `import_config`. */
    method ApplyAll(data: map<string, Value>)
      requires WellTyped(data) && PlainKeys(data)
      modifies this
      ensures Snapshot() == Overlay(old(Snapshot()), data)
    {
      var pending := data.Keys;
      while pending != {}
        invariant pending <= data.Keys
        invariant forall g :: (Attr(Snapshot(), g) ==
          if Name(g) in data && Name(g) !in pending then data[Name(g)] else Attr(old(Snapshot()), g))
        decreases pending
      {
        var key :| key in pending;
        var field := FieldNamed(key);
        ghost var before := Snapshot();
        if field.Some? {
          SetAttr(field.value, data[key]);
        }
        pending := pending - {key};
        forall g ensures Attr(Snapshot(), g) ==
          if Name(g) in data && Name(g) !in pending then data[Name(g)] else Attr(old(Snapshot()), g)
        {
          if field.Some? {
            WithAttr(before, field.value, data[key], g);
            NameInjective(g, field.value);
          } else if Name(g) == key {
            FieldNamedName(g);
          }
        }
      }
      forall g ensures Attr(Snapshot(), g) == Attr(Overlay(old(Snapshot()), data), g) {
        OverlayAttr(old(Snapshot()), data, g);
      }
      Extensionality(Snapshot(), Overlay(old(Snapshot()), data));
    }

    /**
     * `save_preset(name)`: an empty or blank name raises `ValueError` and
     * writes nothing; otherwise the stripped name maps to `to_dict()` in the
     * presets read from this instance's file, and the file is rewritten.
     */
    method SavePreset(store: PresetStore, name: string) returns (st: Status)
      modifies store
      ensures Strip(name) == [] ==> st == ValueError(EmptyNameMessage) && store.files == old(store.files)
      ensures Strip(name) != [] ==>
        st == Ok && store.files == SavedFiles(old(store.files), presetsFile, Strip(name), Snapshot())
    {
      var n := Strip(name);
      if n == [] {
        return ValueError(EmptyNameMessage);
      }
      var presets := LoadPresets(store.files, presetsFile);
      presets := presets[n := ToDict(Snapshot())];
      store.files := store.files[presetsFile := PresetsJson(presets)];
      st := Ok;
    }

    /**
     * `load_preset(name)`: a name not among the stored presets raises
     * `KeyError` and changes nothing; otherwise exactly the keys the preset
     * holds are copied onto this instance.
     */
    method LoadPreset(store: PresetStore, name: string) returns (st: Status)
      requires name in LoadPresets(store.files, presetsFile) ==>
        WellTyped(LoadPresets(store.files, presetsFile)[name]) && PlainKeys(LoadPresets(store.files, presetsFile)[name])
      modifies this
      ensures name !in old(LoadPresets(store.files, presetsFile)) ==>
        st == KeyError(MissingPresetMessage(name)) && Snapshot() == old(Snapshot())
      ensures name in old(LoadPresets(store.files, presetsFile)) ==>
        st == Ok && Snapshot() == Overlay(old(Snapshot()), old(LoadPresets(store.files, presetsFile))[name])
    {
      var presets := LoadPresets(store.files, presetsFile);
      if name !in presets {
        return KeyError(MissingPresetMessage(name));
      }
      ApplyAll(presets[name]);
      st := Ok;
    }

    /**
     * `import_config` on the parsed file `data`: every field takes the value
     * `from_dict(data)` gives it, so fields absent from the file return to
     * their defaults; `presets_file` is not touched.
     */
    method ImportConfig(data: map<string, Value>, defaultPath: string)
      requires WellTyped(data) && PlainKeys(data)
      modifies this
      ensures Snapshot() == FromDict(data, defaultPath).(presetsFile := old(presetsFile))
    {
      var loaded := new TranscriptionSettings.FromData(data, defaultPath);
      OverlayToDict(Snapshot(), loaded.Snapshot());
      ToDictPlain(loaded.Snapshot());
      ApplyAll(ToDict(loaded.Snapshot()));
    }
  }

  /**
   * `ensure_default_presets(settings)`: adds each missing built-in preset to
   * the presets read from the settings' file (a fresh default instance's file
   * when none is given) and rewrites the file only if one was missing.
   */
  method EnsureDefaultPresets(store: PresetStore, settings: TranscriptionSettings?, defaultPath: string)
    modifies store
    ensures var path := if settings != null then settings.presetsFile else defaultPath;
      var before := LoadPresets(old(store.files), path);
      store.files == if DefaultPresets.Keys <= before.Keys then old(store.files)
                     else old(store.files)[path := PresetsJson(WithDefaults(before))]
  {
    var path := if settings != null then settings.presetsFile else defaultPath;
    var presets := LoadPresets(store.files, path);
    DefaultPresetNamesFacts();
    var missing;
    presets, missing := AddMissing(presets, DefaultPresetNames, DefaultPresets);
    if missing {
      store.files := store.files[path := PresetsJson(presets)];
    }
  }

  /**
   * The loop of `ensure_default_presets`: each name of `names` that is not
   * yet in `presets` is added with its entry of `defaults`; `missing` tells
   * whether any was added.
   */
  method AddMissing(before: map<string, map<string, Value>>, names: seq<string>,
                    defaults: map<string, map<string, Value>>)
    returns (presets: map<string, map<string, Value>>, missing: bool)
    requires forall j :: 0 <= j < |names| ==> names[j] in defaults
    requires forall k :: k in defaults ==> exists j :: 0 <= j < |names| && names[j] == k
    ensures missing <==> !(defaults.Keys <= before.Keys)
    ensures presets == map k | k in before.Keys + defaults.Keys :: if k in before then before[k] else defaults[k]
  {
    presets := before;
    missing := false;
    for i := 0 to |names|
      invariant forall k :: k in presets <==> k in before || exists j :: 0 <= j < i && names[j] == k
      invariant forall k :: k in presets ==> presets[k] == if k in before then before[k] else defaults[k]
      invariant missing <==> exists j :: 0 <= j < i && names[j] !in before
    {
      var name := names[i];
      if name !in presets {
        presets := presets[name := defaults[name]];
        missing := true;
      }
    }
  }

  /** The built-in names are exactly the keys of `DEFAULT_PRESETS`. */
  lemma DefaultPresetNamesFacts()
    ensures forall j :: 0 <= j < |DefaultPresetNames| ==> DefaultPresetNames[j] in DefaultPresets
    ensures forall k :: k in DefaultPresets ==> exists j :: 0 <= j < |DefaultPresetNames| && DefaultPresetNames[j] == k
  {
    assert DefaultPresetNames[0] == "Entrevista" && DefaultPresetNames[1] == "Aula";
    assert DefaultPresetNames[2] == "Reunião" && DefaultPresetNames[3] == "Podcast";
  }

  /** After `ensure_default_presets`, all four built-in names are stored and no stored preset was replaced. */
  lemma EnsuredDefaults(files: map<string, StoredFile>, path: string)
    ensures var before := LoadPresets(files, path);
      var after := LoadPresets(
        if DefaultPresets.Keys <= before.Keys then files
        else files[path := PresetsJson(WithDefaults(before))], path);
      DefaultPresets.Keys <= after.Keys
      && forall k :: k in before ==> k in after && after[k] == before[k]
  {
  }
}
