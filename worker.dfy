/**
 * The keyword arguments `transcribe_file_process` (main.py) passes to
 * `model.transcribe`, chosen from the settings it rebuilds with `from_dict`:
 * word timestamps, the language and the decoding parameters of the quality
 * preset.
 */
module Worker {
  import opened Wrappers
  import opened Settings

  /** One entry of `quality_presets`; `patience` is present in `accurate` only. */
  datatype Decoding = Decoding(beamSize: nat, bestOf: nat, temperature: real, patience: Option<real>)

  /** The `quality_presets` dictionary. */
  function QualityPreset(name: string): Option<Decoding> {
    if name == "fast" then Some(Decoding(1, 1, 0.0, None))
    else if name == "balanced" then Some(Decoding(3, 3, 0.0, None))
    else if name == "accurate" then Some(Decoding(5, 5, 0.0, Some(1.0)))
    else None
  }

  /** `quality_presets.get(settings.quality_preset, quality_presets["balanced"])`. */
  function DecodingFor(name: string): Decoding {
    QualityPreset(name).GetOr(QualityPreset("balanced").GetOr(Decoding(3, 3, 0.0, None)))
  }

  /** The keyword arguments of `model.transcribe`; `language` is always passed, `None` for detection. */
  datatype TranscribeArgs = TranscribeArgs(
    wordTimestamps: bool, verbose: bool, language: Option<string>, decoding: Decoding)

  /** The language branch: `manual` with a language names it, anything else asks for detection. */
  function LanguageFor(o: Options): Option<string> {
    if o.languageStrategy == "manual" && o.manualLanguage != "" then Some(o.manualLanguage)
    else if o.languageStrategy == "auto" then None
    else None
  }

  function ArgsFor(o: Options): TranscribeArgs {
    TranscribeArgs(o.timestampMode == "word", false, LanguageFor(o), DecodingFor(o.qualityPreset))
  }

  /** Word-level timestamps are asked for exactly in `word` mode. */
  lemma WordTimestampsIff(o: Options)
    ensures ArgsFor(o).wordTimestamps <==> o.timestampMode == "word"
    ensures !ArgsFor(o).verbose
  {
  }

  /** A language is passed exactly when the strategy is `manual` and a language is set, and it is that language. */
  lemma LanguageOnlyWhenManual(o: Options)
    ensures ArgsFor(o).language.Some? <==> o.languageStrategy == "manual" && o.manualLanguage != ""
    ensures ArgsFor(o).language.Some? ==> ArgsFor(o).language.value == o.manualLanguage
  {
  }

  /** A preset name the table does not know decodes like `balanced`. */
  lemma UnknownQualityIsBalanced(name: string)
    requires QualityPreset(name).None?
    ensures DecodingFor(name) == DecodingFor("balanced")
    ensures name != "fast" && name != "balanced" && name != "accurate"
  {
  }

  /**
   * The presets are ordered by effort: beam size and best-of are equal and
   * grow from `fast` to `accurate`, sampling is always greedy, and only
   * `accurate` sets a patience.
   */
  lemma QualityLadder(name: string)
    ensures var d := DecodingFor(name);
      && d.beamSize == d.bestOf && d.temperature == 0.0
      && (d.patience.Some? <==> name == "accurate")
      && DecodingFor("fast").beamSize < DecodingFor("balanced").beamSize < DecodingFor("accurate").beamSize
  {
  }

  /** The arguments read four settings only: timestamp mode, language strategy, manual language and quality. */
  lemma ArgsReadFourSettings(o1: Options, o2: Options)
    requires o1.timestampMode == o2.timestampMode && o1.qualityPreset == o2.qualityPreset
    requires o1.languageStrategy == o2.languageStrategy && o1.manualLanguage == o2.manualLanguage
    ensures ArgsFor(o1) == ArgsFor(o2)
  {
  }

  /** The worker rebuilds the settings from `to_dict()`; the arguments are those of the original settings. */
  lemma ArgsSurviveDict(o: Options, defaultPath: string)
    ensures WellTyped(ToDict(o)) && ArgsFor(FromDict(ToDict(o), defaultPath)) == ArgsFor(o)
  {
    FromDictToDict(o, defaultPath);
    ArgsReadFourSettings(FromDict(ToDict(o), defaultPath), o);
  }
}
