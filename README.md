# TextifyVoice transcription core in Dafny

TextifyVoice is a desktop application. It transcribes audio and video files with
Whisper and writes the transcript as a Word document, plain text, SRT or WebVTT
subtitles, or JSON. This project models and proves the logic between the
recogniser's output and the files written:

- the settings object and its presets file (`transcription_settings.py`);
- how a transcription job is run and supervised: the checks, the poll loop
  with cancellation, how the outcome is decided, and the keyword arguments
  the worker passes to the recogniser (`main.py`);
- how the output file is named and which writer is chosen (`main.py`);
- text cleaning, timestamp formatting, paragraph grouping and the five
  writers (`main.py`);
- the pure logic of the advanced-settings window (`advanced_settings.py`):
  - text formatting for the live preview;
  - the sensitivity slider;
  - the preview itself.

Times are integer milliseconds. A segment's `start`, `end` and `text` are
`Option`s, which models `segment.get(key, default)`. A file is modelled as the
string written to it. A Word document is modelled as the list of its
paragraphs. Float formatting and the preview's timestamp formatter are
function parameters (`FloatRender`, `stamp`), so their output is
uninterpreted.

Modules, one per file:

- `Wrappers`: `Option`.
- `Text`: the Python string operations used.
- `Settings`
- `Timestamps`
- `Cleaning`
- `Paragraphs`
- `Renderers`
- `Paths`: POSIX `os.path`.
- `Output`: `format_output`.
- `Worker`: the arguments of `transcribe_file_process`.
- `Jobs`: `transcribe_file`.
- `Preview`: the window's helpers and `update_preview`.

Behaviour of the code worth knowing:

- `_build_paragraphs` uses a pause threshold of `2.0 + s/100·3.0` seconds
  (main.py:742). The slider label and the preview use `0.5 + s/100·4.5`
  (advanced_settings.py:667, 744). The two are kept apart, and
  `Preview.ThresholdsDiffer` proves they agree only at `s = 100`.
- The `full` timestamp format (and any unknown format) prints `HH:MM:SS`,
  with no fraction (main.py:916).
- SRT cue numbers are segment positions. A blank segment leaves a gap in the
  numbering; cues are not renumbered (main.py:823-832).
- `_clean_text` is not idempotent once punctuation is removed:
  `Cleaning.CleanNotIdempotentWithoutPunctuation`.
- The `timecode` frame number is not clamped to 0..24 (main.py:911-913).
  Here it is an uninterpreted `nat`.

## Model

| member | source | states |
|---|---|---|
| Text.Strip | main.py:872 | `str.strip()` yields a string with no whitespace at either end and never a longer one |
| Text.StripSlice | main.py:872 | the stripped text is the contiguous slice of the input that starts after the leading whitespace |
| Text.StripDropsSpace | main.py:872 | everything stripped away at either end is whitespace |
| Text.StripOfStripped | main.py:872 | stripping an already stripped string changes nothing |
| Text.TrimStartSuffix | main.py:872 | stripping the front keeps a suffix of the input |
| Text.TrimEndPrefix | main.py:872 | stripping the back keeps a prefix of the input |
| Text.UpperFacts | main.py:877-878 | `upper` is idempotent and keeps a character's whitespace and punctuation class |
| Text.LowerAt | main.py:881 | `str.lower()` maps character by character with the same length |
| Text.LowerIdempotent | main.py:881 | lowering twice is lowering once |
| Text.LowerIsLowerStr | main.py:881 | a lowered string has no upper-case letter |
| Text.LowerOfLowerStr | main.py:881 | lowering a string without upper-case letters changes nothing |
| Text.RemovePunctMembers | main.py:884-887 | a character survives punctuation removal exactly when it was present and is not in `string.punctuation` |
| Text.RemovePunctOfClean | main.py:884-887 | removal changes nothing in a text without punctuation |
| Text.RemovePunctKeepsLower | main.py:880-887 | removing punctuation keeps a lower-case text lower case |
| Text.DecStrFacts | main.py:900-903 | the decimal rendering of `n` is all digits, reads back as `n` and has 1, 2 or 3 digits in the matching range |
| Text.Pad2Facts | main.py:900-903 | `{n:02}` is at least two digits, exactly two below 100, and reads back as `n` |
| Text.Pad3Facts | main.py:900-903 | `{n:03}` is at least three digits, exactly three below 1000, and reads back as `n` |
| Settings.FieldNamedName | transcription_settings.py:56-70 | every dataclass field is found by `hasattr` under its own name |
| Settings.NameInjective | transcription_settings.py:56-70 | two fields never share a name |
| Settings.FieldNamed | transcription_settings.py:81 | the field `hasattr` finds for a name carries that name |
| Settings.Defaults | transcription_settings.py:52-70 | the dataclass defaults; `Settings.TranscriptionSettings.constructor` and `Settings.FromDictToDict` state what they are used for |
| Settings.Extensionality | transcription_settings.py:52-70 | two settings values that agree on every field are equal |
| Settings.WithAttr | transcription_settings.py:82 | after `setattr(f, v)`, `getattr` gives `v` for `f` and the old value for every other field |
| Settings.Overlay | transcription_settings.py:80-82 | the settings after the `hasattr`/`setattr` loop; `Settings.OverlayAttr` states its effect field by field |
| Settings.OverlayAttr | transcription_settings.py:80-82 | after the `hasattr`/`setattr` loop, fields named in the data take its values and the others keep theirs |
| Settings.ToDict | transcription_settings.py:72-75 | `asdict` without `presets_file`; `Settings.ToDictAt` and `Settings.ToDictKeys` state its contents |
| Settings.ToDictAt | transcription_settings.py:72-75 | `to_dict` holds every field except `presets_file`, under its name and with its value |
| Settings.ToDictKeys | transcription_settings.py:72-75 | every key of `to_dict` names a field other than `presets_file` |
| Settings.ToDictPlain | transcription_settings.py:72-75 | no key of `to_dict` can name a method or a special attribute, so `from_dict` of it sets only fields |
| Settings.ToDictWellTyped | transcription_settings.py:72-75 | `to_dict` gives each field a value of its declared type |
| Settings.OverlayToDict | transcription_settings.py:72-83 | applying a full `to_dict` onto any settings restores every field except `presets_file` |
| Settings.FromDict | transcription_settings.py:77-83 | `from_dict`: the defaults overridden by the data; `Settings.FromDictToDict` is its round trip with `to_dict` |
| Settings.FromDictToDict | transcription_settings.py:72-83 | `from_dict(s.to_dict())` equals `s` apart from `presets_file`, which takes the default |
| Settings.ImportedField | transcription_settings.py:106-111 | after `import_config`, a field named in the file has the file's value, `presets_file` keeps its own, and every other field is reset to its default |
| Settings.SummaryDetermines | transcription_settings.py:116-128 | for known format, mode and quality codes, two settings with the same summary have the same format, the same timestamp choice (and mode when included) and the same quality |
| Settings.Summary | transcription_settings.py:128 | the summary is exactly the three parts joined by " • " |
| Settings.SummaryFallsBack | transcription_settings.py:117-127 | an unknown code appears verbatim, a known one by its label |
| Settings.LoadPresetsAfterWrite | transcription_settings.py:131-142 | reading a presets file gives back the map last written to it, and writing one file leaves every other file's presets as they were |
| Settings.SaveThenLoad | transcription_settings.py:85-100 | after `save_preset(name)`, loading that preset restores every field except `presets_file`; every other preset is untouched |
| Settings.PresetEntryField | transcription_settings.py:145-194 | a built-in preset names the ten fields it sets, each with a value of its type, and leaves out the other five |
| Settings.PresetEntryShape | transcription_settings.py:145-194 | built-in presets are well typed, name only real fields, and do not set the sensitivity |
| Settings.WithDefaults | transcription_settings.py:201-204 | every built-in name is present afterwards; stored presets are kept unchanged; only built-ins are added |
| Settings.PresetStore.constructor | transcription_settings.py:131-142 | the store holds the given files |
| Settings.TranscriptionSettings.constructor | transcription_settings.py:52-70 | a new instance holds the dataclass defaults |
| Settings.TranscriptionSettings.FromData | transcription_settings.py:77-83 | `from_dict` gives the defaults overridden by the data |
| Settings.TranscriptionSettings.SetAttr | transcription_settings.py:82 | `setattr` changes exactly one field |
| Settings.TranscriptionSettings.Assign | transcription_settings.py:110-111 | every field is stored |
| Settings.TranscriptionSettings.AssignFirst | transcription_settings.py:110-111 | the first five fields are stored and the rest kept |
| Settings.TranscriptionSettings.AssignMiddle | transcription_settings.py:110-111 | the middle five fields are stored and the rest kept |
| Settings.TranscriptionSettings.AssignLast | transcription_settings.py:110-111 | the last five fields are stored and the rest kept |
| Settings.TranscriptionSettings.ApplyAll | transcription_settings.py:80-82 | the `if hasattr: setattr` loop leaves the old fields overridden by the data |
| Settings.TranscriptionSettings.SavePreset | transcription_settings.py:85-91 | a blank name raises `ValueError` and writes nothing; otherwise the stripped name is stored with `to_dict()` |
| Settings.TranscriptionSettings.LoadPreset | transcription_settings.py:93-100 | an unknown name raises `KeyError` and changes nothing; otherwise the preset is applied |
| Settings.TranscriptionSettings.ImportConfig | transcription_settings.py:106-111 | the instance becomes `from_dict(data)`, with its own `presets_file` |
| Settings.EnsureDefaultPresets | transcription_settings.py:197-206 | the store is rewritten, with the missing built-ins added, only when one is missing; otherwise it is untouched |
| Settings.AddMissing | transcription_settings.py:200-204 | `missing` is set exactly when a built-in was absent; the result is the old map plus the absent built-ins |
| Settings.DefaultPresetNamesFacts | transcription_settings.py:145-194 | the loop visits exactly the keys of `DEFAULT_PRESETS` |
| Settings.EnsuredDefaults | transcription_settings.py:197-206 | afterwards all four built-in presets are stored, and no stored preset was replaced |
| Timestamps.Clamp | main.py:894 | the clamped time is `max(0, ms)`: a natural number at least `ms` and equal to `ms` or 0 |
| Timestamps.Decompose | main.py:896-898 | hours, minutes, seconds and milliseconds recompose the clamped time with each part in range |
| Timestamps.DecomposeUnique | main.py:896-898 | that decomposition is the only in-range one |
| Timestamps.FormatTimestamp | main.py:892-916 | `_format_timestamp_value`; the `Timestamps` lemmas below state each format's layout and what reads back from it |
| Timestamps.TargetOverridesFormat | main.py:900-903 | with an SRT or VTT target the format setting is ignored |
| Timestamps.CueTimeLayout | main.py:900-903 | where hours, minutes, seconds, separator and milliseconds sit in a cue time |
| Timestamps.CueTimeParse | main.py:900-903 | a cue time with either separator reads back as the clamped time |
| Timestamps.CueTimeRoundTrip | main.py:900-903 | SRT and VTT times read back as the clamped time exactly |
| Timestamps.SrtVttDiffer | main.py:900-903 | SRT and VTT times differ only in the millisecond separator |
| Timestamps.DefaultIsCuePrefix | main.py:900-916 | the default `HH:MM:SS` format is the SRT time without `,mmm` |
| Timestamps.TimecodeLayout | main.py:910-913 | a timecode is the default clock, then `:` and the two-digit frame |
| Timestamps.MinutesLayout | main.py:906-909 | the `minutes` format is total minutes, `:`, two-digit seconds, `.` and one digit of tenths |
| Timestamps.TenthsArithmetic | main.py:907-909 | the tenths digit truncates the time to a tenth of a second |
| Timestamps.MinutesRoundTrip | main.py:906-909 | the `minutes` format reads back as the clamped time truncated to a tenth of a second |
| Cleaning.CapFirst | main.py:875-878 | with capitalization on, only the first character may change, and it is upper-cased |
| Cleaning.CleanText | main.py:870-889 | `_clean_text`: strip, then the case step, then punctuation removal; the `Cleaning` lemmas below state its properties |
| Cleaning.CleanNotLonger | main.py:870-889 | cleaning never lengthens the text beyond its stripped form, with case mapping as modelled (see `## Left out`) |
| Cleaning.CleanLowerWhenCapsOff | main.py:879-881 | with capitalization off the result has no upper-case letter |
| Cleaning.CleanChangesFirstOnly | main.py:872-878 | with both options on, the result is the stripped text with its first character upper-cased |
| Cleaning.CleanDropsPunct | main.py:884-887 | with punctuation off nothing in `string.punctuation` is left, and the result is the punctuated result with punctuation removed |
| Cleaning.CasedStripped | main.py:872-881 | the case step keeps a stripped text stripped |
| Cleaning.CasedIdempotent | main.py:875-881 | applying the case step twice is applying it once |
| Cleaning.CleanIdempotentWithPunctuation | main.py:870-889 | with punctuation kept, cleaning a cleaned text changes nothing |
| Cleaning.CleanNotIdempotentWithoutPunctuation | main.py:870-889 | "!a" cleans to "a", and cleaning again gives "A" |
| Cleaning.LoneMarkCleansToNothing | main.py:884-887 | with punctuation off, a single punctuation mark cleans to the empty string |
| Paragraphs.FlattenAppend | main.py:753-765 | flattening distributes over appending a group |
| Paragraphs.CohesiveAppend | main.py:745-757 | a segment appended after a short pause keeps the group cohesive |
| Paragraphs.WellSplitAppend | main.py:755-757 | a cohesive group closed after a long pause keeps the split well formed |
| Paragraphs.ScanStep | main.py:745-757 | one iteration of the grouping loop keeps its invariant |
| Paragraphs.ScanShape | main.py:745-757 | the invariant holds after every number of iterations |
| Paragraphs.Groups | main.py:740-766 | the groups of `_build_paragraphs`; `Paragraphs.GroupsSplitAtPauses` and `Paragraphs.GroupsSingletons` state what they are |
| Paragraphs.GroupsSplitAtPauses | main.py:740-763 | automatic paragraphs partition the segments, in order, into non-empty groups with no long pause inside and a long pause between them |
| Paragraphs.GroupsSingletons | main.py:764-766 | without automatic paragraphs each segment is a group of its own |
| Paragraphs.Texts | main.py:777 | one text per segment, in order: the segment's text (or `""`) stripped |
| Paragraphs.ParagraphOf | main.py:769-810 | the paragraph one group yields, if any; `Paragraphs.ParagraphOfShape` states its shape |
| Paragraphs.Paragraphs | main.py:735-818 | `_build_paragraphs`; `Paragraphs.BuildParagraphs` and the lemmas after it state its properties |
| Paragraphs.SegmentParts | main.py:784-792 | segment mode keeps at most one part per segment, each beginning `[` |
| Paragraphs.GroupAtPauses | main.py:740-763 | the grouping loop yields exactly the groups defined |
| Paragraphs.CollectSegmentParts | main.py:786-792 | the segment-mode loop yields exactly the parts defined |
| Paragraphs.BuildParagraph | main.py:768-810 | the loop body yields the paragraph defined for the group |
| Paragraphs.CollectParagraphs | main.py:768-810 | the loop over the groups collects exactly the paragraphs defined |
| Paragraphs.BuildParagraphs | main.py:735-818 | `_build_paragraphs` returns exactly the paragraphs defined, fallback included |
| Paragraphs.ParagraphOfShape | main.py:768-810 | a group's paragraph is never empty, and opens with `[` when it carries timestamps |
| Paragraphs.ParagraphsNonEmpty | main.py:735-818 | no paragraph is the empty string |
| Paragraphs.NoSegmentsNoParagraphs | main.py:812-817 | a transcript without segments yields no paragraphs |
| Paragraphs.WordModeIsPlain | main.py:796-801 | `word` and any other unknown mode, with timestamps on, give the same paragraphs as timestamps off |
| Paragraphs.CollectStamped | main.py:772-792 | in paragraph and segment mode every collected paragraph opens with `[` |
| Paragraphs.FallbackCanBeBlank | main.py:812-817 | two segments "!" and "?" with punctuation off fall back to the single paragraph " " |
| Paragraphs.MarkCleansToNothing | main.py:802-808 | a lone punctuation mark yields no paragraph once punctuation is dropped |
| Renderers.CuesFaithful | main.py:821-832 | each cue shows the segment at its position, with that segment's times and its non-blank cleaned text |
| Renderers.CuesIncreasing | main.py:823 | cue numbers strictly increase |
| Renderers.CuesComplete | main.py:823-832 | a position carries a cue exactly when that segment's text is not blank |
| Renderers.NoCuesIff | main.py:831 | there are no cues exactly when every segment is blank |
| Renderers.CueTextWithPunctuation | main.py:828-832 | with punctuation kept, the cue text is the cleaned text, which is already stripped |
| Renderers.CuesIgnoreFormat | main.py:821-848 | the timestamp format setting does not change which cues there are |
| Renderers.SrtFile | main.py:821-832 | the SRT text for the cues; `Renderers.SaveSrt`, `Renderers.SrtBlockRoundTrip` and `Renderers.SrtFileEmpty` state what it holds |
| Renderers.VttFile | main.py:835-848 | the VTT text for the cues; `Renderers.SaveVtt`, `Renderers.VttBlockRoundTrip` and `Renderers.VttFileBare` state what it holds |
| Renderers.SaveSrt | main.py:821-832 | the SRT loop writes exactly the blocks of the cues |
| Renderers.SaveVtt | main.py:835-848 | the VTT loop writes the header and then exactly the blocks of the cues |
| Renderers.SrtBlockIsNumberedVttBlock | main.py:821-832 | an SRT block is the cue number and a newline, then the VTT block |
| Renderers.SrtBlockRoundTrip | main.py:821-832 | an SRT block reads back as the cue number and the clamped start and end times |
| Renderers.VttBlockRoundTrip | main.py:835-848 | a VTT block reads back as the clamped start and end times |
| Renderers.SrtFileEmpty | main.py:821-832 | the SRT file is empty exactly when there are no cues |
| Renderers.VttFileBare | main.py:835-848 | the VTT file is just the header exactly when there are no cues |
| Renderers.SrtEmptyIffBlank | main.py:821-832 | the SRT file is empty exactly when every segment cleans to blank |
| Renderers.VttBareIffBlank | main.py:835-848 | the VTT file is just the header exactly when every segment cleans to blank |
| Renderers.SrtIgnoresFormat | main.py:824-827 | the SRT file does not depend on the timestamp format setting |
| Renderers.VttIgnoresFormat | main.py:840-843 | the VTT file does not depend on the timestamp format setting |
| Renderers.Payload | main.py:851-867 | the JSON payload: `text`, the cleaned segments and `to_dict()`; the next four rows state how it relates to the subtitles and the settings |
| Renderers.JsonMatchesSubtitles | main.py:851-867 | the JSON keeps one entry per segment, and the entry at each subtitle cue's position agrees with that cue on text and times |
| Renderers.JsonAgreesWithCues | main.py:851-867 | the same agreement, for any cue text that is the JSON text stripped |
| Renderers.CueShownStripsClean | main.py:851-867 | the cue text is the JSON entry text stripped |
| Renderers.JsonSettingsRoundTrip | main.py:863 | the settings saved in the JSON read back with `from_dict` as the settings used, apart from `presets_file` |
| Renderers.TxtFile | main.py:728-732 | the paragraphs joined by a blank line; `Renderers.TxtEmptyIff` states when it is empty |
| Renderers.TxtEmptyIff | main.py:728-731 | the text file is empty exactly when there are no paragraphs |
| Renderers.DocxParagraphs | main.py:721-723 | never more paragraphs than were produced; `Renderers.DocxKeepsSolid` states which are kept |
| Renderers.SaveDocx | main.py:714-724 | the document receives exactly the non-blank paragraphs, in order |
| Renderers.DocxKeepsSolid | main.py:720-722 | a paragraph is in the document exactly when it was produced and is not blank |
| Renderers.DocxKeepsAllWithPunctuation | main.py:714-724 | with punctuation kept, the document holds every paragraph |
| Renderers.DocxAllSolid | main.py:720-722 | a list of non-blank paragraphs is kept whole |
| Renderers.BlankFallbackOnlyInTxt | main.py:714-731 | for segments "!" and "?" with punctuation off, the text file holds " " and the document nothing |
| Paths.Dirname | main.py:685 | `os.path.dirname`; `Paths.DirnameShape` and `Paths.DirnameOfJoin` state its properties |
| Paths.Basename | main.py:686 | `os.path.basename`; `Paths.HeadBasename` and `Paths.BasenameOfJoin` state its properties |
| Paths.SplitExt | main.py:686 | `os.path.splitext`; `Paths.SplitExtParts` and `Paths.SplitExtOfName` state its properties |
| Paths.PathJoin | main.py:697 | `os.path.join` of two parts; `Paths.BasenameOfJoin` and `Paths.DirnameOfJoin` state what it preserves |
| Paths.RFind | main.py:685-686 | `rfind` gives the last occurrence, or -1 when there is none |
| Paths.RFindAppend | main.py:685-686 | characters appended after the last `c` do not move it |
| Paths.TrimEndCharPrefix | main.py:685 | `rstrip('/')` keeps a prefix and drops only slashes |
| Paths.HeadBasename | main.py:685-686 | head and `basename` concatenate back to the path; the basename has no `/`; the head ends in `/` |
| Paths.SplitExtParts | main.py:686 | root + extension is the name; the extension is empty, or a dot followed by neither dot nor slash |
| Paths.StemHasNoSlash | main.py:686 | the stem of a slash-free name has no slash |
| Paths.DirnameShape | main.py:685 | `dirname` is empty, all slashes, or ends without a slash |
| Paths.BasenameOfJoin | main.py:697 | `basename(join(d, n))` is `n` for a slash-free `n` |
| Paths.DirnameOfJoin | main.py:697 | `dirname(join(d, n))` is `d` for a `d` that `dirname` returned |
| Paths.SplitExtOfName | main.py:686 | a name with a non-dot character before a final dot-led extension splits at that dot |
| Output.WriterFor | main.py:700-708 | the handler `format_handlers.get` picks; `Output.ExtensionNamesWriter` and `Output.FormatFallback` state the choice |
| Output.OutputPath | main.py:685-697 | the output path; `Output.OutputBesideInput`, `Output.OutputName` and `Output.OutputExtension` state where and under what name |
| Output.FormatOutput | main.py:682-711 | the path returned is `<dir>/<stem>_text<ext>`, and the selected writer's content is written there |
| Output.ExtensionNamesWriter | main.py:689-709 | the extension always names the kind of file the chosen writer produces |
| Output.FormatFallback | main.py:696-708 | a known format is its own extension; any other format gets a Word file named `.docx` |
| Output.OutputBesideInput | main.py:685-697 | the output file lies in the input file's directory |
| Output.ExtensionShape | main.py:689-695 | every extension is a dot followed by dot-free, slash-free letters |
| Output.OutputName | main.py:686-697 | the output file's name is the input's stem, `_text` and the extension |
| Output.OutputExtension | main.py:686-697 | `splitext` on the output name gives back `<stem>_text` and the extension |
| Worker.ArgsFor | main.py:604-639 | the keyword arguments of `model.transcribe`; the `Worker` lemmas below state each |
| Worker.WordTimestampsIff | main.py:604-607 | word timestamps are requested exactly in `word` mode, and never verbose |
| Worker.LanguageOnlyWhenManual | main.py:609-616 | a language is passed exactly when the strategy is `manual` with a language set, and it is that language |
| Worker.UnknownQualityIsBalanced | main.py:638 | an unknown quality preset decodes like `balanced` |
| Worker.QualityLadder | main.py:620-638 | beam size equals best-of and grows from fast to accurate; decoding is greedy; only `accurate` sets patience |
| Worker.ArgsReadFourSettings | main.py:604-639 | the arguments depend only on the timestamp mode, language strategy, manual language and quality |
| Worker.ArgsSurviveDict | main.py:592-593 | the worker's rebuilt settings give the same arguments as the caller's settings |
| Jobs.FirstStop | main.py:518-536 | the first sleep after which the loop stops |
| Jobs.LastRound | main.py:518-536 | the last round of the poll loop lies within the schedule |
| Jobs.TranscriptionManager.constructor | main.py:432-441 | a new manager holds no worker and a clear cancel flag |
| Jobs.TranscriptionManager.DrainProgress | main.py:520-526 | every queued message reaches the progress callback once, in order, and nothing else changes |
| Jobs.PrepareSettings | main.py:498-504 | the settings dict sent to the worker, or none for an invalid value; `Jobs.SettingsSent` states each case |
| Jobs.ResultOutcome | main.py:538-548 | the outcome the result queue decides; `Jobs.TranscriptionManager.ProcessResult` computes it |
| Jobs.Expected | main.py:486-564 | how `transcribe_file` ends; `Jobs.OutcomeOfLaunch`, `Jobs.OutcomeBeforeLaunch`, `Jobs.EarlyExitIgnoresCancel` and `Jobs.CancelBeatsResult` state its cases |
| Jobs.TranscriptionManager.TranscribeFile | main.py:486-564 | the outcome is `Expected`; output callback called with the path exactly on success; progress reported as the loop drains it, or nothing when the worker had already exited; worker dropped and cancel flag cleared afterwards |
| Jobs.TranscriptionManager.RunWorker | main.py:507-548 | a worker already gone at the first `is_alive()` is judged by its result with no cancel check; otherwise the poll loop decides; a still-running worker is terminated only on cancel |
| Jobs.TranscriptionManager.PollLoop | main.py:518-536 | the loop runs up to the last round of the schedule, reports the progress queued before it, and is cancelled exactly when the flag is seen there, terminating a worker still alive |
| Jobs.TranscriptionManager.ProcessResult | main.py:538-548 | the first queued result decides the outcome; a path is passed to the output callback, and nothing else changes |
| Jobs.StopsOnlyAtLast | main.py:518-536 | before the last round neither a cancel nor a worker exit occurs |
| Jobs.OutcomeOfLaunch | main.py:518-548 | once started: cancelled iff the flag is seen; completed with `p` iff the worker reported `p`; otherwise the worker's error or "no result" |
| Jobs.OutcomeBeforeLaunch | main.py:490-558 | no model path, a missing file and bad settings fail, in that order, before any worker is started |
| Jobs.EarlyExitIgnoresCancel | main.py:518-548 | a worker that exited before the loop first looks is judged by its result alone: a cancel flag set beforehand is never read |
| Jobs.CancelBeatsResult | main.py:528-548 | a cancel in the same round as a successful exit is reported as a cancellation |
| Jobs.LaterSleepsIgnored | main.py:518-536 | what the environment does after the last round changes neither the outcome nor the progress reported |
| Jobs.ReportedIsPrefix | main.py:520-526 | the progress reported so far is a prefix of everything the worker queues |
| Jobs.SettingsSent | main.py:498-504 | a settings object is sent as `to_dict()`, a non-empty dict as is, anything falsy as the defaults; any other truthy value is rejected |
| Preview.TrimMarks | advanced_settings.py:794-795 | `rstrip('.,!?;:')` leaves no trailing mark |
| Preview.TrimMarksPrefix | advanced_settings.py:794-795 | it keeps a prefix and drops only marks |
| Preview.FormatText | advanced_settings.py:781-797 | `_apply_text_formatting`; the `Preview.Format*` lemmas below state its properties |
| Preview.FormatWithPunctuation | advanced_settings.py:789-793 | with punctuation on the result ends in `. ! ? ,`; a mark is appended only when none is there; `?` exactly when the text has `?` or "você" |
| Preview.FormatWithoutPunctuation | advanced_settings.py:794-795 | with punctuation off only trailing marks are removed and none is left at the end |
| Preview.FormatCase | advanced_settings.py:784-787 | capitalization off lowers everything; on, the first character is upper-cased |
| Preview.FormatCaseFixed | advanced_settings.py:784-795 | the formatted text is already in the case the option asks for |
| Preview.FormatIdempotent | advanced_settings.py:781-797 | formatting a formatted text changes nothing |
| Preview.PreviewKeepsInnerMarks | advanced_settings.py:794-795 | "a,b" keeps its comma in the preview, while `_clean_text` removes it |
| Preview.PreviewThresholdMs | advanced_settings.py:667 | the slider's pause in milliseconds; `Preview.ThresholdRange` and `Preview.ThresholdsDiffer` state its range and how it compares |
| Preview.ThresholdRange | advanced_settings.py:667 | the preview pause lies in 0.5..5 s for a slider in 0..100 and grows with the slider |
| Preview.BucketFor | advanced_settings.py:669-676 | the description band of a slider value; `Preview.BucketsOrdered` and `Preview.BucketByPause` state its order and bands |
| Preview.Description | advanced_settings.py:669-676 | the four description texts |
| Preview.BucketsOrdered | advanced_settings.py:669-676 | the description bucket never decreases as the slider grows |
| Preview.BucketByPause | advanced_settings.py:667-676 | each bucket is exactly a band of pause lengths |
| Preview.ThresholdsDiffer | advanced_settings.py:744 | the preview threshold equals the output threshold only at 100, and is smaller below it |
| Preview.WordsKeepText | advanced_settings.py:758 | `str.split()` loses only whitespace |
| Preview.WordsAreWords | advanced_settings.py:758 | every word is non-empty and has no whitespace |
| Preview.WordLengthFacts | advanced_settings.py:758 | a word runs up to the next whitespace |
| Preview.SampleBreaksAtDefault | advanced_settings.py:694-745 | at sensitivity 50 the sample breaks before the 2nd, 3rd, 4th and 7th sentences only |
| Preview.ParagraphStart | advanced_settings.py:747-750 | the recorded paragraph start never lies after the current sentence |
| Preview.ParagraphStartFacts | advanced_settings.py:747-750 | the paragraph start is 0 or a sentence that opens a paragraph, and nothing after it opens one |
| Preview.BreakRule | advanced_settings.py:741-750 | a paragraph opens at `i > 0` iff there is a start-to-start gap above the threshold, or a change of the speaker shown |
| Preview.StampRule | advanced_settings.py:756-770 | segment mode stamps every sentence, paragraph mode exactly the paragraph openers, other modes none |
| Preview.LabelAtParagraphs | advanced_settings.py:747-754 | with speakers shown, the label is written exactly where a paragraph opens, always at the first sentence |
| Preview.OneParagraph | advanced_settings.py:741-777 | with no automatic paragraphs and no speakers: no blank line, no label, and paragraph mode stamps only the first sentence |
| Preview.WriteWords | advanced_settings.py:758-764 | word mode writes `[time+0.3·j] word ` for each word |
| Preview.WriteBody | advanced_settings.py:756-774 | the timestamp and text written for one sentence |
| Preview.Pieces | advanced_settings.py:738-777 | the text branch's output for the first `n` sentences; `Preview.PreviewText` states that the loop writes it |
| Preview.PreviewText | advanced_settings.py:734-777 | the text branch writes exactly the pieces defined, keeping `last_speaker` and `paragraph_start_index` as specified |
| Preview.SampleCuesShape | advanced_settings.py:707-715 | every sample sentence becomes a cue numbered by position, three seconds long |
| Preview.PreviewSrt | advanced_settings.py:707-715 | the `srt` preview is exactly the SRT file `_save_srt`'s block layout gives for the sample cues |
| Preview.PreviewVtt | advanced_settings.py:717-725 | the `vtt` preview is exactly the VTT file for the sample cues |
| Preview.UpdatePreview | advanced_settings.py:681-779 | no widget means nothing is written; otherwise the branch for the output format gives the widget's contents |

## Left out

- The Tk GUI is not modelled. This covers windows, widgets, message boxes and
  `after` callbacks, and the `ErrorHandlers` dialogs shown before
  `transcribe_file` re-raises.
- Real concurrency is not modelled: `multiprocessing.Process` and `Queue`,
  `terminate` and `join`, and `time.sleep`. The worker is an environment
  schedule of `Tick`s. Each tick is what the worker queues during one sleep,
  whether it exits, and whether a cancel arrives.
- The second cancel path, which kills the process from the window thread, is
  not modelled.
- Jobs.TranscriptionManager.TranscribeFile requires the loop to finish: the
  worker has exited before the first `is_alive()`, or the schedule ends in an
  exit or a cancel. A worker that never exits keeps the source's loop running
  forever, and that case is outside the model.
- Jobs.TranscriptionManager.TranscribeFile does not model an exception raised
  by the output callback (main.py:545-546). In the source that exception
  turns a completed job into a failed one.
- Jobs.TranscriptionManager.TranscribeFile does not model exceptions raised
  by the progress callback. The source swallows them with
  `try/except: pass`, which stops that round's drain.
- Jobs.TranscriptionManager.TranscribeFile does not record the
  `self.progress_callback` assignment, which nothing in the core reads.
- The worker's internals are not modelled, because they are foreign calls or
  I/O: model loading, FFmpeg audio extraction, `model.transcribe`, temp file
  removal and logging. The progress percentages are advisory constants.
- Model download, disk-space checks and the config file are not modelled,
  because they are network and file I/O.
- `docx.Document` serialisation is not modelled. The document is the list of
  paragraphs it receives.
- JSON serialisation (`json.dump`, indentation) is not modelled. The payload
  is modelled as a value.
- The `seconds` format and the `timecode` frame number use Python floats and
  banker's rounding. They are the uninterpreted `FloatRender` parameter.
- `round(seconds * 1000)` is modelled as exact integer milliseconds.
- Paragraphs.Groups compares pauses in exact milliseconds. The source
  compares float seconds (main.py:751-755), so a pause that floating point
  puts just across the threshold may be grouped differently there.
- `_format_preview_timestamp` is entirely float formatting, so it is the
  uninterpreted `stamp` parameters.
- The sensitivity label's `{pause_time:.1f}` text is float formatting and is
  not modelled. The threshold and the description are.
- Preview times are exact milliseconds. On the seven sample times, no float
  gap difference lands on an integer-sensitivity threshold, so no
  comparison changes.
- Preview.UpdatePreview takes the sample as a parameter. The window always
  passes `ExampleText`.
- Paths models POSIX `os.path` only, not the Windows `ntpath` rules.
- Text.ToUpper only upper-cases `a`-`z` and the Latin-1 letters `à`-`þ`
  (except `÷`). Every other character is left unchanged, including the
  Latin-1 letters `ß`, `ÿ` and `µ`, which Python upper-cases to `"SS"`,
  U+0178 and U+039C. Text.ToLower and Text.IsUpper likewise know only `A`-`Z`
  and `À`-`Þ` (except `×`). Python's full Unicode case mapping is not
  modelled.
- Cleaning.CleanNotLonger holds of the model's case mapping only. With
  capitalization on, the program upper-cases a leading `ß` to `"SS"`, so
  `"ßa"` cleans to the longer `"SSa"`.
- Settings.LoadPresets models a presets file that is missing, not valid
  JSON, or a JSON object whose entries are objects. Other files are outside
  the model. Text that is not UTF-8 raises `UnicodeDecodeError`, which is not
  caught, so `ensure_default_presets()` at import fails. Valid JSON that is
  not an object is returned as is, and `save_preset` then raises `TypeError`
  when it stores into it. A preset entry that is not an object makes
  `load_preset` fail at `.items()`.
- Settings.TranscriptionSettings.ApplyAll requires `PlainKeys`: no key of the
  data may name a method (`to_dict`, `summary`, ...) or a special attribute
  (`__class__`, ...) unless it names a field. In the source `hasattr` finds
  such keys too.
  `setattr` then shadows the method on that instance, or raises for some
  special attributes such as `__class__`. `import_config` fails with
  `TypeError`, leaving the instance unchanged, when the data shadows
  `to_dict` with a value that cannot be called. The model does not cover
  these keys.
- Settings.TranscriptionSettings.FromData requires `PlainKeys`, for the same
  reason as `ApplyAll`.
- Settings.TranscriptionSettings.LoadPreset requires `PlainKeys` of the stored
  preset, for the same reason as `ApplyAll`.
- Settings.TranscriptionSettings.ImportConfig requires `PlainKeys`, for the
  same reason as `ApplyAll`. This excludes the `to_dict` key that makes it
  raise `TypeError`.
- Settings.ImportedField requires `PlainKeys`, for the same reason as
  `ApplyAll`.
- Settings.TranscriptionSettings.ApplyAll requires every value to have its
  field's JSON type. A file that stores, say, a string in a boolean field is
  accepted by `setattr` in the source but is outside the model.
- `export_config`, `available_presets` and `_write_presets` are file writes
  and reads. The presets file is the `PresetStore` map.
- The inert settings (`detect_speakers`, `remove_noise`, `normalize_audio`
  and the `multi` language) are stored and round-tripped, but the worker
  never reads them.
