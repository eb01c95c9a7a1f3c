/**
 * The drag-and-drop front end: how the window turns what its fields hold and
 * the files dropped on it into saved settings and background subtitle jobs, and
 * what a job reports when `run` finishes. The language validator used on drop,
 * `run` itself and the text-to-speech and folder-opening calls are outside it:
 * the validator is a parameter, `run`'s outcome an input, and the calls are
 * recorded as effects.
 */
module Gui {
  import opened Wrappers
  import opened Strings

  /** What the window's four input widgets hold: DeepL key, model, output languages, subtitle format. */
  datatype Form = Form(deeplText: string, modelText: string, languagesText: string, formatText: string)

  /** One request handed to the callback and run on its own thread. */
  datatype SubtitleJob = SubtitleJob(
    videofile: string,
    deeplApiKey: Option<string>,
    languages: seq<string>,
    model: string,
    convertToWebvtt: bool)

  /**
   * The language list `save_settings` stores: the field's text, stripped, split
   * on commas, each entry stripped.
   */
  function SavedLanguages(text: string): seq<string> {
    StripAll(Split(Strip(text), ','))
  }

  /**
   * The saved list has one entry more than the text has commas (so it is never
   * empty), and every entry is without surrounding whitespace and without a comma.
   */
  lemma SavedLanguagesShape(text: string)
    ensures var languages := SavedLanguages(text);
      |languages| == multiset(text)[','] + 1
      && forall i :: 0 <= i < |languages| ==> IsStripped(languages[i]) && ',' !in languages[i]
  {
    var pieces := Split(Strip(text), ',');
    SplitCount(Strip(text), ',');
    StripKeepsCount(text, ',');
    SplitPiecesFree(Strip(text), ',');
    StripAllKeepsOut(pieces, ',');
  }

  /**
   * The window shows the saved list joined with commas; saving that text again
   * stores the same list, for any list of stripped, comma-free entries.
   */
  lemma SavedLanguagesRoundTrip(languages: seq<string>)
    requires |languages| >= 1
    requires forall i :: 0 <= i < |languages| ==> IsStripped(languages[i]) && ',' !in languages[i]
    ensures SavedLanguages(Join(languages, ',')) == languages
  {
    var text := Join(languages, ',');
    assert Strip(text) == text by {
      JoinStripped(languages, ',');
      StripOfStripped(text);
    }
    assert Split(text, ',') == languages by {
      SplitJoin(languages, ',');
    }
    assert StripAll(languages) == languages by {
      StripAllOfStripped(languages);
    }
  }

  /** `callback` treats an empty DeepL key as no key; any other key is kept as typed. */
  function NormalizeKey(deeplApiKey: string): (key: Option<string>)
    ensures key.None? <==> deeplApiKey == ""
    ensures key.Some? ==> key.value == deeplApiKey
  {
    if deeplApiKey == "" then None else Some(deeplApiKey)
  }

  /** The `convert_to_webvtt` flag, computed on drop from the stripped text of the format selector. */
  function WebvttFlag(subtitleFormat: string): bool {
    subtitleFormat == "WEBVTT"
  }

  /** The format named in the completion announcement. */
  function FormatLabel(convertToWebvtt: bool): (fmt: string)
    ensures fmt == "WEBVTT" <==> convertToWebvtt
    ensures fmt == "WEBVTT" || fmt == "SRT"
  {
    if convertToWebvtt then "WEBVTT" else "SRT"
  }

  /**
   * The announced format is WEBVTT exactly when the selector reads WEBVTT; for
   * either of the selector's two entries it is the entry itself, and any other
   * text is announced as SRT.
   */
  lemma AnnouncedFormatMatchesSelection(formatText: string)
    ensures FormatLabel(WebvttFlag(Strip(formatText))) == "WEBVTT" <==> Strip(formatText) == "WEBVTT"
    ensures Strip(formatText) == "WEBVTT" || Strip(formatText) == "SRT" ==>
      FormatLabel(WebvttFlag(Strip(formatText))) == Strip(formatText)
    ensures Strip(formatText) != "WEBVTT" ==> FormatLabel(WebvttFlag(Strip(formatText))) == "SRT"
  {
  }

  /**
   * `os.path.basename` with `/` as separator: the part of the path after its
   * last `/` (all of it when there is none).
   */
  function Basename(path: string): string {
    if path == [] || path[|path| - 1] == '/' then ""
    else Basename(path[..|path| - 1]) + [path[|path| - 1]]
  }

  /**
   * The basename is a suffix of the path without `/`, and when it is not the
   * whole path the character before it is `/`.
   */
  lemma {:induction false} BasenameIsLastComponent(path: string)
    ensures var name := Basename(path);
      '/' !in name && |name| <= |path| && name == path[|path| - |name|..]
      && (|name| < |path| ==> path[|path| - |name| - 1] == '/')
  {
    if path != [] && path[|path| - 1] != '/' {
      var init := path[..|path| - 1];
      BasenameIsLastComponent(init);
      var b := Basename(init);
      assert path[|path| - |b| - 1..] == b + [path[|path| - 1]];
    }
  }

  /** A name without `/` is its own basename, so taking the basename twice changes nothing. */
  lemma {:induction false} BasenameOfName(name: string)
    requires '/' !in name
    ensures Basename(name) == name
  {
    if name != [] {
      BasenameOfName(name[..|name| - 1]);
      assert name == name[..|name| - 1] + [name[|name| - 1]];
    }
  }

  /** The basename of `dir/name` is `name`. */
  lemma BasenameOfPath(dir: string, name: string)
    requires '/' !in name
    ensures Basename(dir + "/" + name) == name
  {
    var path := dir + "/" + name;
    var b := Basename(path);
    BasenameIsLastComponent(path);
    assert path[|path| - |name| - 1] == '/';
    assert path[|path| - |name|..] == name;
  }

  /** Python's `s.replace("_", " ")`. */
  function SpaceUnderscores(s: string): (r: string)
    ensures |r| == |s| && '_' !in r
    ensures forall i :: 0 <= i < |s| && s[i] != '_' ==> r[i] == s[i]
    ensures forall i :: 0 <= i < |s| && s[i] == '_' ==> r[i] == ' '
  {
    seq(|s|, i requires 0 <= i < |s| => if s[i] == '_' then ' ' else s[i])
  }

  /**
   * The name spoken when a job completes: the file's basename up to its first
   * `.`, with every `_` read as a space.
   */
  function VoiceName(videofile: string): string {
    SpaceUnderscores(Split(Basename(videofile), '.')[0])
  }

  /** The spoken name holds no `/`, `.` or `_`. */
  lemma VoiceNameChars(videofile: string)
    ensures var voicename := VoiceName(videofile);
      '/' !in voicename && '.' !in voicename && '_' !in voicename
  {
    var name := Basename(videofile);
    BasenameIsLastComponent(videofile);
    SplitPiecesFree(name, '.');
    SplitFirst(name, '.');
  }

  /**
   * For any path, the spoken name is the basename up to (not including) its
   * first `.`, or the whole basename when it has none, with underscores read as
   * spaces: `k` below is that position.
   */
  lemma VoiceNameOfPath(path: string, k: nat)
    requires k <= |Basename(path)| && '.' !in Basename(path)[..k]
    requires k < |Basename(path)| ==> Basename(path)[k] == '.'
    ensures VoiceName(path) == SpaceUnderscores(Basename(path)[..k])
  {
    var b := Basename(path);
    SplitFirst(b, '.');
    SplitPiecesFree(b, '.');
  }

  /** For `dir/stem.ext` with no `.` in the stem, the spoken name is the stem with underscores read as spaces. */
  lemma VoiceNameOfFile(dir: string, stem: string, ext: string)
    requires '/' !in stem && '.' !in stem && '/' !in ext
    ensures VoiceName(dir + "/" + (stem + "." + ext)) == SpaceUnderscores(stem)
  {
    var name := stem + "." + ext;
    BasenameOfPath(dir, name);
    SplitPrefix(stem, "." + ext, '.');
    assert stem + ("." + ext) == name;
    assert Split("." + ext, '.')[0] == "" by {
      assert ("." + ext)[0] == '.';
    }
    assert stem + "" == stem;
  }

  /** The job's file is replaced by its basename before the name is spoken; that does not change the name. */
  lemma VoiceNameOfBasename(videofile: string)
    ensures VoiceName(Basename(videofile)) == VoiceName(videofile)
  {
    BasenameIsLastComponent(videofile);
    BasenameOfName(Basename(videofile));
  }

  /** The sentence spoken when a job completes. */
  function Announcement(voicename: string, fmt: string): string {
    "Attention: " + voicename + " has completed subtitle generation in " + fmt + " format"
  }

  /** The calls a job makes on its thread, in order. */
  datatype Effect =
    | CallRun(job: SubtitleJob)       // `run`, with the file given by its basename
    | OpenFolder(path: string)        // open the output folder
    | Say(text: string)               // speak a message

  /**
   * Whether `os.chdir(os.path.dirname(videofile))` succeeds. A path without `/`
   * has the empty dirname, and `chdir("")` raises; any path with a `/` has a
   * non-empty dirname, and the change succeeds when that directory exists.
   */
  predicate ChdirSucceeds(videofile: string, directoryExists: bool) {
    '/' in videofile && directoryExists
  }

  /**
   * `_generate_subtitles`: first changes into the file's directory, outside the
   * `try`, so when that fails the thread ends with nothing run, opened or spoken.
   * Otherwise it calls `run` on the file's basename; when `run` raises
   * (Err carries the exception's text) speaks the error and stops; otherwise
   * opens the folder `run` returned and announces the spoken name and format.
   */
  function GenerateSubtitles(job: SubtitleJob, directoryExists: bool, outcome: Result<string, string>): (effects: seq<Effect>)
    ensures !ChdirSucceeds(job.videofile, directoryExists) ==> effects == []
    ensures ChdirSucceeds(job.videofile, directoryExists) ==>
      |effects| >= 2 && effects[0] == CallRun(job.(videofile := Basename(job.videofile)))
    ensures ChdirSucceeds(job.videofile, directoryExists) && outcome.Ok? ==> effects[1..] == [OpenFolder(outcome.value), Say(Announcement(VoiceName(job.videofile), FormatLabel(job.convertToWebvtt)))]
    ensures ChdirSucceeds(job.videofile, directoryExists) && outcome.Err? ==>
      effects[1..] == [Say("Error: " + outcome.error)]
  {
    if !ChdirSucceeds(job.videofile, directoryExists) then [] else
    var videofile := Basename(job.videofile);
    var call := CallRun(job.(videofile := videofile));
    match outcome
    case Err(message) => [call, Say("Error: " + message)]
    case Ok(out) =>
      VoiceNameOfBasename(job.videofile);
      [call, OpenFolder(out), Say(Announcement(VoiceName(videofile), FormatLabel(job.convertToWebvtt)))]
  }

  /** The completion announcement and an error message are never the same sentence. */
  lemma AnnouncementIsNotError(voicename: string, fmt: string, message: string)
    ensures Announcement(voicename, fmt) != "Error: " + message
  {
    assert Announcement(voicename, fmt)[0] == 'A';
    assert ("Error: " + message)[0] == 'E';
  }

  /** A job opens a folder exactly when it reached `run` and `run` succeeded. */
  lemma OpensFolderOnlyOnSuccess(job: SubtitleJob, directoryExists: bool, outcome: Result<string, string>)
    ensures (exists i :: 0 <= i < |GenerateSubtitles(job, directoryExists, outcome)|
               && GenerateSubtitles(job, directoryExists, outcome)[i].OpenFolder?)
      <==> ChdirSucceeds(job.videofile, directoryExists) && outcome.Ok?
  {
    var effects := GenerateSubtitles(job, directoryExists, outcome);
    if !ChdirSucceeds(job.videofile, directoryExists) {
    } else if outcome.Ok? {
      assert effects[1..][0].OpenFolder?;
    } else {
      assert effects == [effects[0]] + effects[1..];
    }
  }

  /**
   * A job announces its completion exactly when it reached `run` and `run`
   * succeeded; a failed `run` is reported by speaking only the error.
   */
  lemma AnnouncesOnlyOnSuccess(job: SubtitleJob, directoryExists: bool, outcome: Result<string, string>)
    ensures Say(Announcement(VoiceName(job.videofile), FormatLabel(job.convertToWebvtt)))
        in GenerateSubtitles(job, directoryExists, outcome)
      <==> ChdirSucceeds(job.videofile, directoryExists) && outcome.Ok?
  {
    var effects := GenerateSubtitles(job, directoryExists, outcome);
    var done := Announcement(VoiceName(job.videofile), FormatLabel(job.convertToWebvtt));
    if !ChdirSucceeds(job.videofile, directoryExists) {
    } else if outcome.Ok? {
      assert effects[1..][1] == Say(done);
    } else {
      AnnouncementIsNotError(VoiceName(job.videofile), FormatLabel(job.convertToWebvtt), outcome.error);
      assert effects == [effects[0]] + effects[1..];
    }
  }

  /** What the settings object holds: DeepL key, model, output languages, subtitle format. */
  datatype SettingsValues = SettingsValues(deeplKey: string, model: string, languages: seq<string>, subtitleFormat: string)

  /**
   * What `save_settings` stores for the given widget texts: the key, model and
   * format stripped, and the language list as SavedLanguages makes it.
   */
  function SavedSettings(form: Form): SettingsValues {
    SettingsValues(Strip(form.deeplText), Strip(form.modelText), SavedLanguages(form.languagesText), Strip(form.formatText))
  }

  /** The persisted settings the window reads at start and writes before every drop. */
  class Settings {
    var deeplKey: string
    var model: string
    var languages: seq<string>
    var subtitleFormat: string

    function Values(): SettingsValues
      reads this
    {
      SettingsValues(deeplKey, model, languages, subtitleFormat)
    }

    constructor (deeplKey: string, model: string, languages: seq<string>, subtitleFormat: string)
      ensures Values() == SettingsValues(deeplKey, model, languages, subtitleFormat)
    {
      this.deeplKey := deeplKey;
      this.model := model;
      this.languages := languages;
      this.subtitleFormat := subtitleFormat;
    }

    /** The `set_deepl_key`, `set_model`, `set_languages` and `set_subtitle_format` calls together. */
    method Store(values: SettingsValues)
      modifies this
      ensures Values() == values
    {
      deeplKey, model, languages, subtitleFormat := values.deeplKey, values.model, values.languages, values.subtitleFormat;
    }
  }

  /** The processor the callback hands each job's thread to; its jobs in submission order. */
  class ThreadProcessor {
    var jobs: seq<SubtitleJob>

    constructor ()
      ensures jobs == []
    {
      jobs := [];
    }

    method Add(job: SubtitleJob)
      modifies this
      ensures jobs == old(jobs) + [job]
    {
      jobs := jobs + [job];
    }
  }

  /** `callback` in `run_gui`: normalises an empty key to None and schedules the job. */
  method Callback(processor: ThreadProcessor, videofile: string, deeplApiKey: string, languages: seq<string>,
                  model: string, convertToWebvtt: bool)
    modifies processor
    ensures processor.jobs == old(processor.jobs) + [SubtitleJob(videofile, NormalizeKey(deeplApiKey), languages, model, convertToWebvtt)]
  {
    var key := NormalizeKey(deeplApiKey);
    processor.Add(SubtitleJob(videofile, key, languages, model, convertToWebvtt));
  }

  /** One job per file, in the order given, all with the same key, languages, model and format flag. */
  function Batch(files: seq<string>, deeplApiKey: Option<string>, languages: seq<string>, model: string,
                 convertToWebvtt: bool): (jobs: seq<SubtitleJob>)
    ensures |jobs| == |files|
    ensures forall i :: 0 <= i < |files| ==> jobs[i].videofile == files[i]
  {
    seq(|files|, i requires 0 <= i < |files| => SubtitleJob(files[i], deeplApiKey, languages, model, convertToWebvtt))
  }

  /**
   * The jobs a drop schedules. The handler strips the key, model and format
   * widgets exactly as `save_settings` just did, so it uses the saved values:
   * the key (None when empty), the validated languages with each entry
   * stripped, the model, and whether the format is WEBVTT.
   */
  function DroppedJobs(files: seq<string>, saved: SettingsValues, parsed: seq<string>): seq<SubtitleJob> {
    Batch(files, NormalizeKey(saved.deeplKey), StripAll(parsed), saved.model, WebvttFlag(saved.subtitleFormat))
  }

  /** A dropped batch is one job per file, in drop order, differing only in the file. */
  lemma DroppedJobsShareSettings(files: seq<string>, saved: SettingsValues, parsed: seq<string>)
    ensures var jobs := DroppedJobs(files, saved, parsed);
      |jobs| == |files|
      && (forall i :: 0 <= i < |files| ==> jobs[i].videofile == files[i])
      && (forall i, j :: 0 <= i < |files| && 0 <= j < |files| ==> jobs[i].(videofile := files[j]) == jobs[j])
  {
  }

  /**
   * Each job of a drop carries what the handler read from the widgets: no key
   * when the stripped key field is empty and the stripped key otherwise, the
   * validated languages each stripped, the stripped model, and the WEBVTT flag.
   */
  lemma DroppedJobUsesWidgetTexts(files: seq<string>, form: Form, parsed: seq<string>, i: int)
    requires 0 <= i < |files|
    ensures var job := DroppedJobs(files, SavedSettings(form), parsed)[i];
      job.videofile == files[i]
      && (job.deeplApiKey.None? <==> Strip(form.deeplText) == "")
      && (job.deeplApiKey.Some? ==> job.deeplApiKey.value == Strip(form.deeplText))
      && |job.languages| == |parsed|
      && (forall k :: 0 <= k < |parsed| ==> job.languages[k] == Strip(parsed[k]) && IsStripped(job.languages[k]))
      && job.model == Strip(form.modelText)
      && job.convertToWebvtt == WebvttFlag(Strip(form.formatText))
  {
  }

  /**
   * The main window: the settings object it writes and the thread processor its
   * drop callback feeds. The texts of its input widgets at the moment an event
   * is handled are passed to the handlers as a `Form`.
   */
  class MainWidget {
    const settings: Settings
    const processor: ThreadProcessor

    constructor (settings: Settings, processor: ThreadProcessor)
      ensures this.settings == settings && this.processor == processor
    {
      this.settings := settings;
      this.processor := processor;
    }

    /** `save_settings`: stores the stripped key, model and format and the saved language list. */
    method SaveSettings(form: Form)
      modifies settings
      ensures settings.Values() == SavedSettings(form)
    {
      settings.Store(SavedSettings(form));
    }

    /** The loop at the end of `dropEvent`: the callback is called for each dropped file in order. */
    method SubmitBatch(files: seq<string>, deeplApiKey: string, languages: seq<string>, model: string, convertToWebvtt: bool)
      modifies processor
      ensures processor.jobs == old(processor.jobs) + Batch(files, NormalizeKey(deeplApiKey), languages, model, convertToWebvtt)
    {
      ghost var before := processor.jobs;
      for n := 0 to |files|
        invariant processor.jobs == before + Batch(files[..n], NormalizeKey(deeplApiKey), languages, model, convertToWebvtt)
      {
        Callback(processor, files[n], deeplApiKey, languages, model, convertToWebvtt);
        assert Batch(files[..n + 1], NormalizeKey(deeplApiKey), languages, model, convertToWebvtt)
          == Batch(files[..n], NormalizeKey(deeplApiKey), languages, model, convertToWebvtt)
             + [SubtitleJob(files[n], NormalizeKey(deeplApiKey), languages, model, convertToWebvtt)];
      }
      assert files[..|files|] == files;
    }

    /**
     * `dropEvent`: saves the settings, then validates the language field with
     * `parseLanguages`. On a validation error the message is shown and no file of
     * the batch is submitted; otherwise every dropped file is submitted once, in
     * drop order, all with the same key, languages, model and format flag.
     */
    method DropEvent(form: Form, files: seq<string>, parseLanguages: string -> Result<seq<string>, string>)
      returns (errorShown: Option<string>)
      modifies settings, processor
      ensures settings.Values() == SavedSettings(form)
      ensures parseLanguages(form.languagesText).Err? ==>
        errorShown == Some(parseLanguages(form.languagesText).error) && processor.jobs == old(processor.jobs)
      ensures parseLanguages(form.languagesText).Ok? ==>
        errorShown == None
        && processor.jobs == old(processor.jobs) + DroppedJobs(files, SavedSettings(form), parseLanguages(form.languagesText).value)
    {
      SaveSettings(form);
      var saved := SavedSettings(form);
      var deeplApiKey := saved.deeplKey;
      var model := saved.model;
      var parsed := parseLanguages(form.languagesText);
      if parsed.Err? {
        return Some(parsed.error);
      }
      var languages := StripAll(parsed.value);
      var convertToWebvtt := WebvttFlag(saved.subtitleFormat);
      SubmitBatch(files, deeplApiKey, languages, model, convertToWebvtt);
      errorShown := None;
    }
  }
}
