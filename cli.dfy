/**
 * The command-line front end: the `--languages` validator, the dependency
 * preflight, the cached API key, and the decisions `main` takes before and
 * after handing the request to `run`. `run`, the CUDA card probe, whether
 * `ensure_transcribe_anything_installed()` returns or raises, the existence
 * test on the input file and what the key prompt reads are inputs here; the key file is an object whose
 * text the front end reads and overwrites.
 */
module Cli {
  import opened Wrappers
  import opened Strings

  /** One CUDA card as the card probe reports it: index, name and memory in GB. */
  datatype GraphicsInfo = GraphicsInfo(idx: int, name: string, memoryGb: real)

  /** The error `parse_languages` raises for a piece that is not a supported code. */
  datatype ArgumentTypeError = InvalidLanguageCode(code: string)
  {
    function Message(): string {
      "Invalid language code: " + code
    }
  }

  /** The language codes the `--languages` help text advertises. */
  const AdvertisedLanguageCodes: set<string> := {"en", "es", "fr", "de", "it", "pt", "ru", "zh"}

  /** The model used when `--model` is not given. */
  const DefaultModel: string := "large"

  /** The index of the first piece, in order, that is not a supported code. */
  function FirstUnsupported(pieces: seq<string>, supported: set<string>): (k: Option<nat>)
    ensures k.Some? ==>
      k.value < |pieces| && pieces[k.value] !in supported
      && forall j :: 0 <= j < k.value ==> pieces[j] in supported
    ensures k.None? <==> forall j :: 0 <= j < |pieces| ==> pieces[j] in supported
  {
    if pieces == [] then None
    else if pieces[0] !in supported then Some(0)
    else match FirstUnsupported(pieces[1..], supported)
      case None => None
      case Some(k) => Some(k + 1)
  }

  /**
   * `parse_languages`: the comma-separated pieces of the text, in order and not
   * trimmed, when every piece is a supported code; otherwise the error naming the
   * first piece that is not. A successful result has one entry more than the
   * text has commas, so it is never empty.
   */
  function ParseLanguages(languagesStr: string, supported: set<string>): (r: Result<seq<string>, ArgumentTypeError>)
    ensures var pieces := Split(languagesStr, ',');
      && (r.Ok? <==> forall i :: 0 <= i < |pieces| ==> pieces[i] in supported)
      && (r.Ok? ==> r.value == pieces)
      && (r.Err? ==>
            exists k :: 0 <= k < |pieces| && r.error == InvalidLanguageCode(pieces[k])
              && pieces[k] !in supported
              && forall j :: 0 <= j < k ==> pieces[j] in supported)
    ensures r.Ok? ==> |r.value| == multiset(languagesStr)[','] + 1 && r.value != []
  {
    var languages := Split(languagesStr, ',');
    SplitCount(languagesStr, ',');
    match FirstUnsupported(languages, supported)
    case Some(k) => Err(InvalidLanguageCode(languages[k]))
    case None => Ok(languages)
  }

  /** Nothing is lost or reordered: re-joining an accepted list with commas gives the text back. */
  lemma ParseLanguagesJoin(languagesStr: string, supported: set<string>)
    requires ParseLanguages(languagesStr, supported).Ok?
    ensures Join(ParseLanguages(languagesStr, supported).value, ',') == languagesStr
  {
    JoinSplit(languagesStr, ',');
  }

  /** Every non-empty list of supported codes, written with commas, is accepted as exactly that list. */
  lemma ParseLanguagesAccepts(codes: seq<string>, supported: set<string>)
    requires |codes| >= 1
    requires forall i :: 0 <= i < |codes| ==> codes[i] in supported && ',' !in codes[i]
    ensures ParseLanguages(Join(codes, ','), supported) == Ok(codes)
  {
    SplitJoin(codes, ',');
  }

  /** `en,xx` is refused, naming `xx`. */
  lemma RejectsUnknownCode()
    ensures ParseLanguages("en,xx", AdvertisedLanguageCodes) == Err(InvalidLanguageCode("xx"))
    ensures ParseLanguages("en,xx", AdvertisedLanguageCodes).error.Message() == "Invalid language code: xx"
  {
    assert "en,xx" == Join(["en", "xx"], ',');
    SplitJoin(["en", "xx"], ',');
    assert "en" in AdvertisedLanguageCodes && "xx" !in AdvertisedLanguageCodes;
  }

  /** Pieces are not trimmed: a blank after the comma makes ` es` an invalid code. */
  lemma RejectsUntrimmedCode()
    ensures ParseLanguages("en, es", AdvertisedLanguageCodes) == Err(InvalidLanguageCode(" es"))
  {
    assert "en, es" == Join(["en", " es"], ',');
    SplitJoin(["en", " es"], ',');
    assert " es" !in AdvertisedLanguageCodes;
  }

  /** The command line as given: `file`, `--languages`, `--model` and `--api-key`. */
  datatype CommandLine = CommandLine(file: string, languages: Option<string>, model: Option<string>, apiKey: Option<string>)

  /** The parsed arguments. */
  datatype Args = Args(file: string, languages: seq<string>, model: string, apiKey: Option<string>)

  /** The ways the front end fails, one per exception it raises or lets through. */
  datatype CliError =
    | MissingLanguages                    // `--languages` is required
    | InvalidLanguages(cause: ArgumentTypeError)
    | NoLanguages                         // "You must provide at least one --languages"
    | NoCudaCards                         // "No Nvidia/CUDA video cards found."
    | InstallerRaised                     // `ensure_transcribe_anything_installed()` raised
    | KeyFileMissing                      // reading `api_key.txt` when it does not exist
    | KeyboardInterrupt
    | EndOfInput                          // `input()` raises EOFError when standard input is closed
    | RunFailed(message: string)
  {
    /** The errors the argument parser reports itself (it exits with status 2). */
    predicate IsUsageError() {
      MissingLanguages? || InvalidLanguages? || NoLanguages?
    }
  }

  /**
   * `parse_args`: `--languages` is required and validated by ParseLanguages; the
   * model defaults to `large`. The "at least one language" check can never fire,
   * since an accepted list is never empty.
   */
  function ParseArgs(cl: CommandLine, supported: set<string>): (r: Result<Args, CliError>)
    ensures r.Ok? <==> cl.languages.Some? && ParseLanguages(cl.languages.value, supported).Ok?
    ensures r.Ok? ==>
      r.value.file == cl.file && r.value.apiKey == cl.apiKey
      && r.value.languages == Split(cl.languages.value, ',') && r.value.languages != []
      && (forall i :: 0 <= i < |r.value.languages| ==> r.value.languages[i] in supported)
      && r.value.model == (if cl.model.Some? then cl.model.value else DefaultModel)
    ensures r.Err? ==> r.error.IsUsageError() && r.error != NoLanguages
    ensures r.Err? && cl.languages.Some? ==>
      r.error == InvalidLanguages(ParseLanguages(cl.languages.value, supported).error)
  {
    match cl.languages
    case None => Err(MissingLanguages)
    case Some(text) =>
      match ParseLanguages(text, supported)
      case Err(e) => Err(InvalidLanguages(e))
      case Ok(languages) =>
        if languages == [] then Err(NoLanguages)
        else Ok(Args(cl.file, languages, if cl.model.Some? then cl.model.value else DefaultModel, cl.apiKey))
  }

  /**
   * `ensure_dependencies`: fails when the card list is empty (before calling
   * `ensure_transcribe_anything_installed()`), fails when that call raises, and
   * otherwise returns the card list unchanged. Whether the call returns is an
   * input, `installerReturns`; what it does to install the tool is not modelled.
   */
  function EnsureDependencies(cudaCards: seq<GraphicsInfo>, installerReturns: bool): (r: Result<seq<GraphicsInfo>, CliError>)
    ensures r.Ok? <==> cudaCards != [] && installerReturns
    ensures r.Ok? ==> r.value == cudaCards
    ensures cudaCards == [] ==> r == Err(NoCudaCards)
    ensures cudaCards != [] && !installerReturns ==> r == Err(InstallerRaised)
  {
    if cudaCards == [] then Err(NoCudaCards)
    else if !installerReturns then Err(InstallerRaised)
    else Ok(cudaCards)
  }

  /** `read_api_key` on a key file with the given text: the stripped text, or an error when there is no file. */
  function StoredKey(contents: Option<string>): (r: Result<string, CliError>)
    ensures r.Err? <==> contents.None?
    ensures r.Err? ==> r.error == KeyFileMissing
    ensures r.Ok? ==> IsStripped(r.value)
    ensures contents.Some? ==> r == Ok(Strip(contents.value))
  {
    match contents
    case None => Err(KeyFileMissing)
    case Some(text) => Ok(Strip(text))
  }

  /**
   * What `input()` gives at the key prompt: the line the user typed, an
   * interrupt (KeyboardInterrupt), or the end of standard input (EOFError).
   */
  datatype Answer = Typed(text: string) | Interrupt | EndOfFile

  /** `validate_api_key` prompts exactly when the key file exists and holds only whitespace. */
  predicate NeedsPrompt(contents: Option<string>) {
    StoredKey(contents) == Ok("")
  }

  /**
   * The key `validate_api_key` returns, given the key file's text before the call
   * and what the prompt reads.
   */
  function ValidatedKey(contents: Option<string>, answer: Answer): (r: Result<string, CliError>)
    ensures r.Ok? ==> IsStripped(r.value)
    ensures contents.None? ==> r == Err(KeyFileMissing)
    ensures contents.Some? && !NeedsPrompt(contents) ==> r == StoredKey(contents) && r.value != ""
    ensures NeedsPrompt(contents) ==> (r.Ok? <==> answer.Typed?)
    ensures NeedsPrompt(contents) && answer.Typed? ==> r == Ok(Strip(answer.text))
    ensures NeedsPrompt(contents) && answer.Interrupt? ==> r == Err(KeyboardInterrupt)
    ensures NeedsPrompt(contents) && answer.EndOfFile? ==> r == Err(EndOfInput)
  {
    match StoredKey(contents)
    case Err(e) => Err(e)
    case Ok(key) =>
      if key != "" then Ok(key)
      else match answer
        case Interrupt => Err(KeyboardInterrupt)
        case EndOfFile => Err(EndOfInput)
        case Typed(text) => StoredKey(Some(text))
  }

  /** The key file's text after `validate_api_key`: a typed answer is written only after a prompt. */
  function KeyFileAfter(contents: Option<string>, answer: Answer): Option<string> {
    if NeedsPrompt(contents) && answer.Typed? then Some(answer.text) else contents
  }

  /** Once a non-empty key has been obtained, the next run reads it back from the file without prompting. */
  lemma KeyReusedNextRun(contents: Option<string>, answer: Answer, later: Answer)
    requires ValidatedKey(contents, answer).Ok? && ValidatedKey(contents, answer).value != ""
    ensures !NeedsPrompt(KeyFileAfter(contents, answer))
    ensures ValidatedKey(KeyFileAfter(contents, answer), later) == ValidatedKey(contents, answer)
  {
  }

  /** The cached API key file, `api_key.txt` next to the front end. */
  class KeyFile {
    /** The file's text, or None when the file does not exist. */
    var contents: Option<string>

    constructor (contents: Option<string>)
      ensures this.contents == contents
    {
      this.contents := contents;
    }

    /** `read_api_key`. */
    method ReadApiKey() returns (r: Result<string, CliError>)
      ensures r == StoredKey(contents)
    {
      match contents
      case None => r := Err(KeyFileMissing);
      case Some(text) => r := Ok(Strip(text));
    }

    /** `write_api_key`: creates or overwrites the file. */
    method WriteApiKey(apiKey: string)
      modifies this
      ensures contents == Some(apiKey)
    {
      contents := Some(apiKey);
    }
  }

  /**
   * `validate_api_key`: reads the stored key; when it is empty, prompts, writes
   * the answer and reads the file again. The key returned is the one the file now
   * holds.
   */
  method ValidateApiKey(keyFile: KeyFile, answer: Answer) returns (r: Result<string, CliError>, prompted: bool)
    modifies keyFile
    ensures prompted == NeedsPrompt(old(keyFile.contents))
    ensures r == ValidatedKey(old(keyFile.contents), answer)
    ensures keyFile.contents == KeyFileAfter(old(keyFile.contents), answer)
    ensures r.Ok? ==> r == StoredKey(keyFile.contents)
  {
    r := keyFile.ReadApiKey();
    prompted := false;
    if r.Ok? && r.value == "" {
      prompted := true;
      match answer {
        case Interrupt => r := Err(KeyboardInterrupt); return;
        case EndOfFile => r := Err(EndOfInput); return;
        case Typed(text) => keyFile.WriteApiKey(text);
      }
      r := keyFile.ReadApiKey();
    }
  }

  /** `--api-key` counts only when it is given and non-empty. */
  predicate CommandLineKeyGiven(apiKey: Option<string>) {
    apiKey.Some? && apiKey.value != ""
  }

  /**
   * The DeepL key `main` passes to `run`. A command-line `free` means no key; any
   * other command-line key is used as given; without one, the validated stored or
   * prompted key is used. No key (None) arises only from a command-line `free`,
   * and the literal key `free` only from the key file or the prompt.
   */
  function ResolveApiKey(cliKey: Option<string>, contents: Option<string>, answer: Answer): (r: Result<Option<string>, CliError>)
    ensures cliKey == Some("free") ==> r == Ok(None)
    ensures CommandLineKeyGiven(cliKey) && cliKey.value != "free" ==> r == Ok(cliKey)
    ensures !CommandLineKeyGiven(cliKey) ==>
      (r.Ok? <==> ValidatedKey(contents, answer).Ok?)
      && (r.Ok? ==> r.value == Some(ValidatedKey(contents, answer).value))
      && (r.Err? ==> r.error == ValidatedKey(contents, answer).error)
    ensures r == Ok(None) <==> cliKey == Some("free")
    ensures r == Ok(Some("free")) ==> !CommandLineKeyGiven(cliKey)
  {
    if CommandLineKeyGiven(cliKey) then
      if cliKey.value == "free" then Ok(None) else Ok(cliKey)
    else
      match ValidatedKey(contents, answer)
      case Ok(key) => Ok(Some(key))
      case Err(e) => Err(e)
  }

  /** What `run` does when called: returns, is interrupted, or raises. */
  datatype RunOutcome = Returned | Interrupted | Failed(message: string)

  /** Everything outside the front end that `main` consults. */
  datatype Environment = Environment(
    fileExists: bool,
    cudaCards: seq<GraphicsInfo>,
    installerReturns: bool,
    answer: Answer,
    runOutcome: RunOutcome)

  /** The arguments `main` passes to `run`. */
  datatype RunCall = RunCall(file: string, deeplApiKey: Option<string>, outLanguages: seq<string>, model: string)

  /** How `main` ends: it returns an exit code, or an exception escapes it. */
  datatype Outcome = Exit(code: int) | Escaped(error: CliError)

  /**
   * One execution of `main`: how it ended, whether it probed the dependencies,
   * whether it prompted for a key, whether it warned about the free key, and the
   * call it made to `run`, if any.
   */
  datatype Trace = Trace(outcome: Outcome, checkedDependencies: bool, prompted: bool, freeWarning: bool, runCall: Option<RunCall>)

  /** `main`'s `except KeyboardInterrupt: return 1`; every other error escapes. */
  function Caught(e: CliError): (o: Outcome)
    ensures o.Exit? <==> e == KeyboardInterrupt
    ensures o.Exit? ==> o.code == 1
    ensures o.Escaped? ==> o.error == e
  {
    if e == KeyboardInterrupt then Exit(1) else Escaped(e)
  }

  /**
   * What `main` does, given the command line, the supported codes, its
   * environment and the key file's text.
   */
  function MainTrace(cl: CommandLine, supported: set<string>, env: Environment, contents: Option<string>): (t: Trace)
    ensures ParseArgs(cl, supported).Err? ==>
      t == Trace(Escaped(ParseArgs(cl, supported).error), false, false, false, None)
    ensures t.checkedDependencies <==> ParseArgs(cl, supported).Ok? && env.fileExists
    ensures ParseArgs(cl, supported).Ok? && !env.fileExists ==>
      t == Trace(Exit(1), false, false, false, None)
    ensures t.outcome.Exit? ==> t.outcome.code == 0 || t.outcome.code == 1
    ensures t.outcome == Exit(0) <==> t.runCall.Some? && env.runOutcome == Returned
    ensures t.outcome != Escaped(KeyboardInterrupt)
    ensures t.runCall.Some? <==>
      ParseArgs(cl, supported).Ok? && env.fileExists
      && EnsureDependencies(env.cudaCards, env.installerReturns).Ok?
      && ResolveApiKey(cl.apiKey, contents, env.answer).Ok?
    ensures t.runCall.Some? && env.runOutcome.Interrupted? ==> t.outcome == Exit(1)
    ensures t.runCall.Some? && env.runOutcome.Failed? ==> t.outcome == Escaped(RunFailed(env.runOutcome.message))
    ensures t.prompted && env.answer.Interrupt? ==> t.outcome == Exit(1) && t.runCall.None?
    ensures t.prompted && env.answer.EndOfFile? ==> t.outcome == Escaped(EndOfInput) && t.runCall.None?
    ensures t.prompted <==>
      t.checkedDependencies && EnsureDependencies(env.cudaCards, env.installerReturns).Ok?
      && !CommandLineKeyGiven(cl.apiKey) && NeedsPrompt(contents)
    ensures t.runCall.Some? ==>
      ParseArgs(cl, supported).Ok? && env.fileExists
      && EnsureDependencies(env.cudaCards, env.installerReturns).Ok?
      && ResolveApiKey(cl.apiKey, contents, env.answer).Ok?
      && var args := ParseArgs(cl, supported).value;
         t.runCall.value == RunCall(args.file, ResolveApiKey(cl.apiKey, contents, env.answer).value, args.languages, args.model)
    ensures t.freeWarning <==> t.runCall.Some? && t.runCall.value.deeplApiKey == Some("free")
    ensures t.freeWarning ==> !CommandLineKeyGiven(cl.apiKey)
    ensures cl.apiKey == Some("free") ==>
      !t.freeWarning && !t.prompted && (t.runCall.Some? ==> t.runCall.value.deeplApiKey == None)
  {
    match ParseArgs(cl, supported)
    case Err(e) => Trace(Escaped(e), false, false, false, None)
    case Ok(args) =>
      if !env.fileExists then Trace(Exit(1), false, false, false, None)
      else match EnsureDependencies(env.cudaCards, env.installerReturns)
        case Err(e) => Trace(Escaped(e), true, false, false, None)
        case Ok(_) =>
          var prompted := !CommandLineKeyGiven(args.apiKey) && NeedsPrompt(contents);
          match ResolveApiKey(args.apiKey, contents, env.answer)
          case Err(e) => Trace(Caught(e), true, prompted, false, None)
          case Ok(apiKey) =>
            var outcome := match env.runOutcome
              case Returned => Exit(0)
              case Interrupted => Caught(KeyboardInterrupt)
              case Failed(message) => Caught(RunFailed(message));
            Trace(outcome, true, prompted, apiKey == Some("free"), Some(RunCall(args.file, apiKey, args.languages, args.model)))
  }

  /**
   * `main`. The local key is reassigned step by step: the command-line key, then
   * None for `free`, or else the validated key; the key file changes only when
   * the user answered the prompt.
   */
  method CommandLineMain(cl: CommandLine, supported: set<string>, env: Environment, keyFile: KeyFile) returns (t: Trace)
    modifies keyFile
    ensures t == MainTrace(cl, supported, env, old(keyFile.contents))
    ensures keyFile.contents == if t.prompted && env.answer.Typed? then Some(env.answer.text) else old(keyFile.contents)
  {
    var parsed := ParseArgs(cl, supported);
    if parsed.Err? {
      return Trace(Escaped(parsed.error), false, false, false, None);
    }
    var args := parsed.value;
    if !env.fileExists {
      return Trace(Exit(1), false, false, false, None);
    }
    var cudaCards := EnsureDependencies(env.cudaCards, env.installerReturns);
    if cudaCards.Err? {
      return Trace(Escaped(cudaCards.error), true, false, false, None);
    }
    var apiKey: Option<string> := None;
    var prompted := false;
    if CommandLineKeyGiven(args.apiKey) {
      apiKey := args.apiKey;
      if apiKey == Some("free") {
        apiKey := None;
      }
    } else {
      var validated;
      validated, prompted := ValidateApiKey(keyFile, env.answer);
      if validated.Err? {
        return Trace(Caught(validated.error), true, prompted, false, None);
      }
      apiKey := Some(validated.value);
    }
    var freeWarning := apiKey == Some("free");
    var call := RunCall(args.file, apiKey, args.languages, args.model);
    var outcome;
    match env.runOutcome {
      case Returned => outcome := Exit(0);
      case Interrupted => outcome := Caught(KeyboardInterrupt);
      case Failed(message) => outcome := Caught(RunFailed(message));
    }
    t := Trace(outcome, true, prompted, freeWarning, Some(call));
  }

  /**
   * The process exit status of `raise SystemExit(main())`: the code `main`
   * returns; 2 for an argument error, which the parser reports by exiting; 1 for
   * any other exception that escapes. It is 0 exactly when `run` returned.
   */
  function ExitStatus(o: Outcome): int {
    match o
    case Exit(code) => code
    case Escaped(e) => if e.IsUsageError() then 2 else 1
  }

  /**
   * The process exits with 0 exactly when `run` was called and returned, with 2
   * exactly when the arguments are refused, and with 1 otherwise: a missing
   * file, a failed preflight, an interrupt, standard input closed at the key
   * prompt, or an error raised by `run`.
   */
  lemma MainExitStatus(cl: CommandLine, supported: set<string>, env: Environment, contents: Option<string>)
    ensures var t := MainTrace(cl, supported, env, contents);
      (ExitStatus(t.outcome) == 0 <==> t.runCall.Some? && env.runOutcome == Returned)
      && (ExitStatus(t.outcome) == 2 <==> ParseArgs(cl, supported).Err?)
      && (ExitStatus(t.outcome) == 1 <==> ParseArgs(cl, supported).Ok? && !(t.runCall.Some? && env.runOutcome == Returned))
  {
  }
}
