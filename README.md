# video-subtitles front ends, modelled in Dafny

video-subtitles turns a video file into subtitle files. It transcribes the
speech and translates the text into the requested languages. It has two front
ends: a command line (`cli.py`) and a drag-and-drop window (`gui.py`). Both hand
the real work to `run`. This project models what the two front ends decide
before and after that call:

- which language lists they accept, and the list they build;
- which DeepL key reaches `run`, and when the user is prompted for one;
- which exit code the command line ends with;
- which jobs a drop schedules;
- what a finished job opens and says.

Files:

- `wrappers.dfy`: `Option` and `Result`.
- `strings.dfy`: the Python string operations both front ends use.
  - `str.strip()` removes every character `str.isspace()` accepts.
  - `str.split(",")` keeps empty pieces, so `"".split(",")` is `[""]`.
  - `",".join(...)`.
  - Lemmas tie these together: split gives one piece more than there are
    commas, split and join undo each other, and strip never removes a comma.
- `cli.dfy`: the command line.
  - `parse_languages`, `parse_args` and `ensure_dependencies` are functions.
  - The key file is a class, `KeyFile`, whose text `validate_api_key` reads and
    overwrites.
  - `main` is a method, `CommandLineMain`. It reassigns its local key step by
    step and is proved equal to a specification function, `MainTrace`. The
    lemmas about `main` are stated over `MainTrace`.
- `gui.dfy`: the window.
  - The settings object, the thread processor and the main window are classes.
  - `save_settings` and `dropEvent` are methods on the main window. The drop
    loop is a method with a loop invariant.
  - The rules inside `callback` and `_generate_subtitles` are functions.
  - A job's calls to `run`, `open_folder` and `say` are returned as a sequence
    of effects, in order.

Some things are inputs to the model rather than part of it. For the command
line these are: whether the input file exists, the CUDA card list, whether
`ensure_transcribe_anything_installed()` returns or raises, what the key prompt reads (a typed line, an
interrupt, or the end of standard input), and how `run` ends. For the window they are: the texts its
widgets hold, the dropped file paths, the language validator (a function
parameter), whether a job's directory exists, and `run`'s result. The set of supported language codes is a
parameter too. `AdvertisedLanguageCodes` holds the eight codes the
`--languages` help text lists.

Behaviour modelled as the code has it:

- A command-line key `free` becomes no key at all, so the free-key warning never
  fires for it. The warning fires only when the key file holds `free`, or the
  user types it at the prompt. In that case the literal key `free` is passed to
  `run`.
- A preflight failure (no CUDA card, or `ensure_transcribe_anything_installed()`
  raising) is not caught by `main`: the exception escapes. The interpreter then
  exits with status 1.
- A rejected `--languages` value, or a missing one, makes the argument parser
  exit with status 2.
- Closing standard input at the key prompt raises EOFError, which
  `except KeyboardInterrupt` does not catch: it escapes `main`, and the process
  exits with status 1.
- A job first changes into its file's directory, outside its `try`. For a path
  without `/`, or with a directory that does not exist, that raises; the job's
  thread ends without calling `run`, opening a folder or speaking.
- The "at least one language" check in `parse_args` can never fire. An accepted
  list always has one entry more than the text has commas, so it is never empty.
- `parse_languages` does not trim its pieces. `en, es` is refused, and the error
  names ` es`.

## Model

| member | source | states |
|---|---|---|
| Strings.Strip | src/video_subtitles/cli.py:37 | the stripped text has no whitespace at either end and is no longer than the input |
| Strings.IsSpace | src/video_subtitles/cli.py:37 | the characters `str.isspace()` accepts, which `strip()` removes; its meaning for strip is given by Strings.StripInfix |
| Strings.StripInfix | src/video_subtitles/cli.py:37 | the stripped text is the part of the input from its first non-whitespace character on; everything removed before and after it is whitespace |
| Strings.StripIdempotent | src/video_subtitles/cli.py:37 | stripping a stripped key again changes nothing |
| Strings.StripKeepsCount | src/video_subtitles/gui.py:143 | strip removes no non-whitespace character, so the stripped field has as many commas as the field |
| Strings.Split | src/video_subtitles/cli.py:47 | `str.split(sep)`, used at cli.py:47, gui.py:143 and gui.py:214: never empty; its exact meaning is given by Strings.SplitCount, Strings.SplitPiecesFree, Strings.SplitFirst and Strings.JoinSplit |
| Strings.Join | src/video_subtitles/gui.py:110 | `",".join(...)`; its meaning is given by Strings.JoinSplit and Strings.SplitJoin, which make it the inverse of Split on comma-free entries |
| Strings.SplitCount | src/video_subtitles/cli.py:47 | `split(",")` yields exactly one piece more than the text has commas |
| Strings.SplitPiecesFree | src/video_subtitles/cli.py:47 | no piece of `split(",")` contains a comma |
| Strings.SplitFirst | src/video_subtitles/gui.py:214 | the first piece of a split is the text up to, and not including, the first separator |
| Strings.JoinSplit | src/video_subtitles/cli.py:47 | joining the pieces with commas gives the text back: split drops and reorders nothing |
| Strings.SplitJoin | src/video_subtitles/gui.py:110 | splitting the comma-join of comma-free entries gives back exactly those entries |
| Strings.StripAll | src/video_subtitles/gui.py:144 | the list comprehension yields one stripped entry per entry, in order |
| Strings.JoinStripped | src/video_subtitles/gui.py:110 | joining stripped entries with a comma gives a text with no whitespace at its ends |
| Strings.StripAllOfStripped | src/video_subtitles/gui.py:144 | stripping entries that are already stripped changes nothing |
| Cli.FirstUnsupported | src/video_subtitles/cli.py:48-50 | the index of the first piece, in order, that is not supported; none exactly when every piece is supported |
| Cli.ParseLanguages | src/video_subtitles/cli.py:45-51 | accepted iff every comma-separated piece is supported; the result is the untrimmed pieces in order; a refusal names the first unsupported piece; an accepted list has commas+1 entries and is never empty |
| Cli.ParseLanguagesJoin | src/video_subtitles/cli.py:47-51 | re-joining an accepted list with commas gives the text back |
| Cli.ParseLanguagesAccepts | src/video_subtitles/cli.py:45-51 | any non-empty list of supported, comma-free codes written with commas is accepted as exactly that list |
| Cli.RejectsUnknownCode | src/video_subtitles/cli.py:49-50 | `en,xx` is refused naming `xx`, with the message "Invalid language code: xx" |
| Cli.RejectsUntrimmedCode | src/video_subtitles/cli.py:47-50 | `en, es` is refused naming ` es`: pieces are not trimmed |
| Cli.ParseArgs | src/video_subtitles/cli.py:63-86 | accepted iff `--languages` is given and valid; the arguments are the file, the split list, the model (`large` by default) and the key; a refusal is a usage error and never the empty-list error |
| Cli.EnsureDependencies | src/video_subtitles/cli.py:54-60 | fails with "no CUDA cards" when the card list is empty, else fails when `ensure_transcribe_anything_installed()` raises (whether it does is an input), else returns the card list unchanged |
| Cli.StoredKey | src/video_subtitles/cli.py:35-37 | `read_api_key` fails when the file is missing, else returns the file's text stripped (by StripInfix: everything from its first to its last non-whitespace character) |
| Cli.NeedsPrompt | src/video_subtitles/cli.py:92 | `not api_key`: the key file exists and its stripped text is empty; Cli.ValidatedKey and Cli.MainTrace state when this leads to the prompt |
| Cli.ValidatedKey | src/video_subtitles/cli.py:89-96 | a missing file fails; a non-empty stored key is returned as is; an empty one leads to the prompt, and a typed answer, stripped, is returned; an interrupted prompt raises KeyboardInterrupt and closed input raises EOFError |
| Cli.KeyReusedNextRun | src/video_subtitles/cli.py:89-96 | after a non-empty key is obtained, the next run reads the same key from the file without prompting |
| Cli.KeyFile.ReadApiKey | src/video_subtitles/cli.py:35-37 | returns the stripped text of the key file, or the missing-file error |
| Cli.KeyFile.WriteApiKey | src/video_subtitles/cli.py:40-42 | the key file then holds exactly the given text |
| Cli.ValidateApiKey | src/video_subtitles/cli.py:89-96 | prompts exactly when the stored key is empty; the key file changes only when the user typed an answer, and then holds it; an interrupt or closed input leaves it unchanged and escapes; the returned key is what the file now holds, stripped |
| Cli.CommandLineKeyGiven | src/video_subtitles/cli.py:113 | `if args.api_key`: a command-line key is given and non-empty; Cli.ResolveApiKey states how the key then follows |
| Cli.ResolveApiKey | src/video_subtitles/cli.py:112-118 | command-line `free` gives no key; any other command-line key is used as given; otherwise the validated key is used; no key arises only from a command-line `free`, and the key `free` only from the file or the prompt |
| Cli.Caught | src/video_subtitles/cli.py:129-131 | a keyboard interrupt becomes exit code 1; every other error escapes unchanged |
| Cli.MainTrace | src/video_subtitles/cli.py:99-132 | a missing file exits 1 without probing dependencies or calling `run`; a prompt happens only after a good preflight and with no command-line key; `run` gets the file, the resolved key, the languages and the model; `run` is called iff the arguments are accepted, the file exists, the preflight passes and a key is resolved; the free warning fires iff `run` gets the key `free`; exit 0 iff `run` returned; an interrupt at the prompt or in `run` gives exit 1, an error raised by `run` escapes, and closed input at the prompt escapes without calling `run` |
| Cli.CommandLineMain | src/video_subtitles/cli.py:99-132 | the step-by-step `main` produces exactly MainTrace, and the key file holds the user's answer afterwards iff the user was prompted and typed one |
| Cli.ExitStatus | src/video_subtitles/cli.py:135-136 | the status of `raise SystemExit(main())`; Cli.MainExitStatus states which runs give 0, 1 and 2 |
| Cli.MainExitStatus | src/video_subtitles/cli.py:135-136 | the process status is 0 iff `run` was called and returned, 2 iff the arguments are refused, and 1 otherwise (missing file, failed preflight, interrupt, closed input, failed `run`) |
| Gui.SavedLanguagesShape | src/video_subtitles/gui.py:143-145 | the saved language list has one entry more than the field has commas, and every entry is stripped and comma-free |
| Gui.SavedLanguages | src/video_subtitles/gui.py:143-144 | the language list `save_settings` stores; its shape and round trip are given by Gui.SavedLanguagesShape and Gui.SavedLanguagesRoundTrip |
| Gui.SavedLanguagesRoundTrip | src/video_subtitles/gui.py:110 | the field shows the saved list joined with commas; saving that text again stores the same list |
| Gui.NormalizeKey | src/video_subtitles/gui.py:186-187 | an empty key becomes no key; any other key is kept unchanged |
| Gui.FormatLabel | src/video_subtitles/gui.py:215 | the announced format is `WEBVTT` iff the flag is set, and `SRT` otherwise |
| Gui.WebvttFlag | src/video_subtitles/gui.py:163 | the `convert_to_webvtt` flag; Gui.AnnouncedFormatMatchesSelection states that the announced format follows the selector through it |
| Gui.AnnouncedFormatMatchesSelection | src/video_subtitles/gui.py:163 | the announced format is `WEBVTT` iff the stripped selector text is `WEBVTT`; for either selector entry it is that entry |
| Gui.BasenameIsLastComponent | src/video_subtitles/gui.py:199 | the basename is the `/`-free end of the path, preceded by `/` when it is not the whole path |
| Gui.Basename | src/video_subtitles/gui.py:199 | POSIX `os.path.basename`; its meaning is given by Gui.BasenameIsLastComponent |
| Gui.BasenameOfName | src/video_subtitles/gui.py:214 | a name without `/` is its own basename, so the second `basename` call changes nothing |
| Gui.BasenameOfPath | src/video_subtitles/gui.py:199 | the basename of `dir/name` is `name` |
| Gui.SpaceUnderscores | src/video_subtitles/gui.py:214 | `replace("_", " ")` keeps the length, turns every `_` into a space and keeps every other character |
| Gui.VoiceNameChars | src/video_subtitles/gui.py:214 | the spoken name holds no `/`, `.` or `_` |
| Gui.VoiceName | src/video_subtitles/gui.py:214 | the spoken name of a file; its meaning is given by Gui.VoiceNameOfPath and Gui.VoiceNameChars |
| Gui.VoiceNameOfPath | src/video_subtitles/gui.py:214 | for any path, the spoken name is the basename up to its first `.` (all of it when there is none) with underscores as spaces |
| Gui.VoiceNameOfFile | src/video_subtitles/gui.py:214 | for `dir/stem.ext` with no `.` in the stem, the spoken name is the stem with underscores as spaces |
| Gui.VoiceNameOfBasename | src/video_subtitles/gui.py:199-214 | replacing the file by its basename before naming it does not change the spoken name |
| Gui.GenerateSubtitles | src/video_subtitles/gui.py:190-218 | when changing into the file's directory fails (no `/` in the path, or no such directory) nothing happens; otherwise `run` is called first, on the file's basename with the job otherwise unchanged; on an error only "Error: ..." is spoken; on success the output folder is opened, then the completion is announced |
| Gui.ChdirSucceeds | src/video_subtitles/gui.py:198 | `os.chdir(os.path.dirname(videofile))` returns: the path has a `/` and its directory exists; Gui.GenerateSubtitles states what follows when it does not |
| Gui.Announcement | src/video_subtitles/gui.py:216-218 | the completion sentence; Gui.AnnouncementIsNotError states it is never an error report, Gui.GenerateSubtitles when it is spoken |
| Gui.AnnouncementIsNotError | src/video_subtitles/gui.py:210-218 | the completion announcement is never the same sentence as an error report |
| Gui.OpensFolderOnlyOnSuccess | src/video_subtitles/gui.py:198-212 | a job opens a folder iff it changed into its directory and `run` succeeded |
| Gui.AnnouncesOnlyOnSuccess | src/video_subtitles/gui.py:198-218 | a job announces completion iff it changed into its directory and `run` succeeded |
| Gui.Settings.Store | src/video_subtitles/gui.py:140-147 | after the four setter calls the settings hold exactly the given values |
| Gui.ThreadProcessor.Add | src/video_subtitles/gui.py:225 | a job is appended after the jobs already submitted |
| Gui.Callback | src/video_subtitles/gui.py:176-225 | appends one job, with an empty key turned into no key and everything else as given |
| Gui.Batch | src/video_subtitles/gui.py:164-167 | one job per file, the i-th for the i-th file |
| Gui.DroppedJobs | src/video_subtitles/gui.py:153-167 | the jobs a drop schedules; Gui.DroppedJobsShareSettings and Gui.DroppedJobUsesWidgetTexts state what each holds, Gui.MainWidget.DropEvent that they are appended |
| Gui.DroppedJobsShareSettings | src/video_subtitles/gui.py:164-167 | a drop schedules one job per file, in drop order, and the jobs differ only in their file |
| Gui.DroppedJobUsesWidgetTexts | src/video_subtitles/gui.py:153-163 | each dropped job carries no key when the stripped key field is empty, else the stripped key; the validated languages, each stripped; the stripped model; and the WEBVTT flag of the selector |
| Gui.SavedSettings | src/video_subtitles/gui.py:139-147 | the four values `save_settings` stores: the stripped key, model and format and the saved language list; Gui.MainWidget.SaveSettings states the settings hold them afterwards |
| Gui.MainWidget.SaveSettings | src/video_subtitles/gui.py:137-148 | the settings then hold the stripped key, model and format and the saved language list |
| Gui.MainWidget.SubmitBatch | src/video_subtitles/gui.py:164-167 | the callback loop appends exactly the batch for the files, in order, after the jobs already there |
| Gui.MainWidget.DropEvent | src/video_subtitles/gui.py:150-167 | settings are saved first; on a language error the message is shown and no job is added; otherwise the jobs are the old ones followed by one job per dropped file, in order |

## Left out

- `run`, `say`, `util.parse_languages`, `LANGUAGE_CODES` and `MODELS` are defined in `run.py`, `say.py` and `util.py`, which are not part of this model. `run`'s outcome, the window's language validator and the supported codes are parameters. `say` is recorded as an effect, not performed.
- `open_folder` (gui.py) is recorded as an effect: its platform test and its calls to `os.startfile`, `open` or `xdg-open` are OS calls and are not modelled.
- The `--model` choices check and `--version`: these are argparse behaviour, over `MODELS` keys that are not part of this model. Any model text is accepted.
- Printing: the version banner, the CUDA card listing, the missing-file message and the error printed by a job. The free-key warning is recorded as a flag, not emitted.
- Gui.GenerateSubtitles: models whether `os.chdir` into the video's folder succeeds, but not the working directory it sets. That directory is process-wide, so another job's thread can change it between this job's `chdir` and `run`'s use of the basename; `run` may then look for the file in the wrong folder. Threads and their interleaving are not modelled.
- Qt widget construction, layouts, `dragEnterEvent`, the message box and the settings file on disk. The widget texts at the moment of an event are the `Form` parameter. A shown error is the `errorShown` result.
- Threads: `Thread` creation and `ThreadProcessor`'s scheduling. A submitted job is a record appended to the processor's list. A job's effects are computed separately, by `GenerateSubtitles`.
- A KeyboardInterrupt is modelled only at the key prompt and during `run`; elsewhere in `main` its timing depends on the user, not on the code. EOFError can only come from the key prompt's `input()`, and is modelled there.
- Exceptions other than ValueError from the window's validator, and exceptions from `open_folder` or `say`, are not modelled.
- `Basename` uses `/` as the only separator (POSIX `os.path.basename`). Windows separators are not modelled.
- The card probe, whether `ensure_transcribe_anything_installed()` returns or raises (it is defined in `util.py`, which is not part of this model), and the test that the input file exists are inputs (`Environment`). The key file is `KeyFile.contents`, with None for a missing file. Its other failures are not modelled: a key file that is not valid UTF-8 (`read_utf8`, cli.py:25-26) and a failing `write_api_key` (cli.py:42). Both would raise out of `main`, with status 1.
- The transcription, translation, format conversion and output layout stages belong to `run`, which is not part of this model. Jobs are coordinated by `Thread` and `ThreadProcessor` in the window; see the threads line above.
