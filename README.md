# Audio recorder bookkeeping, modelled in Dafny

This project models the bookkeeping core of the `AudioRecorder` class in
`audio_recorder_v2.py`. That core turns a prompt script and a per-project
output directory into a cursor that can be resumed:

- the script parser (`load_records`), which appends one `{id, text}`
  record per usable line;
- the project path derivation of `load_text_file_and_start`: the project
  name is the script's base name without its extension, the output
  directory is `<base>/<name>`, and the progress file is
  `<dir>/progress.json`;
- the resume cursor:
  - `detect_current_progress` finds the first prompt without a
    `<dir>/<id>.wav` artifact;
  - `load_progress` clamps a stored index, or falls back to detection
    when the file is missing, empty, blank, undecodable or corrupt, and
    backs up a corrupt file;
  - `validate_progress_file` deletes a progress file that does not pass
    its checks;
- `save_progress`: it writes a temporary file, removes the old file, then
  renames the temporary file onto it;
- the navigation commands `next_record`, `prev_record` and the `jump`
  handler of the jump dialog, each followed by a save and by
  `show_current_record` (prompt shown, or completion);
- `batch_check_recordings` and the message it builds.

## Modelling choices

- **The disk** is two fields of the `AudioRecorder` class:
  - `files: map<string, Content>` holds progress files and their siblings.
  - `wavs: set<string>` holds the audio artifacts present.
- **`Content`** records what reading a file can meet: zero bytes, only
  whitespace, undecodable bytes, text that is not JSON, JSON that is not an
  object, or a JSON object. JSON values are kept only as far as the logic
  looks at them. A Python `bool` counts as an `int`, as it does in Python.
- **I/O failures** that the source catches are explicit boolean
  parameters: `removeFails`, `backupFails`, and the `SaveFaults` record of
  `save_progress`.
- **The clock** is a parameter: `now` in whole seconds for the backup
  name, `stamp` for `last_updated`.
- **The script's text** is a parameter; reading the file is not modelled.
- **Imperative code stays imperative.**
  - Each method of `AudioRecorder` updates exactly the fields its
    `modifies` clause names.
  - Each method's `ensures` ties the new state to a function of the old
    one: `ParseScript`, `Detected`, `LoadedIndex`, `LoadEffect`,
    `Validated`, `SaveEffect`, `Step`, `ShowCurrent`, `Summarize`.
  - Lemmas prove what the source promises about those functions.
- **Paths follow POSIX `os.path` rules**, with `/` as the separator.
  - `join` discards the left part when the right part is absolute.
  - `splitext` ignores leading dots, so `.bashrc` has no extension.
- **Line splitting** follows text-mode reading with universal newlines.
- **`strip()`** removes exactly the characters for which Python's
  `str.isspace()` is true.

### An edge case the clamp keeps

With an empty script, a stored index of 0 or more is clamped to -1, because
the `>=` branch is taken before the `< 0` branch. `ShowCurrent` then reports
`IndexError` for that cursor, as `self.records[-1]` would raise on an empty
list. The model keeps this behaviour of the code, and
`Recorder.EmptyScriptResumeFails` states it.

## Model

| member | source | states |
|---|---|---|
| Text.Strip | audio_recorder_v2.py:709 | `line.strip()`: the result is no longer than the line and neither starts nor ends with whitespace |
| Text.StripIsSlice | audio_recorder_v2.py:709 | what `strip()` keeps is one contiguous slice of the line, and every character it drops is whitespace |
| Text.NatToString | audio_recorder_v2.py:1099 | decimal rendering of a natural number: only digits, with no leading zero except for 0 itself |
| Text.DigitsValueOfNatToString | audio_recorder_v2.py:1099 | reading the decimal rendering of `n` back gives `n` |
| Text.ParseIntOfPadded | audio_recorder_v2.py:1074 | `int()` reads whitespace it skips (any `isspace()` character except the information separators U+001C to U+001F), an optional `+` or `-`, any run of leading zeros, the decimal digits of `n` and such whitespace again as `n` with the sign applied |
| Text.ParseIntParts | audio_recorder_v2.py:1074 | conversely, whatever `int()` accepts is whitespace other than the information separators, an optional sign, a non-empty run of digits and such whitespace again, and its value is the digits' value with the sign applied |
| Text.LinesRebuild | audio_recorder_v2.py:708 | iterating the file yields lines without breaks that, joined by the breaks that ended them, give back the text |
| Text.ParseIntOfNatToString | audio_recorder_v2.py:1074 | `int()` of the rendering of `n` is `n`, so typing a position into the jump dialog is read back exactly |
| Paths.JoinShape | audio_recorder_v2.py:365-366 | `os.path.join(a, b)` ends with `b`; unless `b` is absolute it is exactly `a`, one separator when `a` does not end in one, then `b` |
| Paths.BasenameShape | audio_recorder_v2.py:362 | `os.path.basename` is the longest separator-free suffix of the path |
| Paths.SplitExtShape | audio_recorder_v2.py:362 | `os.path.splitext`: root + extension == name; the extension is the last dot and a dot-free rest, and only when a non-dot precedes that dot |
| Paths.ProjectNameShape | audio_recorder_v2.py:362 | the project name is a prefix of the script's file name and holds no separator |
| Paths.SiblingsDistinct | audio_recorder_v2.py:635 | the `.tmp` file, the `.backup_<t>` file and the progress file are three different paths |
| Paths.ProgressIsNotAudio | audio_recorder_v2.py:365-366 | the progress file never coincides with the audio artifact of a prompt |
| Script.ParseLineShape | audio_recorder_v2.py:709-714 | a line yields a record iff its stripped form contains a space; `id + " " + text` is that stripped line, the id is non-empty and space-free, and the text is non-empty |
| Script.ParseAllAppend | audio_recorder_v2.py:709-714 | parsing concatenated line sequences concatenates their records, so records come in line order |
| Script.ParseAllBound | audio_recorder_v2.py:709-714 | the lines yield at most one record each |
| Script.ParseScript | audio_recorder_v2.py:707-714 | a script yields at most one record per line of the file |
| Script.ParseScriptWellFormed | audio_recorder_v2.py:708-714 | every loaded record has a non-empty, space-free id and a non-empty text, and neither spans a line break |
| Script.FormatThenParse | audio_recorder_v2.py:711-713 | a record with a whitespace-free id and a text that does not end in whitespace, written as `id text`, parses back to itself |
| Progress.GapFrom | audio_recorder_v2.py:609-613 | the first index at or after `i` without an artifact, every earlier one having one; `None` only when all have one |
| Progress.Detected | audio_recorder_v2.py:608-617 | detection returns the first prompt without an artifact, every earlier prompt having one; if all have one, `len - 1`, or 0 for an empty script |
| Progress.DetectedIsFirstGap | audio_recorder_v2.py:609-613 | any prompt that lacks an artifact while every earlier one has one is the detected index |
| Progress.Clamp | audio_recorder_v2.py:529-532 | for a non-empty script the clamp is the index of `[0, n)` nearest the stored value; an in-range value is unchanged; an empty script gives -1 (or 0 for a negative value) |
| Progress.StoredIndex | audio_recorder_v2.py:526-532 | `get('current_index', 0)`: a missing key reads as 0, an int as itself, a bool as 0 or 1; any other value makes the comparison raise, and there is no stored index |
| Progress.LoadedIndex | audio_recorder_v2.py:504-582 | the loaded cursor is the clamped stored index when there is one, and the detected index otherwise; it is always a prompt index, or -1/0 for an empty script |
| Progress.ProgressContent | audio_recorder_v2.py:626-632 | a save writes exactly the five keys `current_index`, `project_name`, `text_file`, `total_records`, `last_updated` |
| Progress.ValidProgress | audio_recorder_v2.py:754-765 | a file that passes validation always provides a stored index, and a non-negative one, so loading it never falls back to detection |
| Progress.SavedIsValid | audio_recorder_v2.py:754-763 | what a save writes passes validation iff the saved index is not negative |
| Progress.ReloadAfterSave | audio_recorder_v2.py:526-532 | loading right after a save gives the clamp of the saved index, which is the index itself when it names a prompt |
| Report.MissingFrom | audio_recorder_v2.py:1096-1099 | the indices the batch check collects all lie in range, at or after the start |
| Report.MissingAreUnrecorded | audio_recorder_v2.py:1096-1099 | every collected index names a prompt without an artifact |
| Report.MissingAscending | audio_recorder_v2.py:1096-1099 | the collected indices are strictly ascending, so each prompt is listed once and in record order |
| Report.MissingComplete | audio_recorder_v2.py:1096-1099 | every prompt without an artifact is collected |
| Report.MissingEntriesMatchIndices | audio_recorder_v2.py:1096-1099 | report line `k` is `"<i+1>: <id>"` for the `k`-th missing index `i` |
| Report.DetectedIsFirstMissing | audio_recorder_v2.py:608-617 | detection resumes at the first prompt the batch check lists, or at the last prompt when none is listed |
| Report.Summarize | audio_recorder_v2.py:1101-1105 | nothing missing gives the all-present message; otherwise the total, the first `min(total, 10)` lines, and a remainder that is positive iff more than 10 are missing |
| Report.LinesOfJoin | audio_recorder_v2.py:1103 | splitting `"\n".join(lines)` at its breaks gives the lines back when none holds a break |
| Report.MessageIsJoin | audio_recorder_v2.py:1101-1105 | the message for missing entries is its header, an empty line, the shown entries and the optional remainder line, joined by `\n` |
| Report.MessageLines | audio_recorder_v2.py:1101-1107 | nothing missing gives the all-present text; otherwise the message's lines are the header with the count, an empty line, the first ten entries or fewer, and a "still N more" line exactly when more than ten are missing |
| Report.ScriptMessageLines | audio_recorder_v2.py:1093-1107 | for the prompts of a loaded script, the message shows one missing prompt per line in that layout |
| Recorder.LoadEffect | audio_recorder_v2.py:506-560 | loading deletes a zero-byte progress file and changes nothing else; it renames one that is not valid JSON to `<path>.backup_<now>`; every other file, and every failed step, leaves the disk as it was |
| Recorder.Validated | audio_recorder_v2.py:730-780 | a valid progress file is kept; an invalid one is removed; a failed removal leaves the disk as it was; nothing else changes |
| Recorder.LoadAfterValidate | audio_recorder_v2.py:490-496 | after a successful validation, loading touches no file and uses the stored, non-negative index |
| Recorder.SaveEffect | audio_recorder_v2.py:619-654 | no path: nothing changes; the first failing step (write, removal of an existing old file, rename) is the failure reported; saved iff the write, the removal of an existing old file and the rename all succeed; on success the target holds the data and no `.tmp` remains; on failure the `.tmp` is cleaned up unless that fails; a failed write or removal leaves the old file as it was; a failed rename leaves the old file deleted; no other file changes |
| Recorder.ShowCurrent | audio_recorder_v2.py:1140-1196 | a cursor at or past the end shows completion with the total; an in-range cursor shows its prompt, its 1-based position, "previous" enabled iff above 0, and whether an artifact exists |
| Recorder.JumpTarget | audio_recorder_v2.py:1072-1083 | the typed number `k` is accepted iff it parses and `1 <= k <= len`, and then targets `k - 1` |
| Recorder.Step | audio_recorder_v2.py:1352-1365 | "next" always adds 1; "previous" subtracts 1 iff the cursor is above 0; "jump" moves iff the target is accepted |
| Recorder.StepKeepsCursorInRange | audio_recorder_v2.py:1352-1365 | from a shown prompt every accepted move lands on a prompt, or on completion only by "next" from the last prompt |
| Recorder.JumpToTypedPosition | audio_recorder_v2.py:1072-1076 | typing the 1-based position of any prompt, also padded with whitespace that `int()` skips, a `+` sign or leading zeros, jumps to that prompt |
| Recorder.JumpNegativeRefused | audio_recorder_v2.py:1074-1075 | a typed negative number (or `-0`) is refused |
| Recorder.JumpSeparatorRefused | audio_recorder_v2.py:1074-1083 | input holding an information separator (U+001C to U+001F) anywhere is refused as not a number, even around a valid position |
| Recorder.EmptyScriptResumeFails | audio_recorder_v2.py:529-532 | with an empty script a stored index of 0 or more is clamped to -1, and showing that cursor is an `IndexError` |
| Recorder.NextReachesCompletion | audio_recorder_v2.py:1352-1356 | from any prompt, "next" pressed once per remaining prompt shows prompts until it reaches completion |
| Recorder.LoadedPrefixGrows | audio_recorder_v2.py:709-714 | reading one more line extends the loaded records by that line's record |
| Recorder.AudioRecorder.LoadRecords | audio_recorder_v2.py:704-728 | the records become the old records followed by the script's records; nothing is cleared |
| Recorder.AudioRecorder.LoadLine | audio_recorder_v2.py:710-714 | one line appends its record, or nothing |
| Recorder.AudioRecorder.DetectCurrentProgress | audio_recorder_v2.py:608-617 | the scan returns the detected index |
| Recorder.AudioRecorder.LoadProgress | audio_recorder_v2.py:504-582 | the cursor becomes the loaded index for the old content of the progress file, and the disk becomes the load effect |
| Recorder.AudioRecorder.ValidateProgressFile | audio_recorder_v2.py:730-780 | the disk becomes the validated disk |
| Recorder.AudioRecorder.SaveProgress | audio_recorder_v2.py:619-654 | the disk and the outcome are the save effect of the current progress record |
| Recorder.AudioRecorder.NextRecord | audio_recorder_v2.py:1352-1356 | the cursor moves on by one, then the save and the view of the new cursor follow |
| Recorder.AudioRecorder.PrevRecord | audio_recorder_v2.py:1358-1365 | at the first prompt: refused, nothing changes; otherwise the cursor moves back, then it is saved and shown |
| Recorder.AudioRecorder.JumpToRecord | audio_recorder_v2.py:1072-1083 | a non-number or an out-of-range number is refused and changes nothing; otherwise the cursor becomes `k - 1`, then it is saved and shown |
| Recorder.AudioRecorder.BatchCheckRecordings | audio_recorder_v2.py:1093-1109 | the report summarises the missing entries in record order, and the message is built from it |
| Recorder.AudioRecorder.SetProject | audio_recorder_v2.py:361-366 | the text file, project name, project directory and progress path are derived from the script path |
| Recorder.AudioRecorder.StartProject | audio_recorder_v2.py:358-385 | opening derives the paths, appends the script's records, loads the cursor from the progress file as it was before, and shows the record under the cursor |
| Recorder.AudioRecorder.ValidateThenLoad | audio_recorder_v2.py:493-496 | the cursor is loaded from the validated disk, and the disk is the load effect on the validated disk |
| Recorder.AudioRecorder.OpenProject | audio_recorder_v2.py:477-502 | like `StartProject`, with the progress file validated before the cursor is loaded |

## Left out

- The tkinter UI is not modelled: widgets, menus, key bindings, dialogs, the welcome screen, and the widget updates of `show_current_record` beyond the flags kept in `View`. It is event plumbing with no bookkeeping.
- Audio capture, playback and writing of `.wav` files are not modelled. They are foreign library calls and threads; an artifact either is in `wavs` or is not.
- Launching the file manager or a player, `config.json`, `switch_language`, the language tables and the two launcher scripts are not modelled. They are OS and configuration I/O.
- `create_recordings_directory` is not modelled: creating the directory, the fallback to `"."` when creation fails, and the earlier, shadowed definition. The fallback would change the directory in which artifacts are looked up.
- `migrate_old_recordings`, which `create_recordings_directory` calls for a new `record` project, is not modelled. It moves `./recordings/0000*.wav` into the project directory, so it can add artifacts that detection and the batch check then see; the model takes `wavs` as it is after any migration.
- The `is_recording` guard at the top of `jump_to_record` is not modelled. It depends on the recording thread.
- Reading the script file, and the message box and quit on failure, are not modelled. The file's text is a parameter.
- Console output and the `lang` format strings are not modelled.
- JSON text parsing is not modelled. A progress file's content is already the outcome of parsing.
- Progress.StoredIndex: a floating-point `current_index` is lumped with other non-integer values, so the model falls back to detection where Python would compare and clamp the float.
- Text.ParseIntParts: `int()` also accepts underscores between digits and non-ASCII decimal digits; the model rejects both.
- Text.ParseIntOfPadded: Python 3.11 and later refuse a decimal string of more than 4300 digits (`sys.int_info.default_max_str_digits`) with `ValueError`. The model reads a number of any length, so for such input the jump dialog's model reports it out of range where the program says it is not a number; the cursor stays put in both.
- `load_progress`'s last fallback, "detection failed, start at 0", is not modelled. In the model detection cannot fail, because checking whether a file exists never raises.
- Paths: Windows path rules (drive letters, `\` separators) are not modelled; only POSIX `os.path` is.
- Text.NatToString is used for `int(time.time())` in the backup name. Formatting `last_updated` is not modelled; it is a parameter.
- Recorder.SaveEffect: a failed write is taken to fail after `open()` created the temporary file, which it leaves truncated. When `open()` itself fails, no such file exists, so with a failing clean-up the model keeps a `.tmp` that the program never wrote.
- Recorder.AudioRecorder.ValidateProgressFile requires a progress path: `os.path.exists(None)` raises outside the `try`, and every caller sets the path first.
