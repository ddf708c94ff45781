/** The bookkeeping half of the recorder window: the prompt list, the cursor
    and the progress file of the open project, with the operations that load
    a script, recover and persist the cursor, and move it. The disk is a map
    from path to file content plus the set of audio artifacts present; I/O
    failures the source catches are explicit `...Fails` parameters, and the
    clock is a parameter too. */
module Recorder {
  import opened Text
  import opened Paths
  import opened Script
  import opened Progress
  import opened Report

  type FileSystem = map<string, Content>

  function Lookup(files: FileSystem, path: string): (r: Option<Content>)
    ensures r.Some? <==> path in files
    ensures r.Some? ==> r.value == files[path]
  {
    if path in files then Some(files[path]) else None
  }

  /** `os.remove(path)` inside a `try` that ignores its failure. */
  function Removed(files: FileSystem, path: string, fails: bool): FileSystem
  {
    if fails then files else files - {path}
  }

  // ---------------------------------------------------------------------
  // Effects of loading and validating on the progress file

  /** What `load_progress` does to the disk: a zero-byte progress file is
      deleted, one that is not valid JSON is renamed to its timestamped
      backup, any other file is left where it is. Both steps may fail
      silently. */
  function LoadEffect(files: FileSystem, path: Option<string>, now: nat, removeFails: bool, backupFails: bool): (r: FileSystem)
    ensures path.None? || path.value !in files ==> r == files
    ensures path.Some? && path.value in files && files[path.value].Empty? && !removeFails ==>
              r == files - {path.value}
    ensures path.Some? && path.value in files && files[path.value].Unparsable? && !backupFails ==>
              path.value !in r && BackupPath(path.value, now) in r && r[BackupPath(path.value, now)] == Unparsable
    ensures path.Some? && path.value in files &&
            !(files[path.value].Empty? && !removeFails) && !(files[path.value].Unparsable? && !backupFails) ==>
              r == files
    ensures path.Some? ==> r - {path.value, BackupPath(path.value, now)} == files - {path.value, BackupPath(path.value, now)}
  {
    if path.None? || path.value !in files then files
    else
      var p := path.value;
      match files[p]
      case Empty => Removed(files, p, removeFails)
      case Unparsable =>
        SiblingsDistinct(p, now);
        if backupFails then files else (files - {p})[BackupPath(p, now) := Unparsable]
      case _ => files
  }

  /** What `validate_progress_file` does to the disk: the progress file stays
      only if it is a valid progress record; any other file there is deleted
      (best effort). Nothing else changes. */
  function Validated(files: FileSystem, path: string, removeFails: bool): (r: FileSystem)
    ensures path in r && !removeFails ==> ValidProgress(r[path])
    ensures path in files && ValidProgress(files[path]) ==> r == files
    ensures path !in files ==> r == files
    ensures path in files && !ValidProgress(files[path]) && !removeFails ==> path !in r
    ensures removeFails ==> r == files
    ensures r - {path} == files - {path}
  {
    if path in files && !ValidProgress(files[path]) then Removed(files, path, removeFails) else files
  }

  /** A progress file that passed validation is not touched again by the
      load that follows it, and the load uses its (non-negative) index. */
  lemma LoadAfterValidate(files: FileSystem, path: string, now: nat, removeFails: bool, backupFails: bool,
                          records: seq<Record>, dir: string, wavs: set<string>)
    ensures var v := Validated(files, path, false);
      LoadEffect(v, Some(path), now, removeFails, backupFails) == v &&
      (path in v ==> LoadedIndex(Lookup(v, path), records, dir, wavs) ==
                       Clamp(StoredIndex(v[path]).value, |records|) && StoredIndex(v[path]).value >= 0)
  {
    var v := Validated(files, path, false);
  }

  // ---------------------------------------------------------------------
  // Effect of saving

  /** The failures `save_progress` can meet, one per step, and the failure
      of the clean-up in its `except` branch. */
  datatype SaveFaults = SaveFaults(writeFails: bool, removeFails: bool, renameFails: bool, cleanupFails: bool)

  datatype SaveStage = WriteTemp | RemoveOld | Rename

  datatype SaveOutcome = Skipped | Saved | Failed(stage: SaveStage)

  /** Python's truth value of the progress file path: set and not empty. */
  predicate IsSet(path: Option<string>)
  {
    path.Some? && path.value != []
  }

  /** What `save_progress` does to the disk and how it ends: write the
      record to `<path>.tmp`, delete the old progress file, rename the
      temporary file onto it; on a failure, delete the temporary file (best
      effort). A failed write is taken to fail after `open()` created the
      temporary file, which it leaves truncated: a failing `open()` that
      creates nothing is not told apart. */
  function SaveEffect(files: FileSystem, path: Option<string>, data: Content, f: SaveFaults): (r: (FileSystem, SaveOutcome))
    ensures !IsSet(path) ==> r == (files, Skipped)
    ensures IsSet(path) ==> r.1 != Skipped
    ensures IsSet(path) ==> (r.1 == Saved <==>
              !f.writeFails && !(path.value in files && f.removeFails) && !f.renameFails)
    ensures IsSet(path) && f.writeFails ==> r.1 == Failed(WriteTemp)
    ensures IsSet(path) && !f.writeFails && path.value in files && f.removeFails ==> r.1 == Failed(RemoveOld)
    ensures IsSet(path) && !f.writeFails && !(path.value in files && f.removeFails) && f.renameFails ==>
              r.1 == Failed(Rename)
    ensures IsSet(path) && r.1 == Saved ==>
              path.value in r.0 && r.0[path.value] == data && TempPath(path.value) !in r.0
    ensures IsSet(path) && r.1.Failed? && !f.cleanupFails ==> TempPath(path.value) !in r.0
    ensures IsSet(path) && r.1.Failed? && r.1.stage != Rename ==>
              (path.value in r.0 <==> path.value in files) &&
              (path.value in files ==> r.0[path.value] == files[path.value])
    ensures IsSet(path) && r.1 == Failed(Rename) ==> path.value !in r.0
    ensures IsSet(path) ==> r.0 - {path.value, TempPath(path.value)} == files - {path.value, TempPath(path.value)}
  {
    if !IsSet(path) then (files, Skipped)
    else
      var p, t := path.value, TempPath(path.value);
      SiblingsDistinct(p, 0);
      if f.writeFails then (Removed(files[t := Unparsable], t, f.cleanupFails), Failed(WriteTemp))
      else
        var written := files[t := data];
        if p in written && f.removeFails then (Removed(written, t, f.cleanupFails), Failed(RemoveOld))
        else
          var cleared := written - {p};
          if f.renameFails then (Removed(cleared, t, f.cleanupFails), Failed(Rename))
          else ((cleared - {t})[p := data], Saved)
  }

  // ---------------------------------------------------------------------
  // The cursor and what the window shows for it

  /** What `show_current_record` shows: the prompt under the cursor (Python
      indexing, so a negative cursor counts from the end) with its 1-based
      position, whether "previous" is enabled and whether an artifact
      exists; or the completion message once the cursor is past the last
      prompt. */
  datatype View =
    | Showing(position: int, record: Record, prevEnabled: bool, recorded: bool)
    | Complete(total: nat)
    | IndexError

  function ShowCurrent(records: seq<Record>, index: int, dir: string, wavs: set<string>): (v: View)
    ensures v.Complete? <==> index >= |records|
    ensures v.Complete? ==> v.total == |records|
    ensures v.IndexError? <==> index < -|records|
    ensures 0 <= index < |records| ==>
              v == Showing(index + 1, records[index], index > 0, AudioPath(dir, records[index].id) in wavs)
  {
    if index >= |records| then Complete(|records|)
    else if index < -|records| then IndexError
    else
      var r := records[if index >= 0 then index else |records| + index];
      Showing(index + 1, r, index > 0, AudioPath(dir, r.id) in wavs)
  }

  /** The three ways the operator moves the cursor. */
  datatype Command = Next | Prev | Jump(input: string)

  /** The jump dialog: the typed number `k` moves the cursor to `k - 1`
      when `1 <= k <= n`; a non-number or an out-of-range number is refused. */
  function JumpTarget(input: string, n: nat): (r: Option<nat>)
    ensures r.Some? <==> ParseInt(input).Some? && 1 <= ParseInt(input).value <= n
    ensures r.Some? ==> r.value < n && r.value + 1 == ParseInt(input).value
  {
    match ParseInt(input)
    case None => None
    case Some(k) => if 0 <= k - 1 < n then Some(k - 1) else None
  }

  /** Where a command moves the cursor, `None` when it is refused: "next"
      always moves on, "previous" only from above 0. */
  function Step(index: int, n: nat, cmd: Command): (r: Option<int>)
    ensures cmd.Next? ==> r == Some(index + 1)
    ensures cmd.Prev? ==> (r.Some? <==> index > 0) && (r.Some? ==> r.value == index - 1)
    ensures cmd.Jump? ==> (r.Some? <==> JumpTarget(cmd.input, n).Some?)
    ensures cmd.Jump? && r.Some? ==> r.value == JumpTarget(cmd.input, n).value
  {
    match cmd
    case Next => Some(index + 1)
    case Prev => if index > 0 then Some(index - 1) else None
    case Jump(input) =>
      match JumpTarget(input, n)
      case None => None
      case Some(k) => Some(k)
  }

  /** While a prompt is showing, every accepted move lands on a prompt or,
      only by "next" from the last prompt, on completion. */
  lemma StepKeepsCursorInRange(index: int, n: nat, cmd: Command)
    requires 0 <= index < n
    ensures Step(index, n, cmd).Some? ==> 0 <= Step(index, n, cmd).value <= n
    ensures Step(index, n, cmd) == Some(n) ==> cmd.Next? && index == n - 1
  {
  }

  /** Typing the 1-based position of a prompt into the jump dialog moves the
      cursor to that prompt, also with surrounding whitespace, a `+` sign or
      leading zeros, all of which `int()` accepts. */
  lemma JumpToTypedPosition(index: int, n: nat, pre: string, sign: string, zeros: string, k: nat, post: string)
    requires 1 <= k <= n
    requires AllIntSpace(pre) && AllIntSpace(post) && (sign == "" || sign == "+")
    requires forall j :: 0 <= j < |zeros| ==> zeros[j] == '0'
    ensures Step(index, n, Jump(pre + sign + zeros + NatToString(k) + post)) == Some(k - 1)
  {
    var typed := pre + sign + zeros + NatToString(k) + post;
    ParseIntOfPadded(pre, sign, zeros, k, post);
    assert JumpTarget(typed, n) == Some(k - 1);
  }

  /** A negative number typed into the jump dialog is refused. */
  lemma JumpNegativeRefused(index: int, n: nat, pre: string, zeros: string, k: nat, post: string)
    requires AllIntSpace(pre) && AllIntSpace(post)
    requires forall j :: 0 <= j < |zeros| ==> zeros[j] == '0'
    ensures Step(index, n, Jump(pre + "-" + zeros + NatToString(k) + post)).None?
  {
    ParseIntOfPadded(pre, "-", zeros, k, post);
  }

  /** Input holding an information separator (U+001C to U+001F) is refused,
      even around a valid position: `int()` does not skip those characters
      although `strip()` would. */
  lemma JumpSeparatorRefused(index: int, n: nat, input: string, j: nat)
    requires j < |input| && IsInfoSeparator(input[j])
    ensures ParseInt(input).None?
    ensures Step(index, n, Jump(input)).None?
  {
  }

  /** From any prompt, pressing "next" once per remaining prompt reaches the
      completion state. */
  lemma {:induction false} NextReachesCompletion(records: seq<Record>, index: nat, dir: string, wavs: set<string>)
    requires index <= |records|
    ensures ShowCurrent(records, Repeat(index, |records| - index), dir, wavs).Complete?
    ensures forall m :: 0 <= m < |records| - index ==> ShowCurrent(records, Repeat(index, m), dir, wavs).Showing?
    decreases |records| - index
  {
    if index < |records| {
      NextReachesCompletion(records, index + 1, dir, wavs);
      assert Repeat(index, |records| - index) == Repeat(index + 1, |records| - (index + 1));
      forall m | 0 <= m < |records| - index ensures ShowCurrent(records, Repeat(index, m), dir, wavs).Showing? {
        if m > 0 {
          assert Repeat(index, m) == Repeat(index + 1, m - 1);
        }
      }
    }
  }

  /** With an empty script, a progress file holding a non-negative index is
      clamped to -1 (the `>=` branch is taken first), and showing that
      cursor indexes into an empty list. */
  lemma EmptyScriptResumeFails(c: Content, dir: string, wavs: set<string>)
    requires StoredIndex(c).Some? && StoredIndex(c).value >= 0
    ensures LoadedIndex(Some(c), [], dir, wavs) == -1
    ensures ShowCurrent([], LoadedIndex(Some(c), [], dir, wavs), dir, wavs) == IndexError
  {
  }

  /** The cursor after `m` accepted "next" commands from `index`. */
  function Repeat(index: int, m: nat): int
    decreases m
  {
    if m == 0 then index else Repeat(Step(index, 0, Next).value, m - 1)
  }

  // ---------------------------------------------------------------------
  // The recorder

  /** One more line read extends the parsed records by that line's record. */
  lemma LoadedPrefixGrows(lines: seq<string>, i: nat)
    requires i < |lines|
    ensures ParseAll(lines[..i + 1]) == ParseAll(lines[..i]) + Yield(lines[i])
  {
    assert lines[..i + 1] == lines[..i] + [lines[i]];
    ParseAllAppend(lines[..i], [lines[i]]);
    assert ParseAll([lines[i]]) == Yield(lines[i]) + ParseAll([]);
  }

  datatype Refusal = AtFirst | OutOfRange | NotANumber

  /** How a navigation command ended: refused with a message, or moved,
      saved and shown. */
  datatype NavResult = Refused(reason: Refusal) | Moved(save: SaveOutcome, view: View)

  class AudioRecorder {
    var baseDir: string
    var textFile: string
    var projectName: string
    var recordingsDir: string
    var progressFile: Option<string>
    var records: seq<Record>
    var currentIndex: int
    /** The progress files on disk, by path. */
    var files: FileSystem
    /** The audio artifacts on disk, by path. */
    var wavs: set<string>

    /** A recorder with no project open, over the given disk. */
    constructor(baseDir: string, files: FileSystem, wavs: set<string>)
      ensures this.baseDir == baseDir && this.files == files && this.wavs == wavs
      ensures textFile == "" && projectName == "" && recordingsDir == ""
      ensures progressFile.None? && records == [] && currentIndex == 0
    {
      this.baseDir := baseDir;
      this.files := files;
      this.wavs := wavs;
      textFile, projectName, recordingsDir := "", "", "";
      progressFile := None;
      records := [];
      currentIndex := 0;
    }

    /** The content of the progress file, when there is one. */
    function ProgressFileContent(): Option<Content>
      reads this`progressFile, this`files
    {
      if progressFile.None? then None else Lookup(files, progressFile.value)
    }

    /** The record `save_progress` writes for the current state. */
    function CurrentProgress(stamp: string): Content
      reads this`currentIndex, this`projectName, this`textFile, this`records
    {
      ProgressContent(currentIndex, projectName, textFile, |records|, stamp)
    }

    /** `load_records`: parse the script text line by line and append each
        record to those already loaded (they are never cleared). */
    method LoadRecords(text: string)
      modifies this`records
      ensures records == old(records) + ParseScript(text)
    {
      var lines := Lines(text);
      var i := 0;
      while i < |lines|
        invariant 0 <= i <= |lines|
        invariant records == old(records) + ParseAll(lines[..i])
      {
        LoadedPrefixGrows(lines, i);
        LoadLine(lines[i]);
        i := i + 1;
      }
      assert lines[..|lines|] == lines;
      assert ParseScript(text) == ParseAll(lines);
    }

    /** One iteration of the loading loop: a line holding `id text` appends
        that record; any other line is skipped. */
    method LoadLine(line: string)
      modifies this`records
      ensures records == old(records) + Yield(line)
    {
      var parsed := ParseLine(line);
      if parsed.Some? {
        records := records + [parsed.value];
      }
    }

    /** `detect_current_progress`: scan the prompts in order and stop at the
        first one whose artifact is missing. */
    method DetectCurrentProgress() returns (k: int)
      ensures k == Detected(records, recordingsDir, wavs)
    {
      for i := 0 to |records|
        invariant forall j :: 0 <= j < i ==> Recorded(records, recordingsDir, wavs, j)
      {
        if AudioPath(recordingsDir, records[i].id) !in wavs {
          DetectedIsFirstGap(records, recordingsDir, wavs, i);
          return i;
        }
      }
      return if |records| > 0 then |records| - 1 else 0;
    }

    /** `load_progress`: recover the cursor from the progress file, falling
        back to detection whenever the file is missing, empty, blank,
        unreadable, undecodable or holds no usable index. Never fails. */
    method LoadProgress(now: nat, removeFails: bool, backupFails: bool)
      modifies this`currentIndex, this`files
      ensures currentIndex == LoadedIndex(old(ProgressFileContent()), records, recordingsDir, wavs)
      ensures files == LoadEffect(old(files), progressFile, now, removeFails, backupFails)
    {
      if progressFile.None? || progressFile.value !in files {
        currentIndex := DetectCurrentProgress();
        return;
      }
      var p := progressFile.value;
      match files[p] {
        case Empty =>
          if !removeFails {
            files := files - {p};
          }
          currentIndex := DetectCurrentProgress();
        case Unparsable =>
          if !backupFails {
            files := (files - {p})[BackupPath(p, now) := Unparsable];
          }
          currentIndex := DetectCurrentProgress();
        case Json(m) =>
          var stored := if "current_index" in m then m["current_index"] else Int(0);
          var v: int;
          match stored {
            case Int(i) => v := i;
            case Bool(b) => v := if b then 1 else 0;
            case _ =>
              currentIndex := DetectCurrentProgress();
              return;
          }
          if v >= |records| {
            currentIndex := |records| - 1;
          } else if v < 0 {
            currentIndex := 0;
          } else {
            currentIndex := v;
          }
        case _ =>
          currentIndex := DetectCurrentProgress();
      }
    }

    /** `validate_progress_file`: keep the progress file only if it is
        non-empty, decodes to an object holding every required field, and
        its `current_index` is a non-negative int; delete it otherwise. */
    method ValidateProgressFile(removeFails: bool)
      requires progressFile.Some?
      modifies this`files
      ensures files == Validated(old(files), progressFile.value, removeFails)
    {
      var p := progressFile.value;
      if p !in files {
        return;
      }
      var c := files[p];
      if c.Json? {
        var m := c.fields;
        var i := 0;
        while i < |RequiredFields|
          invariant 0 <= i <= |RequiredFields|
          invariant forall k :: 0 <= k < i ==> RequiredFields[k] in m
        {
          if RequiredFields[i] !in m {
            files := Removed(files, p, removeFails);
            return;
          }
          i := i + 1;
        }
        assert RequiredFields[0] in m;
        var bad := match m["current_index"]
          case Int(v) => v < 0
          case Bool(_) => false
          case _ => true;
        if !bad {
          return;
        }
      }
      files := Removed(files, p, removeFails);
    }

    /** `save_progress`: persist the cursor through a temporary file. */
    method SaveProgress(stamp: string, faults: SaveFaults) returns (outcome: SaveOutcome)
      modifies this`files
      ensures (files, outcome) == SaveEffect(old(files), progressFile, CurrentProgress(stamp), faults)
    {
      if !IsSet(progressFile) {
        return Skipped;
      }
      var p := progressFile.value;
      var t := TempPath(p);
      var data := CurrentProgress(stamp);
      SiblingsDistinct(p, 0);
      if faults.writeFails {
        files := files[t := Unparsable];
        outcome := Failed(WriteTemp);
      } else {
        files := files[t := data];
        if p in files && faults.removeFails {
          outcome := Failed(RemoveOld);
        } else {
          if p in files {
            files := files - {p};
          }
          assert files == old(files)[t := data] - {p};
          if faults.renameFails {
            outcome := Failed(Rename);
          } else {
            files := (files - {t})[p := data];
            return Saved;
          }
        }
      }
      // The `except` branch: remove the temporary file if it is there.
      if t in files && !faults.cleanupFails {
        files := files - {t};
      }
    }

    /** `next_record`: move on unconditionally, save, show. */
    method NextRecord(stamp: string, faults: SaveFaults) returns (r: NavResult)
      modifies this`currentIndex, this`files
      ensures currentIndex == Step(old(currentIndex), |records|, Next).value
      ensures r.Moved? && (files, r.save) == SaveEffect(old(files), progressFile, CurrentProgress(stamp), faults)
      ensures r.view == ShowCurrent(records, currentIndex, recordingsDir, wavs)
    {
      currentIndex := currentIndex + 1;
      var saved := SaveProgress(stamp, faults);
      r := Moved(saved, ShowCurrent(records, currentIndex, recordingsDir, wavs));
    }

    /** `prev_record`: move back, save and show, unless already at the
        first prompt. */
    method PrevRecord(stamp: string, faults: SaveFaults) returns (r: NavResult)
      modifies this`currentIndex, this`files
      ensures Step(old(currentIndex), |records|, Prev).None? ==>
                r == Refused(AtFirst) && currentIndex == old(currentIndex) && files == old(files)
      ensures Step(old(currentIndex), |records|, Prev).Some? ==>
                currentIndex == Step(old(currentIndex), |records|, Prev).value && r.Moved? &&
                (files, r.save) == SaveEffect(old(files), progressFile, CurrentProgress(stamp), faults) &&
                r.view == ShowCurrent(records, currentIndex, recordingsDir, wavs)
    {
      if currentIndex > 0 {
        currentIndex := currentIndex - 1;
        var saved := SaveProgress(stamp, faults);
        r := Moved(saved, ShowCurrent(records, currentIndex, recordingsDir, wavs));
      } else {
        r := Refused(AtFirst);
      }
    }

    /** The `jump` handler of the jump dialog: parse the typed number and
        move to it when it names a prompt. */
    method JumpToRecord(input: string, stamp: string, faults: SaveFaults) returns (r: NavResult)
      modifies this`currentIndex, this`files
      ensures ParseInt(input).None? ==>
                r == Refused(NotANumber) && currentIndex == old(currentIndex) && files == old(files)
      ensures ParseInt(input).Some? && !(1 <= ParseInt(input).value <= |records|) ==>
                r == Refused(OutOfRange) && currentIndex == old(currentIndex) && files == old(files)
      ensures ParseInt(input).Some? && 1 <= ParseInt(input).value <= |records| ==>
                currentIndex == ParseInt(input).value - 1 && r.Moved? &&
                (files, r.save) == SaveEffect(old(files), progressFile, CurrentProgress(stamp), faults) &&
                r.view == ShowCurrent(records, currentIndex, recordingsDir, wavs)
    {
      var parsed := ParseInt(input);
      if parsed.None? {
        return Refused(NotANumber);
      }
      var index := parsed.value - 1;
      if 0 <= index < |records| {
        currentIndex := index;
        var saved := SaveProgress(stamp, faults);
        r := Moved(saved, ShowCurrent(records, currentIndex, recordingsDir, wavs));
      } else {
        r := Refused(OutOfRange);
      }
    }

    /** `batch_check_recordings`: list every prompt without an artifact as
        `position: id`, in prompt order, and summarise the list. */
    method BatchCheckRecordings() returns (report: BatchReport, message: string)
      ensures report == Summarize(MissingEntriesFrom(records, recordingsDir, wavs, 0))
      ensures message == Message(report)
    {
      var missing: seq<string> := [];
      for i := 0 to |records|
        invariant missing + MissingEntriesFrom(records, recordingsDir, wavs, i) ==
                  MissingEntriesFrom(records, recordingsDir, wavs, 0)
      {
        if AudioPath(recordingsDir, records[i].id) !in wavs {
          missing := missing + [Entry(i, records[i].id)];
        }
      }
      report := Summarize(missing);
      message := Message(report);
    }

    /** The path derivation of `load_text_file_and_start`: the project is
        named after the script file and lives in its own directory under the
        base directory, with its progress file inside. */
    method SetProject(scriptPath: string)
      modifies this`textFile, this`projectName, this`recordingsDir, this`progressFile
      ensures textFile == scriptPath && projectName == ProjectName(scriptPath)
      ensures recordingsDir == ProjectDir(baseDir, scriptPath)
      ensures progressFile == Some(ProgressPath(recordingsDir))
    {
      textFile := scriptPath;
      projectName := ProjectName(scriptPath);
      recordingsDir := Join(baseDir, projectName);
      progressFile := Some(Join(recordingsDir, "progress.json"));
    }

    /** Open a project without validating its progress file, as
        `load_text_file_and_start` and `load_text_file_and_restart` do:
        derive the project paths, append the script's records, load the
        cursor. */
    method StartProject(scriptPath: string, text: string, now: nat, removeFails: bool, backupFails: bool)
      returns (view: View)
      modifies this`textFile, this`projectName, this`recordingsDir, this`progressFile
      modifies this`records, this`currentIndex, this`files
      ensures textFile == scriptPath && projectName == ProjectName(scriptPath)
      ensures recordingsDir == ProjectDir(baseDir, scriptPath)
      ensures progressFile == Some(ProgressPath(recordingsDir))
      ensures records == old(records) + ParseScript(text)
      ensures currentIndex == LoadedIndex(Lookup(old(files), ProgressPath(recordingsDir)), records, recordingsDir, wavs)
      ensures files == LoadEffect(old(files), progressFile, now, removeFails, backupFails)
      ensures view == ShowCurrent(records, currentIndex, recordingsDir, wavs)
    {
      SetProject(scriptPath);
      LoadRecords(text);
      LoadProgress(now, removeFails, backupFails);
      view := ShowCurrent(records, currentIndex, recordingsDir, wavs);
    }

    /** The tail of `load_text_file`: validate the progress file, then load
        the cursor from what validation left. */
    method ValidateThenLoad(now: nat, validateRemoveFails: bool, removeFails: bool, backupFails: bool)
      requires progressFile.Some?
      modifies this`currentIndex, this`files
      ensures var v := Validated(old(files), progressFile.value, validateRemoveFails);
        currentIndex == LoadedIndex(Lookup(v, progressFile.value), records, recordingsDir, wavs) &&
        files == LoadEffect(v, progressFile, now, removeFails, backupFails)
    {
      ValidateProgressFile(validateRemoveFails);
      LoadProgress(now, removeFails, backupFails);
    }

    /** Open a project as `load_text_file` does: like `StartProject`, with the
        progress file validated before the cursor is loaded. */
    method OpenProject(scriptPath: string, text: string, now: nat,
                       validateRemoveFails: bool, removeFails: bool, backupFails: bool)
      returns (view: View)
      modifies this`textFile, this`projectName, this`recordingsDir, this`progressFile
      modifies this`records, this`currentIndex, this`files
      ensures textFile == scriptPath && projectName == ProjectName(scriptPath)
      ensures recordingsDir == ProjectDir(baseDir, scriptPath)
      ensures progressFile == Some(ProgressPath(recordingsDir))
      ensures records == old(records) + ParseScript(text)
      ensures var v := Validated(old(files), ProgressPath(recordingsDir), validateRemoveFails);
        currentIndex == LoadedIndex(Lookup(v, ProgressPath(recordingsDir)), records, recordingsDir, wavs) &&
        files == LoadEffect(v, progressFile, now, removeFails, backupFails)
      ensures view == ShowCurrent(records, currentIndex, recordingsDir, wavs)
    {
      SetProject(scriptPath);
      LoadRecords(text);
      ValidateThenLoad(now, validateRemoveFails, removeFails, backupFails);
      view := ShowCurrent(records, currentIndex, recordingsDir, wavs);
    }
  }
}
