/** The resume cursor: what the progress file may hold, how the cursor is
    recovered from the audio artifacts already on disk, how a stored index is
    clamped, and which progress files survive validation. */
module Progress {
  import opened Text
  import opened Paths
  import opened Script

  /** A JSON value as far as the progress logic looks at it. Floats, arrays
      and nested objects are all `Other`. */
  datatype Value = Int(i: int) | Bool(b: bool) | Str(s: string) | Null | Other

  /** What reading a file can meet: zero bytes, only whitespace, bytes that
      do not decode as UTF-8, text that is not JSON, JSON that is not an
      object, or a JSON object. */
  datatype Content =
    | Empty
    | Blank
    | Unreadable
    | Unparsable
    | NonObject
    | Json(fields: map<string, Value>)

  /** The fields `validate_progress_file` insists on. */
  const RequiredFields: seq<string> := ["current_index", "project_name", "text_file", "total_records"]

  /** True when the prompt at index `i` already has its audio artifact. */
  predicate Recorded(records: seq<Record>, dir: string, wavs: set<string>, i: nat)
    requires i < |records|
  {
    AudioPath(dir, records[i].id) in wavs
  }

  /** The first prompt at or after `i` without an artifact, if any. */
  function GapFrom(records: seq<Record>, dir: string, wavs: set<string>, i: nat): (r: Option<nat>)
    requires i <= |records|
    ensures r.None? ==> forall j :: i <= j < |records| ==> Recorded(records, dir, wavs, j)
    ensures r.Some? ==> i <= r.value < |records| && !Recorded(records, dir, wavs, r.value)
    ensures r.Some? ==> forall j :: i <= j < r.value ==> Recorded(records, dir, wavs, j)
    decreases |records| - i
  {
    if i == |records| then None
    else if !Recorded(records, dir, wavs, i) then Some(i)
    else GapFrom(records, dir, wavs, i + 1)
  }

  /** `detect_current_progress`: the index of the first prompt without an
      artifact; when every prompt has one, the last index (0 for an empty
      script). */
  function Detected(records: seq<Record>, dir: string, wavs: set<string>): (k: int)
    ensures 0 <= k && (k < |records| || k == 0)
    ensures forall j :: 0 <= j < k && j < |records| ==> Recorded(records, dir, wavs, j)
    ensures (exists j :: 0 <= j < |records| && !Recorded(records, dir, wavs, j)) ==>
              k < |records| && !Recorded(records, dir, wavs, k)
    ensures (forall j :: 0 <= j < |records| ==> Recorded(records, dir, wavs, j)) ==>
              k == if |records| > 0 then |records| - 1 else 0
  {
    match GapFrom(records, dir, wavs, 0)
    case Some(k) => k
    case None => if |records| > 0 then |records| - 1 else 0
  }

  /** The prompt detection lands on is the first gap, wherever later
      artifacts are: any index whose prompt lacks an artifact while every
      earlier one has one is the detected index. */
  lemma DetectedIsFirstGap(records: seq<Record>, dir: string, wavs: set<string>, g: nat)
    requires g < |records| && !Recorded(records, dir, wavs, g)
    requires forall j :: 0 <= j < g ==> Recorded(records, dir, wavs, j)
    ensures Detected(records, dir, wavs) == g
  {
  }

  function Dist(a: int, b: int): nat
  {
    if a >= b then a - b else b - a
  }

  /** The clamp applied to a stored index: a value at or past `n` becomes
      `n - 1`, otherwise a negative value becomes 0. For `n > 0` the result
      is the index of `[0, n)` nearest to `v`; for `n == 0` the first branch
      yields -1 unless `v` is negative. */
  function Clamp(v: int, n: nat): (r: int)
    ensures n > 0 ==> 0 <= r < n && forall m :: 0 <= m < n ==> Dist(r, v) <= Dist(m, v)
    ensures 0 <= v < n ==> r == v
    ensures n == 0 ==> r == if v >= 0 then -1 else 0
  {
    if v >= n then n - 1 else if v < 0 then 0 else v
  }

  /** `progress_data.get('current_index', 0)` as a number Python can compare:
      a missing key reads as 0 and a boolean as 0 or 1. Any other content
      makes the comparison (or the `.get`) raise. */
  function StoredIndex(c: Content): (r: Option<int>)
    ensures r.Some? ==> c.Json?
    ensures c.Json? && "current_index" !in c.fields ==> r == Some(0)
    ensures c.Json? && "current_index" in c.fields && c.fields["current_index"].Int? ==>
              r == Some(c.fields["current_index"].i)
    ensures c.Json? && "current_index" in c.fields && c.fields["current_index"].Bool? ==>
              r == Some(if c.fields["current_index"].b then 1 else 0)
    ensures c.Json? && "current_index" in c.fields &&
              !c.fields["current_index"].Int? && !c.fields["current_index"].Bool? ==>
              r.None?
  {
    if !c.Json? then None
    else if "current_index" !in c.fields then Some(0)
    else match c.fields["current_index"]
      case Int(i) => Some(i)
      case Bool(b) => Some(if b then 1 else 0)
      case _ => None
  }

  /** The index `load_progress` settles on for a progress file with the
      given content (`None` when there is no file): a usable stored index is
      clamped, every other case falls back to detection. It is always a
      valid prompt index, except -1 or 0 for an empty script. */
  function LoadedIndex(file: Option<Content>, records: seq<Record>, dir: string, wavs: set<string>): (r: int)
    ensures |records| > 0 ==> 0 <= r < |records|
    ensures |records| == 0 ==> r == -1 || r == 0
    ensures file.None? || StoredIndex(file.value).None? ==> r == Detected(records, dir, wavs)
    ensures file.Some? && StoredIndex(file.value).Some? ==> r == Clamp(StoredIndex(file.value).value, |records|)
  {
    if file.None? then Detected(records, dir, wavs)
    else match StoredIndex(file.value)
      case None => Detected(records, dir, wavs)
      case Some(v) => Clamp(v, |records|)
  }

  /** The index check of `validate_progress_file`: an `int` (Python's
      `bool` is one) that is not negative. */
  predicate IndexValueOk(v: Value)
  {
    (v.Int? && v.i >= 0) || v.Bool?
  }

  /** A progress file `validate_progress_file` leaves in place. Such a file
      always supplies a stored index, and a non-negative one, so loading it
      never falls back to detection. */
  predicate ValidProgress(c: Content): (r: bool)
    ensures r ==> StoredIndex(c).Some? && StoredIndex(c).value >= 0
  {
    assert RequiredFields[0] == "current_index";
    c.Json? && (forall k :: 0 <= k < |RequiredFields| ==> RequiredFields[k] in c.fields) &&
    "current_index" in c.fields && IndexValueOk(c.fields["current_index"])
  }

  /** What `save_progress` writes: exactly five keys. */
  function ProgressContent(index: int, projectName: string, textFile: string, total: nat, stamp: string): (c: Content)
    ensures c.Json? && c.fields.Keys ==
      {"current_index", "project_name", "text_file", "total_records", "last_updated"}
  {
    Json(map[
      "current_index" := Int(index),
      "project_name" := Str(projectName),
      "text_file" := Str(textFile),
      "total_records" := Int(total),
      "last_updated" := Str(stamp)])
  }

  /** What a save writes passes validation exactly when its index is not
      negative (an empty script saves -1, which validation then removes). */
  lemma SavedIsValid(index: int, projectName: string, textFile: string, total: nat, stamp: string)
    ensures ValidProgress(ProgressContent(index, projectName, textFile, total, stamp)) <==> index >= 0
  {
    var c := ProgressContent(index, projectName, textFile, total, stamp);
    forall k | 0 <= k < |RequiredFields| ensures RequiredFields[k] in c.fields {
    }
  }

  /** Loading right after a save gives back the saved index whenever that
      index is a prompt index; otherwise it gives the clamp of it. */
  lemma ReloadAfterSave(records: seq<Record>, dir: string, wavs: set<string>,
                        index: int, projectName: string, textFile: string, stamp: string)
    ensures LoadedIndex(Some(ProgressContent(index, projectName, textFile, |records|, stamp)), records, dir, wavs)
            == Clamp(index, |records|)
    ensures 0 <= index < |records| ==>
      LoadedIndex(Some(ProgressContent(index, projectName, textFile, |records|, stamp)), records, dir, wavs) == index
  {
    var c := ProgressContent(index, projectName, textFile, |records|, stamp);
    assert c.fields["current_index"] == Int(index);
  }
}
