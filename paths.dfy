/** How the recorder names things on disk: the project name taken from the
    script's file name, the per-project output directory, the progress file,
    its temporary and backup siblings, and the audio artifact of a prompt.
    Paths follow POSIX `os.path` rules (separator `/`). */
module Paths {
  import opened Text

  const Sep: char := '/'

  /** Index of the last occurrence of `c` in `s`, if any. */
  function LastIndexOf(s: string, c: char): (r: Option<nat>)
    ensures r.None? <==> c !in s
    ensures r.Some? ==> r.value < |s| && s[r.value] == c && c !in s[r.value + 1..]
  {
    if s == [] then None
    else if s[|s| - 1] == c then Some(|s| - 1)
    else
      assert s == s[..|s| - 1] + [s[|s| - 1]];
      match LastIndexOf(s[..|s| - 1], c)
      case None => None
      case Some(k) =>
        assert s[k + 1..] == s[..|s| - 1][k + 1..] + [s[|s| - 1]];
        Some(k)
  }

  /** `os.path.join(a, b)`: an absolute `b` replaces `a`; otherwise `b` is
      appended after exactly one separator (none when `a` is empty or already
      ends with one). */
  function Join(a: string, b: string): string
  {
    if b != [] && b[0] == Sep then b
    else if a == [] || a[|a| - 1] == Sep then a + b
    else a + [Sep] + b
  }

  /** The joined path ends with `b`; unless `b` is absolute it starts with
      `a`, and a separator stands between the two when `a` lacks one. */
  lemma JoinShape(a: string, b: string)
    ensures var r := Join(a, b);
      |r| >= |b| && r[|r| - |b|..] == b &&
      ((b != [] && b[0] == Sep) || a == [] ==> r == b) &&
      (!(b != [] && b[0] == Sep) ==> |r| >= |a| && r[..|a|] == a) &&
      (!(b != [] && b[0] == Sep) && a != [] && a[|a| - 1] != Sep ==> |r| > |a| && r[|a|] == Sep) &&
      (!(b != [] && b[0] == Sep) ==> |r| == |a| + |b| + (if a != [] && a[|a| - 1] != Sep then 1 else 0))
  {
  }

  /** `os.path.basename(p)`: the part after the last separator. */
  function Basename(p: string): string
  {
    match LastIndexOf(p, Sep)
    case None => p
    case Some(k) => p[k + 1..]
  }

  /** The base name is the longest suffix of the path without a separator:
      it has none, and the character before it, if any, is one. */
  lemma BasenameShape(p: string)
    ensures var r := Basename(p);
      Sep !in r && |r| <= |p| && r == p[|p| - |r|..] &&
      (|r| < |p| ==> p[|p| - |r| - 1] == Sep)
  {
  }

  /** True when some character of `s[..n]` is not a dot. */
  predicate HasNonDotBefore(s: string, n: nat)
    requires n <= |s|
  {
    exists j :: 0 <= j < n && s[j] != '.'
  }

  /** `os.path.splitext(name)` on a name without separators: the extension
      is the last dot and what follows it, unless every character before that
      dot is itself a dot (so `.bashrc` and `..txt` have no extension). */
  function SplitExt(name: string): (string, string)
  {
    match LastIndexOf(name, '.')
    case None => (name, [])
    case Some(d) => if HasNonDotBefore(name, d) then (name[..d], name[d..]) else (name, [])
  }

  /** Root and extension put back together give the name; a non-empty
      extension is one dot and the dot-free rest of the name, with a non-dot
      before it; with no extension, no dot of the name has a non-dot before
      it. */
  lemma SplitExtShape(name: string)
    ensures var r := SplitExt(name);
      r.0 + r.1 == name &&
      (r.1 != [] ==> r.1[0] == '.' && '.' !in r.1[1..] && HasNonDotBefore(name, |r.0|)) &&
      (r.1 == [] ==> forall k :: 0 <= k < |name| && name[k] == '.' ==> !HasNonDotBefore(name, k))
  {
    match LastIndexOf(name, '.')
    case None =>
    case Some(d) =>
      if HasNonDotBefore(name, d) {
        assert name[..d] + name[d..] == name;
      }
  }

  /** The project name: the script's file name without its last extension. */
  function ProjectName(scriptPath: string): string
  {
    SplitExt(Basename(scriptPath)).0
  }

  /** The project name is a prefix of the script's file name and holds no
      separator, so the project directory is one level below the base. */
  lemma ProjectNameShape(scriptPath: string)
    ensures var b, r := Basename(scriptPath), ProjectName(scriptPath);
      Sep !in r && |r| <= |b| && r == b[..|r|]
  {
    var b := Basename(scriptPath);
    BasenameShape(scriptPath);
    SplitExtShape(b);
    assert b == SplitExt(b).0 + SplitExt(b).1;
  }

  /** The output directory `<base>/<project name>`. */
  function ProjectDir(baseDir: string, scriptPath: string): string
  {
    Join(baseDir, ProjectName(scriptPath))
  }

  /** The progress file `<dir>/progress.json`. */
  function ProgressPath(dir: string): string
  {
    Join(dir, "progress.json")
  }

  /** The temporary sibling a save writes first. */
  function TempPath(path: string): string
  {
    path + ".tmp"
  }

  /** The name a corrupt progress file is renamed to, stamped with the time
      in whole seconds. */
  function BackupPath(path: string, now: nat): string
  {
    path + ".backup_" + NatToString(now)
  }

  /** The audio artifact of the prompt with the given id: `<dir>/<id>.wav`. */
  function AudioPath(dir: string, id: string): string
  {
    Join(dir, id + ".wav")
  }

  /** The progress file, its temporary sibling and any backup of it are three
      different paths, so writing one never clobbers another. */
  lemma SiblingsDistinct(path: string, now: nat)
    ensures TempPath(path) != path && BackupPath(path, now) != path
    ensures TempPath(path) != BackupPath(path, now)
  {
    var t, b := TempPath(path), BackupPath(path, now);
    assert t[|path| + 1] == 't' && b[|path| + 1] == 'b';
  }

  /** The progress file of a project never coincides with one of its audio
      artifacts: one name ends in `.json`, the other in `.wav`. */
  lemma ProgressIsNotAudio(dir: string, id: string)
    ensures ProgressPath(dir) != AudioPath(dir, id)
  {
    var p, a := ProgressPath(dir), AudioPath(dir, id);
    var w := id + ".wav";
    JoinShape(dir, w);
    JoinShape(dir, "progress.json");
    assert a[|a| - 1] == w[|w| - 1] == 'v';
    assert p[|p| - 1] == 'n';
  }
}
