/** The batch check of recordings: which prompts still lack an audio
    artifact, and the message that lists them. */
module Report {
  import opened Text
  import opened Script
  import opened Progress

  /** The message shows at most this many missing prompts. */
  const ShownLimit: nat := 10

  /** Indices at or after `i` whose prompt has no artifact, ascending. */
  function MissingFrom(records: seq<Record>, dir: string, wavs: set<string>, i: nat): (r: seq<nat>)
    requires i <= |records|
    ensures forall k :: 0 <= k < |r| ==> i <= r[k] < |records|
    decreases |records| - i
  {
    if i == |records| then []
    else
      var rest := MissingFrom(records, dir, wavs, i + 1);
      if Recorded(records, dir, wavs, i) then rest else [i] + rest
  }

  /** Every index in `r` names a prompt without an artifact. */
  predicate AllUnrecorded(records: seq<Record>, dir: string, wavs: set<string>, r: seq<nat>)
  {
    forall k :: 0 <= k < |r| ==> r[k] < |records| && !Recorded(records, dir, wavs, r[k])
  }

  /** `r` is strictly ascending. */
  predicate Ascending(r: seq<nat>)
  {
    forall k, l :: 0 <= k < l < |r| ==> r[k] < r[l]
  }

  /** Every listed index names a prompt without an artifact. */
  lemma {:induction false} MissingAreUnrecorded(records: seq<Record>, dir: string, wavs: set<string>, i: nat)
    requires i <= |records|
    ensures AllUnrecorded(records, dir, wavs, MissingFrom(records, dir, wavs, i))
    decreases |records| - i
  {
    if i < |records| {
      MissingAreUnrecorded(records, dir, wavs, i + 1);
      var r, rest := MissingFrom(records, dir, wavs, i), MissingFrom(records, dir, wavs, i + 1);
      if !Recorded(records, dir, wavs, i) {
        assert r == [i] + rest;
        forall k | 0 < k < |r| ensures !Recorded(records, dir, wavs, r[k]) {
          assert r[k] == rest[k - 1];
        }
      }
    }
  }

  /** The listed indices are strictly ascending, so each is listed once. */
  lemma {:induction false} MissingAscending(records: seq<Record>, dir: string, wavs: set<string>, i: nat)
    requires i <= |records|
    ensures Ascending(MissingFrom(records, dir, wavs, i))
    decreases |records| - i
  {
    if i < |records| {
      MissingAscending(records, dir, wavs, i + 1);
      var r, rest := MissingFrom(records, dir, wavs, i), MissingFrom(records, dir, wavs, i + 1);
      if !Recorded(records, dir, wavs, i) {
        assert r == [i] + rest;
        forall k, l | 0 <= k < l < |r| ensures r[k] < r[l] {
          assert r[l] == rest[l - 1];
          if k > 0 {
            assert r[k] == rest[k - 1];
          }
        }
      }
    }
  }

  /** Every prompt from `i` on without an artifact is listed. */
  lemma {:induction false} MissingComplete(records: seq<Record>, dir: string, wavs: set<string>, i: nat)
    requires i <= |records|
    ensures var r := MissingFrom(records, dir, wavs, i);
      forall j :: i <= j < |records| && !Recorded(records, dir, wavs, j) ==> j in r
    decreases |records| - i
  {
    if i < |records| {
      MissingComplete(records, dir, wavs, i + 1);
      var r, rest := MissingFrom(records, dir, wavs, i), MissingFrom(records, dir, wavs, i + 1);
      if !Recorded(records, dir, wavs, i) {
        assert r == [i] + rest;
      }
    }
  }

  /** One line of the report: the 1-based position and the prompt id. */
  function Entry(i: nat, id: string): string
  {
    NatToString(i + 1) + ": " + id
  }

  /** The report lines for the prompts at or after `i` without an artifact. */
  function MissingEntriesFrom(records: seq<Record>, dir: string, wavs: set<string>, i: nat): (r: seq<string>)
    requires i <= |records|
    decreases |records| - i
  {
    if i == |records| then []
    else
      var rest := MissingEntriesFrom(records, dir, wavs, i + 1);
      if Recorded(records, dir, wavs, i) then rest else [Entry(i, records[i].id)] + rest
  }

  /** The report lines name exactly the missing prompts, in record order:
      line `k` is the entry of the `k`-th missing index. */
  lemma {:induction false} MissingEntriesMatchIndices(records: seq<Record>, dir: string, wavs: set<string>, i: nat)
    requires i <= |records|
    ensures var e, m := MissingEntriesFrom(records, dir, wavs, i), MissingFrom(records, dir, wavs, i);
      |e| == |m| && forall k :: 0 <= k < |e| ==> e[k] == Entry(m[k], records[m[k]].id)
    decreases |records| - i
  {
    if i < |records| {
      MissingEntriesMatchIndices(records, dir, wavs, i + 1);
      var e, m := MissingEntriesFrom(records, dir, wavs, i), MissingFrom(records, dir, wavs, i);
      var e', m' := MissingEntriesFrom(records, dir, wavs, i + 1), MissingFrom(records, dir, wavs, i + 1);
      if !Recorded(records, dir, wavs, i) {
        assert e == [Entry(i, records[i].id)] + e' && m == [i] + m';
        forall k | 0 <= k < |e| ensures e[k] == Entry(m[k], records[m[k]].id) {
          if k > 0 {
            assert e[k] == e'[k - 1] && m[k] == m'[k - 1];
          }
        }
      }
    }
  }

  /** The batch check and the resume detection agree: when something is
      missing, detection resumes at the first missing prompt the report
      lists; when nothing is, it resumes at the last prompt. */
  lemma DetectedIsFirstMissing(records: seq<Record>, dir: string, wavs: set<string>)
    ensures var m := MissingFrom(records, dir, wavs, 0);
      (m != [] ==> Detected(records, dir, wavs) == m[0]) &&
      (m == [] ==> Detected(records, dir, wavs) == if |records| > 0 then |records| - 1 else 0)
  {
    var m := MissingFrom(records, dir, wavs, 0);
    MissingAreUnrecorded(records, dir, wavs, 0);
    MissingComplete(records, dir, wavs, 0);
    if m != [] {
      MissingAscending(records, dir, wavs, 0);
      assert forall j :: 0 <= j < m[0] ==> Recorded(records, dir, wavs, j);
      DetectedIsFirstGap(records, dir, wavs, m[0]);
    } else {
      assert forall j :: 0 <= j < |records| ==> Recorded(records, dir, wavs, j);
    }
  }

  function Min(a: nat, b: nat): nat
  {
    if a <= b then a else b
  }

  /** What the check reports: nothing missing, or how many are missing, the
      first lines of the list, and how many lines were cut off. */
  datatype BatchReport = AllPresent | SomeMissing(total: nat, shown: seq<string>, more: nat)

  /** The list is cut to its first ten lines; the remainder is only counted. */
  function Summarize(entries: seq<string>): (r: BatchReport)
    ensures r.AllPresent? <==> entries == []
    ensures r.SomeMissing? ==> r.total == |entries| && |r.shown| == Min(|entries|, ShownLimit)
    ensures r.SomeMissing? ==> r.shown == entries[..|r.shown|] && r.total == |r.shown| + r.more
    ensures r.SomeMissing? ==> (r.more > 0 <==> |entries| > ShownLimit)
  {
    if entries == [] then AllPresent
    else SomeMissing(|entries|, entries[..Min(|entries|, ShownLimit)], |entries| - Min(|entries|, ShownLimit))
  }

  /** `"\n".join(lines)`. */
  function JoinLines(lines: seq<string>): string
  {
    if lines == [] then ""
    else if |lines| == 1 then lines[0]
    else lines[0] + "\n" + JoinLines(lines[1..])
  }

  /** The first line of the message when prompts are missing. */
  function Header(total: nat): string
  {
    "发现 " + NatToString(total) + " 个缺失的录音文件："
  }

  /** The last line of the message when lines were cut off. */
  function Footer(more: nat): string
  {
    "... 还有 " + NatToString(more) + " 个"
  }

  /** The message when nothing is missing. */
  const AllPresentText: string := "\U{1F389} 所有录音文件都已存在！"

  /** The text of the message box: a header with the count, the shown lines,
      and a "still N more" line only when lines were cut off. */
  function Message(r: BatchReport): string
  {
    match r
    case AllPresent => AllPresentText
    case SomeMissing(total, shown, more) =>
      Header(total) + "\n\n" + JoinLines(shown) + (if more > 0 then "\n" + Footer(more) else "")
  }

  /** Reading text that starts with a break-free line and a `\n`. */
  lemma LinesCons(a: string, b: string)
    requires BreakFree(a)
    ensures Lines(a + "\n" + b) == [a] + Lines(b)
  {
    var s := a + "\n" + b;
    assert s[|a|] == '\n';
    assert forall k :: 0 <= k < |a| ==> s[k] == a[k];
    assert FirstBreak(s) == Some(|a|);
    assert s[..|a|] == a && s[|a| + 1..] == b;
  }

  /** Splitting `"\n".join(lines)` at its breaks gives the lines back, when
      none of them holds a break. */
  lemma {:induction false} LinesOfJoin(lines: seq<string>)
    requires lines != []
    requires AllBreakFree(lines)
    ensures Lines(JoinLines(lines)) == lines
    decreases |lines|
  {
    if |lines| == 1 {
      assert FirstBreak(lines[0]).None?;
    } else {
      LinesCons(lines[0], JoinLines(lines[1..]));
      LinesOfJoin(lines[1..]);
      assert lines == [lines[0]] + lines[1..];
    }
  }

  lemma {:induction false} JoinLinesAppend(a: seq<string>, b: seq<string>)
    requires a != [] && b != []
    ensures JoinLines(a + b) == JoinLines(a) + "\n" + JoinLines(b)
    decreases |a|
  {
    var ab := a + b;
    assert ab[0] == a[0] && |ab| > 1;
    if |a| == 1 {
      assert ab[1..] == b;
    } else {
      assert ab[1..] == a[1..] + b;
      JoinLinesAppend(a[1..], b);
    }
  }

  /** The lines of the message for a non-empty list of missing entries. */
  function MessageLinesOf(entries: seq<string>): seq<string>
  {
    [Header(|entries|), ""] + entries[..Min(|entries|, ShownLimit)] +
    (if |entries| > ShownLimit then [Footer(|entries| - ShownLimit)] else [])
  }

  /** The message for missing entries is those lines joined by `\n`. */
  lemma MessageIsJoin(entries: seq<string>)
    requires entries != []
    ensures Message(Summarize(entries)) == JoinLines(MessageLinesOf(entries))
  {
    var r := Summarize(entries);
    var head := [Header(r.total), ""];
    var tail: seq<string> := if r.more > 0 then [Footer(r.more)] else [];
    JoinLinesAppend(head, r.shown);
    assert JoinLines(head) == Header(r.total) + "\n" + "";
    if r.more > 0 {
      JoinLinesAppend(head + r.shown, tail);
    } else {
      assert head + r.shown + tail == head + r.shown;
    }
  }

  /** The message box read line by line: with nothing missing, the
      all-present text; otherwise the header, an empty line, the first (up to
      ten) entries one per line, and the "still N more" line exactly when
      more than ten are missing. */
  lemma MessageLines(entries: seq<string>)
    requires AllBreakFree(entries)
    ensures entries == [] ==> Message(Summarize(entries)) == AllPresentText
    ensures entries != [] ==> Lines(Message(Summarize(entries))) == MessageLinesOf(entries)
  {
    if entries != [] {
      MessageIsJoin(entries);
      var all := MessageLinesOf(entries);
      var n := Min(|entries|, ShownLimit);
      BreakFreeHeaderFooter(|entries|, |entries| - n);
      forall i | 0 <= i < |all| ensures BreakFree(all[i]) {
        if 2 <= i < 2 + n { assert all[i] == entries[i - 2]; }
      }
      LinesOfJoin(all);
    }
  }

  lemma BreakFreeHeaderFooter(total: nat, more: nat)
    ensures BreakFree(Header(total)) && BreakFree(Footer(more)) && BreakFree("")
  {
    var h, f := Header(total), Footer(more);
    forall k | 0 <= k < |h| ensures !IsBreak(h[k]) {
      if 3 <= k < 3 + |NatToString(total)| { assert h[k] == NatToString(total)[k - 3]; }
    }
    forall k | 0 <= k < |f| ensures !IsBreak(f[k]) {
      if 7 <= k < 7 + |NatToString(more)| { assert f[k] == NatToString(more)[k - 7]; }
    }
  }

  lemma EntryBreakFree(i: nat, id: string)
    requires BreakFree(id)
    ensures BreakFree(Entry(i, id))
  {
    var d, e := NatToString(i + 1), Entry(i, id);
    forall k | 0 <= k < |e| ensures !IsBreak(e[k]) {
      if k < |d| { assert e[k] == d[k]; }
      else if k >= |d| + 2 { assert e[k] == id[k - |d| - 2]; }
    }
  }

  /** For the prompts of a loaded script, the batch check's message shows
      one missing prompt per line: its lines are the header, an empty line,
      the first (up to ten) entries and, when more are missing, the "still N
      more" line. */
  lemma ScriptMessageLines(text: string, dir: string, wavs: set<string>)
    ensures var entries := MissingEntriesFrom(ParseScript(text), dir, wavs, 0);
      (entries == [] ==> Message(Summarize(entries)) == AllPresentText) &&
      (entries != [] ==> Lines(Message(Summarize(entries))) == MessageLinesOf(entries))
  {
    var records := ParseScript(text);
    ParseScriptWellFormed(text);
    var entries := MissingEntriesFrom(records, dir, wavs, 0);
    var m := MissingFrom(records, dir, wavs, 0);
    MissingEntriesMatchIndices(records, dir, wavs, 0);
    forall k | 0 <= k < |entries| ensures BreakFree(entries[k]) {
      assert WellFormed(records[m[k]]);
      EntryBreakFree(m[k], records[m[k]].id);
    }
    MessageLines(entries);
  }
}
