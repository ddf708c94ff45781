/** The prompt script: one `<id> <text>` prompt per line. */
module Script {
  import opened Text

  /** One prompt of the script. */
  datatype Record = Record(id: string, text: string)

  /** One line of the script: strip it, skip it when blank, and split it once
      at the first space character (U+0020 only, not any whitespace). A line
      without a space yields nothing. */
  function ParseLine(line: string): Option<Record>
  {
    var t := Strip(line);
    match IndexOf(t, ' ')
    case None => None
    case Some(k) => Some(Record(t[..k], t[k + 1..]))
  }

  /** A line yields a record exactly when its stripped form contains a space;
      the record's id is what precedes the first space and its text what
      follows it, and neither is empty. */
  lemma ParseLineShape(line: string)
    ensures var r, t := ParseLine(line), Strip(line);
      (r.Some? <==> ' ' in t) &&
      (r.Some? ==> r.value.id + [' '] + r.value.text == t) &&
      (r.Some? ==> r.value.id != [] && ' ' !in r.value.id && r.value.text != [])
  {
    var t := Strip(line);
    match IndexOf(t, ' ')
    case None =>
    case Some(k) =>
      assert t[..k] + [' '] + t[k + 1..] == t;
      assert k != 0 by { assert !IsSpace(t[0]); }
      assert k != |t| - 1 by { assert !IsSpace(t[|t| - 1]); }
  }

  /** What one line contributes: its record, or nothing. */
  function Yield(line: string): (r: seq<Record>)
    ensures |r| <= 1
  {
    match ParseLine(line)
    case None => []
    case Some(rec) => [rec]
  }

  /** The records a sequence of lines yields, in line order. */
  function ParseAll(lines: seq<string>): seq<Record>
  {
    if lines == [] then [] else Yield(lines[0]) + ParseAll(lines[1..])
  }

  /** The records of a script file's text: at most one per line. */
  function ParseScript(text: string): (r: seq<Record>)
    ensures |r| <= |Lines(text)|
  {
    ParseAllBound(Lines(text));
    ParseAll(Lines(text))
  }

  lemma {:induction false} ParseAllBound(lines: seq<string>)
    ensures |ParseAll(lines)| <= |lines|
  {
    if lines != [] { ParseAllBound(lines[1..]); }
  }

  /** Parsing distributes over concatenated line sequences, which is what
      lets the loader process a file one line at a time. */
  lemma {:induction false} ParseAllAppend(a: seq<string>, b: seq<string>)
    ensures ParseAll(a + b) == ParseAll(a) + ParseAll(b)
  {
    if a != [] {
      var ab := a + b;
      assert ab != [] && ab[0] == a[0] && ab[1..] == a[1..] + b;
      calc {
        ParseAll(ab);
        Yield(a[0]) + ParseAll(a[1..] + b);
        { ParseAllAppend(a[1..], b); }
        Yield(a[0]) + (ParseAll(a[1..]) + ParseAll(b));
        (Yield(a[0]) + ParseAll(a[1..])) + ParseAll(b);
      }
    } else {
      assert a + b == b;
    }
  }

  /** A record whose id has no whitespace and whose text does not end in
      whitespace is written as the line `id text`. */
  function FormatLine(r: Record): string
  {
    r.id + " " + r.text
  }

  predicate Writable(r: Record)
  {
    r.id != [] && (forall k :: 0 <= k < |r.id| ==> !IsSpace(r.id[k])) &&
    r.text != [] && !IsSpace(r.text[|r.text| - 1])
  }

  /** Writing a record as a line and parsing it back gives the record again. */
  lemma FormatThenParse(r: Record)
    requires Writable(r)
    ensures ParseLine(FormatLine(r)) == Some(r)
  {
    var line := FormatLine(r);
    assert line[0] == r.id[0] && line[|line| - 1] == r.text[|r.text| - 1];
    StripOfTrimmed(line);
    assert line[|r.id|] == ' ';
    assert ' ' !in r.id by {
      forall k | 0 <= k < |r.id| ensures r.id[k] != ' ' { assert !IsSpace(r.id[k]); }
    }
    assert line[..|r.id|] == r.id;
    assert IndexOf(line, ' ') == Some(|r.id|);
    assert line[|r.id| + 1..] == r.text;
  }

  /** A record as the loader produces it: a non-empty id without spaces and
      a non-empty text, neither holding a line break. */
  predicate WellFormed(r: Record)
  {
    r.id != [] && ' ' !in r.id && r.text != [] && BreakFree(r.id) && BreakFree(r.text)
  }

  /** A parsed line's id and text hold no break when the line holds none. */
  lemma ParsedBreakFree(line: string)
    requires ParseLine(line).Some? && BreakFree(line)
    ensures BreakFree(ParseLine(line).value.id) && BreakFree(ParseLine(line).value.text)
  {
    ParseLineShape(line);
    StripIsSlice(line);
    var r, t, a := ParseLine(line).value, Strip(line), LeadingSpaces(line);
    BreakFreeSlice(line, a, a + |t|);
    assert r.id == t[..|r.id|];
    assert r.text == t[|r.id| + 1..];
    BreakFreeSlice(t, 0, |r.id|);
    BreakFreeSlice(t, |r.id| + 1, |t|);
  }

  lemma BreakFreeSlice(s: string, i: nat, j: nat)
    requires i <= j <= |s| && BreakFree(s)
    ensures BreakFree(s[i..j])
  {
    forall k | 0 <= k < j - i ensures !IsBreak(s[i..j][k]) {
      assert s[i..j][k] == s[i + k];
    }
  }

  /** Every record of a sequence is well formed. */
  predicate AllWellFormed(rs: seq<Record>)
  {
    forall k :: 0 <= k < |rs| ==> WellFormed(rs[k])
  }

  /** A line without breaks yields a well-formed record, if any. */
  lemma YieldWellFormed(line: string)
    requires BreakFree(line)
    ensures AllWellFormed(Yield(line))
  {
    if ParseLine(line).Some? {
      ParseLineShape(line);
      ParsedBreakFree(line);
    }
  }

  lemma AllWellFormedAppend(a: seq<Record>, b: seq<Record>)
    requires AllWellFormed(a) && AllWellFormed(b)
    ensures AllWellFormed(a + b)
  {
    forall k | 0 <= k < |a + b| ensures WellFormed((a + b)[k]) {
      if k >= |a| { assert (a + b)[k] == b[k - |a|]; }
    }
  }

  /** Lines without breaks yield only well-formed records. */
  lemma {:induction false} ParseAllWellFormed(lines: seq<string>)
    requires AllBreakFree(lines)
    ensures AllWellFormed(ParseAll(lines))
  {
    if lines != [] {
      YieldWellFormed(lines[0]);
      ParseAllWellFormed(lines[1..]);
      AllWellFormedAppend(Yield(lines[0]), ParseAll(lines[1..]));
    }
  }

  /** Every record loaded from a script has a non-empty, space-free id and a
      non-empty text, and neither spans a line break. */
  lemma ParseScriptWellFormed(text: string)
    ensures AllWellFormed(ParseScript(text))
  {
    var breaks := LinesRebuild(text);
    ParseAllWellFormed(Lines(text));
  }
}
