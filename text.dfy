/** Character-level helpers that mirror the Python string operations the
    recorder relies on: `str.strip()`, the line iteration of a text file,
    decimal formatting of a natural number and the `int(...)` conversion of
    the jump dialog. */
module Text {

  datatype Option<T> = None | Some(value: T)

  /** Python's `str.isspace()` for one character: the characters that
      `str.strip()` with no argument removes. */
  predicate IsSpace(c: char) {
    ('\t' <= c <= '\r') || ('\U{1C}' <= c <= '\U{1F}') || c == ' ' ||
    c == '\U{85}' || c == '\U{A0}' || c == '\U{1680}' ||
    ('\U{2000}' <= c <= '\U{200A}') || c == '\U{2028}' || c == '\U{2029}' ||
    c == '\U{202F}' || c == '\U{205F}' || c == '\U{3000}'
  }

  /** A line break as a text-mode file read sees it: with universal newlines
      both `\n` and a lone `\r` end a line (and `\r\n` is one break). */
  predicate IsBreak(c: char) {
    c == '\n' || c == '\r'
  }

  predicate IsDigit(c: char) {
    '0' <= c <= '9'
  }

  predicate AllSpace(s: string) {
    forall k :: 0 <= k < |s| ==> IsSpace(s[k])
  }

  /** The ASCII information separators FS, GS, RS and US: `isspace()` holds
      for them, but `int()` treats them as neither whitespace nor digits. */
  predicate IsInfoSeparator(c: char) {
    '\U{1C}' <= c <= '\U{1F}'
  }

  /** The whitespace `int()` skips around a number. */
  predicate IsIntSpace(c: char) {
    IsSpace(c) && !IsInfoSeparator(c)
  }

  predicate AllIntSpace(s: string) {
    forall k :: 0 <= k < |s| ==> IsIntSpace(s[k])
  }

  predicate NoInfoSeparator(s: string) {
    forall k :: 0 <= k < |s| ==> !IsInfoSeparator(s[k])
  }

  predicate AllDigits(s: string) {
    forall k :: 0 <= k < |s| ==> IsDigit(s[k])
  }

  predicate BreakFree(s: string) {
    forall k :: 0 <= k < |s| ==> !IsBreak(s[k])
  }

  predicate AllBreaks(s: string) {
    forall k :: 0 <= k < |s| ==> IsBreak(s[k])
  }

  /** No line of `lines` holds a break. */
  predicate AllBreakFree(lines: seq<string>) {
    forall i :: 0 <= i < |lines| ==> BreakFree(lines[i])
  }

  /** The index of the first non-whitespace character of `s` at or after
      `i`, or `|s|` when there is none. */
  function SkipSpaces(s: string, i: nat): (n: nat)
    requires i <= |s|
    ensures i <= n <= |s|
    ensures forall k :: i <= k < n ==> IsSpace(s[k])
    ensures n < |s| ==> !IsSpace(s[n])
    decreases |s| - i
  {
    if i < |s| && IsSpace(s[i]) then SkipSpaces(s, i + 1) else i
  }

  /** The end of `s[lo..j]` once its trailing whitespace is dropped. */
  function SkipSpacesBack(s: string, lo: nat, j: nat): (n: nat)
    requires lo <= j <= |s|
    ensures lo <= n <= j
    ensures forall k :: n <= k < j ==> IsSpace(s[k])
    ensures n > lo ==> !IsSpace(s[n - 1])
    decreases j
  {
    if j > lo && IsSpace(s[j - 1]) then SkipSpacesBack(s, lo, j - 1) else j
  }

  /** How many whitespace characters `s` starts with. */
  function LeadingSpaces(s: string): (n: nat)
    ensures n <= |s|
  {
    SkipSpaces(s, 0)
  }

  /** Python's `s.strip()`: leading and trailing whitespace removed. */
  function Strip(s: string): (r: string)
    ensures |r| <= |s|
    ensures r != [] ==> !IsSpace(r[0]) && !IsSpace(r[|r| - 1])
  {
    var a := SkipSpaces(s, 0);
    s[a..SkipSpacesBack(s, a, |s|)]
  }

  /** What `strip` keeps is the slice `s[i..i + |r|]` for `i` the number of
      leading whitespace characters, and everything it drops is whitespace. */
  lemma StripIsSlice(s: string)
    ensures LeadingSpaces(s) + |Strip(s)| <= |s|
    ensures Strip(s) == s[LeadingSpaces(s)..LeadingSpaces(s) + |Strip(s)|]
    ensures forall k :: 0 <= k < LeadingSpaces(s) ==> IsSpace(s[k])
    ensures forall k :: LeadingSpaces(s) + |Strip(s)| <= k < |s| ==> IsSpace(s[k])
  {
  }

  /** Index of the first occurrence of `c` in `s`, if any. */
  function IndexOf(s: string, c: char): (r: Option<nat>)
    ensures r.None? <==> c !in s
    ensures r.Some? ==> r.value < |s| && s[r.value] == c && c !in s[..r.value]
  {
    if s == [] then None
    else if s[0] == c then Some(0)
    else match IndexOf(s[1..], c)
      case None => None
      case Some(k) =>
        assert s[1..][..k] == s[1..k + 1];
        Some(k + 1)
  }

  /** Index of the first line break in `s`, if any. */
  function FirstBreak(s: string): (r: Option<nat>)
    ensures r.None? <==> forall k :: 0 <= k < |s| ==> !IsBreak(s[k])
    ensures r.Some? ==> r.value < |s| && IsBreak(s[r.value]) &&
                        (forall k :: 0 <= k < r.value ==> !IsBreak(s[k]))
  {
    if s == [] then None
    else if IsBreak(s[0]) then Some(0)
    else match FirstBreak(s[1..])
      case None => None
      case Some(k) => Some(k + 1)
  }

  /** The lines a file read in text mode yields, with the line breaks
      removed. A `\r\n` pair yields an extra empty line, which every caller
      skips as blank, exactly as Python's translated single break would be. */
  function Lines(text: string): (r: seq<string>)
    ensures |r| >= 1
    decreases |text|
  {
    match FirstBreak(text)
    case None => [text]
    case Some(k) => [text[..k]] + Lines(text[k + 1..])
  }

  /** The lines put back together, with `breaks[i]` between lines `i` and
      `i + 1`. */
  function Interleave(lines: seq<string>, breaks: string): string
    requires |lines| == |breaks| + 1
    decreases |breaks|
  {
    if breaks == [] then lines[0]
    else lines[0] + [breaks[0]] + Interleave(lines[1..], breaks[1..])
  }

  /** No line holds a break, and the lines joined by the breaks that ended
      them give back the text: nothing is lost or reordered. */
  lemma {:induction false} LinesRebuild(text: string) returns (breaks: string)
    ensures |breaks| + 1 == |Lines(text)|
    ensures AllBreaks(breaks)
    ensures AllBreakFree(Lines(text))
    ensures Interleave(Lines(text), breaks) == text
    decreases |text|
  {
    match FirstBreak(text)
    case None =>
      breaks := [];
    case Some(k) =>
      LinesSplit(text, k);
      FirstLineBreakFree(text, k);
      CutAt(text, k);
      var first, rest := text[..k], text[k + 1..];
      var more := LinesRebuild(rest);
      breaks := [text[k]] + more;
      InterleaveCons(first, Lines(rest), text[k], more);
      BreakFreeCons(first, Lines(rest));
      AllBreaksCons(text[k], more);
  }

  /** The first break cuts off the first line. */
  lemma LinesSplit(text: string, k: nat)
    requires FirstBreak(text) == Some(k)
    ensures k < |text| && Lines(text) == [text[..k]] + Lines(text[k + 1..])
  {
  }

  /** The first line holds no break, and a break ends it. */
  lemma FirstLineBreakFree(text: string, k: nat)
    requires FirstBreak(text) == Some(k)
    ensures k < |text| && BreakFree(text[..k]) && IsBreak(text[k])
  {
    forall j | 0 <= j < k ensures !IsBreak(text[..k][j]) {
      assert text[..k][j] == text[j];
    }
  }

  /** A string is what comes before index `k`, the character there, and
      what comes after it. */
  lemma CutAt(text: string, k: nat)
    requires k < |text|
    ensures text == text[..k] + [text[k]] + text[k + 1..]
  {
  }

  lemma AllBreaksCons(b: char, breaks: string)
    requires IsBreak(b) && AllBreaks(breaks)
    ensures AllBreaks([b] + breaks)
  {
    forall j | 0 <= j < |[b] + breaks| ensures IsBreak(([b] + breaks)[j]) {
      if j > 0 { assert ([b] + breaks)[j] == breaks[j - 1]; }
    }
  }

  /** Putting back one more line in front. */
  lemma InterleaveCons(line: string, lines: seq<string>, b: char, breaks: string)
    requires |lines| == |breaks| + 1
    ensures Interleave([line] + lines, [b] + breaks) == line + [b] + Interleave(lines, breaks)
  {
    assert ([line] + lines)[1..] == lines;
    assert ([b] + breaks)[1..] == breaks;
  }

  lemma BreakFreeCons(line: string, lines: seq<string>)
    requires BreakFree(line)
    requires AllBreakFree(lines)
    ensures AllBreakFree([line] + lines)
  {
    forall i | 0 <= i < |[line] + lines| ensures BreakFree(([line] + lines)[i]) {
      if i > 0 { assert ([line] + lines)[i] == lines[i - 1]; }
    }
  }

  function DigitChar(d: nat): (c: char)
    requires d < 10
    ensures IsDigit(c)
  {
    ('0' as int + d) as char
  }

  function DigitValue(c: char): (d: nat)
    requires IsDigit(c)
    ensures d < 10 && DigitChar(d) == c
  {
    c as int - '0' as int
  }

  /** Decimal rendering of a natural number, as Python's `str(n)` / an
      f-string gives it: digits only, no leading zero except for `0` itself. */
  function NatToString(n: nat): (s: string)
    ensures |s| >= 1
    ensures forall k :: 0 <= k < |s| ==> IsDigit(s[k])
    ensures s[0] == '0' ==> n == 0
  {
    if n < 10 then [DigitChar(n)] else NatToString(n / 10) + [DigitChar(n % 10)]
  }

  /** The value of a string of decimal digits. */
  function DigitsValue(s: string): nat
    requires forall k :: 0 <= k < |s| ==> IsDigit(s[k])
  {
    if s == [] then 0 else DigitsValue(s[..|s| - 1]) * 10 + DigitValue(s[|s| - 1])
  }

  lemma {:induction false} DigitsValueOfNatToString(n: nat)
    ensures DigitsValue(NatToString(n)) == n
  {
    if n >= 10 {
      var s := NatToString(n);
      assert s[..|s| - 1] == NatToString(n / 10);
      DigitsValueOfNatToString(n / 10);
    }
  }

  /** `v` with a minus sign applied when `negative`. */
  function Signed(negative: bool, v: nat): int
  {
    if negative then -(v as int) else v
  }

  /** `int()` on an already stripped string: an optional sign, then one or
      more ASCII digits. */
  function ParseSigned(t: string): Option<int>
  {
    if t == [] then None
    else
      var digits := if t[0] == '-' || t[0] == '+' then t[1..] else t;
      if digits != [] && AllDigits(digits) then Some(Signed(t[0] == '-', DigitsValue(digits)))
      else None
  }

  /** Python's `int(s)` on a decimal string: surrounding whitespace is
      ignored, an optional sign, then one or more ASCII digits. Anything else
      is a `ValueError`, rendered here as `None`. The whitespace `int()`
      skips is that of `strip()` without the information separators, and a
      separator anywhere else is not a sign or a digit either, so a string
      holding one is refused and on any other string the two kinds of
      whitespace coincide. `ParseIntOfPadded` and `ParseIntParts` state what
      it accepts. */
  function ParseInt(s: string): Option<int>
  {
    if NoInfoSeparator(s) then ParseSigned(Strip(s)) else None
  }

  /** A string that neither starts nor ends with whitespace is its own strip. */
  lemma StripOfTrimmed(s: string)
    requires s != [] && !IsSpace(s[0]) && !IsSpace(s[|s| - 1])
    ensures Strip(s) == s
  {
    assert SkipSpaces(s, 0) == 0;
    assert SkipSpacesBack(s, 0, |s|) == |s|;
  }

  /** Whitespace around a trimmed string is exactly what `strip` removes. */
  lemma StripOfPadded(pre: string, t: string, post: string)
    requires AllSpace(pre) && AllSpace(post)
    requires t != [] && !IsSpace(t[0]) && !IsSpace(t[|t| - 1])
    ensures Strip(pre + t + post) == t
  {
    var s := pre + t + post;
    assert s[|pre|] == t[0];
    assert forall k :: 0 <= k < |pre| ==> s[k] == pre[k];
    var a := SkipSpaces(s, 0);
    assert a == |pre|;
    var e := |pre| + |t|;
    assert s[e - 1] == t[|t| - 1];
    assert forall k :: e <= k < |s| ==> s[k] == post[k - e];
    var b := SkipSpacesBack(s, a, |s|);
    assert b == e;
    assert s[a..b] == t;
  }

  /** Regrouping a concatenation of four strings. */
  lemma Regroup(a: string, b: string, c: string, d: string)
    ensures a + b + c + d == a + (b + c) + d
  {
  }

  /** Regrouping a concatenation of five strings. */
  lemma Regroup5(a: string, b: string, c: string, d: string, e: string)
    ensures a + b + c + d + e == a + (b + (c + d)) + e
  {
    assert a + b + c + d == a + (b + (c + d));
  }

  /** A leading zero does not change the value of a digit string. */
  lemma {:induction false} LeadingZero(x: string)
    requires AllDigits(x)
    ensures AllDigits(['0'] + x) && DigitsValue(['0'] + x) == DigitsValue(x)
    decreases |x|
  {
    var y := ['0'] + x;
    if x != [] {
      assert y[..|y| - 1] == ['0'] + x[..|x| - 1];
      LeadingZero(x[..|x| - 1]);
    }
  }

  /** Any run of leading zeros leaves the value alone. */
  lemma {:induction false} LeadingZeros(zeros: string, x: string)
    requires forall k :: 0 <= k < |zeros| ==> zeros[k] == '0'
    requires AllDigits(x)
    ensures AllDigits(zeros + x) && DigitsValue(zeros + x) == DigitsValue(x)
    decreases |zeros|
  {
    if zeros != [] {
      LeadingZeros(zeros[1..], x);
      LeadingZero(zeros[1..] + x);
      assert zeros + x == ['0'] + (zeros[1..] + x);
    } else {
      assert zeros + x == x;
    }
  }

  /** The stripped form `int()` accepts: an optional sign and digits. */
  lemma ParseSignedOfParts(sign: string, digits: string)
    requires sign == "" || sign == "+" || sign == "-"
    requires digits != [] && AllDigits(digits)
    ensures ParseSigned(sign + digits) == Some(Signed(sign == "-", DigitsValue(digits)))
  {
    var t := sign + digits;
    if sign == [] {
      assert t == digits;
      assert IsDigit(t[0]);
    } else {
      assert t[0] == sign[0] && t[1..] == digits;
    }
  }

  /** A sign, leading zeros and a digit string form a trimmed string that
      `int()` reads as the digits' value with the sign applied. */
  lemma SignedZeroPadded(sign: string, zeros: string, d: string)
    requires sign == "" || sign == "+" || sign == "-"
    requires forall k :: 0 <= k < |zeros| ==> zeros[k] == '0'
    requires d != [] && AllDigits(d)
    ensures var t := sign + (zeros + d);
      t != [] && !IsSpace(t[0]) && !IsSpace(t[|t| - 1]) &&
      ParseSigned(t) == Some(Signed(sign == "-", DigitsValue(d)))
  {
    LeadingZeros(zeros, d);
    SignedTrimmed(sign, zeros + d);
    ParseSignedOfParts(sign, zeros + d);
  }

  /** An optional sign followed by digits neither starts nor ends with
      whitespace. */
  lemma SignedTrimmed(sign: string, digits: string)
    requires sign == "" || sign == "+" || sign == "-"
    requires digits != [] && AllDigits(digits)
    ensures var t := sign + digits;
      t != [] && !IsSpace(t[0]) && !IsSpace(t[|t| - 1])
  {
    var t := sign + digits;
    assert t[|t| - 1] == digits[|digits| - 1];
    assert t[0] == if sign == [] then digits[0] else sign[0];
  }

  /** No information separator in `a + b` when there is none in either. */
  lemma NoInfoSeparatorAppend(a: string, b: string)
    requires NoInfoSeparator(a) && NoInfoSeparator(b)
    ensures NoInfoSeparator(a + b)
  {
    assert forall k :: |a| <= k < |a + b| ==> (a + b)[k] == b[k - |a|];
  }

  /** The padding `int()` skips is whitespace that holds no separator. */
  lemma IntSpaceIsSpace(s: string)
    requires AllIntSpace(s)
    ensures AllSpace(s) && NoInfoSeparator(s)
  {
  }

  /** `int()` accepts surrounding whitespace, an optional sign and leading
      zeros: `" +007 "` reads as 7 and `"-3"` as -3. */
  lemma ParseIntOfPadded(pre: string, sign: string, zeros: string, n: nat, post: string)
    requires AllIntSpace(pre) && AllIntSpace(post)
    requires sign == "" || sign == "+" || sign == "-"
    requires forall k :: 0 <= k < |zeros| ==> zeros[k] == '0'
    ensures ParseInt(pre + sign + zeros + NatToString(n) + post) == Some(Signed(sign == "-", n))
  {
    var d := NatToString(n);
    var t := sign + (zeros + d);
    SignedZeroPadded(sign, zeros, d);
    DigitsValueOfNatToString(n);
    IntSpaceIsSpace(pre);
    IntSpaceIsSpace(post);
    Regroup5(pre, sign, zeros, d, post);
    assert NoInfoSeparator(t) by {
      forall k | 0 <= k < |t| ensures !IsInfoSeparator(t[k]) {
        assert t[k] in sign || IsDigit(t[k]);
      }
    }
    NoInfoSeparatorAppend(pre, t);
    NoInfoSeparatorAppend(pre + t, post);
    StripOfPadded(pre, t, post);
  }

  /** Conversely, whatever `int()` accepts is whitespace, an optional sign,
      a non-empty run of digits and whitespace, and its value is that of the
      digits with the sign applied. */
  lemma ParseIntParts(s: string) returns (pre: string, sign: string, digits: string, post: string)
    requires ParseInt(s).Some?
    ensures s == pre + sign + digits + post
    ensures AllIntSpace(pre) && AllIntSpace(post)
    ensures sign == "" || sign == "+" || sign == "-"
    ensures digits != [] && AllDigits(digits)
    ensures ParseInt(s) == Some(Signed(sign == "-", DigitsValue(digits)))
  {
    var t := Strip(s);
    pre, post := StripSplit(s);
    sign, digits := SignedParts(t);
    Regroup(pre, sign, digits, post);
    SeparatorFreeParts(s, pre, Strip(s), post);
  }

  /** The outer parts of a separator-free string are separator-free. */
  lemma SeparatorFreeParts(s: string, pre: string, t: string, post: string)
    requires s == pre + t + post && NoInfoSeparator(s)
    requires AllSpace(pre) && AllSpace(post)
    ensures AllIntSpace(pre) && AllIntSpace(post)
  {
    assert forall k :: 0 <= k < |pre| ==> pre[k] == s[k];
    assert forall k :: 0 <= k < |post| ==> post[k] == s[|pre| + |t| + k];
  }

  /** `strip` cuts a string into leading whitespace, what it keeps and
      trailing whitespace. */
  lemma StripSplit(s: string) returns (pre: string, post: string)
    ensures s == pre + Strip(s) + post
    ensures AllSpace(pre) && AllSpace(post)
  {
    StripIsSlice(s);
    var a, t := LeadingSpaces(s), Strip(s);
    pre, post := s[..a], s[a + |t|..];
    assert s == pre + s[a..a + |t|] + post;
  }

  /** What `int()` accepts once stripped is an optional sign and digits. */
  lemma SignedParts(t: string) returns (sign: string, digits: string)
    requires ParseSigned(t).Some?
    ensures t == sign + digits
    ensures sign == "" || sign == "+" || sign == "-"
    ensures digits != [] && AllDigits(digits)
    ensures ParseSigned(t) == Some(Signed(sign == "-", DigitsValue(digits)))
  {
    if t[0] == '-' || t[0] == '+' {
      sign, digits := t[..1], t[1..];
    } else {
      sign, digits := [], t;
    }
    assert t == sign + digits;
  }

  /** What the jump dialog reads back when the operator types the decimal
      rendering of a number. */
  lemma ParseIntOfNatToString(n: nat)
    ensures ParseInt(NatToString(n)) == Some(n)
  {
    var d := NatToString(n);
    assert NoInfoSeparator(d) by {
      forall k | 0 <= k < |d| ensures !IsInfoSeparator(d[k]) { assert IsDigit(d[k]); }
    }
    StripOfTrimmed(d);
    DigitsValueOfNatToString(n);
  }
}
