/** String helpers of the email parser: the `clean_text` normaliser, Python's
    `in` on strings, digit strings and `str.title()`. Characters are compared
    one by one; case mapping covers the ASCII letters. */
module Text {
  import opened Common

  /** Python's whitespace class (`str.isspace`, and `\s` in a `str` pattern). */
  predicate IsSpace(c: char) {
    c == ' ' || c == '\t' || c == '\n' || c == '\r' || c == '\U{0B}' || c == '\U{0C}'
    || ('\U{1C}' <= c <= '\U{1F}') || c == '\U{85}' || c == '\U{A0}' || c == '\U{1680}'
    || ('\U{2000}' <= c <= '\U{200A}') || c == '\U{2028}' || c == '\U{2029}'
    || c == '\U{202F}' || c == '\U{205F}' || c == '\U{3000}'
  }

  predicate IsUpper(c: char) {
    'A' <= c <= 'Z'
  }

  predicate IsLetter(c: char) {
    'A' <= c <= 'Z' || 'a' <= c <= 'z'
  }

  function LowerChar(c: char): char {
    if IsUpper(c) then (c as int + 32) as char else c
  }

  function UpperChar(c: char): char {
    if 'a' <= c <= 'z' then (c as int - 32) as char else c
  }

  /** `s.lower()`. */
  function Lower(s: string): (r: string)
    ensures |r| == |s|
    ensures forall i :: 0 <= i < |s| ==> r[i] == LowerChar(s[i])
  {
    seq(|s|, i requires 0 <= i < |s| => LowerChar(s[i]))
  }

  /** `s.replace(a, b)` for single characters. */
  function ReplaceChar(s: string, a: char, b: char): (r: string)
    ensures |r| == |s|
    ensures forall i :: 0 <= i < |s| ==> r[i] == if s[i] == a then b else s[i]
  {
    seq(|s|, i requires 0 <= i < |s| => if s[i] == a then b else s[i])
  }

  /** `s` without its leading whitespace (`s.lstrip()`). */
  function StripLeft(s: string): (r: string)
    ensures |r| <= |s| && r == s[|s| - |r|..]
    ensures forall i :: 0 <= i < |s| - |r| ==> IsSpace(s[i])
    ensures r == [] || !IsSpace(r[0])
  {
    if s != [] && IsSpace(s[0]) then StripLeft(s[1..]) else s
  }

  /** `s` without its trailing whitespace (`s.rstrip()`). */
  function StripRight(s: string): (r: string)
    ensures |r| <= |s| && r == s[..|r|]
    ensures forall i :: |r| <= i < |s| ==> IsSpace(s[i])
    ensures r == [] || !IsSpace(r[|r| - 1])
  {
    if s != [] && IsSpace(s[|s| - 1]) then StripRight(s[..|s| - 1]) else s
  }

  /** `s.strip()`. */
  function Strip(s: string): string {
    StripRight(StripLeft(s))
  }

  /** `re.sub(r'\s+', ' ', s)`: every maximal run of whitespace becomes one space. */
  function CollapseSpaces(s: string): (r: string)
    ensures |r| <= |s|
    decreases |s|
  {
    if s == [] then []
    else if IsSpace(s[0]) then [' '] + CollapseSpaces(StripLeft(s[1..]))
    else [s[0]] + CollapseSpaces(s[1..])
  }

  /** `clean_text`: "" for empty input, otherwise lowercase, runs of whitespace
      collapsed to one space, non-breaking spaces replaced, ends stripped. */
  function CleanText(s: string): string {
    if s == [] then ""
    else Strip(ReplaceChar(CollapseSpaces(Lower(s)), '\U{A0}', ' '))
  }

  /** What `clean_text` promises of its result. */
  predicate Normalised(t: string) {
    && (forall i :: 0 <= i < |t| ==> !IsUpper(t[i]))
    && (forall i :: 0 <= i < |t| ==> IsSpace(t[i]) ==> t[i] == ' ')
    && (forall i :: 0 <= i < |t| - 1 ==> !(t[i] == ' ' && t[i + 1] == ' '))
    && (t != [] ==> t[0] != ' ' && t[|t| - 1] != ' ')
  }

  /** Only plain single spaces, nothing upper-case: the shape collapsing gives. */
  predicate Collapsed(t: string) {
    && (forall i :: 0 <= i < |t| ==> !IsUpper(t[i]))
    && (forall i :: 0 <= i < |t| ==> IsSpace(t[i]) ==> t[i] == ' ')
    && (forall i :: 0 <= i < |t| - 1 ==> !(t[i] == ' ' && t[i + 1] == ' '))
  }

  /** A character in front of a collapsed string keeps it collapsed unless it
      makes a double space. */
  lemma ConsCollapsed(c: char, t: string)
    requires Collapsed(t) && !IsUpper(c) && (IsSpace(c) ==> c == ' ')
    requires c == ' ' ==> t == [] || t[0] != ' '
    ensures Collapsed([c] + t)
  {
    var r := [c] + t;
    assert forall i :: 0 < i < |r| ==> r[i] == t[i - 1];
  }

  lemma {:induction false} CollapseSpacesShape(s: string)
    requires forall i :: 0 <= i < |s| ==> !IsUpper(s[i])
    ensures Collapsed(CollapseSpaces(s))
    ensures CollapseSpaces(s) != [] <==> s != []
    ensures s != [] ==> (CollapseSpaces(s)[0] == ' ' <==> IsSpace(s[0]))
    decreases |s|
  {
    if s != [] {
      var tail := s[1..];
      assert forall i :: 0 <= i < |tail| ==> tail[i] == s[i + 1];
      if IsSpace(s[0]) {
        var rest := StripLeft(tail);
        assert forall i :: 0 <= i < |rest| ==> rest[i] == tail[|tail| - |rest| + i];
        CollapseSpacesShape(rest);
        ConsCollapsed(' ', CollapseSpaces(rest));
      } else {
        CollapseSpacesShape(tail);
        ConsCollapsed(s[0], CollapseSpaces(tail));
      }
    }
  }

  /** A collapsed string is left alone by collapsing. */
  lemma {:induction false} CollapseSpacesFixed(t: string)
    requires Collapsed(t)
    ensures CollapseSpaces(t) == t
    decreases |t|
  {
    if t != [] {
      if IsSpace(t[0]) {
        assert StripLeft(t[1..]) == t[1..];
      }
      CollapseSpacesFixed(t[1..]);
    }
  }

  /** A slice of a collapsed string is collapsed. */
  lemma CollapsedSlice(t: string, a: nat, b: nat)
    requires Collapsed(t) && a <= b <= |t|
    ensures Collapsed(t[a..b])
  {
    var r := t[a..b];
    assert forall i :: 0 <= i < |r| ==> r[i] == t[a + i];
  }

  lemma StripCollapsed(t: string)
    requires Collapsed(t)
    ensures Normalised(Strip(t))
  {
    StripLeftCollapsed(t);
    StripRightNormalised(StripLeft(t));
  }

  lemma StripLeftCollapsed(t: string)
    requires Collapsed(t)
    ensures Collapsed(StripLeft(t))
  {
    var l := StripLeft(t);
    assert l == t[|t| - |l|..|t|];
    CollapsedSlice(t, |t| - |l|, |t|);
  }

  /** Stripping the right end of a collapsed string that starts with no space normalises it. */
  lemma StripRightNormalised(l: string)
    requires Collapsed(l) && (l == [] || !IsSpace(l[0]))
    ensures Normalised(StripRight(l))
  {
    var r := StripRight(l);
    assert r == l[0..|r|];
    CollapsedSlice(l, 0, |r|);
    if r != [] {
      assert r[0] == l[0];
    }
    TrimmedNormalised(r);
  }

  /** A collapsed string without whitespace at its ends is normalised. */
  lemma TrimmedNormalised(r: string)
    requires Collapsed(r)
    requires r != [] ==> !IsSpace(r[0]) && !IsSpace(r[|r| - 1])
    ensures Normalised(r)
  {
  }

  /** `clean_text` always returns a normalised string, and "" for empty input. */
  lemma CleanTextNormalised(s: string)
    ensures Normalised(CleanText(s))
    ensures s == [] ==> CleanText(s) == ""
  {
    if s != [] {
      var c := CollapseSpaces(Lower(s));
      CollapseSpacesShape(Lower(s));
      assert ReplaceChar(c, '\U{A0}', ' ') == c;
      StripCollapsed(c);
    }
  }

  lemma LowerFixed(t: string)
    requires forall i :: 0 <= i < |t| ==> !IsUpper(t[i])
    ensures Lower(t) == t
  {
    assert forall i :: 0 <= i < |t| ==> Lower(t)[i] == t[i];
  }

  lemma ReplaceFixed(t: string)
    requires forall i :: 0 <= i < |t| ==> IsSpace(t[i]) ==> t[i] == ' '
    ensures ReplaceChar(t, '\U{A0}', ' ') == t
  {
    assert forall i :: 0 <= i < |t| ==> ReplaceChar(t, '\U{A0}', ' ')[i] == t[i];
  }

  /** A normalised string is its own cleaning. */
  lemma CleanTextFixed(t: string)
    requires Normalised(t)
    ensures CleanText(t) == t
  {
    if t != [] {
      LowerFixed(t);
      CollapseSpacesFixed(t);
      ReplaceFixed(t);
      assert !IsSpace(t[0]) && !IsSpace(t[|t| - 1]);
      assert StripLeft(t) == t;
      assert StripRight(t) == t;
    }
  }

  /** Cleaning twice is cleaning once. */
  lemma CleanTextIdempotent(s: string)
    ensures CleanText(CleanText(s)) == CleanText(s)
  {
    CleanTextNormalised(s);
    CleanTextFixed(CleanText(s));
  }

  /** Python's `p in s` for strings. */
  predicate Contains(s: string, p: string)
    decreases |s|
  {
    p <= s || (s != [] && Contains(s[1..], p))
  }

  /** `p` occurs in `s` starting at index `i`. */
  predicate OccursAt(s: string, p: string, i: int) {
    0 <= i <= |s| - |p| && s[i..i + |p|] == p
  }

  lemma {:induction false} ContainsAt(s: string, p: string)
    ensures Contains(s, p) <==> exists i :: OccursAt(s, p, i)
    decreases |s|
  {
    OccursFirst(s, p);
    if s != [] {
      ContainsAt(s[1..], p);
      if Contains(s[1..], p) {
        var i :| OccursAt(s[1..], p, i);
        OccursShift(s, p, i);
      }
      if exists i :: OccursAt(s, p, i) {
        var i :| OccursAt(s, p, i);
        if i > 0 {
          OccursShift(s, p, i - 1);
        }
      }
    } else if exists i :: OccursAt(s, p, i) {
      var i :| OccursAt(s, p, i);
      assert i == 0;
    }
  }

  /** An occurrence at the front is a prefix. */
  lemma OccursFirst(s: string, p: string)
    ensures OccursAt(s, p, 0) <==> p <= s
  {
  }

  /** Occurrences in the tail are those of the whole string, one index later. */
  lemma OccursShift(s: string, p: string, i: int)
    requires s != [] && 0 <= i
    ensures OccursAt(s[1..], p, i) <==> OccursAt(s, p, i + 1)
  {
    if i + |p| <= |s| - 1 {
      assert s[1..][i..i + |p|] == s[i + 1..i + 1 + |p|];
    }
  }

  /** `any(p in s for p in patterns)`. */
  predicate ContainsAny(s: string, patterns: seq<string>) {
    exists i :: 0 <= i < |patterns| && Contains(s, patterns[i])
  }

  predicate IsDigit(c: char) {
    '0' <= c <= '9'
  }

  /** `s.isdigit()` for ASCII text: non-empty and every character a digit. */
  predicate IsDigits(s: string) {
    s != [] && forall i :: 0 <= i < |s| ==> IsDigit(s[i])
  }

  /** The value of a string of decimal digits. */
  function DigitsValue(s: string): (v: nat)
    requires forall i :: 0 <= i < |s| ==> IsDigit(s[i])
    decreases |s|
  {
    if s == [] then 0
    else
      assert IsDigit(s[|s| - 1]);
      10 * DigitsValue(s[..|s| - 1]) + (s[|s| - 1] as int - '0' as int)
  }

  /** A string of `n` digits denotes a number below `10^n`. */
  lemma {:induction false} DigitsValueBound(s: string)
    requires forall i :: 0 <= i < |s| ==> IsDigit(s[i])
    ensures DigitsValue(s) < Pow10(|s|)
    decreases |s|
  {
    if s != [] {
      DigitsValueBound(s[..|s| - 1]);
    }
  }

  function Pow10(n: nat): (p: nat)
    ensures p >= 1
  {
    if n == 0 then 1 else 10 * Pow10(n - 1)
  }

  /** `int(s)` for the strings the date patterns capture: ValueError (here None) unless all digits. */
  function ParseInt(s: string): (r: Option<int>)
    ensures r.Some? <==> IsDigits(s)
    ensures r.Some? ==> 0 <= r.value < Pow10(|s|)
  {
    if IsDigits(s) then DigitsValueBound(s); Some(DigitsValue(s)) else None
  }

  /** `s.title()`: a letter is upper-cased after a non-letter and lower-cased after a letter. */
  function Title(s: string): (r: string)
    ensures |r| == |s|
    ensures forall i :: 0 <= i < |s| ==>
      r[i] == if i > 0 && IsLetter(s[i - 1]) then LowerChar(s[i]) else UpperChar(s[i])
  {
    TitleAfter(s, false)
  }

  /** `title()` from a position whose predecessor is a letter exactly when `afterLetter`. */
  function TitleAfter(s: string, afterLetter: bool): (r: string)
    ensures |r| == |s|
    ensures forall i :: 0 <= i < |s| ==> LowerChar(r[i]) == LowerChar(s[i])
    ensures forall i :: 0 <= i < |s| ==>
      r[i] == if (if i == 0 then afterLetter else IsLetter(s[i - 1])) then LowerChar(s[i]) else UpperChar(s[i])
    decreases |s|
  {
    if s == [] then []
    else
      var c := if afterLetter then LowerChar(s[0]) else UpperChar(s[0]);
      [c] + TitleAfter(s[1..], IsLetter(s[0]))
  }

  /** Title-casing does not change a name's lower-case form, so `name.title().lower()` is `name.lower()`. */
  lemma TitleLower(s: string)
    ensures Lower(Title(s)) == Lower(s)
  {
  }
}
