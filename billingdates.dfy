/** `extract_billing_date` of backend/app/services/email_parser_service.py: its
    four date patterns as explicit matchers, the `re.finditer` scan, the
    interpretation of the three captured groups and the range check. */
module BillingDates {
  import opened Common
  import opened Text
  import opened Dates
  import opened Amounts

  /** The four date patterns, in the order they are tried:
      - `NumericDayFirst`: `(\d{1,2})[-/](\d{1,2})[-/](\d{4})`
      - `NumericYearFirst`: `(\d{4})[-/](\d{1,2})[-/](\d{1,2})`
      - `EnglishMonthName`: `(January|...|December)\s+(\d{1,2}),?\s+(\d{4})`
      - `IndonesianMonthName`: `(\d{1,2})\s+(Januari|...|Desember)\s+(\d{4})`
      All are matched ignoring case. */
  datatype DatePattern = NumericDayFirst | NumericYearFirst | EnglishMonthName | IndonesianMonthName

  const DatePatterns: seq<DatePattern> := [NumericDayFirst, NumericYearFirst, EnglishMonthName, IndonesianMonthName]

  /** The alternatives of the English pattern, lower-cased. */
  const EnglishMonths: seq<string> := [
    "january", "february", "march", "april", "may", "june",
    "july", "august", "september", "october", "november", "december"]

  /** The alternatives of the Indonesian pattern, lower-cased. */
  const IndonesianMonths: seq<string> := [
    "januari", "februari", "maret", "april", "mei", "juni",
    "juli", "agustus", "september", "oktober", "november", "desember"]

  /** `month_mapping`. It has no key `february`: its English half spells that
      month `februari`. */
  const MonthMapping: map<string, int> := map[
    "january" := 1, "februari" := 2, "march" := 3, "april" := 4, "may" := 5, "june" := 6,
    "july" := 7, "august" := 8, "september" := 9, "october" := 10, "november" := 11, "december" := 12,
    "januari" := 1, "maret" := 3, "mei" := 5, "juni" := 6,
    "juli" := 7, "agustus" := 8, "oktober" := 10, "desember" := 12]

  /** `month_mapping.get(name)`. */
  function MonthNumber(name: string): (r: Option<int>)
    ensures r.Some? <==> name in MonthMapping
    ensures r.Some? ==> 1 <= r.value <= 12
  {
    if name in MonthMapping then Some(MonthMapping[name]) else None
  }

  /** Every key of the mapping starts with a letter, and only `februari` maps to 2. */
  lemma MonthKeys(name: string)
    requires name in MonthMapping
    ensures |name| > 0 && IsLetter(name[0])
    ensures MonthMapping[name] == 2 ==> name == "februari"
  {
  }

  /** The three captured groups of a match. */
  datatype Groups = Groups(g1: string, g2: string, g3: string)

  /** The end of the run of digits starting at `i`. */
  function DigitsEnd(t: string, i: nat): (r: nat)
    requires i <= |t|
    ensures i <= r <= |t|
    ensures forall k :: i <= k < r ==> IsDigit(t[k])
    ensures r == |t| || !IsDigit(t[r])
    decreases |t| - i
  {
    if i < |t| && IsDigit(t[i]) then DigitsEnd(t, i + 1) else i
  }

  lemma DigitsSlice(t: string, i: nat, e: nat)
    requires i < e <= |t|
    requires forall k :: i <= k < e ==> IsDigit(t[k])
    ensures IsDigits(t[i..e])
  {
    assert forall k :: 0 <= k < e - i ==> t[i..e][k] == t[i + k];
  }

  /** `\d{1,2}` at `i` followed by something that cannot start with a digit:
      the whole run of digits when it has one or two. On a longer run the
      engine's retry with one digit leaves a digit where the follower must
      start, so there is no match at `i`. */
  function ShortNumber(t: string, i: nat): (r: Option<nat>)
    requires i <= |t|
    ensures r.Some? ==> i < r.value <= i + 2 && r.value <= |t| && IsDigits(t[i..r.value])
    ensures r.Some? ==> r.value == |t| || !IsDigit(t[r.value])
    ensures r.None? <==> DigitsEnd(t, i) == i || DigitsEnd(t, i) > i + 2
  {
    var e := DigitsEnd(t, i);
    if i < e <= i + 2 then DigitsSlice(t, i, e); Some(e) else None
  }

  /** `\d{1,2}` ending the pattern: two digits when there are two, else one. */
  function TrailingShortNumber(t: string, i: nat): (r: Option<nat>)
    requires i <= |t|
    ensures r.Some? ==> i < r.value <= i + 2 && r.value <= |t| && IsDigits(t[i..r.value])
    ensures r.None? <==> i == |t| || !IsDigit(t[i])
  {
    var e := DigitsEnd(t, i);
    if e == i then None
    else
      var end := if e <= i + 2 then e else i + 2;
      DigitsSlice(t, i, end);
      Some(end)
  }

  /** `\d{4}`: exactly four digits, whatever follows. */
  function FourDigits(t: string, i: nat): (r: Option<nat>)
    ensures r.Some? ==> r.value == i + 4 <= |t| && IsDigits(t[i..i + 4])
    ensures r.None? <==> !(i + 4 <= |t| && IsDigits(t[i..i + 4]))
  {
    if i + 4 <= |t| && IsDigits(t[i..i + 4]) then Some(i + 4) else None
  }

  /** `[-/]`. */
  predicate SeparatorAt(t: string, i: nat) {
    i < |t| && (t[i] == '-' || t[i] == '/')
  }

  /** `\s+`, greedy: none of the patterns' followers is a space. */
  function Spaces(t: string, i: nat): (r: Option<nat>)
    requires i <= |t|
    ensures r.Some? ==> i < r.value <= |t| && r.value == SkipSpaces(t, i)
    ensures r.None? <==> i == |t| || !IsSpace(t[i])
  {
    var e := SkipSpaces(t, i);
    if i < e then Some(e) else None
  }

  /** `,?\s+`. A comma is taken when present; giving it back cannot help,
      since a comma is not a space. */
  function CommaSpaces(t: string, i: nat): (r: Option<nat>)
    requires i <= |t|
    ensures r.Some? ==> i < r.value <= |t|
  {
    if i < |t| && t[i] == ',' then Spaces(t, i + 1) else Spaces(t, i)
  }

  /** An alternation of month names at `i`, ignoring case: the end of the
      first name present there. No name of either list is a prefix of
      another of the same list, so trying them in another order would give
      the same match. */
  function NameAt(t: string, i: nat, names: seq<string>): (r: Option<nat>)
    ensures r.Some? ==> i <= r.value <= |t| && Lower(t[i..r.value]) in names
    ensures r.None? <==> forall k {:trigger LiteralAt(t, i, names[k])} :: 0 <= k < |names| ==> !LiteralAt(t, i, names[k])
    decreases |names|
  {
    if names == [] then None
    else if LiteralAt(t, i, names[0]) then Some(i + |names[0]|)
    else
      var r := NameAt(t, i, names[1..]);
      assert forall k :: 0 < k < |names| ==> names[k] == names[1..][k - 1];
      r
  }

  predicate ShortDigits(s: string) {
    IsDigits(s) && |s| <= 2
  }

  predicate YearDigits(s: string) {
    IsDigits(s) && |s| == 4
  }

  /** A matched month name: it starts with a letter. */
  predicate Word(s: string) {
    |s| > 0 && IsLetter(s[0])
  }

  /** What each pattern's groups look like, as far as their interpretation
      depends on it: an English name is never `februari`. */
  predicate Shaped(p: DatePattern, g: Groups) {
    match p
    case NumericDayFirst => ShortDigits(g.g1) && ShortDigits(g.g2) && YearDigits(g.g3)
    case NumericYearFirst => YearDigits(g.g1) && ShortDigits(g.g2) && ShortDigits(g.g3)
    case EnglishMonthName => Word(g.g1) && Lower(g.g1) != "februari" && ShortDigits(g.g2) && YearDigits(g.g3)
    case IndonesianMonthName => ShortDigits(g.g1) && Word(g.g2) && YearDigits(g.g3)
  }

  /** Every name of either list starts with a letter; `februari` is not English. */
  lemma NameWord(s: string, names: seq<string>)
    requires names == EnglishMonths || names == IndonesianMonths
    requires Lower(s) in names
    ensures Word(s)
    ensures names == EnglishMonths ==> Lower(s) != "februari"
  {
    var n := Lower(s);
    assert |n| > 0 && IsLetter(n[0]);
    assert n[0] == LowerChar(s[0]);
  }

  /** A match of `NumericDayFirst` starting exactly at `i`: its groups and its end. */
  function DayFirstAt(t: string, i: nat): (r: Option<(Groups, nat)>)
    requires i <= |t|
    ensures r.Some? ==> i < r.value.1 <= |t| && Shaped(NumericDayFirst, r.value.0)
  {
    var a := ShortNumber(t, i);
    if a.None? || !SeparatorAt(t, a.value) then None else
    var b := ShortNumber(t, a.value + 1);
    if b.None? || !SeparatorAt(t, b.value) then None else
    var c := FourDigits(t, b.value + 1);
    if c.None? then None else
    Some((Groups(t[i..a.value], t[a.value + 1..b.value], t[b.value + 1..c.value]), c.value))
  }

  /** A match of `NumericYearFirst` starting exactly at `i`. */
  function YearFirstAt(t: string, i: nat): (r: Option<(Groups, nat)>)
    requires i <= |t|
    ensures r.Some? ==> i < r.value.1 <= |t| && Shaped(NumericYearFirst, r.value.0)
  {
    var a := FourDigits(t, i);
    if a.None? || !SeparatorAt(t, a.value) then None else
    var b := ShortNumber(t, a.value + 1);
    if b.None? || !SeparatorAt(t, b.value) then None else
    var c := TrailingShortNumber(t, b.value + 1);
    if c.None? then None else
    Some((Groups(t[i..a.value], t[a.value + 1..b.value], t[b.value + 1..c.value]), c.value))
  }

  /** A match of `EnglishMonthName` starting exactly at `i`. */
  function EnglishAt(t: string, i: nat): (r: Option<(Groups, nat)>)
    requires i <= |t|
    ensures r.Some? ==> i < r.value.1 <= |t| && Shaped(EnglishMonthName, r.value.0)
    ensures NameAt(t, i, EnglishMonths).None? ==> r.None?
  {
    var a := NameAt(t, i, EnglishMonths);
    if a.None? then None else
    var g1 := t[i..a.value];
    NameWord(g1, EnglishMonths);
    match DayCommaYear(t, a.value)
    case None => None
    case Some((g2, g3, e)) => Some((Groups(g1, g2, g3), e))
  }

  /** `\s+(\d{1,2}),?\s+(\d{4})` at `a`: the two groups and the end. */
  function DayCommaYear(t: string, a: nat): (r: Option<(string, string, nat)>)
    requires a <= |t|
    ensures r.Some? ==> a < r.value.2 <= |t| && ShortDigits(r.value.0) && YearDigits(r.value.1)
  {
    var b := Spaces(t, a);
    if b.None? then None else
    var c := ShortNumber(t, b.value);
    if c.None? then None else
    var d := CommaSpaces(t, c.value);
    if d.None? then None else
    var e := FourDigits(t, d.value);
    if e.None? then None else
    Some((t[b.value..c.value], t[d.value..e.value], e.value))
  }

  /** A match of `IndonesianMonthName` starting exactly at `i`. */
  function IndonesianAt(t: string, i: nat): (r: Option<(Groups, nat)>)
    requires i <= |t|
    ensures r.Some? ==> i < r.value.1 <= |t| && Shaped(IndonesianMonthName, r.value.0)
  {
    var a := ShortNumber(t, i);
    if a.None? then None else
    var b := Spaces(t, a.value);
    if b.None? then None else
    var c := NameAt(t, b.value, IndonesianMonths);
    if c.None? then None else
    var g2 := t[b.value..c.value];
    NameWord(g2, IndonesianMonths);
    match SpacesYear(t, c.value)
    case None => None
    case Some((g3, e)) => Some((Groups(t[i..a.value], g2, g3), e))
  }

  /** `\s+(\d{4})` at `c`: the group and the end. */
  function SpacesYear(t: string, c: nat): (r: Option<(string, nat)>)
    requires c <= |t|
    ensures r.Some? ==> c < r.value.1 <= |t| && YearDigits(r.value.0)
  {
    var d := Spaces(t, c);
    if d.None? then None else
    var e := FourDigits(t, d.value);
    if e.None? then None else
    Some((t[d.value..e.value], e.value))
  }

  /** A match of pattern `p` starting exactly at `i`: its groups and its end. */
  function DateMatchAt(t: string, p: DatePattern, i: nat): (r: Option<(Groups, nat)>)
    requires i <= |t|
    ensures r.Some? ==> i < r.value.1 <= |t| && Shaped(p, r.value.0)
  {
    match p
    case NumericDayFirst => DayFirstAt(t, i)
    case NumericYearFirst => YearFirstAt(t, i)
    case EnglishMonthName => EnglishAt(t, i)
    case IndonesianMonthName => IndonesianAt(t, i)
  }

  /** The groups of the matches `re.finditer` reports from position `i` on. */
  function DateCaptures(t: string, p: DatePattern, i: nat): seq<Groups>
    requires i <= |t|
    decreases |t| - i
  {
    if i == |t| then []
    else
      match DateMatchAt(t, p, i)
      case Some((g, e)) => [g] + DateCaptures(t, p, e)
      case None => DateCaptures(t, p, i + 1)
  }

  predicate AllShaped(p: DatePattern, gs: seq<Groups>) {
    forall j :: 0 <= j < |gs| ==> Shaped(p, gs[j])
  }

  /** Every reported match has its pattern's shape. */
  lemma {:induction false} DateCapturesShaped(t: string, p: DatePattern, i: nat)
    requires i <= |t|
    ensures AllShaped(p, DateCaptures(t, p, i))
    decreases |t| - i
  {
    if i < |t| {
      var m := DateMatchAt(t, p, i);
      if m.Some? {
        var e := m.value.1;
        CapturesTake(t, p, i);
        DateCapturesShaped(t, p, e);
        AllShapedCons(p, m.value.0, DateCaptures(t, p, e));
      } else {
        CapturesSkip(t, p, i);
        DateCapturesShaped(t, p, i + 1);
      }
    }
  }

  /** A match at `i` is reported, and the search goes on at its end. */
  lemma CapturesTake(t: string, p: DatePattern, i: nat)
    requires i < |t| && DateMatchAt(t, p, i).Some?
    ensures DateCaptures(t, p, i) == [DateMatchAt(t, p, i).value.0] + DateCaptures(t, p, DateMatchAt(t, p, i).value.1)
  {
  }

  lemma AllShapedCons(p: DatePattern, g: Groups, rest: seq<Groups>)
    requires Shaped(p, g) && AllShaped(p, rest)
    ensures AllShaped(p, [g] + rest)
  {
    assert forall j :: 0 < j < |rest| + 1 ==> ([g] + rest)[j] == rest[j - 1];
  }

  /** The range check, then `datetime(year, month, day)`, whose ValueError
      (here None) the loop skips. */
  function Checked(year: int, month: int, day: int): (r: Option<Date>)
    ensures r.Some? <==> 1 <= day <= 31 && 1900 <= year <= 2100 && MakeDate(year, month, day).Some?
    ensures r.Some? ==> r.value == Date(year, month, day) && ValidDate(r.value)
  {
    if 1 <= day <= 31 && 1 <= month <= 12 && 1900 <= year <= 2100 then MakeDate(year, month, day) else None
  }

  /** The body of the loop over matches. Three digit groups are read as
      year-month-day when the third exceeds 31, else as day-month-year.
      Otherwise the first group is looked up as a month name (a miss skips
      the match); its day and year come from the second and third groups, in
      the order the second group's length decides. */
  function Interpret(g: Groups): Option<Date> {
    if IsDigits(g.g1) && IsDigits(g.g2) && IsDigits(g.g3) then
      var a := DigitsValue(g.g1);
      var b := DigitsValue(g.g2);
      var c := DigitsValue(g.g3);
      if c > 31 then Checked(a, b, c) else Checked(c, b, a)
    else
      match MonthNumber(Lower(g.g1))
      case None => None
      case Some(month) =>
        var day := ParseInt(if |g.g2| <= 2 then g.g2 else g.g3);
        var year := ParseInt(if |g.g2| <= 2 then g.g3 else g.g2);
        if day.None? || year.None? then None else Checked(year.value, month, day.value)
  }

  /** The first match whose groups give a date: every earlier match gives none. */
  function FirstValid(gs: seq<Groups>): (r: Option<Date>)
    ensures r.Some? ==> exists j :: 0 <= j < |gs| && Interpret(gs[j]) == r
                                    && forall i :: 0 <= i < j ==> Interpret(gs[i]).None?
    ensures r.None? <==> forall j :: 0 <= j < |gs| ==> Interpret(gs[j]).None?
  {
    if gs == [] then None
    else if Interpret(gs[0]).Some? then Interpret(gs[0])
    else
      var r := FirstValid(gs[1..]);
      assert forall j :: 0 < j < |gs| ==> gs[j] == gs[1..][j - 1];
      r
  }

  /** The date pattern `p` finds in `t`. */
  function PatternDate(t: string, p: DatePattern): Option<Date> {
    FirstValid(DateCaptures(t, p, 0))
  }

  /** The patterns in order; the first that finds a date wins. */
  function DateIn(t: string, patterns: seq<DatePattern>): Option<Date>
    decreases |patterns|
  {
    if patterns == [] then None
    else
      var r := PatternDate(t, patterns[0]);
      if r.Some? then r else DateIn(t, patterns[1..])
  }

  /** What `extract_billing_date(text)` returns: the text is cleaned, then searched. */
  function BillingDateOf(text: string): Option<Date> {
    DateIn(CleanText(text), DatePatterns)
  }

  /** The loops of `extract_billing_date`, returning at the first date found. */
  method ExtractBillingDate(text: string) returns (r: Option<Date>)
    ensures r == BillingDateOf(text)
  {
    var t := CleanText(text);
    for k := 0 to |DatePatterns|
      invariant DateIn(t, DatePatterns) == DateIn(t, DatePatterns[k..])
    {
      assert DatePatterns[k..][1..] == DatePatterns[k + 1..];
      var gs := DateCaptures(t, DatePatterns[k], 0);
      for j := 0 to |gs|
        invariant FirstValid(gs) == FirstValid(gs[j..])
      {
        var d := Interpret(gs[j]);
        if d.Some? {
          return d;
        }
        assert gs[j..][1..] == gs[j + 1..];
      }
      assert gs[|gs|..] == [];
    }
    assert DatePatterns[|DatePatterns|..] == [];
    return None;
  }

  /** Digit groups: the year lands on a one- or two-digit group, or the day on
      a group above 31, so neither numeric pattern ever gives a date. */
  lemma NumericNeverValid(g: Groups)
    requires Shaped(NumericDayFirst, g) || Shaped(NumericYearFirst, g)
    ensures Interpret(g).None?
  {
    DigitsValueBound(g.g1);
    DigitsValueBound(g.g3);
  }

  /** A lower-cased digit string is itself. */
  lemma LowerDigits(s: string)
    requires IsDigits(s)
    ensures Lower(s) == s
  {
  }

  /** In the Indonesian pattern the month name is the second group, while the
      lookup uses the first (the day digits), which is never a key. */
  lemma IndonesianNeverValid(g: Groups)
    requires Shaped(IndonesianMonthName, g)
    ensures Interpret(g).None?
  {
    assert !IsDigits(g.g2);
    LowerDigits(g.g1);
    if g.g1 in MonthMapping {
      MonthKeys(g.g1);
    }
  }

  /** Only the English pattern can give a date. */
  lemma OtherPatternsNeverYield(t: string, p: DatePattern)
    requires p != EnglishMonthName
    ensures PatternDate(t, p).None?
  {
    var gs := DateCaptures(t, p, 0);
    DateCapturesShaped(t, p, 0);
    forall j | 0 <= j < |gs|
      ensures Interpret(gs[j]).None?
    {
      if p == IndonesianMonthName {
        IndonesianNeverValid(gs[j]);
      } else {
        NumericNeverValid(gs[j]);
      }
    }
  }

  /** The billing date is what the English pattern finds in the cleaned text. */
  lemma OnlyEnglishNamesYield(text: string)
    ensures BillingDateOf(text) == PatternDate(CleanText(text), EnglishMonthName)
  {
    var t := CleanText(text);
    OtherPatternsNeverYield(t, NumericDayFirst);
    OtherPatternsNeverYield(t, NumericYearFirst);
    OtherPatternsNeverYield(t, IndonesianMonthName);
    assert DatePatterns[1..][1..] == [EnglishMonthName, IndonesianMonthName];
    assert DatePatterns[1..][1..][1..] == [IndonesianMonthName];
    assert DatePatterns[1..][1..][1..][1..] == [];
  }

  /** An English match gives the day and year of its digit groups, when they pass the checks. */
  lemma EnglishInterpret(g: Groups)
    requires Shaped(EnglishMonthName, g)
    ensures Lower(g.g1) in MonthMapping ==>
              Interpret(g) == Checked(DigitsValue(g.g3), MonthMapping[Lower(g.g1)], DigitsValue(g.g2))
    ensures Lower(g.g1) !in MonthMapping ==> Interpret(g).None?
    ensures Interpret(g).Some? ==>
              var d := Interpret(g).value; ValidDate(d) && 1900 <= d.year <= 2100 && d.month != 2
  {
    var n := Lower(g.g1);
    assert !IsDigits(g.g1);
    if n in MonthMapping {
      MonthKeys(n);
    }
  }

  /** The first English match that gives a date gives a real day of a year
      from 1900 to 2100 outside February. */
  lemma EnglishFirstValid(gs: seq<Groups>)
    requires AllShaped(EnglishMonthName, gs)
    ensures FirstValid(gs).Some? ==> var d := FirstValid(gs).value;
      ValidDate(d) && 1900 <= d.year <= 2100 && d.month != 2
  {
    if FirstValid(gs).Some? {
      var j :| 0 <= j < |gs| && Interpret(gs[j]) == FirstValid(gs);
      EnglishInterpret(gs[j]);
    }
  }

  /** A date the English pattern finds is a real day of a year from 1900 to 2100 outside February. */
  lemma EnglishPatternDate(t: string)
    ensures PatternDate(t, EnglishMonthName).Some? ==> var d := PatternDate(t, EnglishMonthName).value;
      ValidDate(d) && 1900 <= d.year <= 2100 && d.month != 2
  {
    var gs := DateCaptures(t, EnglishMonthName, 0);
    DateCapturesShaped(t, EnglishMonthName, 0);
    EnglishFirstValid(gs);
  }

  /** A billing date is a real day of a year from 1900 to 2100, never in
      February (the mapping has no `february`). */
  lemma BillingDateShape(text: string)
    ensures BillingDateOf(text).Some? ==> var d := BillingDateOf(text).value;
      ValidDate(d) && 1900 <= d.year <= 2100 && d.month != 2
  {
    OnlyEnglishNamesYield(text);
    EnglishPatternDate(CleanText(text));
  }

  /** Without an English month name, there is no billing date. */
  lemma NoEnglishNameNoDate(text: string)
    requires forall i: nat, k :: 0 <= k < |EnglishMonths| ==> !LiteralAt(CleanText(text), i, EnglishMonths[k])
    ensures BillingDateOf(text).None?
  {
    var t := CleanText(text);
    OnlyEnglishNamesYield(text);
    forall j: nat | j < |t|
      ensures DateMatchAt(t, EnglishMonthName, j).None?
    {
      EnglishNeedsName(t, j);
    }
    NoCaptures(t, EnglishMonthName, 0);
  }

  /** No match anywhere from `i` on: nothing is reported. */
  lemma {:induction false} NoCaptures(t: string, p: DatePattern, i: nat)
    requires i <= |t|
    requires forall j: nat :: i <= j < |t| ==> DateMatchAt(t, p, j).None?
    ensures DateCaptures(t, p, i) == []
    decreases |t| - i
  {
    if i < |t| {
      CapturesSkip(t, p, i);
      NoCaptures(t, p, i + 1);
    }
  }

  lemma EnglishNeedsName(t: string, i: nat)
    requires i <= |t| && NameAt(t, i, EnglishMonths).None?
    ensures DateMatchAt(t, EnglishMonthName, i).None?
  {
  }

  /** No match at `i`: the search goes on at `i + 1`. */
  lemma CapturesSkip(t: string, p: DatePattern, i: nat)
    requires i < |t| && DateMatchAt(t, p, i).None?
    ensures DateCaptures(t, p, i) == DateCaptures(t, p, i + 1)
  {
  }

  lemma ExampleMatch(t: string)
    requires t == "january 15, 2024"
    ensures EnglishAt(t, 0) == Some((Groups("january", "15", "2024"), 16))
  {
    assert t[0..7] == "january";
    assert Lower(t[0..7]) == "january";
    assert NameAt(t, 0, EnglishMonths) == Some(7);
    assert SkipSpaces(t, 8) == 8;
    assert Spaces(t, 7) == Some(8);
    assert DigitsEnd(t, 10) == 10;
    assert ShortNumber(t, 8) == Some(10);
    assert SkipSpaces(t, 12) == 12;
    assert CommaSpaces(t, 10) == Some(12);
    assert IsDigits(t[12..16]);
    assert FourDigits(t, 12) == Some(16);
    assert t[8..10] == "15" && t[12..16] == "2024";
    assert DayCommaYear(t, 7) == Some(("15", "2024", 16));
  }

  lemma ExampleValues()
    ensures DigitsValue("15") == 15 && DigitsValue("2024") == 2024
  {
    assert "15"[..1] == "1";
    assert "2024"[..3] == "202" && "202"[..2] == "20" && "20"[..1] == "2";
  }

  lemma ExampleInterpret()
    ensures Interpret(Groups("january", "15", "2024")) == Some(Date(2024, 1, 15))
  {
    assert !IsDigit("january"[0]);
    assert Lower("january") == "january";
    assert MonthNumber("january") == Some(1);
    ExampleValues();
    assert ParseInt("15") == Some(15);
    assert ParseInt("2024") == Some(2024);
  }

  /** `January 15, 2024` gives 15 January 2024. */
  lemma EnglishDateExample()
    ensures BillingDateOf("january 15, 2024") == Some(Date(2024, 1, 15))
  {
    var t := "january 15, 2024";
    ExampleClean(t);
    OnlyEnglishNamesYield(t);
    ExampleMatch(t);
    CapturesTake(t, EnglishMonthName, 0);
    assert DateCaptures(t, EnglishMonthName, 16) == [];
    ExampleInterpret();
  }

  lemma ExampleClean(t: string)
    requires t == "january 15, 2024" || t == "15 januari 2024"
    ensures CleanText(t) == t
  {
    ExampleNormalised(t);
    CleanTextFixed(t);
  }

  lemma ExampleNormalised(t: string)
    requires t == "january 15, 2024" || t == "15 januari 2024"
    ensures Normalised(t)
  {
    if t == "january 15, 2024" {
      EnglishNormalised();
    } else {
      IndonesianNormalised();
    }
  }

  lemma EnglishNormalised()
    ensures Normalised("january 15, 2024")
  {
    WordNormalised("january");
    JoinNormalised("january", "15,");
    JoinNormalised("january 15,", "2024");
  }

  lemma IndonesianNormalised()
    ensures Normalised("15 januari 2024")
  {
    WordNormalised("15");
    JoinNormalised("15", "januari");
    JoinNormalised("15 januari", "2024");
  }

  /** Lower-case letters, digits and commas: text `clean_text` leaves alone. */
  predicate PlainChar(c: char) {
    'a' <= c <= 'z' || '0' <= c <= '9' || c == ','
  }

  lemma WordNormalised(w: string)
    requires w != [] && forall i :: 0 <= i < |w| ==> PlainChar(w[i])
    ensures Normalised(w)
  {
  }

  lemma JoinNormalised(a: string, w: string)
    requires a != [] && Normalised(a)
    requires w != [] && forall i :: 0 <= i < |w| ==> PlainChar(w[i])
    ensures Normalised(a + " " + w)
  {
    var t := a + " " + w;
    assert forall i :: 0 <= i < |a| ==> t[i] == a[i];
    assert forall i :: |a| < i < |t| ==> t[i] == w[i - |a| - 1];
  }

  /** A literal present at `i` agrees with the text there, character by character. */
  lemma LiteralChars(t: string, i: nat, lit: string)
    ensures LiteralAt(t, i, lit) ==> forall q :: 0 <= q < |lit| ==> LowerChar(t[i + q]) == lit[q]
    ensures LiteralAt(t, i, lit) && |lit| >= 2 ==> LowerChar(t[i]) == lit[0] && LowerChar(t[i + 1]) == lit[1]
    ensures LiteralAt(t, i, lit) && |lit| >= 7 ==> LowerChar(t[i + 6]) == lit[6]
  {
    if LiteralAt(t, i, lit) {
      forall q | 0 <= q < |lit|
        ensures LowerChar(t[i + q]) == lit[q]
      {
        assert Lower(t[i..i + |lit|])[q] == LowerChar(t[i..i + |lit|][q]);
      }
    }
  }

  lemma NoEnglishNameInExample(t: string)
    requires t == "15 januari 2024"
    ensures forall i: nat, k :: 0 <= k < |EnglishMonths| ==> !LiteralAt(t, i, EnglishMonths[k])
  {
    forall i: nat, k | 0 <= k < |EnglishMonths|
      ensures !LiteralAt(t, i, EnglishMonths[k])
    {
      LiteralChars(t, i, EnglishMonths[k]);
    }
  }

  /** `15 Januari 2024` gives no date: the Indonesian pattern matches it, but
      its groups are read as if the month name came first. */
  lemma IndonesianDateExample()
    ensures BillingDateOf("15 januari 2024") == None
  {
    var t := "15 januari 2024";
    ExampleClean(t);
    NoEnglishNameInExample(t);
    NoEnglishNameNoDate(t);
  }
}
