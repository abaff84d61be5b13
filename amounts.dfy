/** `extract_amount` of backend/app/services/email_parser_service.py: the amount
    patterns of the service catalog as explicit matchers, the left-to-right scan
    of `re.finditer`, and the `float(...)` conversion of a capture. */
module Amounts {
  import opened Common
  import opened Text

  /** The three shapes the catalog's amount patterns take. Each ends in a
      capture of one or more of the characters `0-9 , .`, after optional spaces.
      - `CurrencyAmount(true)`: the mark `idr` or `rp`, an optional `.`, spaces, the capture;
        `CurrencyAmount(false)`: the same without the optional dot.
      - `KeywordAmount(w)`: the word `w`, spaces, then `CurrencyAmount(true)`.
      - `SymbolAmount(m)`: the literal mark `m` (`$` or `us$`), spaces, the capture.
      All are matched ignoring case. */
  datatype AmountPattern =
    | CurrencyAmount(optionalDot: bool)
    | KeywordAmount(keyword: string)
    | SymbolAmount(symbol: string)

  predicate IsAmountChar(c: char) {
    IsDigit(c) || c == ',' || c == '.'
  }

  /** The lower-case literal `lit` occurs at `i`, ignoring case. */
  predicate LiteralAt(t: string, i: nat, lit: string) {
    i + |lit| <= |t| && Lower(t[i..i + |lit|]) == lit
  }

  /** The end of the run of spaces starting at `i` (greedy `\s*`). */
  function SkipSpaces(t: string, i: nat): (r: nat)
    requires i <= |t|
    ensures i <= r <= |t|
    ensures forall k :: i <= k < r ==> IsSpace(t[k])
    ensures r == |t| || !IsSpace(t[r])
    decreases |t| - i
  {
    if i < |t| && IsSpace(t[i]) then SkipSpaces(t, i + 1) else i
  }

  /** The end of the run of amount characters starting at `i` (greedy `[0-9,.]*`). */
  function RunEnd(t: string, i: nat): (r: nat)
    requires i <= |t|
    ensures i <= r <= |t|
    ensures forall k :: i <= k < r ==> IsAmountChar(t[k])
    ensures r == |t| || !IsAmountChar(t[r])
    decreases |t| - i
  {
    if i < |t| && IsAmountChar(t[i]) then RunEnd(t, i + 1) else i
  }

  /** The position after an `idr` or `rp` mark at `i`, if there is one. */
  function CurrencyEnd(t: string, i: nat): (r: Option<nat>)
    ensures r.Some? ==> i < r.value <= |t|
  {
    if LiteralAt(t, i, "idr") then Some(i + 3)
    else if LiteralAt(t, i, "rp") then Some(i + 2)
    else None
  }

  /** Spaces and then a non-empty capture, from `j`: the capture's bounds.
      Giving back spaces never helps, since a space cannot start the capture. */
  function Tail(t: string, j: nat): (r: Option<(nat, nat)>)
    requires j <= |t|
    ensures r.Some? ==> j <= r.value.0 < r.value.1 <= |t|
    ensures r.Some? ==> forall k :: r.value.0 <= k < r.value.1 ==> IsAmountChar(t[k])
  {
    var k := SkipSpaces(t, j);
    var e := RunEnd(t, k);
    if k < e then Some((k, e)) else None
  }

  /** An optional dot and then `Tail`. The dot is taken when the rest still
      matches; otherwise the engine backtracks and matches without it, and then
      the capture starts at the dot itself. */
  function DotTail(t: string, j: nat): (r: Option<(nat, nat)>)
    requires j <= |t|
    ensures r.Some? ==> j <= r.value.0 < r.value.1 <= |t|
    ensures r.Some? ==> forall k :: r.value.0 <= k < r.value.1 ==> IsAmountChar(t[k])
  {
    if j < |t| && t[j] == '.' && Tail(t, j + 1).Some? then Tail(t, j + 1) else Tail(t, j)
  }

  /** A match of pattern `p` starting exactly at `i`: the capture's start
      and the match's end (the capture ends the match). */
  function MatchAt(t: string, p: AmountPattern, i: nat): (r: Option<(nat, nat)>)
    requires i <= |t|
    ensures r.Some? ==> i <= r.value.0 < r.value.1 <= |t|
    ensures r.Some? ==> forall k :: r.value.0 <= k < r.value.1 ==> IsAmountChar(t[k])
  {
    match p
    case CurrencyAmount(optionalDot) =>
      (match CurrencyEnd(t, i)
       case None => None
       case Some(j) => if optionalDot then DotTail(t, j) else Tail(t, j))
    case KeywordAmount(w) =>
      if LiteralAt(t, i, w) then
        match CurrencyEnd(t, SkipSpaces(t, i + |w|))
        case None => None
        case Some(j) => DotTail(t, j)
      else None
    case SymbolAmount(m) =>
      if LiteralAt(t, i, m) then Tail(t, i + |m|) else None
  }

  /** The captures `re.finditer` reports from position `i` on: the leftmost match,
      then the search resumes where that match ended. */
  function Captures(t: string, p: AmountPattern, i: nat): seq<string>
    requires i <= |t|
    decreases |t| - i
  {
    if i == |t| then []
    else
      match MatchAt(t, p, i)
      case Some((c, e)) => [t[c..e]] + Captures(t, p, e)
      case None => Captures(t, p, i + 1)
  }

  /** A non-empty run of amount characters. */
  predicate AmountCapture(c: string) {
    |c| > 0 && forall k :: 0 <= k < |c| ==> IsAmountChar(c[k])
  }

  /** Each capture is a non-empty run of amount characters. */
  lemma {:induction false} CapturesShape(t: string, p: AmountPattern, i: nat)
    requires i <= |t|
    ensures forall j :: 0 <= j < |Captures(t, p, i)| ==> AmountCapture(Captures(t, p, i)[j])
    decreases |t| - i
  {
    if i < |t| {
      match MatchAt(t, p, i)
      case Some((c, e)) =>
        CapturesShape(t, p, e);
        ShapeCons(t[c..e], Captures(t, p, e));
      case None =>
        CapturesShape(t, p, i + 1);
    }
  }

  lemma ShapeCons(c: string, rest: seq<string>)
    requires AmountCapture(c)
    requires forall j :: 0 <= j < |rest| ==> AmountCapture(rest[j])
    ensures forall j :: 0 <= j < |[c] + rest| ==> AmountCapture(([c] + rest)[j])
  {
  }

  /** `re.sub(r'[^\d.,]', '', s).replace(',', '')`: the digits and dots of `s`, in order. */
  function Normalize(s: string): (r: string)
    ensures |r| <= |s|
    ensures forall k :: 0 <= k < |r| ==> IsDigit(r[k]) || r[k] == '.'
  {
    if s == [] then []
    else
      var rest := Normalize(s[1..]);
      if IsDigit(s[0]) || s[0] == '.' then [s[0]] + rest else rest
  }

  predicate HasDigit(s: string) {
    exists k :: 0 <= k < |s| && IsDigit(s[k])
  }

  predicate AtMostOneDot(s: string) {
    forall i, j :: 0 <= i < j < |s| && s[i] == '.' ==> s[j] != '.'
  }

  /** The index of the first dot of `s`. */
  function FirstDot(s: string): (r: Option<nat>)
    ensures r.Some? ==> r.value < |s| && s[r.value] == '.' && forall k :: 0 <= k < r.value ==> s[k] != '.'
    ensures r.None? ==> forall k :: 0 <= k < |s| ==> s[k] != '.'
  {
    if s == [] then None
    else if s[0] == '.' then Some(0)
    else match FirstDot(s[1..])
      case None => None
      case Some(k) => Some(k + 1)
  }

  /** `float(s)` on a string of digits and dots: an integer part, at most one
      dot and a fraction, with at least one digit altogether. */
  function ParseDecimal(s: string): (r: Option<real>)
    requires forall k :: 0 <= k < |s| ==> IsDigit(s[k]) || s[k] == '.'
    ensures r.Some? ==> r.value >= 0.0
  {
    match FirstDot(s)
    case None =>
      if s == [] then None else Some(DigitsValue(s) as real)
    case Some(k) =>
      var whole := s[..k];
      var fraction := s[k + 1..];
      if (forall j :: 0 <= j < |fraction| ==> IsDigit(fraction[j])) && |whole| + |fraction| > 0 then
        Some(DecimalValue(whole, fraction))
      else None
  }

  /** The number written with integer digits `whole` and fraction digits `fraction`. */
  function DecimalValue(whole: string, fraction: string): (v: real)
    requires forall j :: 0 <= j < |whole| ==> IsDigit(whole[j])
    requires forall j :: 0 <= j < |fraction| ==> IsDigit(fraction[j])
    ensures v >= 0.0
  {
    var n := DigitsValue(fraction) as real;
    var d := Pow10(|fraction|) as real;
    QuotientNonNegative(n, d);
    DigitsValue(whole) as real + n / d
  }

  lemma QuotientNonNegative(n: real, d: real)
    requires n >= 0.0 && d > 0.0
    ensures n / d >= 0.0
  {
  }

  /** `float` accepts exactly the strings with a digit and at most one dot. */
  lemma ParseDecimalIff(s: string)
    requires forall k :: 0 <= k < |s| ==> IsDigit(s[k]) || s[k] == '.'
    ensures ParseDecimal(s).Some? <==> HasDigit(s) && AtMostOneDot(s)
  {
    match FirstDot(s)
    case None =>
      if s != [] {
        assert IsDigit(s[0]);
      }
    case Some(k) =>
      var whole := s[..k];
      var fraction := s[k + 1..];
      if forall j :: 0 <= j < |fraction| ==> IsDigit(fraction[j]) {
        assert AtMostOneDot(s) by {
          forall i, j | 0 <= i < j < |s| && s[i] == '.'
            ensures s[j] != '.'
          {
            assert i == k;
            assert fraction[j - k - 1] == s[j];
          }
        }
        if |whole| > 0 {
          assert IsDigit(s[0]);
        } else if |fraction| > 0 {
          assert IsDigit(s[k + 1]);
        } else {
          assert |s| == 1 && s[0] == '.';
        }
      } else {
        var j :| 0 <= j < |fraction| && !IsDigit(fraction[j]);
        assert s[k + 1 + j] == '.';
      }
  }

  /** What `float(...)` makes of a capture after the clean-up, or None for a ValueError. */
  function ParseAmount(cap: string): (r: Option<real>)
    ensures r.Some? ==> r.value >= 0.0
  {
    ParseDecimal(Normalize(cap))
  }

  function DotCount(s: string): nat {
    if s == [] then 0 else (if s[0] == '.' then 1 else 0) + DotCount(s[1..])
  }

  lemma {:induction false} NoDotCount(s: string)
    ensures DotCount(s) == 0 <==> forall k :: 0 <= k < |s| ==> s[k] != '.'
    decreases |s|
  {
    if s != [] {
      NoDotCount(s[1..]);
      assert forall k :: 0 < k < |s| ==> s[k] == s[1..][k - 1];
    }
  }

  lemma {:induction false} AtMostOneDotCount(s: string)
    ensures AtMostOneDot(s) <==> DotCount(s) <= 1
    decreases |s|
  {
    if s != [] {
      var r := s[1..];
      AtMostOneDotCount(r);
      NoDotCount(r);
      assert forall k :: 0 < k < |s| ==> s[k] == r[k - 1];
      if s[0] == '.' && DotCount(r) > 0 {
        var k :| 0 <= k < |r| && r[k] == '.';
        assert s[k + 1] == '.';
      }
      if AtMostOneDot(s) {
        assert AtMostOneDot(r) by {
          forall i, j | 0 <= i < j < |r| && r[i] == '.'
            ensures r[j] != '.'
          {
            assert s[i + 1] == '.';
          }
        }
      }
    }
  }

  /** Removing the other characters keeps every digit and every dot. */
  lemma {:induction false} NormalizeKeepsDigitsAndDots(s: string)
    ensures DotCount(Normalize(s)) == DotCount(s)
    ensures HasDigit(Normalize(s)) <==> HasDigit(s)
    decreases |s|
  {
    if s != [] {
      var r := s[1..];
      NormalizeKeepsDigitsAndDots(r);
      var n := Normalize(r);
      assert forall k :: 0 < k < |s| ==> s[k] == r[k - 1];
      if HasDigit(s) && !IsDigit(s[0]) {
        var k :| 0 <= k < |s| && IsDigit(s[k]);
        assert IsDigit(r[k - 1]);
      }
      if IsDigit(s[0]) || s[0] == '.' {
        var m := [s[0]] + n;
        assert m[1..] == n;
        assert forall k :: 0 < k < |m| ==> m[k] == n[k - 1];
        if HasDigit(n) {
          var k :| 0 <= k < |n| && IsDigit(n[k]);
          assert IsDigit(m[k + 1]);
        }
        if HasDigit(r) {
          var k :| 0 <= k < |r| && IsDigit(r[k]);
          assert IsDigit(s[k + 1]);
        }
      } else {
        if HasDigit(r) {
          var k :| 0 <= k < |r| && IsDigit(r[k]);
          assert IsDigit(s[k + 1]);
        }
      }
    }
  }

  /** A capture parses exactly when it holds at least one digit and at most one dot. */
  lemma ParseAmountIff(cap: string)
    ensures ParseAmount(cap).Some? <==> HasDigit(cap) && DotCount(cap) <= 1
  {
    ParseDecimalIff(Normalize(cap));
    NormalizeKeepsDigitsAndDots(cap);
    AtMostOneDotCount(Normalize(cap));
  }

  /** The first capture that parses. */
  function FirstParse(caps: seq<string>): (r: Option<real>)
    ensures r.Some? ==> r.value >= 0.0
  {
    if caps == [] then None
    else if ParseAmount(caps[0]).Some? then ParseAmount(caps[0])
    else FirstParse(caps[1..])
  }

  /** A result is the parse of the first capture that parses (every earlier one
      fails), and there is none exactly when no capture parses. */
  lemma {:induction false} FirstParseSpec(caps: seq<string>)
    ensures FirstParse(caps).Some? ==>
              exists j :: 0 <= j < |caps| && ParseAmount(caps[j]) == FirstParse(caps)
                          && forall i :: 0 <= i < j ==> ParseAmount(caps[i]).None?
    ensures FirstParse(caps).None? <==> forall j :: 0 <= j < |caps| ==> ParseAmount(caps[j]).None?
    decreases |caps|
  {
    if caps != [] && ParseAmount(caps[0]).Some? {
      assert ParseAmount(caps[0]) == FirstParse(caps);
    }
    if caps != [] && ParseAmount(caps[0]).None? {
      FirstParseSpec(caps[1..]);
      TailIndices(caps);
      if FirstParse(caps).Some? {
        var j :| 0 <= j < |caps[1..]| && ParseAmount(caps[1..][j]) == FirstParse(caps[1..])
                 && forall i :: 0 <= i < j ==> ParseAmount(caps[1..][i]).None?;
        assert ParseAmount(caps[j + 1]) == FirstParse(caps);
        forall i | 0 <= i < j + 1
          ensures ParseAmount(caps[i]).None?
        {
          if i > 0 {
            assert caps[i] == caps[1..][i - 1];
          }
        }
      }
    }
  }

  /** The first capture of pattern `p` in `t` that parses. */
  function PatternAmount(t: string, p: AmountPattern): Option<real> {
    FirstParse(Captures(t, p, 0))
  }

  /** `extract_amount(text, patterns)`: the patterns in list order, each scanned
      left to right; the first capture that parses wins. */
  function AmountIn(t: string, patterns: seq<AmountPattern>): Option<real>
    decreases |patterns|
  {
    if patterns == [] then None
    else
      var r := PatternAmount(t, patterns[0]);
      if r.Some? then r else AmountIn(t, patterns[1..])
  }

  /** A result is the amount of the first pattern that has one: every earlier
      pattern has none. */
  lemma {:induction false} AmountInFirst(t: string, patterns: seq<AmountPattern>)
    requires AmountIn(t, patterns).Some?
    ensures exists k :: 0 <= k < |patterns| && PatternAmount(t, patterns[k]) == AmountIn(t, patterns)
                        && forall i :: 0 <= i < k ==> PatternAmount(t, patterns[i]).None?
    decreases |patterns|
  {
    var rest := patterns[1..];
    if PatternAmount(t, patterns[0]).None? {
      AmountInFirst(t, rest);
      var k :| 0 <= k < |rest| && PatternAmount(t, rest[k]) == AmountIn(t, rest)
               && forall i :: 0 <= i < k ==> PatternAmount(t, rest[i]).None?;
      TailIndices(patterns);
      assert PatternAmount(t, patterns[k + 1]) == AmountIn(t, patterns);
    }
  }

  /** Dropping the head shifts every index down by one. */
  lemma TailIndices<T>(s: seq<T>)
    requires s != []
    ensures forall i :: 0 < i < |s| ==> s[i] == s[1..][i - 1]
  {
  }

  /** There is no result exactly when no capture of any pattern parses. */
  lemma {:induction false} AmountInNone(t: string, patterns: seq<AmountPattern>)
    ensures AmountIn(t, patterns).None? <==>
              forall k :: 0 <= k < |patterns| ==> PatternAmount(t, patterns[k]).None?
    decreases |patterns|
  {
    if patterns != [] {
      AmountInNone(t, patterns[1..]);
      TailIndices(patterns);
    }
  }

  /** The loops of `extract_amount`, returning at the first capture that parses. */
  method ExtractAmount(text: string, patterns: seq<AmountPattern>) returns (r: Option<real>)
    ensures r == AmountIn(text, patterns)
  {
    for k := 0 to |patterns|
      invariant AmountIn(text, patterns) == AmountIn(text, patterns[k..])
    {
      assert patterns[k..][1..] == patterns[k + 1..];
      var caps := Captures(text, patterns[k], 0);
      assert PatternAmount(text, patterns[k]) == FirstParse(caps);
      for j := 0 to |caps|
        invariant FirstParse(caps) == FirstParse(caps[j..])
      {
        var amount := ParseAmount(caps[j]);
        if amount.Some? {
          return amount;
        }
        assert caps[j..][1..] == caps[j + 1..];
      }
      assert caps[|caps|..] == [];
    }
    assert patterns[|patterns|..] == [];
    return None;
  }

  lemma NormalizeDropsCommas()
    ensures Normalize("1,500,000") == "1500000"
  {
    var s := "1,500,000";
    assert s[1..] == ",500,000" && s[1..][1..] == "500,000";
    assert Normalize(",000") == "000";
  }

  lemma SevenDigits()
    ensures FirstDot("1500000") == None
    ensures DigitsValue("1500000") == 1500000
  {
    var d := "1500000";
    assert FirstDot(d[1..][1..][1..]) == None;
    assert d[..6] == "150000" && d[..6][..5] == "15000" && d[..6][..5][..4] == "1500";
    assert "1500"[..3] == "150" && "150"[..2] == "15" && "15"[..1] == "1";
    assert DigitsValue("15") == 15;
    assert DigitsValue("1500") == 1500;
  }

  /** Commas are thousands separators: `1,500,000` parses as 1500000. */
  lemma ThousandsSeparators()
    ensures ParseAmount("1,500,000") == Some(1500000.0)
  {
    NormalizeDropsCommas();
    SevenDigits();
  }

  /** The first rupiah pattern on `rp 1,500,000` yields 1500000. */
  lemma RupiahWithCommas()
    ensures AmountIn("rp 1,500,000", [CurrencyAmount(true)]) == Some(1500000.0)
  {
    var t := "rp 1,500,000";
    assert Lower(t[0..3])[0] == 'r';
    assert LiteralAt(t, 0, "rp") && !LiteralAt(t, 0, "idr");
    assert Tail(t, 2) == Some((3, 12));
    assert MatchAt(t, CurrencyAmount(true), 0) == Some((3, 12));
    assert t[3..12] == "1,500,000";
    ThousandsSeparators();
    assert Captures(t, CurrencyAmount(true), 0) == ["1,500,000"] + Captures(t, CurrencyAmount(true), 12);
  }

  /** Clean-up leaves a string of digits and dots as it is. */
  lemma {:induction false} NormalizeKeeps(s: string)
    requires forall k :: 0 <= k < |s| ==> IsDigit(s[k]) || s[k] == '.'
    ensures Normalize(s) == s
    decreases |s|
  {
    if s != [] {
      NormalizeKeeps(s[1..]);
    }
  }

  /** A string with one dot and digits after it reads as whole part plus fraction. */
  lemma DecimalParts(s: string, k: nat)
    requires forall i :: 0 <= i < |s| ==> IsDigit(s[i]) || s[i] == '.'
    requires FirstDot(s) == Some(k)
    requires forall j :: k < j < |s| ==> IsDigit(s[j])
    requires k > 0
    ensures ParseDecimal(s) == Some(DecimalValue(s[..k], s[k + 1..]))
  {
    var fraction := s[k + 1..];
    assert forall j :: 0 <= j < |fraction| ==> IsDigit(fraction[j]) by {
      forall j | 0 <= j < |fraction| ensures IsDigit(fraction[j]) {
        assert fraction[j] == s[k + 1 + j];
      }
    }
  }

  /** A dot between two runs of digits is a decimal point. */
  lemma DecimalPoint(w: string, f: string)
    requires |w| > 0
    requires forall i :: 0 <= i < |w| ==> IsDigit(w[i])
    requires forall i :: 0 <= i < |f| ==> IsDigit(f[i])
    ensures ParseAmount(w + "." + f) == Some(DecimalValue(w, f))
  {
    var s := w + "." + f;
    assert forall i :: 0 <= i < |w| ==> s[i] == w[i];
    assert forall i :: |w| < i < |s| ==> s[i] == f[i - |w| - 1];
    NormalizeKeeps(s);
    assert FirstDot(s) == Some(|w|) by {
      assert s[|w|] == '.';
    }
    DecimalParts(s, |w|);
    assert s[..|w|] == w && s[|w| + 1..] == f;
  }

  /** A dot is a decimal point: `54.000` parses as 54, not 54000. */
  lemma DotIsDecimalPoint()
    ensures ParseAmount("54.000") == Some(54.0)
  {
    assert "54.000" == "54" + "." + "000";
    DecimalPoint("54", "000");
    assert DigitsValue("54") == 54;
    assert DigitsValue("000") == 0;
    assert DecimalValue("54", "000") == 54.0;
  }

  /** A capture of digits and dots with two dots does not parse. */
  lemma TwoDotsRejected(s: string, i: nat, j: nat)
    requires forall k :: 0 <= k < |s| ==> IsDigit(s[k]) || s[k] == '.'
    requires i < j < |s| && s[i] == '.' && s[j] == '.'
    ensures ParseAmount(s) == None
  {
    NormalizeKeeps(s);
    ParseDecimalIff(s);
  }

  /** Two dots make a capture fail to parse, so it is skipped. */
  lemma TwoDotsSkipped()
    ensures ParseAmount("54.000.000") == None
  {
    TwoDotsRejected("54.000.000", 2, 6);
  }

  /** The first rupiah pattern on `rp 54.000` yields 54. */
  lemma RupiahWithDot()
    ensures AmountIn("rp 54.000", [CurrencyAmount(true)]) == Some(54.0)
  {
    var t := "rp 54.000";
    assert Lower(t[0..3])[0] == 'r';
    assert LiteralAt(t, 0, "rp") && !LiteralAt(t, 0, "idr");
    assert Tail(t, 2) == Some((3, 9));
    assert MatchAt(t, CurrencyAmount(true), 0) == Some((3, 9));
    assert t[3..9] == "54.000";
    DotIsDecimalPoint();
    assert Captures(t, CurrencyAmount(true), 0) == ["54.000"] + Captures(t, CurrencyAmount(true), 9);
  }
}
