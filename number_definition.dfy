// NC number formats: the integer and floating-point word definitions that
// validate the digits of an NC word, convert them, and range-check the
// value. The C library conversions behind them (atoi, itoa, strtod) are
// given their exact decimal meaning on the strings that reach them.
module NumberDefinition {
  import opened MacroValues

  // ---------------------------------------------------------------------
  // Characters and digit strings.

  predicate IsDigit(c: char) {
    '0' <= c <= '9'
  }

  predicate IsSign(c: char) {
    c == '+' || c == '-'
  }

  /** The value of one decimal digit. */
  function DigitValue(c: char): (r: nat)
    requires IsDigit(c)
    ensures r < 10
  {
    c as int - '0' as int
  }

  function DigitChar(d: nat): (c: char)
    requires d < 10
    ensures IsDigit(c) && DigitValue(c) == d
  {
    ('0' as int + d) as char
  }

  /** How often `c` occurs in `s`. */
  function Occurrences(s: string, c: char): nat {
    if |s| == 0 then 0
    else Occurrences(s[..|s| - 1], c) + (if s[|s| - 1] == c then 1 else 0)
  }

  /** The signs in `s`. */
  function SignCount(s: string): nat {
    Occurrences(s, '+') + Occurrences(s, '-')
  }

  /** The digits of `s`, in order. */
  function Digits(s: string): (r: string)
    ensures |r| <= |s|
  {
    if |s| == 0 then []
    else Digits(s[..|s| - 1]) + (if IsDigit(s[|s| - 1]) then [s[|s| - 1]] else [])
  }

  /** The digits of `s` other than '0'. */
  function NonZeroCount(s: string): nat {
    if |s| == 0 then 0
    else NonZeroCount(s[..|s| - 1]) + (if '1' <= s[|s| - 1] <= '9' then 1 else 0)
  }

  predicate AllDigits(s: string) {
    forall k :: 0 <= k < |s| ==> IsDigit(s[k])
  }

  /** The number a digit string spells, most significant digit first. */
  function DigitsValue(s: string): nat
    requires AllDigits(s)
  {
    if |s| == 0 then 0
    else DigitsValue(s[..|s| - 1]) * 10 + DigitValue(s[|s| - 1])
  }

  /** The shortest decimal spelling of `n`. */
  function NaturalString(n: nat): (r: string)
    ensures 1 <= |r| && AllDigits(r)
    ensures DigitsValue(r) == n
    ensures r[0] == '0' ==> n == 0
  {
    if n < 10 then [DigitChar(n)]
    else
      var r := NaturalString(n / 10) + [DigitChar(n % 10)];
      assert r[..|r| - 1] == NaturalString(n / 10);
      r
  }

  /** Leading zeros do not change a digit string's value. */
  lemma {:induction false} ZerosAddNothing(z: nat, s: string)
    requires AllDigits(s)
    ensures AllDigits(Zeros(z) + s)
    ensures DigitsValue(Zeros(z) + s) == DigitsValue(s)
    decreases |s|
  {
    var t := Zeros(z) + s;
    if |s| == 0 {
      assert t == Zeros(z);
      ZerosAreZero(z);
    } else {
      assert t[..|t| - 1] == Zeros(z) + s[..|s| - 1];
      ZerosAddNothing(z, s[..|s| - 1]);
    }
  }

  function Zeros(z: nat): (r: string)
    ensures |r| == z && AllDigits(r)
  {
    seq(z, _ => '0')
  }

  lemma {:induction false} ZerosAreZero(z: nat)
    ensures DigitsValue(Zeros(z)) == 0
  {
    if z > 0 {
      assert Zeros(z)[..z - 1] == Zeros(z - 1);
      ZerosAreZero(z - 1);
    }
  }

  /** What `atoi` yields on an optional sign followed by digits. */
  function SignedValue(s: string): int
    requires |s| > 0 && IsSign(s[0]) ==> AllDigits(s[1..])
    requires |s| == 0 || !IsSign(s[0]) ==> AllDigits(s)
  {
    if |s| > 0 && s[0] == '-' then -(DigitsValue(s[1..]) as int)
    else if |s| > 0 && s[0] == '+' then DigitsValue(s[1..])
    else DigitsValue(s)
  }

  /** What `_itoa_s(value, buffer, 32, 10)` writes. */
  function IntegerText(v: int): (r: string)
    ensures |r| >= 1
  {
    if v < 0 then "-" + NaturalString(-v) else NaturalString(v)
  }

  // ---------------------------------------------------------------------
  // IntegerNumberDefinition.

  /** The integer word format: digit-count and value bounds, and whether
      output is padded with leading zeros. */
  datatype IntegerFormat = IntegerFormat(
    digitMax: nat,
    digitMin: nat,
    valueMax: int,
    valueMin: int,
    outputLeadZero: bool)
  {
    /** ValueCheck: the value lies in [valueMin, valueMax]. Both bounds are
        inclusive, and an inverted range admits nothing. */
    predicate ValueCheck(v: int)
      ensures ValueCheck(v) ==> valueMin <= valueMax
      ensures v == valueMin || v == valueMax ==> (ValueCheck(v) <==> valueMin <= valueMax)
    {
      valueMin <= v <= valueMax
    }
  }

  /** The characters StringToInteger accepts at all. */
  predicate IntegerCharacters(s: string) {
    forall k :: 0 <= k < |s| ==> IsDigit(s[k]) || IsSign(s[k])
  }

  /** StringToInteger's verdict: the empty word stands for the minimum when
      no digits are required; otherwise digits with at most one sign, in
      front, a digit count within bounds and a value within bounds. */
  function ParseInteger(f: IntegerFormat, s: string): Option<int> {
    if |s| == 0 then
      if f.digitMin != 0 then None else Some(f.valueMin)
    else if !IntegerCharacters(s) then None
    else if SignCount(s) > 1 || (SignCount(s) == 1 && !IsSign(s[0])) then None
    else if |Digits(s)| < f.digitMin || |Digits(s)| > f.digitMax then None
    else
      SignedShape(s);
      var n := SignedValue(s);
      if f.ValueCheck(n) then Some(n) else None
  }

  /** A string of digits and signs whose only sign is in front is a sign
      followed by digits. */
  lemma SignedShape(s: string)
    requires |s| > 0 && IntegerCharacters(s)
    requires SignCount(s) == 0 || (SignCount(s) == 1 && IsSign(s[0]))
    ensures IsSign(s[0]) ==> AllDigits(s[1..])
    ensures !IsSign(s[0]) ==> AllDigits(s)
  {
    forall k | 0 <= k < |s| && (k > 0 || !IsSign(s[0]))
      ensures IsDigit(s[k])
    {
      if IsSign(s[k]) {
        SignsInside(s, k);
      }
    }
  }

  /** A sign at `k` counts once, and one in front of it once more. */
  lemma {:induction false} SignsInside(s: string, k: nat)
    requires k < |s| && IsSign(s[k])
    ensures SignCount(s) >= 1
    ensures k > 0 && IsSign(s[0]) ==> SignCount(s) >= 2
  {
    OccurrencesSplit(s[..k], s[k..], '+');
    OccurrencesSplit(s[..k], s[k..], '-');
    assert s[..k] + s[k..] == s;
    OccurrencesFirst(s[k..], '+');
    OccurrencesFirst(s[k..], '-');
    if k > 0 {
      OccurrencesFirst(s[..k], '+');
      OccurrencesFirst(s[..k], '-');
    }
  }

  lemma {:induction false} OccurrencesSplit(a: string, b: string, c: char)
    ensures Occurrences(a + b, c) == Occurrences(a, c) + Occurrences(b, c)
    decreases |b|
  {
    if |b| > 0 {
      assert (a + b)[..|a + b| - 1] == a + b[..|b| - 1];
      OccurrencesSplit(a, b[..|b| - 1], c);
    } else {
      assert a + b == a;
    }
  }

  lemma OccurrencesFirst(s: string, c: char)
    requires |s| > 0
    ensures Occurrences(s, c) >= (if s[0] == c then 1 else 0)
  {
    OccurrencesSplit([s[0]], s[1..], c);
    assert [s[0]] + s[1..] == s;
    assert [s[0]][..0] == [];
  }

  /** StringToInteger: counts the digit kinds and signs in one pass, then
      checks sign placement, digit count and value. On failure `value`
      keeps what the caller passed. */
  method StringToInteger(f: IntegerFormat, s: string, prior: int) returns (ok: bool, value: int)
    ensures ok <==> ParseInteger(f, s).Some?
    ensures ok ==> value == ParseInteger(f, s).value
    ensures !ok ==> value == prior
  {
    if |s| == 0 {
      if f.digitMin != 0 {
        return false, prior;
      }
      return true, f.valueMin;
    }
    var plusMinusCount := 0;
    var zeroCount := 0;
    var nonZeroCount := 0;
    var digitCount := 0;
    var i := 0;
    while i != |s|
      invariant 0 <= i <= |s|
      invariant IntegerCharacters(s[..i])
      invariant plusMinusCount == SignCount(s[..i])
      invariant digitCount == |Digits(s[..i])|
      invariant nonZeroCount == NonZeroCount(s[..i])
    {
      var ch := s[i];
      assert s[..i + 1][..i] == s[..i];
      if '1' <= ch <= '9' {
        nonZeroCount := nonZeroCount + 1;
        digitCount := digitCount + 1;
      } else if ch == '0' {
        zeroCount := zeroCount + 1;
        digitCount := digitCount + 1;
      } else if ch == '+' || ch == '-' {
        plusMinusCount := plusMinusCount + 1;
      } else {
        assert !IntegerCharacters(s) by {
          assert !(IsDigit(s[i]) || IsSign(s[i]));
        }
        return false, prior;
      }
      i := i + 1;
    }
    assert s[..i] == s;
    if plusMinusCount != 0 {
      if plusMinusCount > 1 {
        return false, prior;
      }
      if s[0] != '+' && s[0] != '-' {
        return false, prior;
      }
    }
    if digitCount < f.digitMin || digitCount > f.digitMax {
      return false, prior;
    }
    SignedShape(s);
    var number := SignedValue(s);
    if f.ValueCheck(number) {
      return true, number;
    }
    return false, prior;
  }

  /** IntegerToString as written: the value is range-checked, rendered,
      and the rendered LENGTH (sign included) checked against the digit
      bounds; a non-negative value shorter than digitMax is zero-padded. */
  function IntegerToStringAsWritten(f: IntegerFormat, v: int): (r: Option<string>)
    ensures r.Some? ==> f.ValueCheck(v) && f.digitMin <= |r.value| <= f.digitMax
  {
    if !f.ValueCheck(v) then None
    else
      var text := IntegerText(v);
      if |text| < f.digitMin || |text| > f.digitMax then None
      else if f.outputLeadZero && v > -1 && |text| < f.digitMax then Some(Zeros(f.digitMax - |text|) + text)
      else Some(text)
  }

  /** The digit count of the rendered value, sign excluded. */
  function DigitLength(v: int): (n: nat)
    ensures n == |Digits(IntegerText(v))|
  {
    DigitsOfDigits(NaturalString(if v < 0 then -v else v));
    if v < 0 then
      DigitsAfterSign(NaturalString(-v));
      |NaturalString(-v)|
    else |NaturalString(v)|
  }

  lemma {:induction false} DigitsOfDigits(s: string)
    requires AllDigits(s)
    ensures Digits(s) == s
  {
    if |s| > 0 {
      DigitsOfDigits(s[..|s| - 1]);
    }
  }

  lemma DigitsAfterSign(s: string)
    requires AllDigits(s)
    ensures Digits("-" + s) == Digits(s)
  {
    DigitsSplit("-", s);
  }

  lemma {:induction false} DigitsSplit(a: string, b: string)
    ensures Digits(a + b) == Digits(a) + Digits(b)
    decreases |b|
  {
    if |b| > 0 {
      assert (a + b)[..|a + b| - 1] == a + b[..|b| - 1];
      DigitsSplit(a, b[..|b| - 1]);
    } else {
      assert a + b == a;
    }
  }

  /** IntegerToString with the digit bounds applied to the digits, as
      StringToInteger counts them: every value it renders reads back. */
  function IntegerToString(f: IntegerFormat, v: int): (r: Option<string>)
    ensures r.Some? ==> ParseInteger(f, r.value) == Some(v)
    ensures r.Some? <==> f.ValueCheck(v) && f.digitMin <= DigitLength(v) <= f.digitMax
    ensures r.Some? && f.outputLeadZero && v >= 0 ==> |r.value| == f.digitMax
  {
    if !f.ValueCheck(v) then None
    else
      var text := IntegerText(v);
      var digits := DigitLength(v);
      if digits < f.digitMin || digits > f.digitMax then None
      else if f.outputLeadZero && v > -1 && |text| < f.digitMax then
        var padded := Zeros(f.digitMax - |text|) + text;
        PaddedReadsBack(f, v, padded);
        Some(padded)
      else
        TextReadsBack(f, v);
        Some(text)
  }

  /** The plain rendering of an in-range value parses back to it. */
  lemma TextReadsBack(f: IntegerFormat, v: int)
    requires f.ValueCheck(v) && f.digitMin <= DigitLength(v) <= f.digitMax
    ensures ParseInteger(f, IntegerText(v)) == Some(v)
  {
    var text := IntegerText(v);
    if v < 0 {
      var n := NaturalString(-v);
      assert text[0] == '-' && text[1..] == n;
      DigitsAfterSign(n);
      assert IntegerCharacters(text);
      SignsOfDigits(n);
      OccurrencesSplit("-", n, '+');
      OccurrencesSplit("-", n, '-');
      assert Occurrences("-", '+') == 0 by { assert "-"[..0] == []; }
      assert Occurrences("-", '-') == 1 by { assert "-"[..0] == []; }
    } else {
      SignsOfDigits(text);
      DigitsOfDigits(text);
    }
  }

  /** The zero-padded rendering of a non-negative value parses back to it. */
  lemma PaddedReadsBack(f: IntegerFormat, v: int, padded: string)
    requires v >= 0 && f.ValueCheck(v) && f.digitMin <= DigitLength(v) <= f.digitMax
    requires |IntegerText(v)| < f.digitMax
    requires padded == Zeros(f.digitMax - |IntegerText(v)|) + IntegerText(v)
    ensures ParseInteger(f, padded) == Some(v)
  {
    var text := IntegerText(v);
    ZerosAddNothing(f.digitMax - |text|, text);
    SignsOfDigits(padded);
    DigitsOfDigits(padded);
  }

  lemma {:induction false} SignsOfDigits(s: string)
    requires AllDigits(s)
    ensures SignCount(s) == 0
  {
    if |s| > 0 {
      SignsOfDigits(s[..|s| - 1]);
    }
  }

  /** The as-written check counts the sign as a digit: with digitMin 2,
      -5 is rendered as "-5", which StringToInteger then refuses for having
      one digit. */
  lemma NegativeRenderingDoesNotReadBack()
    ensures var f := IntegerFormat(5, 2, 100, -100, false);
            IntegerToStringAsWritten(f, -5) == Some("-5")
            && ParseInteger(f, "-5") == None
  {
    var f := IntegerFormat(5, 2, 100, -100, false);
    assert NaturalString(5) == "5";
    assert IntegerText(-5) == "-5";
    assert Digits("-5") == "5" by {
      assert "-5"[..1] == "-";
      assert "-"[..0] == [];
    }
  }

  // ---------------------------------------------------------------------
  // FloatNumberDefinition.

  /** The floating-point word format. */
  datatype FloatFormat = FloatFormat(
    leadZero: bool,
    calculatorTypeDecimal: bool,
    digitMax: nat,
    digitMin: nat,
    valueMax: real,
    valueMin: real,
    leastIncrement: real)
  {
    /** ValueCheck: 0 always passes; otherwise |v| lies in [valueMin, valueMax],
        so with a non-negative minimum the admitted values are 0 and two
        intervals mirrored about 0, and otherwise 0 and [-valueMax, valueMax]. */
    predicate ValueCheck(v: real)
      ensures 0.0 <= valueMin ==> (ValueCheck(v) <==> v == 0.0 || valueMin <= v <= valueMax || -valueMax <= v <= -valueMin)
      ensures valueMin < 0.0 ==> (ValueCheck(v) <==> v == 0.0 || -valueMax <= v <= valueMax)
    {
      v == 0.0 || (valueMin <= (if v < 0.0 then -v else v) <= valueMax)
    }
  }

  /** The fractional digits an increment admits: 3, 4 or 2 for 0.001,
      0.0001 and 0.01; any other increment is refused. */
  function IncrementDigits(increment: real): (r: Option<nat>)
    ensures r.Some? ==> 2 <= r.value <= 4
  {
    if increment == 0.001 then Some(3)
    else if increment == 0.0001 then Some(4)
    else if increment == 0.01 then Some(2)
    else None
  }

  function Power10(n: nat): (r: nat)
    ensures r >= 1
  {
    if n == 0 then 1 else 10 * Power10(n - 1)
  }

  lemma {:induction false} Power10Add(a: nat, b: nat)
    ensures Power10(a + b) == Power10(a) * Power10(b)
    decreases b
  {
    if b > 0 {
      Power10Add(a, b - 1);
      assert Power10(a + b) == 10 * Power10(a + b - 1);
    }
  }

  /** The index of the first '.', or |s| when there is none. */
  function DotIndex(s: string): (d: nat)
    ensures d <= |s|
    ensures d < |s| ==> s[d] == '.'
  {
    if |s| == 0 then 0
    else
      var d := DotIndex(s[..|s| - 1]);
      if d < |s| - 1 then d
      else if s[|s| - 1] == '.' then |s| - 1
      else |s|
  }

  /** The digits before the decimal point. */
  function IntegerDigits(s: string): string {
    Digits(s[..DotIndex(s)])
  }

  /** The digits after the decimal point. */
  function FractionDigits(s: string): string {
    if DotIndex(s) < |s| then Digits(s[DotIndex(s) + 1..]) else []
  }

  /** Zeros in front of the first nonzero digit. */
  function ZeroPrefix(s: string): (n: nat)
    ensures n <= |s|
  {
    if |s| == 0 || s[0] != '0' then 0 else 1 + ZeroPrefix(s[1..])
  }

  /** Zeros behind the last nonzero digit. */
  function ZeroSuffix(s: string): (n: nat)
    ensures n <= |s|
  {
    if |s| == 0 || s[|s| - 1] != '0' then 0 else 1 + ZeroSuffix(s[..|s| - 1])
  }

  /** The characters VerifyString accepts: digits, points, and a sign in
      front only. */
  predicate FloatCharacters(s: string) {
    forall k :: 0 <= k < |s| ==> IsDigit(s[k]) || s[k] == '.' || (k == 0 && IsSign(s[k]))
  }

  /** The significant fractional digits of a verified string, or None when
      the increment refuses them. */
  function TrailDigits(f: FloatFormat, s: string, lead: nat): Option<nat> {
    if Occurrences(s, '.') == 0 then
      if lead != 0 && f.calculatorTypeDecimal then IncrementDigits(f.leastIncrement) else Some(0)
    else
      var fraction := FractionDigits(s);
      var trail := |fraction| - ZeroSuffix(fraction);
      var limit := IncrementDigits(f.leastIncrement);
      if limit.None? || trail > limit.value then None else Some(trail)
  }

  /** VerifyString's verdict, with the number of decimal points when it
      accepts: at most one point, a sign only in front, some digit, no
      leading zero unless allowed, fractional digits within what the
      increment admits, and a nonzero significant digit count within
      [digitMin, digitMax]. */
  function VerifiedDecimals(f: FloatFormat, s: string): Option<nat> {
    if !FloatCharacters(s) || Occurrences(s, '.') > 1 then None
    else if |Digits(s)| == 0 then None
    else if !f.leadZero && ZeroPrefix(IntegerDigits(s)) > 0 then None
    else
      var integer := IntegerDigits(s);
      var lead := |integer| - ZeroPrefix(integer);
      var trail := TrailDigits(f, s, lead);
      if trail.None? then None
      else
        var total := lead + trail.value;
        if total != 0 && (total > f.digitMax || total < f.digitMin) then None
        else Some(Occurrences(s, '.'))
  }

  /** The decimal point index after one more character. */
  lemma DotIndexAppend(p: string, c: char)
    ensures DotIndex(p + [c]) == if DotIndex(p) < |p| then DotIndex(p) else if c == '.' then |p| else |p| + 1
  {
    assert (p + [c])[..|p|] == p;
  }

  /** One more character after the decimal point is a fraction digit. */
  lemma AppendAfterDot(p: string, c: char)
    requires DotIndex(p) < |p|
    ensures IntegerDigits(p + [c]) == IntegerDigits(p)
    ensures FractionDigits(p + [c]) == FractionDigits(p) + (if IsDigit(c) then [c] else [])
  {
    DotIndexAppend(p, c);
    var d := DotIndex(p);
    assert (p + [c])[..d] == p[..d];
    FractionAfterDot(p, c, d);
  }

  lemma FractionAfterDot(p: string, c: char, d: nat)
    requires d == DotIndex(p) < |p| && DotIndex(p + [c]) == d
    ensures FractionDigits(p + [c]) == FractionDigits(p) + (if IsDigit(c) then [c] else [])
  {
    SuffixAppend(p, c, d + 1);
    DigitsAppend(p[d + 1..], c);
  }

  /** A suffix of `p + [c]` that starts inside `p`. */
  lemma SuffixAppend(p: string, c: char, k: nat)
    requires k <= |p|
    ensures (p + [c])[k..] == p[k..] + [c]
  {
  }

  /** One more character adds itself to the digits when it is one. */
  lemma DigitsAppend(x: string, c: char)
    ensures Digits(x + [c]) == Digits(x) + (if IsDigit(c) then [c] else [])
  {
    assert (x + [c])[..|x|] == x;
  }

  /** The first decimal point ends the integer digits. */
  lemma AppendDot(p: string)
    requires DotIndex(p) == |p|
    ensures IntegerDigits(p + ['.']) == IntegerDigits(p)
    ensures FractionDigits(p + ['.']) == []
  {
    DotIndexAppend(p, '.');
    AppendedSlices(p, '.');
  }

  /** The slices of `p + [c]` around its last character. */
  lemma AppendedSlices(p: string, c: char)
    ensures (p + [c])[..|p|] == p && p[..|p|] == p
    ensures (p + [c])[..|p| + 1] == p + [c] && (p + [c])[|p| + 1..] == []
  {
  }

  /** One more character before any decimal point is an integer digit. */
  lemma AppendBeforeDot(p: string, c: char)
    requires DotIndex(p) == |p| && c != '.'
    ensures IntegerDigits(p + [c]) == IntegerDigits(p) + (if IsDigit(c) then [c] else [])
    ensures FractionDigits(p + [c]) == []
  {
    DotIndexAppend(p, c);
    AppendedSlices(p, c);
  }

  /** How one more character moves the decimal point index and the digits
      on either side of it. */
  lemma AppendCharacter(p: string, c: char)
    ensures DotIndex(p) < |p| ==>
      && IntegerDigits(p + [c]) == IntegerDigits(p)
      && FractionDigits(p + [c]) == FractionDigits(p) + (if IsDigit(c) then [c] else [])
    ensures DotIndex(p) == |p| && c == '.' ==>
      && IntegerDigits(p + [c]) == IntegerDigits(p)
      && FractionDigits(p + [c]) == []
    ensures DotIndex(p) == |p| && c != '.' ==>
      && IntegerDigits(p + [c]) == IntegerDigits(p) + (if IsDigit(c) then [c] else [])
      && FractionDigits(p + [c]) == []
  {
    if DotIndex(p) < |p| {
      AppendAfterDot(p, c);
    } else if c == '.' {
      AppendDot(p);
    } else {
      AppendBeforeDot(p, c);
    }
  }

  /** One more digit extends the leading zeros only while all are zeros. */
  lemma {:induction false} ZeroPrefixAppend(x: string, c: char)
    ensures ZeroPrefix(x + [c]) == if ZeroPrefix(x) == |x| && c == '0' then |x| + 1 else ZeroPrefix(x)
  {
    if |x| > 0 {
      assert (x + [c])[1..] == x[1..] + [c];
      ZeroPrefixAppend(x[1..], c);
    }
  }

  /** Without a decimal point the digits are the integer digits, and there
      is no point exactly when the index is past the end. */
  lemma {:induction false} NoDotDigits(p: string)
    ensures Occurrences(p, '.') == 0 <==> DotIndex(p) == |p|
    ensures DotIndex(p) == |p| ==> IntegerDigits(p) == Digits(p)
    ensures |Digits(p)| == |IntegerDigits(p)| + |FractionDigits(p)|
  {
    if |p| > 0 {
      var r := p[..|p| - 1];
      NoDotDigits(r);
      AppendCharacter(r, p[|p| - 1]);
      DotIndexAppend(r, p[|p| - 1]);
      assert r + [p[|p| - 1]] == p;
    } else {
      assert p[..0] == [];
    }
  }

  /** The plain counts VerifyString keeps, after one more character. */
  lemma CountStep(p: string, c: char)
    ensures Occurrences(p + [c], '.') == Occurrences(p, '.') + (if c == '.' then 1 else 0)
    ensures |Digits(p + [c])| == |Digits(p)| + (if IsDigit(c) then 1 else 0)
    ensures NonZeroCount(p + [c]) == NonZeroCount(p) + (if '1' <= c <= '9' then 1 else 0)
    ensures FloatCharacters(p + [c]) <==> FloatCharacters(p) && (IsDigit(c) || c == '.' || (|p| == 0 && IsSign(c)))
  {
    assert (p + [c])[..|p|] == p;
  }

  /** The leading-zero count, after one more character. */
  lemma IntegerStep(p: string, c: char)
    ensures var dotted := Occurrences(p, '.') != 0;
            && |IntegerDigits(p + [c])| == |IntegerDigits(p)| + (if !dotted && IsDigit(c) then 1 else 0)
            && ZeroPrefix(IntegerDigits(p + [c])) == (
                 if !dotted && c == '0' && ZeroPrefix(IntegerDigits(p)) == |IntegerDigits(p)|
                 then ZeroPrefix(IntegerDigits(p)) + 1
                 else ZeroPrefix(IntegerDigits(p)))
  {
    AppendCharacter(p, c);
    NoDotDigits(p);
    ZeroPrefixAppend(IntegerDigits(p), c);
    if !IsDigit(c) {
      assert IntegerDigits(p) + [] == IntegerDigits(p);
    }
  }

  /** The trailing-zero count, after one more character. */
  lemma FractionStep(p: string, c: char)
    ensures Occurrences(p, '.') == 0 ==> ZeroSuffix(FractionDigits(p + [c])) == 0
    ensures Occurrences(p, '.') != 0 && c == '0' ==> ZeroSuffix(FractionDigits(p + [c])) == ZeroSuffix(FractionDigits(p)) + 1
    ensures Occurrences(p, '.') != 0 && '1' <= c <= '9' ==> ZeroSuffix(FractionDigits(p + [c])) == 0
    ensures Occurrences(p, '.') != 0 && !IsDigit(c) ==> ZeroSuffix(FractionDigits(p + [c])) == ZeroSuffix(FractionDigits(p))
  {
    AppendCharacter(p, c);
    NoDotDigits(p);
    if Occurrences(p, '.') != 0 {
      if IsDigit(c) {
        var fd := FractionDigits(p) + [c];
        assert fd[..|fd| - 1] == FractionDigits(p);
      } else {
        assert FractionDigits(p) + [] == FractionDigits(p);
      }
    }
  }

  /** The counts VerifyString keeps, from the prefix before `s[i]` to the
      prefix ending with it. */
  lemma ScanStep(s: string, i: nat)
    requires i < |s|
    ensures var p, q, c := s[..i], s[..i + 1], s[i];
            && Occurrences(q, '.') == Occurrences(p, '.') + (if c == '.' then 1 else 0)
            && |Digits(q)| == |Digits(p)| + (if IsDigit(c) then 1 else 0)
            && NonZeroCount(q) == NonZeroCount(p) + (if '1' <= c <= '9' then 1 else 0)
            && (FloatCharacters(q) <==> FloatCharacters(p) && (IsDigit(c) || c == '.' || (i == 0 && IsSign(c))))
            && |IntegerDigits(q)| == |IntegerDigits(p)| + (if Occurrences(p, '.') == 0 && IsDigit(c) then 1 else 0)
            && ZeroPrefix(IntegerDigits(q)) == (
                 if Occurrences(p, '.') == 0 && c == '0' && ZeroPrefix(IntegerDigits(p)) == |IntegerDigits(p)|
                 then ZeroPrefix(IntegerDigits(p)) + 1
                 else ZeroPrefix(IntegerDigits(p)))
            && (Occurrences(p, '.') == 0 ==> ZeroSuffix(FractionDigits(q)) == 0)
            && (Occurrences(p, '.') != 0 && c == '0' ==> ZeroSuffix(FractionDigits(q)) == ZeroSuffix(FractionDigits(p)) + 1)
            && (Occurrences(p, '.') != 0 && '1' <= c <= '9' ==> ZeroSuffix(FractionDigits(q)) == 0)
            && (Occurrences(p, '.') != 0 && !IsDigit(c) ==> ZeroSuffix(FractionDigits(q)) == ZeroSuffix(FractionDigits(p)))
  {
    TakeOneMore(s, i);
    CountStep(s[..i], s[i]);
    IntegerStep(s[..i], s[i]);
    FractionStep(s[..i], s[i]);
  }

  /** What the character pass knows after `i` characters: its counters
      are those of the prefix `s[..i]`. */
  ghost predicate Scanned(s: string, i: nat, decimalCount: int, leadDigitCount: int, leadZeroCount: int,
                          trailZeroCount: int, nonZeroCount: int, allDigitCount: int)
    requires i <= |s|
  {
    var p := s[..i];
    && FloatCharacters(p)
    && decimalCount == Occurrences(p, '.') <= 1
    && allDigitCount == |Digits(p)|
    && nonZeroCount == NonZeroCount(p)
    && leadZeroCount == ZeroPrefix(IntegerDigits(p))
    && trailZeroCount == ZeroSuffix(FractionDigits(p))
    && (decimalCount == 0 ==> trailZeroCount == 0 && allDigitCount == |IntegerDigits(p)|)
    && (decimalCount == 0 ==> (nonZeroCount == 0 <==> leadZeroCount == |IntegerDigits(p)|))
    && (decimalCount == 1 ==> leadDigitCount == |IntegerDigits(p)| - leadZeroCount)
  }

  /** A digit 1..9 ends any run of trailing zeros. */
  lemma ScanNonZero(s: string, i: nat, dc: int, ld: int, lz: int, tz: int, nz: int, ad: int)
    requires i < |s| && '1' <= s[i] <= '9' && Scanned(s, i, dc, ld, lz, tz, nz, ad)
    ensures Scanned(s, i + 1, dc, ld, lz, if dc != 0 then 0 else tz, nz + 1, ad + 1)
  {
    ScanStep(s, i);
  }

  /** A zero is a leading zero while no other digit came before the
      point, and a trailing zero after it. */
  lemma ScanZero(s: string, i: nat, dc: int, ld: int, lz: int, tz: int, nz: int, ad: int)
    requires i < |s| && s[i] == '0' && Scanned(s, i, dc, ld, lz, tz, nz, ad)
    ensures Scanned(s, i + 1, dc, ld, if dc == 0 && nz == 0 then lz + 1 else lz,
                    if dc == 0 then tz else tz + 1, nz, ad + 1)
  {
    ScanStep(s, i);
  }

  /** The first point records the significant digits before it. */
  lemma ScanDot(s: string, i: nat, dc: int, ld: int, lz: int, tz: int, nz: int, ad: int)
    requires i < |s| && s[i] == '.' && dc == 0 && Scanned(s, i, dc, ld, lz, tz, nz, ad)
    ensures Scanned(s, i + 1, 1, ad - lz, lz, tz, nz, ad)
  {
    ScanStep(s, i);
  }

  /** A second point is refused. */
  lemma ScanSecondDot(s: string, i: nat, dc: int, ld: int, lz: int, tz: int, nz: int, ad: int)
    requires i < |s| && s[i] == '.' && dc != 0 && Scanned(s, i, dc, ld, lz, tz, nz, ad)
    ensures Occurrences(s, '.') > 1
  {
    TakeOneMore(s, i);
    CountStep(s[..i], s[i]);
    SplitAfter(s, i + 1);
    OccurrencesSplit(s[..i + 1], s[i + 1..], '.');
  }

  lemma TakeOneMore(s: string, i: nat)
    requires i < |s|
    ensures s[..i + 1] == s[..i] + [s[i]]
  {
  }

  lemma SplitAfter(s: string, k: nat)
    requires k <= |s|
    ensures s[..k] + s[k..] == s
  {
  }

  /** A sign in front changes no counter. */
  lemma ScanSign(s: string, i: nat, dc: int, ld: int, lz: int, tz: int, nz: int, ad: int)
    requires i == 0 < |s| && IsSign(s[i]) && Scanned(s, i, dc, ld, lz, tz, nz, ad)
    ensures Scanned(s, i + 1, dc, ld, lz, tz, nz, ad)
  {
    ScanStep(s, i);
  }

  /** A character that is neither a digit, a point nor a leading sign
      refuses the whole string. */
  lemma ScanRefused(s: string, i: nat)
    requires i < |s| && !IsDigit(s[i]) && s[i] != '.' && (i != 0 || !IsSign(s[i]))
    ensures !FloatCharacters(s)
  {
  }

  /** After the last character the counters are those of the whole string. */
  lemma ScanFinished(s: string, dc: int, ld: int, lz: int, tz: int, nz: int, ad: int)
    requires Scanned(s, |s|, dc, ld, lz, tz, nz, ad)
    ensures FloatCharacters(s) && dc == Occurrences(s, '.') <= 1
    ensures ad == |Digits(s)| && lz == ZeroPrefix(IntegerDigits(s)) && tz == ZeroSuffix(FractionDigits(s))
    ensures dc == 0 ==> tz == 0
    ensures dc == 1 ==> ld == |IntegerDigits(s)| - lz
  {
    assert s[..|s|] == s;
  }

  /** One character of VerifyString's pass: either the counters move on to
      the prefix ending with `s[i]`, or the character refuses the string. */
  method ScanCharacter(s: string, i: nat, dc: nat, ld: nat, lz: nat, tz: nat, nz: nat, ad: nat)
    returns (ok: bool, decimalCount: nat, leadDigitCount: nat, leadZeroCount: nat, trailZeroCount: nat,
             nonZeroCount: nat, allDigitCount: nat)
    requires i < |s| && Scanned(s, i, dc, ld, lz, tz, nz, ad)
    ensures ok ==> Scanned(s, i + 1, decimalCount, leadDigitCount, leadZeroCount, trailZeroCount, nonZeroCount, allDigitCount)
    ensures !ok ==> !FloatCharacters(s) || Occurrences(s, '.') > 1
  {
    decimalCount, leadDigitCount, leadZeroCount, trailZeroCount, nonZeroCount, allDigitCount := dc, ld, lz, tz, nz, ad;
    var ch := s[i];
    if '1' <= ch <= '9' {
      if decimalCount != 0 {
        trailZeroCount := 0;
      }
      nonZeroCount := nonZeroCount + 1;
      allDigitCount := allDigitCount + 1;
      ScanNonZero(s, i, dc, ld, lz, tz, nz, ad);
    } else if ch == '0' {
      if decimalCount == 0 {
        if nonZeroCount == 0 {
          leadZeroCount := leadZeroCount + 1;
        }
      } else {
        trailZeroCount := trailZeroCount + 1;
      }
      allDigitCount := allDigitCount + 1;
      ScanZero(s, i, dc, ld, lz, tz, nz, ad);
    } else if ch == '.' {
      decimalCount := decimalCount + 1;
      if decimalCount > 1 {
        ScanSecondDot(s, i, dc, ld, lz, tz, nz, ad);
        return false, decimalCount, leadDigitCount, leadZeroCount, trailZeroCount, nonZeroCount, allDigitCount;
      }
      leadDigitCount := allDigitCount - leadZeroCount;
      ScanDot(s, i, dc, ld, lz, tz, nz, ad);
    } else if ch == '+' || ch == '-' {
      if i != 0 {
        ScanRefused(s, i);
        return false, decimalCount, leadDigitCount, leadZeroCount, trailZeroCount, nonZeroCount, allDigitCount;
      }
      ScanSign(s, i, dc, ld, lz, tz, nz, ad);
    } else {
      ScanRefused(s, i);
      return false, decimalCount, leadDigitCount, leadZeroCount, trailZeroCount, nonZeroCount, allDigitCount;
    }
    ok := true;
  }

  /** The character pass of VerifyString: digits, leading zeros before the
      point, trailing zeros after it, and decimal points; it stops at the
      first character that is not allowed or at a second point. */
  method ScanCharacters(s: string)
    returns (ok: bool, decimalCount: nat, leadDigitCount: nat, leadZeroCount: nat, trailZeroCount: nat, allDigitCount: nat)
    ensures ok <==> FloatCharacters(s) && Occurrences(s, '.') <= 1
    ensures ok ==> decimalCount == Occurrences(s, '.')
    ensures ok ==> allDigitCount == |Digits(s)|
    ensures ok ==> leadZeroCount == ZeroPrefix(IntegerDigits(s))
    ensures ok ==> trailZeroCount == ZeroSuffix(FractionDigits(s))
    ensures ok && decimalCount == 0 ==> trailZeroCount == 0
    ensures ok && decimalCount == 1 ==> leadDigitCount == |IntegerDigits(s)| - leadZeroCount
  {
    leadDigitCount := 0;
    leadZeroCount := 0;
    trailZeroCount := 0;
    var nonZeroCount := 0;
    allDigitCount := 0;
    decimalCount := 0;
    var i := 0;
    while i != |s|
      invariant 0 <= i <= |s|
      invariant Scanned(s, i, decimalCount, leadDigitCount, leadZeroCount, trailZeroCount, nonZeroCount, allDigitCount)
    {
      var next: bool;
      next, decimalCount, leadDigitCount, leadZeroCount, trailZeroCount, nonZeroCount, allDigitCount :=
        ScanCharacter(s, i, decimalCount, leadDigitCount, leadZeroCount, trailZeroCount, nonZeroCount, allDigitCount);
      if !next {
        return false, decimalCount, leadDigitCount, leadZeroCount, trailZeroCount, allDigitCount;
      }
      i := i + 1;
    }
    ScanFinished(s, decimalCount, leadDigitCount, leadZeroCount, trailZeroCount, nonZeroCount, allDigitCount);
    return true, decimalCount, leadDigitCount, leadZeroCount, trailZeroCount, allDigitCount;
  }

  /** VerifyString: the character pass, then the digit, leading-zero,
      increment and digit-count checks. `decimalCount` is meaningful when
      it accepts. */
  method VerifyString(f: FloatFormat, s: string) returns (ok: bool, decimalCount: nat)
    ensures ok <==> VerifiedDecimals(f, s).Some?
    ensures ok ==> decimalCount == VerifiedDecimals(f, s).value
  {
    var scanned, leadDigitCount, leadZeroCount, trailZeroCount, allDigitCount;
    scanned, decimalCount, leadDigitCount, leadZeroCount, trailZeroCount, allDigitCount := ScanCharacters(s);
    if !scanned {
      return false, decimalCount;
    }
    NoDotDigits(s);
    if allDigitCount == 0 {
      return false, decimalCount;
    }
    if !f.leadZero && leadZeroCount != 0 {
      return false, decimalCount;
    }
    allDigitCount := allDigitCount - trailZeroCount;
    var trailDigitCount := 0;
    if decimalCount == 0 {
      leadDigitCount := allDigitCount - leadZeroCount;
      if leadDigitCount != 0 && f.calculatorTypeDecimal {
        if f.leastIncrement == 0.001 {
          trailDigitCount := 3;
        } else if f.leastIncrement == 0.0001 {
          trailDigitCount := 4;
        } else if f.leastIncrement == 0.01 {
          trailDigitCount := 2;
        } else {
          return false, decimalCount;
        }
      }
    } else {
      trailDigitCount := allDigitCount - leadZeroCount - leadDigitCount;
      if f.leastIncrement == 0.001 {
        if trailDigitCount > 3 {
          return false, decimalCount;
        }
      } else if f.leastIncrement == 0.0001 {
        if trailDigitCount > 4 {
          return false, decimalCount;
        }
      } else if f.leastIncrement == 0.01 {
        if trailDigitCount > 2 {
          return false, decimalCount;
        }
      } else {
        return false, decimalCount;
      }
    }
    var totalDigitCount := leadDigitCount + trailDigitCount;
    if totalDigitCount != 0 {
      if totalDigitCount > f.digitMax || totalDigitCount < f.digitMin {
        return false, decimalCount;
      }
    }
    return true, decimalCount;
  }

  lemma {:induction false} DigitsAreDigits(s: string)
    ensures AllDigits(Digits(s))
  {
    if |s| > 0 {
      DigitsAreDigits(s[..|s| - 1]);
    }
  }

  lemma SidesAreDigits(s: string)
    ensures AllDigits(IntegerDigits(s)) && AllDigits(FractionDigits(s))
  {
    DigitsAreDigits(s[..DotIndex(s)]);
    if DotIndex(s) < |s| {
      DigitsAreDigits(s[DotIndex(s) + 1..]);
    }
  }

  /** The exact value of a verified number string: sign, integer digits,
      and fraction digits over the matching power of ten. */
  function DecimalValue(s: string): real {
    if |s| > 0 && s[0] == '-' then -Magnitude(s) else Magnitude(s)
  }

  /** The unsigned value: integer digits plus fraction digits over the
      matching power of ten. */
  function Magnitude(s: string): real {
    SidesAreDigits(s);
    DigitsValue(IntegerDigits(s)) as real + FractionValue(FractionDigits(s))
  }

  /** Fraction digits read after a decimal point. */
  function FractionValue(fraction: string): real
    requires AllDigits(fraction)
  {
    DigitsValue(fraction) as real / Power10(|fraction|) as real
  }

  /** What the strtod-based converter yields: the value, or failure when it
      overflows to HUGE_VAL. */
  function ConvertFloat(s: string): (r: Option<real>)
    ensures r.Some? ==> -DoubleMax <= r.value <= DoubleMax
  {
    var v := DecimalValue(s);
    if v > DoubleMax || v < -DoubleMax then None else Some(v)
  }

  /** A converted value without a decimal point, in least increments
      unless calculator-type decimals are on. */
  function Scaled(f: FloatFormat, decimals: nat, number: real): real {
    if decimals == 0 && !f.calculatorTypeDecimal then number * f.leastIncrement else number
  }

  /** StringToFloat's verdict: a verified string, converted, scaled by the
      least increment when it has no decimal point and calculator-type
      decimals are off, and range-checked. */
  function ParseFloat(f: FloatFormat, s: string): Option<real> {
    var decimals := VerifiedDecimals(f, s);
    if decimals.None? then None
    else
      var number := ConvertFloat(s);
      if number.None? then None
      else
        var scaled := Scaled(f, decimals.value, number.value);
        if f.ValueCheck(scaled) then Some(scaled) else None
  }

  /** StringToFloat: verify, convert, scale, check. On failure `value`
      keeps what the caller passed. */
  method StringToFloat(f: FloatFormat, s: string, prior: real) returns (ok: bool, value: real)
    ensures ok <==> ParseFloat(f, s).Some?
    ensures ok ==> value == ParseFloat(f, s).value
    ensures !ok ==> value == prior
  {
    var verified, decimalCount := VerifyString(f, s);
    if !verified {
      return false, prior;
    }
    var converted := ConvertFloat(s);
    if converted.None? {
      return false, prior;
    }
    var number := Scaled(f, decimalCount, converted.value);
    if f.ValueCheck(number) {
      return true, number;
    }
    return false, prior;
  }

  predicate IsIntegral(x: real) {
    x.Floor as real == x
  }

  lemma {:induction false} TrailingZerosScale(a: string, t: nat)
    requires AllDigits(a)
    ensures AllDigits(a + Zeros(t))
    ensures DigitsValue(a + Zeros(t)) == DigitsValue(a) * Power10(t)
  {
    if t > 0 {
      var x := a + Zeros(t);
      assert x[..|x| - 1] == a + Zeros(t - 1);
      TrailingZerosScale(a, t - 1);
    } else {
      assert a + Zeros(0) == a;
    }
  }

  lemma {:induction false} ZeroSuffixSplit(x: string)
    ensures x == x[..|x| - ZeroSuffix(x)] + Zeros(ZeroSuffix(x))
  {
    if |x| > 0 && x[|x| - 1] == '0' {
      var y := x[..|x| - 1];
      ZeroSuffixSplit(y);
      assert y[..|y| - ZeroSuffix(y)] == x[..|x| - ZeroSuffix(x)];
      assert Zeros(ZeroSuffix(x)) == Zeros(ZeroSuffix(y)) + ['0'];
    } else {
      assert x[..|x|] == x;
      assert Zeros(0) == [];
    }
  }

  /** An admitted increment is exactly 10^-k for its k places. */
  lemma IncrementIsPowerOfTen(increment: real)
    requires IncrementDigits(increment).Some?
    ensures increment * Power10(IncrementDigits(increment).value) as real == 1.0
  {
    assert Power10(2) == 100 && Power10(3) == 1000 && Power10(4) == 10000;
  }

  /** x is exactly n steps of 1/scale. */
  predicate InSteps(x: real, scale: real, n: int) {
    x * scale == n as real
  }

  /** value / denominator is a whole number of steps of 1/scale when a
      common factor c of the denominator and the scale cancels and b
      divides the value. */
  lemma ScaleCancels(q: real, value: nat, denominator: nat, scale: real, a: nat, b: nat, c: nat, d: nat, n: int)
    requires b > 0 && c > 0
    requires value == a * b && denominator == c * b && scale == (c * d) as real && n == a * d
    requires q == value as real / denominator as real
    ensures InSteps(q, scale, n)
  {
    var x, y, z, w := a as real, b as real, c as real, d as real;
    assert value as real == x * y;
    assert denominator as real == z * y;
    assert scale == z * w;
    var r := x / z;
    assert r * z == x;
    assert r * (z * y) == x * y;
    assert q == r;
    assert r * (z * w) == x * w;
    assert x * w == (a * d) as real;
  }

  /** A value equal to an integer is integral. */
  lemma WholeIsIntegral(x: real, y: real, scale: real, n: int)
    requires x == y * scale && InSteps(y, scale, n)
    ensures IsIntegral(x)
  {
  }

  /** The fraction is a * b over c * b, and 10^k is c * d: b is the power
      of ten of the trailing zeros, c that of the significant digits. */
  lemma FractionFactors(fraction: string, k: nat) returns (a: nat, b: nat, c: nat, d: nat)
    requires AllDigits(fraction) && |fraction| - ZeroSuffix(fraction) <= k
    ensures b > 0 && c > 0
    ensures DigitsValue(fraction) == a * b && Power10(|fraction|) == c * b && Power10(k) == c * d
  {
    var t := ZeroSuffix(fraction);
    var m := |fraction| - t;
    SignificantDigits(fraction);
    Power10Add(m, t);
    Power10Add(m, k - m);
    a, b, c, d := DigitsValue(fraction[..m]), Power10(t), Power10(m), Power10(k - m);
  }

  /** A digit string is its significant digits times a power of ten. */
  lemma SignificantDigits(fraction: string)
    requires AllDigits(fraction)
    ensures var t := ZeroSuffix(fraction);
            var significant := fraction[..|fraction| - t];
            AllDigits(significant) && DigitsValue(fraction) == DigitsValue(significant) * Power10(t)
  {
    var t := ZeroSuffix(fraction);
    var significant := fraction[..|fraction| - t];
    ZeroSuffixSplit(fraction);
    TrailingZerosScale(significant, t);
  }

  /** Fraction digits whose significant part fits in k places make a
      fraction that is n steps of 10^-k; `scale` is 10^k. */
  lemma FractionSteps(fraction: string, k: nat, scale: real) returns (n: int)
    requires AllDigits(fraction) && |fraction| - ZeroSuffix(fraction) <= k && scale == Power10(k) as real
    ensures InSteps(FractionValue(fraction), scale, n)
  {
    var a, b, c, d := FractionFactors(fraction, k);
    n := a * d;
    ScaleCancels(FractionValue(fraction), DigitsValue(fraction), Power10(|fraction|), scale, a, b, c, d, n);
  }

  /** Steps add up over the two parts of a sum. */
  lemma DistributeScale(x: real, y: real, z: real, scale: real, ny: int, nz: int, n: int)
    requires x == y + z && InSteps(y, scale, ny) && InSteps(z, scale, nz) && n == ny + nz
    ensures InSteps(x, scale, n)
  {
    assert x * scale == y * scale + z * scale;
  }

  /** A whole number a is a * b steps of 1/b. */
  lemma WholeSteps(a: int, b: int, scale: real, n: int)
    requires n == a * b && scale == b as real
    ensures InSteps(a as real, scale, n)
  {
  }

  /** A magnitude whose significant fraction digits fit in k places is n
      steps of 10^-k. */
  lemma MagnitudeSteps(s: string, k: nat, scale: real) returns (n: int)
    requires Occurrences(s, '.') == 0 || |FractionDigits(s)| - ZeroSuffix(FractionDigits(s)) <= k
    requires scale == Power10(k) as real
    ensures InSteps(Magnitude(s), scale, n)
  {
    var fraction := FractionDigits(s);
    assert AllDigits(IntegerDigits(s)) && AllDigits(fraction) && |fraction| - ZeroSuffix(fraction) <= k by {
      NoDotDigits(s);
      SidesAreDigits(s);
    }
    var whole := DigitsValue(IntegerDigits(s));
    var nz := FractionSteps(fraction, k, scale);
    var ny := whole * Power10(k);
    n := ny + nz;
    WholeSteps(whole, Power10(k), scale, ny);
    DistributeScale(Magnitude(s), whole as real, FractionValue(fraction), scale, ny, nz, n);
  }

  /** Negation negates the step count. */
  lemma NegatedSteps(x: real, y: real, scale: real, n: int)
    requires x == -y && InSteps(y, scale, n)
    ensures InSteps(x, scale, -n)
  {
    assert x * scale == -(y * scale);
  }

  /** A signed decimal whose significant fraction digits fit in k places
      is n steps of 10^-k. */
  lemma DecimalSteps(s: string, k: nat, scale: real) returns (n: int)
    requires Occurrences(s, '.') == 0 || |FractionDigits(s)| - ZeroSuffix(FractionDigits(s)) <= k
    requires scale == Power10(k) as real
    ensures InSteps(DecimalValue(s), scale, n)
  {
    var m := MagnitudeSteps(s, k, scale);
    if |s| > 0 && s[0] == '-' {
      NegatedSteps(DecimalValue(s), Magnitude(s), scale, m);
      n := -m;
    } else {
      n := m;
    }
  }

  /** What an accepted string is: its exact decimal value, scaled when it
      has no point, with significant fraction digits within the increment. */
  lemma AcceptedShape(f: FloatFormat, s: string)
    requires ParseFloat(f, s).Some? && IncrementDigits(f.leastIncrement).Some?
    ensures ParseFloat(f, s).value == Scaled(f, Occurrences(s, '.'), DecimalValue(s))
    ensures Occurrences(s, '.') == 0
         || |FractionDigits(s)| - ZeroSuffix(FractionDigits(s)) <= IncrementDigits(f.leastIncrement).value
  {
  }

  /** Every value StringToFloat accepts under one of the three increments is
      a whole number of increments: with increment 10^-k, the value times
      10^k is an integer. */
  lemma {:induction false} AcceptedValuesOnIncrementGrid(f: FloatFormat, s: string)
    requires ParseFloat(f, s).Some? && IncrementDigits(f.leastIncrement).Some?
    ensures IsIntegral(ParseFloat(f, s).value * Power10(IncrementDigits(f.leastIncrement).value) as real)
  {
    AcceptedShape(f, s);
    DecimalOnGrid(f, s, IncrementDigits(f.leastIncrement).value, ParseFloat(f, s).value,
      Power10(IncrementDigits(f.leastIncrement).value) as real,
      ParseFloat(f, s).value * Power10(IncrementDigits(f.leastIncrement).value) as real);
  }

  /** The scaled decimal value v of a string whose significant fraction
      digits fit in k places, times 10^k, is integral. */
  lemma DecimalOnGrid(f: FloatFormat, s: string, k: nat, v: real, scale: real, x: real)
    requires IncrementDigits(f.leastIncrement) == Some(k) && scale == Power10(k) as real
    requires v == Scaled(f, Occurrences(s, '.'), DecimalValue(s))
    requires Occurrences(s, '.') == 0 || |FractionDigits(s)| - ZeroSuffix(FractionDigits(s)) <= k
    requires x == v * scale
    ensures IsIntegral(x)
  {
    var units := 0;
    if Occurrences(s, '.') == 0 {
      units := DecimalSteps(s, 0, 1.0);
    }
    var steps := DecimalSteps(s, k, scale);
    var n := ScaledSteps(f, Occurrences(s, '.'), DecimalValue(s), k, scale, units, steps);
    SameSteps(v, Scaled(f, Occurrences(s, '.'), DecimalValue(s)), scale, n);
    WholeIsIntegral(x, v, scale, n);
  }

  /** A number scaled as StringToFloat scales it is a whole number of
      increments, given the number is whole when it is scaled and is
      `steps` increments otherwise. */
  lemma ScaledSteps(f: FloatFormat, decimals: nat, number: real, k: nat, scale: real, units: int, steps: int)
    returns (n: int)
    requires IncrementDigits(f.leastIncrement) == Some(k) && scale == Power10(k) as real
    requires decimals == 0 && !f.calculatorTypeDecimal ==> InSteps(number, 1.0, units)
    requires InSteps(number, scale, steps)
    ensures InSteps(Scaled(f, decimals, number), scale, n)
  {
    if decimals == 0 && !f.calculatorTypeDecimal {
      assert f.leastIncrement * scale == 1.0 by {
        IncrementIsPowerOfTen(f.leastIncrement);
      }
      IncrementSteps(number, f.leastIncrement, Scaled(f, decimals, number), scale, units);
      n := units;
    } else {
      n := steps;
    }
  }

  /** x increments of 1/scale, with x whole, are x steps. */
  lemma IncrementSteps(x: real, increment: real, v: real, scale: real, n: int)
    requires v == x * increment && increment * scale == 1.0 && InSteps(x, 1.0, n)
    ensures InSteps(v, scale, n)
  {
    assert v * scale == x * (increment * scale);
  }

  lemma SameSteps(v: real, x: real, scale: real, n: int)
    requires v == x && InSteps(x, scale, n)
    ensures InSteps(v, scale, n)
  {
  }
}
