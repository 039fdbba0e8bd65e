/** Python's `int(s)` on a `str` in base 10 and its inverse `str(n)`: the
    conversions the limit validator and the upstream parser perform. */
module PyInt {
  import opened Outcomes
  import opened PyStr

  predicate IsDigit(c: char) { '0' <= c && c <= '9' }

  function DigitValue(c: char): nat {
    if IsDigit(c) then c as int - '0' as int else 0
  }

  /** The whitespace `int()` skips around its digits. It first turns every
      non-ASCII whitespace character into a space and then skips ASCII
      whitespace only, so the separators U+001C to U+001F, which
      `str.isspace` accepts, are not skipped. */
  predicate IsIntSpace(c: char) {
    IsSpace(c) && !('\U{1C}' <= c && c <= '\U{1F}')
  }

  /** The most digits `int()` and `str()` convert: Python's default limit on
      integer string conversion. */
  const MaxStrDigits := 4300

  /** How many whitespace characters open `s`. */
  function LeadingSpace(s: string): (n: nat)
    ensures n <= |s|
    ensures forall i :: 0 <= i < n ==> IsIntSpace(s[i])
    ensures n < |s| ==> !IsIntSpace(s[n])
  {
    if s != [] && IsIntSpace(s[0]) then 1 + LeadingSpace(s[1..]) else 0
  }

  /** How many whitespace characters close `s`. */
  function TrailingSpace(s: string): (n: nat)
    ensures n <= |s|
    ensures forall i :: |s| - n <= i < |s| ==> IsIntSpace(s[i])
    ensures n < |s| ==> !IsIntSpace(s[|s| - n - 1])
  {
    if s != [] && IsIntSpace(s[|s| - 1]) then 1 + TrailingSpace(s[..|s| - 1]) else 0
  }

  /** The text `int()` reads: `s` without the whitespace it skips at either end. */
  function StripIntSpace(s: string): (r: string)
    ensures r == [] || (!IsIntSpace(r[0]) && !IsIntSpace(r[|r| - 1]))
  {
    var l := s[LeadingSpace(s)..];
    l[..|l| - TrailingSpace(l)]
  }

  /** Every character of `s` that is not skipped survives `StripIntSpace`, at a known place. */
  lemma StripKeeps(s: string, i: nat)
    requires i < |s| && !IsIntSpace(s[i])
    ensures var t := StripIntSpace(s); var j := i - LeadingSpace(s); 0 <= j < |t| && t[j] == s[i]
  {
    var n := LeadingSpace(s);
    assert n <= i;
    var l := s[n..];
    var j := i - n;
    assert l[j] == s[i];
    var m := TrailingSpace(l);
    assert j < |l| - m;
    assert StripIntSpace(s) == l[..|l| - m];
  }

  /** A string that neither starts nor ends with skipped whitespace is read whole. */
  lemma StripNoop(s: string)
    requires s != [] && !IsIntSpace(s[0]) && !IsIntSpace(s[|s| - 1])
    ensures StripIntSpace(s) == s
  {
    assert LeadingSpace(s) == 0;
    assert TrailingSpace(s) == 0;
  }

  /** The digit run `int()` accepts after the sign: ASCII digits, with single
      underscores allowed between two digits. */
  predicate WellFormedDigits(s: string) {
    |s| > 0 && IsDigit(s[0]) && IsDigit(s[|s| - 1])
    && (forall i :: 0 <= i < |s| ==> IsDigit(s[i]) || s[i] == '_')
    && (forall i :: 0 <= i < |s| - 1 ==> s[i] == '_' ==> s[i + 1] != '_')
  }

  /** The number a digit run denotes, underscores skipped. */
  function DigitsValue(s: string): nat {
    if s == [] then 0
    else if s[|s| - 1] == '_' then DigitsValue(s[..|s| - 1])
    else 10 * DigitsValue(s[..|s| - 1]) + DigitValue(s[|s| - 1])
  }

  /** How many digits `s` holds, leading zeros included and underscores not. */
  function DigitCount(s: string): (n: nat)
    ensures n <= |s|
  {
    if s == [] then 0
    else DigitCount(s[..|s| - 1]) + (if IsDigit(s[|s| - 1]) then 1 else 0)
  }

  lemma {:induction false} DigitCountOfDigits(s: string)
    requires forall i :: 0 <= i < |s| ==> IsDigit(s[i])
    ensures DigitCount(s) == |s|
  {
    if s != [] {
      DigitCountOfDigits(s[..|s| - 1]);
    }
  }

  /** The digit run after the sign: its value, or None where `int()` raises. */
  function ParseDigits(d: string): Option<nat> {
    if WellFormedDigits(d) && DigitCount(d) <= MaxStrDigits then Some(DigitsValue(d)) else None
  }

  /** `int(s)`: None where Python raises ValueError, which includes a run of
      more than `MaxStrDigits` digits. */
  function ParseInt(s: string): Option<int> {
    var t := StripIntSpace(s);
    if |t| > 0 && (t[0] == '+' || t[0] == '-') then
      match ParseDigits(t[1..])
      case None => None
      case Some(v) => Some(if t[0] == '-' then -(v as int) else v as int)
    else
      match ParseDigits(t)
      case None => None
      case Some(v) => Some(v as int)
  }

  function Digit(d: nat): (c: char)
    requires d < 10
    ensures IsDigit(c) && DigitValue(c) == d
  {
    ('0' as int + d) as char
  }

  /** The decimal digits of a non-negative `n`, without a sign. */
  function NatToString(n: nat): (s: string)
    ensures |s| > 0 && forall i :: 0 <= i < |s| ==> IsDigit(s[i])
  {
    if n < 10 then [Digit(n)] else NatToString(n / 10) + [Digit(n % 10)]
  }

  /** `str(n)`, spelled out for every integer; Python itself refuses an `n`
      that is not `WithinStrDigits`. */
  function IntToString(n: int): string {
    if n < 0 then "-" + NatToString(-n) else NatToString(n)
  }

  /** `str(n)` and `int(str(n))` are within Python's digit limit. */
  predicate WithinStrDigits(n: int) {
    |NatToString(if n < 0 then -n else n)| <= MaxStrDigits
  }

  lemma {:induction false} NatToStringValue(n: nat)
    ensures DigitsValue(NatToString(n)) == n
  {
    var s := NatToString(n);
    if n >= 10 {
      NatToStringValue(n / 10);
      assert s[..|s| - 1] == NatToString(n / 10);
    }
  }

  /** A plain run of digits is read as the number it spells, unless it is
      longer than the digit limit. */
  lemma ParseDigitsOfDigits(d: string)
    requires |d| > 0 && forall i :: 0 <= i < |d| ==> IsDigit(d[i])
    ensures |d| <= MaxStrDigits ==> ParseDigits(d) == Some(DigitsValue(d))
    ensures |d| > MaxStrDigits ==> ParseDigits(d) == None
  {
    DigitCountOfDigits(d);
    assert WellFormedDigits(d);
  }

  /** A minus sign before a run `d` that does not end in skipped whitespace
      gives the negated value `v` of that run, or fails with it. */
  lemma ParseIntOfMinus(d: string, v: nat)
    requires d != [] && !IsIntSpace(d[|d| - 1])
    ensures ParseDigits(d).None? ==> ParseInt("-" + d) == None
    ensures ParseDigits(d) == Some(v) ==> ParseInt("-" + d) == Some(-(v as int))
  {
    var s := "-" + d;
    assert s[1..] == d && s[|s| - 1] == d[|d| - 1];
    StripNoop(s);
  }

  /** A string read whole that opens with a digit is the value of its digit run. */
  lemma ParseIntOfUnsigned(s: string)
    requires |s| > 0 && IsDigit(s[0]) && !IsIntSpace(s[|s| - 1])
    ensures ParseDigits(s).None? ==> ParseInt(s) == None
    ensures ParseDigits(s).Some? ==> ParseInt(s) == Some(ParseDigits(s).value as int)
  {
    StripNoop(s);
  }

  /** The spelling of a non-negative integer reads back as that integer,
      unless it is longer than the digit limit. */
  lemma ParseIntOfNatToString(m: nat)
    ensures |NatToString(m)| <= MaxStrDigits ==> ParseInt(NatToString(m)) == Some(m)
    ensures |NatToString(m)| > MaxStrDigits ==> ParseInt(NatToString(m)) == None
  {
    var d := NatToString(m);
    ParseDigitsOfDigits(d);
    ParseIntOfUnsigned(d);
    if |d| <= MaxStrDigits {
      NatToStringValue(m);
    }
  }

  /** The spelling of a negative integer, a minus sign before the digits of
      its magnitude, reads back as that integer within the digit limit. */
  lemma ParseIntOfNegated(m: nat)
    requires |NatToString(m)| <= MaxStrDigits
    ensures ParseInt("-" + NatToString(m)) == Some(-(m as int))
  {
    var d := NatToString(m);
    ParseDigitsOfDigits(d);
    NatToStringValue(m);
    assert ParseDigits(d) == Some(m);
    ParseIntOfMinus(d, m);
  }

  /** A minus sign before a run of more digits than the limit is refused. */
  lemma ParseIntRefusesLongNegative(d: string)
    requires |d| > MaxStrDigits && forall i :: 0 <= i < |d| ==> IsDigit(d[i])
    ensures ParseInt("-" + d) == None
  {
    ParseDigitsOfDigits(d);
    ParseIntOfMinus(d, 0);
  }

  /** `int(str(n)) == n` for every integer within the digit limit; the
      spelling of any other integer is refused. */
  lemma ParseIntOfIntToString(n: int)
    ensures WithinStrDigits(n) ==> ParseInt(IntToString(n)) == Some(n)
    ensures !WithinStrDigits(n) ==> ParseInt(IntToString(n)) == None
  {
    if n < 0 {
      if WithinStrDigits(n) {
        ParseIntOfNegated(-n);
      } else {
        ParseIntRefusesLongNegative(NatToString(-n));
      }
    } else {
      ParseIntOfNatToString(n);
    }
  }

  /** A plain run of digits parses to the number it denotes, unless it is
      longer than the digit limit. */
  lemma ParseIntOfDigits(s: string)
    requires |s| > 0 && forall i :: 0 <= i < |s| ==> IsDigit(s[i])
    ensures |s| <= MaxStrDigits ==> ParseInt(s) == Some(DigitsValue(s))
    ensures |s| > MaxStrDigits ==> ParseInt(s) == None
  {
    ParseDigitsOfDigits(s);
    ParseIntOfUnsigned(s);
  }

  /** An ASCII character that can be neither skipped whitespace, a sign, a
      digit nor an underscore makes `int()` fail, wherever it stands. */
  lemma ParseIntRejectsForeign(s: string, i: nat)
    requires i < |s| && s[i] < '\U{80}'
    requires !IsIntSpace(s[i]) && !IsDigit(s[i]) && s[i] != '_' && s[i] != '+' && s[i] != '-'
    ensures ParseInt(s) == None
  {
    StripKeeps(s, i);
    var t := StripIntSpace(s);
    var j := i - LeadingSpace(s);
    NotWellFormed(t, j);
    if |t| > 0 && (t[0] == '+' || t[0] == '-') {
      NotWellFormed(t[1..], j - 1);
    }
  }

  lemma NotWellFormed(t: string, j: int)
    requires 0 <= j < |t| && !IsDigit(t[j]) && t[j] != '_'
    ensures !WellFormedDigits(t)
  {
  }
}
