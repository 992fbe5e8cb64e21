/** Amounts as decimal strings: Go's strconv.ParseInt and FormatInt in base 10, on 64 bits. */
module Decimal {
  import opened Int64
  import opened Options

  predicate IsDigit(c: char) {
    '0' <= c <= '9'
  }

  function Digit(n: nat): char
    requires n < 10
  {
    ('0' as int + n) as char
  }

  function Value(digits: string): (value: int)
    ensures value >= 0
  {
    if digits == "" then 0
    else
      var c := digits[|digits| - 1];
      10 * Value(digits[..|digits| - 1]) + if IsDigit(c) then c as int - '0' as int else 0
  }

  predicate AllDigits(s: string) {
    s != "" && forall i :: 0 <= i < |s| ==> IsDigit(s[i])
  }

  /** An optional sign, at least one digit, and a value that fits. */
  function ParseInt(raw: string): Option<int> {
    var signed := raw != "" && (raw[0] == '+' || raw[0] == '-');
    var digits := if signed then raw[1..] else raw;
    if !AllDigits(digits) then None
    else
      var value: int := if signed && raw[0] == '-' then -Value(digits) else Value(digits);
      if Fits(value) then Some(value) else None
  }

  function Format(n: nat): string
  {
    if n < 10 then [Digit(n)] else Format(n / 10) + [Digit(n % 10)]
  }

  function ParseNonNegative(raw: string): Option<int> {
    var parsed := ParseInt(raw);
    if parsed.Some? && parsed.value >= 0 then parsed else None
  }

  lemma {:induction false} FormatValue(n: nat)
    ensures AllDigits(Format(n)) && Value(Format(n)) == n && (n > 0 ==> Format(n)[0] != '0')
  {
    if n < 10 {
      assert Format(n)[..0] == "";
    } else {
      FormatValue(n / 10);
      var s := Format(n);
      assert s[..|s| - 1] == Format(n / 10);
    }
  }

  /** What is written reads back as the same amount. */
  lemma RoundTrip(n: nat)
    requires n <= MAX
    ensures ParseNonNegative(Format(n)) == Some(n) && Format(n) != ""
  {
    FormatValue(n);
    assert IsDigit(Format(n)[0]);
  }

  /** What is read, for every string: an optional sign and at least one digit,
      leading zeros included, with a value in the range of an int64. */
  lemma ParseIntExact(digits: string, plus: string, minus: string)
    requires plus == "+" + digits && minus == "-" + digits
    ensures ParseInt(plus)
         == if AllDigits(digits) && Value(digits) <= 0x7FFF_FFFF_FFFF_FFFF then Some(Value(digits)) else None
    ensures ParseInt(minus)
         == if AllDigits(digits) && Value(digits) <= 0x8000_0000_0000_0000 then Some(-Value(digits)) else None
    ensures digits == "" || (digits[0] != '+' && digits[0] != '-') ==> ParseInt(digits) == ParseInt(plus)
  {
    ParseSigned(digits, plus);
    ParseSigned(digits, minus);
    if digits == "" || (digits[0] != '+' && digits[0] != '-') {
      ParseUnsigned(digits);
    }
  }

  lemma ParseSigned(digits: string, raw: string)
    requires raw != "" && (raw[0] == '+' || raw[0] == '-') && raw[1..] == digits
    ensures ParseInt(raw)
         == var value: int := if raw[0] == '-' then -Value(digits) else Value(digits);
            if AllDigits(digits) && Fits(value) then Some(value) else None
  {
  }

  lemma ParseUnsigned(digits: string)
    requires digits == "" || (digits[0] != '+' && digits[0] != '-')
    ensures ParseInt(digits) == if AllDigits(digits) && Fits(Value(digits)) then Some(Value(digits)) else None
  {
  }

  lemma {:induction false} LeadingZero(digits: string)
    ensures Value("0" + digits) == Value(digits)
  {
    if digits == "" {
      assert ("0" + digits)[..0] == "";
    } else {
      var front := digits[..|digits| - 1];
      LeadingZero(front);
      assert ("0" + digits)[..|"0" + digits| - 1] == "0" + front;
    }
  }
}
