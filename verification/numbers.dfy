/** Rust's numeric text conversions as the agent uses them:
    `u64::from_str` / `u8::from_str` (optional `+`, ASCII digits, in range),
    the plain-decimal part of `f64::from_str`, `u64::to_string`, and
    `saturating_sub`. */
module Numbers {
  import opened Results
  import Text

  const U8_LIMIT: nat := 0x100
  const U64_LIMIT: nat := 0x1_0000_0000_0000_0000

  predicate IsDigit(c: char) {
    '0' <= c <= '9'
  }

  predicate AllDigits(s: string) {
    forall i :: 0 <= i < |s| ==> IsDigit(s[i])
  }

  function DigitValue(c: char): (d: nat)
    requires IsDigit(c)
    ensures d < 10
  {
    c as int - '0' as int
  }

  function DigitChar(d: nat): (c: char)
    requires d < 10
    ensures IsDigit(c) && DigitValue(c) == d
  {
    ('0' as int + d) as char
  }

  /** The number a string of decimal digits denotes (0 for no digits). */
  function DigitsValue(s: string): nat
    requires AllDigits(s)
  {
    if s == [] then 0 else DigitsValue(s[..|s| - 1]) * 10 + DigitValue(s[|s| - 1])
  }

  /** `saturating_sub` on unsigned integers. */
  function SaturatingSub(a: nat, b: nat): (r: nat)
    ensures r <= a
    ensures b <= a ==> r + b == a
    ensures a < b ==> r == 0
  {
    if b <= a then a - b else 0
  }

  /** `from_str` for an unsigned type whose values are below `limit`:
      an optional `+`, then at least one ASCII digit, in range. */
  function ParseUnsigned(s: string, limit: nat): (r: Option<nat>)
    ensures r.Some? ==> r.value < limit
    ensures r.Some? ==> |s| > 0 && IsDigit(s[|s| - 1])
    ensures r.Some? ==> AllDigits(s) || (s[0] == '+' && AllDigits(s[1..]))
  {
    var digits := if |s| > 0 && s[0] == '+' then s[1..] else s;
    if |digits| > 0 && AllDigits(digits) && DigitsValue(digits) < limit then Some(DigitsValue(digits)) else None
  }

  function ParseU64(s: string): (r: Option<nat>)
    ensures r.Some? ==> r.value < U64_LIMIT
  {
    ParseUnsigned(s, U64_LIMIT)
  }

  function ParseU8(s: string): (r: Option<nat>)
    ensures r.Some? ==> r.value < U8_LIMIT
  {
    ParseUnsigned(s, U8_LIMIT)
  }

  /** Why `from_str` refused the text: the kinds of `ParseIntError` an
      unsigned type can report. */
  datatype IntErrorKind = Empty | InvalidDigit | PosOverflow

  /** The characters `from_str` reads as digits: all of the text but a
      leading `+`. */
  function UnsignedDigits(s: string): (d: string)
    ensures |d| <= |s|
  {
    if |s| > 0 && s[0] == '+' then s[1..] else s
  }

  /** The longest prefix of `s` made of ASCII digits. */
  function LeadingDigits(s: string): (p: string)
    ensures AllDigits(p)
    ensures |p| <= |s| && p == s[..|p|]
    ensures |p| < |s| ==> !IsDigit(s[|p|])
  {
    if s == [] || !IsDigit(s[0]) then []
    else
      var p := [s[0]] + LeadingDigits(s[1..]);
      assert AllDigits(p) by {
        forall i | 0 <= i < |p| ensures IsDigit(p[i]) {
          if i > 0 { assert p[i] == LeadingDigits(s[1..])[i - 1]; }
        }
      }
      p
  }

  /** `from_str`'s digit loop, having read a prefix worth `acc`: each
      character is first checked to be a digit, then the value is
      multiplied and added to with overflow checks; the first failure
      stops the loop. `None` means every character was taken. */
  function DigitLoop(d: string, acc: nat, limit: nat): (r: Option<IntErrorKind>)
    ensures r != Some(Empty)
    decreases |d|
  {
    if d == [] then None
    else if !IsDigit(d[0]) then Some(InvalidDigit)
    else if acc * 10 + DigitValue(d[0]) >= limit then Some(PosOverflow)
    else DigitLoop(d[1..], acc * 10 + DigitValue(d[0]), limit)
  }

  /** `from_str`'s accumulator after reading the digits `d` left to right,
      having started from `acc`. */
  function Accumulate(acc: nat, d: string): nat
    requires AllDigits(d)
    decreases |d|
  {
    if d == [] then acc else Accumulate(acc * 10 + DigitValue(d[0]), d[1..])
  }

  lemma {:induction false} AccumulateAtLeast(acc: nat, d: string)
    requires AllDigits(d)
    ensures Accumulate(acc, d) >= acc
    decreases |d|
  {
    if d != [] {
      AccumulateAtLeast(acc * 10 + DigitValue(d[0]), d[1..]);
    }
  }

  /** Reading one more digit multiplies the accumulator by ten and adds it. */
  lemma {:induction false} AccumulateSnoc(acc: nat, d: string, c: char)
    requires AllDigits(d) && IsDigit(c)
    ensures AllDigits(d + [c])
    ensures Accumulate(acc, d + [c]) == Accumulate(acc, d) * 10 + DigitValue(c)
    decreases |d|
  {
    var s := d + [c];
    assert AllDigits(s) by {
      forall i | 0 <= i < |s| ensures IsDigit(s[i]) {
        if i < |d| { assert s[i] == d[i]; }
      }
    }
    if d == [] {
      assert s[1..] == [];
    } else {
      assert s[1..] == d[1..] + [c];
      AccumulateSnoc(acc * 10 + DigitValue(d[0]), d[1..], c);
    }
  }

  /** Read left to right from zero, digits accumulate to their decimal value. */
  lemma {:induction false} AccumulateFromZero(d: string)
    requires AllDigits(d)
    ensures Accumulate(0, d) == DigitsValue(d)
    decreases |d|
  {
    if d != [] {
      var init, last := d[..|d| - 1], d[|d| - 1];
      assert AllDigits(init) by {
        forall i | 0 <= i < |init| ensures IsDigit(init[i]) { assert init[i] == d[i]; }
      }
      AccumulateFromZero(init);
      AccumulateSnoc(0, init, last);
      assert init + [last] == d;
    }
  }

  /** What the digit loop reports: an overflow exactly when the leading
      digits take the accumulator out of range, and no failure exactly when
      the whole text is digits that keep it in range. */
  lemma {:induction false} DigitLoopVerdict(d: string, acc: nat, limit: nat)
    requires acc < limit
    ensures DigitLoop(d, acc, limit) == Some(PosOverflow) <==> Accumulate(acc, LeadingDigits(d)) >= limit
    ensures DigitLoop(d, acc, limit).None? <==> AllDigits(d) && Accumulate(acc, d) < limit
    decreases |d|
  {
    if d == [] {
    } else if !IsDigit(d[0]) {
      assert LeadingDigits(d) == [];
    } else {
      var rest := d[1..];
      var next := acc * 10 + DigitValue(d[0]);
      var lead := LeadingDigits(rest);
      assert LeadingDigits(d) == [d[0]] + lead;
      assert Accumulate(acc, LeadingDigits(d)) == Accumulate(next, lead) by {
        assert ([d[0]] + lead)[1..] == lead;
      }
      assert AllDigits(d) <==> AllDigits(rest) by {
        if AllDigits(rest) {
          forall i | 0 <= i < |d| ensures IsDigit(d[i]) {
            if i > 0 { assert d[i] == rest[i - 1]; }
          }
        }
      }
      if next >= limit {
        AccumulateAtLeast(next, lead);
        if AllDigits(rest) { AccumulateAtLeast(next, rest); }
      } else {
        DigitLoopVerdict(rest, next, limit);
      }
    }
  }

  /** The kind `from_str` reports for text it refuses: empty text is
      `Empty`; otherwise the digit loop runs over the text after an
      optional `+` (a lone `+` is an invalid digit) and the first failure
      decides, so an overflowing run of digits is reported as an overflow
      even when a stray character follows it. */
  function IntErrorOf(s: string, limit: nat): (k: IntErrorKind)
    requires limit > 0
    requires ParseUnsigned(s, limit).None?
    ensures k == Empty <==> s == []
    ensures k == PosOverflow <==> s != [] && DigitsValue(LeadingDigits(UnsignedDigits(s))) >= limit
  {
    var digits := UnsignedDigits(s);
    DigitLoopVerdict(digits, 0, limit);
    AccumulateFromZero(LeadingDigits(digits));
    if s == [] then Empty
    else if digits == [] then InvalidDigit
    else DigitLoop(digits, 0, limit).GetOr(InvalidDigit)
  }

  /** Digits followed by a non-digit, or by nothing, are the leading digits. */
  lemma {:induction false} LeadingDigitsOf(d: string, rest: string)
    requires AllDigits(d)
    requires rest == [] || !IsDigit(rest[0])
    ensures LeadingDigits(d + rest) == d
    decreases |d|
  {
    if d == [] {
      assert d + rest == rest;
    } else {
      assert (d + rest)[1..] == d[1..] + rest;
      assert AllDigits(d[1..]) by {
        forall i | 0 <= i < |d| - 1 ensures IsDigit(d[1..][i]) { assert d[1..][i] == d[i + 1]; }
      }
      LeadingDigitsOf(d[1..], rest);
      assert d == [d[0]] + d[1..];
    }
  }

  /** Text that starts with an out-of-range run of digits is reported as
      an overflow whatever follows the run: the loop reaches the
      overflowing digit before any later bad character. */
  lemma OverflowComesFirst(s: string, limit: nat)
    requires limit > 0 && |s| > 0 && IsDigit(s[0])
    requires DigitsValue(LeadingDigits(s)) >= limit
    ensures ParseUnsigned(s, limit).None?
    ensures IntErrorOf(s, limit) == PosOverflow
  {
    assert UnsignedDigits(s) == s;
    if AllDigits(s) {
      LeadingDigitsOf(s, []);
      assert s + [] == s;
    }
  }

  /** `ParseIntError`'s `Display` text. */
  function IntErrorMessage(k: IntErrorKind): string {
    match k
    case Empty => "cannot parse integer from empty string"
    case InvalidDigit => "invalid digit found in string"
    case PosOverflow => "number too large to fit in target type"
  }

  /** Text with no digit in it never parses as an unsigned number. */
  lemma NoDigitNoNumber(s: string, limit: nat)
    requires forall i :: 0 <= i < |s| ==> !IsDigit(s[i])
    ensures ParseUnsigned(s, limit) == None
  {
    if |s| > 0 && s[0] == '+' && |s| > 1 {
      assert !IsDigit(s[1..][0]);
    } else if |s| > 0 {
      assert !IsDigit(s[0]);
    }
  }

  /** `to_string` on an unsigned integer: decimal, no leading zeros. */
  function NatToString(n: nat): (s: string)
    ensures |s| > 0 && AllDigits(s)
    ensures |s| > 1 ==> s[0] != '0'
  {
    if n < 10 then [DigitChar(n)] else NatToString(n / 10) + [DigitChar(n % 10)]
  }

  lemma {:induction false} NatToStringValue(n: nat)
    ensures DigitsValue(NatToString(n)) == n
  {
    var s := NatToString(n);
    if n >= 10 {
      NatToStringValue(n / 10);
      assert s[..|s| - 1] == NatToString(n / 10);
    } else {
      assert s[..|s| - 1] == [];
    }
  }

  /** The decimal text of an in-range number parses back to it: the
      round trip a counter takes through an environment variable. */
  lemma ParseOfNatToString(n: nat, limit: nat)
    requires n < limit
    ensures ParseUnsigned(NatToString(n), limit) == Some(n)
  {
    NatToStringValue(n);
  }

  function Pow10(k: nat): (p: nat)
    ensures p >= 1
  {
    if k == 0 then 1 else 10 * Pow10(k - 1)
  }

  /** The value of digits before and after a decimal point. */
  function DecimalMagnitude(whole: string, frac: string): (m: real)
    requires AllDigits(whole) && AllDigits(frac)
    ensures m >= 0.0
  {
    var fraction := DigitsValue(frac) as real / Pow10(|frac|) as real;
    QuotientNonNegative(DigitsValue(frac) as real, Pow10(|frac|) as real);
    DigitsValue(whole) as real + fraction
  }

  lemma QuotientNonNegative(a: real, b: real)
    requires a >= 0.0 && b > 0.0
    ensures a / b >= 0.0
  {
  }

  /** The plain-decimal forms `f64::from_str` accepts: an optional sign,
      then digits with at most one `.` among them and at least one digit
      in all, so `5.` and `.5` are numbers. */
  function ParseDecimal(s: string): (r: Option<real>)
    ensures r.Some? ==> |s| > 0
    ensures r.Some? && s[0] != '-' ==> r.value >= 0.0
  {
    var negative := |s| > 0 && s[0] == '-';
    var body := if |s| > 0 && (s[0] == '+' || s[0] == '-') then s[1..] else s;
    var whole := if '.' in body then body[..Text.IndexOf(body, '.')] else body;
    var frac := if '.' in body then body[Text.IndexOf(body, '.') + 1..] else [];
    if |whole| + |frac| > 0 && AllDigits(whole) && AllDigits(frac) then
      var magnitude := DecimalMagnitude(whole, frac);
      Some(if negative then -magnitude else magnitude)
    else None
  }

  /** Whole numbers parse to their value as `f64` too. */
  lemma ParseDecimalOfNat(n: nat)
    ensures ParseDecimal(NatToString(n)) == Some(n as real)
  {
    var s := NatToString(n);
    NatToStringValue(n);
    assert '.' !in s by {
      forall i | 0 <= i < |s| ensures s[i] != '.' { assert IsDigit(s[i]); }
    }
  }
}
