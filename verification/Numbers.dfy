/** Checked conversion between text and unsigned integers. */
module Numbers {

  const TWO_TO_THE_64 := 0x1_0000_0000_0000_0000

  /** The exceptions that conversions throw. */
  datatype Refusal = InvalidArgument | OutOfRange | RuntimeError

  datatype Converted<+T> = Ok(value: T) | Refused(why: Refusal)

  predicate IsDigit(c: char) {
    '0' <= c <= '9'
  }

  predicate AllDigits(s: string) {
    forall i :: 0 <= i < |s| ==> IsDigit(s[i])
  }

  predicate Among(s: string, valid: string) {
    forall i :: 0 <= i < |s| ==> s[i] in valid
  }

  function Digit(n: nat): char
    requires n < 10
  {
    ('0' as int + n) as char
  }

  function DigitValue(c: char): nat
    requires IsDigit(c)
  {
    c as int - '0' as int
  }

  /** Decimal text of a number, as a stream prints it. */
  function Decimal(n: nat): (s: string)
    ensures s != [] && AllDigits(s)
  {
    if n < 10 then [Digit(n)] else Decimal(n / 10) + [Digit(n % 10)]
  }

  function Value(s: string): nat
    requires AllDigits(s)
  {
    if s == [] then 0 else Value(s[..|s| - 1]) * 10 + DigitValue(s[|s| - 1])
  }

  lemma {:induction false} DecimalRoundTrip(n: nat)
    ensures Value(Decimal(n)) == n
  {
    if n >= 10 {
      DecimalRoundTrip(n / 10);
      assert Decimal(n)[..|Decimal(n)| - 1] == Decimal(n / 10);
    }
  }

  /** The longest run of digits at the front, which is all that `strtoull` in base ten looks at. */
  function DigitPrefix(s: string): (p: string)
    ensures AllDigits(p) && p <= s && (|p| < |s| ==> !IsDigit(s[|p|]))
  {
    if s == [] || !IsDigit(s[0]) then [] else [s[0]] + DigitPrefix(s[1..])
  }

  lemma {:induction false} DigitPrefixOfDigits(s: string)
    requires AllDigits(s)
    ensures DigitPrefix(s) == s
  {
    if s != [] { DigitPrefixOfDigits(s[1..]); }
  }

  const DIGITS := "0123456789"
  const NUMBER_CHARS := "-" + DIGITS + "abcdefABCDEF"

  /** What the C library's `strtoull` does without a digit: it returns 0, and either leaves `errno` alone or sets EINVAL. */
  datatype NoDigits = ErrnoKept | SetsEinval

  /** `stoull_with_checks` in base ten */
  function Stoull(s: string, lib: NoDigits): Converted<nat> {
    if s == [] || !Among(s, NUMBER_CHARS) then Refused(InvalidArgument)
    else if s[0] == '-' then Refused(OutOfRange)
    else if DigitPrefix(s) == [] && lib.SetsEinval? then Refused(InvalidArgument)
    else
      var v := Value(DigitPrefix(s));
      if v >= TWO_TO_THE_64 then Refused(OutOfRange) else Ok(v)
  }

  /** `str_to_integral` for an unsigned type with the given maximum */
  function StrToUnsigned(s: string, max: nat, lib: NoDigits): Converted<nat>
    requires max < TWO_TO_THE_64
  {
    var v := Stoull(s, lib);
    if v.Ok? && v.value > max then Refused(OutOfRange) else v
  }

  const TWO_TO_THE_63 := 0x8000_0000_0000_0000

  function Signed(minus: bool, n: nat): int {
    if minus then 0 - n else n
  }

  /** The digits behind an optional minus sign */
  function Magnitude(s: string): string {
    DigitPrefix(if s != [] && s[0] == '-' then s[1..] else s)
  }

  /** `stoll_with_checks` in base ten */
  function Stoll(s: string, lib: NoDigits): Converted<int> {
    if s == [] || !Among(s, NUMBER_CHARS) then Refused(InvalidArgument)
    else if Magnitude(s) == [] && lib.SetsEinval? then Refused(InvalidArgument)
    else
      var v := Signed(s[0] == '-', Value(Magnitude(s)));
      if -TWO_TO_THE_63 <= v < TWO_TO_THE_63 then Ok(v) else Refused(OutOfRange)
  }

  /** `str_to_integral` for a signed type with the given bounds */
  function StrToSigned(s: string, low: int, high: int, lib: NoDigits): Converted<int>
    requires -TWO_TO_THE_63 <= low <= high < TWO_TO_THE_63
  {
    var v := Stoll(s, lib);
    if v.Ok? && !(low <= v.value <= high) then Refused(OutOfRange) else v
  }

  lemma DigitCases(c: char)
    requires IsDigit(c)
    ensures c == '0' || c == '1' || c == '2' || c == '3' || c == '4' || c == '5' || c == '6' || c == '7' || c == '8' || c == '9'
  {
    assert c == Digit(DigitValue(c));
  }

  lemma DigitsAmong(s: string)
    requires AllDigits(s)
    ensures Among(s, DIGITS)
  {
    forall i | 0 <= i < |s| ensures s[i] in DIGITS { DigitCases(s[i]); }
  }

  lemma DigitsAreNumberChars(s: string)
    requires AllDigits(s)
    ensures Among(s, NUMBER_CHARS)
  {
    DigitsAmong(s);
  }

  /** A string of digits of any length is converted exactly or refused as out of range; it never wraps. */
  lemma DigitsNeverWrap(s: string, max: nat, lib: NoDigits)
    requires s != [] && AllDigits(s) && max < TWO_TO_THE_64
    ensures StrToUnsigned(s, max, lib) == if Value(s) <= max then Ok(Value(s)) else Refused(OutOfRange)
  {
    DigitsAreNumberChars(s);
    DigitPrefixOfDigits(s);
    assert IsDigit(s[0]);
  }

  /** The same for signed types, with or without a minus sign. */
  lemma SignedDigitsNeverWrap(minus: bool, s: string, low: int, high: int, lib: NoDigits)
    requires s != [] && AllDigits(s) && -TWO_TO_THE_63 <= low <= high < TWO_TO_THE_63
    ensures var v := Signed(minus, Value(s));
      StrToSigned(WithSign(minus, s), low, high, lib) == if low <= v <= high then Ok(v) else Refused(OutOfRange)
  {
    SignedText(minus, s);
  }

  function WithSign(minus: bool, s: string): string {
    if minus then ['-'] + s else s
  }

  lemma SignedText(minus: bool, s: string)
    requires s != [] && AllDigits(s)
    ensures var text := WithSign(minus, s);
      text != [] && Among(text, NUMBER_CHARS) && Magnitude(text) == s && (text[0] == '-' <==> minus)
  {
    var text := WithSign(minus, s);
    DigitsAreNumberChars(s);
    DigitPrefixOfDigits(s);
    assert '-' in "-" && IsDigit(s[0]);
    assert minus ==> text[1..] == s;
  }

  /** Text with any other character is refused, and so is any minus sign for an unsigned type. */
  lemma OtherTextIsRefused(s: string, max: nat, lib: NoDigits, i: nat)
    requires max < TWO_TO_THE_64
    ensures s == [] || (i < |s| && s[i] !in "-0123456789abcdefABCDEF") ==> StrToUnsigned(s, max, lib) == Refused(InvalidArgument)
    ensures s != [] && s[0] == '-' ==> StrToUnsigned(s, max, lib).Refused?
    ensures s != [] && s[0] == '-' && Among(s, "-0123456789abcdefABCDEF") ==> StrToUnsigned(s, max, lib) == Refused(OutOfRange)
  {
    assert NUMBER_CHARS == "-0123456789abcdefABCDEF";
  }

  /** Printing and converting back gives the same number. */
  lemma UnsignedRoundTrip(n: nat, max: nat, lib: NoDigits)
    requires max < TWO_TO_THE_64
    ensures StrToUnsigned(Decimal(n), max, lib) == if n <= max then Ok(n) else Refused(OutOfRange)
  {
    DecimalRoundTrip(n);
    DigitsNeverWrap(Decimal(n), max, lib);
  }

  /**
   * An accepted string is read up to its first character that is not a digit, so all of it counts if and only
   * if it is a string of digits.
   */
  lemma AcceptedIsReadWholeIff(s: string, max: nat, lib: NoDigits)
    requires max < TWO_TO_THE_64 && StrToUnsigned(s, max, lib).Ok?
    ensures StrToUnsigned(s, max, lib).value == Value(DigitPrefix(s))
    ensures DigitPrefix(s) == s <==> AllDigits(s)
    ensures DigitPrefix(s) == [] ==> lib.ErrnoKept?
  {
    if AllDigits(s) { DigitPrefixOfDigits(s); }
  }

  /** A number followed by letters is accepted as that number, and letters alone as 0 where `errno` is kept. */
  lemma LettersAreIgnored(digits: string, letters: string, max: nat, lib: NoDigits)
    requires AllDigits(digits) && Among(letters, "abcdefABCDEF") && letters != [] && max < TWO_TO_THE_64
    ensures StrToUnsigned(digits + letters, max, lib) ==
      if digits == [] && lib.SetsEinval? then Refused(InvalidArgument)
      else if Value(digits) <= max then Ok(Value(digits)) else Refused(OutOfRange)
  {
    var s := digits + letters;
    DigitsAreNumberChars(digits);
    assert Among(s, NUMBER_CHARS);
    assert letters[0] in "abcdefABCDEF" && s[|digits|] == letters[0];
    PrefixBefore(digits, letters);
  }

  lemma {:induction false} PrefixBefore(digits: string, rest: string)
    requires AllDigits(digits) && (rest != [] ==> !IsDigit(rest[0]))
    ensures DigitPrefix(digits + rest) == digits
  {
    if digits == [] {
      assert digits + rest == rest;
    } else {
      assert (digits + rest)[1..] == digits[1..] + rest;
      PrefixBefore(digits[1..], rest);
    }
  }
}
