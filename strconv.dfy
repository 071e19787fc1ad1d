/** The two decimal conversions of Go's `strconv` that the instrumented code
    relies on: `Itoa`, which renders the process id as a label value, and
    `ParseInt(s, 10, 64)`, which `database/sql` uses when a text column is
    scanned into an integer. */
module Strconv {
  import opened Base

  predicate IsDigit(c: char) {
    '0' <= c <= '9'
  }

  predicate AllDigits(s: string) {
    forall i :: 0 <= i < |s| ==> IsDigit(s[i])
  }

  function DigitChar(d: nat): (c: char)
    requires d < 10
    ensures IsDigit(c)
  {
    ('0' as int + d) as char
  }

  function DigitValue(c: char): (d: nat)
    requires IsDigit(c)
    ensures d < 10
  {
    c as int - '0' as int
  }

  /** The decimal digits of `n`, most significant first, without leading zeros. */
  function Digits(n: nat): (s: string)
    ensures |s| > 0 && AllDigits(s)
    ensures s[0] == '0' ==> n == 0
  {
    if n < 10 then [DigitChar(n)] else Digits(n / 10) + [DigitChar(n % 10)]
  }

  /** The number that a string of decimal digits denotes. */
  function DigitsValue(s: string): nat
    requires AllDigits(s)
  {
    if s == [] then 0 else DigitsValue(s[..|s| - 1]) * 10 + DigitValue(s[|s| - 1])
  }

  /** `strconv.Itoa(n)`: a minus sign for negative numbers, then the digits. */
  function Itoa(n: int): (s: string)
    ensures |s| > 0
    ensures s[0] == '-' <==> n < 0
  {
    if n < 0 then "-" + Digits(-n) else Digits(n)
  }

  /** The two reasons a `*strconv.NumError` gives: `ErrSyntax` and `ErrRange`. */
  const ErrSyntax: string := "invalid syntax"
  const ErrRange: string := "value out of range"

  /** A `*strconv.NumError` of `ParseInt`: the input and the reason. */
  datatype NumError = NumError(num: string, reason: string) {
    /** Its `Error()` text. */
    function Message(): string {
      "strconv.ParseInt: parsing \"" + num + "\": " + reason
    }
  }

  /** What `ParseInt` returns: the value, or the `*strconv.NumError`. */
  datatype ParseResult = Parsed(value: int) | Failed(err: NumError)

  /** An optional sign, then one or more decimal digits (leading zeros allowed). */
  predicate DecimalSyntax(s: string) {
    Unsigned(s) != [] && AllDigits(Unsigned(s))
  }

  /** `s` after its optional leading sign, which is what `ParseInt` hands to
      `ParseUint`. */
  function Unsigned(s: string): (body: string)
    ensures body <= s || (|s| > 0 && body == s[1..])
  {
    if |s| > 0 && (s[0] == '-' || s[0] == '+') then s[1..] else s
  }

  /** The longest run of decimal digits at the start of `s`. */
  function LeadingDigits(s: string): (p: string)
    ensures p <= s && AllDigits(p)
    ensures |p| < |s| ==> !IsDigit(s[|p|])
  {
    if s == [] || !IsDigit(s[0]) then [] else [s[0]] + LeadingDigits(s[1..])
  }

  /** `ParseUint` checks each byte for a digit and then for overflow past
      2^64 - 1 before it reads the next byte, so the digits up to the first
      non-digit overflow exactly when `ParseUint` stops with `ErrRange`. */
  predicate LeadOverflows(s: string) {
    DigitsValue(LeadingDigits(Unsigned(s))) >= Uint64Modulus
  }

  /** `strconv.ParseInt(s, 10, 64)`: `ParseUint` on the digits after the sign
      fails with a syntax error on an empty digit string and at the first
      non-digit, unless the digits before it already passed 2^64 - 1, which is
      a range error; a value that parses but does not fit an `int64` is a range
      error too. Every error is about the whole of `s`. */
  function ParseInt(s: string): (r: ParseResult)
    ensures r.Parsed? ==> InInt64(r.value)
    ensures r.Parsed? ==> exists i :: 0 <= i < |s| && IsDigit(s[i])
    ensures r.Failed? ==> r.err.num == s
  {
    var body := Unsigned(s);
    var lead := LeadingDigits(body);
    if body == [] then
      Failed(NumError(s, ErrSyntax))
    else if DigitsValue(lead) >= Uint64Modulus then
      Failed(NumError(s, ErrRange))
    else if |lead| < |body| then
      Failed(NumError(s, ErrSyntax))
    else
      assert lead == body;
      var v: int := if s[0] == '-' then -(DigitsValue(body) as int) else DigitsValue(body);
      assert IsDigit(s[|s| - 1]);
      if InInt64(v) then Parsed(v)
      else Failed(NumError(s, ErrRange))
  }

  /** `ParseInt` accepts only an optional sign followed by decimal digits. */
  lemma ParseIntAccepts(s: string)
    requires ParseInt(s).Parsed?
    ensures DecimalSyntax(s)
  {
    var body := Unsigned(s);
    assert LeadingDigits(body) == body;
  }

  /** A string of digits is its own leading run of digits. */
  lemma LeadingDigitsAll(s: string)
    requires AllDigits(s)
    ensures LeadingDigits(s) == s
  {
    var p := LeadingDigits(s);
    if |p| < |s| {
      assert !IsDigit(s[|p|]);
    }
  }

  /** `ParseInt` fails with a range error exactly on well-formed numbers
      outside the `int64` range and on inputs whose leading digits pass
      2^64 - 1 before a non-digit; it fails with a syntax error on everything
      else it refuses. */
  lemma ParseIntFailure(s: string)
    requires ParseInt(s).Failed?
    ensures ParseInt(s).err.reason == if DecimalSyntax(s) || LeadOverflows(s) then ErrRange else ErrSyntax
  {
  }

  /** Digits followed by a non-digit: the digits are the leading run. */
  lemma {:induction false} LeadingDigitsStop(p: string, t: string)
    requires AllDigits(p)
    requires t != [] && !IsDigit(t[0])
    ensures LeadingDigits(p + t) == p
  {
    if p != [] {
      assert (p + t)[1..] == p[1..] + t;
      LeadingDigitsStop(p[1..], t);
    }
  }

  /** Digits worth 2^64 or more, then a non-digit: `ParseUint` overflows before
      it reads the non-digit, so the input is not a decimal number and yet the
      error is a range error. One such input is "18446744073709551616a". */
  lemma ParseIntOverflowFirst(digits: string, rest: string)
    requires digits != [] && AllDigits(digits) && DigitsValue(digits) >= Uint64Modulus
    requires rest != [] && !IsDigit(rest[0])
    ensures !DecimalSyntax(digits + rest)
    ensures ParseInt(digits + rest) == Failed(NumError(digits + rest, ErrRange))
  {
    var s := digits + rest;
    assert s[0] == digits[0];
    assert Unsigned(s) == s;
    LeadingDigitsStop(digits, rest);
    assert !IsDigit(s[|digits|]);
  }

  /** The instance named above. */
  lemma ParseIntOverflowExample()
    ensures ParseInt(Digits(Uint64Modulus) + "a").Failed?
    ensures ParseInt(Digits(Uint64Modulus) + "a").err.reason == ErrRange
  {
    DigitsValueOfDigits(Uint64Modulus);
    ParseIntOverflowFirst(Digits(Uint64Modulus), "a");
  }

  lemma {:induction false} DigitsValueOfDigits(n: nat)
    ensures DigitsValue(Digits(n)) == n
  {
    var s := Digits(n);
    if n >= 10 {
      DigitsValueOfDigits(n / 10);
      assert s[..|s| - 1] == Digits(n / 10);
    }
  }

  /** The signed value that a decimal number denotes. */
  function DecimalValue(s: string): int
    requires DecimalSyntax(s)
  {
    if s[0] == '-' then -(DigitsValue(Unsigned(s)) as int) else DigitsValue(Unsigned(s))
  }

  /** A decimal number within the `int64` range is parsed to its value. */
  lemma ParseIntDecimal(s: string)
    requires DecimalSyntax(s) && InInt64(DecimalValue(s))
    ensures ParseInt(s) == Parsed(DecimalValue(s))
  {
    LeadingDigitsAll(Unsigned(s));
  }

  /** Parsing what `Itoa` printed gives the number back, for every `int64`. */
  lemma ParseIntItoa(n: int)
    requires InInt64(n)
    ensures ParseInt(Itoa(n)) == Parsed(n)
  {
    var s := Itoa(n);
    if n < 0 {
      assert Unsigned(s) == Digits(-n);
      DigitsValueOfDigits(-n);
    } else {
      assert IsDigit(s[0]);
      assert Unsigned(s) == Digits(n);
      DigitsValueOfDigits(n);
    }
    assert DecimalValue(s) == n;
    ParseIntDecimal(s);
  }

  /** Distinct numbers print differently, so a printed id identifies its number. */
  lemma ItoaInjective(a: int, b: int)
    requires Itoa(a) == Itoa(b)
    ensures a == b
  {
    if a < 0 {
      assert Itoa(a)[1..] == Digits(-a) && Itoa(b)[1..] == Digits(-b);
      DigitsValueOfDigits(-a);
      DigitsValueOfDigits(-b);
    } else {
      DigitsValueOfDigits(a);
      DigitsValueOfDigits(b);
    }
  }
}
