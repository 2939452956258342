/**
 * The pieces of the Java platform the audit handler relies on: nullable
 * references, the exception kinds it throws and catches, decimal text of a
 * `long` (`Long.toString` / `Long.valueOf`).
 */
module Lang {

  datatype Option<+T> = None | Some(value: T)

  datatype Result<+R, +E> = Success(value: R) | Failure(error: E)

  /** The outcome of a `void` method: it returns normally or throws. */
  datatype Outcome<+E> = Pass | Fail(error: E)

  /** A `java.lang.String` reference; `None` is `null`. */
  type JString = Option<string>

  /** How string concatenation renders a reference: `null` becomes "null". */
  function Str(s: JString): string {
    if s.Some? then s.value else "null"
  }

  /** `StringUtils.isEmpty`: null or of length zero. */
  predicate IsEmpty(s: JString) {
    s.None? || s.value == ""
  }

  /** ASCII lower-casing, enough to compare against an all-ASCII literal. */
  function ToLower(c: char): char {
    if 'A' <= c <= 'Z' then (c as int + 32) as char else c
  }

  /** `String.equalsIgnoreCase` for a lower-case ASCII literal `lit`. */
  predicate EqualsIgnoreCase(s: string, lit: string) {
    |s| == |lit| && forall i :: 0 <= i < |s| ==> ToLower(s[i]) == lit[i]
  }

  /**
   * The exceptions the handler and its DAO throw or catch. HandlerException
   * and InitializationException come from the audit framework; the others are
   * the JDK's and Guava's.
   */
  datatype Error =
    | HandlerException(message: string, cause: Error)
    | InitializationException(message: string, cause: Error)
    | SQLException(reason: string)
    | ExecutionException(cause: Error)
    | UncheckedExecutionException(cause: Error)
    | IllegalArgumentException(message: string)
    | UnsupportedOperationException(message: string)
    | NumberFormatException(input: string)
    | NullPointerException(what: string)

  /** Checked exceptions must be declared; the rest propagate freely. */
  predicate IsChecked(e: Error) {
    e.HandlerException? || e.InitializationException? || e.SQLException? || e.ExecutionException?
  }

  // ---------------------------------------------------------------------
  // Decimal text of a 64-bit `long`
  // ---------------------------------------------------------------------

  const LongMin: int := -0x8000_0000_0000_0000
  const LongMax: int := 0x7FFF_FFFF_FFFF_FFFF

  /** A Java `int`. */
  type Int32 = x: int | -0x8000_0000 <= x <= 0x7FFF_FFFF

  /** A Java `long`. */
  type Long = x: int | -0x8000_0000_0000_0000 <= x <= 0x7FFF_FFFF_FFFF_FFFF

  predicate IsDigit(c: char) {
    '0' <= c <= '9'
  }

  predicate AllDigits(s: string) {
    forall i :: 0 <= i < |s| ==> IsDigit(s[i])
  }

  function DigitChar(d: nat): (c: char)
    requires d < 10
    ensures IsDigit(c)
  {
    ('0' as int + d) as char
  }

  /** The decimal digits of `n`, most significant first, without leading zeros. */
  function Digits(n: nat): (s: string)
    ensures |s| > 0 && AllDigits(s)
    ensures n > 0 ==> s[0] != '0'
    decreases n
  {
    if n < 10 then [DigitChar(n)] else Digits(n / 10) + [DigitChar(n % 10)]
  }

  /** The number a string of decimal digits denotes. */
  function DigitsValue(s: string): nat
    requires AllDigits(s)
  {
    if s == [] then 0 else DigitsValue(s[..|s| - 1]) * 10 + (s[|s| - 1] as int - '0' as int)
  }

  /** `Long.toString(n)`: an optional minus sign followed by the digits of |n|. */
  function LongToString(n: Long): string {
    if n < 0 then "-" + Digits(Abs(n)) else Digits(n)
  }

  function Abs(x: int): nat {
    if x < 0 then -x else x
  }

  /**
   * `Long.valueOf(s)`: an optional sign followed by at least one decimal digit,
   * denoting a value in the `long` range; anything else (including null) is a
   * NumberFormatException, here `None`.
   */
  function ParseLong(s: JString): Option<Long> {
    if s.None? || s.value == "" then None
    else
      var t := s.value;
      var digits := if t[0] == '-' || t[0] == '+' then t[1..] else t;
      if digits == [] || !AllDigits(digits) then None
      else
        var v: int := if t[0] == '-' then 0 - DigitsValue(digits) else DigitsValue(digits);
        if LongMin <= v <= LongMax then Some(v) else None
  }

  lemma {:induction false} DigitsValueOfDigits(n: nat)
    ensures DigitsValue(Digits(n)) == n
    decreases n
  {
    var s := Digits(n);
    if n < 10 {
      assert s[..|s| - 1] == [];
    } else {
      assert s[..|s| - 1] == Digits(n / 10);
      DigitsValueOfDigits(n / 10);
    }
  }

  /** An identifier written with `toString` is read back unchanged by `valueOf`. */
  lemma LongRoundTrip(n: Long)
    ensures ParseLong(Some(LongToString(n))) == Some(n)
  {
    DigitsValueOfDigits(Abs(n));
    if n < 0 {
      assert ("-" + Digits(Abs(n)))[1..] == Digits(Abs(n));
    }
  }
}
