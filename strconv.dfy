/** strconv.Atoi and strconv.Itoa (also `fmt`'s `%d`) on Go's 64-bit `int`. */
module Strconv {
  import opened Results

  const MaxInt: int := 0x7FFF_FFFF_FFFF_FFFF
  const MinInt: int := -0x8000_0000_0000_0000

  predicate IsDigit(c: char) {
    '0' <= c <= '9'
  }

  predicate AllDigits(s: string) {
    forall i :: 0 <= i < |s| ==> IsDigit(s[i])
  }

  function DigitValue(c: char): nat
    requires IsDigit(c)
  {
    c as int - '0' as int
  }

  /** The number a string of decimal digits denotes, most significant digit first. */
  function DigitsValue(s: string): nat
    requires AllDigits(s)
  {
    if s == "" then 0 else 10 * DigitsValue(s[..|s| - 1]) + DigitValue(s[|s| - 1])
  }

  /** The shortest decimal digits of `n`. */
  function Digits(n: nat): (s: string)
    ensures s != "" && AllDigits(s)
  {
    if n < 10 then [('0' as int + n) as char] else Digits(n / 10) + [('0' as int + n % 10) as char]
  }

  lemma {:induction false} DigitsRoundTrip(n: nat)
    ensures DigitsValue(Digits(n)) == n
  {
    if n >= 10 {
      DigitsRoundTrip(n / 10);
      var s := Digits(n);
      assert s[..|s| - 1] == Digits(n / 10);
    }
  }

  /** Distinct numbers have distinct decimal forms. */
  lemma DigitsInjective(m: nat, n: nat)
    requires Digits(m) == Digits(n)
    ensures m == n
  {
    DigitsRoundTrip(m);
    DigitsRoundTrip(n);
  }

  /** strconv.Itoa, and `%d` in fmt.Sprintf. */
  function Itoa(n: int): (s: string)
    ensures s != ""
  {
    if n < 0 then "-" + Digits(-n) else Digits(n)
  }

  /** The sign Atoi accepts and the digits after it. */
  function SplitSign(s: string): (bool, string) {
    if |s| > 0 && (s[0] == '-' || s[0] == '+') then (s[0] == '-', s[1..]) else (false, s)
  }

  /** The unbounded value of a well-formed decimal integer. */
  function SignedValue(s: string): int
    requires SplitSign(s).1 != "" && AllDigits(SplitSign(s).1)
  {
    var (negative, body) := SplitSign(s);
    if negative then -(DigitsValue(body) as int) else DigitsValue(body)
  }

  predicate WellFormed(s: string) {
    SplitSign(s).1 != "" && AllDigits(SplitSign(s).1)
  }

  /**
   * strconv.Atoi: an optional sign and at least one decimal digit, denoting a
   * value of Go's 64-bit `int`. `None` is Atoi's error.
   */
  function Atoi(s: string): (r: Option<int>)
    ensures r.Some? <==> WellFormed(s) && MinInt <= SignedValue(s) <= MaxInt
    ensures r.Some? ==> r.value == SignedValue(s)
  {
    if WellFormed(s) && MinInt <= SignedValue(s) <= MaxInt then Some(SignedValue(s)) else None
  }

  /**
   * The number Atoi returns beside its error: 0 for a syntax error and the
   * nearest representable value when the number is out of range.
   */
  function AtoiValue(s: string): (v: int)
    ensures MinInt <= v <= MaxInt
    ensures Atoi(s).Some? ==> v == Atoi(s).value
    ensures !WellFormed(s) ==> v == 0
  {
    if !WellFormed(s) then 0
    else if SignedValue(s) > MaxInt then MaxInt
    else if SignedValue(s) < MinInt then MinInt
    else SignedValue(s)
  }

  /** What Itoa prints, Atoi reads back. */
  lemma AtoiItoa(n: int)
    requires MinInt <= n <= MaxInt
    ensures Atoi(Itoa(n)) == Some(n)
  {
    var s := Itoa(n);
    if n < 0 {
      DigitsRoundTrip(-n);
      assert SplitSign(s).1 == Digits(-n);
    } else {
      DigitsRoundTrip(n);
      assert SplitSign(s).1 == Digits(n);
    }
  }
}
