/** Vocabulary shared by every handler: optional and fallible values, the
    error kinds the handlers answer with, the fixed-width integer casts of the
    Rust code, and the decimal formatting that `format!("{}", n)` performs. */
module Common {

  datatype Option<T> = None | Some(value: T) {
    /** The value, or `default` when there is none (`unwrap_or`). */
    function GetOr(default: T): T {
      match this
      case Some(v) => v
      case None => default
    }
  }

  datatype Result<T, E> = Ok(value: T) | Err(error: E)

  /** The handler errors; each carries the offending field where there is one. */
  datatype FieldError =
    | PermissionDeny
    | NotFound(field: string)
    | InvalidParams(field: string)
    | AlreadyExist(field: string)
    | DatabaseFailed(detail: string)

  const U32_MODULUS: int := 0x1_0000_0000
  const I32_LIMIT: int := 0x8000_0000

  /** Values of Rust's `u32`. */
  type u32 = x: int | 0 <= x < U32_MODULUS

  /** `x as u32`, and wrapping `u32` arithmetic: keep the low 32 bits. */
  function AsU32(x: int): (r: u32)
    ensures 0 <= x < U32_MODULUS ==> r == x
    ensures (x - r) % U32_MODULUS == 0
  {
    x % U32_MODULUS
  }

  /** `x as i32` on a 64-bit timestamp: the low 32 bits read as two's complement.
      The result is the one value of the `i32` range congruent to `x`. */
  function AsI32(x: int): (r: int)
    ensures -I32_LIMIT <= r < I32_LIMIT
    ensures AsU32(r) == AsU32(x)
  {
    var low := x % U32_MODULUS;
    if low < I32_LIMIT then low else low - U32_MODULUS
  }

  predicate IsDigit(c: char) {
    '0' <= c <= '9'
  }

  predicate AllDigits(s: string) {
    forall i :: 0 <= i < |s| ==> IsDigit(s[i])
  }

  function DigitChar(d: nat): (c: char)
    requires d < 10
    ensures IsDigit(c) && c as int - '0' as int == d
  {
    (d + '0' as int) as char
  }

  function DigitValue(c: char): (d: nat)
    requires IsDigit(c)
    ensures d < 10
  {
    c as int - '0' as int
  }

  /** `format!("{}", n)` for an unsigned integer: decimal digits, most
      significant first, with no leading zero except for 0 itself. */
  function DecimalString(n: nat): (s: string)
    ensures |s| >= 1 && AllDigits(s)
    ensures |s| == 1 <==> n < 10
    ensures s[0] == '0' ==> n == 0
    decreases n
  {
    if n < 10 then [DigitChar(n)] else DecimalString(n / 10) + [DigitChar(n % 10)]
  }

  /** Reads a string of decimal digits back as a number. */
  function ParseDecimal(s: string): nat
    requires AllDigits(s)
    decreases |s|
  {
    if s == [] then 0 else 10 * ParseDecimal(s[..|s| - 1]) + DigitValue(s[|s| - 1])
  }

  /** Formatting loses nothing: the digits read back as the number. */
  lemma {:induction false} ParseDecimalString(n: nat)
    ensures ParseDecimal(DecimalString(n)) == n
    decreases n
  {
    if n >= 10 {
      var s := DecimalString(n);
      assert s[..|s| - 1] == DecimalString(n / 10);
      ParseDecimalString(n / 10);
    }
  }

  /** Different numbers are formatted differently. */
  lemma DecimalStringInjective(a: nat, b: nat)
    requires DecimalString(a) == DecimalString(b)
    ensures a == b
  {
    ParseDecimalString(a);
    ParseDecimalString(b);
  }

  function Pow10(k: nat): (p: nat)
    ensures p >= 1
  {
    if k == 0 then 1 else 10 * Pow10(k - 1)
  }

  /** A number with k + 1 significant digits is formatted with k + 1 characters. */
  lemma {:induction false} DecimalStringLength(n: nat, k: nat)
    requires Pow10(k) <= n < Pow10(k + 1)
    ensures |DecimalString(n)| == k + 1
    decreases k
  {
    if k > 0 {
      assert Pow10(k) == 10 * Pow10(k - 1);
      assert Pow10(k + 1) == 10 * Pow10(k);
      DecimalStringLength(n / 10, k - 1);
    }
  }
}
