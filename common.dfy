/** Small shared vocabulary: optional values, results, ASCII case mapping and
    decimal spelling of naturals (Python's `str(n)` for `n >= 0`). */
module Common {

  datatype Option<T> = None | Some(value: T)

  datatype Result<T, E> = Success(value: T) | Failure(error: E)

  /** `str.upper()` restricted to ASCII: only `a`..`z` change. */
  function Upper(c: char): (u: char)
    ensures 'a' <= c <= 'z' ==> 'A' <= u <= 'Z' && u as int == c as int - 32
    ensures !('a' <= c <= 'z') ==> u == c
  {
    if 'a' <= c <= 'z' then (c as int - 32) as char else c
  }

  /** `str.lower()` restricted to ASCII: only `A`..`Z` change. */
  function Lower(c: char): (l: char)
    ensures 'A' <= c <= 'Z' ==> 'a' <= l <= 'z' && l as int == c as int + 32
    ensures !('A' <= c <= 'Z') ==> l == c
  {
    if 'A' <= c <= 'Z' then (c as int + 32) as char else c
  }

  predicate IsDigit(c: char) { '0' <= c <= '9' }

  function DigitChar(d: nat): (c: char)
    requires d < 10
    ensures IsDigit(c) && c as int - '0' as int == d
  {
    ('0' as int + d) as char
  }

  /** Decimal spelling of a natural number, most significant digit first. */
  function DecimalString(n: nat): (s: string)
    ensures |s| >= 1
    decreases n
  {
    if n < 10 then [DigitChar(n)] else DecimalString(n / 10) + [DigitChar(n % 10)]
  }

  /** A number is written with digits only. */
  lemma {:induction false} DecimalStringDigits(n: nat)
    ensures forall k :: 0 <= k < |DecimalString(n)| ==> IsDigit(DecimalString(n)[k])
    decreases n
  {
    if n >= 10 {
      DecimalStringDigits(n / 10);
      var s := DecimalString(n);
      assert s == DecimalString(n / 10) + [DigitChar(n % 10)];
    }
  }

  /** Reads a string of digits back into the number it spells. */
  function ParseDecimal(s: string): nat
    decreases |s|
  {
    if s == [] then 0
    else
      var d := s[|s| - 1] as int - '0' as int;
      ParseDecimal(s[..|s| - 1]) * 10 + (if 0 <= d < 10 then d else 0)
  }

  lemma {:induction false} ParseDecimalString(n: nat)
    ensures ParseDecimal(DecimalString(n)) == n
    decreases n
  {
    var s := DecimalString(n);
    if n < 10 {
      assert s[..|s| - 1] == [];
    } else {
      ParseDecimalString(n / 10);
      assert s[..|s| - 1] == DecimalString(n / 10);
    }
  }
}
