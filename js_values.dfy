/** Values as the TypeScript and JavaScript handlers see them: fields that may
    be absent, the truthiness of strings, `??`, and the decimal text that
    `Number.prototype.toString` gives an integer. */
module JsValues {

  /** A field that may be absent (`undefined` or `null`). */
  datatype Option<+T> = None | Some(value: T)

  /** A value, or an answer given early instead of one. */
  datatype Result<+T, +E> = Ok(value: T) | Err(error: E)

  /** JavaScript truthiness of an optional string: an absent value and "" are falsy. */
  predicate Truthy(s: Option<string>) {
    s.Some? && s.value != ""
  }

  /** `a ?? b`: falls through to `b` only when `a` is absent, never when it is "". */
  function Coalesce<T>(a: Option<T>, b: Option<T>): Option<T> {
    if a.Some? then a else b
  }

  /** `s || fallback` for an optional string. */
  function OrElse(s: Option<string>, fallback: string): string {
    if Truthy(s) then s.value else fallback
  }

  function DigitChar(d: nat): char
    requires d < 10
  {
    ('0' as int + d) as char
  }

  function DigitValue(c: char): nat {
    if '0' <= c <= '9' then c as int - '0' as int else 0
  }

  /** The decimal digits of `n`, most significant first, with no leading zero. */
  function NatToDecimal(n: nat): (s: string)
    ensures |s| > 0
    ensures forall i :: 0 <= i < |s| ==> '0' <= s[i] <= '9'
    ensures |s| > 1 ==> s[0] != '0'
    ensures n == 0 <==> s == "0"
    decreases n
  {
    if n < 10 then [DigitChar(n)] else NatToDecimal(n / 10) + [DigitChar(n % 10)]
  }

  /** `Number.prototype.toString()` of a safe integer (magnitude at most
      2^53), where the text is the exact decimal value. */
  function IntToString(n: int): (s: string)
    ensures |s| > 0
    ensures n >= 0 <==> s[0] != '-'
    ensures n >= 0 && |s| > 1 ==> s[0] != '0'
    ensures n < 0 ==> |s| > 1 && s[1] != '0'
  {
    if n < 0 then "-" + NatToDecimal(-n) else NatToDecimal(n)
  }

  /** Reads a string of decimal digits back as a number. */
  function DecimalValue(s: string): nat {
    if s == [] then 0 else DecimalValue(s[..|s| - 1]) * 10 + DigitValue(s[|s| - 1])
  }

  /** Reads back what IntToString writes: an optional minus sign, then digits. */
  function ParseInt(s: string): int {
    if |s| > 0 && s[0] == '-' then -(DecimalValue(s[1..]) as int) else DecimalValue(s)
  }

  lemma {:induction false} DecimalRoundTrip(n: nat)
    ensures DecimalValue(NatToDecimal(n)) == n
    decreases n
  {
    if n >= 10 {
      var s := NatToDecimal(n);
      var q, d := n / 10, n % 10;
      assert s == NatToDecimal(q) + [DigitChar(d)];
      assert s[..|s| - 1] == NatToDecimal(q);
      assert DigitValue(s[|s| - 1]) == d;
      DecimalRoundTrip(q);
      assert DecimalValue(s) == q * 10 + d;
    }
  }

  /** The text of an integer determines the integer. */
  lemma IntToStringRoundTrip(n: int)
    ensures ParseInt(IntToString(n)) == n
  {
    var s := IntToString(n);
    if n < 0 {
      var digits := NatToDecimal(-n);
      assert s == "-" + digits;
      assert s[0] == '-' && s[1..] == digits;
      DecimalRoundTrip(-n);
      assert ParseInt(s) == -(DecimalValue(digits) as int);
    } else {
      assert s == NatToDecimal(n) && '0' <= s[0] <= '9';
      DecimalRoundTrip(n);
      assert ParseInt(s) == DecimalValue(s);
    }
  }

  /** Two different integers never print the same. */
  lemma IntToStringInjective(m: int, n: int)
    ensures IntToString(m) == IntToString(n) ==> m == n
  {
    IntToStringRoundTrip(m);
    IntToStringRoundTrip(n);
  }
}
