/**
 * Shared vocabulary of the model: optional values, results with an error
 * value, and the two string operations the sources use (prefix tests and the
 * decimal rendering of a numeric identifier inside a string concatenation).
 */
module Common {

  /** A value that may be absent: Java's `Optional`, a nullable reference. */
  datatype Option<+T> = None | Some(value: T)

  /** The outcome of an operation that either returns a value or throws. */
  datatype Result<+T, +E> = Success(value: T) | Failure(error: E)

  /** `s.startsWith(prefix)`, in Java and in JavaScript alike. */
  predicate StartsWith(s: string, prefix: string)
  {
    |prefix| <= |s| && s[..|prefix|] == prefix
  }

  function Digit(d: nat): (c: char)
    requires d < 10
    ensures '0' <= c <= '9'
  {
    "0123456789"[d]
  }

  function DigitValue(c: char): (d: nat)
    requires '0' <= c <= '9'
    ensures d < 10 && Digit(d) == c
  {
    (c - '0') as nat
  }

  /** The text of a non-negative number, as `"receipt_" + id` renders a Java `Long`. */
  function DecimalString(n: nat): (r: string)
    ensures |r| >= 1
    ensures forall i :: 0 <= i < |r| ==> '0' <= r[i] <= '9'
    decreases n
  {
    if n < 10 then [Digit(n)] else DecimalString(n / 10) + [Digit(n % 10)]
  }

  /** Reads a string of decimal digits back as a number. */
  function ParseDecimal(s: string): (n: nat)
    requires forall i :: 0 <= i < |s| ==> '0' <= s[i] <= '9'
    decreases |s|
  {
    if s == [] then 0 else 10 * ParseDecimal(s[..|s| - 1]) + DigitValue(s[|s| - 1])
  }

  /** The rendering loses nothing: different identifiers give different texts. */
  lemma {:induction false} DecimalRoundTrip(n: nat)
    ensures ParseDecimal(DecimalString(n)) == n
    decreases n
  {
    if n >= 10 {
      var q, d := n / 10, n % 10;
      var s := DecimalString(q) + [Digit(d)];
      assert s == DecimalString(n);
      assert s[..|s| - 1] == DecimalString(q);
      DecimalRoundTrip(q);
      assert DigitValue(s[|s| - 1]) == d;
      assert ParseDecimal(s) == 10 * q + d;
    }
  }

  /** Two identifiers rendered after the same prefix give the same string only if they are equal. */
  lemma PrefixedIdsInjective(prefix: string, a: nat, b: nat)
    requires prefix + DecimalString(a) == prefix + DecimalString(b)
    ensures a == b
  {
    var sa, sb := prefix + DecimalString(a), prefix + DecimalString(b);
    assert DecimalString(a) == sa[|prefix|..];
    assert DecimalString(b) == sb[|prefix|..];
    DecimalRoundTrip(a);
    DecimalRoundTrip(b);
  }
}
