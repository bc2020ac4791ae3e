/**
 * Generated identifiers `${prefix}_${Date.now()}_${suffix}`, where the suffix is
 * `Math.random().toString(36).substr(2, 9)`. The clock reading and the random
 * suffix are parameters.
 */
module Ids {
  import opened Digits

  function DigitChar(d: nat): (c: char)
    requires d < 10
    ensures IsDigit(c)
  {
    ('0' as int + d) as char
  }

  /** The decimal rendering of a millisecond count, as JavaScript prints an integer. */
  function Decimal(n: nat): (r: string)
    ensures |r| >= 1 && AllDigits(r)
    decreases n
  {
    if n < 10 then [DigitChar(n)] else Decimal(n / 10) + [DigitChar(n % 10)]
  }

  /** The value of a string of decimal digits. */
  function DecimalValue(s: string): nat
    requires AllDigits(s)
  {
    if s == [] then 0 else 10 * DecimalValue(s[..|s| - 1]) + (s[|s| - 1] as int - '0' as int)
  }

  /** Reading back a printed millisecond count gives the count. */
  lemma {:induction false} DecimalRoundTrip(n: nat)
    ensures DecimalValue(Decimal(n)) == n
    decreases n
  {
    var r := Decimal(n);
    if n >= 10 {
      DecimalRoundTrip(n / 10);
      assert r[..|r| - 1] == Decimal(n / 10);
    }
  }

  /** `${prefix}_${nowMs}_${suffix}`. */
  function GeneratedId(prefix: string, nowMs: nat, suffix: string): string {
    prefix + "_" + Decimal(nowMs) + "_" + suffix
  }

  /** Two strings with no `_` in front of a `_` split the same way. */
  lemma SplitAtUnderscore(x: string, y: string, x': string, y': string)
    requires AllDigits(x) && AllDigits(x')
    requires x + "_" + y == x' + "_" + y'
    ensures x == x' && y == y'
  {
    var i := if |x| < |x'| then |x| else |x'|;
    assert (x + "_" + y)[i] == (x' + "_" + y')[i];
    assert i < |x| ==> IsDigit(x[i]);
    assert i < |x'| ==> IsDigit(x'[i]);
    assert |x| == |x'|;
    assert x == (x + "_" + y)[..|x|];
    assert x' == (x' + "_" + y')[..|x'|];
    assert y == (x + "_" + y)[|x| + 1..];
    assert y' == (x' + "_" + y')[|x'| + 1..];
  }

  /** A generated id starts with its prefix and an underscore, and the clock reading and suffix can be read back from it. */
  lemma GeneratedIdInjective(prefix: string, ms: nat, suffix: string, ms': nat, suffix': string)
    requires GeneratedId(prefix, ms, suffix) == GeneratedId(prefix, ms', suffix')
    ensures ms == ms' && suffix == suffix'
  {
    var id := GeneratedId(prefix, ms, suffix);
    var rest := Decimal(ms) + "_" + suffix;
    var rest' := Decimal(ms') + "_" + suffix';
    assert id == prefix + "_" + rest;
    assert GeneratedId(prefix, ms', suffix') == prefix + "_" + rest';
    assert rest == id[|prefix| + 1..] == rest';
    SplitAtUnderscore(Decimal(ms), suffix, Decimal(ms'), suffix');
    DecimalRoundTrip(ms);
    DecimalRoundTrip(ms');
  }

  lemma GeneratedIdShape(prefix: string, ms: nat, suffix: string)
    ensures |GeneratedId(prefix, ms, suffix)| > |prefix| + 1
    ensures GeneratedId(prefix, ms, suffix)[..|prefix| + 1] == prefix + "_"
  {
    assert GeneratedId(prefix, ms, suffix) == (prefix + "_") + (Decimal(ms) + "_" + suffix);
  }
}
