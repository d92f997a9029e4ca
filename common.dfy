/** Shared vocabulary of the synthetic-data generator: optional values, UTC time
    as integer microseconds, the truncated division Python's `int(x / y)`
    performs, the opaque identifiers `_rand_uuid` produces, and decimal rendering
    of row numbers. */
module Common {

  datatype Option<T> = None | Some(value: T)

  /** Timestamps are microseconds since the Unix epoch, in UTC; dates are day
      numbers since the epoch. */
  const MicrosPerSecond: int := 1_000_000
  const SecondsPerDay: int := 86_400
  const MicrosPerDay: int := 86_400_000_000

  /** Whole days in a span of microseconds, rounded down: both the calendar date
      of a UTC timestamp and the `.days` of a time difference. */
  function FloorDays(t: int): (d: int)
    ensures d * MicrosPerDay <= t < (d + 1) * MicrosPerDay
  {
    t / MicrosPerDay
  }

  /** Midnight (UTC) at the start of day number `d`. */
  function Midnight(d: int): (t: int)
    ensures FloorDays(t) == d
    ensures FloorDays(t - 1) == d - 1
  {
    d * MicrosPerDay
  }

  /** `int(a / b)` in Python: the quotient rounded toward zero. */
  function TruncDiv(a: int, b: int): int
    requires b > 0
  {
    if a >= 0 then a / b else -((-a) / b)
  }

  function Max(a: int, b: int): (m: int)
    ensures m >= a && m >= b && (m == a || m == b)
  {
    if a >= b then a else b
  }

  /** The random part of an identifier (the first twelve hexadecimal digits of
      a random UUID), modelled as any string of twelve characters and kept
      opaque: nothing makes two tokens differ, so identifiers built from them
      are not claimed unique. */
  type IdToken = s: string | |s| == 12 witness "000000000000"

  /** An identifier `<prefix>_<token>`, as `_rand_uuid` builds it. */
  function RandId(prefix: string, token: IdToken): (id: string)
    ensures |id| == |prefix| + 13
    ensures id[..|prefix|] == prefix && id[|prefix|] == '_' && id[|prefix| + 1..] == token
  {
    prefix + "_" + token
  }

  /** The first `n` groups, concatenated in order. */
  function Concat<T>(groups: seq<seq<T>>, n: nat): seq<T>
    requires n <= |groups|
  {
    if n == 0 then [] else Concat(groups, n - 1) + groups[n - 1]
  }

  /** An element of the concatenation is element `k` of group `i`. */
  lemma {:induction false} ConcatOrigin<T>(groups: seq<seq<T>>, n: nat, x: T) returns (i: nat, k: nat)
    requires n <= |groups| && x in Concat(groups, n)
    ensures i < n && k < |groups[i]| && groups[i][k] == x
  {
    if x in groups[n - 1] {
      i := n - 1;
      k :| 0 <= k < |groups[i]| && groups[i][k] == x;
    } else {
      i, k := ConcatOrigin(groups, n - 1, x);
    }
  }

  /** Every element of a concatenated group is in the concatenation. */
  lemma {:induction false} ConcatContains<T>(groups: seq<seq<T>>, n: nat, i: nat, x: T)
    requires i < n <= |groups| && x in groups[i]
    ensures x in Concat(groups, n)
  {
    if i < n - 1 {
      ConcatContains(groups, n - 1, i, x);
    }
  }

  predicate IsDigit(c: char) { '0' <= c <= '9' }

  function DigitChar(n: nat): (c: char)
    requires n < 10
    ensures IsDigit(c) && c as int - '0' as int == n
  {
    "0123456789"[n]
  }

  /** Decimal rendering of a natural number without leading zeros, as Python's
      f-string formats a non-negative int. */
  function Decimal(n: nat): (s: string)
    ensures |s| >= 1
    ensures forall i :: 0 <= i < |s| ==> IsDigit(s[i])
    ensures (|s| > 1) == (n >= 10)
  {
    if n < 10 then [DigitChar(n)] else Decimal(n / 10) + [DigitChar(n % 10)]
  }

  /** The value of a string of decimal digits. */
  function ParseDecimal(s: string): nat
    requires forall i :: 0 <= i < |s| ==> IsDigit(s[i])
  {
    if s == [] then 0
    else
      assert IsDigit(s[|s| - 1]);
      ParseDecimal(s[..|s| - 1]) * 10 + (s[|s| - 1] as int - '0' as int)
  }

  lemma {:induction false} DecimalRoundTrip(n: nat)
    ensures ParseDecimal(Decimal(n)) == n
  {
    if n >= 10 {
      var s := Decimal(n);
      assert s[..|s| - 1] == Decimal(n / 10);
      DecimalRoundTrip(n / 10);
    }
  }

  /** Distinct numbers render as distinct strings. */
  lemma DecimalInjective(m: nat, n: nat)
    requires Decimal(m) == Decimal(n)
    ensures m == n
  {
    DecimalRoundTrip(m);
    DecimalRoundTrip(n);
  }
}
