/**
 * The anonymous session identifier of MetricsTracker.jsx: `session-<timestamp>-<random>`,
 * where the timestamp is the current instant in milliseconds and the random component is
 * `Math.floor(Math.random() * 1000000)`. The parser is not part of the source; it is the
 * inverse that shows the format loses nothing.
 */
module SessionIds {
  import opened Wrappers

  /** Exclusive upper bound of the random component. */
  const RandomBound: nat := 1000000

  const Prefix: string := "session-"

  predicate IsDigit(c: char) {
    '0' <= c <= '9'
  }

  predicate AllDigits(s: string) {
    forall i :: 0 <= i < |s| ==> IsDigit(s[i])
  }

  function DigitChar(d: nat): (c: char)
    requires d < 10
    ensures IsDigit(c) && c as int - '0' as int == d
  {
    ('0' as int + d) as char
  }

  /**
   * How a template literal renders a non-negative integer: plain decimal digits,
   * no sign and no leading zero.
   */
  function Decimal(n: nat): (s: string)
    ensures |s| > 0 && AllDigits(s)
    ensures |s| > 1 ==> s[0] != '0'
    decreases n
  {
    if n < 10 then [DigitChar(n)] else Decimal(n / 10) + [DigitChar(n % 10)]
  }

  function ParseDecimal(s: string): (n: nat)
    requires AllDigits(s)
    decreases |s|
  {
    if s == [] then 0 else 10 * ParseDecimal(s[..|s| - 1]) + (s[|s| - 1] as int - '0' as int)
  }

  /** Reading back the rendering of `n` gives `n`. */
  lemma {:induction false} ParseDecimalInverse(n: nat)
    ensures ParseDecimal(Decimal(n)) == n
    decreases n
  {
    if n >= 10 {
      ParseDecimalInverse(n / 10);
      var s := Decimal(n);
      assert s[..|s| - 1] == Decimal(n / 10);
    }
  }

  /** generateSessionId with the clock reading and the random draw as parameters. */
  function GenerateSessionId(timestamp: nat, random: nat): (id: string)
    requires random < RandomBound
    ensures |id| > |Prefix| && id[..|Prefix|] == Prefix
  {
    Prefix + Decimal(timestamp) + "-" + Decimal(random)
  }

  /** Index of the first '-' at or after `from`, or |s| when there is none. */
  function FirstDash(s: string, from: nat): (k: nat)
    requires from <= |s|
    ensures from <= k <= |s|
    ensures forall j :: from <= j < k ==> s[j] != '-'
    ensures k < |s| ==> s[k] == '-'
    decreases |s| - from
  {
    if from == |s| || s[from] == '-' then from else FirstDash(s, from + 1)
  }

  /** Recovers the timestamp and the random component of a generated identifier. */
  function ParseSessionId(id: string): Option<(nat, nat)>
  {
    if |id| < |Prefix| || id[..|Prefix|] != Prefix then None
    else
      var rest := id[|Prefix|..];
      var k := FirstDash(rest, 0);
      if k == |rest| then None
      else
        var t, r := rest[..k], rest[k + 1..];
        if t != [] && r != [] && AllDigits(t) && AllDigits(r)
        then Some((ParseDecimal(t), ParseDecimal(r)))
        else None
  }

  /** The identifier format is lossless: both components can be read back. */
  lemma SessionIdRoundTrip(timestamp: nat, random: nat)
    requires random < RandomBound
    ensures ParseSessionId(GenerateSessionId(timestamp, random)) == Some((timestamp, random))
  {
    var id := GenerateSessionId(timestamp, random);
    var dt, dr := Decimal(timestamp), Decimal(random);
    var rest := id[|Prefix|..];
    assert rest == dt + "-" + dr;
    assert forall j :: 0 <= j < |dt| ==> rest[j] == dt[j] && IsDigit(rest[j]);
    var k := FirstDash(rest, 0);
    assert rest[|dt|] == '-';
    assert k == |dt|;
    assert rest[..k] == dt;
    assert rest[k + 1..] == dr;
    ParseDecimalInverse(timestamp);
    ParseDecimalInverse(random);
  }

  /** Two identifiers are equal only when they come from the same clock reading and draw. */
  lemma GenerateSessionIdInjective(t1: nat, r1: nat, t2: nat, r2: nat)
    requires r1 < RandomBound && r2 < RandomBound
    requires GenerateSessionId(t1, r1) == GenerateSessionId(t2, r2)
    ensures t1 == t2 && r1 == r2
  {
    SessionIdRoundTrip(t1, r1);
    SessionIdRoundTrip(t2, r2);
  }
}
