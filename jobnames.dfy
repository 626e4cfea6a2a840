/** Scheduled-job names: `message-` followed by the creation time in epoch
    milliseconds, written in decimal as a JavaScript template literal does. */
module JobNames {
  import opened Wrappers

  const Prefix := "message-"

  predicate IsDigit(c: char) {
    '0' as int <= c as int <= '9' as int
  }

  function DigitValue(c: char): (d: nat)
    requires IsDigit(c)
    ensures d < 10
  {
    (c as int) - ('0' as int)
  }

  function DigitChar(d: nat): (c: char)
    requires d < 10
    ensures IsDigit(c) && DigitValue(c) == d
  {
    (('0' as int) + d) as char
  }

  /** The decimal numeral of `n`: only digits, and no leading zero. */
  function Decimal(n: nat): (s: string)
    ensures |s| >= 1
    ensures forall i :: 0 <= i < |s| ==> IsDigit(s[i])
    ensures s[0] == '0' ==> n == 0 && s == "0"
    decreases n
  {
    if n < 10 then [DigitChar(n)] else Decimal(n / 10) + [DigitChar(n % 10)]
  }

  /** The number a string of digits denotes (the inverse of Decimal). */
  function ParseDecimal(s: string): nat
    requires forall i :: 0 <= i < |s| ==> IsDigit(s[i])
    decreases |s|
  {
    if s == [] then 0
    else ParseDecimal(s[..|s| - 1]) * 10 + DigitValue(s[|s| - 1])
  }

  /** Decimal and ParseDecimal round-trip. */
  lemma {:induction false} DecimalRoundTrip(n: nat)
    ensures ParseDecimal(Decimal(n)) == n
    decreases n
  {
    if n >= 10 {
      var s := Decimal(n);
      assert s[..|s| - 1] == Decimal(n / 10);
      DecimalRoundTrip(n / 10);
    }
  }

  /** The name under which a job created at time `now` is registered. */
  function JobName(now: nat): (name: string)
    ensures |name| > |Prefix| && name[..|Prefix|] == Prefix
  {
    Prefix + Decimal(now)
  }

  /** Reads back the creation time from a job name, if it has this form. */
  function JobTime(name: string): Option<nat> {
    if |name| > |Prefix| && name[..|Prefix|] == Prefix
       && (forall i :: |Prefix| <= i < |name| ==> IsDigit(name[i]))
    then Some(ParseDecimal(name[|Prefix|..]))
    else None
  }

  /** A job name records its creation time exactly. */
  lemma {:induction false} JobNameRoundTrip(now: nat)
    ensures JobTime(JobName(now)) == Some(now)
  {
    var name := JobName(now);
    assert name[|Prefix|..] == Decimal(now);
    DecimalRoundTrip(now);
  }

  /** Jobs created at different times get different names. */
  lemma {:induction false} JobNameInjective(a: nat, b: nat)
    requires a != b
    ensures JobName(a) != JobName(b)
  {
    JobNameRoundTrip(a);
    JobNameRoundTrip(b);
  }
}
