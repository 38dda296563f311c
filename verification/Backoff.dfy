/** Retry times: exponential backoff with a try limit, in Go's 64-bit durations. */
module Backoff {
  import opened Basics

  const INT64_MIN := -0x8000_0000_0000_0000
  const INT64_MAX := 0x7fff_ffff_ffff_ffff

  /** The wiring of the crawler: five tries, five seconds, fifteen seconds. Durations are in nanoseconds. */
  datatype CrawlConfig = CrawlConfig(tryLim: int, tryBase: int, threshold: int)

  const DEFAULTS := CrawlConfig(5, 5_000_000_000, 15_000_000_000)

  /** Two's complement: the value of a Go int64 product. */
  function Wrap64(x: int): (r: int)
    ensures INT64_MIN <= r <= INT64_MAX
    ensures INT64_MIN <= x <= INT64_MAX ==> r == x
  {
    (x - INT64_MIN) % 0x1_0000_0000_0000_0000 + INT64_MIN
  }

  /** time.Duration(math.Pow(2, float64(try))): exact while it fits; amd64 converts a larger float to
      the smallest int64, and a negative power to 0. */
  function PowDuration(tries: int): int {
    if tries < 0 then 0 else if tries <= 62 then Pow2(tries) else INT64_MIN
  }

  function Delay(tryBase: int, tries: int): int {
    Wrap64(tryBase * PowDuration(tries))
  }

  /** None when the limit is reached; a limit of -1 is no limit. */
  function CalcRetryTime(tries: int, conf: CrawlConfig, now: int): Option<int> {
    if conf.tryLim != -1 && tries >= conf.tryLim then None else Some(now + Delay(conf.tryBase, tries))
  }

  lemma {:induction false} Pow2Grows(m: nat, n: nat)
    requires m <= n
    ensures Pow2(m) <= Pow2(n)
    ensures m < n ==> 2 * Pow2(m) <= Pow2(n)
    decreases n
  {
    if m < n {
      Pow2Grows(m, n - 1);
    }
  }

  /** From the 63rd try on the factor is the smallest int64: with an even base the product wraps to 0. */
  lemma WrapsToZero(tryBase: int, tries: nat)
    requires tries >= 63 && tryBase % 2 == 0
    ensures Delay(tryBase, tries) == 0
  {
    var half := tryBase / 2;
    assert tryBase * INT64_MIN == -half * 0x1_0000_0000_0000_0000;
  }

  /** A delay that fits is the mathematical one; a larger product never is. */
  lemma DelayExact(tryBase: nat, tries: nat)
    requires tries <= 62
    ensures Delay(tryBase, tries) == tryBase * Pow2(tries) <==> tryBase * Pow2(tries) <= INT64_MAX
  {
    assert tryBase * Pow2(tries) >= 0;
  }

  lemma Pow2Of30()
    ensures Pow2(30) == 0x4000_0000
  {
    assert Pow2(8) == 256;
    assert Pow2(16) == 256 * 256;
    assert Pow2(24) == 256 * 256 * 256;
  }

  /** With the configured base of five seconds the delay is the intended one exactly up to try 30; from
      31 on the product leaves int64. */
  lemma DelayExactUpTo30(tries: nat)
    ensures Delay(DEFAULTS.tryBase, tries) == DEFAULTS.tryBase * Pow2(tries) <==> tries <= 30
  {
    Pow2Of30();
    if tries <= 30 {
      Pow2Grows(tries, 30);
      DelayExact(DEFAULTS.tryBase, tries);
    } else if tries <= 62 {
      Pow2Grows(30, tries);
      DelayExact(DEFAULTS.tryBase, tries);
    } else {
      WrapsToZero(DEFAULTS.tryBase, tries);
    }
  }

  ghost function TotalDelay(tryBase: int, n: nat): int {
    if n == 0 then 0 else TotalDelay(tryBase, n - 1) + Delay(tryBase, n - 1)
  }

  lemma Doubled(tryBase: nat, n: nat)
    requires n > 0
    ensures tryBase * Pow2(n) == tryBase * Pow2(n - 1) + tryBase * Pow2(n - 1)
    ensures 0 <= tryBase * Pow2(n - 1)
  {
  }

  /** The first n delays add up to base * 2^n - base whenever the last of them fits. */
  lemma {:induction false} TotalDelayClosed(tryBase: nat, n: nat)
    requires n > 0 ==> n <= 63 && tryBase * Pow2(n - 1) <= INT64_MAX
    ensures TotalDelay(tryBase, n) == tryBase * Pow2(n) - tryBase
  {
    if n > 0 {
      Doubled(tryBase, n);
      DelayExact(tryBase, n - 1);
      if n > 1 { Doubled(tryBase, n - 1); }
      TotalDelayClosed(tryBase, n - 1);
    }
  }

  /** So each delay that fits exceeds all earlier ones together. */
  lemma DelayExceedsEarlier(tryBase: nat, n: nat)
    requires tryBase > 0 && n <= 62 && tryBase * Pow2(n) <= INT64_MAX
    ensures TotalDelay(tryBase, n) < Delay(tryBase, n)
  {
    if n > 0 { Doubled(tryBase, n); }
    TotalDelayClosed(tryBase, n);
    DelayExact(tryBase, n);
  }

  /** With the configured limit a URL that has had up to four tries gets another, five seconds times a power of two
      later, and one that has had five does not. */
  lemma DefaultRetries(tries: nat, now: int)
    ensures CalcRetryTime(tries, DEFAULTS, now) ==
            if tries <= 4 then Some(now + 5_000_000_000 * Pow2(tries)) else None
  {
    if tries <= 4 {
      DelayExactUpTo30(tries);
    }
  }
}
