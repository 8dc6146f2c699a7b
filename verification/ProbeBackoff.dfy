/** The delay before the next probe of a provider
    (internal/controller/probe_backoff.go:29-55). Durations are in nanoseconds. */
module ProbeBackoff {
  import opened Prelude

  const MAX_BACKOFF: nat := 600_000_000_000
  const MAX_INTERVALS: nat := 10

  function Min(a: int, b: int): int { if a < b then a else b }

  function Max(a: int, b: int): int { if a > b then a else b }

  /** The wait at `now`, given when the Healthy condition turned False, if it is:
      never below the interval, and the interval itself while the provider is not failing. */
  function ProbeRequeue(failedAt: Option<int>, interval: nat, now: int): (wait: int)
    ensures interval <= wait <= 10 * interval || wait == interval
    ensures wait > interval ==> failedAt.Some? && wait - interval <= now - failedAt.value && wait <= MAX_BACKOFF
  {
    if failedAt.None? then interval
    else
      var failing := now - failedAt.value;
      if failing <= 0 then interval
      else Min(interval + failing, Max(Min(MAX_INTERVALS * interval, MAX_BACKOFF), interval))
  }

  function Pow2(n: nat): nat {
    if n == 0 then 1 else 2 * Pow2(n - 1)
  }

  /** Ten intervals or ten minutes, whichever is less, and never below the interval. */
  function Ceiling(interval: nat): int {
    Max(Min(MAX_INTERVALS * interval, MAX_BACKOFF), interval)
  }

  /** The time of the n-th probe of a failure first probed at `start`, each probe
      running exactly when the one before asked for it. */
  function ProbeAt(failedAt: int, interval: nat, start: int, n: nat): int {
    if n == 0 then start
    else
      var t := ProbeAt(failedAt, interval, start, n - 1);
      t + ProbeRequeue(Some(failedAt), interval, t)
  }

  /** What the n-th probe would wait if nothing held it down. */
  function Uncapped(failedAt: int, interval: nat, start: int, n: nat): int {
    Pow2(n) * (interval + (start - failedAt))
  }

  lemma {:induction false} FailingTime(failedAt: int, interval: nat, start: int, n: nat)
    requires start >= failedAt
    ensures var x, failing := Uncapped(failedAt, interval, start, n), ProbeAt(failedAt, interval, start, n) - failedAt;
            && failing >= 0
            && (interval + failing == x || (interval + failing >= Ceiling(interval) && x >= Ceiling(interval)))
  {
    if n > 0 {
      FailingTime(failedAt, interval, start, n - 1);
      Doubling(Pow2(n - 1), interval + (start - failedAt));
      assert Uncapped(failedAt, interval, start, n) == 2 * Uncapped(failedAt, interval, start, n - 1);
      hide Uncapped, Pow2;
    }
  }

  lemma Doubling(p: nat, x: int)
    ensures (2 * p) * x == 2 * (p * x)
  {}

  /** During one failure each wait is twice the one before, up to the ceiling. The
      first is the interval when the condition turned False as the first probe
      failed; storing that time cuts off a part of a second, which then counts as
      time already failed. */
  lemma BackoffDoubles(failedAt: int, interval: nat, start: int, n: nat)
    requires start >= failedAt
    ensures ProbeRequeue(Some(failedAt), interval, ProbeAt(failedAt, interval, start, n))
            == Min(Pow2(n) * (interval + (start - failedAt)), Max(Min(10 * interval, 600_000_000_000), interval))
  {
    hide ProbeAt;
    FailingTime(failedAt, interval, start, n);
  }
}
