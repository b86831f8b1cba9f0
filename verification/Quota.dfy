/** Back-off of jobs that wait for quota (recovery/quota.py, retry_at; job_manager.py,
    _enter_quota_wait counts the waits). Times are seconds. */
module Quota {
  import opened Wrappers

  function Max(a: int, b: int): int {
    if a > b then a else b
  }

  function Min(a: int, b: int): int {
    if a < b then a else b
  }

  function Pow2(n: nat): (p: nat)
    ensures p > n
  {
    if n == 0 then 1 else 2 * Pow2(n - 1)
  }

  /** min(initial * 2^(attempt - 1), maximum), with both settings forced to be sensible. */
  function Delay(attempt: int, initialSeconds: int, maxSeconds: int): int {
    var initial := Max(initialSeconds, 1);
    Min(initial * Pow2(Max(attempt - 1, 0)), Max(maxSeconds, initial))
  }

  function RetryAt(attempt: int, initialSeconds: int, maxSeconds: int, reset: Option<int>, graceSeconds: int,
        now: int): int {
    if reset.Some? && reset.value + Max(graceSeconds, 0) > now then reset.value + Max(graceSeconds, 0)
    else now + Delay(attempt, initialSeconds, maxSeconds)
  }

  /** The back-off as a sequence: it starts at the initial delay and doubles up to the maximum. */
  function Doubling(n: nat, initial: int, maximum: int): int
    requires n >= 1
  {
    if n == 1 then initial else Min(2 * Doubling(n - 1, initial, maximum), maximum)
  }

  /** The n-th consecutive wait without a usable hint is delayed by the n-th doubling. */
  lemma {:induction false} DelayDoubles(n: nat, initialSeconds: int, maxSeconds: int)
    requires n >= 1
    ensures var initial := Max(initialSeconds, 1);
            Delay(n, initialSeconds, maxSeconds) == Doubling(n, initial, Max(maxSeconds, initial))
  {
    if n > 1 {
      DelayDoubles(n - 1, initialSeconds, maxSeconds);
      var initial, p := Max(initialSeconds, 1), Pow2(n - 2);
      assert Pow2(n - 1) == 2 * p;
      assert initial * (2 * p) == 2 * (initial * p);
    } else {
      assert Pow2(0) == 1;
    }
  }

  /** The delay is positive, never exceeds the maximum, and in the end reaches it. */
  lemma DelayBounds(attempt: int, initialSeconds: int, maxSeconds: int)
    ensures 0 < Delay(attempt, initialSeconds, maxSeconds) <= Max(maxSeconds, Max(initialSeconds, 1))
    ensures attempt > Max(maxSeconds, 1) ==>
              Delay(attempt, initialSeconds, maxSeconds) == Max(maxSeconds, Max(initialSeconds, 1))
  {
    var initial, p := Max(initialSeconds, 1), Pow2(Max(attempt - 1, 0));
    assert initial * p >= initial && initial * p >= p by {
      Scale(initial, p);
    }
  }

  lemma Scale(a: int, b: int)
    requires a >= 1 && b >= 1
    ensures a * b >= a && a * b >= b
  {
  }

  /** The retry lies in the future. A hint that, with the grace period, still lies ahead decides it; without one
      the n-th consecutive wait is delayed by the n-th term of the sequence. */
  lemma RetryIsAhead(attempt: int, initialSeconds: int, maxSeconds: int, reset: Option<int>, graceSeconds: int, now: int)
    ensures var at := RetryAt(attempt, initialSeconds, maxSeconds, reset, graceSeconds, now);
            var grace := if graceSeconds > 0 then graceSeconds else 0;
            var initial := if initialSeconds > 1 then initialSeconds else 1;
            var maximum := if maxSeconds > initial then maxSeconds else initial;
            && at > now
            && (reset.Some? && reset.value + grace > now ==> at == reset.value + grace)
            && (reset.None? || reset.value + grace <= now ==>
                  at == now + Doubling(if attempt > 1 then attempt else 1, initial, maximum))
  {
    DelayDoubles(if attempt > 1 then attempt else 1, initialSeconds, maxSeconds);
    DelayBounds(attempt, initialSeconds, maxSeconds);
  }

  /** Waiting longer never shortens the next delay. */
  lemma {:induction false} DelayGrows(m: nat, n: nat, initialSeconds: int, maxSeconds: int)
    requires 1 <= m <= n
    ensures Delay(m, initialSeconds, maxSeconds) <= Delay(n, initialSeconds, maxSeconds)
    decreases n
  {
    if m < n {
      DelayGrows(m, n - 1, initialSeconds, maxSeconds);
      DelayDoubles(n - 1, initialSeconds, maxSeconds);
      DelayDoubles(n, initialSeconds, maxSeconds);
      DelayBounds(n - 1, initialSeconds, maxSeconds);
    }
  }
}
