/** Bounded exponential backoff with bounded jitter. */
module Retry {
  import opened Common

  const RETRY_BASE: Time := SECOND
  const RETRY_CAP: Time := 5 * MINUTE

  function Pow2(n: nat): nat { if n == 0 then 1 else 2 * Pow2(n - 1) }

  /** The capped exponential that the jitter is added to. */
  function Backoff(attempt: int): Time {
    Min(RETRY_CAP, RETRY_BASE * Pow2(Max(attempt, 1) - 1))
  }

  /** The largest delay a hash can lead to. */
  function Ceiling(attempt: int): Time {
    Min(RETRY_CAP, Backoff(attempt) + Backoff(attempt) / 5)
  }

  /** The delay for a given value of the identifier's hash. */
  function Delay(attempt: int, hash: nat): Time {
    Backoff(attempt) + hash % (Ceiling(attempt) - Backoff(attempt) + 1)
  }

  lemma {:induction false} Pow2Monotone(a: nat, b: nat)
    requires a <= b
    ensures 1 <= Pow2(a) <= Pow2(b)
    ensures a < b ==> 2 * Pow2(a) <= Pow2(b)
    decreases b
  {
    if a < b { Pow2Monotone(a, b - 1); } else if a > 0 { Pow2Monotone(a - 1, b - 1); }
  }

  lemma BackoffDoubles(a: int, b: int)
    requires a < b && 1 <= b
    ensures RETRY_BASE <= Backoff(a) <= Backoff(b) <= RETRY_CAP
    ensures Backoff(b) >= Min(RETRY_CAP, 2 * Backoff(a)) || a < 1
  {
    Pow2Monotone(Max(a, 1) - 1, b - 1);
  }

  /**
   * Every delay lies between the exponential, one second doubled for each earlier attempt and at most
   * five minutes, and a fifth more, capped again.
   */
  lemma DelayBounds(attempt: int, hash: nat)
    ensures var base := Min(5 * MINUTE, SECOND * Pow2(Max(attempt, 1) - 1));
            SECOND <= base <= Delay(attempt, hash) <= Min(5 * MINUTE, base + base / 5)
    ensures RETRY_BASE <= Backoff(attempt) <= Delay(attempt, hash) <= Ceiling(attempt) <= RETRY_CAP
  {
    Pow2Monotone(0, Max(attempt, 1) - 1);
  }

  /** Whatever the permitted delay is, some hash leads to it: the jitter covers its whole range. */
  lemma JitterCovers(attempt: int, delay: Time)
    requires var base := Min(5 * MINUTE, SECOND * Pow2(Max(attempt, 1) - 1));
             base <= delay <= Min(5 * MINUTE, base + base / 5)
    ensures delay >= Backoff(attempt) && Delay(attempt, delay - Backoff(attempt)) == delay
  {
    Pow2Monotone(0, Max(attempt, 1) - 1);
    SmallRemainder(delay - Backoff(attempt), Ceiling(attempt) - Backoff(attempt) + 1);
    hide Pow2;
  }

  lemma SmallRemainder(a: nat, n: int)
    requires a < n
    ensures a % n == a
  {
  }

  /** A later attempt never waits less, whatever the hashes of the two attempts are. */
  lemma DelayMonotone(a: int, b: int, hashA: nat, hashB: nat)
    requires a <= b && (Max(a, 1) == Max(b, 1) ==> hashA == hashB)
    ensures Delay(a, hashA) <= Delay(b, hashB)
  {
    DelayBounds(a, hashA);
    DelayBounds(b, hashB);
    if Max(a, 1) < b { BackoffDoubles(Max(a, 1), b); }
  }

  method RetryDelay(attempt0: int, hash: nat) returns (r: Time)
    ensures r == Delay(attempt0, hash)
  {
    var attempt := attempt0;
    if attempt < 1 { attempt := 1; }
    var delay := RETRY_BASE;
    var index := 1;
    Pow2Monotone(0, attempt - 1);
    while index < attempt && delay < RETRY_CAP
      invariant 1 <= index <= attempt
      invariant delay == Backoff(index)
    {
      BackoffDoubles(index, index + 1);
      if delay > RETRY_CAP / 2 {
        if index + 1 < attempt { BackoffDoubles(index + 1, attempt); }
        delay := RETRY_CAP;
        break;
      }
      delay := delay * 2;
      index := index + 1;
    }
    if index < attempt && delay == Backoff(index) { BackoffDoubles(index, attempt); }
    assert delay == Backoff(attempt);
    if delay >= RETRY_CAP { return RETRY_CAP; }
    var room := RETRY_CAP - delay;
    var jitterBound := delay / 5;
    if jitterBound > room { jitterBound := room; }
    if jitterBound <= 0 { return delay; }
    return delay + hash % (jitterBound + 1);
  }
}
