/**
 * The derived slot series of a Monitor: every instant congruent to its offset modulo its interval.
 * Instants are nanoseconds, but the series is computed on whole seconds with truncated division.
 */
module Schedule {
  import opened Common

  // ---------------------------------------------------------------------------------------------
  // Division
  // ---------------------------------------------------------------------------------------------

  /** Integer division as the program's language defines it: towards zero. */
  function TruncDiv(a: int, b: int): int
    requires b != 0
  {
    if a >= 0 then a / b else -((-a) / b)
  }

  function TruncRem(a: int, b: int): int
    requires b != 0
  {
    a - TruncDiv(a, b) * b
  }

  /** `q` is the quotient of `a` and `b` rounded towards negative infinity. */
  ghost predicate IsFloor(q: int, a: int, b: int)
    requires b != 0
  {
    if b > 0 then q * b <= a < q * b + b else q * b + b < a <= q * b
  }

  lemma FloorIsUnique(p: int, q: int, a: int, b: int)
    requires b != 0 && IsFloor(p, a, b) && IsFloor(q, a, b)
    ensures p == q
  {
    if p < q {
      if b > 0 { Scale(p + 1, q, b); } else { Scale(p + 1, q, -b); }
    } else if q < p {
      if b > 0 { Scale(q + 1, p, b); } else { Scale(q + 1, p, -b); }
    }
  }

  lemma Scale(a: int, b: int, n: int)
    requires a <= b && n >= 0
    ensures a * n <= b * n && a * n == -(a * -n) && b * n == -(b * -n)
  {
    assert (b - a) * n >= 0;
  }

  lemma TruncIsNear(a: int, b: int)
    requires b != 0
    ensures var q, r := TruncDiv(a, b), TruncRem(a, b);
            && a == q * b + r && (r == 0 || (r > 0) == (a > 0)) && -Abs(b) < r < Abs(b)
  {
    var n := if a >= 0 then a else -a;
    var q, r := n / b, n % b;
    DivMod(n, b);
    Negated(q, b);
    assert TruncDiv(a, b) == if a >= 0 then q else -q;
    assert TruncRem(a, b) == if a >= 0 then r else -r;
    hide TruncDiv, TruncRem;
  }

  lemma Negated(q: int, b: int)
    ensures (-q) * b == -(q * b)
  {
  }

  lemma DivMod(a: int, b: int)
    requires b != 0
    ensures a == a / b * b + a % b && 0 <= a % b < Abs(b)
  {
  }

  function Abs(a: int): int { if a >= 0 then a else -a }

  /** The program's floor division is the floor, and the only one, for every sign of its operands. */
  method FloorDiv(dividend: int, divisor: int) returns (quotient: int)
    requires divisor != 0
    ensures IsFloor(quotient, dividend, divisor)
    ensures forall q :: IsFloor(q, dividend, divisor) ==> q == quotient
  {
    TruncIsNear(dividend, divisor);
    quotient := TruncDiv(dividend, divisor);
    if TruncRem(dividend, divisor) != 0 && (dividend < 0) != (divisor < 0) {
      quotient := quotient - 1;
    }
    forall q | IsFloor(q, dividend, divisor) ensures q == quotient {
      FloorIsUnique(q, quotient, dividend, divisor);
    }
  }

  // ---------------------------------------------------------------------------------------------
  // The series
  // ---------------------------------------------------------------------------------------------

  /** The configured interval, unless the operator's floor is higher. */
  function EffectiveInterval(configured: Time, floor: Time): (interval: Time)
    ensures configured <= interval && floor <= interval
    ensures interval == configured || (interval == floor && configured < floor)
  {
    Max(configured, floor)
  }

  predicate WholeSeconds(interval: Time) { interval > 0 && interval % SECOND == 0 }

  /** Offsets spread Monitors over the interval; the digest of the identifier is not modelled. */
  function SlotOffset(digest: nat, interval: Time): (offset: Time)
    ensures WholeSeconds(interval) ==> 0 <= offset < interval && offset % SECOND == 0
  {
    if interval < SECOND then 0 else (digest % (interval / SECOND)) * SECOND
  }

  /** Every whole second within the interval is some Monitor's offset, so slots do spread. */
  lemma OffsetsSpread(interval: Time, offset: Time)
    requires WholeSeconds(interval) && 0 <= offset < interval && offset % SECOND == 0
    ensures SlotOffset(offset / SECOND, interval) == offset
  {
    var q, n := offset / SECOND, interval / SECOND;
    assert offset == q * SECOND && interval == n * SECOND;
    assert 0 <= q < n;
    SmallRemainder(q, n);
  }

  lemma SmallRemainder(a: nat, n: int)
    requires a < n
    ensures a % n == a
  {
  }

  ghost predicate OnSeries(t: Time, offset: Time, interval: Time)
    requires interval > 0
  {
    (t - offset) % interval == 0
  }

  /** The latest point of the series that has arrived. */
  function SlotAt(offset: Time, interval: Time, now: Time): Time
    requires interval > 0
  {
    now - (now - offset) % interval
  }

  /** The current slot is the one point of the series with `slot <= now < slot + interval`. */
  lemma SlotIsCurrent(offset: Time, interval: Time, now: Time, t: Time)
    requires interval > 0
    ensures var slot := SlotAt(offset, interval, now);
            && slot <= now < slot + interval && OnSeries(slot, offset, interval)
            && (OnSeries(t, offset, interval) && t <= now < t + interval ==> t == slot)
  {
    var m := (now - offset) % interval;
    Remainder(now - offset - m, (now - offset) / interval, interval);
    if OnSeries(t, offset, interval) && t <= now < t + interval {
      RemainderOf(now - offset, (t - offset) / interval, now - t, interval);
    }
  }

  lemma Remainder(a: int, q: int, n: int)
    requires n > 0 && a == q * n
    ensures a % n == 0 && a / n == q
  {
    RemainderOf(a, q, 0, n);
  }

  lemma RemainderOf(a: int, q: int, r: int, n: int)
    requires n > 0 && a == q * n + r && 0 <= r < n
    ensures a / n == q && a % n == r
  {
    var p := a / n;
    assert a == p * n + a % n;
    if p < q { Scale(p + 1, q, n); } else if q < p { Scale(q + 1, p, n); }
  }

  /** Later instants never have earlier slots, and a point of the series is its own slot. */
  lemma SlotIsMonotone(offset: Time, interval: Time, a: Time, b: Time)
    requires interval > 0 && a <= b
    ensures SlotAt(offset, interval, a) <= SlotAt(offset, interval, b)
    ensures OnSeries(a, offset, interval) ==> SlotAt(offset, interval, a) == a
  {
    var s, t := SlotAt(offset, interval, a), SlotAt(offset, interval, b);
    SlotIsCurrent(offset, interval, a, a);
    SlotIsCurrent(offset, interval, b, b);
    if t < s { var _ := Steps(t, s, offset, interval); }
  }

  /** Two points of the series are a whole number of intervals apart. */
  lemma Steps(a: Time, b: Time, offset: Time, interval: Time) returns (k: int)
    requires interval > 0 && OnSeries(a, offset, interval) && OnSeries(b, offset, interval)
    ensures b - a == k * interval && (a < b ==> k >= 1) && (a == b ==> k == 0)
    ensures a < b ==> b - a >= interval
  {
    var p, q := (a - offset) / interval, (b - offset) / interval;
    assert a - offset == p * interval && b - offset == q * interval;
    k := q - p;
    assert k * interval == q * interval - p * interval;
    if a < b && k <= 0 { Scale(k, 0, interval); }
    if a == b && k != 0 { if k > 0 { Scale(1, k, interval); } else { Scale(k, -1, interval); } }
    if a < b { Scale(1, k, interval); }
  }

  /** The program's computation, on whole seconds since the epoch. */
  method SlotFor(digest: nat, interval: Time, now: Time) returns (r: Result<Time, ()>)
    ensures r.Ok? <==> WholeSeconds(interval)
    ensures r.Ok? ==> r.value == SlotAt(SlotOffset(digest, interval), interval, now)
  {
    var seconds := TruncDiv(interval, SECOND);
    if seconds <= 0 || TruncRem(interval, SECOND) != 0 {
      SecondsOf(interval);
      return Err(());
    }
    SecondsOf(interval);
    var offset := SlotOffset(digest, interval) / SECOND;
    var unix := now / SECOND;
    var index := FloorDiv(unix - offset, seconds);
    var slot := (index * seconds + offset) * SECOND;
    ghost var o := SlotOffset(digest, interval);
    assert o == offset * SECOND && interval == seconds * SECOND;
    assert slot - o == index * interval by {
      assert (index * seconds) * SECOND == index * (seconds * SECOND);
    }
    Remainder(slot - o, index, interval);
    SlotIsCurrent(o, interval, now, slot);
    return Ok(slot);
  }

  lemma SecondsOf(interval: Time)
    ensures WholeSeconds(interval) <==>
            TruncDiv(interval, SECOND) > 0 && TruncRem(interval, SECOND) == 0
    ensures WholeSeconds(interval) ==> interval == TruncDiv(interval, SECOND) * SECOND
  {
    if interval < 0 { assert (-interval) / SECOND >= 0; }
  }

  // ---------------------------------------------------------------------------------------------
  // Missed slots
  // ---------------------------------------------------------------------------------------------

  /** The points before `current` and after `after`, newest first, at most `limit` of them. */
  function Missed(interval: Time, current: Time, after: Option<Time>, limit: nat)
    : (missed: seq<Time>)
    ensures |missed| <= limit
    decreases limit
  {
    var t := current - interval;
    if limit == 0 || (after.Some? && t <= after.value) then []
    else [t] + Missed(interval, t, after, limit - 1)
  }

  /** A point of the series strictly between the bounds. */
  ghost predicate Between(t: Time, interval: Time, current: Time, after: Option<Time>)
    requires interval > 0
  {
    (current - t) % interval == 0 && t < current && (after.Some? ==> after.value < t)
  }

  /** A point between the bounds is the newest one, or lies before that one. */
  lemma BetweenStep(t: Time, interval: Time, current: Time, after: Option<Time>)
    requires interval > 0
    ensures var next := current - interval;
            Between(t, interval, current, after) <==>
              (t == next && (after.Some? ==> after.value < t)) || Between(t, interval, next, after)
  {
    Multiples(current, t, interval);
    Shift(current - t, interval);
  }

  /** The point `k + 1` intervals before the current one. */
  function Back(current: Time, interval: Time, k: int): Time { current - (k + 1) * interval }

  lemma BackShifts(current: Time, interval: Time, k: int)
    ensures Back(current, interval, k + 1) == Back(current - interval, interval, k)
    ensures Back(current, interval, 0) == current - interval
  {
    assert (k + 1 + 1) * interval == (k + 1) * interval + interval;
  }

  lemma {:induction false} MissedAreSpaced(
    interval: Time, current: Time, after: Option<Time>, limit: nat)
    requires interval > 0
    ensures var missed := Missed(interval, current, after, limit);
            forall k :: 0 <= k < |missed| ==> missed[k] == Back(current, interval, k)
    decreases limit
  {
    hide Back;
    var missed := Missed(interval, current, after, limit);
    if missed != [] {
      var rest := Missed(interval, current - interval, after, limit - 1);
      MissedAreSpaced(interval, current - interval, after, limit - 1);
      forall k | 0 <= k < |missed| ensures missed[k] == Back(current, interval, k) {
        BackShifts(current, interval, k - 1);
        if k > 0 { assert missed[k] == rest[k - 1]; }
      }
    }
  }

  /** They are the newest points strictly between the bounds. */
  lemma {:induction false} MissedAreNewest(
    interval: Time, current: Time, after: Option<Time>, limit: nat, t: Time)
    requires interval > 0
    ensures t in Missed(interval, current, after, limit) <==>
              Between(t, interval, current, after) && current - limit * interval <= t
    decreases limit
  {
    var next := current - interval;
    BetweenStep(t, interval, current, after);
    if limit == 0 {
    } else if after.Some? && next <= after.value {
    } else {
      MissedAreNewest(interval, next, after, limit - 1, t);
      assert (limit - 1) * interval == limit * interval - interval;
      FirstFits(limit, interval);
      hide Between;
    }
  }

  lemma FirstFits(limit: nat, interval: Time)
    requires limit >= 1 && interval > 0
    ensures limit * interval >= interval
  {
    Scale(1, limit, interval);
  }

  /** A point strictly before another is at least one interval before it. */
  lemma Multiples(current: Time, t: Time, interval: Time)
    requires interval > 0
    ensures (current - t) % interval == 0 && t < current ==> t <= current - interval
  {
    if (current - t) % interval == 0 && t < current {
      var k := (current - t) / interval;
      assert current - t == k * interval;
      if k <= 0 { Scale(k, 0, interval); } else { Scale(1, k, interval); }
    }
  }

  lemma Shift(a: int, n: int)
    requires n > 0
    ensures a % n == (a - n) % n
  {
    RemainderOf(a - n, a / n - 1, a % n, n);
  }

  method MissedSlots(interval: Time, current: Time, after: Option<Time>, limit: int)
    returns (r: Result<seq<Time>, ()>)
    ensures r.Err? <==> limit >= 1 && !WholeSeconds(interval)
    ensures r.Ok? ==> r.value == if limit < 1 then [] else Missed(interval, current, after, limit)
  {
    if limit < 1 { return Ok([]); }
    SecondsOf(interval);
    if TruncDiv(interval, SECOND) <= 0 || TruncRem(interval, SECOND) != 0 { return Err(()); }
    var missed: seq<Time> := [];
    var candidate := current - interval;
    while |missed| < limit
      invariant |missed| <= limit
      invariant Missed(interval, current, after, limit)
             == missed + Missed(interval, candidate + interval, after, limit - |missed|)
      decreases limit - |missed|
    {
      if after.Some? && candidate <= after.value { break; }
      missed := missed + [candidate];
      candidate := candidate - interval;
    }
    return Ok(missed);
  }
}
