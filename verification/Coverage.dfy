/**
 * What a scheduler's ticks cover: which points of a Monitor's slot series it attempts, which it
 * hands over to be recorded as skipped, and exactly when nothing in between is left out.
 */
module Coverage {
  import opened Common
  import opened Schedule

  /** One Monitor on the clock: its series, the instant it last changed, and the backfill bound. */
  datatype Series = Series(interval: Time, offset: Time, notBefore: Option<Time>, limit: nat)

  /** What one scheduler process did for the Monitor so far. */
  datatype Memory = Memory(last: Option<Time>, attempted: seq<Time>, handed: seq<Time>)

  const NOTHING := Memory(None, [], [])

  function Later(a: Option<Time>, b: Option<Time>): Option<Time> {
    if b.Some? && (a.None? || b.value > a.value) then b else a
  }

  predicate Suppressed(s: Series, m: Memory, now: Time)
    requires s.interval > 0
  {
    m.last.Some? && SlotAt(s.offset, s.interval, now) <= m.last.value
  }

  function OneTick(s: Series, m: Memory, now: Time): Memory
    requires s.interval > 0
  {
    if Suppressed(s, m, now) then m
    else
      var due := SlotAt(s.offset, s.interval, now);
      Memory(Some(due), m.attempted + [due],
             m.handed + Missed(s.interval, due, Later(m.last, s.notBefore), s.limit))
  }

  function Ticks(s: Series, nows: seq<Time>): Memory
    requires s.interval > 0
  {
    if nows == [] then NOTHING
    else var n := |nows| - 1; OneTick(s, Ticks(s, nows[..n]), nows[n])
  }

  ghost predicate Covered(m: Memory, t: Time) { t in m.attempted || t in m.handed }

  /** The points a scheduler owes: the first it attempted, and every later-than-bound one since. */
  ghost predicate Owed(s: Series, m: Memory, t: Time)
    requires s.interval > 0
  {
    && m.last.Some? && m.attempted != []
    && (t == m.attempted[0]
        || (OnSeries(t, s.offset, s.interval) && t <= m.last.value
            && (s.notBefore.Some? ==> s.notBefore.value < t)))
  }

  /** The gap a tick has to backfill holds at most `limit` points. */
  ghost predicate GapFits(s: Series, m: Memory, now: Time)
    requires s.interval > 0
  {
    Suppressed(s, m, now)
    || (var bound := Later(m.last, s.notBefore);
        bound.Some?
        && SlotAt(s.offset, s.interval, now) - (s.limit + 1) * s.interval <= bound.value)
  }

  ghost predicate GapsFit(s: Series, nows: seq<Time>)
    requires s.interval > 0
  {
    nows == []
    || (GapsFit(s, nows[..|nows| - 1])
        && GapFits(s, Ticks(s, nows[..|nows| - 1]), nows[|nows| - 1]))
  }

  /** The Monitor last changed before the first tick. */
  ghost predicate Eligible(s: Series, nows: seq<Time>) {
    forall k :: 0 <= k < |nows| && s.notBefore.Some? ==> s.notBefore.value <= nows[k]
  }

  ghost predicate Increasing(a: seq<Time>) { forall i, j :: 0 <= i < j < |a| ==> a[i] < a[j] }

  /** Attempts move forward along the series; only the first may precede the Monitor's change. */
  ghost predicate MemoryInv(s: Series, m: Memory)
    requires s.interval > 0
  {
    && (m.last.None? <==> m.attempted == [])
    && (m.last.None? ==> m.handed == [])
    && (m.last.Some? ==> m.last.value == m.attempted[|m.attempted| - 1])
    && Increasing(m.attempted)
    && (forall t :: t in m.attempted ==> OnSeries(t, s.offset, s.interval))
    && (forall k :: 1 <= k < |m.attempted| && s.notBefore.Some? ==>
          s.notBefore.value < m.attempted[k])
    && (m.last.Some? && s.notBefore.Some? ==> s.notBefore.value < m.last.value + s.interval)
    && (forall t :: t in m.handed ==> Owed(s, m, t) && t !in m.attempted && t < m.last.value)
    && Distinct(m.handed)
  }

  /** A tick that is not suppressed moves on by at least one interval. */
  lemma TickMoves(s: Series, m: Memory, now: Time)
    requires s.interval > 0 && MemoryInv(s, m) && !Suppressed(s, m, now)
    requires s.notBefore.Some? ==> s.notBefore.value <= now
    ensures var due := SlotAt(s.offset, s.interval, now);
            && OnSeries(due, s.offset, s.interval)
            && (m.last.Some? ==> m.last.value + s.interval <= due)
            && (m.last.Some? && s.notBefore.Some? ==> s.notBefore.value < due)
            && (s.notBefore.Some? ==> s.notBefore.value < due + s.interval)
  {
    var due := SlotAt(s.offset, s.interval, now);
    SlotIsCurrent(s.offset, s.interval, now, due);
    if m.last.Some? { var _ := Steps(m.last.value, due, s.offset, s.interval); }
  }

  /** Exactly which points a tick hands over. */
  lemma HandedOver(s: Series, m: Memory, now: Time, t: Time)
    requires s.interval > 0 && MemoryInv(s, m) && !Suppressed(s, m, now)
    requires s.notBefore.Some? ==> s.notBefore.value <= now
    ensures var due := SlotAt(s.offset, s.interval, now);
            var bound := Later(m.last, s.notBefore);
            t in Missed(s.interval, due, bound, s.limit) <==>
              OnSeries(t, s.offset, s.interval) && t < due
              && (m.last.Some? ==> m.last.value < t)
              && (s.notBefore.Some? ==> s.notBefore.value < t)
              && due - s.limit * s.interval <= t
  {
    var due := SlotAt(s.offset, s.interval, now);
    TickMoves(s, m, now);
    MissedAreNewest(s.interval, due, Later(m.last, s.notBefore), s.limit, t);
    SameClass(t, due, s.offset, s.interval);
  }

  lemma SameClass(t: Time, due: Time, offset: Time, interval: Time)
    requires interval > 0 && OnSeries(due, offset, interval)
    ensures (due - t) % interval == 0 <==> OnSeries(t, offset, interval)
  {
    var q := (due - offset) / interval;
    assert due - offset == q * interval;
    if OnSeries(t, offset, interval) {
      var p := (t - offset) / interval;
      assert t - offset == p * interval;
      assert due - t == (q - p) * interval;
      Remainder(due - t, q - p, interval);
    }
    if (due - t) % interval == 0 {
      var p := (due - t) / interval;
      assert due - t == p * interval;
      assert t - offset == (q - p) * interval;
      Remainder(t - offset, q - p, interval);
    }
  }

  lemma MissedAreDistinct(interval: Time, current: Time, after: Option<Time>, limit: nat)
    requires interval > 0
    ensures Distinct(Missed(interval, current, after, limit))
  {
    MissedAreSpaced(interval, current, after, limit);
    var missed := Missed(interval, current, after, limit);
    forall i, j | 0 <= i < j < |missed| ensures missed[i] != missed[j] {
      Scale(1, j - i, interval);
      assert missed[i] == Back(current, interval, i) && missed[j] == Back(current, interval, j);
      assert (j + 1) * interval == (i + 1) * interval + (j - i) * interval;
    }
  }

  lemma DistinctTogether(a: seq<Time>, b: seq<Time>)
    requires Distinct(a) && Distinct(b) && forall t :: t in b ==> t !in a
    ensures Distinct(a + b)
  {
    var c := a + b;
    forall i, j | 0 <= i < j < |c| ensures c[i] != c[j] {
      if i < |a| <= j { assert c[j] in b && c[i] in a; }
    }
  }

  lemma TickKeepsInv(s: Series, m: Memory, now: Time)
    requires s.interval > 0 && MemoryInv(s, m)
    requires s.notBefore.Some? ==> s.notBefore.value <= now
    ensures MemoryInv(s, OneTick(s, m, now))
  {
    if !Suppressed(s, m, now) {
      var after := OneTick(s, m, now);
      var due := SlotAt(s.offset, s.interval, now);
      var missed := Missed(s.interval, due, Later(m.last, s.notBefore), s.limit);
      TickMoves(s, m, now);
      MissedAreDistinct(s.interval, due, Later(m.last, s.notBefore), s.limit);
      forall t | t in after.handed
        ensures Owed(s, after, t) && t !in after.attempted && t < due
      {
        HandedOver(s, m, now, t);
        if t in m.handed { assert Owed(s, m, t); }
      }
      forall t | t in missed ensures t !in m.handed { HandedOver(s, m, now, t); }
      DistinctTogether(m.handed, missed);
    }
  }

  lemma {:induction false} TicksKeepInv(s: Series, nows: seq<Time>)
    requires s.interval > 0 && Eligible(s, nows)
    ensures MemoryInv(s, Ticks(s, nows))
    decreases |nows|
  {
    if nows != [] {
      var n := |nows| - 1;
      TicksKeepInv(s, nows[..n]);
      TickKeepsInv(s, Ticks(s, nows[..n]), nows[n]);
    }
  }

  /**
   * No slot is attempted twice or handed over twice, attempts move forward, and only points the
   * Monitor owes are covered; the first attempt alone may precede the Monitor's last change.
   */
  lemma CoverageIsSound(s: Series, nows: seq<Time>, t: Time)
    requires s.interval > 0 && Eligible(s, nows)
    ensures var m := Ticks(s, nows);
            && Increasing(m.attempted) && Distinct(m.handed)
            && (t in m.attempted ==> t !in m.handed)
            && (Covered(m, t) ==> Owed(s, m, t))
  {
    TicksKeepInv(s, nows);
  }

  /** A tick whose gap fits leaves nothing out. */
  lemma FittingTickCovers(s: Series, m: Memory, now: Time, t: Time)
    requires s.interval > 0 && MemoryInv(s, m) && GapFits(s, m, now)
    requires s.notBefore.Some? ==> s.notBefore.value <= now
    requires Owed(s, m, t) ==> Covered(m, t)
    ensures Owed(s, OneTick(s, m, now), t) ==> Covered(OneTick(s, m, now), t)
  {
    var after := OneTick(s, m, now);
    if !Suppressed(s, m, now) && Owed(s, after, t) {
      var due := SlotAt(s.offset, s.interval, now);
      TickMoves(s, m, now);
      HandedOver(s, m, now, t);
      if t < due && (m.last.Some? ==> m.last.value < t) && t != after.attempted[0] {
        var k := Steps(t, due, s.offset, s.interval);
        if k > s.limit { Scale(s.limit + 1, k, s.interval); } else { Scale(k, s.limit, s.interval); }
      }
    }
  }

  /** A tick whose gap does not fit leaves the oldest point of the gap out for good. */
  lemma OversizedTickMisses(s: Series, m: Memory, now: Time) returns (t: Time)
    requires s.interval > 0 && MemoryInv(s, m) && !GapFits(s, m, now)
    requires s.notBefore.Some? ==> s.notBefore.value <= now
    ensures Owed(s, OneTick(s, m, now), t) && !Covered(OneTick(s, m, now), t)
  {
    var due := SlotAt(s.offset, s.interval, now);
    t := due - (s.limit + 1) * s.interval;
    assert (s.limit + 1) * s.interval == s.limit * s.interval + s.interval;
    TickMoves(s, m, now);
    HandedOver(s, m, now, t);
    Remainder(due - t, s.limit + 1, s.interval);
    SameClass(t, due, s.offset, s.interval);
    Scale(0, s.limit, s.interval);
  }

  /** What earlier ticks left out is never made up for. */
  lemma MissedForGood(s: Series, m: Memory, now: Time, t: Time)
    requires s.interval > 0 && MemoryInv(s, m) && Owed(s, m, t) && !Covered(m, t)
    requires s.notBefore.Some? ==> s.notBefore.value <= now
    ensures Owed(s, OneTick(s, m, now), t) && !Covered(OneTick(s, m, now), t)
  {
    if !Suppressed(s, m, now) {
      TickMoves(s, m, now);
      HandedOver(s, m, now, t);
    }
  }

  lemma {:induction false} FittingGapsCover(s: Series, nows: seq<Time>, t: Time)
    requires s.interval > 0 && Eligible(s, nows) && GapsFit(s, nows)
    ensures Owed(s, Ticks(s, nows), t) ==> Covered(Ticks(s, nows), t)
    decreases |nows|
  {
    if nows != [] {
      var n := |nows| - 1;
      FittingGapsCover(s, nows[..n], t);
      TicksKeepInv(s, nows[..n]);
      FittingTickCovers(s, Ticks(s, nows[..n]), nows[n], t);
    }
  }

  lemma {:induction false} OversizedGapsMiss(s: Series, nows: seq<Time>) returns (t: Time)
    requires s.interval > 0 && Eligible(s, nows) && !GapsFit(s, nows)
    ensures Owed(s, Ticks(s, nows), t) && !Covered(Ticks(s, nows), t)
    decreases |nows|
  {
    var n := |nows| - 1;
    TicksKeepInv(s, nows[..n]);
    if GapsFit(s, nows[..n]) {
      t := OversizedTickMisses(s, Ticks(s, nows[..n]), nows[n]);
    } else {
      t := OversizedGapsMiss(s, nows[..n]);
      MissedForGood(s, Ticks(s, nows[..n]), nows[n], t);
    }
  }

  /** Every owed point is attempted or handed over exactly when every gap fits the backfill bound. */
  lemma CoverageIsComplete(s: Series, nows: seq<Time>)
    requires s.interval > 0 && Eligible(s, nows)
    ensures GapsFit(s, nows) <==>
            forall t :: Owed(s, Ticks(s, nows), t) ==> Covered(Ticks(s, nows), t)
  {
    if GapsFit(s, nows) {
      forall t | Owed(s, Ticks(s, nows), t) ensures Covered(Ticks(s, nows), t) {
        FittingGapsCover(s, nows, t);
      }
    } else {
      var t := OversizedGapsMiss(s, nows);
      assert Owed(s, Ticks(s, nows), t);
    }
  }
}
