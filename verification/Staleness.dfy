/**
 * When the staleness sweep can touch a Monitor: never while its slots' evidence is applied soon
 * enough, as long as the interval the sweep uses is the one the scheduler uses.
 */
module Staleness {
  import opened Common
  import opened Pipeline
  import opened Schedule
  import H = Health
  import R = HealthRuns
  import Q = Outbox
  import opened Events

  /** Evidence stays current for at least the ceiling and one and a half intervals. */
  lemma StaleAfterBound(interval: Time, ceiling: Time)
    requires interval > 0 && ceiling > 0
    ensures StaleAfter(interval, ceiling).Some?
    ensures 2 * StaleAfter(interval, ceiling).value >= 2 * ceiling + 3 * interval
    ensures 2 * StaleAfter(interval, ceiling).value == 2 * ceiling + 3 * interval
            <==> 3 * interval == 2 * ceiling
  {
  }

  /**
   * At `now`, every slot from `first` on that was due at least a ceiling and half an interval ago
   * has had determinate evidence applied that finished no earlier than the slot was due.
   */
  ghost predicate Punctual(
    last: Time, first: Time, offset: Time, interval: Time, ceiling: Time, now: Time)
    requires interval > 0
  {
    forall d ::
      OnSeries(d, offset, interval) && first <= d && 2 * (now - d) >= 2 * ceiling + interval ==>
        last >= d
  }

  /** Then the evidence is not stale, however the slots fall, if the bound leaves room for it. */
  lemma PunctualIsCurrent(last: Time, first: Time, offset: Time, interval: Time, ceiling: Time,
                          now: Time, bound: Time)
    requires WholeSeconds(interval) && ceiling > 0 && OnSeries(first, offset, interval)
    requires 2 * (now - first) >= 2 * ceiling + interval
    requires Punctual(last, first, offset, interval, ceiling, now)
    requires 2 * ceiling + 3 * interval <= 2 * bound
    ensures now < last + bound
  {
    var half := interval / 2;
    assert interval == 2 * half by { assert SECOND % 2 == 0; EvenSeconds(interval); }
    var b := now - ceiling - half;
    var d := SlotAt(offset, interval, b);
    SlotIsCurrent(offset, interval, b, d);
    SlotIsMonotone(offset, interval, first, b);
    hide SlotAt;
    assert last >= d;
  }

  lemma EvenSeconds(interval: Time)
    requires WholeSeconds(interval)
    ensures interval % 2 == 0
  {
    var k := interval / SECOND;
    assert interval == k * SECOND == (k * 500_000_000) * 2;
  }

  /** A punctual Monitor is never swept. */
  lemma PunctualIsNeverSwept(db: Db, m: Id, version: int, event: Id, now: Time, ceiling: Time,
                             offset: Time, first: Time)
    requires m in db.monitors && m in db.health && ceiling > 0
    requires db.monitors[m].intervalSeconds > 0
    requires var interval := db.monitors[m].intervalSeconds * SECOND;
             && OnSeries(first, offset, interval)
             && 2 * (now - first) >= 2 * ceiling + interval
             && (db.health[m].lastDeterminateFinishedAt.Some? ==>
                   Punctual(db.health[m].lastDeterminateFinishedAt.value, first, offset, interval,
                            ceiling, now))
    ensures !IsStale(db, m, version, now, ceiling)
    ensures SweepStale(db, m, version, event, now, ceiling) == db
  {
    var interval := db.monitors[m].intervalSeconds * SECOND;
    var last := db.health[m].lastDeterminateFinishedAt;
    assert WholeSeconds(interval) by { Remainder(interval, db.monitors[m].intervalSeconds, SECOND); }
    StaleAfterBound(interval, ceiling);
    if last.Some? {
      PunctualIsCurrent(last.value, first, offset, interval, ceiling, now,
                        StaleAfter(interval, ceiling).value);
    }
    hide StaleAfter, Commit, H.Sweep, Punctual;
  }

  // ---------------------------------------------------------------------------------------------
  // Under an operator's floor
  // ---------------------------------------------------------------------------------------------

  /** A Monitor configured at one interval, whose slots fall `interval` apart, is punctual. */
  ghost predicate Watched(db: Db, m: Id, seconds: int, interval: Time, ceiling: Time, offset: Time,
                          first: Time, now: Time)
    requires interval > 0
  {
    && m in db.monitors && db.monitors[m].intervalSeconds == seconds && m in db.health
    && db.health[m].lastDeterminateFinishedAt.Some?
    && OnSeries(first, offset, interval) && 2 * (now - first) >= 2 * ceiling + interval
    && Punctual(db.health[m].lastDeterminateFinishedAt.value, first, offset, interval, ceiling, now)
  }

  /** No punctual Monitor is swept, whatever the tables hold and however its slots fall. */
  ghost predicate NeverSwept(seconds: int, interval: Time, ceiling: Time)
    requires interval > 0
  {
    forall db, m, version, offset, first, now ::
      Watched(db, m, seconds, interval, ceiling, offset, first, now) ==>
        !IsStale(db, m, version, now, ceiling)
  }

  /**
   * The sweep uses the configured interval, the scheduler the effective one. Exactly when punctual
   * Monitors stay safe under an operator's floor: three effective intervals and two ceilings fit in
   * twice the time that evidence stays current.
   */
  lemma FloorKeepsPunctualSafe(seconds: int, minimum: Time, ceiling: Time)
    requires seconds > 0 && ceiling > 0
    requires WholeSeconds(EffectiveInterval(seconds * SECOND, minimum))
    ensures StaleAfter(seconds * SECOND, ceiling).Some?
    ensures var interval := EffectiveInterval(seconds * SECOND, minimum);
            NeverSwept(seconds, interval, ceiling) <==>
              2 * ceiling + 3 * interval <= 2 * StaleAfter(seconds * SECOND, ceiling).value
  {
    var interval := EffectiveInterval(seconds * SECOND, minimum);
    var bound := StaleAfter(seconds * SECOND, ceiling).value;
    hide StaleAfter, Punctual, OnSeries;
    if 2 * ceiling + 3 * interval <= 2 * bound {
      forall db, m, version, offset, first, now
        | Watched(db, m, seconds, interval, ceiling, offset, first, now)
        ensures !IsStale(db, m, version, now, ceiling)
      {
        PunctualIsCurrent(db.health[m].lastDeterminateFinishedAt.value, first, offset, interval,
                          ceiling, now, bound);
      }
    } else {
      var now := ceiling + interval / 2 + interval - 1;
      EvenSeconds(interval);
      LateButPunctual(interval, ceiling, now);
      var db := Sample(seconds, 0);
      assert Watched(db, SAMPLE, seconds, interval, ceiling, 0, 0, now);
      assert IsStale(db, SAMPLE, 0, now, ceiling);
    }
  }

  const SAMPLE: Id := "monitor"

  /** One active, healthy Monitor whose only determinate evidence finished at `last`. */
  function Sample(seconds: int, last: Time): Db {
    var s := H.Initial(SAMPLE, last).(state := H.Healthy, stable := H.Healthy,
                                     lastDeterminateFinishedAt := Some(last));
    Empty().(monitors := map[SAMPLE := Monitor(Active, 1, seconds)], health := map[SAMPLE := s])
  }

  /** Until a ceiling and half an interval after the second slot, one application is punctual. */
  lemma LateButPunctual(interval: Time, ceiling: Time, now: Time)
    requires interval > 0 && 2 * now < 2 * ceiling + 3 * interval
    ensures OnSeries(0, 0, interval) && Punctual(0, 0, 0, interval, ceiling, now)
  {
    Remainder(0, 0, interval);
    forall d | OnSeries(d, 0, interval) && 0 <= d && 2 * (now - d) >= 2 * ceiling + interval
      ensures 0 >= d
    {
      if d > 0 { var k := Steps(0, d, 0, interval); }
    }
  }

  /** The evidence of the slot that is current now was applied the instant that slot was due. */
  ghost predicate Prompt(db: Db, m: Id, seconds: int, interval: Time, offset: Time, now: Time)
    requires interval > 0
  {
    && m in db.monitors && db.monitors[m].intervalSeconds == seconds && m in db.health
    && db.health[m].lastDeterminateFinishedAt == Some(SlotAt(offset, interval, now))
  }

  /**
   * Evidence that is applied the instant its slot is due stays current until the next slot exactly
   * if the effective interval is no longer than evidence stays current.
   */
  lemma FloorKeepsPromptSafe(seconds: int, minimum: Time, ceiling: Time)
    requires seconds > 0 && ceiling > 0
    ensures StaleAfter(seconds * SECOND, ceiling).Some?
    ensures var interval := EffectiveInterval(seconds * SECOND, minimum);
            interval <= StaleAfter(seconds * SECOND, ceiling).value <==>
              forall db, m, version, offset, now :: Prompt(db, m, seconds, interval, offset, now) ==>
                !IsStale(db, m, version, now, ceiling)
  {
    var interval := EffectiveInterval(seconds * SECOND, minimum);
    var bound := StaleAfter(seconds * SECOND, ceiling).value;
    forall offset, now ensures now < SlotAt(offset, interval, now) + interval {
      SlotIsCurrent(offset, interval, now, now);
    }
    if interval > bound {
      var now := interval - 1;
      Remainder(0, 0, interval);
      SlotIsCurrent(0, interval, now, 0);
      hide StaleAfter, SlotAt, OnSeries;
      assert Prompt(Sample(seconds, 0), SAMPLE, seconds, interval, 0, now);
      assert IsStale(Sample(seconds, 0), SAMPLE, 0, now, ceiling);
    }
    hide StaleAfter, SlotAt;
  }

  /** One Monitor every minute, whose first slot is executed, recorded and judged at once. */
  const FLOORED := [
    PutMonitor(SAMPLE, Monitor(Active, 1, 60)),
    RecordRun("run", RunRow(SAMPLE, 1, "site", H.Scheduled, H.Passed, H.NoCode, 0, Some(0), ""),
              "event", 0),
    Claim("worker", 0, SECOND, ["event"], 1),
    Handle("event", "worker", HealthIds("candidate", "e1", "e2"), IncidentIds("incident", "e3"),
           "alert", 0)]

  lemma UnfoldRun(db: Db, steps: seq<Step>)
    requires steps != []
    ensures Legal(db, steps) <==> Enabled(db, steps[0]) && Legal(Next(db, steps[0]), steps[1..])
    ensures Run(db, steps) == Run(Next(db, steps[0]), steps[1..])
  {
  }

  /** The worker holds the event of the one Run that was recorded. */
  ghost predicate Recorded(db: Db) {
    && db.monitors == map[SAMPLE := FLOORED[0].monitor] && db.runs == map["run" := FLOORED[1].row]
    && db.health == map[] && db.candidates == map[] && db.home == map[]
    && db.queue.processed == {}
    && db.queue.issued
       == map["event" := RunRecorded("run", SAMPLE, 1, "site", H.Scheduled, H.Passed, 0)]
  }

  lemma RunIsRecorded()
    ensures Enabled(Empty(), FLOORED[0])
    ensures var db := Next(Empty(), FLOORED[0]);
            && Enabled(db, FLOORED[1]) && Recorded(Next(db, FLOORED[1]))
            && Next(db, FLOORED[1]).queue.holders == {}
            && "event" in Next(db, FLOORED[1]).queue.entries
            && Next(db, FLOORED[1]).queue.entries["event"].lease.None?
            && Next(db, FLOORED[1]).queue.entries["event"].availableAt == 0
  {
  }

  lemma EventIsClaimed(db: Db)
    requires Recorded(db) && db.queue.holders == {} && "event" in db.queue.entries
    requires db.queue.entries["event"].lease.None? && db.queue.entries["event"].availableAt == 0
    ensures Enabled(db, FLOORED[2]) && Recorded(Next(db, FLOORED[2]))
    ensures ("event", "worker") in Next(db, FLOORED[2]).queue.claims
  {
    var e := db.queue.entries["event"];
    assert Q.Eligible(e, 0);
    assert "event" in Q.Picked(db.queue.entries, ["event"], 0, 1);
    hide Q.Picked;
  }

  lemma EventMayBeHandled(db: Db)
    requires Recorded(db) && ("event", "worker") in db.queue.claims
    ensures Enabled(db, FLOORED[3])
  {
  }

  lemma EvidenceIsJudged(db: Db)
    requires Recorded(db)
    ensures var after := Next(db, FLOORED[3]);
            && after.monitors == db.monitors && "e4" !in after.queue.issued
            && SAMPLE in after.health && after.health[SAMPLE].state.Healthy?
            && after.health[SAMPLE].version == 1
            && after.health[SAMPLE].lastDeterminateFinishedAt == Some(0)
            && after.health[SAMPLE].policy == H.POLICY_VERSION
            && after.health[SAMPLE].monitor == SAMPLE && after.health[SAMPLE].stable.Healthy?
  {
    hide Commit, H.Judge, Conflicts, Completed, H.Initial;
    var s := FLOORED[3];
    var x := InputOf(db, "event", "run", s.health, 0);
    FirstPassJudged(x);
    var d := H.Judge(Current(db, SAMPLE, 0), x).value;
    FirstPassCommitted(db, x, d, s.health);
  }

  lemma FirstPassJudged(x: H.Input)
    requires x.event == "event" && x.run == "run" && x.kind.Scheduled? && x.outcome.Passed?
    requires x.code.NoCode? && x.revision == x.latestRevision == 1 && x.finishedAt == Some(0)
    ensures var v := H.Judge(H.Initial(SAMPLE, 0), x);
            && v.Ok? && v.value.created.None? && v.value.completed.None? && v.value.transitioned
            && var s := v.value.snapshot;
               && s.state.Healthy? && s.stable.Healthy? && s.version == 1 && s.monitor == SAMPLE
               && s.lastDeterminateFinishedAt == Some(0) && s.policy == H.POLICY_VERSION
  {
  }

  lemma FirstPassCommitted(db: Db, x: H.Input, d: H.Decision, ids: HealthIds)
    requires d.created.None? && d.completed.None? && db.candidates == map[]
    ensures !Conflicts(Completed(db.candidates, d.completed), d.created)
    ensures var after := Commit(db, SAMPLE, R.Seen(x), d, ids, 0);
            && after.monitors == db.monitors && after.health == db.health[SAMPLE := d.snapshot]
            && after.queue.issued.Keys <= db.queue.issued.Keys + {ids.transitionEvent}
  {
  }

  /**
   * Such a Monitor, under a floor of two minutes and a ceiling of ten seconds: a run of the
   * pipeline leaves it punctual after three minutes, and the sweep makes it unknown then.
   */
  lemma FlooredMonitorIsSwept()
    ensures Legal(Empty(), FLOORED)
    ensures var db := Run(Empty(), FLOORED);
            var sweep := Sweep(SAMPLE, 1, "e4", 180 * SECOND, 10 * SECOND);
            && EffectiveInterval(60 * SECOND, 120 * SECOND) == 120 * SECOND
            && Watched(db, SAMPLE, 60, 120 * SECOND, 10 * SECOND, 0, 0, 180 * SECOND)
            && Enabled(db, sweep) && SAMPLE in db.health && SAMPLE in Next(db, sweep).health
            && db.health[SAMPLE].state.Healthy? && Next(db, sweep).health[SAMPLE].state.Unknown?
  {
    var d1 := Next(Empty(), FLOORED[0]);
    var d2 := Next(d1, FLOORED[1]);
    var d3 := Next(d2, FLOORED[2]);
    var d4 := Next(d3, FLOORED[3]);
    RunIsRecorded();
    EventIsClaimed(d2);
    EventMayBeHandled(d3);
    EvidenceIsJudged(d3);
    UnfoldRun(d3, FLOORED[3..]);
    UnfoldRun(d2, FLOORED[2..]);
    UnfoldRun(d1, FLOORED[1..]);
    UnfoldRun(Empty(), FLOORED);
    assert FLOORED[1..][1..] == FLOORED[2..] && FLOORED[2..][1..] == FLOORED[3..];
    LateButPunctual(120 * SECOND, 10 * SECOND, 180 * SECOND);
    FlooredSweep(d4);
    hide Next, Enabled, Recorded, Punctual, OnSeries;
  }

  lemma FlooredSweep(db: Db)
    requires db.monitors == map[SAMPLE := FLOORED[0].monitor] && "e4" !in db.queue.issued
    requires SAMPLE in db.health && db.health[SAMPLE].state.Healthy?
    requires db.health[SAMPLE].stable.Healthy? && db.health[SAMPLE].policy == H.POLICY_VERSION
    requires db.health[SAMPLE].version == 1 && db.health[SAMPLE].monitor == SAMPLE
    requires db.health[SAMPLE].lastDeterminateFinishedAt == Some(0)
    ensures var sweep := Sweep(SAMPLE, 1, "e4", 180 * SECOND, 10 * SECOND);
            && Enabled(db, sweep) && SAMPLE in Next(db, sweep).health
            && Next(db, sweep).health[SAMPLE].state.Unknown?
  {
    assert IsStale(db, SAMPLE, 1, 180 * SECOND, 10 * SECOND);
    hide IsStale;
  }

  // ---------------------------------------------------------------------------------------------
  // The listing query
  // ---------------------------------------------------------------------------------------------

  const MICROSECOND: Time := 1000

  function WholeMicroseconds(d: Time): Time
    requires d >= 0
  {
    d / MICROSECOND * MICROSECOND
  }

  /** The rows that the sweep's query lists, before each is checked again under its lock. */
  predicate Listed(db: Db, m: Id, now: Time, ceiling: Time)
    requires ceiling > 0
  {
    && m in db.health && m in db.monitors && db.monitors[m].lifecycle.Active?
    && !db.health[m].state.Unknown?
    && db.health[m].lastDeterminateFinishedAt.Some?
    && var last := db.health[m].lastDeterminateFinishedAt.value;
       && last <= now - WholeMicroseconds(2 * ceiling)
       && last <= now - db.monitors[m].intervalSeconds * 3 * SECOND
  }

  /** The query never misses a stale Monitor. */
  lemma QueryNeverMisses(db: Db, m: Id, version: int, now: Time, ceiling: Time)
    requires ceiling > 0 && IsStale(db, m, version, now, ceiling)
    ensures Listed(db, m, now, ceiling)
  {
  }

  /**
   * On instants that the database can store, the query and the check agree exactly, except for
   * evidence whose age is the ceiling's double cut to whole microseconds, when that loses something.
   */
  lemma QueryAgrees(db: Db, m: Id, version: int, now: Time, ceiling: Time)
    requires ceiling > 0 && Listed(db, m, now, ceiling) && db.health[m].version == version
    requires db.monitors[m].intervalSeconds > 0
    requires now % MICROSECOND == 0
    requires db.health[m].lastDeterminateFinishedAt.value % MICROSECOND == 0
    ensures var age := now - db.health[m].lastDeterminateFinishedAt.value;
            IsStale(db, m, version, now, ceiling) <==>
              (2 * ceiling) % MICROSECOND == 0 || age != WholeMicroseconds(2 * ceiling)
  {
    var last := db.health[m].lastDeterminateFinishedAt.value;
    MicrosecondsApart(now, last, 2 * ceiling);
    hide WholeMicroseconds;
  }

  lemma MicrosecondsApart(now: Time, last: Time, d: Time)
    requires now % MICROSECOND == 0 && last % MICROSECOND == 0 && d >= 0
    requires last <= now - WholeMicroseconds(d)
    ensures now - last >= d <==> d % MICROSECOND == 0 || now - last != WholeMicroseconds(d)
  {
    var age, bound := now - last, WholeMicroseconds(d);
    assert age % MICROSECOND == 0 && bound % MICROSECOND == 0;
    assert d == bound + d % MICROSECOND;
    assert age > bound ==> age >= bound + MICROSECOND;
  }
}
