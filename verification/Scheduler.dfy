/** The scheduler: plans one slot for each Monitor, records what was missed, and counts. */
module Scheduler {
  import opened Common
  import opened Schedule
  import C = Coverage
  import H = Health
  import P = Slots
  import SlotRuns
  import S = SlotStore

  /** What the scheduler knows about one active Monitor. */
  datatype Schedulable = Schedulable(
    monitor: Id, revision: int, checkType: string, schemaVersion: int, configured: bool,
    interval: Time, notBefore: Option<Time>, digest: nat)

  predicate ValidSchedulable(x: Schedulable) {
    && x.monitor != "" && x.revision >= 1 && x.checkType != "" && x.schemaVersion >= 1
    && x.configured && x.interval >= SECOND
  }

  datatype TickResult = TickResult(
    considered: nat, claimed: nat, held: nat, skipped: nat, failed: nat)

  /** What one Monitor's plan says: it cannot be scheduled, nothing is due, or a slot is due. */
  datatype Plan = Unschedulable | NothingDue | Due(slot: Time, previous: Option<Time>)

  function SeriesOf(x: Schedulable, minimum: Time, limit: nat): C.Series {
    var interval := EffectiveInterval(x.interval, minimum);
    C.Series(interval, SlotOffset(x.digest, interval), x.notBefore, limit)
  }

  predicate Plannable(x: Schedulable, minimum: Time) {
    ValidSchedulable(x) && WholeSeconds(EffectiveInterval(x.interval, minimum))
  }

  function LastOf(attempted: map<Id, Time>, monitor: Id): Option<Time> {
    if monitor in attempted then Some(attempted[monitor]) else None
  }

  /** The plan, in terms of the Monitor's series and what was attempted last. */
  function PlanOf(x: Schedulable, minimum: Time, attempted: map<Id, Time>, now: Time): Plan {
    if !Plannable(x, minimum) then Unschedulable
    else
      var s := SeriesOf(x, minimum, 0);
      var due := SlotAt(s.offset, s.interval, now);
      var last := LastOf(attempted, x.monitor);
      if last.Some? && due <= last.value then NothingDue else Due(due, last)
  }

  /**
   * A planned slot is the tick of the coverage theory: the slot is attempted, and the ones handed over
   * are those that `RecordMissed` walks.
   */
  lemma PlanIsTick(x: Schedulable, minimum: Time, attempted: map<Id, Time>, now: Time,
                   limit: nat, m: C.Memory)
    requires Plannable(x, minimum) && m.last == LastOf(attempted, x.monitor)
    ensures var p := PlanOf(x, minimum, attempted, now);
            var after := C.OneTick(SeriesOf(x, minimum, limit), m, now);
            && (p.NothingDue? <==> after == m)
            && (p.Due? ==>
                  && after.last == Some(p.slot) && after.attempted == m.attempted + [p.slot]
                  && after.handed == m.handed + Missed(SeriesOf(x, minimum, limit).interval, p.slot,
                                                       C.Later(p.previous, x.notBefore), limit))
  {
    var s := SeriesOf(x, minimum, limit);
    var after := C.OneTick(s, m, now);
    if !C.Suppressed(s, m, now) { assert |after.attempted| == |m.attempted| + 1; }
  }

  /**
   * The slots a tick marks as attempted, Monitor by Monitor. At the `stop`-th one the process stops
   * waiting for a free execution, after it has marked that Monitor.
   */
  function Marked(attempted: map<Id, Time>, monitors: seq<Schedulable>, minimum: Time, now: Time,
                  stop: int): map<Id, Time>
    decreases |monitors|
  {
    if monitors == [] then attempted
    else
      match PlanOf(monitors[0], minimum, attempted, now)
      case Due(slot, _) =>
        var marked := attempted[monitors[0].monitor := slot];
        if stop == 0 then marked else Marked(marked, monitors[1..], minimum, now, stop - 1)
      case _ => Marked(attempted, monitors[1..], minimum, now, stop - 1)
  }

  /** A tick that is not stopped takes every schedulable Monitor to its current slot. */
  lemma {:induction false} TickReachesAll(
    attempted: map<Id, Time>, monitors: seq<Schedulable>, minimum: Time, now: Time, stop: int,
    k: nat)
    requires k < |monitors| && (stop < 0 || stop >= |monitors|)
    requires forall i, j :: 0 <= i < j < |monitors| ==> monitors[i].monitor != monitors[j].monitor
    ensures var x, after := monitors[k], Marked(attempted, monitors, minimum, now, stop);
            Plannable(x, minimum) ==>
              && x.monitor in after
              && var s := SeriesOf(x, minimum, 0);
                 var last := LastOf(attempted, x.monitor);
                 after[x.monitor] == if last.Some? then
                   Max(last.value, SlotAt(s.offset, s.interval, now))
                 else SlotAt(s.offset, s.interval, now)
    decreases |monitors|
  {
    var rest := monitors[1..];
    var p := PlanOf(monitors[0], minimum, attempted, now);
    var next := if p.Due? then attempted[monitors[0].monitor := p.slot] else attempted;
    if k > 0 {
      TickReachesAll(next, rest, minimum, now, stop - 1, k - 1);
    } else {
      OthersKeep(next, rest, minimum, now, stop - 1, monitors[0].monitor);
    }
  }

  lemma {:induction false} OthersKeep(
    attempted: map<Id, Time>, monitors: seq<Schedulable>, minimum: Time, now: Time, stop: int,
    m: Id)
    requires forall i :: 0 <= i < |monitors| ==> monitors[i].monitor != m
    ensures LastOf(Marked(attempted, monitors, minimum, now, stop), m) == LastOf(attempted, m)
    decreases |monitors|
  {
    if monitors != [] {
      var p := PlanOf(monitors[0], minimum, attempted, now);
      var next := if p.Due? then attempted[monitors[0].monitor := p.slot] else attempted;
      OthersKeep(next, monitors[1..], minimum, now, stop - 1, m);
    }
  }

  /** What a tick does about one Monitor. */
  datatype Course = Unplanned | Quiet | Ran(outcome: S.SlotOutcome)

  /** The course each Monitor takes, up to the one at which a shutdown ends the tick. */
  function Courses(attempted: map<Id, Time>, monitors: seq<Schedulable>, minimum: Time, now: Time,
                   stop: int, outcomes: seq<S.SlotOutcome>): (courses: seq<Course>)
    requires |outcomes| == |monitors|
    ensures |courses| <= |monitors|
    decreases |monitors|
  {
    if monitors == [] then []
    else
      match PlanOf(monitors[0], minimum, attempted, now)
      case Unschedulable =>
        [Unplanned] + Courses(attempted, monitors[1..], minimum, now, stop - 1, outcomes[1..])
      case NothingDue =>
        [Quiet] + Courses(attempted, monitors[1..], minimum, now, stop - 1, outcomes[1..])
      case Due(slot, _) =>
        if stop == 0 then []
        else
          [Ran(outcomes[0])]
          + Courses(attempted[monitors[0].monitor := slot], monitors[1..], minimum, now, stop - 1,
                    outcomes[1..])
  }

  /** The skipped slots of the Monitors that ran. */
  function Skipped(courses: seq<Course>, skips: seq<nat>): nat
    requires |courses| <= |skips|
    decreases |courses|
  {
    if courses == [] then 0
    else
      var n := |courses| - 1;
      Skipped(courses[..n], skips) + if courses[n].Ran? then skips[n] else 0
  }

  ghost predicate Counts(r: TickResult, courses: seq<Course>, skips: seq<nat>) {
    var all := multiset(courses);
    && r.claimed == all[Ran(S.SlotClaimed)] && r.held == all[Ran(S.Unavailable)]
    && r.failed == all[Unplanned] + all[Ran(S.SlotFailed)]
    && r.claimed + r.held + r.failed + all[Quiet] == |courses|
    && |courses| <= |skips| && r.skipped == Skipped(courses, skips)
  }

  /** What a course adds to the counts. */
  function Came(r: TickResult, c: Course, skips: nat): TickResult {
    match c
    case Unplanned => r.(failed := r.failed + 1)
    case Quiet => r
    case Ran(outcome) =>
      var t := r.(skipped := r.skipped + skips);
      match outcome
      case SlotClaimed => t.(claimed := t.claimed + 1)
      case Unavailable => t.(held := t.held + 1)
      case SlotFailed => t.(failed := t.failed + 1)
  }

  lemma NothingCounted(r: TickResult, skips: seq<nat>)
    requires r.claimed == r.held == r.failed == r.skipped == 0
    ensures Counts(r, [], skips)
  {
  }

  lemma OneMoreCounted(r: TickResult, courses: seq<Course>, skips: seq<nat>, c: Course)
    requires Counts(r, courses, skips) && |courses| < |skips|
    ensures var t := Came(r, c, skips[|courses|]);
            Counts(t, courses + [c], skips) && t.considered == r.considered
  {
    assert (courses + [c])[..|courses|] == courses;
  }

  /** What the tick does from Monitor `i` on, by what it does about that one. */
  lemma OneMonitor(attempted: map<Id, Time>, monitors: seq<Schedulable>, i: nat, minimum: Time,
                   now: Time, stop: int, outcomes: seq<S.SlotOutcome>)
    requires i < |monitors| == |outcomes|
    ensures var p := PlanOf(monitors[i], minimum, attempted, now);
            var next := if p.Due? then attempted[monitors[i].monitor := p.slot] else attempted;
            var marked := Marked(attempted, monitors[i..], minimum, now, stop - i);
            var ahead := Courses(attempted, monitors[i..], minimum, now, stop - i, outcomes[i..]);
            if p.Due? && i == stop then marked == next && ahead == []
            else
              && marked == Marked(next, monitors[i + 1..], minimum, now, stop - (i + 1))
              && ahead == [if p.Unschedulable? then Unplanned
                           else if p.NothingDue? then Quiet else Ran(outcomes[i])]
                          + Courses(next, monitors[i + 1..], minimum, now, stop - (i + 1),
                                    outcomes[i + 1..])
  {
    assert monitors[i..][1..] == monitors[i + 1..] && outcomes[i..][1..] == outcomes[i + 1..];
  }

  lemma NoMonitors(attempted: map<Id, Time>, monitors: seq<Schedulable>, minimum: Time, now: Time,
                   stop: int, outcomes: seq<S.SlotOutcome>)
    requires |monitors| == |outcomes|
    ensures var n := |monitors|;
            && Marked(attempted, monitors[n..], minimum, now, stop - n) == attempted
            && Courses(attempted, monitors[n..], minimum, now, stop - n, outcomes[n..]) == []
  {
  }

  class Scheduler {
    const location: string
    const minimum: Time
    const limit: nat
    var attempted: map<Id, Time>

    constructor (location: string, minimum: Time, limit: nat)
      requires 1 <= |location| <= P.MAX_LOCATION
      ensures this.location == location && this.minimum == minimum && this.limit == limit
      ensures attempted == map[]
    {
      this.location, this.minimum, this.limit, attempted := location, minimum, limit, map[];
    }

    method MakePlan(x: Schedulable, now: Time) returns (p: Plan)
      ensures p == PlanOf(x, minimum, attempted, now)
    {
      if !ValidSchedulable(x) { return Unschedulable; }
      var interval := EffectiveInterval(x.interval, minimum);
      var current := SlotFor(x.digest, interval, now);
      if current.Err? { return Unschedulable; }
      var last := if x.monitor in attempted then Some(attempted[x.monitor]) else None;
      if last.Some? && current.value <= last.value { return NothingDue; }
      return Due(current.value, last);
    }

    function SlotOf(x: Schedulable, instant: Time): P.Slot {
      P.Slot(x.monitor, x.revision, location, instant)
    }

    /**
     * One pass over the active Monitors. What the executions and recordings of each came to is
     * given; `stop` is the Monitor at which a shutdown ends the wait for a free execution.
     */
    method Tick(monitors: seq<Schedulable>, now: Time, outcomes: seq<S.SlotOutcome>,
                skips: seq<nat>, stop: int)
      returns (r: TickResult, ghost courses: seq<Course>)
      requires |outcomes| == |monitors| == |skips|
      modifies this
      ensures attempted == Marked(old(attempted), monitors, minimum, now, stop)
      ensures courses == Courses(old(attempted), monitors, minimum, now, stop, outcomes)
      ensures r.considered == |monitors| && Counts(r, courses, skips)
      ensures |courses| <= |monitors| && (stop < 0 || stop >= |monitors| ==> |courses| == |monitors|)
    {
      hide Marked, Courses, Counts, PlanOf;
      r, courses := TickResult(|monitors|, 0, 0, 0, 0), [];
      var i := 0;
      NothingCounted(r, skips);
      assert monitors[0..] == monitors && outcomes[0..] == outcomes;
      while i < |monitors|
        invariant 0 <= i <= |monitors| && |courses| == i
        invariant Marked(old(attempted), monitors, minimum, now, stop)
               == Marked(attempted, monitors[i..], minimum, now, stop - i)
        invariant Courses(old(attempted), monitors, minimum, now, stop, outcomes)
               == courses + Courses(attempted, monitors[i..], minimum, now, stop - i, outcomes[i..])
        invariant r.considered == |monitors| && Counts(r, courses, skips)
      {
        var p := MakePlan(monitors[i], now);
        OneMonitor(attempted, monitors, i, minimum, now, stop, outcomes);
        var course := Quiet;
        match p {
          case Unschedulable => course := Unplanned;
          case NothingDue =>
          case Due(slot, _) =>
            attempted := attempted[monitors[i].monitor := slot];
            if i == stop { return; }
            course := Ran(outcomes[i]);
        }
        OneMoreCounted(r, courses, skips, course);
        courses := courses + [course];
        r := Came(r, course, skips[i]);
        i := i + 1;
      }
      NoMonitors(attempted, monitors, minimum, now, stop, outcomes);
    }

    /**
     * Records the slots between the last one attempted and the one now due, newest first, until
     * one turns out to exist already. `ids` and `events` are fresh identifiers; before the `cut`-th
     * slot a shutdown or a failing store ends the walk.
     */
    method RecordMissed(store: S.RunStore, x: Schedulable, due: Time, previous: Option<Time>,
                        ids: seq<Id>, events: seq<Id>, cut: nat)
      returns (recorded: nat, ghost missed: seq<Time>)
      requires Plannable(x, minimum) && 1 <= |location| <= P.MAX_LOCATION
      requires SlotRuns.Inv(store.View()) && Fresh(store.View(), ids, events)
      requires |ids| >= limit && |events| >= limit
      modifies store
      ensures SlotRuns.Inv(store.View())
      ensures missed == Missed(SeriesOf(x, minimum, limit).interval, due,
                               C.Later(previous, x.notBefore), limit)
      ensures recorded <= |missed| && recorded <= cut
      ensures SkippedUpTo(store.View(), this, x, ids, events, missed, recorded)
      ensures recorded < |missed| && recorded < cut ==> SlotOf(x, missed[recorded]) in old(store.index)
      ensures OnlyAdds(old(store.View()), store.View(), events[..recorded])
    {
      hide SlotRuns.Inv, Progress, SkipsOne;
      var interval := EffectiveInterval(x.interval, minimum);
      var after := previous;
      if x.notBefore.Some? && (after.None? || x.notBefore.value > after.value) {
        after := x.notBefore;
      }
      var instants := MissedSlots(interval, due, after, limit);
      recorded, missed := 0, instants.value;
      C.MissedAreDistinct(interval, due, after, limit);
      ghost var first := store.View();
      NoProgress(first, this, x, ids, events, missed);
      while recorded < |instants.value|
        invariant recorded <= |instants.value| && recorded <= cut
        invariant SlotRuns.Inv(store.View())
        invariant Progress(first, store.View(), this, x, ids, events, missed, recorded)
      {
        if recorded == cut { break; }
        ghost var before := store.View();
        NextFresh(first, before, this, x, ids, events, missed, recorded);
        var done := SkipOne(store, x, instants.value[recorded], ids[recorded], events[recorded]);
        if !done { break; }
        OneMore(first, before, store.View(), this, x, ids, events, missed, recorded);
        recorded := recorded + 1;
      }
      ProgressMade(first, store.View(), this, x, ids, events, missed, recorded);
    }

    /** Builds and records one skipped Run. */
    method SkipOne(store: S.RunStore, x: Schedulable, instant: Time, id: Id, event: Id)
      returns (done: bool)
      requires ValidSchedulable(x) && 1 <= |location| <= P.MAX_LOCATION
      requires SlotRuns.Inv(store.View()) && id != ""
      requires id !in store.ids && event !in store.events
      modifies store
      ensures SlotRuns.Inv(store.View())
      ensures done <==> SlotOf(x, instant) !in old(store.index)
      ensures !done ==> store.View() == old(store.View())
      ensures done ==> SkipsOne(old(store.View()), store.View(), id, event, SlotOf(x, instant))
    {
      hide SlotRuns.Inv;
      ghost var step := P.Skipping(id, SlotOf(x, instant), H.Scheduled, event);
      SlotRuns.NextKeepsInv(store.View(), step);
      SlotRuns.FreshHasNoCopy(store.View(), id);
      var value := P.SkippedRun(id, SlotOf(x, instant), H.Scheduled).value;
      var r := store.RecordSkipped(value, event);
      return r.Ok?;
    }
  }

  /** The Run of a slot that was deliberately not executed, and its event. */
  ghost predicate WasSkipped(db: P.Db, id: Id, event: Id, slot: P.Slot) {
    && id in db.runs && db.runs[id].slot == slot && db.runs[id].outcome.Skipped?
    && event in db.events && db.events[event] == P.EventOf(db.runs[id])
  }

  ghost predicate Fresh(db: P.Db, ids: seq<Id>, events: seq<Id>) {
    && Distinct(ids) && Distinct(events)
    && (forall k :: 0 <= k < |ids| ==> ids[k] !in db.ids && ids[k] != "")
    && (forall k :: 0 <= k < |events| ==> events[k] !in db.events)
  }

  /** The first `n` missed slots were skipped under the first `n` identifiers. */
  ghost predicate SkippedUpTo(db: P.Db, c: Scheduler, x: Schedulable, ids: seq<Id>,
                              events: seq<Id>, missed: seq<Time>, n: nat)
  {
    && n <= |missed| && n <= |ids| && n <= |events|
    && forall k :: 0 <= k < n ==> WasSkipped(db, ids[k], events[k], c.SlotOf(x, missed[k]))
  }

  /** Rows and events that existed are untouched, and only these events are new. */
  ghost predicate OnlyAdds(before: P.Db, after: P.Db, added: seq<Id>) {
    && (forall id :: id in before.runs ==> id in after.runs && after.runs[id] == before.runs[id])
    && (forall e :: e in before.events ==>
          e in after.events && after.events[e] == before.events[e])
    && (forall e :: e in after.events <==> e in before.events || e in added)
  }

  /** What recording one skipped Run does to the tables. */
  ghost predicate SkipsOne(before: P.Db, after: P.Db, id: Id, event: Id, slot: P.Slot) {
    && WasSkipped(after, id, event, slot) && id !in before.ids
    && after.ids == before.ids + {id} && OnlyAdds(before, after, [event])
    && after.index.Keys == before.index.Keys + {slot}
  }

  /** Where the walk stands after `n` slots. */
  ghost predicate Progress(first: P.Db, db: P.Db, c: Scheduler, x: Schedulable, ids: seq<Id>,
                           events: seq<Id>, missed: seq<Time>, n: nat)
  {
    && n <= |missed| <= |ids| && |missed| <= |events| && Distinct(missed)
    && Fresh(db, ids[n..], events[n..])
    && SkippedUpTo(db, c, x, ids, events, missed, n)
    && OnlyAdds(first, db, events[..n])
    && (forall s :: s in db.index && s !in first.index ==> s.scheduledFor in missed[..n])
  }

  lemma NoProgress(db: P.Db, c: Scheduler, x: Schedulable, ids: seq<Id>, events: seq<Id>,
                   missed: seq<Time>)
    requires Fresh(db, ids, events) && Distinct(missed)
    requires |missed| <= |ids| && |missed| <= |events|
    ensures Progress(db, db, c, x, ids, events, missed, 0)
  {
    assert ids[0..] == ids && events[0..] == events;
  }

  /** The next identifiers are fresh, and a slot that exists already existed at the start. */
  lemma NextFresh(first: P.Db, db: P.Db, c: Scheduler, x: Schedulable, ids: seq<Id>,
                  events: seq<Id>, missed: seq<Time>, n: nat)
    requires Progress(first, db, c, x, ids, events, missed, n) && n < |missed|
    ensures n < |ids| && n < |events|
    ensures ids[n] !in db.ids && ids[n] != "" && events[n] !in db.events
    ensures c.SlotOf(x, missed[n]) in db.index ==> c.SlotOf(x, missed[n]) in first.index
  {
    assert ids[n..][0] == ids[n] && events[n..][0] == events[n];
  }

  lemma StillFresh(before: P.Db, after: P.Db, ids: seq<Id>, events: seq<Id>, n: nat)
    requires n < |ids| && n < |events| && Fresh(before, ids[n..], events[n..])
    requires after.ids == before.ids + {ids[n]} && OnlyAdds(before, after, [events[n]])
    ensures Fresh(after, ids[n + 1..], events[n + 1..])
  {
    var i, e := ids[n..], events[n..];
    assert ids[n + 1..] == i[1..] && events[n + 1..] == e[1..];
    assert i[0] == ids[n] && e[0] == events[n];
  }

  lemma SkippedOneMore(before: P.Db, after: P.Db, c: Scheduler, x: Schedulable, ids: seq<Id>,
                       events: seq<Id>, missed: seq<Time>, n: nat)
    requires n < |missed| && n < |ids| && n < |events|
    requires SkippedUpTo(before, c, x, ids, events, missed, n)
    requires SkipsOne(before, after, ids[n], events[n], c.SlotOf(x, missed[n]))
    ensures SkippedUpTo(after, c, x, ids, events, missed, n + 1)
  {
    forall k | 0 <= k < n + 1
      ensures WasSkipped(after, ids[k], events[k], c.SlotOf(x, missed[k]))
    {
      if k < n { assert WasSkipped(before, ids[k], events[k], c.SlotOf(x, missed[k])); }
    }
  }

  lemma OneMore(first: P.Db, before: P.Db, after: P.Db, c: Scheduler, x: Schedulable, ids: seq<Id>,
                events: seq<Id>, missed: seq<Time>, n: nat)
    requires Progress(first, before, c, x, ids, events, missed, n) && n < |missed|
    requires SkipsOne(before, after, ids[n], events[n], c.SlotOf(x, missed[n]))
    ensures Progress(first, after, c, x, ids, events, missed, n + 1)
  {
    StillFresh(before, after, ids, events, n);
    SkippedOneMore(before, after, c, x, ids, events, missed, n);
    assert events[..n + 1] == events[..n] + [events[n]];
    assert missed[..n + 1] == missed[..n] + [missed[n]];
    hide Fresh, SkippedUpTo;
  }

  lemma ProgressMade(first: P.Db, db: P.Db, c: Scheduler, x: Schedulable, ids: seq<Id>,
                     events: seq<Id>, missed: seq<Time>, n: nat)
    requires Progress(first, db, c, x, ids, events, missed, n)
    ensures SkippedUpTo(db, c, x, ids, events, missed, n) && n <= |events|
    ensures OnlyAdds(first, db, events[..n])
  {
  }
}
