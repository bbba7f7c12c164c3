/**
 * When executions of one slot can overlap. Workers read the clock, claim, start some time later and
 * run for at most the execution ceiling; the real clock only moves forward.
 */
module SlotTiming {
  import opened Common
  import opened Health
  import opened Slots
  import opened SlotRuns

  datatype Phase = Waiting | Running(start: Time) | Stopped(start: Time, stop: Time) | GaveUp

  /** One worker's claim on a slot: the instant it claimed with, and the instant it claimed at. */
  datatype Attempt = Attempt(slot: Slot, now: Time, since: Time, phase: Phase)

  datatype World = World(db: Db, clock: Time, attempts: map<(Id, Id), Attempt>)

  datatype Event =
    | Passes(to: Time)
    | Acts(s: Step)
    | Starts(k: (Id, Id))
    | Stops(k: (Id, Id))

  predicate Started(a: Attempt) { a.phase.Running? || a.phase.Stopped? }

  /** The latest instant an execution can still be running. */
  function End(a: Attempt, ceiling: Time): Time
    requires Started(a)
  {
    match a.phase
    case Running(start) => start + ceiling
    case Stopped(_, stop) => stop
  }

  predicate Overlaps(a: Attempt, b: Attempt, ceiling: Time) {
    && Started(a) && Started(b)
    && a.phase.start < End(b, ceiling) && b.phase.start < End(a, ceiling)
  }

  /** A worker that settles its claim has stopped executing, or never starts. */
  function Settled(a: Attempt): Attempt {
    if a.phase.Waiting? then a.(phase := GaveUp) else a
  }

  function Claimed(w: World, s: Step, r: Run): map<(Id, Id), Attempt>
    requires s.Claiming?
  {
    w.attempts[(r.id, s.holder) := Attempt(r.slot, s.now, w.clock, Waiting)]
  }

  function Attempts(w: World, s: Step): map<(Id, Id), Attempt> {
    match s
    case Claiming(id, slot, kind, cause, holder, expires, now) =>
      var v := Propose(id, slot, kind, cause, holder, expires);
      if v.Err? || kind.Manual? then w.attempts
      else
        var r := ClaimSlot(w.db, v.value, now).1;
        if r.Ok? then Claimed(w, s, r.value) else w.attempts
    case Releasing(id, holder) =>
      if (id, holder) in w.attempts then
        w.attempts[(id, holder) := Settled(w.attempts[(id, holder)])]
      else w.attempts
    case Finishing(id, holder, _, _, _, _, _) =>
      if (id, holder) in w.attempts then
        w.attempts[(id, holder) := Settled(w.attempts[(id, holder)])]
      else w.attempts
    case _ => w.attempts
  }

  function Happens(w: World, e: Event): World {
    match e
    case Passes(to) => w.(clock := to)
    case Acts(s) => w.(db := Next(w.db, s), attempts := Attempts(w, s))
    case Starts(k) =>
      if k in w.attempts then
        w.(attempts := w.attempts[k := w.attempts[k].(phase := Running(w.clock))])
      else w
    case Stops(k) =>
      if k in w.attempts && w.attempts[k].phase.Running? then
        var a := w.attempts[k];
        w.(attempts := w.attempts[k := a.(phase := Stopped(a.phase.start, w.clock))])
      else w
  }

  /**
   * What workers do: a claim's instant was read before it and its lease is derived from it, an
   * execution starts at most `delay` after that instant and stops within the ceiling, and a worker
   * settles its claim only when its execution has stopped.
   */
  ghost predicate May(w: World, e: Event, ceiling: Time, delay: Time) {
    match e
    case Passes(to) => w.clock <= to
    case Acts(s) =>
      && Enabled(w.db, s)
      && (s.Claiming? ==> s.now <= w.clock && s.expires == s.now + LeaseDuration(ceiling))
      && (s.Releasing? || s.Finishing? ==>
            (s.id, s.holder) in w.attempts ==> !w.attempts[(s.id, s.holder)].phase.Running?)
    case Starts(k) =>
      k in w.attempts && w.attempts[k].phase.Waiting? && w.clock <= w.attempts[k].now + delay
    case Stops(k) =>
      k in w.attempts && w.attempts[k].phase.Running?
      && w.clock <= w.attempts[k].phase.start + ceiling
  }

  ghost predicate Possible(w: World, es: seq<Event>, ceiling: Time, delay: Time)
    decreases |es|
  {
    es == [] || (May(w, es[0], ceiling, delay) && Possible(Happens(w, es[0]), es[1..], ceiling, delay))
  }

  function After(w: World, es: seq<Event>): World
    decreases |es|
  {
    if es == [] then w else After(Happens(w, es[0]), es[1..])
  }

  // ---------------------------------------------------------------------------------------------
  // The invariant
  // ---------------------------------------------------------------------------------------------

  /** No execution of this attempt runs at or after this instant. */
  function Bound(a: Attempt, ceiling: Time, delay: Time): Time {
    match a.phase
    case Waiting => a.now + delay + ceiling
    case Running(_) => a.now + delay + ceiling
    case Stopped(_, stop) => stop
    case GaveUp => a.now
  }

  ghost predicate Sane(a: Attempt, clock: Time, ceiling: Time, delay: Time) {
    && a.now <= a.since <= clock
    && (Started(a) ==>
          a.since <= a.phase.start <= a.now + delay && a.phase.start <= clock
          && End(a, ceiling) <= Bound(a, ceiling, delay))
    && (a.phase.Stopped? ==> a.phase.stop <= clock && a.phase.stop <= a.phase.start + ceiling)
  }

  /** Two attempts at one slot happen one after the other. */
  ghost predicate Apart(a: Attempt, b: Attempt, ceiling: Time, delay: Time) {
    Bound(a, ceiling, delay) <= b.since || Bound(b, ceiling, delay) <= a.since
  }

  /** An attempt that no longer holds its row cannot still be executing. */
  ghost predicate Over(db: Db, clock: Time, k: (Id, Id), a: Attempt, ceiling: Time, delay: Time) {
    Held(db, k.0, k.1) || Bound(a, ceiling, delay) <= clock
  }

  /** The holder of a row has an attempt that ends before its lease does. */
  ghost predicate Leased(db: Db, attempts: map<(Id, Id), Attempt>, id: Id, ceiling: Time) {
    id in db.runs && InFlight(db.runs[id]) && !db.runs[id].kind.Manual? ==>
      && var k := (id, db.runs[id].holder);
         && k in attempts && db.runs[id].expires.Some?
         && attempts[k].now + LeaseDuration(ceiling) <= db.runs[id].expires.value
  }

  ghost predicate Known(db: Db, k: (Id, Id), a: Attempt) {
    && k.1 in db.holders && k.0 in db.ids
    && (k.0 in db.runs ==> db.runs[k.0].slot == a.slot && !db.runs[k.0].kind.Manual?)
  }

  ghost predicate TimedInv(w: World, ceiling: Time, delay: Time) {
    && Inv(w.db)
    && (forall k :: k in w.attempts ==> Sane(w.attempts[k], w.clock, ceiling, delay))
    && (forall k :: k in w.attempts ==> Known(w.db, k, w.attempts[k]))
    && (forall k :: k in w.attempts ==> Over(w.db, w.clock, k, w.attempts[k], ceiling, delay))
    && (forall id :: Leased(w.db, w.attempts, id, ceiling))
    && (forall j, k :: j in w.attempts && k in w.attempts && j != k
                       && w.attempts[j].slot == w.attempts[k].slot ==>
          Apart(w.attempts[j], w.attempts[k], ceiling, delay))
  }

  function Origin(): World { World(Empty(), 0, map[]) }

  // ---------------------------------------------------------------------------------------------
  // What a protocol step does to one row's lease
  // ---------------------------------------------------------------------------------------------

  /** A row keeps its slot; its lease only gets longer, is given up by its holder, or runs out. */
  ghost predicate LeaseStep(db: Db, after: Db, s: Step, id: Id) {
    && db.ids <= after.ids && db.holders <= after.holders
    && (id in db.ids && id in after.runs ==>
          && id in db.runs && after.runs[id].slot == db.runs[id].slot
          && after.runs[id].kind == db.runs[id].kind)
    && (id in db.runs && InFlight(db.runs[id])
        && !Held(after, id, db.runs[id].holder) ==>
          || ((s.Releasing? || s.Finishing?) && s.id == id && s.holder == db.runs[id].holder)
          || (s.Claiming? && db.runs[id].expires.Some? && db.runs[id].expires.value <= s.now))
    && (id in after.runs && InFlight(after.runs[id]) ==>
          || (&& id in db.runs && InFlight(db.runs[id])
              && after.runs[id].holder == db.runs[id].holder
              && db.runs[id].expires.Some? && after.runs[id].expires.Some?
              && db.runs[id].expires.value <= after.runs[id].expires.value)
          || (s.Claiming? && after.runs[id].holder == s.holder
              && after.runs[id].expires == Some(s.expires)))
  }

  lemma Untouched(db: Db, after: Db, s: Step, id: Id)
    requires Inv(db) && db.ids <= after.ids && db.holders <= after.holders
    requires id in db.runs <==> id in after.runs
    requires id in db.runs ==> after.runs[id] == db.runs[id]
    ensures LeaseStep(db, after, s, id)
  {
    if id in db.runs && InFlight(db.runs[id]) { RowLease(db, id); }
    hide Inv, Restore;
  }

  lemma Leases(db: Db, after: Db, s: Step, id: Id)
    requires Inv(db) && db.ids <= after.ids && db.holders <= after.holders
    requires s.Claiming? && id in after.runs && InFlight(after.runs[id])
    requires after.runs[id].holder == s.holder && after.runs[id].expires == Some(s.expires)
    requires if id in db.runs then
               Reclaimable(db.runs[id], s.now) && after.runs[id].slot == db.runs[id].slot
               && after.runs[id].kind == db.runs[id].kind
             else id !in db.ids
    ensures LeaseStep(db, after, s, id)
  {
    hide Inv, Restore;
  }

  lemma ClaimLease(db: Db, s: Step, id: Id)
    requires Inv(db) && s.Claiming? && Enabled(db, s)
    ensures LeaseStep(db, Next(db, s), s, id)
  {
    hide Inv, LeaseStep, ClaimSlot, Restore;
    FreshHasNoCopy(db, s.id);
    var v := Propose(s.id, s.slot, s.kind, s.cause, s.holder, s.expires);
    if v.Ok? && ClaimSlot(db, v.value, s.now).1.Ok? {
      ClaimPutsRow(db, v.value, s.now);
      if id == ClaimSlot(db, v.value, s.now).1.value.id {
        Leases(db, Next(db, s), s, id);
      } else {
        Untouched(db, Next(db, s), s, id);
      }
    } else {
      if v.Ok? { ClaimPutsRow(db, v.value, s.now); }
      NoLease(db, s, id);
    }
  }

  lemma NoLease(db: Db, s: Step, id: Id)
    requires Inv(db)
    ensures LeaseStep(db, db, s, id)
  {
    IdsHoldRows(db, id);
    if id in db.runs && InFlight(db.runs[id]) { RowLease(db, id); }
    hide Inv, Restore;
  }

  lemma RowLease(db: Db, id: Id)
    requires Inv(db) && id in db.runs && InFlight(db.runs[id])
    ensures db.runs[id].expires.Some?
  {
    RowFacts(db, id);
    hide Inv;
  }

  /** A renewal by the holder itself. */
  lemma Extends(db: Db, after: Db, s: Step, id: Id)
    requires Inv(db) && db.ids <= after.ids && db.holders <= after.holders
    requires id in db.runs && id in after.runs && InFlight(db.runs[id])
    requires exists t: Time :: after.runs[id] == db.runs[id].(expires := Some(t))
    requires db.runs[id].expires.Some? && after.runs[id].expires.Some?
    requires db.runs[id].expires.value <= after.runs[id].expires.value
    ensures LeaseStep(db, after, s, id)
  {
    hide Inv, Restore;
  }

  /** The holder itself gives up its row, or records it. */
  lemma Leaves(db: Db, after: Db, s: Step, id: Id)
    requires Inv(db) && db.ids <= after.ids && db.holders <= after.holders
    requires id in db.runs && (s.Releasing? || s.Finishing?) && s.id == id
    requires s.holder == db.runs[id].holder
    requires id in after.runs ==>
               !InFlight(after.runs[id]) && after.runs[id].slot == db.runs[id].slot
               && after.runs[id].kind == db.runs[id].kind
    ensures LeaseStep(db, after, s, id)
  {
    hide Inv, Restore;
  }

  lemma RenewLeaseStep(db: Db, s: Step, id: Id)
    requires Inv(db) && s.Renewing?
    ensures LeaseStep(db, Next(db, s), s, id)
  {
    hide Inv, Restore, LeaseStep;
    var k := (s.id, s.holder);
    if k in db.copies { CopyFacts(db, k); }
    var after := Next(db, s);
    if k in db.copies && id == s.id && Holds(db, db.copies[k], s.holder)
       && Renewed(db.copies[k], s.expires).Ok? {
      RowLease(db, id);
      assert after.runs[id] == db.runs[id].(expires := Some(s.expires));
      Extends(db, after, s, id);
    } else {
      Untouched(db, after, s, id);
    }
  }

  lemma ReleaseLeaseStep(db: Db, s: Step, id: Id)
    requires Inv(db) && s.Releasing?
    ensures LeaseStep(db, Next(db, s), s, id)
  {
    hide Inv, Restore, LeaseStep;
    var k := (s.id, s.holder);
    if k in db.copies { CopyFacts(db, k); }
    if k in db.copies && id == s.id && Holds(db, db.copies[k], s.holder) {
      Leaves(db, Next(db, s), s, id);
    } else {
      Untouched(db, Next(db, s), s, id);
    }
  }

  lemma IdsHoldRows(db: Db, id: Id)
    requires Inv(db)
    ensures id in db.runs ==> id in db.ids
  {
    if id in db.runs { RowFacts(db, id); }
    hide Inv;
  }

  lemma FinishLease(db: Db, s: Step, id: Id)
    requires Inv(db) && s.Finishing?
    ensures LeaseStep(db, Next(db, s), s, id)
  {
    hide Inv, Restore, LeaseStep, Linkable, Linked;
    var k := (s.id, s.holder);
    if k in db.copies { CopyFacts(db, k); }
    if id == s.id && FinishRun(db, s).1.Ok? {
      Leaves(db, Next(db, s), s, id);
    } else {
      Untouched(db, Next(db, s), s, id);
    }
  }

  /** A skipped Run is new and holds no lease. */
  lemma Skips(db: Db, after: Db, s: Step, id: Id)
    requires db.ids <= after.ids && db.holders <= after.holders && id !in db.ids && id !in db.runs
    requires id in after.runs ==> !InFlight(after.runs[id])
    ensures LeaseStep(db, after, s, id)
  {
  }

  lemma SkipLease(db: Db, s: Step, id: Id)
    requires Inv(db) && s.Skipping? && Enabled(db, s)
    ensures LeaseStep(db, Next(db, s), s, id)
  {
    hide Inv, Restore, LeaseStep, ValidSlot;
    FreshHasNoCopy(db, s.id);
    NoLease(db, s, id);
    var v := SkippedRun(s.id, s.slot, s.kind);
    if v.Ok? && RecordSkipped(db, v.value, s.event).1.Ok? {
      var after := RecordSkipped(db, v.value, s.event).0;
      assert after.runs == db.runs[s.id := v.value] && after.ids == db.ids + {s.id};
      hide RecordSkipped, SkippedRun;
      if id == s.id { Skips(db, after, s, id); } else { Untouched(db, after, s, id); }
    }
  }

  lemma RequestLease(db: Db, s: Step, id: Id)
    requires Inv(db) && s.Request?
    ensures LeaseStep(db, Next(db, s), s, id)
  {
    hide Inv, Restore, LeaseStep;
    Untouched(db, Next(db, s), s, id);
  }

  lemma StepLease(db: Db, s: Step, id: Id)
    requires Inv(db) && Enabled(db, s)
    ensures LeaseStep(db, Next(db, s), s, id)
  {
    match s
    case Claiming(_, _, _, _, _, _, _) => hide *; ClaimLease(db, s, id);
    case Renewing(_, _, _) => hide *; RenewLeaseStep(db, s, id);
    case Releasing(_, _) => hide *; ReleaseLeaseStep(db, s, id);
    case Finishing(_, _, _, _, _, _, _) => hide *; FinishLease(db, s, id);
    case Skipping(_, _, _, _) => hide *; SkipLease(db, s, id);
    case Request(_, _) => hide *; RequestLease(db, s, id);
  }

  // ---------------------------------------------------------------------------------------------
  // Every event keeps the invariant
  // ---------------------------------------------------------------------------------------------

  lemma PassesKeepsInv(w: World, to: Time, ceiling: Time, delay: Time)
    requires TimedInv(w, ceiling, delay) && w.clock <= to
    ensures TimedInv(w.(clock := to), ceiling, delay)
  {
    hide Inv, Held;
    forall k | k in w.attempts
      ensures Over(w.db, to, k, w.attempts[k], ceiling, delay)
    {
      assert Over(w.db, w.clock, k, w.attempts[k], ceiling, delay);
    }
  }

  /** An attempt that starts, stops or settles only ever ends earlier. */
  lemma Progresses(w: World, k: (Id, Id), a: Attempt, ceiling: Time, delay: Time)
    requires TimedInv(w, ceiling, delay) && k in w.attempts
    requires a.slot == w.attempts[k].slot && a.now == w.attempts[k].now
    requires a.since == w.attempts[k].since && Sane(a, w.clock, ceiling, delay)
    requires Bound(a, ceiling, delay) <= Bound(w.attempts[k], ceiling, delay)
    ensures TimedInv(w.(attempts := w.attempts[k := a]), ceiling, delay)
  {
    hide Inv, Held, Sane, Bound;
    var after := w.attempts[k := a];
    forall j | j in after ensures Over(w.db, w.clock, j, after[j], ceiling, delay) {
      assert Over(w.db, w.clock, j, w.attempts[j], ceiling, delay);
    }
    forall j | j in after ensures Known(w.db, j, after[j]) {
      assert Known(w.db, j, w.attempts[j]);
    }
    forall id ensures Leased(w.db, after, id, ceiling) {
      assert Leased(w.db, w.attempts, id, ceiling);
    }
    forall i, j | i in after && j in after && i != j && after[i].slot == after[j].slot
      ensures Apart(after[i], after[j], ceiling, delay)
    {
      assert Apart(w.attempts[i], w.attempts[j], ceiling, delay);
    }
  }

  lemma StartsKeepsInv(w: World, k: (Id, Id), ceiling: Time, delay: Time)
    requires TimedInv(w, ceiling, delay) && May(w, Starts(k), ceiling, delay)
    ensures TimedInv(Happens(w, Starts(k)), ceiling, delay)
  {
    assert Sane(w.attempts[k], w.clock, ceiling, delay);
    hide TimedInv;
    Progresses(w, k, w.attempts[k].(phase := Running(w.clock)), ceiling, delay);
  }

  lemma StopsKeepsInv(w: World, k: (Id, Id), ceiling: Time, delay: Time)
    requires TimedInv(w, ceiling, delay) && May(w, Stops(k), ceiling, delay)
    ensures TimedInv(Happens(w, Stops(k)), ceiling, delay)
  {
    var a := w.attempts[k];
    assert Sane(a, w.clock, ceiling, delay);
    hide TimedInv;
    Progresses(w, k, a.(phase := Stopped(a.phase.start, w.clock)), ceiling, delay);
  }

  /** The attempt of a worker that gives up its row is over. */
  ghost predicate Quits(w: World, s: Step) {
    (s.Releasing? || s.Finishing?) && (s.id, s.holder) in w.attempts ==>
      w.attempts[(s.id, s.holder)].phase.Stopped? || w.attempts[(s.id, s.holder)].phase.GaveUp?
  }

  lemma ActKnown(w: World, s: Step, ceiling: Time, delay: Time, k: (Id, Id))
    requires TimedInv(w, ceiling, delay) && Enabled(w.db, s) && k in w.attempts
    ensures Known(Next(w.db, s), k, w.attempts[k])
  {
    assert Known(w.db, k, w.attempts[k]);
    assert Inv(w.db);
    hide TimedInv, Inv, Next, Enabled;
    StepLease(w.db, s, k.0);
  }

  lemma ActOver(w: World, s: Step, ceiling: Time, delay: Time, k: (Id, Id))
    requires TimedInv(w, ceiling, delay) && Enabled(w.db, s) && k in w.attempts
    requires !s.Claiming? && Quits(w, s)
    ensures Over(Next(w.db, s), w.clock, k, w.attempts[k], ceiling, delay)
  {
    assert Over(w.db, w.clock, k, w.attempts[k], ceiling, delay);
    assert Sane(w.attempts[k], w.clock, ceiling, delay);
    assert Inv(w.db);
    hide TimedInv, Inv, Next, Enabled;
    StepLease(w.db, s, k.0);
  }

  lemma ActLeased(w: World, s: Step, ceiling: Time, delay: Time, id: Id)
    requires TimedInv(w, ceiling, delay) && Enabled(w.db, s) && !s.Claiming?
    ensures Leased(Next(w.db, s), w.attempts, id, ceiling)
  {
    assert Leased(w.db, w.attempts, id, ceiling);
    assert Inv(w.db);
    hide TimedInv, Inv, Next, Enabled;
    StepLease(w.db, s, id);
    IdsHoldRows(w.db, id);
  }

  /** A protocol step that adds no attempt. */
  lemma ActKeepsInv(w: World, s: Step, ceiling: Time, delay: Time)
    requires TimedInv(w, ceiling, delay) && Enabled(w.db, s) && !s.Claiming? && Quits(w, s)
    ensures TimedInv(w.(db := Next(w.db, s)), ceiling, delay)
  {
    NextKeepsInv(w.db, s);
    hide Inv, Next, Enabled, Known, Over, Sane, Leased, Apart;
    forall k | k in w.attempts
      ensures Known(Next(w.db, s), k, w.attempts[k])
      ensures Over(Next(w.db, s), w.clock, k, w.attempts[k], ceiling, delay)
    {
      ActKnown(w, s, ceiling, delay, k);
      ActOver(w, s, ceiling, delay, k);
    }
    forall id ensures Leased(Next(w.db, s), w.attempts, id, ceiling) {
      ActLeased(w, s, ceiling, delay, id);
    }
  }

  /** A worker that settles its claim, with or without having executed. */
  lemma SettlesKeepsInv(w: World, s: Step, ceiling: Time, delay: Time)
    requires TimedInv(w, ceiling, delay) && May(w, Acts(s), ceiling, delay)
    requires 0 <= delay && 0 <= ceiling
    requires !s.Claiming?
    ensures TimedInv(Happens(w, Acts(s)), ceiling, delay)
  {
    hide Inv, Next, Enabled, TimedInv;
    if (s.Releasing? || s.Finishing?) && (s.id, s.holder) in w.attempts {
      var k := (s.id, s.holder);
      AttemptIsSane(w, k, ceiling, delay);
      Progresses(w, k, Settled(w.attempts[k]), ceiling, delay);
      ActKeepsInv(w.(attempts := w.attempts[k := Settled(w.attempts[k])]), s, ceiling, delay);
    } else {
      ActKeepsInv(w, s, ceiling, delay);
    }
  }

  lemma AttemptIsSane(w: World, k: (Id, Id), ceiling: Time, delay: Time)
    requires TimedInv(w, ceiling, delay) && k in w.attempts
    ensures Sane(w.attempts[k], w.clock, ceiling, delay)
  {
  }

  /** Everything that ever ran in a slot is over when the slot is claimed again. */
  lemma EarlierAttemptsAreOver(w: World, s: Step, r: Run, ceiling: Time, delay: Time, k: (Id, Id))
    requires TimedInv(w, ceiling, delay) && s.Claiming? && Enabled(w.db, s) && s.now <= w.clock
    requires delay + ceiling <= LeaseDuration(ceiling) && !s.kind.Manual?
    requires var v := Propose(s.id, s.slot, s.kind, s.cause, s.holder, s.expires);
             v.Ok? && ClaimSlot(w.db, v.value, s.now).1 == Ok(r)
    requires k in w.attempts && w.attempts[k].slot == r.slot
    ensures Bound(w.attempts[k], ceiling, delay) <= w.clock
    ensures !Held(Next(w.db, s), k.0, k.1)
  {
    var v := Propose(s.id, s.slot, s.kind, s.cause, s.holder, s.expires).value;
    assert Over(w.db, w.clock, k, w.attempts[k], ceiling, delay);
    assert Known(w.db, k, w.attempts[k]);
    assert Sane(w.attempts[k], w.clock, ceiling, delay);
    assert Leased(w.db, w.attempts, k.0, ceiling);
    assert Inv(w.db);
    hide TimedInv, Inv, Restore;
    FreshHasNoCopy(w.db, s.id);
    IdsHoldRows(w.db, k.0);
    if Occupant(w.db, v).Some? { OccupantFacts(w.db, v); RowFacts(w.db, w.db.index[v.slot]); }
    if k.0 in w.db.runs { RowFacts(w.db, k.0); }
  }

  ghost predicate Claims(db: Db, s: Step, r: Run) {
    && s.Claiming? && !s.kind.Manual?
    && var v := Propose(s.id, s.slot, s.kind, s.cause, s.holder, s.expires);
       v.Ok? && ClaimSlot(db, v.value, s.now).1 == Ok(r)
  }

  lemma ClaimFacts(db: Db, s: Step, r: Run)
    requires Inv(db) && Enabled(db, s) && Claims(db, s, r)
    ensures var after := Next(db, s);
            && r.id in after.runs && after.runs[r.id] == r && !r.kind.Manual? && InFlight(r)
            && r.holder == s.holder && r.expires == Some(s.expires) && r.slot == s.slot
            && r.id in after.ids && s.holder in after.holders
    ensures forall id :: id != r.id ==>
              (id in Next(db, s).runs <==> id in db.runs)
              && (id in db.runs ==> Next(db, s).runs[id] == db.runs[id])
  {
    hide Inv, Restore, ClaimSlot;
    FreshHasNoCopy(db, s.id);
    var v := Propose(s.id, s.slot, s.kind, s.cause, s.holder, s.expires).value;
    ClaimPutsRow(db, v, s.now);
  }

  lemma ClaimOver(w: World, s: Step, r: Run, ceiling: Time, delay: Time, k: (Id, Id))
    requires TimedInv(w, ceiling, delay) && Enabled(w.db, s) && Claims(w.db, s, r)
    requires s.now <= w.clock && delay + ceiling <= LeaseDuration(ceiling) && k in w.attempts
    ensures Over(Next(w.db, s), w.clock, k, w.attempts[k], ceiling, delay)
    ensures Known(Next(w.db, s), k, w.attempts[k])
    ensures w.attempts[k].slot == r.slot ==> Bound(w.attempts[k], ceiling, delay) <= w.clock
  {
    if w.attempts[k].slot == r.slot { EarlierAttemptsAreOver(w, s, r, ceiling, delay, k); }
    ActKnown(w, s, ceiling, delay, k);
    assert Over(w.db, w.clock, k, w.attempts[k], ceiling, delay);
    assert Known(w.db, k, w.attempts[k]);
    assert Inv(w.db);
    hide TimedInv, Inv, Next, Enabled, Bound, ClaimSlot, Propose;
    ClaimFacts(w.db, s, r);
  }

  lemma ClaimLeased(w: World, s: Step, r: Run, ceiling: Time, delay: Time, id: Id)
    requires TimedInv(w, ceiling, delay) && Enabled(w.db, s) && Claims(w.db, s, r)
    requires s.expires == s.now + LeaseDuration(ceiling)
    ensures Leased(Next(w.db, s), Claimed(w, s, r), id, ceiling)
  {
    assert Leased(w.db, w.attempts, id, ceiling);
    assert Inv(w.db) && s.holder !in w.db.holders;
    forall k | k in w.attempts ensures k.1 != s.holder { assert Known(w.db, k, w.attempts[k]); }
    hide TimedInv, Inv, Next, Enabled, ClaimSlot, Propose;
    ClaimFacts(w.db, s, r);
  }

  lemma ClaimApart(w: World, s: Step, r: Run, ceiling: Time, delay: Time)
    requires TimedInv(w, ceiling, delay) && s.Claiming?
    requires forall k :: k in w.attempts && w.attempts[k].slot == r.slot ==>
               Bound(w.attempts[k], ceiling, delay) <= w.clock
    ensures var after := Claimed(w, s, r);
            forall j, k :: j in after && k in after && j != k && after[j].slot == after[k].slot ==>
              Apart(after[j], after[k], ceiling, delay)
  {
    hide Inv, Bound;
    var after := Claimed(w, s, r);
    forall j, k | j in after && k in after && j != k && after[j].slot == after[k].slot
      ensures Apart(after[j], after[k], ceiling, delay)
    {
      if j in w.attempts && k in w.attempts && j != (r.id, s.holder) && k != (r.id, s.holder) {
        assert Apart(w.attempts[j], w.attempts[k], ceiling, delay);
      }
    }
  }

  /** The new attempt holds its row; the others are over, or hold theirs. */
  lemma ClaimAttempt(w: World, s: Step, r: Run, ceiling: Time, delay: Time, k: (Id, Id))
    requires TimedInv(w, ceiling, delay) && May(w, Acts(s), ceiling, delay) && Claims(w.db, s, r)
    requires 0 <= delay && 0 <= ceiling && delay + ceiling <= LeaseDuration(ceiling)
    requires k in Claimed(w, s, r)
    ensures var a := Claimed(w, s, r)[k];
            && Over(Next(w.db, s), w.clock, k, a, ceiling, delay)
            && Known(Next(w.db, s), k, a) && Sane(a, w.clock, ceiling, delay)
  {
    if k in w.attempts && k != (r.id, s.holder) {
      ClaimOver(w, s, r, ceiling, delay, k);
    } else {
      assert Inv(w.db);
      hide TimedInv;
      ClaimFacts(w.db, s, r);
    }
    hide Inv, Next, Enabled, ClaimSlot, Propose, Claims, Bound, Over, Known;
  }

  lemma ClaimKeepsTime(w: World, s: Step, r: Run, ceiling: Time, delay: Time)
    requires TimedInv(w, ceiling, delay) && May(w, Acts(s), ceiling, delay) && Claims(w.db, s, r)
    requires 0 <= delay && 0 <= ceiling && delay + ceiling <= LeaseDuration(ceiling)
    ensures TimedInv(World(Next(w.db, s), w.clock, Claimed(w, s, r)), ceiling, delay)
  {
    hide Inv, Next, Apart, Leased, Over, Known, Sane, Claimed;
    assert s.Claiming?;
    hide Claims;
    var attempts := Claimed(w, s, r);
    NextKeepsInv(w.db, s);
    forall k | k in attempts
      ensures Over(Next(w.db, s), w.clock, k, attempts[k], ceiling, delay)
      ensures Known(Next(w.db, s), k, attempts[k])
      ensures Sane(attempts[k], w.clock, ceiling, delay)
    {
      ClaimAttempt(w, s, r, ceiling, delay, k);
    }
    forall id ensures Leased(Next(w.db, s), attempts, id, ceiling) {
      ClaimLeased(w, s, r, ceiling, delay, id);
    }
    forall k | k in w.attempts
      ensures w.attempts[k].slot == r.slot ==> Bound(w.attempts[k], ceiling, delay) <= w.clock
    {
      ClaimOver(w, s, r, ceiling, delay, k);
    }
    ClaimApart(w, s, r, ceiling, delay);
  }

  /** Rows that are new here are manual, and the others are untouched. */
  ghost predicate Quiet(db: Db, after: Db) {
    && db.ids <= after.ids && db.holders <= after.holders
    && forall id :: (id in db.runs ==> id in after.runs && after.runs[id] == db.runs[id])
                    && (id in after.runs && id !in db.runs ==>
                          id !in db.ids && after.runs[id].kind.Manual?)
  }

  lemma QuietKeepsInv(w: World, after: Db, ceiling: Time, delay: Time)
    requires TimedInv(w, ceiling, delay) && Inv(after) && Quiet(w.db, after)
    ensures TimedInv(w.(db := after), ceiling, delay)
  {
    hide Inv, Sane, Apart, Bound;
    forall k | k in w.attempts
      ensures Over(after, w.clock, k, w.attempts[k], ceiling, delay)
      ensures Known(after, k, w.attempts[k])
    {
      assert Over(w.db, w.clock, k, w.attempts[k], ceiling, delay);
      assert Known(w.db, k, w.attempts[k]);
    }
    forall id ensures Leased(after, w.attempts, id, ceiling) {
      assert Leased(w.db, w.attempts, id, ceiling);
    }
  }

  lemma QuietClaim(db: Db, s: Step)
    requires Inv(db) && Enabled(db, s) && s.Claiming? && forall r :: !Claims(db, s, r)
    ensures Quiet(db, Next(db, s))
  {
    hide Inv, Restore;
    FreshHasNoCopy(db, s.id);
    var v := Propose(s.id, s.slot, s.kind, s.cause, s.holder, s.expires);
    var r := if v.Ok? then ClaimSlot(db, v.value, s.now).1 else Err(Invalid);
    assert r.Ok? ==> !Claims(db, s, r.value);
  }

  lemma ClaimingKeepsTime(w: World, s: Step, ceiling: Time, delay: Time)
    requires TimedInv(w, ceiling, delay) && May(w, Acts(s), ceiling, delay) && s.Claiming?
    requires 0 <= delay && 0 <= ceiling && delay + ceiling <= LeaseDuration(ceiling)
    ensures TimedInv(Happens(w, Acts(s)), ceiling, delay)
  {
    assert Inv(w.db) && Enabled(w.db, s);
    NextKeepsInv(w.db, s);
    hide Inv, Next, TimedInv, Enabled, LeaseDuration, Claimed;
    var v := Propose(s.id, s.slot, s.kind, s.cause, s.holder, s.expires);
    if r :| Claims(w.db, s, r) {
      ClaimKeepsTime(w, s, r, ceiling, delay);
    } else {
      QuietClaim(w.db, s);
      QuietKeepsInv(w, Next(w.db, s), ceiling, delay);
      var r := if v.Ok? then ClaimSlot(w.db, v.value, s.now).1 else Err(Invalid);
      assert r.Ok? ==> !Claims(w.db, s, r.value);
    }
  }

  lemma HappensKeepsInv(w: World, e: Event, ceiling: Time, delay: Time)
    requires TimedInv(w, ceiling, delay) && May(w, e, ceiling, delay)
    requires 0 <= delay && 0 <= ceiling && delay + ceiling <= LeaseDuration(ceiling)
    ensures TimedInv(Happens(w, e), ceiling, delay)
  {
    match e
    case Passes(to) => PassesKeepsInv(w, to, ceiling, delay);
    case Starts(k) => hide *; StartsKeepsInv(w, k, ceiling, delay);
    case Stops(k) => hide *; StopsKeepsInv(w, k, ceiling, delay);
    case Acts(s) =>
      hide *;
      if s.Claiming? {
        ClaimingKeepsTime(w, s, ceiling, delay);
      } else {
        SettlesKeepsInv(w, s, ceiling, delay);
      }
  }

  lemma {:induction false} AfterKeepsInv(w: World, es: seq<Event>, ceiling: Time, delay: Time)
    requires TimedInv(w, ceiling, delay) && Possible(w, es, ceiling, delay)
    requires 0 <= delay && 0 <= ceiling && delay + ceiling <= LeaseDuration(ceiling)
    ensures TimedInv(After(w, es), ceiling, delay)
    decreases |es|
  {
    hide TimedInv, May, Happens;
    if es != [] {
      HappensKeepsInv(w, es[0], ceiling, delay);
      AfterKeepsInv(Happens(w, es[0]), es[1..], ceiling, delay);
    }
  }

  // ---------------------------------------------------------------------------------------------
  // Overlap
  // ---------------------------------------------------------------------------------------------

  lemma ApartMeansNoOverlap(a: Attempt, b: Attempt, clock: Time, ceiling: Time, delay: Time)
    requires Sane(a, clock, ceiling, delay) && Sane(b, clock, ceiling, delay)
    requires Apart(a, b, ceiling, delay)
    ensures !Overlaps(a, b, ceiling)
  {
  }

  /**
   * No two workers execute one slot at overlapping times, if executions start soon enough after
   * the instant they claimed with for the lease to cover the delay and the ceiling.
   */
  lemma NoOverlap(es: seq<Event>, ceiling: Time, delay: Time, j: (Id, Id), k: (Id, Id))
    requires Possible(Origin(), es, ceiling, delay) && 0 <= delay && 0 <= ceiling
    requires delay + ceiling <= LeaseDuration(ceiling)
    requires var attempts := After(Origin(), es).attempts;
             j in attempts && k in attempts && j != k && attempts[j].slot == attempts[k].slot
    ensures var attempts := After(Origin(), es).attempts;
            !Overlaps(attempts[j], attempts[k], ceiling)
  {
    hide Possible, After, Overlaps, LeaseDuration;
    assert TimedInv(Origin(), ceiling, delay);
    AfterKeepsInv(Origin(), es, ceiling, delay);
    var w := After(Origin(), es);
    hide Inv, Over, Known, Leased, Sane, Apart, Origin;
    ApartMeansNoOverlap(w.attempts[j], w.attempts[k], w.clock, ceiling, delay);
  }

  /** The margin is such a delay for every ceiling that leaves room for it below the lease's cap. */
  lemma MarginIsEnough(es: seq<Event>, ceiling: Time, j: (Id, Id), k: (Id, Id))
    requires 0 <= ceiling <= MAX_LEASE - LEASE_MARGIN
    requires Possible(Origin(), es, ceiling, LEASE_MARGIN)
    requires var attempts := After(Origin(), es).attempts;
             j in attempts && k in attempts && j != k && attempts[j].slot == attempts[k].slot
    ensures var attempts := After(Origin(), es).attempts;
            !Overlaps(attempts[j], attempts[k], ceiling)
  {
    hide Possible, After, Overlaps;
    LeaseCoversCeiling(ceiling);
    NoOverlap(es, ceiling, LEASE_MARGIN, j, k);
  }

  const SLOT := Slot("monitor", 1, "local", 0)

  function ClaimAt(id: Id, holder: Id, now: Time, ceiling: Time): Step {
    Claiming(id, SLOT, Scheduled, None, holder, now + LeaseDuration(ceiling), now)
  }

  /** A slow worker starts at `t`; its lease runs out while it executes, and another takes over. */
  function Takeover(ceiling: Time, t: Time): seq<Event> {
    var expiry := LeaseDuration(ceiling);
    [Acts(ClaimAt("a", "slow", 0, ceiling)), Passes(t), Starts(("a", "slow")), Passes(expiry),
     Acts(ClaimAt("b", "next", expiry, ceiling)), Starts(("a", "next"))]
  }

  /** Outside that bound the protocol does allow two workers to execute one slot at once. */
  lemma OverlapIsPossible(ceiling: Time, delay: Time)
    requires 0 < ceiling && 0 <= delay && delay + ceiling > LeaseDuration(ceiling)
    ensures var es := Takeover(ceiling, Min(delay, LeaseDuration(ceiling)));
            && Possible(Origin(), es, ceiling, delay)
            && ("a", "slow") in After(Origin(), es).attempts
            && ("a", "next") in After(Origin(), es).attempts
            && var attempts := After(Origin(), es).attempts;
               && attempts[("a", "slow")].slot == attempts[("a", "next")].slot
               && Overlaps(attempts[("a", "slow")], attempts[("a", "next")], ceiling)
  {
    var t := Min(delay, LeaseDuration(ceiling));
    var es := Takeover(ceiling, t);
    var w0 := Origin();
    var w1 := Happens(w0, es[0]);
    var w2 := Happens(w1, es[1]);
    var w3 := Happens(w2, es[2]);
    var w4 := Happens(w3, es[3]);
    var w5 := Happens(w4, es[4]);
    var w6 := Happens(w5, es[5]);
    assert es[1..][0] == es[1] && es[1..][1..] == es[2..];
    assert es[2..][0] == es[2] && es[2..][1..] == es[3..];
    assert es[3..][0] == es[3] && es[3..][1..] == es[4..];
    assert es[4..][0] == es[4] && es[4..][1..] == es[5..];
    assert es[5..][0] == es[5] && es[5..][1..] == [];
    assert Possible(w5, es[5..], ceiling, delay) && Possible(w4, es[4..], ceiling, delay);
    assert Possible(w3, es[3..], ceiling, delay) && Possible(w2, es[2..], ceiling, delay);
    assert Possible(w1, es[1..], ceiling, delay);
    assert After(w5, es[5..]) == w6 && After(w4, es[4..]) == w6 && After(w3, es[3..]) == w6;
    assert After(w2, es[2..]) == w6 && After(w1, es[1..]) == w6 && After(w0, es) == w6;
  }
}
