/** What every interleaving of workers guarantees about Run slots. */
module SlotRuns {
  import opened Common
  import opened Health
  import opened Slots

  // ---------------------------------------------------------------------------------------------
  // The invariant
  // ---------------------------------------------------------------------------------------------

  /** The slot index names exactly the row that occupies each slot. */
  ghost predicate IndexInv(runs: map<Id, Run>, index: map<Slot, Id>) {
    && (forall s :: s in index ==>
          index[s] in runs && runs[index[s]].slot == s && !runs[index[s]].kind.Manual?)
    && (forall id :: id in runs && !runs[id].kind.Manual? ==>
          runs[id].slot in index && index[runs[id].slot] == id)
  }

  ghost predicate RowsInv(runs: map<Id, Run>, ids: set<Id>) {
    forall id :: id in runs ==> runs[id].id == id && id in ids && Restore(runs[id]) == Ok(runs[id])
  }

  /** An in-flight row is exactly the Run that its holder's claim returned. */
  ghost predicate CopiesInv(
    runs: map<Id, Run>, copies: map<(Id, Id), Run>, ids: set<Id>, holders: set<Id>)
  {
    && (forall k :: k in copies ==>
          && k.0 in ids && k.1 in holders && copies[k].id == k.0 && copies[k].holder == k.1
          && InFlight(copies[k]) && Restore(copies[k]) == Ok(copies[k]))
    && (forall k :: k in copies && k.0 in runs ==>
          && runs[k.0].slot == copies[k].slot && runs[k.0].kind == copies[k].kind
          && runs[k.0].cause == copies[k].cause)
    && (forall id :: id in runs && InFlight(runs[id]) ==>
          (id, runs[id].holder) in copies && copies[(id, runs[id].holder)] == runs[id])
  }

  /** A row has an event exactly when it has an outcome, and the event copies the row. */
  ghost predicate EventsInv(runs: map<Id, Run>, events: map<Id, Recorded>, announced: map<Id, Id>) {
    && (forall e :: e in events ==>
          && events[e].run in runs && !InFlight(runs[events[e].run])
          && events[e] == EventOf(runs[events[e].run])
          && events[e].run in announced && announced[events[e].run] == e)
    && (forall id :: id in runs && !InFlight(runs[id]) ==>
          id in announced && announced[id] in events && events[announced[id]].run == id)
  }

  /** A row has an Observation exactly when it was executed. */
  ghost predicate ObservationsInv(runs: map<Id, Run>, observations: map<Id, Observation>) {
    && (forall id :: id in observations ==>
          && id in runs && Executed(runs[id].outcome)
          && observations[id].run == id
          && observations[id].scheduledFor == runs[id].slot.scheduledFor)
    && (forall id :: id in runs && Executed(runs[id].outcome) ==> id in observations)
  }

  /** A candidate is linked exactly when the Run in the slot it asked for was executed. */
  ghost predicate LinksInv(
    runs: map<Id, Run>, copies: map<(Id, Id), Run>, links: map<Id, Option<Id>>,
    requests: map<Id, Slot>)
  {
    && links.Keys == requests.Keys
    && (forall c :: c in links && links[c].Some? ==>
          && links[c].value in runs && Executed(runs[links[c].value].outcome)
          && runs[links[c].value].cause.Some?
          && runs[links[c].value].cause.value.candidate == c)
    && (forall id :: id in runs && runs[id].cause.Some? ==>
          && runs[id].cause.value.candidate in requests
          && requests[runs[id].cause.value.candidate] == runs[id].slot)
    && (forall id :: id in runs && Executed(runs[id].outcome) && runs[id].cause.Some? ==>
          links[runs[id].cause.value.candidate] == Some(id))
    && (forall k :: k in copies && copies[k].cause.Some? ==>
          copies[k].cause.value.candidate in requests)
  }

  ghost predicate Inv(db: Db) {
    && IndexInv(db.runs, db.index) && RowsInv(db.runs, db.ids)
    && CopiesInv(db.runs, db.copies, db.ids, db.holders)
    && EventsInv(db.runs, db.events, db.announced)
    && ObservationsInv(db.runs, db.observations)
    && LinksInv(db.runs, db.copies, db.links, db.requests)
  }

  // ---------------------------------------------------------------------------------------------
  // Writing one row
  // ---------------------------------------------------------------------------------------------

  /** A new row occupies a free slot, or is manual. */
  lemma NewRow(runs: map<Id, Run>, index: map<Slot, Id>, ids: set<Id>, r: Run)
    requires IndexInv(runs, index) && RowsInv(runs, ids) && Restore(r) == Ok(r)
    requires r.id !in runs && (!r.kind.Manual? ==> r.slot !in index)
    ensures IndexInv(runs[r.id := r], if r.kind.Manual? then index else index[r.slot := r.id])
    ensures RowsInv(runs[r.id := r], ids + {r.id})
  {
    hide Restore;
  }

  /** An update keeps the identity of a row. */
  lemma SameRow(runs: map<Id, Run>, index: map<Slot, Id>, ids: set<Id>, r: Run)
    requires IndexInv(runs, index) && RowsInv(runs, ids) && Restore(r) == Ok(r)
    requires r.id in runs && runs[r.id].slot == r.slot && runs[r.id].kind == r.kind
    ensures IndexInv(runs[r.id := r], index) && RowsInv(runs[r.id := r], ids)
  {
    hide Restore;
  }

  lemma DroppedRow(runs: map<Id, Run>, index: map<Slot, Id>, ids: set<Id>, r: Run)
    requires IndexInv(runs, index) && RowsInv(runs, ids) && r.id in runs && runs[r.id] == r
    ensures IndexInv(runs - {r.id}, if r.kind.Manual? then index else index - {r.slot})
    ensures RowsInv(runs - {r.id}, ids)
  {
    hide Restore;
  }

  ghost predicate Fits(runs: map<Id, Run>, r: Run) {
    r.id in runs ==>
      && InFlight(runs[r.id]) && runs[r.id].slot == r.slot && runs[r.id].kind == r.kind
      && runs[r.id].cause == r.cause
  }

  /** A lease, new or renewed, is remembered as the copy its holder works with. */
  lemma LeasedCopies(db: Db, r: Run, id: Id)
    requires CopiesInv(db.runs, db.copies, db.ids, db.holders) && Fits(db.runs, r)
    requires InFlight(r) && Restore(r) == Ok(r) && (r.id == id || r.id in db.ids)
    requires forall k :: k in db.copies && k.0 == r.id ==> r.id in db.runs
    ensures CopiesInv(db.runs[r.id := r], db.copies[(r.id, r.holder) := r], db.ids + {id},
                      db.holders + {r.holder})
  {
    hide Restore;
  }

  lemma LeasedEffects(db: Db, r: Run)
    requires EventsInv(db.runs, db.events, db.announced)
    requires ObservationsInv(db.runs, db.observations)
    requires InFlight(r) && Fits(db.runs, r)
    ensures EventsInv(db.runs[r.id := r], db.events, db.announced)
    ensures ObservationsInv(db.runs[r.id := r], db.observations)
  {
  }

  lemma LeasedLinks(db: Db, r: Run)
    requires LinksInv(db.runs, db.copies, db.links, db.requests) && InFlight(r) && Fits(db.runs, r)
    requires r.cause.Some? ==>
               r.cause.value.candidate in db.requests
               && db.requests[r.cause.value.candidate] == r.slot
    ensures LinksInv(db.runs[r.id := r], db.copies[(r.id, r.holder) := r], db.links, db.requests)
  {
  }

  // ---------------------------------------------------------------------------------------------
  // Steps
  // ---------------------------------------------------------------------------------------------

  /** The identifier of a removed row stays used, and no copy of a fresh one exists. */
  lemma FreshHasNoCopy(db: Db, id: Id)
    requires Inv(db) && id !in db.ids
    ensures id !in db.runs && forall k :: k in db.copies ==> k.0 != id
  {
    hide Restore;
  }

  lemma InsertKeepsInv(db: Db, value: Run)
    requires Inv(db) && InFlight(value) && Restore(value) == Ok(value)
    requires value.id !in db.ids && Occupant(db, value).None?
    requires value.cause.Some? ==>
               value.cause.value.candidate in db.requests
               && db.requests[value.cause.value.candidate] == value.slot
    ensures Inv(Remember(Insert(db, value), value, value))
  {
    FreshHasNoCopy(db, value.id);
    assert !value.kind.Manual? ==> value.slot !in db.index;
    hide Restore, IndexInv, RowsInv, CopiesInv, EventsInv, ObservationsInv, LinksInv;
    NewRow(db.runs, db.index, db.ids, value);
    LeasedCopies(db, value, value.id);
    LeasedEffects(db, value);
    LeasedLinks(db, value);
  }

  /** What a live row says about itself: its copy, its slot, and the slot of its candidate. */
  lemma RowFacts(db: Db, id: Id)
    requires Inv(db) && id in db.runs
    ensures var r := db.runs[id];
            && r.id == id && id in db.ids && Restore(r) == Ok(r)
            && (r.cause.Some? ==> r.kind.Confirmation?)
            && (!r.kind.Manual? ==> r.slot in db.index && db.index[r.slot] == id)
            && (r.cause.Some? ==>
                  r.cause.value.candidate in db.requests
                  && db.requests[r.cause.value.candidate] == r.slot)
  {
  }

  lemma ReclaimKeepsInv(db: Db, value: Run, now: Time)
    requires Inv(db) && InFlight(value) && Restore(value) == Ok(value)
    requires Occupant(db, value).Some? && Reclaimable(Occupant(db, value).value, now)
    ensures Inv(ClaimSlot(db, value, now).0)
  {
    hide IndexInv, RowsInv, CopiesInv, EventsInv, ObservationsInv, LinksInv;
    var id := db.index[value.slot];
    RowFacts(db, id);
    OccupantFacts(db, value);
    var r := db.runs[id].(holder := value.holder, expires := value.expires);
    NewHolderRestores(db.runs[id], value);
    hide Restore;
    SameRow(db.runs, db.index, db.ids, r);
    MoreIds(db, r, value.id);
    LeasedCopies(db, r, value.id);
    LeasedEffects(db, r);
    LeasedLinks(db, r);
  }

  lemma NewHolderRestores(r: Run, value: Run)
    requires Restore(r) == Ok(r) && InFlight(r) && Restore(value) == Ok(value) && InFlight(value)
    ensures var leased := r.(holder := value.holder, expires := value.expires);
            Restore(leased) == Ok(leased)
  {
  }

  lemma OccupantFacts(db: Db, value: Run)
    requires Inv(db) && Occupant(db, value).Some?
    ensures value.slot in db.index && db.index[value.slot] in db.runs
    ensures db.runs[db.index[value.slot]].slot == value.slot
    ensures !db.runs[db.index[value.slot]].kind.Manual?
  {
    hide Restore;
  }

  lemma MoreIds(db: Db, r: Run, id: Id)
    requires RowsInv(db.runs[r.id := r], db.ids)
    ensures RowsInv(db.runs[r.id := r], db.ids + {id})
  {
    hide Restore;
  }

  lemma ClaimKeepsInv(db: Db, s: Step)
    requires Inv(db) && s.Claiming? && Enabled(db, s)
    ensures Inv(Next(db, s))
  {
    hide Inv, Occupant;
    var v := Propose(s.id, s.slot, s.kind, s.cause, s.holder, s.expires);
    if v.Ok? {
      var occupant := Occupant(db, v.value);
      if occupant.None? {
        InsertKeepsInv(db, v.value);
      } else if Reclaimable(occupant.value, s.now) {
        ReclaimKeepsInv(db, v.value, s.now);
      }
    }
  }

  /** A copy whose holder still holds the row agrees with it. */
  lemma CopyFacts(db: Db, k: (Id, Id))
    requires Inv(db) && k in db.copies
    ensures db.copies[k].id == k.0 && db.copies[k].holder == k.1 && k.1 in db.holders
    ensures k.0 in db.ids && InFlight(db.copies[k]) && Restore(db.copies[k]) == Ok(db.copies[k])
    ensures Holds(db, db.copies[k], k.1) ==> db.runs[k.0] == db.copies[k]
  {
    hide Restore;
  }

  lemma RenewedRow(db: Db, r: Run)
    requires Inv(db) && r.id in db.runs && Fits(db.runs, r) && InFlight(r)
    requires Restore(r) == Ok(r) && r.holder in db.holders
    ensures Inv(db.(runs := db.runs[r.id := r], copies := db.copies[(r.id, r.holder) := r]))
  {
    hide Restore, IndexInv, RowsInv, CopiesInv, EventsInv, ObservationsInv, LinksInv;
    RowFacts(db, r.id);
    SameRow(db.runs, db.index, db.ids, r);
    RenewedCopies(db, r);
    LeasedEffects(db, r);
    LeasedLinks(db, r);
  }

  lemma RenewedCopies(db: Db, r: Run)
    requires CopiesInv(db.runs, db.copies, db.ids, db.holders) && Fits(db.runs, r)
    requires InFlight(r) && Restore(r) == Ok(r) && r.id in db.ids && r.id in db.runs
    requires r.holder in db.holders
    ensures CopiesInv(db.runs[r.id := r], db.copies[(r.id, r.holder) := r], db.ids, db.holders)
  {
    hide Restore;
  }

  lemma RenewKeepsInv(db: Db, s: Step)
    requires Inv(db) && s.Renewing?
    ensures Inv(Next(db, s))
  {
    hide Inv;
    var k := (s.id, s.holder);
    if k in db.copies && Renewed(db.copies[k], s.expires).Ok? {
      CopyFacts(db, k);
      if Holds(db, db.copies[k], k.1) {
        RenewedRow(db, db.copies[k].(expires := Some(s.expires)));
      }
    }
  }

  lemma DroppedCopies(db: Db, id: Id)
    requires Inv(db) && id in db.runs && InFlight(db.runs[id])
    ensures CopiesInv(db.runs - {id}, db.copies, db.ids, db.holders)
    ensures EventsInv(db.runs - {id}, db.events, db.announced)
  {
    hide Restore, IndexInv, RowsInv, LinksInv, ObservationsInv;
  }

  lemma DroppedEffects(db: Db, id: Id)
    requires Inv(db) && id in db.runs && InFlight(db.runs[id])
    ensures ObservationsInv(db.runs - {id}, db.observations)
    ensures LinksInv(db.runs - {id}, db.copies, db.links, db.requests)
  {
    hide Restore, IndexInv, RowsInv, CopiesInv, EventsInv;
  }

  lemma ReleaseKeepsInv(db: Db, s: Step)
    requires Inv(db) && s.Releasing?
    ensures Inv(Next(db, s))
  {
    var k := (s.id, s.holder);
    if k in db.copies && Holds(db, db.copies[k], k.1) {
      CopyFacts(db, k);
      RowFacts(db, s.id);
      hide Restore, IndexInv, RowsInv, CopiesInv, EventsInv, ObservationsInv, LinksInv;
      DroppedRow(db.runs, db.index, db.ids, db.runs[s.id]);
      DroppedCopies(db, s.id);
      DroppedEffects(db, s.id);
    }
  }

  /** A row that has its outcome keeps every copy it was executed with, and gains its event. */
  lemma RecordedParts(db: Db, r: Run, event: Id, ids: set<Id>)
    requires db.ids <= ids
    requires CopiesInv(db.runs, db.copies, db.ids, db.holders)
    requires EventsInv(db.runs, db.events, db.announced)
    requires !InFlight(r) && event !in db.events && Fits(db.runs, r)
    requires forall k :: k in db.copies && k.0 == r.id ==> r.id in db.runs
    ensures CopiesInv(db.runs[r.id := r], db.copies, ids, db.holders)
    ensures EventsInv(db.runs[r.id := r], db.events[event := EventOf(r)],
                      db.announced[r.id := event])
  {
    hide Restore;
  }

  lemma SkippedParts(db: Db, r: Run)
    requires ObservationsInv(db.runs, db.observations)
    requires LinksInv(db.runs, db.copies, db.links, db.requests)
    requires r.id !in db.runs && r.outcome.Skipped? && r.cause.None?
    ensures ObservationsInv(db.runs[r.id := r], db.observations)
    ensures LinksInv(db.runs[r.id := r], db.copies, db.links, db.requests)
  {
  }

  lemma SkipKeepsInv(db: Db, s: Step)
    requires Inv(db) && s.Skipping? && Enabled(db, s)
    ensures Inv(Next(db, s))
  {
    var v := SkippedRun(s.id, s.slot, s.kind);
    if v.Ok? && s.kind.Scheduled? && s.slot !in db.index {
      var r := v.value;
      assert Restore(r) == Ok(r);
      FreshHasNoCopy(db, s.id);
      hide Restore, IndexInv, RowsInv, CopiesInv, EventsInv, ObservationsInv, LinksInv;
      NewRow(db.runs, db.index, db.ids, r);
      RecordedParts(db, r, s.event, db.ids + {r.id});
      SkippedParts(db, r);
    }
  }

  /** A candidate is never linked to another Run: its only slot has only one row. */
  lemma LinkNeverConflicts(db: Db, id: Id)
    requires Inv(db) && id in db.runs && InFlight(db.runs[id])
    ensures Linkable(db, db.runs[id])
  {
    RowFacts(db, id);
    var cause := db.runs[id].cause;
    if cause.Some? && cause.value.candidate in db.links {
      var link := db.links[cause.value.candidate];
      if link.Some? && link.value in db.runs { RowFacts(db, link.value); }
    }
    hide Restore, IndexInv, RowsInv, CopiesInv, EventsInv, ObservationsInv;
  }

  lemma ExecutedParts(db: Db, r: Run, o: Observation)
    requires ObservationsInv(db.runs, db.observations)
    requires LinksInv(db.runs, db.copies, db.links, db.requests)
    requires r.id in db.runs && Fits(db.runs, r) && Executed(r.outcome) && Linkable(db, r)
    requires o.run == r.id && o.scheduledFor == r.slot.scheduledFor
    ensures ObservationsInv(db.runs[r.id := r], db.observations[r.id := o])
    ensures LinksInv(db.runs[r.id := r], db.copies, Linked(db, r), db.requests)
  {
  }

  lemma ExecutedRow(db: Db, r: Run, o: Observation, event: Id)
    requires Inv(db) && r.id in db.runs && Fits(db.runs, r) && Executed(r.outcome)
    requires Restore(r) == Ok(r) && event !in db.events && Linkable(db, r)
    requires o.run == r.id && o.scheduledFor == r.slot.scheduledFor
    ensures Inv(db.(runs := db.runs[r.id := r], observations := db.observations[r.id := o],
                    events := db.events[event := EventOf(r)],
                    announced := db.announced[r.id := event], links := Linked(db, r)))
  {
    hide Restore, IndexInv, RowsInv, CopiesInv, EventsInv, ObservationsInv, LinksInv, Linked;
    hide Linkable, Fits;
    RowFacts(db, r.id);
    FitsKeepsIdentity(db.runs, r);
    SameRow(db.runs, db.index, db.ids, r);
    RecordedParts(db, r, event, db.ids);
    ExecutedParts(db, r, o);
  }

  lemma FitsKeepsIdentity(runs: map<Id, Run>, r: Run)
    requires r.id in runs && Fits(runs, r)
    ensures runs[r.id].slot == r.slot && runs[r.id].kind == r.kind
  {
  }

  lemma FinishKeepsInv(db: Db, s: Step)
    requires Inv(db) && s.Finishing? && Enabled(db, s)
    ensures Inv(Next(db, s))
    ensures FinishRun(db, s).1 != Err(Mismatch)
  {
    hide Inv, Linked, Linkable;
    var k := (s.id, s.holder);
    if k in db.copies {
      CopyFacts(db, k);
      var v := CompletedRun(db.copies[k], s.outcome, s.started, s.finished);
      if v.Ok? && Holds(db, db.copies[k], k.1) {
        var r := v.value;
        LinkNeverConflicts(db, s.id);
        LinkIgnoresOutcome(db, db.runs[s.id], r);
        ExecutedRow(db, r, Observation(s.id, r.slot.scheduledFor, s.code), s.event);
      }
    }
  }

  lemma LinkIgnoresOutcome(db: Db, a: Run, b: Run)
    requires a.id == b.id && a.cause == b.cause
    ensures Linkable(db, a) == Linkable(db, b)
  {
  }

  lemma RequestKeepsInv(db: Db, c: Id, slot: Slot)
    requires Inv(db) && c !in db.links
    ensures Inv(db.(links := db.links[c := None], requests := db.requests[c := slot]))
  {
    hide Restore, IndexInv, RowsInv, CopiesInv, EventsInv, ObservationsInv;
  }

  lemma NextKeepsInv(db: Db, s: Step)
    requires Inv(db) && Enabled(db, s)
    ensures Inv(Next(db, s))
  {
    match s
    case Request(c, slot) => hide Inv; RequestKeepsInv(db, c, slot);
    case Claiming(_, _, _, _, _, _, _) => hide *; ClaimKeepsInv(db, s);
    case Renewing(_, _, _) => hide *; RenewKeepsInv(db, s);
    case Releasing(_, _) => hide *; ReleaseKeepsInv(db, s);
    case Finishing(_, _, _, _, _, _, _) => hide *; FinishKeepsInv(db, s);
    case Skipping(_, _, _, _) => hide *; SkipKeepsInv(db, s);
  }

  lemma {:induction false} RunKeepsInv(db: Db, steps: seq<Step>)
    requires Inv(db) && Legal(db, steps)
    ensures Inv(RunAll(db, steps))
    decreases |steps|
  {
    hide Inv, Next, Enabled;
    if steps != [] {
      NextKeepsInv(db, steps[0]);
      RunKeepsInv(Next(db, steps[0]), steps[1..]);
    }
  }

  lemma Reached(steps: seq<Step>)
    requires Legal(Empty(), steps)
    ensures Inv(RunAll(Empty(), steps))
  {
    RunKeepsInv(Empty(), steps);
  }

  // ---------------------------------------------------------------------------------------------
  // What every run guarantees
  // ---------------------------------------------------------------------------------------------

  /** A slot that is not manual has at most one row, whoever raced for it. */
  lemma SlotIsUnique(steps: seq<Step>, a: Id, b: Id)
    requires Legal(Empty(), steps)
    requires a in RunAll(Empty(), steps).runs && b in RunAll(Empty(), steps).runs
    requires var runs := RunAll(Empty(), steps).runs;
             runs[a].slot == runs[b].slot && !runs[a].kind.Manual? && !runs[b].kind.Manual?
    ensures a == b
  {
    hide Legal, RunAll;
    Reached(steps);
    RowFacts(RunAll(Empty(), steps), a);
    RowFacts(RunAll(Empty(), steps), b);
    hide Inv;
  }

  /**
   * Exactly once: an executed Run has one Observation and one event, a skipped Run one event and
   * no Observation, a Run in flight neither; and the event says what the row says.
   */
  lemma ExactlyOnce(steps: seq<Step>, id: Id)
    requires Legal(Empty(), steps) && id in RunAll(Empty(), steps).runs
    ensures var db := RunAll(Empty(), steps);
            && (id in db.observations <==> Executed(db.runs[id].outcome))
            && (id in db.observations ==> db.observations[id].run == id)
            && (InFlight(db.runs[id]) ==> forall e :: e in db.events ==> db.events[e].run != id)
            && (!InFlight(db.runs[id]) ==>
                  && id in db.announced && db.announced[id] in db.events
                  && db.events[db.announced[id]] == EventOf(db.runs[id])
                  && forall e :: e in db.events && db.events[e].run == id ==> e == db.announced[id])
  {
    hide Legal, RunAll;
    Reached(steps);
    hide Restore, IndexInv, CopiesInv, LinksInv;
  }

  /** Every stored row passes the check that turns it into a Run again. */
  lemma EveryRowRestores(steps: seq<Step>, id: Id)
    requires Legal(Empty(), steps) && id in RunAll(Empty(), steps).runs
    ensures var r := RunAll(Empty(), steps).runs[id]; Restore(r) == Ok(r)
    ensures GetObservation(RunAll(Empty(), steps), id).Ok?
  {
    hide Legal, RunAll;
    Reached(steps);
    RowFacts(RunAll(Empty(), steps), id);
    hide IndexInv, RowsInv, CopiesInv, EventsInv, LinksInv;
  }

  /** The holder token still names the lease on this row. */
  ghost predicate Held(db: Db, id: Id, holder: Id) {
    id in db.runs && InFlight(db.runs[id]) && db.runs[id].holder == holder
  }

  /** What one step may do to a row: nothing once it has an outcome; lease it to a fresh holder. */
  ghost predicate Touches(db: Db, after: Db, id: Id) {
    && db.ids <= after.ids && db.holders <= after.holders
    && (id in db.runs && !InFlight(db.runs[id]) ==>
          id in after.runs && after.runs[id] == db.runs[id])
    && (id in db.ids && id in after.runs && InFlight(after.runs[id]) ==>
          var h := after.runs[id].holder; h !in db.holders || Held(db, id, h))
  }

  /** A claim that succeeds puts one row: a new one, or one whose lease had run out. */
  ghost predicate PutsRow(db: Db, after: Db, value: Run, r: Run, now: Time) {
    && after.ids == db.ids + {value.id} && after.holders == db.holders + {value.holder}
    && after.runs == db.runs[r.id := r] && after.copies == db.copies[(r.id, r.holder) := r]
    && InFlight(r) && r.holder == value.holder && r.expires == value.expires && r.id in after.ids
    && r.slot == value.slot && (!value.kind.Manual? ==> !r.kind.Manual?)
    && if r.id in db.runs then
         && Reclaimable(db.runs[r.id], now) && db.runs[r.id].slot == r.slot
         && db.runs[r.id].kind == r.kind
       else r == value
  }

  lemma ClaimPutsRow(db: Db, value: Run, now: Time)
    requires Inv(db) && value.id !in db.runs
    ensures var (after, r) := ClaimSlot(db, value, now);
            if r.Ok? then PutsRow(db, after, value, r.value, now) else after == db
  {
    hide Inv, Restore;
    if Occupant(db, value).Some? {
      OccupantFacts(db, value);
      RowFacts(db, db.index[value.slot]);
    }
  }

  lemma ClaimTouches(db: Db, s: Step, id: Id)
    requires Inv(db) && s.Claiming? && Enabled(db, s)
    ensures Touches(db, Next(db, s), id)
  {
    hide Inv, Restore, ClaimSlot;
    var v := Propose(s.id, s.slot, s.kind, s.cause, s.holder, s.expires);
    FreshHasNoCopy(db, s.id);
    if v.Ok? { ClaimPutsRow(db, v.value, s.now); }
  }

  lemma HolderTouches(db: Db, s: Step, id: Id)
    requires Inv(db) && (s.Renewing? || s.Releasing?)
    ensures Touches(db, Next(db, s), id)
  {
    hide Inv, Restore;
    if (s.id, s.holder) in db.copies { CopyFacts(db, (s.id, s.holder)); }
  }

  lemma FinishTouches(db: Db, s: Step, id: Id)
    requires Inv(db) && s.Finishing?
    ensures Touches(db, Next(db, s), id)
  {
    hide Inv, Restore, Linkable, Linked;
    if (s.id, s.holder) in db.copies { CopyFacts(db, (s.id, s.holder)); }
  }

  lemma OtherTouches(db: Db, s: Step, id: Id)
    requires Inv(db) && (s.Skipping? || s.Request?) && Enabled(db, s)
    ensures Touches(db, Next(db, s), id)
  {
    hide Inv, Restore;
    if s.Skipping? { FreshHasNoCopy(db, s.id); }
  }

  lemma StepTouches(db: Db, s: Step, id: Id)
    requires Inv(db) && Enabled(db, s)
    ensures Touches(db, Next(db, s), id)
  {
    match s
    case Claiming(_, _, _, _, _, _, _) => hide *; ClaimTouches(db, s, id);
    case Renewing(_, _, _) => hide *; HolderTouches(db, s, id);
    case Releasing(_, _) => hide *; HolderTouches(db, s, id);
    case Finishing(_, _, _, _, _, _, _) => hide *; FinishTouches(db, s, id);
    case _ => hide *; OtherTouches(db, s, id);
  }

  /** A recorded outcome is final: no later step of any worker changes the row. */
  lemma {:induction false} OutcomeIsFinal(db: Db, steps: seq<Step>, id: Id)
    requires Inv(db) && Legal(db, steps) && id in db.runs && !InFlight(db.runs[id])
    ensures id in RunAll(db, steps).runs && RunAll(db, steps).runs[id] == db.runs[id]
    decreases |steps|
  {
    hide Inv;
    if steps != [] {
      var after := Next(db, steps[0]);
      NextKeepsInv(db, steps[0]);
      StepTouches(db, steps[0], id);
      hide Next;
      OutcomeIsFinal(after, steps[1..], id);
    }
  }

  /** Once a used holder token has lost a row, it never holds it again. */
  lemma {:induction false} LostForGood(db: Db, steps: seq<Step>, id: Id, holder: Id)
    requires Inv(db) && Legal(db, steps)
    requires holder in db.holders && id in db.ids && !Held(db, id, holder)
    ensures !Held(RunAll(db, steps), id, holder)
    decreases |steps|
  {
    hide Inv;
    if steps != [] {
      NextKeepsInv(db, steps[0]);
      StepTouches(db, steps[0], id);
      hide Next;
      LostForGood(Next(db, steps[0]), steps[1..], id, holder);
    }
  }

  /**
   * Fencing: a worker whose row was reclaimed changes nothing, whatever happened in between and
   * whichever of renewing, releasing and finishing it tries.
   */
  lemma LostWorkerChangesNothing(db: Db, steps: seq<Step>, s: Step)
    requires Inv(db) && Legal(db, steps)
    requires s.Renewing? || s.Releasing? || s.Finishing?
    requires s.holder in db.holders && s.id in db.ids && !Held(db, s.id, s.holder)
    ensures Next(RunAll(db, steps), s) == RunAll(db, steps)
  {
    LostForGood(db, steps, s.id, s.holder);
    RunKeepsInv(db, steps);
    var after := RunAll(db, steps);
    if (s.id, s.holder) in after.copies { CopyFacts(after, (s.id, s.holder)); }
    hide Inv, Restore, RunAll, Legal;
  }

  /** A reclaim takes the row away from its old holder and keeps its identity. */
  lemma ReclaimMovesTheLease(db: Db, s: Step)
    requires Inv(db) && s.Claiming? && Enabled(db, s)
    requires var v := Propose(s.id, s.slot, s.kind, s.cause, s.holder, s.expires);
             v.Ok? && Occupant(db, v.value).Some? && ClaimSlot(db, v.value, s.now).1.Ok?
    ensures var id := db.index[s.slot];
            && id in db.runs && Held(db, id, db.runs[id].holder) && Held(Next(db, s), id, s.holder)
            && !Held(Next(db, s), id, db.runs[id].holder)
            && Next(db, s).runs[id].slot == s.slot && Next(db, s).runs.Keys == db.runs.Keys
            && db.runs[id].expires.Some? && db.runs[id].expires.value <= s.now
  {
    RowFacts(db, db.index[s.slot]);
    CopyOfRow(db, db.index[s.slot]);
    hide Restore, Inv;
  }

  lemma CopyOfRow(db: Db, id: Id)
    requires Inv(db) && id in db.runs && InFlight(db.runs[id])
    ensures db.runs[id].holder in db.holders
  {
    hide Restore;
  }

  /** A lease covers the execution it protects exactly up to a ceiling of a quarter of an hour. */
  lemma LeaseCoversCeiling(ceiling: Time)
    requires ceiling >= 0
    ensures LeaseDuration(ceiling) >= ceiling <==> ceiling <= 15 * MINUTE
    ensures LeaseDuration(ceiling) == ceiling + LEASE_MARGIN
            <==> ceiling <= MAX_LEASE - LEASE_MARGIN
    ensures LeaseDuration(ceiling) == Min(ceiling + 30 * SECOND, 15 * MINUTE)
  {
  }

  /** A candidate is linked to a Run exactly when that Run was executed to confirm it. */
  lemma LinkedMeansConfirmed(steps: seq<Step>, c: Id, id: Id)
    requires Legal(Empty(), steps)
    ensures var db := RunAll(Empty(), steps);
            (c in db.links && db.links[c] == Some(id))
            <==> (&& id in db.runs && Executed(db.runs[id].outcome) && db.runs[id].cause.Some?
                  && db.runs[id].cause.value.candidate == c)
  {
    hide Legal, RunAll;
    Reached(steps);
    hide Restore, IndexInv, RowsInv, CopiesInv, EventsInv, ObservationsInv;
  }
}
