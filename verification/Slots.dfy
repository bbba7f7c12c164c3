/**
 * Run slots: one row for each due instant, claimed by a lease, executed by whoever holds it and
 * recorded once. The domain's own constructors come first, then the transactions on the tables.
 */
module Slots {
  import opened Common
  import opened Health

  const MAX_LOCATION := 63
  const MAX_HOLDER := 128

  datatype Slot = Slot(monitor: Id, revision: int, location: string, scheduledFor: Time)

  predicate ValidSlot(s: Slot) {
    s.monitor != "" && s.revision >= 1 && 1 <= |s.location| <= MAX_LOCATION
  }

  /** What makes a confirmation Run explicitly causal. */
  datatype Cause = Cause(candidate: Id, triggeringRun: Id, triggeringScheduledFor: Time,
                         event: Id, policy: string)

  predicate ValidCause(c: Cause) {
    c.candidate != "" && c.triggeringRun != "" && c.event != "" && c.policy != ""
  }

  /** One Run, as the program and its row hold it. An empty holder is no holder. */
  datatype Run = Run(
    id: Id, slot: Slot, kind: Kind, cause: Option<Cause>, outcome: Outcome,
    startedAt: Option<Time>, finishedAt: Option<Time>, holder: Id, expires: Option<Time>)

  datatype Fault = InvalidRun | NotInFlight | InvalidOutcome | InvalidInstants | NotAnExtension

  predicate InFlight(r: Run) { r.outcome.NoOutcome? }

  predicate Executed(o: Outcome) {
    o.Passed? || o.Failed? || o.Errored? || o.TimedOut? || o.Cancelled?
  }

  // ---------------------------------------------------------------------------------------------
  // The domain
  // ---------------------------------------------------------------------------------------------

  /** A claim that holds a lease; a confirmation also names its cause. */
  function Propose(id: Id, slot: Slot, kind: Kind, cause: Option<Cause>, holder: Id, expires: Time)
    : Result<Run, Fault>
  {
    if id == "" || !ValidSlot(slot) || !(1 <= |holder| <= MAX_HOLDER) then Err(InvalidRun)
    else if kind.Confirmation? != cause.Some? then Err(InvalidRun)
    else if cause.Some? && !ValidCause(cause.value) then Err(InvalidRun)
    else Ok(Run(id, slot, kind, cause, NoOutcome, None, None, holder, Some(expires)))
  }

  function SkippedRun(id: Id, slot: Slot, kind: Kind): Result<Run, Fault> {
    if id == "" || !ValidSlot(slot) then Err(InvalidRun)
    else Ok(Run(id, slot, kind, None, Skipped, None, None, "", None))
  }

  function Renewed(r: Run, expires: Time): Result<Run, Fault> {
    if !InFlight(r) then Err(NotInFlight)
    else if r.expires.Some? && expires <= r.expires.value then Err(NotAnExtension)
    else Ok(r.(expires := Some(expires)))
  }

  function CompletedRun(r: Run, outcome: Outcome, started: Time, finished: Time)
    : Result<Run, Fault>
  {
    if !InFlight(r) then Err(NotInFlight)
    else if !Executed(outcome) then Err(InvalidOutcome)
    else if finished < started then Err(InvalidInstants)
    else Ok(r.(outcome := outcome, startedAt := Some(started), finishedAt := Some(finished),
               holder := "", expires := None))
  }

  /** What a row must satisfy to become a Run again. */
  function Restore(r: Run): Result<Run, Fault> {
    if r.id == "" || !ValidSlot(r.slot) then Err(InvalidRun)
    else if r.kind.Confirmation? && (r.cause.None? || !ValidCause(r.cause.value)) then
      Err(InvalidRun)
    else if !r.kind.Confirmation? && r.cause.Some? then Err(InvalidRun)
    else if InFlight(r) then
      if r.holder == "" || r.expires.None? then Err(InvalidRun)
      else if r.startedAt.Some? || r.finishedAt.Some? then Err(InvalidInstants)
      else Ok(Run(r.id, r.slot, r.kind, r.cause, NoOutcome, None, None, r.holder, r.expires))
    else if r.holder != "" || r.expires.Some? then Err(InvalidRun)
    else if r.outcome.Skipped? then
      if r.startedAt.Some? || r.finishedAt.Some? then Err(InvalidInstants)
      else Ok(Run(r.id, r.slot, r.kind, r.cause, Skipped, None, None, "", None))
    else if r.startedAt.None? || r.finishedAt.None? then Err(InvalidInstants)
    else if r.finishedAt.value < r.startedAt.value then Err(InvalidInstants)
    else Ok(Run(r.id, r.slot, r.kind, r.cause, r.outcome, r.startedAt, r.finishedAt, "", None))
  }

  const LEASE_MARGIN: Time := 30 * SECOND
  const MAX_LEASE: Time := 15 * MINUTE

  function LeaseDuration(ceiling: Time): Time {
    Min(Max(ceiling, 0) + LEASE_MARGIN, MAX_LEASE)
  }

  // ---------------------------------------------------------------------------------------------
  // The tables
  // ---------------------------------------------------------------------------------------------

  datatype Observation = Observation(run: Id, scheduledFor: Time, code: Code)

  /** The recorded event of a Run copies what it announces. */
  datatype Recorded = Recorded(run: Id, slot: Slot, kind: Kind, outcome: Outcome)

  function EventOf(r: Run): Recorded { Recorded(r.id, r.slot, r.kind, r.outcome) }

  /**
   * The Runs and their unique slot index, the Observations, the issued events, and for each health
   * candidate the confirmation Run linked to it. The rest is history: the slot each candidate asked
   * for, every identifier and holder token ever used, the Run each claim returned, and the event
   * each finished Run issued.
   */
  datatype Db = Db(
    runs: map<Id, Run>, index: map<Slot, Id>, observations: map<Id, Observation>,
    events: map<Id, Recorded>, links: map<Id, Option<Id>>,
    requests: map<Id, Slot>, ids: set<Id>, holders: set<Id>, copies: map<(Id, Id), Run>,
    announced: map<Id, Id>)

  function Empty(): Db { Db(map[], map[], map[], map[], map[], map[], {}, {}, map[], map[]) }

  datatype Failure = Invalid | SlotHeld | LeaseLost | Mismatch

  function Insert(db: Db, r: Run): Db {
    db.(runs := db.runs[r.id := r],
        index := if r.kind.Manual? then db.index else db.index[r.slot := r.id])
  }

  function Remember(db: Db, proposed: Run, claimed: Run): Db {
    db.(ids := db.ids + {proposed.id}, holders := db.holders + {proposed.holder},
        copies := db.copies[(claimed.id, claimed.holder) := claimed])
  }

  predicate Reclaimable(r: Run, now: Time) {
    InFlight(r) && r.expires.Some? && r.expires.value <= now
  }

  /** The row that already occupies the slot of a claim, if there is one. */
  function Occupant(db: Db, value: Run): Option<Run> {
    if !value.kind.Manual? && value.slot in db.index && db.index[value.slot] in db.runs then
      Some(db.runs[db.index[value.slot]])
    else None
  }

  /** Takes the lease on a slot: a new row, or a row whose lease has run out. */
  function ClaimSlot(db: Db, value: Run, now: Time): (Db, Result<Run, Failure>) {
    if !InFlight(value) then (db, Err(Invalid))
    else
      var occupant := Occupant(db, value);
      if occupant.None? then (Remember(Insert(db, value), value, value), Ok(value))
      else if !Reclaimable(occupant.value, now) then (db, Err(SlotHeld))
      else
        var r := occupant.value.(holder := value.holder, expires := value.expires);
        (Remember(db.(runs := db.runs[r.id := r]), value, r), Ok(r))
  }

  /** The predicate every write under a lease matches on. */
  predicate Holds(db: Db, value: Run, holder: Id) {
    && value.id in db.runs && db.runs[value.id].slot.scheduledFor == value.slot.scheduledFor
    && db.runs[value.id].holder == holder && InFlight(db.runs[value.id])
  }

  function RenewLease(db: Db, value: Run): (Db, Result<(), Failure>) {
    if !Holds(db, value, value.holder) then (db, Err(LeaseLost))
    else
      var r := db.runs[value.id].(expires := value.expires);
      (db.(runs := db.runs[value.id := r], copies := db.copies[(value.id, value.holder) := value]),
       Ok(()))
  }

  function ReleaseSlot(db: Db, value: Run): (Db, Result<(), Failure>) {
    if !Holds(db, value, value.holder) then (db, Err(LeaseLost))
    else
      var r := db.runs[value.id];
      (db.(runs := db.runs - {value.id},
           index := if r.kind.Manual? then db.index else db.index - {r.slot}), Ok(()))
  }

  /** The candidate is not linked yet, or is linked to this very Run. */
  predicate Linkable(db: Db, value: Run) {
    value.cause.Some? ==>
      && value.cause.value.candidate in db.links
      && var link := db.links[value.cause.value.candidate];
         link.None? || link.value == value.id
  }

  function Linked(db: Db, value: Run): map<Id, Option<Id>> {
    if value.cause.None? then db.links else db.links[value.cause.value.candidate := Some(value.id)]
  }

  predicate Completable(value: Run, holder: Id, o: Observation) {
    && Executed(value.outcome) && value.startedAt.Some? && value.finishedAt.Some? && holder != ""
    && o.run == value.id && o.scheduledFor == value.slot.scheduledFor
  }

  /** Records an outcome, its Observation, its event and its candidate link in one transaction. */
  function Complete(db: Db, value: Run, holder: Id, o: Observation, event: Id)
    : (Db, Result<(), Failure>)
  {
    if !Completable(value, holder, o) then (db, Err(Invalid))
    else if !Holds(db, value, holder) then (db, Err(LeaseLost))
    else if !Linkable(db, value) then (db, Err(Mismatch))
    else
      var r := db.runs[value.id].(outcome := value.outcome, startedAt := value.startedAt,
                                  finishedAt := value.finishedAt, holder := "", expires := None);
      (db.(runs := db.runs[value.id := r],
           observations := db.observations[value.id := o],
           events := db.events[event := EventOf(value)],
           announced := db.announced[value.id := event],
           links := Linked(db, value)), Ok(()))
  }

  /** Records a slot that was deliberately not executed. The schema refuses a causeless confirmation. */
  function RecordSkipped(db: Db, value: Run, event: Id): (Db, Result<(), Failure>) {
    if !value.outcome.Skipped? || !value.kind.Scheduled? then (db, Err(Invalid))
    else if value.slot in db.index then (db, Err(SlotHeld))
    else
      (Insert(db, value).(events := db.events[event := EventOf(value)],
                          announced := db.announced[value.id := event],
                          ids := db.ids + {value.id}), Ok(()))
  }

  /** A completed Run without an Observation would be a corrupt row. */
  function GetObservation(db: Db, id: Id): Result<Option<Observation>, ()> {
    if id !in db.runs || InFlight(db.runs[id]) || db.runs[id].outcome.Skipped? then Ok(None)
    else if id !in db.observations then Err(())
    else Ok(Some(db.observations[id]))
  }

  // ---------------------------------------------------------------------------------------------
  // Runs of the protocol
  // ---------------------------------------------------------------------------------------------

  datatype Step =
    | Request(candidate: Id, slot: Slot)
    | Claiming(id: Id, slot: Slot, kind: Kind, cause: Option<Cause>, holder: Id, expires: Time,
               now: Time)
    | Renewing(id: Id, holder: Id, expires: Time)
    | Releasing(id: Id, holder: Id)
    | Finishing(id: Id, holder: Id, outcome: Outcome, started: Time, finished: Time, code: Code,
                event: Id)
    | Skipping(id: Id, slot: Slot, kind: Kind, event: Id)

  /** A worker completes the Run that its claim returned. */
  function FinishRun(db: Db, s: Step): (Db, Result<(), Failure>)
    requires s.Finishing?
  {
    if (s.id, s.holder) !in db.copies then (db, Err(LeaseLost))
    else
      var copy := db.copies[(s.id, s.holder)];
      var v := CompletedRun(copy, s.outcome, s.started, s.finished);
      if v.Err? then (db, Err(Invalid))
      else
        Complete(db, v.value, copy.holder,
                 Observation(s.id, copy.slot.scheduledFor, s.code), s.event)
  }

  function Next(db: Db, s: Step): Db {
    match s
    case Request(c, slot) => db.(links := db.links[c := None], requests := db.requests[c := slot])
    case Claiming(id, slot, kind, cause, holder, expires, now) =>
      var v := Propose(id, slot, kind, cause, holder, expires);
      if v.Err? then db else ClaimSlot(db, v.value, now).0
    case Renewing(id, holder, expires) =>
      if (id, holder) !in db.copies then db
      else
        var v := Renewed(db.copies[(id, holder)], expires);
        if v.Err? then db else RenewLease(db, v.value).0
    case Releasing(id, holder) =>
      if (id, holder) !in db.copies then db else ReleaseSlot(db, db.copies[(id, holder)]).0
    case Finishing(_, _, _, _, _, _, _) => FinishRun(db, s).0
    case Skipping(id, slot, kind, event) =>
      var v := SkippedRun(id, slot, kind);
      if v.Err? then db else RecordSkipped(db, v.value, event).0
  }

  /** Identifiers and tokens are fresh, and a confirmation runs in the slot its candidate asked for. */
  ghost predicate Enabled(db: Db, s: Step) {
    match s
    case Request(c, _) => c !in db.links
    case Claiming(id, slot, _, cause, holder, _, _) =>
      && id !in db.ids && holder !in db.holders
      && (cause.Some? ==>
            cause.value.candidate in db.requests && db.requests[cause.value.candidate] == slot)
    case Finishing(_, _, _, _, _, _, event) => event !in db.events
    case Skipping(id, _, _, event) => id !in db.ids && event !in db.events
    case _ => true
  }

  ghost predicate Legal(db: Db, steps: seq<Step>)
    decreases |steps|
  {
    steps == [] || (Enabled(db, steps[0]) && Legal(Next(db, steps[0]), steps[1..]))
  }

  function RunAll(db: Db, steps: seq<Step>): Db
    decreases |steps|
  {
    if steps == [] then db else RunAll(Next(db, steps[0]), steps[1..])
  }
}
