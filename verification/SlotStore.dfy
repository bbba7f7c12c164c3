/**
 * The Run store's transactions and the workers that use them, statement by statement. Between a
 * worker's claim and its last write any other workers may take any number of legal steps.
 */
module SlotStore {
  import opened Common
  import opened Health
  import opened Slots
  import SlotRuns

  class RunStore {
    var runs: map<Id, Run>
    var index: map<Slot, Id>
    var observations: map<Id, Observation>
    var events: map<Id, Recorded>
    var links: map<Id, Option<Id>>
    var requests: map<Id, Slot>
    var ids: set<Id>
    var holders: set<Id>
    var copies: map<(Id, Id), Run>
    var announced: map<Id, Id>

    function View(): Db
      reads this
    {
      Db(runs, index, observations, events, links, requests, ids, holders, copies, announced)
    }

    constructor ()
      ensures View() == Empty()
    {
      runs, index, observations, events, links := map[], map[], map[], map[], map[];
      requests, ids, holders, copies, announced := map[], {}, {}, map[], map[];
    }

    method ClaimSlot(value: Run, now: Time) returns (r: Result<Run, Failure>)
      modifies this
      ensures (View(), r) == Slots.ClaimSlot(old(View()), value, now)
    {
      if !InFlight(value) { return Err(Invalid); }
      if value.kind.Manual? || value.slot !in index || index[value.slot] !in runs {
        runs := runs[value.id := value];
        if !value.kind.Manual? { index := index[value.slot := value.id]; }
        ids, holders := ids + {value.id}, holders + {value.holder};
        copies := copies[(value.id, value.holder) := value];
        return Ok(value);
      }
      var existing := runs[index[value.slot]];
      if !InFlight(existing) || existing.expires.None? || existing.expires.value > now {
        return Err(SlotHeld);
      }
      existing := existing.(holder := value.holder, expires := value.expires);
      runs := runs[existing.id := existing];
      ids, holders := ids + {value.id}, holders + {value.holder};
      copies := copies[(existing.id, existing.holder) := existing];
      return Ok(existing);
    }

    /** The condition every statement under a lease matches rows on. */
    predicate Matches(value: Run, holder: Id)
      reads this
    {
      && value.id in runs && runs[value.id].slot.scheduledFor == value.slot.scheduledFor
      && runs[value.id].holder == holder && InFlight(runs[value.id])
    }

    method RenewLease(value: Run) returns (r: Result<(), Failure>)
      modifies `runs, `copies
      ensures (View(), r) == Slots.RenewLease(old(View()), value)
    {
      if !Matches(value, value.holder) { return Err(LeaseLost); }
      runs := runs[value.id := runs[value.id].(expires := value.expires)];
      copies := copies[(value.id, value.holder) := value];
      return Ok(());
    }

    method ReleaseSlot(value: Run) returns (r: Result<(), Failure>)
      modifies `runs, `index
      ensures (View(), r) == Slots.ReleaseSlot(old(View()), value)
    {
      if !Matches(value, value.holder) { return Err(LeaseLost); }
      if !runs[value.id].kind.Manual? { index := index - {runs[value.id].slot}; }
      runs := runs - {value.id};
      return Ok(());
    }

    /** The candidate keeps the first confirmation Run it is linked to. */
    method LinkCandidate(cause: Cause, id: Id) returns (affected: bool)
      modifies `links
      ensures affected == (cause.candidate in old(links)
                           && (old(links)[cause.candidate].None?
                               || old(links)[cause.candidate].value == id))
      ensures links == if affected then old(links)[cause.candidate := Some(id)] else old(links)
    {
      if cause.candidate !in links { return false; }
      var link := links[cause.candidate];
      if link.Some? && link.value != id { return false; }
      links := links[cause.candidate := Some(id)];
      return true;
    }

    method Complete(value: Run, holder: Id, o: Observation, event: Id)
      returns (r: Result<(), Failure>)
      modifies this
      ensures (View(), r) == Slots.Complete(old(View()), value, holder, o, event)
    {
      if InFlight(value) || value.outcome.Skipped? || holder == "" { return Err(Invalid); }
      if value.startedAt.None? || value.finishedAt.None? { return Err(Invalid); }
      if o.run != value.id || o.scheduledFor != value.slot.scheduledFor { return Err(Invalid); }
      if !Matches(value, holder) { return Err(LeaseLost); }
      if value.cause.Some? {
        var affected := LinkCandidate(value.cause.value, value.id);
        if !affected { return Err(Mismatch); }
      }
      runs := runs[value.id := runs[value.id].(
        outcome := value.outcome, startedAt := value.startedAt, finishedAt := value.finishedAt,
        holder := "", expires := None)];
      observations := observations[value.id := o];
      events := events[event := EventOf(value)];
      announced := announced[value.id := event];
      return Ok(());
    }

    method RecordSkipped(value: Run, event: Id) returns (r: Result<(), Failure>)
      modifies this
      ensures (View(), r) == Slots.RecordSkipped(old(View()), value, event)
    {
      if !value.outcome.Skipped? || !value.kind.Scheduled? { return Err(Invalid); }
      if value.slot in index { return Err(SlotHeld); }
      runs := runs[value.id := value];
      index := index[value.slot := value.id];
      events := events[event := EventOf(value)];
      announced := announced[value.id := event];
      ids := ids + {value.id};
      return Ok(());
    }

    /** The latest Run that confirms a candidate. */
    method FindConfirmation(candidate: Id) returns (r: Option<Run>)
      ensures r.Some? ==> r.value.id in runs && runs[r.value.id] == r.value
                          && r.value.cause.Some? && r.value.cause.value.candidate == candidate
      ensures r.None? ==> forall id :: id in runs && runs[id].cause.Some? ==>
                            runs[id].cause.value.candidate != candidate
      requires forall id :: id in runs ==> runs[id].id == id
    {
      if id :| id in runs && runs[id].cause.Some? && runs[id].cause.value.candidate == candidate {
        return Some(runs[id]);
      }
      return None;
    }

    /** Other workers act. */
    method Meanwhile(steps: seq<Step>)
      modifies this
      ensures View() == RunAll(old(View()), steps)
    {
      var after := RunAll(View(), steps);
      runs, index, observations := after.runs, after.index, after.observations;
      events, links, requests := after.events, after.links, after.requests;
      ids, holders, copies := after.ids, after.holders, after.copies;
      announced := after.announced;
    }
  }

  // ---------------------------------------------------------------------------------------------
  // Workers
  // ---------------------------------------------------------------------------------------------

  /** An executor's report, and whether the worker was shut down while it executed. */
  datatype Execution = Execution(
    outcome: Outcome, startedAt: Time, finishedAt: Time, code: Code, cancelled: bool)

  /** A worker's last write, as a step of the protocol. */
  function Ending(claimed: Run, x: Execution, event: Id): Step {
    if x.cancelled then Releasing(claimed.id, claimed.holder)
    else Finishing(claimed.id, claimed.holder, x.outcome, x.startedAt, x.finishedAt, x.code, event)
  }

  /** Two values of one claim, before and after renewals. */
  ghost predicate SameClaim(a: Run, b: Run) { a.(expires := b.expires) == b }

  lemma ClaimKeepsCopies(db: Db, s: Step, k: (Id, Id))
    requires SlotRuns.Inv(db) && s.Claiming? && Enabled(db, s) && k in db.copies
    ensures k in Next(db, s).copies && Next(db, s).copies[k] == db.copies[k]
  {
    hide SlotRuns.Inv, Restore;
    SlotRuns.CopyFacts(db, k);
  }

  lemma RenewKeepsCopies(db: Db, s: Step, k: (Id, Id))
    requires SlotRuns.Inv(db) && s.Renewing? && k in db.copies
    ensures k in Next(db, s).copies && SameClaim(db.copies[k], Next(db, s).copies[k])
  {
    hide SlotRuns.Inv, Restore;
    if (s.id, s.holder) in db.copies { SlotRuns.CopyFacts(db, (s.id, s.holder)); }
  }

  lemma CopyKept(db: Db, s: Step, k: (Id, Id))
    requires SlotRuns.Inv(db) && Enabled(db, s) && k in db.copies
    ensures k in Next(db, s).copies && SameClaim(db.copies[k], Next(db, s).copies[k])
  {
    match s
    case Claiming(_, _, _, _, _, _, _) =>
      hide SlotRuns.Inv, Next, Enabled; ClaimKeepsCopies(db, s, k);
    case Renewing(_, _, _) => hide *; RenewKeepsCopies(db, s, k);
    case _ => hide SlotRuns.Inv, Restore, Linkable, Linked, Completable, CompletedRun, Enabled;
  }

  lemma {:induction false} CopyStays(db: Db, steps: seq<Step>, k: (Id, Id))
    requires SlotRuns.Inv(db) && Legal(db, steps) && k in db.copies
    ensures k in RunAll(db, steps).copies && SameClaim(db.copies[k], RunAll(db, steps).copies[k])
    decreases |steps|
  {
    hide SlotRuns.Inv, Next, Enabled;
    if steps != [] {
      SlotRuns.NextKeepsInv(db, steps[0]);
      CopyKept(db, steps[0], k);
      CopyStays(Next(db, steps[0]), steps[1..], k);
    }
  }

  /** What a worker recorded: its own outcome, Observation and event, or nothing at all. */
  ghost predicate Recorded(after: Db, claimed: Run, x: Execution, event: Id) {
    && claimed.id in after.runs && after.runs[claimed.id].outcome == x.outcome
    && after.runs[claimed.id].slot == claimed.slot && after.runs[claimed.id].kind == claimed.kind
    && after.runs[claimed.id].cause == claimed.cause
    && after.runs[claimed.id].startedAt == Some(x.startedAt)
    && after.runs[claimed.id].finishedAt == Some(x.finishedAt)
    && claimed.id in after.observations && after.observations[claimed.id].code == x.code
    && event in after.events && after.events[event] == EventOf(after.runs[claimed.id])
  }

  ghost predicate NothingRecorded(before: Db, after: Db) {
    && after.events == before.events && after.observations == before.observations
    && after.links == before.links
  }

  lemma FinishingEffect(db: Db, claimed: Run, x: Execution, event: Id)
    requires SlotRuns.Inv(db) && (claimed.id, claimed.holder) in db.copies && !x.cancelled
    requires SameClaim(claimed, db.copies[(claimed.id, claimed.holder)])
    ensures var after := Next(db, Ending(claimed, x, event));
            if FinishRun(db, Ending(claimed, x, event)).1.Ok?
            then Recorded(after, claimed, x, event) else NothingRecorded(db, after)
  {
    hide SlotRuns.Inv, Restore, Linkable, Linked;
    SlotRuns.CopyFacts(db, (claimed.id, claimed.holder));
  }

  lemma EndingEffect(db: Db, claimed: Run, x: Execution, event: Id)
    requires SlotRuns.Inv(db) && (claimed.id, claimed.holder) in db.copies
    requires SameClaim(claimed, db.copies[(claimed.id, claimed.holder)])
    requires event !in db.events
    ensures var after := Next(db, Ending(claimed, x, event));
            SlotRuns.Inv(after)
            && (if !x.cancelled && FinishRun(db, Ending(claimed, x, event)).1.Ok?
                then Recorded(after, claimed, x, event) else NothingRecorded(db, after))
  {
    SlotRuns.NextKeepsInv(db, Ending(claimed, x, event));
    hide SlotRuns.Inv, Restore, FinishRun, Recorded;
    if !x.cancelled { FinishingEffect(db, claimed, x, event); }
  }

  /** How a worker's execution ended: recorded, withdrawn by shutdown, fenced off, or unusable. */
  datatype Report = Done | Withdrawn | Lost | Unusable

  /** Executes a claimed Run and records what the executor reported, under the claim's lease. */
  method ExecuteClaimed(store: RunStore, claimed: Run, x: Execution, event: Id)
    returns (r: Report)
    requires SlotRuns.Inv(store.View()) && event !in store.events
    requires (claimed.id, claimed.holder) in store.copies
    requires SameClaim(claimed, store.copies[(claimed.id, claimed.holder)])
    modifies store
    ensures store.View() == Next(old(store.View()), Ending(claimed, x, event))
    ensures SlotRuns.Inv(store.View())
    ensures r.Withdrawn? <==> x.cancelled
    ensures r.Done? ==> Executed(x.outcome)
    ensures if r.Done? then Recorded(store.View(), claimed, x, event)
            else NothingRecorded(old(store.View()), store.View())
  {
    hide SlotRuns.Inv, Slots.Complete, Slots.ReleaseSlot;
    EndingEffect(store.View(), claimed, x, event);
    CopyOf(store.View(), claimed);
    if x.cancelled {
      var released := store.ReleaseSlot(claimed);
      return Withdrawn;
    }
    if !InFlight(claimed) || !Executed(x.outcome) || x.finishedAt < x.startedAt {
      return Unusable;
    }
    var completed := claimed.(outcome := x.outcome, startedAt := Some(x.startedAt),
                              finishedAt := Some(x.finishedAt), holder := "", expires := None);
    var o := Observation(completed.id, completed.slot.scheduledFor, x.code);
    var done := store.Complete(completed, claimed.holder, o, event);
    if done.Ok? { return Done; }
    return if done.error.LeaseLost? then Lost else Unusable;
  }

  /** A worker's copy may be older than the remembered one, but it does the same. */
  lemma CopyOf(db: Db, claimed: Run)
    requires SlotRuns.Inv(db) && (claimed.id, claimed.holder) in db.copies
    requires SameClaim(claimed, db.copies[(claimed.id, claimed.holder)])
    ensures var copy := db.copies[(claimed.id, claimed.holder)];
            && copy.id == claimed.id && copy.holder == claimed.holder && InFlight(claimed)
            && Slots.ReleaseSlot(db, copy) == Slots.ReleaseSlot(db, claimed)
            && forall o: Outcome, a: Time, b: Time ::
                 CompletedRun(copy, o, a, b) == CompletedRun(claimed, o, a, b)
  {
    SlotRuns.CopyFacts(db, (claimed.id, claimed.holder));
    hide SlotRuns.Inv, Restore;
  }

  /** The tables after a worker's claim and whatever others did while it executed. */
  function Interrupted(db: Db, claim: Step, meanwhile: seq<Step>): Db {
    RunAll(Next(db, claim), meanwhile)
  }

  ghost predicate MayRun(db: Db, claim: Step, meanwhile: seq<Step>, event: Id) {
    && SlotRuns.Inv(db) && claim.Claiming? && Enabled(db, claim)
    && Legal(Next(db, claim), meanwhile) && event !in Interrupted(db, claim, meanwhile).events
  }

  function ClaimedBy(db: Db, claim: Step): Result<Run, Failure>
    requires claim.Claiming?
  {
    var v := Propose(claim.id, claim.slot, claim.kind, claim.cause, claim.holder, claim.expires);
    if v.Err? then Err(Invalid) else ClaimSlot(db, v.value, claim.now).1
  }

  /** After its execution a worker still works with the claim it was given. */
  lemma WorkerResumes(db: Db, claim: Step, meanwhile: seq<Step>, event: Id)
    requires MayRun(db, claim, meanwhile, event) && ClaimedBy(db, claim).Ok?
    ensures var mid := Interrupted(db, claim, meanwhile);
            var claimed := ClaimedBy(db, claim).value;
            && SlotRuns.Inv(mid) && (claimed.id, claimed.holder) in mid.copies
            && SameClaim(claimed, mid.copies[(claimed.id, claimed.holder)])
            && claimed.slot == claim.slot && (!claim.kind.Manual? ==> !claimed.kind.Manual?)
  {
    hide SlotRuns.Inv, RunAll, Legal, Restore;
    SlotRuns.NextKeepsInv(db, claim);
    SlotRuns.RunKeepsInv(Next(db, claim), meanwhile);
    var claimed := ClaimedBy(db, claim).value;
    var v := Propose(claim.id, claim.slot, claim.kind, claim.cause, claim.holder, claim.expires);
    if Occupant(db, v.value).Some? { SlotRuns.OccupantFacts(db, v.value); }
    CopyStays(Next(db, claim), meanwhile, (claimed.id, claimed.holder));
  }

  /**
   * What a worker leaves behind. Without a claim it changed nothing; with one, it ended it on top
   * of whatever others did, and recorded its own result or nothing at all.
   */
  ghost predicate Worked(before: Db, after: Db, claim: Step, meanwhile: seq<Step>, x: Execution,
                         event: Id, recorded: bool)
    requires claim.Claiming?
  {
    var claimed := ClaimedBy(before, claim);
    if claimed.Err? then after == before
    else
      var mid := Interrupted(before, claim, meanwhile);
      && after == Next(mid, Ending(claimed.value, x, event))
      && if recorded then Recorded(after, claimed.value, x, event) else NothingRecorded(mid, after)
  }

  datatype SlotOutcome = SlotClaimed | Unavailable | SlotFailed

  /** The scheduler's worker: claims one due slot, executes it, and records the result. */
  method RunSlot(store: RunStore, id: Id, holder: Id, event: Id, due: Slot, now: Time,
                 ceiling: Time, x: Execution, meanwhile: seq<Step>)
    returns (outcome: SlotOutcome)
    requires MayRun(store.View(),
                    Claiming(id, due, Scheduled, None, holder, now + LeaseDuration(ceiling), now),
                    meanwhile, event)
    modifies store
    ensures var claim := Claiming(id, due, Scheduled, None, holder, now + LeaseDuration(ceiling), now);
            var claimed := ClaimedBy(old(store.View()), claim);
            && SlotRuns.Inv(store.View())
            && Worked(old(store.View()), store.View(), claim, meanwhile, x, event,
                      outcome.SlotClaimed?)
            && (claimed.Err? ==>
                  outcome == if claimed.error.SlotHeld? then Unavailable else SlotFailed)
            && (claimed.Ok? && x.cancelled ==> outcome.Unavailable?)
  {
    hide SlotRuns.Inv, Next, Legal, RunAll, ClaimSlot, Recorded, NothingRecorded;
    var claim := Claiming(id, due, Scheduled, None, holder, now + LeaseDuration(ceiling), now);
    var proposed := Propose(id, due, Scheduled, None, holder, now + LeaseDuration(ceiling));
    if proposed.Err? { return SlotFailed; }
    ghost var before := store.View();
    ClaimIsStep(before, claim);
    var claimed := store.ClaimSlot(proposed.value, now);
    if claimed.Err? { return if claimed.error.SlotHeld? then Unavailable else SlotFailed; }
    WorkerResumes(before, claim, meanwhile, event);
    store.Meanwhile(meanwhile);
    var r := ExecuteClaimed(store, claimed.value, x, event);
    match r {
      case Done => return SlotClaimed;
      case Unusable => return SlotFailed;
      case _ => return Unavailable;
    }
  }

  lemma ClaimIsStep(db: Db, claim: Step)
    requires claim.Claiming?
    ensures var v := Propose(claim.id, claim.slot, claim.kind, claim.cause, claim.holder,
                             claim.expires);
            && (v.Ok? ==> Next(db, claim) == ClaimSlot(db, v.value, claim.now).0)
            && (v.Ok? && ClaimSlot(db, v.value, claim.now).1.Err? ==>
                  ClaimSlot(db, v.value, claim.now).0 == db)
  {
  }

  // ---------------------------------------------------------------------------------------------
  // Confirmation
  // ---------------------------------------------------------------------------------------------

  datatype ConfirmationRequest = ConfirmationRequest(
    event: Id, candidate: Id, monitor: Id, revision: int, location: string, triggeringRun: Id,
    triggeringScheduledFor: Time, requestedFor: Time, expected: Evidence, policy: string)

  predicate ValidRequest(q: ConfirmationRequest) {
    && q.event != "" && q.candidate != "" && q.monitor != "" && q.triggeringRun != ""
    && q.policy != "" && q.revision >= 1 && 1 <= |q.location| <= MAX_LOCATION
    && (q.expected.Passing? || q.expected.Failing?)
  }

  function SlotOf(q: ConfirmationRequest): Slot {
    Slot(q.monitor, q.revision, q.location, q.requestedFor)
  }

  function CauseOf(q: ConfirmationRequest): Cause {
    Cause(q.candidate, q.triggeringRun, q.triggeringScheduledFor, q.event, q.policy)
  }

  function ClaimOf(q: ConfirmationRequest, id: Id, holder: Id, now: Time, ceiling: Time): Step {
    Claiming(id, SlotOf(q), Confirmation, Some(CauseOf(q)), holder, now + LeaseDuration(ceiling),
             now)
  }

  datatype ConfirmationFault =
    | InvalidRequest | Stopped | BuildFailed | StillHeld | ShutDown | RecordFailed

  /** The bound on executions that scheduled, confirmation and manual Runs share. */
  class ExecutionSlots {
    const capacity: nat
    var inUse: nat

    ghost predicate Valid()
      reads this
    {
      inUse <= capacity
    }

    constructor (capacity: nat)
      requires capacity >= 1
      ensures Valid() && this.capacity == capacity && inUse == 0
    {
      this.capacity, inUse := capacity, 0;
    }

    /** `stopped` is whether the caller stops waiting before another execution ends. */
    method Acquire(stopped: bool) returns (ok: bool)
      requires Valid() && (inUse == capacity ==> stopped)
      modifies this
      ensures Valid() && ok == (old(inUse) < capacity)
      ensures inUse == old(inUse) + (if ok then 1 else 0)
    {
      ok := inUse < capacity;
      if ok { inUse := inUse + 1; }
    }

    method Release()
      requires Valid() && inUse > 0
      modifies this
      ensures Valid() && inUse == old(inUse) - 1
    {
      inUse := inUse - 1;
    }
  }

  /** The Run of a slot has recorded its outcome. */
  ghost predicate SlotIsRecorded(db: Db, slot: Slot) {
    slot in db.index && db.index[slot] in db.runs && !InFlight(db.runs[db.index[slot]])
  }

  /** A Run that confirms the candidate has recorded its outcome. */
  ghost predicate IsConfirmed(db: Db, candidate: Id) {
    exists id :: id in db.runs && !InFlight(db.runs[id]) && db.runs[id].cause.Some?
                 && db.runs[id].cause.value.candidate == candidate
  }

  /** The slot that the candidate asked for is occupied by an unfinished Run of something else. */
  ghost predicate TakenByAnother(db: Db, q: ConfirmationRequest) {
    && SlotOf(q) in db.index && db.index[SlotOf(q)] in db.runs
    && var r := db.runs[db.index[SlotOf(q)]];
       InFlight(r) && (r.cause.None? || r.cause.value.candidate != q.candidate)
  }

  /** Whatever confirms the candidate occupies its slot. */
  lemma ConfirmedInSlot(db: Db, q: ConfirmationRequest, id: Id)
    requires SlotRuns.Inv(db) && id in db.runs && db.runs[id].cause.Some?
    requires db.runs[id].cause.value.candidate == q.candidate
    requires q.candidate in db.requests && db.requests[q.candidate] == SlotOf(q)
    ensures SlotOf(q) in db.index && db.index[SlotOf(q)] == id
  {
    SlotRuns.RowFacts(db, id);
    hide SlotRuns.Inv, Restore;
  }

  /** A worker that recorded the Run of the slot confirmed the candidate if that Run names it. */
  lemma RecordedConfirms(db: Db, q: ConfirmationRequest, claimed: Run, x: Execution, event: Id)
    requires SlotRuns.Inv(db) && Recorded(db, claimed, x, event) && Executed(x.outcome)
    requires claimed.slot == SlotOf(q) && !claimed.kind.Manual?
    requires q.candidate in db.requests && db.requests[q.candidate] == SlotOf(q)
    ensures IsConfirmed(db, q.candidate)
            <==> claimed.cause.Some? && claimed.cause.value.candidate == q.candidate
  {
    RecordedSettlesSlot(db, claimed, x, event);
    SlotRuns.RowFacts(db, claimed.id);
    hide SlotRuns.Inv, Restore;
    forall id | id in db.runs && db.runs[id].cause.Some?
                && db.runs[id].cause.value.candidate == q.candidate
      ensures id == claimed.id
    {
      ConfirmedInSlot(db, q, id);
    }
  }

  /** A claim in the slot names the candidate unless it took over something else. */
  lemma ClaimNamesCandidate(db: Db, q: ConfirmationRequest, claim: Step)
    requires SlotRuns.Inv(db) && claim.Claiming? && Enabled(db, claim) && claim.slot == SlotOf(q)
    requires claim.kind.Confirmation? && claim.cause == Some(CauseOf(q)) && ClaimedBy(db, claim).Ok?
    ensures var claimed := ClaimedBy(db, claim).value;
            TakenByAnother(db, q)
            <==> !(claimed.cause.Some? && claimed.cause.value.candidate == q.candidate)
  {
    var v := Propose(claim.id, claim.slot, claim.kind, claim.cause, claim.holder, claim.expires);
    if Occupant(db, v.value).Some? { SlotRuns.OccupantFacts(db, v.value); }
    hide SlotRuns.Inv, Restore, Enabled;
  }

  lemma {:induction false} RequestsStay(db: Db, steps: seq<Step>, c: Id)
    requires SlotRuns.Inv(db) && Legal(db, steps) && c in db.requests
    ensures c in RunAll(db, steps).requests && RunAll(db, steps).requests[c] == db.requests[c]
    decreases |steps|
  {
    hide SlotRuns.Inv;
    if steps != [] {
      SlotRuns.NextKeepsInv(db, steps[0]);
      RequestStays(db, steps[0], c);
      RequestsStay(Next(db, steps[0]), steps[1..], c);
    }
    hide Next, Enabled;
  }

  lemma RequestStays(db: Db, s: Step, c: Id)
    requires SlotRuns.Inv(db) && Enabled(db, s) && c in db.requests
    ensures c in Next(db, s).requests && Next(db, s).requests[c] == db.requests[c]
  {
    assert db.links.Keys == db.requests.Keys;
    hide SlotRuns.Inv;
    if s.Finishing? {
      FinishKeepsRequests(db, s);
      hide Next;
    } else if s.Claiming? {
      ClaimKeepsRequests(db, s);
      hide Next;
    } else if !s.Request? {
      OtherKeepsRequests(db, s);
      hide Next;
    }
  }

  lemma ClaimKeepsRequests(db: Db, s: Step)
    requires s.Claiming?
    ensures Next(db, s).requests == db.requests
  {
    hide Propose, ClaimSlot;
    var v := Propose(s.id, s.slot, s.kind, s.cause, s.holder, s.expires);
    if v.Ok? { SlotClaimKeepsRequests(db, v.value, s.now); }
  }

  lemma SlotClaimKeepsRequests(db: Db, value: Run, now: Time)
    ensures ClaimSlot(db, value, now).0.requests == db.requests
  {
    hide Occupant, Reclaimable;
    var o := Occupant(db, value);
    if o.None? {
      assert Remember(Insert(db, value), value, value).requests == db.requests;
    }
  }

  lemma OtherKeepsRequests(db: Db, s: Step)
    requires s.Renewing? || s.Releasing? || s.Skipping?
    ensures Next(db, s).requests == db.requests
  {
    hide Renewed, SkippedRun, Holds;
  }

  lemma FinishKeepsRequests(db: Db, s: Step)
    requires s.Finishing?
    ensures Next(db, s).requests == db.requests
  {
    hide Linkable, Linked, Completable, CompletedRun, Holds;
  }

  lemma RecordedSettlesSlot(db: Db, claimed: Run, x: Execution, event: Id)
    requires SlotRuns.Inv(db) && Recorded(db, claimed, x, event) && Executed(x.outcome)
    requires !claimed.kind.Manual?
    ensures SlotIsRecorded(db, claimed.slot)
  {
    SlotRuns.RowFacts(db, claimed.id);
    hide SlotRuns.Inv, Restore;
  }

  /** A recorded confirmation of the candidate sits in the slot the candidate asked for. */
  lemma FoundSettlesSlot(db: Db, q: ConfirmationRequest, r: Run)
    requires SlotRuns.Inv(db) && r.id in db.runs && db.runs[r.id] == r && !InFlight(r)
    requires r.cause.Some? && r.cause.value.candidate == q.candidate
    requires q.candidate in db.requests && db.requests[q.candidate] == SlotOf(q)
    ensures SlotIsRecorded(db, SlotOf(q))
  {
    SlotRuns.RowFacts(db, r.id);
    hide SlotRuns.Inv, Restore;
  }

  lemma FoundConfirms(db: Db, q: ConfirmationRequest, r: Run)
    requires SlotRuns.Inv(db) && r.id in db.runs && db.runs[r.id] == r && !InFlight(r)
    requires r.cause.Some? && r.cause.value.candidate == q.candidate
    requires q.candidate in db.requests && db.requests[q.candidate] == SlotOf(q)
    ensures SlotIsRecorded(db, SlotOf(q)) && IsConfirmed(db, q.candidate) && !TakenByAnother(db, q)
  {
    FoundSettlesSlot(db, q, r);
    hide SlotRuns.Inv;
  }

  /** Exactly when the worker's own result confirms the candidate. */
  lemma WorkerConfirms(before: Db, q: ConfirmationRequest, claim: Step, meanwhile: seq<Step>,
                       x: Execution, event: Id, claimed: Run)
    requires MayRun(before, claim, meanwhile, event) && claim.slot == SlotOf(q)
    requires claim.kind.Confirmation? && claim.cause == Some(CauseOf(q))
    requires ClaimedBy(before, claim) == Ok(claimed) && Executed(x.outcome)
    requires claimed.slot == SlotOf(q) && !claimed.kind.Manual?
    requires var after := Next(Interrupted(before, claim, meanwhile), Ending(claimed, x, event));
             SlotRuns.Inv(after) && Recorded(after, claimed, x, event)
    ensures var after := Next(Interrupted(before, claim, meanwhile), Ending(claimed, x, event));
            IsConfirmed(after, q.candidate) <==> !TakenByAnother(before, q)
  {
    var mid := Interrupted(before, claim, meanwhile);
    var after := Next(mid, Ending(claimed, x, event));
    assert q.candidate in before.requests && before.requests[q.candidate] == SlotOf(q);
    SlotRuns.NextKeepsInv(before, claim);
    RequestStays(before, claim, q.candidate);
    RequestsStay(Next(before, claim), meanwhile, q.candidate);
    SlotRuns.RunKeepsInv(Next(before, claim), meanwhile);
    EndingKeepsRequests(mid, claimed, x, event);
    ClaimNamesCandidate(before, q, claim);
    hide SlotRuns.Inv, Next, RunAll, Legal, Enabled, ClaimedBy, TakenByAnother, Recorded;
    RecordedConfirms(after, q, claimed, x, event);
  }

  lemma EndingKeepsRequests(db: Db, claimed: Run, x: Execution, event: Id)
    ensures Next(db, Ending(claimed, x, event)).requests == db.requests
  {
    if Ending(claimed, x, event).Finishing? {
      FinishKeepsRequests(db, Ending(claimed, x, event));
      hide Next;
    }
  }

  lemma RowsKnowTheirIds(db: Db)
    requires SlotRuns.Inv(db)
    ensures forall id :: id in db.runs ==> db.runs[id].id == id
  {
    hide Restore;
  }

  /**
   * The confirmation worker. Success means the request needs nothing more: its target is no longer
   * eligible, or the Run of its slot has recorded an outcome, by this worker or another.
   */
  method Execute(store: RunStore, slots: ExecutionSlots, q: ConfirmationRequest, eligible: bool,
                 stopped: bool, id: Id, holder: Id, event: Id, now: Time, ceiling: Time,
                 x: Execution, meanwhile: seq<Step>)
    returns (r: Result<(), ConfirmationFault>)
    requires MayRun(store.View(), ClaimOf(q, id, holder, now, ceiling), meanwhile, event)
    requires slots.Valid() && (slots.inUse == slots.capacity ==> stopped)
    modifies store, slots
    ensures SlotRuns.Inv(store.View())
    ensures slots.Valid() && slots.inUse == old(slots.inUse)
    ensures !ValidRequest(q) || !eligible || old(slots.inUse) == slots.capacity ==>
              store.View() == old(store.View())
    ensures ValidRequest(q) && eligible && old(slots.inUse) < slots.capacity ==>
              Worked(old(store.View()), store.View(), ClaimOf(q, id, holder, now, ceiling),
                     meanwhile, x, event, r.Ok?)
    ensures !ValidRequest(q) ==> r == Err(InvalidRequest)
    ensures ValidRequest(q) && !eligible ==> r.Ok?
    ensures r.Ok? && eligible ==> SlotIsRecorded(store.View(), SlotOf(q))
    ensures r.Ok? && eligible ==>
              (IsConfirmed(store.View(), q.candidate) <==> !TakenByAnother(old(store.View()), q))
  {
    hide SlotRuns.Inv, Next, Legal, RunAll, ClaimSlot, Recorded, NothingRecorded, TakenByAnother;
    hide IsConfirmed, Worked, SlotIsRecorded;
    if !ValidRequest(q) { return Err(InvalidRequest); }
    if !eligible { return Ok(()); }
    var acquired := slots.Acquire(stopped);
    if !acquired { return Err(Stopped); }
    r := ClaimAndExecute(store, q, id, holder, event, now, ceiling, x, meanwhile);
    slots.Release();
  }

  method ClaimAndExecute(store: RunStore, q: ConfirmationRequest, id: Id, holder: Id, event: Id,
                         now: Time, ceiling: Time, x: Execution, meanwhile: seq<Step>)
    returns (r: Result<(), ConfirmationFault>)
    requires MayRun(store.View(), ClaimOf(q, id, holder, now, ceiling), meanwhile, event)
    modifies store
    ensures SlotRuns.Inv(store.View())
    ensures Worked(old(store.View()), store.View(), ClaimOf(q, id, holder, now, ceiling), meanwhile,
                   x, event, r.Ok?)
    ensures r.Ok? ==> SlotIsRecorded(store.View(), SlotOf(q))
    ensures r.Ok? ==>
              (IsConfirmed(store.View(), q.candidate) <==> !TakenByAnother(old(store.View()), q))
    ensures var claimed := ClaimedBy(old(store.View()), ClaimOf(q, id, holder, now, ceiling));
            && (claimed.Ok? && x.cancelled ==> r == Err(ShutDown))
            && (claimed.Err? && r.Err? ==>
                  r.error == if claimed.error.SlotHeld? then StillHeld else BuildFailed)
  {
    hide SlotRuns.Inv, Next, Legal, RunAll, ClaimSlot, Recorded, NothingRecorded, TakenByAnother;
    hide IsConfirmed;
    var claim := ClaimOf(q, id, holder, now, ceiling);
    var proposed := Propose(id, SlotOf(q), Confirmation, Some(CauseOf(q)), holder, claim.expires);
    if proposed.Err? { return Err(BuildFailed); }
    ghost var before := store.View();
    ClaimIsStep(before, claim);
    var claimed := store.ClaimSlot(proposed.value, now);
    if claimed.Err? {
      if !claimed.error.SlotHeld? { return Err(BuildFailed); }
      RowsKnowTheirIds(before);
      var existing := store.FindConfirmation(q.candidate);
      if existing.Some? && !InFlight(existing.value) {
        FoundConfirms(before, q, existing.value);
        return Ok(());
      }
      return Err(StillHeld);
    }
    WorkerResumes(before, claim, meanwhile, event);
    store.Meanwhile(meanwhile);
    var report := ExecuteClaimed(store, claimed.value, x, event);
    match report {
      case Done =>
        RecordedSettlesSlot(store.View(), claimed.value, x, event);
        WorkerConfirms(before, q, claim, meanwhile, x, event, claimed.value);
        return Ok(());
      case Withdrawn => return Err(ShutDown);
      case _ => return Err(RecordFailed);
    }
  }

  // ---------------------------------------------------------------------------------------------
  // A request answered by another Run
  // ---------------------------------------------------------------------------------------------

  const ASKED := ConfirmationRequest("event", "candidate", "monitor", 1, "site", "trigger", 0, 5,
                                     Failing, "phase1.v1")

  /** A scheduled Run is due in the slot the candidate asks for, and its worker crashes. */
  const ABANDONED := [
    Request("candidate", SlotOf(ASKED)),
    Claiming("scheduled-run", SlotOf(ASKED), Scheduled, None, "crashed", 10, 5)]

  const REPLY := Execution(Failed, 20, 21, StatusUnexpected, false)

  /**
   * The confirmation worker takes the abandoned Run over, executes and records it, and reports
   * success, but that Run is the scheduled one: the candidate stays without a confirmation.
   */
  lemma TakeoverLeavesCandidate()
    ensures Legal(Empty(), ABANDONED)
    ensures var db := RunAll(Empty(), ABANDONED);
            var claim := ClaimOf(ASKED, "confirmation-run", "worker", 20, 10);
            && ValidRequest(ASKED) && MayRun(db, claim, [], "recorded") && TakenByAnother(db, ASKED)
            && ClaimedBy(db, claim).Ok? && ClaimedBy(db, claim).value.kind.Scheduled?
            && var mid := Interrupted(db, claim, []);
               var after := Next(mid, Ending(ClaimedBy(db, claim).value, REPLY, "recorded"));
               && FinishRun(mid, Ending(ClaimedBy(db, claim).value, REPLY, "recorded")).1.Ok?
               && SlotIsRecorded(after, SlotOf(ASKED)) && !IsConfirmed(after, "candidate")
               && "candidate" in after.links && after.links["candidate"].None?
  {
    var db := RunAll(Empty(), ABANDONED);
    var claim := ClaimOf(ASKED, "confirmation-run", "worker", 20, 10);
    AbandonedState();
    assert ValidRequest(ASKED) by { assert |"site"| == 4; }
    hide ABANDONED, RunAll, Legal, SlotRuns.Inv;
    TakesOver(db);
    var claimed := ABANDONED_RUN.(holder := "worker", expires := Some(claim.expires));
    var mid := Next(db, claim);
    assert Interrupted(db, claim, []) == mid by { NoSteps(mid); }
    NoSteps(mid);
    FinishesTakenOver(mid, claimed);
    WorkerResumes(db, claim, [], "recorded");
    EndingEffect(mid, claimed, REPLY, "recorded");
    hide Next, Enabled, FinishRun, Interrupted, ClaimedBy, TakenByAnother, Recorded;
    var after := Next(mid, Ending(claimed, REPLY, "recorded"));
    RecordedSettlesSlot(after, claimed, REPLY, "recorded");
    WorkerConfirms(db, ASKED, claim, [], REPLY, "recorded", claimed);
  }

  const ABANDONED_RUN :=
    Run("scheduled-run", SlotOf(ASKED), Scheduled, None, NoOutcome, None, None, "crashed", Some(10))

  lemma NoSteps(db: Db)
    ensures RunAll(db, []) == db && Legal(db, [])
  {
  }

  lemma AbandonedState()
    ensures Legal(Empty(), ABANDONED) && SlotRuns.Inv(RunAll(Empty(), ABANDONED))
    ensures RunAll(Empty(), ABANDONED)
         == Db(map["scheduled-run" := ABANDONED_RUN], map[SlotOf(ASKED) := "scheduled-run"], map[],
               map[], map["candidate" := None], map["candidate" := SlotOf(ASKED)],
               {"scheduled-run"}, {"crashed"}, map[("scheduled-run", "crashed") := ABANDONED_RUN],
               map[])
  {
    var d1 := Next(Empty(), ABANDONED[0]);
    var d2 := Next(d1, ABANDONED[1]);
    assert ABANDONED[1..][1..] == [];
    assert RunAll(d1, ABANDONED[1..]) == RunAll(d2, []) && Legal(d1, ABANDONED[1..]);
    SlotRuns.Reached(ABANDONED);
    hide SlotRuns.Inv;
  }

  lemma TakesOver(db: Db)
    requires db.runs == map["scheduled-run" := ABANDONED_RUN] && db.ids == {"scheduled-run"}
    requires db.index == map[SlotOf(ASKED) := "scheduled-run"] && db.holders == {"crashed"}
    requires db.requests == map["candidate" := SlotOf(ASKED)]
    ensures var claim := ClaimOf(ASKED, "confirmation-run", "worker", 20, 10);
            && claim.Claiming? && Enabled(db, claim) && TakenByAnother(db, ASKED)
            && ClaimedBy(db, claim)
               == Ok(ABANDONED_RUN.(holder := "worker", expires := Some(claim.expires)))
            && var r := ABANDONED_RUN.(holder := "worker", expires := Some(claim.expires));
               && Next(db, claim).runs == map["scheduled-run" := r]
               && Next(db, claim).links == db.links && Next(db, claim).events == db.events
               && ("scheduled-run", "worker") in Next(db, claim).copies
               && Next(db, claim).copies[("scheduled-run", "worker")] == r
  {
    assert |"site"| == 4 && |"worker"| == 6;
  }

  lemma FinishesTakenOver(db: Db, claimed: Run)
    requires claimed.id == "scheduled-run" && claimed.holder == "worker" && InFlight(claimed)
    requires db.runs == map["scheduled-run" := claimed] && claimed.cause.None?
    requires ("scheduled-run", "worker") in db.copies
    requires db.copies[("scheduled-run", "worker")] == claimed
    ensures var s := Ending(claimed, REPLY, "recorded");
            s.Finishing? && FinishRun(db, s).1.Ok? && Next(db, s).links == db.links
  {
  }
}
