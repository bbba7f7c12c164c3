/**
 * What each step of the slot protocol comes to, in terms of the rows that were there before: exactly
 * which claims succeed, which results count, and what is written.
 */
module SlotEffects {
  import opened Common
  import opened Health
  import opened Slots
  import opened SlotRuns

  /** What the program demands of a claim: identity, slot, holder, and a cause exactly to confirm. */
  ghost predicate WellFormed(s: Step)
    requires s.Claiming?
  {
    && s.id != "" && s.slot.monitor != "" && s.slot.revision >= 1 && 1 <= |s.slot.location| <= 63
    && 1 <= |s.holder| <= 128 && (s.kind.Confirmation? <==> s.cause.Some?)
    && (s.cause.Some? ==>
          s.cause.value.candidate != "" && s.cause.value.triggeringRun != ""
          && s.cause.value.event != "" && s.cause.value.policy != "")
  }

  /** A row keeps its slot from others while it has an outcome, or a lease that still runs. */
  ghost predicate Blocks(r: Run, now: Time) {
    !r.outcome.NoOutcome? || (r.expires.Some? && r.expires.value > now)
  }

  /**
   * Exactly which claims succeed. A free slot gets a new row; one whose holder's lease ran out without
   * an outcome keeps its row and changes hands; any other stays as it is. Manual Runs need no slot.
   */
  lemma ClaimMeans(db: Db, s: Step)
    requires Inv(db) && s.Claiming? && Enabled(db, s)
    ensures !s.kind.Manual? && s.slot in db.index ==> db.index[s.slot] in db.runs
    ensures var after := Next(db, s);
            if !WellFormed(s) then after == db
            else if s.kind.Manual? || s.slot !in db.index then
              && after.runs == db.runs[s.id := Run(s.id, s.slot, s.kind, s.cause, NoOutcome, None,
                                                   None, s.holder, Some(s.expires))]
              && after.index == (if s.kind.Manual? then db.index else db.index[s.slot := s.id])
            else
              var r := db.runs[db.index[s.slot]];
              if Blocks(r, s.now) then after == db
              else
                && after.index == db.index
                && after.runs == db.runs[r.id :=
                                   r.(holder := s.holder, expires := Some(s.expires))]
  {
    hide Restore, Inv, WellFormed, ClaimSlot, Propose, Blocks;
    ProposeMeans(s);
    if s.slot in db.index { SlotHasRow(db, s.slot); }
    var v := Propose(s.id, s.slot, s.kind, s.cause, s.holder, s.expires);
    if v.Ok? { SlotClaimMeans(db, v.value, s.now); }
  }

  lemma ProposeMeans(s: Step)
    requires s.Claiming?
    ensures Propose(s.id, s.slot, s.kind, s.cause, s.holder, s.expires).Ok? <==> WellFormed(s)
    ensures WellFormed(s) ==>
              Propose(s.id, s.slot, s.kind, s.cause, s.holder, s.expires)
              == Ok(Run(s.id, s.slot, s.kind, s.cause, NoOutcome, None, None, s.holder,
                        Some(s.expires)))
  {
  }

  lemma SlotClaimMeans(db: Db, value: Run, now: Time)
    requires InFlight(value)
    requires value.slot in db.index ==>
               && db.index[value.slot] in db.runs
               && var r := db.runs[db.index[value.slot]];
                  r.id == db.index[value.slot] && (r.outcome.NoOutcome? ==> r.expires.Some?)
    ensures var after := ClaimSlot(db, value, now).0;
            if value.kind.Manual? || value.slot !in db.index then
              && after.runs == db.runs[value.id := value]
              && after.index == (if value.kind.Manual? then db.index
                                 else db.index[value.slot := value.id])
            else
              var r := db.runs[db.index[value.slot]];
              if Blocks(r, now) then after == db
              else
                && after.index == db.index
                && after.runs == db.runs[r.id :=
                                   r.(holder := value.holder, expires := value.expires)]
  {
  }

  lemma SlotHasRow(db: Db, slot: Slot)
    requires Inv(db) && slot in db.index
    ensures db.index[slot] in db.runs && db.runs[db.index[slot]].id == db.index[slot]
    ensures db.runs[db.index[slot]].outcome.NoOutcome? ==>
              db.runs[db.index[slot]].expires.Some?
  {
    hide CopiesInv, EventsInv, ObservationsInv, LinksInv;
  }

  /** A worker that holds its row, and a result of an execution in the right order. */
  ghost predicate Conclusive(db: Db, s: Step)
    requires s.Finishing?
  {
    && Held(db, s.id, s.holder) && s.started <= s.finished
    && s.outcome in {Passed, Failed, Errored, TimedOut, Cancelled}
  }

  /**
   * Exactly which results count: outcome, Observation, event and the candidate's link are written
   * together, and the lease ends; any other result changes nothing.
   */
  lemma FinishMeans(db: Db, s: Step)
    requires Inv(db) && s.Finishing? && Enabled(db, s)
    ensures FinishRun(db, s).1.Ok? <==> Conclusive(db, s)
    ensures !Conclusive(db, s) ==> Next(db, s) == db
    ensures Conclusive(db, s) ==>
              var r, after := db.runs[s.id], Next(db, s);
              && after.runs == db.runs[s.id :=
                   r.(outcome := s.outcome, startedAt := Some(s.started),
                      finishedAt := Some(s.finished), holder := "", expires := None)]
              && after.observations
                 == db.observations[s.id := Observation(s.id, r.slot.scheduledFor, s.code)]
              && after.events == db.events[s.event := Recorded(s.id, r.slot, r.kind, s.outcome)]
              && after.index == db.index
              && after.links == (if r.cause.None? then db.links
                                 else db.links[r.cause.value.candidate := Some(s.id)])
  {
    hide Inv, Restore;
    HeldIsCopied(db, s.id, s.holder);
    var k := (s.id, s.holder);
    if k in db.copies && Held(db, s.id, s.holder) {
      LinkNeverConflicts(db, s.id);
    }
    hide Linkable;
  }

  /** The holder of a row works on exactly that row; anyone else's copy holds nothing. */
  lemma HeldIsCopied(db: Db, id: Id, holder: Id)
    requires Inv(db)
    ensures var k := (id, holder);
            && (Held(db, id, holder) ==>
                  && k in db.copies && db.copies[k] == db.runs[id] && db.runs[id].id == id
                  && holder != "" && db.runs[id].expires.Some?)
            && (k in db.copies ==>
                  && db.copies[k].id == id && db.copies[k].holder == holder
                  && InFlight(db.copies[k])
                  && (Holds(db, db.copies[k], holder) <==> Held(db, id, holder)))
  {
    hide IndexInv, EventsInv, ObservationsInv, LinksInv;
  }

  /** Exactly which renewals count: the holder's, if they extend the lease. */
  lemma RenewMeans(db: Db, s: Step)
    requires Inv(db) && s.Renewing?
    ensures Next(db, s).runs ==
              if Held(db, s.id, s.holder) && db.runs[s.id].expires.Some?
                 && db.runs[s.id].expires.value < s.expires then
                db.runs[s.id := db.runs[s.id].(expires := Some(s.expires))]
              else db.runs
    ensures Next(db, s).index == db.index && Next(db, s).events == db.events
  {
    hide Inv, Restore, Held;
    HeldIsCopied(db, s.id, s.holder);
    var k := (s.id, s.holder);
    if k in db.copies {
      var v := Renewed(db.copies[k], s.expires);
      if v.Ok? { RenewalMeans(db, v.value); }
      hide RenewLease;
    }
  }

  lemma RenewalMeans(db: Db, value: Run)
    ensures var after := RenewLease(db, value).0;
            && after.runs == (if Holds(db, value, value.holder) then
                                db.runs[value.id := db.runs[value.id].(expires := value.expires)]
                              else db.runs)
            && after.index == db.index && after.events == db.events
  {
  }

  /** Exactly which releases count: the holder's. The row goes, and with it the slot is free. */
  lemma ReleaseMeans(db: Db, s: Step)
    requires Inv(db) && s.Releasing?
    ensures Next(db, s) ==
              if Held(db, s.id, s.holder) then
                var r := db.runs[s.id];
                db.(runs := db.runs - {s.id},
                    index := if r.kind.Manual? then db.index else db.index - {r.slot})
              else db
  {
    HeldIsCopied(db, s.id, s.holder);
    hide Inv, Restore;
  }

  /** Exactly which slots are recorded as skipped: well-formed scheduled ones without a row. */
  lemma SkipMeans(db: Db, s: Step)
    requires Inv(db) && s.Skipping?
    ensures if s.id != "" && s.slot.monitor != "" && s.slot.revision >= 1
               && 1 <= |s.slot.location| <= 63 && s.kind.Scheduled? && s.slot !in db.index then
              && Next(db, s).runs == db.runs[s.id :=
                   Run(s.id, s.slot, Scheduled, None, Skipped, None, None, "", None)]
              && Next(db, s).index == db.index[s.slot := s.id]
              && Next(db, s).events
                 == db.events[s.event := Recorded(s.id, s.slot, Scheduled, Skipped)]
              && Next(db, s).observations == db.observations && Next(db, s).links == db.links
            else Next(db, s) == db
  {
    hide Inv;
  }

  /** What every Run has: an identity, a slot, and a cause exactly if it confirms a candidate. */
  ghost predicate Identified(r: Run) {
    && r.id != "" && r.slot.monitor != "" && r.slot.revision >= 1 && 1 <= |r.slot.location| <= 63
    && (r.kind.Confirmation? <==> r.cause.Some?)
    && (r.cause.Some? ==>
          r.cause.value.candidate != "" && r.cause.value.triggeringRun != ""
          && r.cause.value.event != "" && r.cause.value.policy != "")
  }

  /** Exactly which rows are read back: leased and not begun, skipped, or executed in order. */
  lemma ReadBackMeans(r: Run)
    ensures Restore(r).Ok? ==> Restore(r).value == r
    ensures Restore(r).Ok? <==>
              && Identified(r)
              && match r.outcome
                 case NoOutcome =>
                   r.holder != "" && r.expires.Some? && r.startedAt.None? && r.finishedAt.None?
                 case Skipped =>
                   r.holder == "" && r.expires.None? && r.startedAt.None? && r.finishedAt.None?
                 case _ =>
                   && r.holder == "" && r.expires.None?
                   && r.startedAt.Some? && r.finishedAt.Some?
                   && r.startedAt.value <= r.finishedAt.value
  {
  }
}
