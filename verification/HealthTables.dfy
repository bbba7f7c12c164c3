/**
 * What one Run does to a Monitor's health, in terms of what the Run reported and of what was known
 * before: nothing here speaks of evidence, decisions or how they are computed.
 */
module HealthTables {
  import opened Common
  import opened Health
  import opened HealthRuns

  predicate Blames(x: Input) { TargetFault(x.kind, x.outcome, x.code) }

  predicate Clears(x: Input) { CleanPass(x.kind, x.outcome, x.code) }

  /** The one Run that responded is counted once, as what it showed. */
  ghost predicate Counted(c: Counts, x: Input) {
    && c.configured == 1 && c.eligible == 1 && c.responding == 1 && c.missing == 0
    && c.passing == (if Clears(x) then 1 else 0)
    && c.failing == (if Blames(x) then 1 else 0)
    && c.locationFault == (if LocalFault(x.kind, x.outcome, x.code) then 1 else 0)
    && c.indeterminate == 1 - c.passing - c.failing - c.locationFault
  }

  /** What every Run that is considered leaves behind, whatever it showed. */
  ghost predicate Noted(s: Snapshot, x: Input, e: Snapshot) {
    && Counted(e.counts, x) && e.monitor == s.monitor && e.policy == s.policy
    && e.revision == x.revision && e.lastRun == x.run
    && e.lastRunScheduledFor == Some(x.scheduledFor) && e.updatedAt == x.now
    && e.lastDeterminateFinishedAt
       == (if Blames(x) || Clears(x) then x.finishedAt else s.lastDeterminateFinishedAt)
    && e.version == s.version + (if e.state == s.state then 0 else 1)
    && e.transitionedAt == (if e.state == s.state then s.transitionedAt else x.now)
  }

  /** The Run is identified and of the latest revision, and is not older than one already considered. */
  ghost predicate Current(s: Snapshot, x: Input) {
    && x.event != "" && x.run != "" && x.revision == x.latestRevision >= 1 && x.newCandidate != ""
    && x.finishedAt.Some?
    && (x.kind.Scheduled? && s.lastScheduledFor.Some? ==> s.lastScheduledFor.value <= x.scheduledFor)
  }

  function Suspicion(s: Snapshot, x: Input, direction: Direction, expected: Evidence): Candidate {
    Candidate(x.newCandidate, s.monitor, x.revision, direction, expected, Pending, x.run,
              x.scheduledFor, x.event, x.now)
  }

  /**
   * A scheduled Run. One that blames the target keeps a Monitor down that was, and makes any other
   * degraded with a suspected failure; one that clears it does the reverse; any other changes neither
   * the state nor what is suspected, nor how fresh the evidence is.
   */
  lemma ScheduledRunTable(s: Snapshot, x: Input)
    requires HealthInv(s) && x.kind.Scheduled? && Current(s, x)
    ensures Judge(s, x).Ok?
    ensures var e := Judge(s, x).value.snapshot;
            && Noted(s, x, e) && e.lastScheduledFor == Some(x.scheduledFor)
            && if Blames(x) then
                 if s.stable.Down? then e.state.Down? && e.stable.Down? && e.candidate.None?
                 else
                   && e.state.Degraded? && e.stable == s.stable
                   && e.candidate == Some(Suspicion(s, x, Failure, Failing))
               else if Clears(x) then
                 if s.stable.Down? then
                   && e.state.Degraded? && e.stable == s.stable
                   && e.candidate == Some(Suspicion(s, x, Recovery, Passing))
                 else e.state.Healthy? && e.stable.Healthy? && e.candidate.None?
               else e.state == s.state && e.stable == s.stable && e.candidate == s.candidate
  {
    ClassifiedEvidence(x.kind, x.outcome, x.code);
    hide Classify, TargetFault, CleanPass, LocalFault;
  }

  /**
   * A confirmation Run of the pending candidate. One that blames the target makes the Monitor down,
   * because a failure was suspected or it was down already; one that clears it makes a Monitor that
   * was down healthy and returns any other to what it was; any other changes nothing of that.
   */
  lemma ConfirmationRunTable(s: Snapshot, x: Input)
    requires HealthInv(s) && x.kind.Confirmation? && Current(s, x)
    requires s.candidate.Some? && s.candidate.value.id == x.candidate
    requires s.candidate.value.revision == x.revision
    ensures Judge(s, x).Ok?
    ensures var e := Judge(s, x).value.snapshot;
            && Noted(s, x, e) && e.lastScheduledFor == s.lastScheduledFor
            && if Blames(x) then e.state.Down? && e.stable.Down? && e.candidate.None?
               else if Clears(x) then
                 && e.candidate.None? && e.state == e.stable
                 && e.stable == (if s.stable.Down? then Healthy else s.stable)
               else e.state == s.state && e.stable == s.stable && e.candidate == s.candidate
  {
    ClassifiedEvidence(x.kind, x.outcome, x.code);
    hide Classify, TargetFault, CleanPass, LocalFault;
  }

  /** A Run of no account: manual, of another revision, late, or confirming no pending candidate. */
  ghost predicate Ignored(s: Snapshot, x: Input) {
    || x.kind.Manual? || x.revision != x.latestRevision
    || (x.kind.Scheduled? && s.lastScheduledFor.Some? && x.scheduledFor < s.lastScheduledFor.value)
    || (x.kind.Confirmation?
        && !(s.candidate.Some? && s.candidate.value.id == x.candidate
             && s.candidate.value.revision == x.revision))
  }

  /** Such a Run only says when it was looked at. */
  lemma IgnoredRunTable(s: Snapshot, x: Input)
    requires HealthInv(s) && x.event != "" && x.run != "" && x.revision >= 1 && x.latestRevision >= 1
    requires Ignored(s, x)
    ensures Judge(s, x).Ok?
    ensures var d := Judge(s, x).value;
            && d.snapshot == s.(updatedAt := x.now) && !d.transitioned
            && d.created.None? && d.completed.None?
  {
    hide Classify, CountsInv, CountsFor;
  }

  /** What becomes of the candidate that was pending. */
  lemma EndedCandidateTable(s: Snapshot, x: Input)
    requires HealthInv(s) && Current(s, x) && s.candidate.Some? && !Ignored(s, x)
    ensures Judge(s, x).Ok?
    ensures var d := Judge(s, x).value;
            var c := s.candidate.value;
            d.completed ==
              if !Blames(x) && !Clears(x) then None
              else if x.kind.Scheduled? then Some(c.(state := Superseded))
              else if Blames(x) == c.expected.Failing? then Some(c.(state := Confirmed))
              else Some(c.(state := Contradicted))
  {
    ClassifiedEvidence(x.kind, x.outcome, x.code);
    hide Classify, TargetFault, CleanPass, LocalFault;
  }

  /** Going stale: nothing responds, nothing is suspected, and the next evidence starts over. */
  lemma StaleTable(s: Snapshot, now: Time)
    requires HealthInv(s)
    ensures Sweep(s, now).Ok?
    ensures var d := Sweep(s, now).value;
            if s.state.Unknown? then d.snapshot == s && d.completed.None? && !d.transitioned
            else
              && d.snapshot == s.(state := Unknown, stable := Unknown, version := s.version + 1,
                                  transitionedAt := now, updatedAt := now, candidate := None,
                                  counts := Counts(1, 1, 0, 0, 0, 0, 0, 1))
              && d.transitioned && d.created.None?
              && (s.candidate.None? ==> d.completed.None?)
              && (s.candidate.Some? ==>
                    d.completed == Some(s.candidate.value.(state := CandidateState.Stale)))
  {
    hide CountsInv;
  }

  /** A log row says which version it is, what moved where, why, on what counts, and when. */
  lemma LoggedRowTable(s: Snapshot, f: Fact)
    requires HealthInv(s) && Verdict(s, f).Ok?
    ensures var e := After(s, f);
            Emitted(s, f) ==
              if e.state == s.state then []
              else [Transition(s.version + 1, s.state, e.state, POLICY_VERSION, e.revision,
                               match f case Seen(x) => Some(x.run) case Swept(_) => None,
                               match f case Seen(x) => Some(x.scheduledFor) case Swept(_) => None,
                               e.counts, match f case Seen(x) => x.now case Swept(at) => at)]
  {
    hide Judge, Sweep, HealthInv, CountsInv, Edge;
    FactKeepsInv(s, f);
    if f.Seen? { JudgeIsGood(s, f.x); } else { SweepIsGood(s, f.at); }
    GoodPolicy(After(s, f));
  }

  lemma SweepIsGood(s: Snapshot, now: Time)
    requires HealthInv(s)
    ensures Sweep(s, now).Ok? && Good(s, Sweep(s, now).value)
  {
    hide CountsInv;
    CountsPartition(Passing);
  }

  lemma GoodPolicy(s: Snapshot)
    requires HealthInv(s)
    ensures s.policy == POLICY_VERSION
  {
  }
}
