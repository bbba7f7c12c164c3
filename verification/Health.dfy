/**
 * The evaluated health of one Monitor: how one Run's evidence or one staleness sweep moves it.
 *
 * `Judge` and `Sweep` are decision tables. The methods `Evaluate` and `MarkStale` build the same
 * decisions by assigning one field after another, as the program does.
 */
module Health {
  import opened Common

  const POLICY_VERSION := "phase1.v1"

  datatype State = Unknown | Healthy | Degraded | Down

  datatype Evidence = Passing | Failing | LocationFault | Indeterminate

  datatype Direction = Failure | Recovery

  datatype CandidateState = Pending | Confirmed | Contradicted | Superseded | Stale

  datatype Kind = Scheduled | Confirmation | Manual

  datatype Outcome = NoOutcome | Passed | Failed | Errored | TimedOut | Cancelled | Skipped

  datatype Code =
    | NoCode
    | StatusUnexpected
    | ExecutionTimeout
    | RedirectTooMany
    | CertificateInvalid
    | TransportFailed
    | ResolutionFailed
    | ResolutionEmpty
    | ConnectFailed
    | AddressMismatch
    | OtherCode(name: string)

  datatype Counts = Counts(
    configured: int, eligible: int, responding: int, passing: int, failing: int,
    locationFault: int, indeterminate: int, missing: int)

  const NO_COUNTS := Counts(0, 0, 0, 0, 0, 0, 0, 0)

  datatype Candidate = Candidate(
    id: Id, monitor: Id, revision: int, direction: Direction, expected: Evidence,
    state: CandidateState, triggeringRun: Id, triggeringScheduledFor: Time,
    triggeringEvent: Id, requestedAt: Time)

  datatype Snapshot = Snapshot(
    monitor: Id, state: State, stable: State, policy: string, version: int, revision: int,
    lastScheduledFor: Option<Time>, lastDeterminateFinishedAt: Option<Time>,
    lastRun: Id, lastRunScheduledFor: Option<Time>, candidate: Option<Candidate>,
    counts: Counts, transitionedAt: Time, updatedAt: Time)

  datatype Input = Input(
    event: Id, run: Id, kind: Kind, outcome: Outcome, code: Code,
    revision: int, latestRevision: int, scheduledFor: Time, finishedAt: Option<Time>,
    candidate: Id, now: Time, newCandidate: Id)

  datatype Decision = Decision(
    snapshot: Snapshot, previous: State, evidence: Evidence, late: bool,
    supersededRevision: bool, ignoredConfirmation: bool,
    created: Option<Candidate>, completed: Option<Candidate>, transitioned: bool)

  datatype Fault = InvalidSnapshot | MissingIdentity | MissingFinish | MissingCandidateId

  function Initial(monitor: Id, now: Time): Snapshot {
    Snapshot(monitor, Unknown, Unknown, POLICY_VERSION, 0, 0, None, None, "", None, None,
             NO_COUNTS, now, now)
  }

  function Classify(kind: Kind, outcome: Outcome, code: Code): Evidence {
    if kind.Manual? then Indeterminate
    else match outcome
      case Passed => if code.NoCode? then Passing else Indeterminate
      case Failed => if code.StatusUnexpected? then Failing else Indeterminate
      case TimedOut => if code.ExecutionTimeout? then Failing else Indeterminate
      case Errored =>
        (match code
         case RedirectTooMany => Failing
         case CertificateInvalid => Failing
         case TransportFailed => Failing
         case ResolutionFailed => Failing
         case ResolutionEmpty => Failing
         case ConnectFailed => Failing
         case AddressMismatch => LocationFault
         case _ => Indeterminate)
      case _ => Indeterminate
  }

  /** The Run failed in a way that the monitored target is to blame for. */
  predicate TargetFault(kind: Kind, outcome: Outcome, code: Code) {
    && !kind.Manual?
    && ((outcome.Failed? && code == StatusUnexpected)
        || (outcome.TimedOut? && code == ExecutionTimeout)
        || (outcome.Errored?
            && code in {RedirectTooMany, CertificateInvalid, TransportFailed, ResolutionFailed,
                        ResolutionEmpty, ConnectFailed}))
  }

  predicate CleanPass(kind: Kind, outcome: Outcome, code: Code) {
    !kind.Manual? && outcome.Passed? && code == NoCode
  }

  /** The Run failed in a way that the place it ran from is to blame for. */
  predicate LocalFault(kind: Kind, outcome: Outcome, code: Code) {
    !kind.Manual? && outcome.Errored? && code == AddressMismatch
  }

  /** The four kinds of evidence tell these apart, and nothing else. */
  lemma ClassifiedEvidence(kind: Kind, outcome: Outcome, code: Code)
    ensures var e := Classify(kind, outcome, code);
            && (e.Failing? <==> TargetFault(kind, outcome, code))
            && (e.Passing? <==> CleanPass(kind, outcome, code))
            && (e.LocationFault? <==> LocalFault(kind, outcome, code))
  {
  }

  predicate Determinate(e: Evidence) { e.Passing? || e.Failing? }

  function CountsFor(e: Evidence): Counts {
    var one := Counts(1, 1, 1, 0, 0, 0, 0, 0);
    match e
    case Passing => one.(passing := 1)
    case Failing => one.(failing := 1)
    case LocationFault => one.(locationFault := 1)
    case Indeterminate => one.(indeterminate := 1)
  }

  const MISSING_COUNTS := Counts(1, 1, 0, 0, 0, 0, 0, 1)

  predicate ValidSnapshot(s: Snapshot) {
    s.monitor != "" && s.policy == POLICY_VERSION && !s.stable.Degraded? && s.version >= 0
  }

  // ---------------------------------------------------------------------------------------------
  // Decision tables
  // ---------------------------------------------------------------------------------------------

  /** The evidence is about slots older than one already considered. */
  predicate Late(s: Snapshot, x: Input) {
    x.kind.Scheduled? && s.lastScheduledFor.Some? && x.scheduledFor < s.lastScheduledFor.value
  }

  /** A confirmation names exactly the candidate that is pending, for the same revision. */
  predicate Names(s: Snapshot, x: Input) {
    && s.candidate.Some? && x.candidate != "" && s.candidate.value.id == x.candidate
    && s.candidate.value.state.Pending? && s.candidate.value.revision == x.revision
  }

  /** The state that determinate scheduled evidence is compared with. */
  function Anchor(s: Snapshot): State {
    if s.state.Degraded? then s.stable else s.state
  }

  /** Moving to a state bumps the version exactly when the state differs. */
  function MoveTo(s: Snapshot, state: State, stable: State, now: Time): Snapshot {
    s.(state := state, stable := stable,
       version := s.version + (if s.state == state then 0 else 1),
       transitionedAt := if s.state == state then s.transitionedAt else now)
  }

  /** What every considered Run leaves behind, before it moves the state. */
  function Observed(s: Snapshot, x: Input, e: Evidence): Snapshot {
    s.(updatedAt := x.now,
       lastScheduledFor := if x.kind.Scheduled? then Some(x.scheduledFor) else s.lastScheduledFor,
       revision := x.revision, lastRun := x.run, lastRunScheduledFor := Some(x.scheduledFor),
       counts := CountsFor(e),
       lastDeterminateFinishedAt :=
         if Determinate(e) then x.finishedAt else s.lastDeterminateFinishedAt)
  }

  function NewCandidate(s: Snapshot, x: Input, e: Evidence): Candidate {
    Candidate(x.newCandidate, s.monitor, x.revision,
              if e.Failing? then Failure else Recovery, e, Pending,
              x.run, x.scheduledFor, x.event, x.now)
  }

  function Complete(c: Option<Candidate>, state: CandidateState): Option<Candidate> {
    if c.Some? then Some(c.value.(state := state)) else None
  }

  function Moved(d: Decision, before: Snapshot, after: Snapshot): Decision {
    d.(snapshot := after, transitioned := before.state != after.state)
  }

  /** The stable state that determinate evidence argues for. */
  function Argued(e: Evidence): State { if e.Failing? then Down else Healthy }

  /** Scheduled evidence settles the state alone unless it argues for entering or leaving down. */
  predicate Settles(s: Snapshot, e: Evidence) { e.Failing? == Anchor(s).Down? }

  function JudgeScheduled(s: Snapshot, x: Input, d: Decision): Result<Decision, Fault>
    requires Determinate(d.evidence)
  {
    var e := d.evidence;
    var seen := Observed(s, x, e);
    var done := d.(completed := Complete(s.candidate, Superseded));
    if Settles(s, e) then
      Ok(Moved(done, s, MoveTo(seen.(candidate := None), Argued(e), Argued(e), x.now)))
    else if x.newCandidate == "" then Err(MissingCandidateId)
    else
      var c := Some(NewCandidate(s, x, e));
      Ok(Moved(done.(created := c), s,
               MoveTo(seen.(candidate := c), Degraded, s.stable, x.now)))
  }

  /** The stable state after a confirmation: the suspected one, or the one it was before. */
  function Concluded(s: Snapshot, e: Evidence): State
    requires s.candidate.Some?
  {
    var c := s.candidate.value;
    if e != c.expected then s.stable else if c.direction.Failure? then Down else Healthy
  }

  function JudgeConfirmation(s: Snapshot, x: Input, d: Decision): Decision
    requires Determinate(d.evidence) && Names(s, x)
  {
    var agreed := d.evidence == s.candidate.value.expected;
    var target := Concluded(s, d.evidence);
    Moved(d.(completed := Complete(s.candidate, if agreed then Confirmed else Contradicted)), s,
          MoveTo(Observed(s, x, d.evidence).(candidate := None), target, target, x.now))
  }

  function Judge(s: Snapshot, x: Input): Result<Decision, Fault> {
    if !ValidSnapshot(s) then Err(InvalidSnapshot)
    else if x.event == "" || x.run == "" || x.revision < 1 || x.latestRevision < 1 then
      Err(MissingIdentity)
    else
      var e := Classify(x.kind, x.outcome, x.code);
      var d := Decision(s.(updatedAt := x.now), s.state, e, false, false, false, None, None, false);
      if x.kind.Manual? then Ok(d)
      else if x.revision != x.latestRevision then Ok(d.(supersededRevision := true))
      else if Late(s, x) then Ok(d.(late := true))
      else if x.kind.Confirmation? && !Names(s, x) then Ok(d.(ignoredConfirmation := true))
      else if Determinate(e) && x.finishedAt.None? then Err(MissingFinish)
      else if !Determinate(e) then Ok(d.(snapshot := Observed(s, x, e)))
      else if x.kind.Scheduled? then JudgeScheduled(s, x, d)
      else Ok(JudgeConfirmation(s, x, d))
  }

  function Sweep(s: Snapshot, now: Time): Result<Decision, Fault> {
    if !ValidSnapshot(s) then Err(InvalidSnapshot)
    else
      var d := Decision(s, s.state, Indeterminate, false, false, false, None, None, false);
      if s.state.Unknown? then Ok(d)
      else
        Ok(d.(completed := Complete(s.candidate, Stale), transitioned := true,
              snapshot := MoveTo(s, Unknown, Unknown, now)
                            .(candidate := None, updatedAt := now, counts := MISSING_COUNTS)))
  }

  // ---------------------------------------------------------------------------------------------
  // The program's evaluation, field by field
  // ---------------------------------------------------------------------------------------------

  method SetState(d: Decision, state: State, stable: State, now: Time) returns (r: Decision)
    ensures r.snapshot == MoveTo(d.snapshot, state, stable, now)
    ensures r == d.(snapshot := r.snapshot,
                    transitioned := d.transitioned || d.snapshot.state != state)
  {
    r := d;
    if r.snapshot.state != state {
      r := r.(snapshot := r.snapshot.(state := state));
      r := r.(snapshot := r.snapshot.(version := r.snapshot.version + 1));
      r := r.(snapshot := r.snapshot.(transitionedAt := now));
      r := r.(transitioned := true);
    }
    r := r.(snapshot := r.snapshot.(stable := stable));
  }

  method Evaluate(s: Snapshot, x: Input) returns (r: Result<Decision, Fault>)
    ensures r == Judge(s, x)
  {
    if !ValidSnapshot(s) { return Err(InvalidSnapshot); }
    if x.event == "" || x.run == "" || x.revision < 1 || x.latestRevision < 1 {
      return Err(MissingIdentity);
    }
    var d := Decision(s, s.state, Indeterminate, false, false, false, None, None, false);
    d := d.(evidence := Classify(x.kind, x.outcome, x.code));
    d := d.(snapshot := d.snapshot.(updatedAt := x.now));
    if x.kind.Manual? { return Ok(d); }
    if x.revision != x.latestRevision { return Ok(d.(supersededRevision := true)); }
    if Late(s, x) { return Ok(d.(late := true)); }
    if x.kind.Scheduled? {
      d := d.(snapshot := d.snapshot.(lastScheduledFor := Some(x.scheduledFor)));
    }
    if x.kind.Confirmation? && !Names(s, x) { return Ok(d.(ignoredConfirmation := true)); }
    d := d.(snapshot := d.snapshot.(revision := x.revision));
    d := d.(snapshot := d.snapshot.(lastRun := x.run));
    d := d.(snapshot := d.snapshot.(lastRunScheduledFor := Some(x.scheduledFor)));
    d := d.(snapshot := d.snapshot.(counts := CountsFor(d.evidence)));
    if Determinate(d.evidence) {
      if x.finishedAt.None? { return Err(MissingFinish); }
      d := d.(snapshot := d.snapshot.(lastDeterminateFinishedAt := x.finishedAt));
    }
    if x.kind.Confirmation? { d := EvaluateConfirmation(s, d, x); return Ok(d); }
    r := EvaluateScheduled(s, d, x);
  }

  method EvaluateScheduled(ghost s: Snapshot, d0: Decision, x: Input)
    returns (r: Result<Decision, Fault>)
    requires ValidSnapshot(s) && x.kind.Scheduled?
    requires d0.snapshot == Observed(s, x, d0.evidence) && d0.previous == s.state
    requires d0.created.None? && d0.completed.None? && !d0.transitioned
    ensures r == if Determinate(d0.evidence) then JudgeScheduled(s, x, d0) else Ok(d0)
  {
    var d := d0;
    if !Determinate(d.evidence) { return Ok(d); }
    if d.snapshot.candidate.Some? {
      d := d.(completed := Some(d.snapshot.candidate.value.(state := Superseded)));
      d := d.(snapshot := d.snapshot.(candidate := None));
    }
    var stable := d.snapshot.stable;
    if !d.snapshot.state.Degraded? { stable := d.snapshot.state; }
    match stable {
      case Unknown =>
        if d.evidence.Passing? { d := SetState(d, Healthy, Healthy, x.now); return Ok(d); }
        r := BeginCandidate(d, x, Failure, Failing);
      case Healthy =>
        if d.evidence.Passing? { d := SetState(d, Healthy, Healthy, x.now); return Ok(d); }
        r := BeginCandidate(d, x, Failure, Failing);
      case Down =>
        if d.evidence.Failing? { d := SetState(d, Down, Down, x.now); return Ok(d); }
        r := BeginCandidate(d, x, Recovery, Passing);
    }
  }

  method BeginCandidate(d: Decision, x: Input, direction: Direction, expected: Evidence)
    returns (r: Result<Decision, Fault>)
    ensures x.newCandidate == "" ==> r == Err(MissingCandidateId)
    ensures x.newCandidate != "" ==>
      var c := Some(Candidate(x.newCandidate, d.snapshot.monitor, x.revision, direction, expected,
                              Pending, x.run, x.scheduledFor, x.event, x.now));
      && r.Ok?
      && r.value == d.(created := c,
                       transitioned := d.transitioned || !d.snapshot.state.Degraded?,
                       snapshot := MoveTo(d.snapshot.(candidate := c), Degraded,
                                          d.snapshot.stable, x.now))
  {
    if x.newCandidate == "" { return Err(MissingCandidateId); }
    var c := Candidate(x.newCandidate, d.snapshot.monitor, x.revision, direction, expected,
                       Pending, x.run, x.scheduledFor, x.event, x.now);
    var e := d.(snapshot := d.snapshot.(candidate := Some(c)));
    e := e.(created := Some(c));
    e := SetState(e, Degraded, e.snapshot.stable, x.now);
    return Ok(e);
  }

  method EvaluateConfirmation(ghost s: Snapshot, d0: Decision, x: Input) returns (d: Decision)
    requires Names(s, x) && x.kind.Confirmation?
    requires d0.snapshot == Observed(s, x, d0.evidence) && d0.previous == s.state
    requires d0.created.None? && d0.completed.None? && !d0.transitioned
    ensures d == if Determinate(d0.evidence) then JudgeConfirmation(s, x, d0) else d0
  {
    d := d0;
    var candidate := d.snapshot.candidate.value;
    if !Determinate(d.evidence) { return; }
    var completed := candidate;
    d := d.(snapshot := d.snapshot.(candidate := None));
    if d.evidence == candidate.expected {
      completed := completed.(state := Confirmed);
      match candidate.direction {
        case Failure => d := SetState(d, Down, Down, x.now);
        case Recovery => d := SetState(d, Healthy, Healthy, x.now);
      }
    } else {
      completed := completed.(state := Contradicted);
      d := SetState(d, d.snapshot.stable, d.snapshot.stable, x.now);
    }
    d := d.(completed := Some(completed));
  }

  method MarkStale(s: Snapshot, now: Time) returns (r: Result<Decision, Fault>)
    ensures r == Sweep(s, now)
  {
    if !ValidSnapshot(s) { return Err(InvalidSnapshot); }
    var d := Decision(s, s.state, Indeterminate, false, false, false, None, None, false);
    if s.state.Unknown? { return Ok(d); }
    if s.candidate.Some? {
      d := d.(completed := Some(s.candidate.value.(state := Stale)));
      d := d.(snapshot := d.snapshot.(candidate := None));
    }
    d := SetState(d, Unknown, Unknown, now);
    d := d.(snapshot := d.snapshot.(updatedAt := now));
    d := d.(snapshot := d.snapshot.(counts := MISSING_COUNTS));
    return Ok(d);
  }
}
