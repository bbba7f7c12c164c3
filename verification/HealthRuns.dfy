/**
 * Whole histories of one Monitor's health: the transition log they emit, the invariant every
 * reachable snapshot satisfies, and why a Monitor that is down was confirmed to be.
 */
module HealthRuns {
  import opened Common
  import opened Health

  /** One committed change to a Monitor's health: a Run's evidence, or a staleness sweep. */
  datatype Fact = Seen(x: Input) | Swept(at: Time)

  /** One row of the versioned transition log. */
  datatype Transition = Transition(
    version: int, before: State, after: State, policy: string, revision: int,
    causalRun: Option<Id>, causalScheduledFor: Option<Time>, counts: Counts, at: Time)

  function Now(f: Fact): Time { if f.Seen? then f.x.now else f.at }

  function Verdict(s: Snapshot, f: Fact): Result<Decision, Fault> {
    if f.Seen? then Judge(s, f.x) else Sweep(s, f.at)
  }

  function After(s: Snapshot, f: Fact): Snapshot {
    var v := Verdict(s, f); if v.Ok? then v.value.snapshot else s
  }

  function RowOf(d: Decision, f: Fact): Transition {
    var s := d.snapshot;
    Transition(s.version, d.previous, s.state, s.policy, s.revision,
               if f.Seen? then Some(f.x.run) else None,
               if f.Seen? then Some(f.x.scheduledFor) else None, s.counts, Now(f))
  }

  function Emitted(s: Snapshot, f: Fact): seq<Transition> {
    var v := Verdict(s, f);
    if v.Ok? && v.value.transitioned then [RowOf(v.value, f)] else []
  }

  /** The snapshot the next fact is judged against. */
  function Before(m: Id, t: seq<Fact>, f: Fact): Snapshot
    decreases |t|, 1
  {
    if t == [] then Initial(m, Now(f)) else Final(m, t)
  }

  /** The snapshot after a non-empty history. */
  function Final(m: Id, t: seq<Fact>): Snapshot
    requires t != []
    decreases |t|, 0
  {
    var n := |t| - 1; After(Before(m, t[..n], t[n]), t[n])
  }

  function LogOf(m: Id, t: seq<Fact>): seq<Transition> {
    if t == [] then []
    else var n := |t| - 1; LogOf(m, t[..n]) + Emitted(Before(m, t[..n], t[n]), t[n])
  }

  lemma Extend(m: Id, t: seq<Fact>, f: Fact)
    ensures Final(m, t + [f]) == After(Before(m, t, f), f)
    ensures LogOf(m, t + [f]) == LogOf(m, t) + Emitted(Before(m, t, f), f)
  {
    assert (t + [f])[..|t|] == t;
  }

  // ---------------------------------------------------------------------------------------------
  // The invariant of a snapshot
  // ---------------------------------------------------------------------------------------------

  ghost predicate CandidateInv(s: Snapshot, c: Candidate) {
    && c.state.Pending? && c.monitor == s.monitor && c.id != ""
    && (s.stable.Down? ==> c.direction.Recovery? && c.expected.Passing?)
    && (!s.stable.Down? ==> c.direction.Failure? && c.expected.Failing?)
  }

  ghost predicate CountsInv(c: Counts) {
    && c.passing + c.failing + c.locationFault + c.indeterminate == c.responding
    && c.responding + c.missing == c.eligible == c.configured
  }

  /** The evidence counts always partition the responding ones, and those the eligible ones. */
  lemma CountsPartition(e: Evidence)
    ensures CountsInv(CountsFor(e)) && CountsInv(MISSING_COUNTS) && CountsInv(NO_COUNTS)
  {
  }

  ghost predicate HealthInv(s: Snapshot) {
    && ValidSnapshot(s)
    && (s.state.Degraded? <==> s.candidate.Some?)
    && (!s.state.Degraded? ==> s.state == s.stable)
    && (s.candidate.Some? ==> CandidateInv(s, s.candidate.value))
    && CountsInv(s.counts)
  }

  /** The state changes the policy allows. */
  ghost predicate Edge(a: State, b: State) {
    && a != b
    && (b.Down? ==> a.Degraded?)
    && (a.Down? ==> !b.Healthy?)
  }

  ghost predicate NotBefore(a: Option<Time>, b: Option<Time>) {
    a.Some? ==> b.Some? && a.value <= b.value
  }

  /** What one fact may do to a snapshot: keep the invariant and log exactly the moves. */
  ghost predicate Steps(s: Snapshot, f: Fact, e: Snapshot, rows: seq<Transition>) {
    && HealthInv(e) && e.monitor == s.monitor
    && NotBefore(s.lastScheduledFor, e.lastScheduledFor)
    && (s.state == e.state ==> rows == [] && e.version == s.version)
    && (s.state != e.state ==>
          && |rows| == 1 && Edge(s.state, e.state) && e.version == s.version + 1
          && rows[0].version == e.version && rows[0].before == s.state
          && rows[0].after == e.state && rows[0].at == Now(f) && rows[0].counts == e.counts)
  }

  ghost predicate Good(s: Snapshot, d: Decision) {
    && HealthInv(d.snapshot) && d.snapshot.monitor == s.monitor && d.previous == s.state
    && NotBefore(s.lastScheduledFor, d.snapshot.lastScheduledFor)
    && d.transitioned == (s.state != d.snapshot.state)
    && d.snapshot.version == s.version + (if d.transitioned then 1 else 0)
    && (d.transitioned ==> Edge(s.state, d.snapshot.state))
  }

  lemma ScheduledIsGood(s: Snapshot, x: Input, d: Decision)
    requires HealthInv(s) && x.kind.Scheduled? && !Late(s, x)
    requires Determinate(d.evidence) && d.previous == s.state && !d.transitioned
    requires JudgeScheduled(s, x, d).Ok?
    ensures Good(s, JudgeScheduled(s, x, d).value)
  {
    hide CountsInv, CountsFor;
    CountsPartition(d.evidence);
  }

  lemma ConfirmationIsGood(s: Snapshot, x: Input, d: Decision)
    requires HealthInv(s) && x.kind.Confirmation? && Names(s, x)
    requires Determinate(d.evidence) && d.previous == s.state && !d.transitioned
    ensures Good(s, JudgeConfirmation(s, x, d))
  {
    hide CountsInv, CountsFor;
    CountsPartition(d.evidence);
  }

  lemma JudgeIsGood(s: Snapshot, x: Input)
    requires HealthInv(s) && Judge(s, x).Ok?
    ensures Good(s, Judge(s, x).value)
  {
    hide JudgeScheduled, JudgeConfirmation, Classify, CountsInv, CountsFor;
    var e := Classify(x.kind, x.outcome, x.code);
    CountsPartition(e);
    var d := Decision(s.(updatedAt := x.now), s.state, e, false, false, false, None, None, false);
    if Determinate(e) && x.kind.Scheduled? && !Late(s, x) {
      if JudgeScheduled(s, x, d).Ok? { ScheduledIsGood(s, x, d); }
    }
    if Determinate(e) && x.kind.Confirmation? && Names(s, x) { ConfirmationIsGood(s, x, d); }
  }

  /** One fact keeps the invariant, moves along an edge or nowhere, and logs exactly the moves. */
  lemma FactKeepsInv(s: Snapshot, f: Fact)
    requires HealthInv(s)
    ensures Steps(s, f, After(s, f), Emitted(s, f))
  {
    hide Judge, CountsInv;
    CountsPartition(Passing);
    if f.Seen? && Judge(s, f.x).Ok? { JudgeIsGood(s, f.x); }
  }

  /** A decision ends the pending candidate, replaces it, or leaves it; only a new one is added. */
  ghost predicate Flows(s: Snapshot, f: Fact, d: Decision) {
    && d.snapshot.monitor == s.monitor
    && (d.completed.Some? ==>
          && s.candidate.Some? && !d.completed.value.state.Pending?
          && d.completed.value == s.candidate.value.(state := d.completed.value.state)
          && d.snapshot.candidate == d.created)
    && (d.created.Some? ==>
          && f.Seen? && d.snapshot.candidate == d.created
          && d.created.value.state.Pending? && d.created.value.id == f.x.newCandidate
          && d.created.value.monitor == s.monitor
          && d.created.value.triggeringRun == f.x.run
          && d.created.value.triggeringEvent == f.x.event
          && d.created.value.requestedAt == f.x.now
          && (s.candidate.Some? ==> d.completed.Some?))
    && (d.completed.None? && d.created.None? ==> d.snapshot.candidate == s.candidate)
  }

  lemma CandidateFlow(s: Snapshot, f: Fact)
    requires HealthInv(s) && Verdict(s, f).Ok?
    ensures Flows(s, f, Verdict(s, f).value)
  {
    hide CountsInv, CountsFor, Classify;
  }

  /** A recorded Run that was skipped or has finished is always judged, whatever its evidence is. */
  lemma JudgeNeverFails(s: Snapshot, x: Input)
    requires HealthInv(s) && x.event != "" && x.run != "" && x.newCandidate != ""
    requires x.revision >= 1 && x.latestRevision >= 1 && (x.finishedAt.Some? || x.outcome.Skipped?)
    ensures Judge(s, x).Ok?
  {
    hide CountsInv, CountsFor;
  }

  /** The log is a gap-free chain of edges from unknown to the current state. */
  ghost predicate Chain(log: seq<Transition>) {
    forall k :: 0 <= k < |log| ==>
      && log[k].version == k + 1
      && Edge(log[k].before, log[k].after)
      && log[k].before == (if k == 0 then Unknown else log[k - 1].after)
  }

  function LastState(log: seq<Transition>): State {
    if log == [] then Unknown else log[|log| - 1].after
  }

  lemma {:induction false} HistoryInv(m: Id, t: seq<Fact>)
    requires m != ""
    ensures Chain(LogOf(m, t))
    ensures t != [] ==> HealthInv(Final(m, t)) && Final(m, t).monitor == m
    ensures t != [] ==> Final(m, t).version == |LogOf(m, t)|
    ensures t != [] ==> Final(m, t).state == LastState(LogOf(m, t))
    decreases |t|
  {
    hide After, Emitted, CountsInv, HealthInv, Chain, Steps, Edge;
    if t != [] {
      var n := |t| - 1;
      HistoryInv(m, t[..n]);
      if n == 0 { InitialIsGood(m, t[0]); }
      var s := Before(m, t[..n], t[n]);
      FactKeepsInv(s, t[n]);
      ChainExtends(LogOf(m, t[..n]), s, t[n], After(s, t[n]), Emitted(s, t[n]));
    } else {
      EmptyChain();
    }
  }

  lemma EmptyChain()
    ensures Chain([])
  {
  }

  lemma InitialIsGood(m: Id, f: Fact)
    requires m != ""
    ensures HealthInv(Initial(m, Now(f)))
  {
  }

  /** A fact's rows extend the chain that leads to the state it was judged in. */
  lemma ChainExtends(log: seq<Transition>, s: Snapshot, f: Fact, e: Snapshot, rows: seq<Transition>)
    requires Chain(log) && s.state == LastState(log) && s.version == |log|
    requires Steps(s, f, e, rows)
    ensures Chain(log + rows) && HealthInv(e) && e.monitor == s.monitor
    ensures e.state == LastState(log + rows) && e.version == |log + rows|
  {
    hide HealthInv, Edge, Chain;
    if s.state == e.state {
      assert log + rows == log;
    } else {
      ChainGrows(log, rows[0]);
      assert rows == [rows[0]];
    }
  }

  lemma ChainGrows(log: seq<Transition>, row: Transition)
    requires Chain(log) && row.version == |log| + 1 && row.before == LastState(log)
    requires Edge(row.before, row.after)
    ensures Chain(log + [row]) && LastState(log + [row]) == row.after
  {
    hide Edge;
    var all := log + [row];
    assert forall k :: 0 <= k < |log| ==> all[k] == log[k];
    assert all[|log|] == row;
  }

  lemma {:induction false} LogGrows(m: Id, t: seq<Fact>, i: nat)
    requires i <= |t|
    ensures LogOf(m, t[..i]) <= LogOf(m, t)
    decreases |t|
  {
    if i == |t| {
      assert t[..i] == t;
    } else {
      var n := |t| - 1;
      LogGrows(m, t[..n], i);
      assert t[..n][..i] == t[..i];
    }
  }

  /** The scheduled high-water mark never decreases over a history. */
  lemma {:induction false} HighWaterNeverDecreases(m: Id, t: seq<Fact>, i: nat)
    requires m != "" && 1 <= i <= |t|
    ensures NotBefore(Final(m, t[..i]).lastScheduledFor, Final(m, t).lastScheduledFor)
    decreases |t|
  {
    if i == |t| {
      assert t[..i] == t;
    } else {
      var n := |t| - 1;
      HighWaterNeverDecreases(m, t[..n], i);
      assert t[..n][..i] == t[..i];
      HistoryInv(m, t[..n]);
      FactKeepsInv(Final(m, t[..n]), t[n]);
    }
  }

  // ---------------------------------------------------------------------------------------------
  // Why a Monitor is down
  // ---------------------------------------------------------------------------------------------

  function EvidenceOf(x: Input): Evidence { Classify(x.kind, x.outcome, x.code) }

  /** This fact is the scheduled evidence, of the current revision, that raised the candidate. */
  ghost predicate Triggers(f: Fact, c: Candidate) {
    && f.Seen? && f.x.kind.Scheduled? && EvidenceOf(f.x) == c.expected
    && f.x.run == c.triggeringRun && f.x.newCandidate == c.id
    && f.x.revision == f.x.latestRevision == c.revision
  }

  /** This fact is the confirmation naming the candidate, with the evidence it expects. */
  ghost predicate Confirms(f: Fact, c: Candidate) {
    && f.Seen? && f.x.kind.Confirmation? && EvidenceOf(f.x) == c.expected
    && f.x.candidate == c.id
    && f.x.revision == f.x.latestRevision == c.revision
  }

  /** The candidate has been pending in every snapshot of this stretch of the history. */
  ghost predicate PendingThrough(m: Id, t: seq<Fact>, from: nat, to: nat, c: Candidate) {
    forall k {:trigger t[..k]} :: from <= k <= to <= |t| && 0 < k ==>
      Final(m, t[..k]).candidate == Some(c)
  }

  /** Neither healthy nor unknown has been seen in this stretch of the history. */
  ghost predicate DownThrough(m: Id, t: seq<Fact>, from: nat) {
    forall k {:trigger t[..k]} :: from <= k <= |t| && 0 < k ==>
      && Final(m, t[..k]).stable.Down?
      && (Final(m, t[..k]).state.Down? || Final(m, t[..k]).state.Degraded?)
  }

  /** A candidate that was not pending before a fact was raised by that fact. */
  lemma NewCandidateIsTriggered(s: Snapshot, f: Fact)
    requires HealthInv(s) && After(s, f).candidate.Some? && After(s, f).candidate != s.candidate
    ensures Triggers(f, After(s, f).candidate.value)
  {
    hide CountsInv, CountsFor;
  }

  /** A stable state becomes down only by the confirmation of a pending failure candidate. */
  lemma EnteringDownIsConfirmed(s: Snapshot, f: Fact)
    requires HealthInv(s) && !s.stable.Down? && After(s, f).stable.Down?
    ensures s.candidate.Some? && Confirms(f, s.candidate.value)
    ensures s.candidate.value.direction.Failure? && s.candidate.value.expected.Failing?
    ensures After(s, f).state.Down?
  {
    hide CountsInv, CountsFor;
  }

  /** The Run is considered at all: it is identified, of the latest revision, and not manual. */
  ghost predicate Considered(x: Input) {
    && x.event != "" && x.run != "" && x.revision >= 1 && x.revision == x.latestRevision
    && !x.kind.Manual? && x.finishedAt.Some?
  }

  /**
   * Exactly when a Monitor moves to down: failing evidence answers a pending candidate, whichever
   * way it was expected to go, or scheduled failing evidence ends a recovery that was pending.
   */
  lemma EntersDownExactlyWhen(s: Snapshot, f: Fact)
    requires HealthInv(s) && !s.state.Down?
    ensures After(s, f).state.Down? <==>
              && f.Seen? && Considered(f.x) && EvidenceOf(f.x).Failing? && s.candidate.Some?
              && ((f.x.kind.Confirmation? && Names(s, f.x))
                  || (f.x.kind.Scheduled? && !Late(s, f.x) && s.stable.Down?))
  {
    hide CountsInv, CountsFor, Classify;
  }

  /** A pending candidate was raised by one fact and has been pending ever since. */
  lemma {:induction false} CandidateWasTriggered(m: Id, t: seq<Fact>) returns (i: nat)
    requires m != "" && t != [] && Final(m, t).candidate.Some?
    ensures i < |t| && Triggers(t[i], Final(m, t).candidate.value)
    ensures PendingThrough(m, t, i + 1, |t|, Final(m, t).candidate.value)
    decreases |t|
  {
    hide After, HealthInv, Triggers, Chain;
    var n := |t| - 1;
    HistoryInv(m, t[..n]);
    if n == 0 { InitialIsGood(m, t[0]); }
    var s := Before(m, t[..n], t[n]);
    assert t[..|t|] == t;
    if s.candidate == Final(m, t).candidate {
      assert n > 0 by { NoCandidateAtFirst(m, t[n]); }
      i := CandidateWasTriggered(m, t[..n]);
      StillPending(m, t, i + 1, Final(m, t).candidate.value);
    } else {
      NewCandidateIsTriggered(s, t[n]);
      i := n;
    }
  }

  lemma NoCandidateAtFirst(m: Id, f: Fact)
    ensures Before(m, [], f).candidate.None?
  {
  }

  /** A candidate that one more fact leaves pending was pending all the way. */
  lemma StillPending(m: Id, t: seq<Fact>, from: nat, c: Candidate)
    requires t != [] && PendingThrough(m, t[..|t| - 1], from, |t| - 1, c)
    requires Final(m, t).candidate == Some(c)
    ensures PendingThrough(m, t, from, |t|, c)
  {
    hide Final;
    assert t[..|t|] == t;
    assert forall k :: 0 <= k < |t| ==> t[..|t| - 1][..k] == t[..k];
  }

  /** What makes a Monitor down: two facts, a trigger and its confirmation, and nothing since. */
  ghost predicate ConfirmedDown(m: Id, t: seq<Fact>, i: nat, j: nat, c: Candidate) {
    && i < j < |t|
    && c.expected.Failing? && c.direction.Failure?
    && Triggers(t[i], c) && Confirms(t[j], c)
    && PendingThrough(m, t, i + 1, j, c)
    && DownThrough(m, t, j + 1)
  }

  /** One more fact keeps what was said about earlier stretches, if the Monitor is still down. */
  lemma StretchesExtend(m: Id, t: seq<Fact>, from: nat, to: nat, c: Candidate)
    requires m != "" && t != []
    ensures to < |t| && PendingThrough(m, t[..|t| - 1], from, to, c) ==>
              PendingThrough(m, t, from, to, c)
    ensures (to + 1 == |t| || DownThrough(m, t[..|t| - 1], to + 1)) && Final(m, t).stable.Down? ==>
              DownThrough(m, t, to + 1)
  {
    hide Final, CountsInv;
    HistoryInv(m, t);
    assert t[..|t|] == t;
    assert forall k :: 0 <= k < |t| ==> t[..|t| - 1][..k] == t[..k];
  }

  /**
   * A Monitor whose stable state is down got there by failing evidence of one revision from a
   * scheduled Run and from a confirmation Run naming the candidate that Run raised; the candidate
   * was pending in between, and the Monitor has been neither healthy nor unknown since.
   */
  lemma {:induction false} DownIsConfirmed(m: Id, t: seq<Fact>)
    returns (i: nat, j: nat, c: Candidate)
    requires m != "" && t != [] && Final(m, t).stable.Down?
    ensures ConfirmedDown(m, t, i, j, c)
    decreases |t|
  {
    hide After, CountsInv;
    CountsPartition(Passing);
    var n := |t| - 1;
    HistoryInv(m, t[..n]);
    HistoryInv(m, t);
    var s := Before(m, t[..n], t[n]);
    assert t[..|t|] == t;
    if s.stable.Down? {
      i, j, c := DownIsConfirmed(m, t[..n]);
      StretchesExtend(m, t, i + 1, j, c);
    } else {
      EnteringDownIsConfirmed(s, t[n]);
      i := CandidateWasTriggered(m, t[..n]);
      j, c := n, s.candidate.value;
      StretchesExtend(m, t, i + 1, j, c);
    }
  }

  /** Every log row that enters down is backed by such a pair of facts. */
  lemma {:induction false} DownRowIsConfirmed(m: Id, t: seq<Fact>, k: nat)
    returns (p: nat, i: nat, j: nat, c: Candidate)
    requires m != "" && k < |LogOf(m, t)| && LogOf(m, t)[k].after.Down?
    ensures p <= |t| && ConfirmedDown(m, t[..p], i, j, c)
    ensures |LogOf(m, t[..p])| == k + 1
    decreases |t|
  {
    var n := |t| - 1;
    if k < |LogOf(m, t[..n])| {
      p, i, j, c := DownRowIsConfirmed(m, t[..n], k);
      assert t[..n][..p] == t[..p];
    } else {
      HistoryInv(m, t);
      assert t[..|t|] == t;
      p := |t|;
      HistoryInv(m, t[..n]);
      FactKeepsInv(Before(m, t[..n], t[n]), t[n]);
      i, j, c := DownIsConfirmed(m, t);
    }
  }

  // ---------------------------------------------------------------------------------------------
  // Down again without another confirmation
  // ---------------------------------------------------------------------------------------------

  /** One Run of a Monitor every minute: it passes, or its check fails as the target's fault. */
  function RunAt(minute: nat, kind: Kind, run: Id, passes: bool, candidate: Id, next: Id): Fact {
    Seen(Input(run + "-event", run, kind, if passes then Passed else Failed,
               if passes then NoCode else StatusUnexpected, 1, 1, minute * MINUTE,
               Some(minute * MINUTE), candidate, minute * MINUTE, next))
  }

  /** A failure, its confirmation, a sign of recovery, and a scheduled failure instead. */
  const RELAPSE := [
    RunAt(0, Scheduled, "fails", false, "", "outage"),
    RunAt(0, Confirmation, "confirms", false, "outage", "unused"),
    RunAt(1, Scheduled, "passes", true, "", "recovery"),
    RunAt(2, Scheduled, "fails-again", false, "", "unused")]

  /**
   * That history, from no health at all: the Monitor is down after its second Run, degraded with a
   * pending recovery after the third, and down again by the fourth, a scheduled one.
   */
  lemma RelapseEntersDown(m: Id)
    requires m != ""
    ensures |RELAPSE| == 4 && RELAPSE[3].Seen? && RELAPSE[3].x.kind.Scheduled?
    ensures var s := Final(m, RELAPSE[..3]);
            && HealthInv(s) && s.state.Degraded? && s.stable.Down?
            && Final(m, RELAPSE) == After(s, RELAPSE[3]) && Final(m, RELAPSE).state.Down?
    ensures LogStates(LogOf(m, RELAPSE)) == [Degraded, Down, Degraded, Down]
  {
    RelapseRows(m);
    RelapseHistory(m);
    HistoryInv(m, RELAPSE[..3]);
    hide After, Emitted, HealthInv, Chain, Final, LogOf, RunAt;
  }

  lemma RelapseHistory(m: Id)
    ensures var s1 := After(Initial(m, 0), RELAPSE[0]);
            var s2 := After(s1, RELAPSE[1]);
            var s3 := After(s2, RELAPSE[2]);
            && Final(m, RELAPSE[..3]) == s3 && Final(m, RELAPSE) == After(s3, RELAPSE[3])
            && LogOf(m, RELAPSE)
               == Emitted(Initial(m, 0), RELAPSE[0]) + Emitted(s1, RELAPSE[1])
                  + Emitted(s2, RELAPSE[2]) + Emitted(s3, RELAPSE[3])
  {
    assert RELAPSE[..0] == [] && LogOf(m, []) == [];
    hide After, Emitted, Final, LogOf;
    Extend(m, RELAPSE[..0], RELAPSE[0]);
    Extend(m, RELAPSE[..1], RELAPSE[1]);
    Extend(m, RELAPSE[..2], RELAPSE[2]);
    Extend(m, RELAPSE[..3], RELAPSE[3]);
    assert RELAPSE[..0] + [RELAPSE[0]] == RELAPSE[..1];
    assert RELAPSE[..1] + [RELAPSE[1]] == RELAPSE[..2];
    assert RELAPSE[..2] + [RELAPSE[2]] == RELAPSE[..3];
    assert RELAPSE[..3] + [RELAPSE[3]] == RELAPSE;
  }

  lemma RelapseRows(m: Id)
    requires m != ""
    ensures var s1 := After(Initial(m, 0), RELAPSE[0]);
            var s2 := After(s1, RELAPSE[1]);
            var s3 := After(s2, RELAPSE[2]);
            && s3.state.Degraded? && s3.stable.Down? && After(s3, RELAPSE[3]).state.Down?
            && LogStates(Emitted(Initial(m, 0), RELAPSE[0])) == [Degraded]
            && LogStates(Emitted(s1, RELAPSE[1])) == [Down]
            && LogStates(Emitted(s2, RELAPSE[2])) == [Degraded]
            && LogStates(Emitted(s3, RELAPSE[3])) == [Down]
  {
    OutageIsConfirmed(m);
    RecoveryIsRelapse(After(After(Initial(m, 0), RELAPSE[0]), RELAPSE[1]));
    hide After, Emitted, RunAt;
  }

  lemma OutageIsConfirmed(m: Id)
    requires m != ""
    ensures var s1 := After(Initial(m, 0), RELAPSE[0]);
            var s2 := After(s1, RELAPSE[1]);
            && ValidSnapshot(s2) && s2.state.Down? && s2.stable.Down? && s2.candidate.None?
            && s2.lastScheduledFor == Some(0)
            && LogStates(Emitted(Initial(m, 0), RELAPSE[0])) == [Degraded]
            && LogStates(Emitted(s1, RELAPSE[1])) == [Down]
  {
    assert RELAPSE[0].x.event == "fails-event" && RELAPSE[1].x.event == "confirms-event";
  }

  lemma RecoveryIsRelapse(s: Snapshot)
    requires ValidSnapshot(s) && s.state.Down? && s.stable.Down? && s.candidate.None?
    requires s.lastScheduledFor == Some(0)
    ensures var s3 := After(s, RELAPSE[2]);
            && s3.state.Degraded? && s3.stable.Down? && After(s3, RELAPSE[3]).state.Down?
            && LogStates(Emitted(s, RELAPSE[2])) == [Degraded]
            && LogStates(Emitted(s3, RELAPSE[3])) == [Down]
  {
    assert RELAPSE[2].x.event == "passes-event" && RELAPSE[3].x.event == "fails-again-event";
  }

  function LogStates(log: seq<Transition>): seq<State> {
    seq(|log|, k requires 0 <= k < |log| => log[k].after)
  }
}
