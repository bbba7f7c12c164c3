/**
 * What each transaction of the pipeline comes to in every run, in terms of the rows that were there
 * before: how evidence is applied, what projecting a transition opens and resolves, and when an
 * acknowledgement or a sweep changes anything.
 */
module PipelineEffects {
  import opened Common
  import opened Events
  import opened Pipeline
  import opened PipelineInv
  import PipelineProjection
  import PipelineRuns
  import PipelineSteps
  import H = Health
  import R = HealthRuns
  import Q = Outbox

  // ---------------------------------------------------------------------------------------------
  // Evidence
  // ---------------------------------------------------------------------------------------------

  /** What a Monitor's health is judged by: the recorded Run, and the Monitor's latest revision. */
  function Report(db: Db, s: Step, run: Id): H.Input
    requires s.Handle? && run in db.runs && db.runs[run].monitor in db.monitors
  {
    var r := db.runs[run];
    H.Input(s.e, run, r.kind, r.outcome, r.code, r.revision, db.monitors[r.monitor].latestRevision,
            r.scheduledFor, r.finishedAt, r.candidate, s.at, s.health.candidate)
  }

  /** The health a Monitor has, or starts with. */
  function Known(db: Db, m: Id, now: Time): H.Snapshot {
    if m in db.health then db.health[m] else H.Initial(m, now)
  }

  /** The health tables afterwards are those before with one fact about one Monitor applied. */
  ghost predicate Applied(db: Db, after: Db, m: Id, f: R.Fact) {
    && after.health == db.health[m := R.After(Known(db, m, R.Now(f)), f)]
    && Rows(after.log, m) == Rows(db.log, m) + R.Emitted(Known(db, m, R.Now(f)), f)
    && (forall n :: n != m ==> Rows(after.log, n) == Rows(db.log, n))
    && after.facts == db.facts[m := Rows(db.facts, m) + [f]]
  }

  ghost predicate HealthStays(db: Db, after: Db) {
    && after.health == db.health && after.log == db.log && after.facts == db.facts
    && after.candidates == db.candidates
  }

  /**
   * In every run, handling a recorded Run that was not handled before applies exactly its report to
   * its Monitor if that is active, and nothing otherwise; either way the event is marked.
   */
  lemma EvidenceIsApplied(steps: seq<Step>, s: Step)
    requires Legal(Empty(), steps) && s.Handle? && Enabled(Run(Empty(), steps), s)
    requires var q := Run(Empty(), steps).queue;
             s.e in q.issued && q.issued[s.e].RunRecorded? && s.e !in q.processed
    ensures var db, after := Run(Empty(), steps), Next(Run(Empty(), steps), s);
            var p := db.queue.issued[s.e];
            && p.run in db.runs && db.runs[p.run].monitor == p.monitor && p.monitor in db.monitors
            && s.e in after.queue.processed
            && if db.monitors[p.monitor].lifecycle.Active? then
                 Applied(db, after, p.monitor, R.Seen(Report(db, s, p.run)))
               else HealthStays(db, after)
  {
    hide Legal, Run;
    var db := Run(Empty(), steps);
    PipelineRuns.Reached(steps);
    EvaluationMeans(db, s);
    HandlingIsHandler(db, s);
    hide Inv, EvaluateRun, Next, Enabled, Applied;
  }

  lemma HandlingIsHandler(db: Db, s: Step)
    requires s.Handle? && s.e in db.queue.issued
    ensures var (after, answer) := Handler(db, s);
            Next(db, s) == after.(queue := Q.Reply(after.queue, s.e, s.holder, answer))
  {
    hide Handler;
  }

  lemma EvaluationMeans(db: Db, s: Step)
    requires Inv(db) && s.Handle? && Enabled(db, s)
    requires s.e in db.queue.issued && db.queue.issued[s.e].RunRecorded?
    requires s.e !in db.queue.processed
    ensures var p := db.queue.issued[s.e];
            var after := EvaluateRun(db, s.e, s.health, s.at).0;
            && p.run in db.runs && db.runs[p.run].monitor == p.monitor && p.monitor in db.monitors
            && s.e in after.queue.processed
            && if db.monitors[p.monitor].lifecycle.Active? then
                 Applied(db, after, p.monitor, R.Seen(Report(db, s, p.run)))
               else HealthStays(db, after)
  {
    hide Inv, H.Judge, Conflicts, Commit, Applied, Completed, R.Emitted, R.After;
    var p := db.queue.issued[s.e];
    PipelineSteps.RunIsThere(db, s.e);
    if db.monitors[p.monitor].lifecycle.Active? {
      PipelineSteps.RunIsJudged(db, s.e, s.health, s.at);
      var x := InputOf(db, s.e, p.run, s.health, s.at);
      var v := H.Judge(Current(db, p.monitor, s.at), x);
      CommitApplies(db, p.monitor, R.Seen(x), s.health, s.at);
      var after := Commit(db, p.monitor, R.Seen(x), v.value, s.health, s.at);
      MarkApplies(db, after, p.monitor, R.Seen(x), s.e);
    }
  }

  lemma MarkApplies(db: Db, after: Db, m: Id, f: R.Fact, e: Id)
    requires Applied(db, after, m, f)
    ensures Applied(db, after.(queue := Q.Mark(after.queue, e)), m, f)
  {
  }

  lemma CommitApplies(db: Db, m: Id, f: R.Fact, ids: HealthIds, now: Time)
    requires R.Verdict(Current(db, m, now), f).Ok? && R.Now(f) == now
    ensures Applied(db, Commit(db, m, f, R.Verdict(Current(db, m, now), f).value, ids, now), m, f)
  {
    hide R.Verdict, Commit;
    CommitWrites(db, m, f, R.Verdict(Current(db, m, now), f).value, ids, now);
    hide R.RowOf;
  }

  lemma CommitWrites(db: Db, m: Id, f: R.Fact, d: H.Decision, ids: HealthIds, now: Time)
    ensures var after := Commit(db, m, f, d, ids, now);
            && after.health == db.health[m := d.snapshot]
            && after.facts == db.facts[m := Rows(db.facts, m) + [f]]
            && after.log == (if d.transitioned then
                               db.log[m := Rows(db.log, m) + [R.RowOf(d, f)]] else db.log)
  {
    hide Request, Created, Completed, R.RowOf;
  }

  // ---------------------------------------------------------------------------------------------
  // Staleness
  // ---------------------------------------------------------------------------------------------

  /** The evidence of an active Monitor whose health is known is too old. */
  ghost predicate TooOld(db: Db, m: Id, version: int, now: Time, ceiling: Time) {
    && m in db.health && m in db.monitors && db.monitors[m].lifecycle.Active?
    && db.health[m].version == version && !db.health[m].state.Unknown?
    && db.health[m].lastDeterminateFinishedAt.Some?
    && db.monitors[m].intervalSeconds > 0 && ceiling > 0
    && var age := now - db.health[m].lastDeterminateFinishedAt.value;
       age >= 3 * (db.monitors[m].intervalSeconds * SECOND) && age >= 2 * ceiling
  }

  /** Exactly when a sweep changes anything, and what: it applies one fact to the Monitor. */
  lemma SweepIsApplied(steps: seq<Step>, s: Step)
    requires Legal(Empty(), steps) && s.Sweep? && Enabled(Run(Empty(), steps), s)
    ensures var db, after := Run(Empty(), steps), Next(Run(Empty(), steps), s);
            if TooOld(db, s.m, s.version, s.at, s.ceiling) then
              Applied(db, after, s.m, R.Swept(s.at)) && after.health[s.m].state.Unknown?
            else after == db
  {
    hide Legal, Run;
    var db := Run(Empty(), steps);
    PipelineRuns.Reached(steps);
    SweepMeans(db, s);
    hide Inv, Next, Applied, TooOld;
  }

  lemma SweepMeans(db: Db, s: Step)
    requires Inv(db) && s.Sweep?
    ensures if TooOld(db, s.m, s.version, s.at, s.ceiling) then
              Applied(db, Next(db, s), s.m, R.Swept(s.at)) && Next(db, s).health[s.m].state.Unknown?
            else Next(db, s) == db
  {
    hide Commit, Applied, R.After;
    StaleMeansTooOld(db, s.m, s.version, s.at, s.ceiling);
    if TooOld(db, s.m, s.version, s.at, s.ceiling) {
      HealthIsNamed(db, s.m);
      PipelineSteps.CurrentInv(db, s.m, s.at);
      SweepVerdict(db.health[s.m], s.at);
      hide Inv, H.Sweep, IsStale, R.HealthInv, R.Chain;
      CommitApplies(db, s.m, R.Swept(s.at), HealthIds("", "", s.event), s.at);
      AppliedHealth(db, Next(db, s), s.m, R.Swept(s.at));
    }
    hide IsStale, Inv;
  }

  lemma StaleMeansTooOld(db: Db, m: Id, version: int, now: Time, ceiling: Time)
    ensures IsStale(db, m, version, now, ceiling) <==> TooOld(db, m, version, now, ceiling)
  {
  }

  lemma SweepVerdict(s: H.Snapshot, now: Time)
    requires R.HealthInv(s) && !s.state.Unknown?
    ensures H.Sweep(s, now).Ok? && R.After(s, R.Swept(now)).state.Unknown?
  {
    hide R.CandidateInv, R.CountsInv;
  }

  lemma HealthIsNamed(db: Db, m: Id)
    requires Inv(db) && m in db.health
    ensures m != ""
  {
    hide Q.Inv, HealthTable, CandidatesInv, ProjectionTable, Homes, TransitionEvents, IncidentEvents;
    hide RunEvents, Markers, Answers, NoRefusal, AlertsInv;
  }

  lemma AppliedHealth(db: Db, after: Db, m: Id, f: R.Fact)
    requires Applied(db, after, m, f)
    ensures m in after.health && after.health[m] == R.After(Known(db, m, R.Now(f)), f)
  {
  }

  // ---------------------------------------------------------------------------------------------
  // Projection
  // ---------------------------------------------------------------------------------------------

  /** No Incident of these is unresolved. */
  predicate AllResolved(incidents: seq<Incident>) {
    incidents == [] || incidents[|incidents| - 1].state.Closed?
  }

  /** A new Incident that a transition opens. */
  function Opens(t: R.Transition, ids: IncidentIds): Incident {
    Incident(ids.incident, Open, 1, t.version, None, t.at, None, None, t.at,
             [Entry(1, Opened, Some(t), t.at, ids.alertEvent)])
  }

  /** The last Incident once a transition resolves it. */
  function Resolves(i: Incident, t: R.Transition, ids: IncidentIds): Incident {
    Incident(i.id, Closed, i.version + 1, i.openedBy, Some(t.version), i.createdAt,
             i.acknowledgedAt, Some(t.at), t.at,
             i.timeline + [Entry(i.version + 1, Resolved, Some(t), t.at, ids.alertEvent)])
  }

  /** The Incidents of a Monitor after one more transition of its log. */
  function Projection(incidents: seq<Incident>, t: R.Transition, archived: bool, ids: IncidentIds)
    : seq<Incident>
  {
    var n := |incidents|;
    if t.after.Down? && !archived && AllResolved(incidents) then incidents + [Opens(t, ids)]
    else if t.after.Healthy? && !AllResolved(incidents) then
      incidents[..n - 1] + [Resolves(incidents[n - 1], t, ids)]
    else incidents
  }

  /**
   * In every run, exactly what handling the next transition does: a Monitor that goes down and is not
   * archived gets a new Incident unless one is unresolved, one that gets healthy has its unresolved
   * one resolved, and any other transition changes no Incident. A change issues one event about it.
   */
  lemma TransitionIsProjected(steps: seq<Step>, e: Id, ids: IncidentIds, now: Time)
    requires Legal(Empty(), steps)
    requires var db := Run(Empty(), steps);
             && e in db.queue.issued && db.queue.issued[e].HealthTransitioned?
             && e !in db.queue.processed
             && db.queue.issued[e].version == Cursor(db.cursor, db.queue.issued[e].monitor) + 1
    ensures var db := Run(Empty(), steps);
            var m, v := db.queue.issued[e].monitor, db.queue.issued[e].version;
            && m in db.monitors && m in db.log && 1 <= v <= |db.log[m]|
            && var archived := db.monitors[m].lifecycle.Archived?;
               var before, after := Rows(db.incidents, m), ProjectTransition(db, e, ids, now).0;
               var t := db.log[m][v - 1];
               && ProjectTransition(db, e, ids, now).1 == Q.Handled
               && Rows(after.incidents, m) == Projection(before, t, archived, ids)
               && (forall n :: n != m ==> Rows(after.incidents, n) == Rows(db.incidents, n))
               && after.archived == db.archived[m := Rows(db.archived, m) + [archived]]
               && after.cursor == db.cursor[m := v] && e in after.queue.processed
               && (Rows(after.incidents, m) == before ==>
                     after.queue.issued == db.queue.issued)
               && (Rows(after.incidents, m) != before ==>
                     && Rows(after.incidents, m) != []
                     && var i := Rows(after.incidents, m)[|Rows(after.incidents, m)| - 1];
                        after.queue.issued == db.queue.issued[ids.alertEvent :=
                          IncidentTransitioned(m, i.id, i.version,
                                               if t.after.Down? then Opened else Resolved, t.at)])
  {
    hide Legal, Run;
    var db := Run(Empty(), steps);
    PipelineRuns.Reached(steps);
    PipelineProjection.TransitionIsThere(db, e);
    var p := db.queue.issued[e];
    PipelineRuns.ProjectionOf(db, p.monitor);
    hide Inv, Projection, R.Chain, ProjectTransition, HealthRow, ProjectionRow;
    LastIsUnresolved(Rows(db.log, p.monitor), Cursor(db.cursor, p.monitor),
                     Rows(db.archived, p.monitor), Rows(db.incidents, p.monitor));
    ProjectionMeans(db, e, ids, now);
  }

  lemma LastIsUnresolved(log: seq<R.Transition>, cursor: int, archived: seq<bool>,
                         incidents: seq<Incident>)
    requires ProjectionRow(log, cursor, archived, incidents)
    ensures forall k :: 0 <= k < |incidents| - 1 ==> incidents[k].state.Closed?
  {
  }

  lemma ChangeMeans(incidents: seq<Incident>, t: R.Transition, archived: bool, ids: IncidentIds)
    requires forall k :: 0 <= k < |incidents| - 1 ==> incidents[k].state.Closed?
    ensures var c, n := ChangeOf(incidents, t, archived, ids), |incidents|;
            var p := Projection(incidents, t, archived, ids);
            && (c.Appends? ==> c.i == Opens(t, ids) && t.after.Down?)
            && (c.Replaces? ==> n > 0 && c.k == n - 1 && c.i == Resolves(incidents[n - 1], t, ids)
                                && t.after.Healthy?)
            && Changed(incidents, c) == p
            && (!c.Stays? ==> p != [] && c.i == p[|p| - 1])
            && (c.Stays? <==> p == incidents)
  {
    PipelineProjection.ActiveIsLast(incidents);
    hide FindActive;
    var n := |incidents|;
    if n > 0 { assert Resolves(incidents[n - 1], t, ids) != incidents[n - 1]; }
  }

  lemma ProjectionMeans(db: Db, e: Id, ids: IncidentIds, now: Time)
    requires e in db.queue.issued && db.queue.issued[e].HealthTransitioned? && e !in db.queue.processed
    requires var p := db.queue.issued[e];
             var m := p.monitor;
             && m in db.monitors && m in db.log && 1 <= p.version <= |db.log[m]|
             && p.version == Cursor(db.cursor, m) + 1
             && db.log[m][p.version - 1].version == p.version
             && db.log[m][p.version - 1].before == p.before
             && db.log[m][p.version - 1].after == p.after
             && forall k :: 0 <= k < |Rows(db.incidents, m)| - 1 ==>
                  Rows(db.incidents, m)[k].state.Closed?
    ensures var m, v := db.queue.issued[e].monitor, db.queue.issued[e].version;
            var archived := db.monitors[m].lifecycle.Archived?;
            var before, after := Rows(db.incidents, m), ProjectTransition(db, e, ids, now).0;
            var t := db.log[m][v - 1];
            var p := Projection(before, t, archived, ids);
            && ProjectTransition(db, e, ids, now).1 == Q.Handled
            && Rows(after.incidents, m) == p
            && (forall n :: n != m ==> Rows(after.incidents, n) == Rows(db.incidents, n))
            && after.archived == db.archived[m := Rows(db.archived, m) + [archived]]
            && after.cursor == db.cursor[m := v] && e in after.queue.processed
            && (p == before ==> after.queue.issued == db.queue.issued)
            && (p != before ==>
                  && p != []
                  && after.queue.issued == db.queue.issued[ids.alertEvent :=
                       IncidentTransitioned(m, p[|p| - 1].id, p[|p| - 1].version,
                                            if t.after.Down? then Opened else Resolved, t.at)])
  {
    hide ChangeOf, Changed, Projection, AllResolved, Projected;
    var m := db.queue.issued[e].monitor;
    var t := db.log[m][db.queue.issued[e].version - 1];
    ChangeMeans(Rows(db.incidents, m), t, db.monitors[m].lifecycle.Archived?, ids);
    ProjectedWrites(db, m, ChangeOf(Rows(db.incidents, m), t, ArchivedNow(db, m), ids), t, ids, now);
  }

  lemma ProjectedWrites(db: Db, m: Id, c: Change, t: R.Transition, ids: IncidentIds, now: Time)
    requires c.Replaces? ==> c.k < |Rows(db.incidents, m)|
    requires c.Appends? ==> c.i == Opens(t, ids)
    requires c.Replaces? ==> c.i == Resolves(Rows(db.incidents, m)[c.k], t, ids)
    ensures var after := Projected(db, m, c, ids, now);
            && after.archived == db.archived && after.cursor == db.cursor
            && after.queue.processed == db.queue.processed
            && (c.Stays? ==> after.incidents == db.incidents)
            && (!c.Stays? ==>
                  after.incidents == db.incidents[m := Changed(Rows(db.incidents, m), c)])
            && after.queue.issued ==
                 if c.Stays? then db.queue.issued
                 else db.queue.issued[ids.alertEvent :=
                        IncidentTransitioned(m, c.i.id, c.i.version,
                                             if c.Appends? then Opened else Resolved, t.at)]
  {
    hide Changed;
  }

  // ---------------------------------------------------------------------------------------------
  // Acknowledgement
  // ---------------------------------------------------------------------------------------------

  function Acknowledged(i: Incident, now: Time): Incident {
    Incident(i.id, Acked, i.version + 1, i.openedBy, i.resolvedBy, i.createdAt, Some(now),
             i.resolvedAt, now,
             i.timeline + [Entry(i.version + 1, IncidentKind.Acknowledged, None, now, "")])
  }

  /**
   * In every run, exactly what acknowledging does: an open Incident becomes acknowledged, with a
   * timeline row of its own, one that is acknowledged stays, and one that is resolved is refused.
   */
  lemma AcknowledgementMeans(steps: seq<Step>, m: Id, k: int, now: Time)
    requires Legal(Empty(), steps) && 0 <= k < |Rows(Run(Empty(), steps).incidents, m)|
    ensures var db := Run(Empty(), steps);
            var i := Rows(db.incidents, m)[k];
            Acknowledge(db, m, i.id, now) ==
              match i.state
              case Closed => (db, Conflict)
              case Acked => (db, Unchanged)
              case Open =>
                (db.(incidents := db.incidents[m := Rows(db.incidents, m)[k := Acknowledged(i, now)]]),
                 Acknowledges)
  {
    hide Legal, Run;
    var db := Run(Empty(), steps);
    PipelineRuns.Reached(steps);
    OneIncidentEach(db, m);
    hide Inv, FindIncident;
    var found := FindIncident(Rows(db.incidents, m), Rows(db.incidents, m)[k].id);
    assert found.Some? && SameIncident(Rows(db.incidents, m), found.value, k);
  }

  /** Nothing else can be acknowledged. */
  lemma UnknownIncident(db: Db, m: Id, id: Id, now: Time)
    requires forall k :: 0 <= k < |Rows(db.incidents, m)| ==> Rows(db.incidents, m)[k].id != id
    ensures Acknowledge(db, m, id, now) == (db, NotFound)
  {
    hide FindIncident;
    assert FindIncident(Rows(db.incidents, m), id).None?;
  }

  ghost predicate SameIncident(incidents: seq<Incident>, j: int, k: int) {
    0 <= j < |incidents| && 0 <= k < |incidents| && incidents[j].id == incidents[k].id
  }

  lemma OneIncidentEach(db: Db, m: Id)
    requires Inv(db)
    ensures forall j, k :: SameIncident(Rows(db.incidents, m), j, k) ==> j == k
  {
    hide Q.Inv, HealthTable, CandidatesInv, ProjectionTable, TransitionEvents, IncidentEvents;
    hide RunEvents, Markers, Answers, NoRefusal, AlertsInv;
    forall j, k | SameIncident(Rows(db.incidents, m), j, k) ensures j == k {
      assert IsHome(db.incidents, db.home, m, j) && IsHome(db.incidents, db.home, m, k);
    }
  }
}
