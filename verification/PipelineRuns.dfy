/**
 * What every run of the pipeline guarantees, however workers interleave, crash, retry, lose their
 * leases and see events twice or out of order.
 */
module PipelineRuns {
  import opened Common
  import opened Events
  import opened Pipeline
  import opened PipelineInv
  import opened PipelineProjection
  import PipelineSteps
  import H = Health
  import R = HealthRuns
  import Q = Outbox
  import M = EpisodeMeaning

  lemma {:induction false} RunKeepsInv(db: Db, steps: seq<Step>)
    requires Inv(db) && Legal(db, steps)
    ensures Inv(Run(db, steps))
    decreases |steps|
  {
    hide Inv, Enabled, Next;
    if steps != [] {
      NextKeepsInv(db, steps[0]);
      RunKeepsInv(Next(db, steps[0]), steps[1..]);
    }
  }

  /** Every state that a run reaches from the empty tables. */
  lemma Reached(steps: seq<Step>)
    requires Legal(Empty(), steps)
    ensures Inv(Run(Empty(), steps))
  {
    EmptyInv();
    hide Inv;
    RunKeepsInv(Empty(), steps);
  }

  // ---------------------------------------------------------------------------------------------
  // Incidents refine the fold of the log
  // ---------------------------------------------------------------------------------------------

  /**
   * Refinement: the openings and resolutions of a Monitor's Incidents are exactly the in-order
   * fold of the first `cursor` transitions of its log, with the archived flag each projection read.
   */
  lemma IncidentsRefineTheFold(steps: seq<Step>, m: Id)
    requires Legal(Empty(), steps)
    ensures var db := Run(Empty(), steps);
            var cursor, log := Cursor(db.cursor, m), Rows(db.log, m);
            && 0 <= cursor <= |log| && |Rows(db.archived, m)| == cursor
            && R.Chain(log)
            && Episodes(Rows(db.incidents, m)) == Fold(log[..cursor], Rows(db.archived, m))
            && M.InOrder(Episodes(Rows(db.incidents, m)), log[..cursor], Rows(db.archived, m))
  {
    hide Legal, Run;
    var db := Run(Empty(), steps);
    Reached(steps);
    ProjectionOf(db, m);
    hide Inv, R.Chain, Fold, M.InOrder;
    ChainIsNumbered(Rows(db.log, m), Cursor(db.cursor, m));
    M.FoldInOrder(Rows(db.log, m)[..Cursor(db.cursor, m)], Rows(db.archived, m));
  }

  lemma ProjectionOf(db: Db, m: Id)
    requires Inv(db)
    ensures ProjectionRow(Rows(db.log, m), Cursor(db.cursor, m), Rows(db.archived, m),
                          Rows(db.incidents, m))
    ensures R.Chain(Rows(db.log, m))
    ensures m != "" ==> HealthRow(m, Lookup(db.health, m), Rows(db.log, m), Rows(db.facts, m),
                                  db.runs)
    ensures m == "" ==> Rows(db.log, m) == []
  {
    hide Q.Inv, CandidatesInv, TransitionEvents, RunEvents, Markers, Answers;
    hide NoRefusal, AlertsInv, Known, IncidentEvents, Homes;
    assert ProjectionRow(Rows(db.log, m), Cursor(db.cursor, m), Rows(db.archived, m),
                         Rows(db.incidents, m));
    assert HealthRow(m, Lookup(db.health, m), Rows(db.log, m), Rows(db.facts, m), db.runs);
    hide ProjectionRow, ProjectionTable, HealthTable, R.Chain;
    if Rows(db.log, m) != [] {
      LogHasOwner(m, Lookup(db.health, m), Rows(db.log, m), Rows(db.facts, m), db.runs);
      assert m != "" ;
    } else {
      R.EmptyChain();
    }
  }

  lemma ChainIsNumbered(log: seq<R.Transition>, cursor: int)
    requires R.Chain(log) && 0 <= cursor <= |log|
    ensures M.Numbered(log[..cursor]) && M.Numbered(log)
  {
  }

  /**
   * What operators see: a projected transition to down lies inside some Incident unless the
   * Monitor was archived when it was projected, and a transition to healthy inside none.
   */
  lemma IncidentsCoverOutages(steps: seq<Step>, m: Id, v: int)
    requires Legal(Empty(), steps)
    requires 1 <= v <= Cursor(Run(Empty(), steps).cursor, m)
    ensures var db := Run(Empty(), steps);
            && v <= |Rows(db.log, m)| && v <= |Rows(db.archived, m)|
            && var t := Rows(db.log, m)[v - 1];
               && (t.after.Down? && !Rows(db.archived, m)[v - 1] ==>
                     M.Covered(Episodes(Rows(db.incidents, m)), v))
               && (t.after.Healthy? ==> !M.Covered(Episodes(Rows(db.incidents, m)), v))
  {
    hide Legal, Run;
    var db := Run(Empty(), steps);
    IncidentsRefineTheFold(steps, m);
    hide R.Chain, Fold, M.InOrder, M.Covered;
    var cursor := Cursor(db.cursor, m);
    ChainIsNumbered(Rows(db.log, m), cursor);
    M.FoldCovers(Rows(db.log, m)[..cursor], Rows(db.archived, m), v);
  }

  /** At most one Incident of a Monitor is unresolved, and it is the latest. */
  lemma OnlyLastIsUnresolved(steps: seq<Step>, m: Id, k: int)
    requires Legal(Empty(), steps)
    requires 0 <= k < |Rows(Run(Empty(), steps).incidents, m)|
    requires !Rows(Run(Empty(), steps).incidents, m)[k].state.Closed?
    ensures k == |Rows(Run(Empty(), steps).incidents, m)| - 1
  {
    hide Legal, Run;
    Reached(steps);
    ProjectionOf(Run(Empty(), steps), m);
  }

  /**
   * An Incident's version counts its timeline, whose kinds are opened, then perhaps acknowledged,
   * then perhaps resolved, as its state says; the rows copy the transitions behind them.
   */
  lemma TimelineMatchesState(steps: seq<Step>, m: Id, k: int)
    requires Legal(Empty(), steps)
    requires 0 <= k < |Rows(Run(Empty(), steps).incidents, m)|
    ensures var db := Run(Empty(), steps);
            IncidentInv(Rows(db.incidents, m)[k], Rows(db.log, m))
  {
    hide Legal, Run, IncidentInv;
    Reached(steps);
    ProjectionOf(Run(Empty(), steps), m);
  }

  // ---------------------------------------------------------------------------------------------
  // Nothing is lost, refused or done twice
  // ---------------------------------------------------------------------------------------------

  /** No worker is ever told that an issued event is invalid: what it announces is always there. */
  lemma NothingIsRefused(steps: seq<Step>, e: Id, holder: Id)
    requires Legal(Empty(), steps)
    requires (e, holder) in Run(Empty(), steps).queue.answers
    ensures var q := Run(Empty(), steps).queue;
            && e in q.issued
            && (q.issued[e].ConfirmationRequested? || q.answers[(e, holder)] != INVALID)
  {
    hide Legal, Run;
    var db := Run(Empty(), steps);
    Reached(steps);
    Q.NamesAreIssued(db.queue);
    hide Q.Inv, CandidatesInv, TransitionEvents, RunEvents, Markers, Answers, HealthTable;
    hide AlertsInv, Known, IncidentEvents, Homes, ProjectionTable;
  }

  /** A worker that was told "handled" can rely on it: the event's effect is committed. */
  lemma HandledMeansCommitted(steps: seq<Step>, e: Id, holder: Id)
    requires Legal(Empty(), steps)
    requires (e, holder) in Run(Empty(), steps).queue.answers
    requires Run(Empty(), steps).queue.answers[(e, holder)].Handled?
    ensures var db := Run(Empty(), steps);
            e in db.queue.issued && Effect(db.queue.issued[e], db.cursor, db.alerts)
  {
    hide Legal, Run;
    Reached(steps);
    hide Q.Inv, CandidatesInv, TransitionEvents, RunEvents, NoRefusal, HealthTable;
    hide AlertsInv, Known, IncidentEvents, Homes, ProjectionTable;
  }

  /** Every transition's event is live, processed or dead-lettered. */
  lemma TransitionIsSomewhere(db: Db, m: Id, v: int)
    requires Inv(db) && 1 <= v <= |Rows(db.log, m)|
    ensures (m, v) in db.announced
    ensures var e := db.announced[(m, v)];
            && e in db.queue.issued
            && db.queue.issued[e].HealthTransitioned?
            && db.queue.issued[e].monitor == m && db.queue.issued[e].version == v
            && (e in db.queue.entries || e in db.queue.processed || e in db.queue.dead)
            && (e in db.queue.processed ==> v <= Cursor(db.cursor, m))
  {
    hide CandidatesInv, RunEvents, NoRefusal, HealthTable, Answers;
    hide AlertsInv, Known, IncidentEvents, Homes, ProjectionTable, Q.Bounded, Q.LeaseMatchesClaim;
    assert TransitionEvent(db.log, db.announced, db.queue.issued, m, v);
  }

  /** Every opening and resolution has its event, with an Alert once the event is processed. */
  lemma RowIsSomewhere(db: Db, m: Id, k: int, v: int)
    requires Inv(db) && IsRow(db.incidents, m, k, v)
    requires !Row(db.incidents, m, k, v).kind.Acknowledged?
    ensures var e := Row(db.incidents, m, k, v).event;
            && e in db.queue.issued
            && (e in db.queue.entries || e in db.queue.processed || e in db.queue.dead)
            && (e in db.queue.processed ==> (Rows(db.incidents, m)[k].id, v) in db.alerts)
  {
    hide CandidatesInv, RunEvents, NoRefusal, HealthTable, Answers;
    hide AlertsInv, Known, TransitionEvents, Homes, ProjectionTable, Q.Bounded;
    hide Q.LeaseMatchesClaim;
    assert RowIsAnnounced(db.incidents, db.queue.issued, m, k, v);
  }

  /**
   * Convergence: the cursor never passes the health version, and once the outbox is drained
   * without dead letters it has reached it, and every opening and resolution has its Alert.
   */
  lemma DrainedMeansConverged(steps: seq<Step>, m: Id)
    requires Legal(Empty(), steps)
    ensures var db := Run(Empty(), steps);
            && Cursor(db.cursor, m) <= |Rows(db.log, m)|
            && (m in db.health ==> db.health[m].version == |Rows(db.log, m)|)
            && (db.queue.entries == map[] && db.queue.dead == {} ==>
                  && Cursor(db.cursor, m) == |Rows(db.log, m)|
                  && forall k, v :: IsRow(db.incidents, m, k, v)
                                    && !Row(db.incidents, m, k, v).kind.Acknowledged? ==>
                       (Rows(db.incidents, m)[k].id, v) in db.alerts)
  {
    hide Legal, Run;
    var db := Run(Empty(), steps);
    Reached(steps);
    hide Inv, Row, IsRow;
    CursorIsValid(db, m);
    VersionIsLogLength(db, m);
    if db.queue.entries == map[] && db.queue.dead == {} {
      if 1 <= |Rows(db.log, m)| { TransitionIsSomewhere(db, m, |Rows(db.log, m)|); }
      forall k, v | IsRow(db.incidents, m, k, v)
                    && !Row(db.incidents, m, k, v).kind.Acknowledged?
        ensures (Rows(db.incidents, m)[k].id, v) in db.alerts
      {
        RowIsSomewhere(db, m, k, v);
      }
    }
  }

  lemma VersionIsLogLength(db: Db, m: Id)
    requires Inv(db)
    ensures m in db.health ==> db.health[m].version == |Rows(db.log, m)|
  {
    if m in db.health {
      assert m != "" by { assert Known(db.monitors, db.runs, db.health); }
      PipelineSteps.CurrentInv(db, m, 0);
    }
  }

  /**
   * Each Alert announces one opening or resolution that exists, and was made by the one event
   * that row names: no Alert is made without its fact, and no fact is notified by two events.
   */
  lemma AlertsAnnounceFacts(steps: seq<Step>, key: (Id, int))
    requires Legal(Empty(), steps) && key in Run(Empty(), steps).alerts
    ensures var db := Run(Empty(), steps);
            var a := db.alerts[key];
            && key == (a.incident, a.version) && a.incident in db.home
            && db.home[a.incident].0 == a.monitor
            && var k := db.home[a.incident].1;
               && IsRow(db.incidents, a.monitor, k, a.version)
               && Rows(db.incidents, a.monitor)[k].id == a.incident
               && var row := Row(db.incidents, a.monitor, k, a.version);
                  row.kind == a.kind && !row.kind.Acknowledged? && row.at == a.occurredAt
                  && row.event == a.event
  {
    hide Legal, Run;
    var db := Run(Empty(), steps);
    Reached(steps);
    hide Q.Inv, CandidatesInv, TransitionEvents, RunEvents, NoRefusal, HealthTable;
    hide Markers, Answers, Known, Homes, ProjectionTable;
    var a := db.alerts[key];
    assert AnnouncesRow(db.incidents, db.home, a.event, db.queue.issued[a.event]);
  }

  /** Nothing written is rewritten: logs, timelines and Alerts only grow, cursors only advance. */
  ghost predicate Extends(before: Db, after: Db, m: Id) {
    && Rows(before.log, m) <= Rows(after.log, m)
    && Cursor(before.cursor, m) <= Cursor(after.cursor, m)
    && TimelinesGrow(Rows(before.incidents, m), Rows(after.incidents, m))
    && (forall key :: key in before.alerts ==>
          key in after.alerts && after.alerts[key] == before.alerts[key])
  }

  ghost predicate TimelinesGrow(before: seq<Incident>, after: seq<Incident>) {
    && |before| <= |after|
    && forall k :: 0 <= k < |before| ==>
         before[k].id == after[k].id && before[k].openedBy == after[k].openedBy
         && before[k].timeline <= after[k].timeline
  }

  lemma CommitExtends(db: Db, n: Id, f: R.Fact, d: H.Decision, ids: HealthIds, now: Time, m: Id)
    ensures Extends(db, Commit(db, n, f, d, ids, now), m)
  {
  }

  /** The queue and the health tables do not matter here. */
  lemma SameHistory(db: Db, mid: Db, after: Db, m: Id)
    requires Extends(db, mid, m)
    requires mid.log == after.log && mid.cursor == after.cursor
    requires mid.incidents == after.incidents && mid.alerts == after.alerts
    ensures Extends(db, after, m)
  {
  }

  lemma Unchanged(db: Db, m: Id)
    ensures Extends(db, db, m)
  {
  }

  lemma EvaluateExtends(db: Db, e: Id, ids: HealthIds, now: Time, m: Id)
    requires e in db.queue.issued && db.queue.issued[e].RunRecorded?
    ensures Extends(db, EvaluateRun(db, e, ids, now).0, m)
  {
    hide H.Judge, Conflicts, Commit, Completed, Extends, InputOf, Current;
    var p := db.queue.issued[e];
    Unchanged(db, m);
    SameHistory(db, db, db.(queue := Q.Mark(db.queue, e)), m);
    if p.run in db.runs && db.runs[p.run].monitor in db.monitors && Announces(p, db.runs[p.run]) {
      var x := InputOf(db, e, p.run, ids, now);
      var v := H.Judge(Current(db, p.monitor, now), x);
      hide Announces;
      if v.Ok? {
        var mid := Commit(db, p.monitor, R.Seen(x), v.value, ids, now);
        CommitExtends(db, p.monitor, R.Seen(x), v.value, ids, now, m);
        SameHistory(db, mid, mid.(queue := Q.Mark(mid.queue, e)), m);
      }
    }
  }

  /** A change to the Incidents is one that a transition makes. */
  ghost predicate IsChange(incidents: seq<Incident>, c: Change) {
    c.Replaces? ==>
      && c.k < |incidents| && incidents[c.k].id == c.i.id
      && incidents[c.k].openedBy == c.i.openedBy && incidents[c.k].timeline <= c.i.timeline
  }

  lemma ChangesGrow(incidents: seq<Incident>, c: Change)
    requires IsChange(incidents, c)
    ensures TimelinesGrow(incidents, Changed(incidents, c))
  {
  }

  lemma MovedOnExtends(db: Db, n: Id, c: Change, ids: IncidentIds, now: Time, v: int, m: Id)
    requires IsChange(Rows(db.incidents, n), c) && Cursor(db.cursor, n) <= v
    ensures Extends(db, MovedOn(db, n, c, ids, now, v), m)
  {
    ChangesGrow(Rows(db.incidents, n), c);
    MovedOnFields(db, n, c, ids, now, v);
    hide Changed;
  }

  lemma ProjectExtends(db: Db, e: Id, ids: IncidentIds, now: Time, m: Id)
    requires e in db.queue.issued && db.queue.issued[e].HealthTransitioned?
    ensures Extends(db, ProjectTransition(db, e, ids, now).0, m)
  {
    hide ChangeOf, ArchivedNow, Projected, MovedOn, Extends;
    var p := db.queue.issued[e];
    var n := p.monitor;
    Unchanged(db, m);
    SameHistory(db, db, db.(queue := Q.Mark(db.queue, e)), m);
    if 1 <= p.version <= |Rows(db.log, n)| && p.version == Cursor(db.cursor, n) + 1 {
      var c := ChangeOf(Rows(db.incidents, n), db.log[n][p.version - 1], ArchivedNow(db, n), ids);
      ChangeIsChange(Rows(db.incidents, n), db.log[n][p.version - 1], ArchivedNow(db, n), ids);
      MovedOnExtends(db, n, c, ids, now, p.version, m);
      var mid := MovedOn(db, n, c, ids, now, p.version);
      SameHistory(db, mid, mid.(queue := Q.Mark(mid.queue, e)), m);
      if e !in db.queue.processed { ProjectMovesOn(db, e, c, ids, now); }
    }
  }

  lemma ChangeIsChange(incidents: seq<Incident>, t: R.Transition, archived: bool, ids: IncidentIds)
    ensures IsChange(incidents, ChangeOf(incidents, t, archived, ids))
  {
    hide FindActive;
  }

  lemma ProjectMovesOn(db: Db, e: Id, c: Change, ids: IncidentIds, now: Time)
    requires e in db.queue.issued && db.queue.issued[e].HealthTransitioned?
    requires e !in db.queue.processed
    requires var p := db.queue.issued[e];
             && 1 <= p.version <= |Rows(db.log, p.monitor)|
             && p.version == Cursor(db.cursor, p.monitor) + 1
             && c == ChangeOf(Rows(db.incidents, p.monitor), db.log[p.monitor][p.version - 1],
                              ArchivedNow(db, p.monitor), ids)
    ensures var p := db.queue.issued[e];
            var after := ProjectTransition(db, e, ids, now).0;
            var mid := MovedOn(db, p.monitor, c, ids, now, p.version);
            after == db || after == mid.(queue := Q.Mark(mid.queue, e))
  {
    hide ChangeOf, ArchivedNow, Projected;
  }

  lemma NotifyExtends(db: Db, e: Id, alert: Id, now: Time, m: Id)
    requires e in db.queue.issued && db.queue.issued[e].IncidentTransitioned?
    ensures Extends(db, NotifyTransition(db, e, alert, now).0, m)
  {
    hide HasFact, TimelinesGrow;
    Unchanged(db, m);
  }

  lemma HandlerExtends(db: Db, s: Step, m: Id)
    requires s.Handle? && s.e in db.queue.issued
    ensures Extends(db, Handler(db, s).0, m)
  {
    hide EvaluateRun, ProjectTransition, NotifyTransition, Extends;
    match db.queue.issued[s.e]
    case RunRecorded(_, _, _, _, _, _, _) => EvaluateExtends(db, s.e, s.health, s.at, m);
    case HealthTransitioned(_, _, _, _) => ProjectExtends(db, s.e, s.ids, s.at, m);
    case IncidentTransitioned(_, _, _, _, _) => NotifyExtends(db, s.e, s.alert, s.at, m);
    case ConfirmationRequested(_, _, _, _, _, _) => Unchanged(db, m);
  }

  lemma AcknowledgeExtends(db: Db, n: Id, id: Id, now: Time, m: Id)
    ensures Extends(db, Acknowledge(db, n, id, now).0, m)
  {
    hide TimelinesGrow;
    Unchanged(db, m);
    var incidents := Rows(db.incidents, n);
    var k := FindIncident(incidents, id);
    if k.Some? {
      ChangesGrow(incidents, Replaces(k.value, Acknowledging(incidents[k.value], now)));
    }
  }

  lemma SweepExtends(db: Db, n: Id, version: int, event: Id, now: Time, ceiling: Time, m: Id)
    ensures Extends(db, SweepStale(db, n, version, event, now, ceiling), m)
  {
    hide Commit, H.Sweep, StaleAfter, Extends;
    Unchanged(db, m);
    if n in db.health && H.Sweep(db.health[n], now).Ok? {
      CommitExtends(db, n, R.Swept(now), H.Sweep(db.health[n], now).value,
                    HealthIds("", "", event), now, m);
    }
  }

  lemma NextExtends(db: Db, s: Step, m: Id)
    ensures Extends(db, Next(db, s), m)
  {
    hide Handler, SweepStale, Acknowledge, Extends;
    Unchanged(db, m);
    match s
    case Handle(e, holder, _, _, _, _) =>
      if e in db.queue.issued {
        HandlerExtends(db, s, m);
        SameHistory(db, Handler(db, s).0, Next(db, s), m);
      }
    case Sweep(n, version, event, now, ceiling) =>
      SweepExtends(db, n, version, event, now, ceiling, m);
    case Ack(n, incident, now) => AcknowledgeExtends(db, n, incident, now, m);
    case _ => SameHistory(db, db, Next(db, s), m);
  }

  /** Whatever happens next, every log, timeline and Alert keeps what it has. */
  lemma {:induction false} HistoryIsAppendOnly(db: Db, steps: seq<Step>, m: Id)
    ensures Extends(db, Run(db, steps), m)
    decreases |steps|
  {
    hide Next;
    if steps != [] {
      NextExtends(db, steps[0], m);
      HistoryIsAppendOnly(Next(db, steps[0]), steps[1..], m);
    }
  }

  // ---------------------------------------------------------------------------------------------
  // Progress
  // ---------------------------------------------------------------------------------------------

  /**
   * While the projection lags, the event of the next version is still live or dead-lettered, and
   * handling it moves the cursor by exactly one; every later transition is answered with a gap.
   */
  lemma NextVersionAdvances(steps: seq<Step>, m: Id, ids: IncidentIds, now: Time, v: int)
    requires Legal(Empty(), steps)
    requires Cursor(Run(Empty(), steps).cursor, m) < v <= |Rows(Run(Empty(), steps).log, m)|
    ensures var db := Run(Empty(), steps);
            && (m, v) in db.announced && db.announced[(m, v)] in db.queue.issued
            && var e := db.announced[(m, v)];
               && db.queue.issued[e].HealthTransitioned?
               && (e in db.queue.entries || e in db.queue.dead)
               && var (after, answer) := ProjectTransition(db, e, ids, now);
                  if v == Cursor(db.cursor, m) + 1 then
                    answer == Q.Handled && Cursor(after.cursor, m) == v
                  else answer == GAP && after == db
  {
    hide Legal, Run;
    var db := Run(Empty(), steps);
    Reached(steps);
    hide Inv, ChangeOf, Projected, R.Chain;
    CursorIsValid(db, m);
    TransitionIsSomewhere(db, m, v);
    TransitionIsThere(db, db.announced[(m, v)]);
  }

  // ---------------------------------------------------------------------------------------------
  // Why an Incident was opened
  // ---------------------------------------------------------------------------------------------

  /**
   * Every opened Incident is backed by a confirmed failure: at the version that opened it, the
   * Monitor had been judged failing by a scheduled Run that raised a candidate and by another,
   * confirmation Run of the same revision that named it, and had not been healthy or unknown since.
   */
  lemma IncidentIsConfirmed(steps: seq<Step>, m: Id, k: int)
    returns (p: nat, i: nat, j: nat, c: H.Candidate)
    requires Legal(Empty(), steps)
    requires 0 <= k < |Rows(Run(Empty(), steps).incidents, m)|
    ensures var db := Run(Empty(), steps);
            var t := Rows(db.facts, m);
            && p <= |t| && R.ConfirmedDown(m, t[..p], i, j, c)
            && |R.LogOf(m, t[..p])| == Rows(db.incidents, m)[k].openedBy
            && R.LogOf(m, t[..p]) <= Rows(db.log, m)
            && var first, second := t[i].x.run, t[j].x.run;
               && first in db.runs && second in db.runs && first != second
               && db.runs[first].kind.Scheduled? && db.runs[second].kind.Confirmation?
               && db.runs[first].monitor == db.runs[second].monitor == m
               && db.runs[first].revision == db.runs[second].revision
               && db.runs[second].candidate == c.id
  {
    hide Legal, Run;
    var db := Run(Empty(), steps);
    Reached(steps);
    ProjectionOf(db, m);
    hide Inv, R.Chain, Fold, R.LogOf, R.Final, R.PendingThrough, R.DownThrough;
    var t := Rows(db.facts, m);
    var v := Rows(db.incidents, m)[k].openedBy;
    p, i, j, c := R.DownRowIsConfirmed(m, t, v - 1);
    R.LogGrows(m, t, p);
    assert t[..p][i] == t[i] && t[..p][j] == t[j];
    assert FromRun(db.runs, m, t[i]) && FromRun(db.runs, m, t[j]);
  }
}
