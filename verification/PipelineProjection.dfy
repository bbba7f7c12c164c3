/**
 * Health transitions become Incidents, and Incidents Alerts: the projection follows the log one
 * version at a time, whatever order its events arrive in, and each event finds what it announces.
 */
module PipelineProjection {
  import opened Common
  import opened Events
  import opened Pipeline
  import opened PipelineInv
  import opened PipelineSteps
  import H = Health
  import R = HealthRuns
  import Q = Outbox

  // ---------------------------------------------------------------------------------------------
  // One Monitor's Incidents
  // ---------------------------------------------------------------------------------------------

  /** When only the last Incident may be unresolved, it is the one that is found active. */
  lemma {:induction false} ActiveIsLast(incidents: seq<Incident>)
    requires forall k :: 0 <= k < |incidents| - 1 ==> incidents[k].state.Closed?
    ensures var n := |incidents|;
            FindActive(incidents)
              == if n > 0 && !incidents[n - 1].state.Closed? then Some(n - 1) else None
  {
    if incidents != [] && incidents[0].state.Closed? { ActiveIsLast(incidents[1..]); }
  }

  lemma KindsExtend(timeline: seq<Entry>, e: Entry)
    ensures Kinds(timeline + [e]) == Kinds(timeline) + [e.kind]
  {
  }

  lemma OpeningInv(log: seq<R.Transition>, v: int, ids: IncidentIds)
    requires 1 <= v <= |log| && log[v - 1].version == v && log[v - 1].after.Down?
    ensures IncidentInv(Opening(log[v - 1], ids), log)
  {
    assert Kinds(Opening(log[v - 1], ids).timeline) == [Opened];
  }

  lemma ResolvingInv(i: Incident, log: seq<R.Transition>, v: int, event: Id)
    requires IncidentInv(i, log) && !i.state.Closed? && i.openedBy < v <= |log|
    requires log[v - 1].version == v && log[v - 1].after.Healthy?
    ensures IncidentInv(Resolving(i, log[v - 1], event), log)
  {
    var r := Resolving(i, log[v - 1], event);
    KindsExtend(i.timeline, r.timeline[|i.timeline|]);
  }

  lemma AcknowledgingInv(i: Incident, log: seq<R.Transition>, now: Time)
    requires IncidentInv(i, log) && i.state.Open?
    ensures IncidentInv(Acknowledging(i, now), log)
  {
    var r := Acknowledging(i, now);
    KindsExtend(i.timeline, r.timeline[|i.timeline|]);
  }

  lemma FoldExtends(log: seq<R.Transition>, archived: seq<bool>, flag: bool)
    requires |archived| < |log|
    ensures var c := |archived|;
            Fold(log[..c + 1], archived + [flag])
              == FoldStep(Fold(log[..c], archived), log[c], flag)
  {
    hide Fold, FoldStep;
    var c := |archived|;
    FoldLast(log[..c + 1], archived + [flag]);
    assert log[..c + 1][..c] == log[..c];
    assert (archived + [flag])[..c] == archived;
  }

  lemma FoldLast(log: seq<R.Transition>, archived: seq<bool>)
    requires |log| == |archived| && log != []
    ensures var n := |log| - 1;
            Fold(log, archived) == FoldStep(Fold(log[..n], archived[..n]), log[n], archived[n])
  {
  }

  /** Projecting one transition is one step of the fold. */
  lemma EpisodesFollow(incidents: seq<Incident>, t: R.Transition, flag: bool, ids: IncidentIds)
    requires forall k :: 0 <= k < |incidents| - 1 ==> incidents[k].state.Closed?
    requires forall k :: 0 <= k < |incidents| ==>
               (incidents[k].state.Closed? <==> incidents[k].resolvedBy.Some?)
    ensures Episodes(Changed(incidents, ChangeOf(incidents, t, flag, ids)))
         == FoldStep(Episodes(incidents), t, flag)
  {
    ActiveIsLast(incidents);
    hide FindActive;
    assert Ongoing(Episodes(incidents)) <==>
      incidents != [] && !incidents[|incidents| - 1].state.Closed?;
  }

  lemma RowFollows(log: seq<R.Transition>, cursor: int, archived: seq<bool>,
                   incidents: seq<Incident>, flag: bool, ids: IncidentIds)
    requires ProjectionRow(log, cursor, archived, incidents) && cursor < |log| && R.Chain(log)
    ensures var c := ChangeOf(incidents, log[cursor], flag, ids);
            ProjectionRow(log, cursor + 1, archived + [flag], Changed(incidents, c))
  {
    hide FindActive, FoldStep, Fold, Episodes, IncidentInv;
    var t := log[cursor];
    assert t.version == cursor + 1;
    hide R.Chain;
    ActiveIsLast(incidents);
    ClosedMeansResolved(incidents, log);
    FoldExtends(log, archived, flag);
    EpisodesFollow(incidents, t, flag, ids);
    IncidentsFollow(log, cursor, incidents, flag, ids);
  }

  lemma ClosedMeansResolved(incidents: seq<Incident>, log: seq<R.Transition>)
    requires forall k :: 0 <= k < |incidents| ==> IncidentInv(incidents[k], log)
    ensures forall k :: 0 <= k < |incidents| ==>
              (incidents[k].state.Closed? <==> incidents[k].resolvedBy.Some?)
  {
  }

  lemma IncidentsFollow(log: seq<R.Transition>, cursor: int, incidents: seq<Incident>, flag: bool,
                        ids: IncidentIds)
    requires 0 <= cursor < |log| && log[cursor].version == cursor + 1
    requires forall k :: 0 <= k < |incidents| ==>
               IncidentInv(incidents[k], log) && incidents[k].openedBy <= cursor
    requires forall k :: 0 <= k < |incidents| - 1 ==> incidents[k].state.Closed?
    ensures var after := Changed(incidents, ChangeOf(incidents, log[cursor], flag, ids));
            && (forall k :: 0 <= k < |after| ==>
                  IncidentInv(after[k], log) && after[k].openedBy <= cursor + 1)
            && (forall k :: 0 <= k < |after| - 1 ==> after[k].state.Closed?)
  {
    hide FindActive, IncidentInv;
    var t, n := log[cursor], |incidents|;
    ActiveIsLast(incidents);
    if t.after.Down? { OpeningInv(log, cursor + 1, ids); }
    if t.after.Healthy? && n > 0 && !incidents[n - 1].state.Closed? {
      ResolvingInv(incidents[n - 1], log, cursor + 1, ids.alertEvent);
    }
  }

  // ---------------------------------------------------------------------------------------------
  // The timeline rows and their events
  // ---------------------------------------------------------------------------------------------

  /** Appending an opened Incident and issuing its event. */
  lemma AppendAnnounces(db: Db, m: Id, i: Incident, e: Id)
    requires Homes(db.incidents, db.home)
    requires IncidentEvents(db.incidents, db.home, db.queue.issued)
    requires i.id !in db.home && e !in db.queue.issued
    requires |i.timeline| == 1 && i.timeline[0].kind.Opened? && i.timeline[0].event == e
    ensures var incidents := db.incidents[m := Rows(db.incidents, m) + [i]];
            var home := db.home[i.id := (m, |Rows(db.incidents, m)|)];
            var p := IncidentTransitioned(m, i.id, 1, Opened, i.timeline[0].at);
            && Homes(incidents, home)
            && IncidentEvents(incidents, home, db.queue.issued[e := p])
  {
    var incidents := db.incidents[m := Rows(db.incidents, m) + [i]];
    var home := db.home[i.id := (m, |Rows(db.incidents, m)|)];
    var issued
      := db.queue.issued[e := IncidentTransitioned(m, i.id, 1, Opened, i.timeline[0].at)];
    forall n, k ensures IsHome(incidents, home, n, k) {
      assert IsHome(db.incidents, db.home, n, k);
    }
    forall n, k, v ensures RowIsAnnounced(incidents, issued, n, k, v) {
      assert RowIsAnnounced(db.incidents, db.queue.issued, n, k, v);
    }
    forall a | a in issued && issued[a].IncidentTransitioned?
      ensures AnnouncesRow(incidents, home, a, issued[a])
    {
      if a != e { assert AnnouncesRow(db.incidents, db.home, a, issued[a]); }
    }
  }

  /** Extending one Incident's timeline: by a resolution with its event, or silently. */
  lemma ExtendAnnounces(db: Db, m: Id, k: nat, i: Incident, entry: Entry,
                        issued: map<Id, Payload>)
    requires Homes(db.incidents, db.home)
    requires IncidentEvents(db.incidents, db.home, db.queue.issued)
    requires k < |Rows(db.incidents, m)|
    requires var was := Rows(db.incidents, m)[k];
             i.id == was.id && i.timeline == was.timeline + [entry]
    requires if entry.kind.Acknowledged? then issued == db.queue.issued
             else entry.event !in db.queue.issued
                  && issued == db.queue.issued[entry.event :=
                       IncidentTransitioned(m, i.id, |i.timeline|, entry.kind, entry.at)]
    ensures var incidents := db.incidents[m := Rows(db.incidents, m)[k := i]];
            Homes(incidents, db.home) && IncidentEvents(incidents, db.home, issued)
  {
    var incidents := db.incidents[m := Rows(db.incidents, m)[k := i]];
    forall n, j ensures IsHome(incidents, db.home, n, j) {
      assert IsHome(db.incidents, db.home, n, j);
    }
    forall n, j, v ensures RowIsAnnounced(incidents, issued, n, j, v) {
      assert RowIsAnnounced(db.incidents, db.queue.issued, n, j, v);
    }
    forall a | a in issued && issued[a].IncidentTransitioned?
      ensures AnnouncesRow(incidents, db.home, a, issued[a])
    {
      if a in db.queue.issued {
        assert AnnouncesRow(db.incidents, db.home, a, issued[a]);
      } else {
        assert IsHome(db.incidents, db.home, m, k);
      }
    }
  }

  // ---------------------------------------------------------------------------------------------
  // The transactions
  // ---------------------------------------------------------------------------------------------

  /** The transition an issued event announces is found, and agrees with it. */
  lemma TransitionIsThere(db: Db, e: Id)
    requires Inv(db) && e in db.queue.issued && db.queue.issued[e].HealthTransitioned?
    ensures var p := db.queue.issued[e];
            && p.monitor in db.monitors && 1 <= p.version <= |Rows(db.log, p.monitor)|
            && var t := db.log[p.monitor][p.version - 1];
               t.version == p.version && t.before == p.before && t.after == p.after
    ensures R.Chain(Rows(db.log, db.queue.issued[e].monitor))
  {
    hide Q.Inv, CandidatesInv, ProjectionTable, Homes, IncidentEvents, RunEvents, Markers;
    hide Answers, NoRefusal, AlertsInv;
    var p := db.queue.issued[e];
    assert TransitionEvent(db.log, db.announced, db.queue.issued, p.monitor, p.version);
    hide TransitionEvents;
    assert HealthRow(p.monitor, Lookup(db.health, p.monitor), Rows(db.log, p.monitor),
                     Rows(db.facts, p.monitor), db.runs);
    hide HealthTable;
    LogHasOwner(p.monitor, Lookup(db.health, p.monitor), Rows(db.log, p.monitor),
                Rows(db.facts, p.monitor), db.runs);
  }

  lemma LogHasOwner(m: Id, h: Option<H.Snapshot>, log: seq<R.Transition>, t: seq<R.Fact>,
                    runs: map<Id, RunRow>)
    requires HealthRow(m, h, log, t, runs) && log != []
    ensures h.Some? && R.Chain(log)
  {
    assert t == [] ==> R.LogOf(m, t) == [];
    RowIsSound(m, h, log, t, runs);
    hide R.LogOf, R.Final, R.Chain, R.HealthInv;
  }

  /** The tables after one Monitor's projection moved on by one version. */
  function MovedOn(db: Db, m: Id, c: Change, ids: IncidentIds, now: Time, v: int): Db
    requires c.Replaces? ==> c.k < |Rows(db.incidents, m)|
  {
    Projected(db, m, c, ids, now).(
      cursor := db.cursor[m := v],
      archived := db.archived[m := Rows(db.archived, m) + [ArchivedNow(db, m)]])
  }

  /** Moving one Monitor's projection leaves the others alone. */
  lemma TableFollows(db: Db, after: Db, m: Id, v: int, flag: bool)
    requires ProjectionTable(db.log, db.cursor, db.archived, db.incidents)
    requires after.log == db.log && after.cursor == db.cursor[m := v]
    requires after.archived == db.archived[m := Rows(db.archived, m) + [flag]]
    requires forall n :: n != m ==> Rows(after.incidents, n) == Rows(db.incidents, n)
    requires ProjectionRow(Rows(db.log, m), v, Rows(db.archived, m) + [flag],
                           Rows(after.incidents, m))
    ensures ProjectionTable(after.log, after.cursor, after.archived, after.incidents)
  {
    hide ProjectionRow;
    forall n
      ensures ProjectionRow(Rows(after.log, n), Cursor(after.cursor, n), Rows(after.archived, n),
                            Rows(after.incidents, n))
    {
      if n != m {
        assert ProjectionRow(Rows(db.log, n), Cursor(db.cursor, n), Rows(db.archived, n),
                             Rows(db.incidents, n));
      }
    }
  }

  lemma MovedOnFields(db: Db, m: Id, c: Change, ids: IncidentIds, now: Time, v: int)
    requires c.Replaces? ==> c.k < |Rows(db.incidents, m)|
    ensures var after := MovedOn(db, m, c, ids, now, v);
            && after.log == db.log && after.cursor == db.cursor[m := v]
            && after.archived == db.archived[m := Rows(db.archived, m) + [ArchivedNow(db, m)]]
            && (forall n :: n != m ==> Rows(after.incidents, n) == Rows(db.incidents, n))
            && Rows(after.incidents, m) == Changed(Rows(db.incidents, m), c)
  {
  }

  lemma ProjectionTableFollows(db: Db, m: Id, c: Change, ids: IncidentIds, now: Time)
    requires ProjectionTable(db.log, db.cursor, db.archived, db.incidents)
    requires 0 <= Cursor(db.cursor, m) < |Rows(db.log, m)| && R.Chain(Rows(db.log, m))
    requires c == ChangeOf(Rows(db.incidents, m), Rows(db.log, m)[Cursor(db.cursor, m)],
                           ArchivedNow(db, m), ids)
    ensures var after := MovedOn(db, m, c, ids, now, Cursor(db.cursor, m) + 1);
            ProjectionTable(after.log, after.cursor, after.archived, after.incidents)
  {
    hide ProjectionRow, R.Chain, ChangeOf, MovedOn, Changed;
    var v := Cursor(db.cursor, m);
    assert ProjectionRow(Rows(db.log, m), v, Rows(db.archived, m), Rows(db.incidents, m));
    hide ProjectionTable;
    RowFollows(Rows(db.log, m), v, Rows(db.archived, m), Rows(db.incidents, m),
               ArchivedNow(db, m), ids);
    MovedOnFields(db, m, c, ids, now, v + 1);
    TableFollows(db, MovedOn(db, m, c, ids, now, v + 1), m, v + 1, ArchivedNow(db, m));
  }

  /** A transition that changes an Incident issues an event that announces the new row. */
  lemma OpeningAnnounces(db: Db, m: Id, t: R.Transition, ids: IncidentIds, now: Time)
    requires Homes(db.incidents, db.home)
    requires IncidentEvents(db.incidents, db.home, db.queue.issued)
    requires ids.incident !in db.home && ids.alertEvent !in db.queue.issued
    ensures var after := Projected(db, m, Appends(Opening(t, ids)), ids, now);
            && Homes(after.incidents, after.home)
            && IncidentEvents(after.incidents, after.home, after.queue.issued)
  {
    hide Homes, IncidentEvents;
    AppendAnnounces(db, m, Opening(t, ids), ids.alertEvent);
  }

  lemma ResolvingAnnounces(db: Db, m: Id, k: nat, t: R.Transition, ids: IncidentIds, now: Time)
    requires Homes(db.incidents, db.home)
    requires IncidentEvents(db.incidents, db.home, db.queue.issued)
    requires ids.alertEvent !in db.queue.issued && k < |Rows(db.incidents, m)|
    requires Rows(db.incidents, m)[k].version == |Rows(db.incidents, m)[k].timeline|
    ensures var i := Resolving(Rows(db.incidents, m)[k], t, ids.alertEvent);
            var after := Projected(db, m, Replaces(k, i), ids, now);
            && Homes(after.incidents, after.home)
            && IncidentEvents(after.incidents, after.home, after.queue.issued)
  {
    hide Homes, IncidentEvents;
    var was := Rows(db.incidents, m)[k];
    var i := Resolving(was, t, ids.alertEvent);
    var entry := Entry(was.version + 1, Resolved, Some(t), t.at, ids.alertEvent);
    assert i.timeline == was.timeline + [entry];
    var p := IncidentTransitioned(m, i.id, |i.timeline|, Resolved, t.at);
    ExtendAnnounces(db, m, k, i, entry, db.queue.issued[ids.alertEvent := p]);
  }

  lemma VersionsCount(db: Db, m: Id)
    requires ProjectionTable(db.log, db.cursor, db.archived, db.incidents)
    ensures 0 <= Cursor(db.cursor, m) <= |Rows(db.log, m)|
    ensures forall k :: 0 <= k < |Rows(db.incidents, m)| ==>
              Rows(db.incidents, m)[k].version == |Rows(db.incidents, m)[k].timeline|
    ensures forall k :: 0 <= k < |Rows(db.incidents, m)| ==>
              IncidentInv(Rows(db.incidents, m)[k], Rows(db.log, m))
  {
    assert ProjectionRow(Rows(db.log, m), Cursor(db.cursor, m), Rows(db.archived, m),
                         Rows(db.incidents, m));
  }

  /** The parts of the invariant that neither the Incidents nor their events appear in. */
  ghost predicate OtherParts(db: Db) {
    && Q.Inv(db.queue)
    && Known(db.monitors, db.runs, db.health)
    && HealthTable(db.health, db.log, db.facts, db.runs)
    && CandidatesInv(db.candidates, db.health, db.queue.processed, db.queue.issued)
    && TransitionEvents(db.log, db.announced, db.queue.issued)
    && RunEvents(db.runs, db.queue.issued)
    && Markers(db.queue.processed, db.queue.issued, db.cursor, db.alerts)
    && Answers(db.queue.answers, db.queue.issued, db.queue.processed)
    && NoRefusal(db.queue.answers, db.queue.issued)
    && AlertsInv(db.alerts, db.queue.processed, db.queue.issued)
  }

  lemma IssueIncidentEvent(db: Db, e: Id, p: Payload, now: Time)
    requires OtherParts(db) && e !in db.queue.issued && p.IncidentTransitioned?
    ensures OtherParts(db.(queue := Q.Issue(db.queue, e, p, now)))
  {
    hide Q.Inv, HealthTable, CandidatesInv, TransitionEvents, RunEvents, Markers, Answers;
    hide NoRefusal, AlertsInv, Known;
    Q.ApplyKeepsInv(db.queue, Q.Issuing(e, p, now));
    IssueAny(db, e, p);
    IssueOther(db, e, p);
  }

  lemma CursorMayGrow(db: Db, m: Id, v: int)
    requires Markers(db.queue.processed, db.queue.issued, db.cursor, db.alerts)
    requires Cursor(db.cursor, m) <= v
    ensures Markers(db.queue.processed, db.queue.issued, db.cursor[m := v], db.alerts)
  {
    forall e | e in db.queue.processed && e in db.queue.issued
      ensures Effect(db.queue.issued[e], db.cursor[m := v], db.alerts)
    {
      assert Effect(db.queue.issued[e], db.cursor, db.alerts);
    }
  }

  lemma OthersFollow(db: Db, m: Id, c: Change, ids: IncidentIds, now: Time, v: int)
    requires OtherParts(db) && Cursor(db.cursor, m) <= v
    requires c.Replaces? ==> c.k < |Rows(db.incidents, m)|
    requires ids.alertEvent !in db.queue.issued
    ensures OtherParts(MovedOn(db, m, c, ids, now, v))
  {
    hide Q.Inv, HealthTable, CandidatesInv, TransitionEvents, RunEvents, Markers, Answers;
    hide NoRefusal, AlertsInv, Known;
    CursorMayGrow(db, m, v);
    var ahead := db.(cursor := db.cursor[m := v]);
    if !c.Stays? {
      IssueIncidentEvent(ahead, ids.alertEvent,
        IncidentTransitioned(m, c.i.id, c.i.version, if c.Appends? then Opened else Resolved,
                             if c.Appends? then c.i.createdAt else c.i.updatedAt), now);
    }
  }

  lemma MovedOnKeepsInv(db: Db, m: Id, c: Change, ids: IncidentIds, now: Time)
    requires Inv(db) && R.Chain(Rows(db.log, m))
    requires 0 <= Cursor(db.cursor, m) < |Rows(db.log, m)|
    requires c == ChangeOf(Rows(db.incidents, m), Rows(db.log, m)[Cursor(db.cursor, m)],
                           ArchivedNow(db, m), ids)
    requires ids.incident !in db.home && ids.alertEvent !in db.queue.issued
    ensures Inv(MovedOn(db, m, c, ids, now, Cursor(db.cursor, m) + 1))
  {
    hide Q.Inv, HealthTable, CandidatesInv, TransitionEvents, RunEvents, Markers, Answers;
    hide NoRefusal, AlertsInv, Known, ChangeOf, R.Chain, IncidentEvents, Homes;
    hide ProjectionTable;
    var v := Cursor(db.cursor, m) + 1;
    OthersFollow(db, m, c, ids, now, v);
    ProjectionTableFollows(db, m, c, ids, now);
    VersionsCount(db, m);
    var t := Rows(db.log, m)[v - 1];
    match c
    case Stays =>
    case Appends(i) => OpeningAnnounces(db, m, t, ids, now);
    case Replaces(k, i) => ResolvingAnnounces(db, m, k, t, ids, now);
  }

  /** The handler of a health transition never refuses an issued event: it applies it or waits. */
  lemma ProjectTransitionServes(db: Db, e: Id, ids: IncidentIds, now: Time)
    requires Inv(db) && e in db.queue.issued && db.queue.issued[e].HealthTransitioned?
    requires ids.incident !in db.home && ids.alertEvent !in db.queue.issued
    ensures var (after, answer) := ProjectTransition(db, e, ids, now);
            Serves(db, e, after, answer)
  {
    hide Inv, ChangeOf, Projected, Effect;
    var p := db.queue.issued[e];
    var m := p.monitor;
    TransitionIsThere(db, e);
    if e in db.queue.processed {
    } else if p.version <= Cursor(db.cursor, m) {
      EffectOfTransition(p, db.cursor, db.alerts);
      MarkKeepsInv(db, e);
    } else if p.version == Cursor(db.cursor, m) + 1 {
      CursorIsValid(db, m);
      var c := ChangeOf(Rows(db.incidents, m), db.log[m][p.version - 1], ArchivedNow(db, m), ids);
      MovedOnKeepsInv(db, m, c, ids, now);
      var after := MovedOn(db, m, c, ids, now, p.version);
      ProjectedIssues(db, m, c, ids, now, e);
      EffectOfTransition(p, after.cursor, after.alerts);
      MarkKeepsInv(after, e);
    }
  }

  lemma EffectOfTransition(p: Payload, cursor: map<Id, int>, alerts: map<(Id, int), Alert>)
    requires p.HealthTransitioned? && p.version <= Cursor(cursor, p.monitor)
    ensures Effect(p, cursor, alerts)
  {
  }

  lemma CursorIsValid(db: Db, m: Id)
    requires Inv(db)
    ensures 0 <= Cursor(db.cursor, m) <= |Rows(db.log, m)|
  {
    hide Q.Inv, HealthTable, CandidatesInv, TransitionEvents, RunEvents, Markers, Answers;
    hide NoRefusal, AlertsInv, Known, IncidentEvents, Homes, ProjectionTable;
    VersionsCount(db, m);
  }

  lemma ProjectedIssues(db: Db, m: Id, c: Change, ids: IncidentIds, now: Time, e: Id)
    requires e in db.queue.issued && ids.alertEvent !in db.queue.issued
    requires c.Replaces? ==> c.k < |Rows(db.incidents, m)|
    ensures var after := Projected(db, m, c, ids, now);
            && e in after.queue.issued && after.queue.issued[e] == db.queue.issued[e]
            && after.queue.claims == db.queue.claims
            && after.queue.processed == db.queue.processed
            && after.cursor == db.cursor && after.alerts == db.alerts
  {
  }

  // ---------------------------------------------------------------------------------------------
  // Incidents to Alerts
  // ---------------------------------------------------------------------------------------------

  /** The timeline row an issued event announces is always found. */
  lemma FactIsThere(db: Db, e: Id)
    requires Inv(db) && e in db.queue.issued && db.queue.issued[e].IncidentTransitioned?
    ensures HasFact(db.incidents, db.queue.issued[e])
  {
    hide Q.Inv, HealthTable, CandidatesInv, TransitionEvents, RunEvents, Markers, Answers;
    hide NoRefusal, AlertsInv, Known, ProjectionTable;
    var p := db.queue.issued[e];
    assert AnnouncesRow(db.incidents, db.home, e, p);
    hide IncidentEvents;
    VersionsCount(db, p.monitor);
    var incidents := Rows(db.incidents, p.monitor);
    var k := FindIncident(incidents, p.incident);
    if k.Some? { assert IsHome(db.incidents, db.home, p.monitor, k.value); }
  }

  /** A fact that already has an Alert has its marker: no fact is ever projected twice. */
  lemma AlertIsNew(db: Db, e: Id)
    requires Inv(db) && e in db.queue.issued && db.queue.issued[e].IncidentTransitioned?
    requires e !in db.queue.processed
    ensures (db.queue.issued[e].incident, db.queue.issued[e].version) !in db.alerts
  {
    hide Q.Inv, HealthTable, CandidatesInv, TransitionEvents, RunEvents, Markers, Answers;
    hide NoRefusal, Known, ProjectionTable, Homes;
    var p := db.queue.issued[e];
    assert AnnouncesRow(db.incidents, db.home, e, p);
    forall a | a in db.queue.issued && db.queue.issued[a].IncidentTransitioned?
               && db.queue.issued[a].incident == p.incident
               && db.queue.issued[a].version == p.version
      ensures a == e
    {
      assert AnnouncesRow(db.incidents, db.home, a, db.queue.issued[a]);
    }
  }

  lemma MoreMarkers(db: Db, e: Id)
    requires CandidatesInv(db.candidates, db.health, db.queue.processed, db.queue.issued)
    requires Answers(db.queue.answers, db.queue.issued, db.queue.processed)
    ensures CandidatesInv(db.candidates, db.health, db.queue.processed + {e}, db.queue.issued)
    ensures Answers(db.queue.answers, db.queue.issued, db.queue.processed + {e})
  {
    hide PendingInHealth;
  }

  lemma AlertIsMarked(db: Db, e: Id, a: Alert)
    requires Markers(db.queue.processed, db.queue.issued, db.cursor, db.alerts)
    requires AlertsInv(db.alerts, db.queue.processed, db.queue.issued)
    requires e in db.queue.issued && (a.incident, a.version) !in db.alerts && a.event == e
    requires db.queue.issued[e]
          == IncidentTransitioned(a.monitor, a.incident, a.version, a.kind, a.occurredAt)
    ensures var alerts := db.alerts[(a.incident, a.version) := a];
            && Markers(db.queue.processed + {e}, db.queue.issued, db.cursor, alerts)
            && AlertsInv(alerts, db.queue.processed + {e}, db.queue.issued)
  {
    var alerts := db.alerts[(a.incident, a.version) := a];
    forall m | m in db.queue.processed + {e} && m in db.queue.issued
      ensures Effect(db.queue.issued[m], db.cursor, alerts)
    {
      if m != e { assert Effect(db.queue.issued[m], db.cursor, db.alerts); }
    }
  }

  lemma AlertKeepsInv(db: Db, e: Id, a: Alert)
    requires Inv(db) && e in db.queue.issued && e !in db.queue.processed
    requires (a.incident, a.version) !in db.alerts && a.event == e
    requires db.queue.issued[e]
          == IncidentTransitioned(a.monitor, a.incident, a.version, a.kind, a.occurredAt)
    ensures Inv(db.(alerts := db.alerts[(a.incident, a.version) := a],
                    queue := Q.Mark(db.queue, e)))
  {
    hide Q.Inv, HealthTable, TransitionEvents, RunEvents, IncidentEvents, NoRefusal, Known;
    hide ProjectionTable, Homes, CandidatesInv, Answers, Markers, AlertsInv;
    Q.ApplyKeepsInv(db.queue, Q.Marking(e));
    MoreMarkers(db, e);
    AlertIsMarked(db, e, a);
  }

  lemma NotifyServes(db: Db, e: Id, alert: Id, now: Time)
    requires Inv(db) && e in db.queue.issued && db.queue.issued[e].IncidentTransitioned?
    ensures var (after, answer) := NotifyTransition(db, e, alert, now);
            Serves(db, e, after, answer) && answer == Q.Handled
  {
    hide Inv, HasFact;
    FactIsThere(db, e);
    if e !in db.queue.processed {
      var p := db.queue.issued[e];
      AlertIsNew(db, e);
      AlertKeepsInv(db, e, Alert(alert, p.monitor, p.incident, p.version, p.change, p.at, now, e));
    }
  }

  // ---------------------------------------------------------------------------------------------
  // Acknowledgement, and every step together
  // ---------------------------------------------------------------------------------------------

  lemma AcknowledgingRow(log: seq<R.Transition>, cursor: int, archived: seq<bool>,
                         incidents: seq<Incident>, k: nat, now: Time)
    requires ProjectionRow(log, cursor, archived, incidents)
    requires k < |incidents| && incidents[k].state.Open?
    ensures ProjectionRow(log, cursor, archived, incidents[k := Acknowledging(incidents[k], now)])
  {
    AcknowledgingInv(incidents[k], log, now);
    hide IncidentInv, Fold;
    var after := incidents[k := Acknowledging(incidents[k], now)];
    assert Episodes(after) == Episodes(incidents);
  }

  lemma AcknowledgingTable(db: Db, m: Id, k: nat, now: Time)
    requires ProjectionTable(db.log, db.cursor, db.archived, db.incidents)
    requires k < |Rows(db.incidents, m)| && Rows(db.incidents, m)[k].state.Open?
    ensures var i := Acknowledging(Rows(db.incidents, m)[k], now);
            ProjectionTable(db.log, db.cursor, db.archived,
                            db.incidents[m := Rows(db.incidents, m)[k := i]])
  {
    hide ProjectionRow;
    var i := Acknowledging(Rows(db.incidents, m)[k], now);
    var incidents := db.incidents[m := Rows(db.incidents, m)[k := i]];
    forall n
      ensures ProjectionRow(Rows(db.log, n), Cursor(db.cursor, n), Rows(db.archived, n),
                            Rows(incidents, n))
    {
      assert ProjectionRow(Rows(db.log, n), Cursor(db.cursor, n), Rows(db.archived, n),
                           Rows(db.incidents, n));
      if n == m {
        AcknowledgingRow(Rows(db.log, n), Cursor(db.cursor, n), Rows(db.archived, n),
                         Rows(db.incidents, n), k, now);
      }
    }
  }

  lemma AcknowledgeKeepsInv(db: Db, m: Id, id: Id, now: Time)
    requires Inv(db)
    ensures Inv(Acknowledge(db, m, id, now).0)
  {
    hide Q.Inv, HealthTable, CandidatesInv, TransitionEvents, RunEvents, Markers, Answers;
    hide NoRefusal, AlertsInv, Known, ProjectionTable, IncidentEvents, Homes;
    var incidents := Rows(db.incidents, m);
    var k := FindIncident(incidents, id);
    if k.Some? && incidents[k.value].state.Open? {
      var i := Acknowledging(incidents[k.value], now);
      AcknowledgingTable(db, m, k.value, now);
      ExtendAnnounces(db, m, k.value, i, i.timeline[|i.timeline| - 1], db.queue.issued);
    }
  }

  /** A worker that runs the handler of its entry and reports the answer keeps the invariant. */
  lemma HandlerServes(db: Db, s: Step)
    requires Inv(db) && s.Handle? && Enabled(db, s) && s.e in db.queue.issued && s.e != ""
    ensures var (after, answer) := Handler(db, s); Serves(db, s.e, after, answer)
  {
    hide Inv;
    match db.queue.issued[s.e]
    case RunRecorded(_, _, _, _, _, _, _) => EvaluateRunServes(db, s.e, s.health, s.at);
    case HealthTransitioned(_, _, _, _) => ProjectTransitionServes(db, s.e, s.ids, s.at);
    case IncidentTransitioned(_, _, _, _, _) => NotifyServes(db, s.e, s.alert, s.at);
    case ConfirmationRequested(_, _, _, _, _, _) =>
  }

  lemma HandleKeepsInv(db: Db, s: Step)
    requires Inv(db) && s.Handle? && Enabled(db, s) && s.e in db.queue.issued && s.e != ""
    ensures Inv(Next(db, s))
  {
    hide Inv, Handler;
    HandlerServes(db, s);
    var (after, answer) := Handler(db, s);
    ReplyKeepsInv(after, s.e, s.holder, answer);
  }

  /** Every step of the pipeline keeps the invariant. */
  lemma NextKeepsInv(db: Db, s: Step)
    requires Inv(db) && Enabled(db, s)
    ensures Inv(Next(db, s))
  {
    hide Inv;
    match s
    case PutMonitor(m, row) => PutMonitorKeepsInv(db, m, row);
    case RecordRun(_, _, _, _) => RecordRunKeepsInv(db, s);
    case Claim(_, _, _, _, _) => ClaimKeepsInv(db, s);
    case Handle(e, _, _, _, _, _) => HandleKeepsInv(db, s);
    case Answer(e, holder, answer) => ReplyKeepsInv(db, e, holder, answer);
    case Settle(e, holder, hash) => SettleKeepsInv(db, e, holder, hash);
    case Sweep(_, _, _, _, _) => SweepKeepsInv(db, s);
    case Ack(m, incident, now) => AcknowledgeKeepsInv(db, m, incident, now);
  }
}
