/**
 * The transactions as the program runs them: one statement after another on the tables. Each is
 * proved to end in the state its specification in `Pipeline` names.
 */
module PipelineStore {
  import opened Common
  import opened Events
  import opened Pipeline
  import H = Health
  import R = HealthRuns
  import Q = Outbox

  /** The query for a Monitor's Incident that is not resolved. */
  method FindActiveIncident(incidents: seq<Incident>) returns (r: Option<nat>)
    ensures r == FindActive(incidents)
  {
    var i := 0;
    assert incidents[0..] == incidents;
    while i < |incidents|
      invariant 0 <= i <= |incidents|
      invariant var rest := FindActive(incidents[i..]);
                FindActive(incidents) == if rest.Some? then Some(i + rest.value) else None
    {
      if !incidents[i].state.Closed? { return Some(i); }
      assert incidents[i..][1..] == incidents[i + 1..];
      i := i + 1;
    }
    return None;
  }

  /** The query for one Incident by its identifier. */
  method FindIncidentById(incidents: seq<Incident>, id: Id) returns (r: Option<nat>)
    ensures r == FindIncident(incidents, id)
  {
    var i := 0;
    assert incidents[0..] == incidents;
    while i < |incidents|
      invariant 0 <= i <= |incidents|
      invariant var rest := FindIncident(incidents[i..], id);
                FindIncident(incidents, id) == if rest.Some? then Some(i + rest.value) else None
    {
      if incidents[i].id == id { return Some(i); }
      assert incidents[i..][1..] == incidents[i + 1..];
      i := i + 1;
    }
    return None;
  }

  class Store {
    var monitors: map<Id, Monitor>
    var runs: map<Id, RunRow>
    var health: map<Id, H.Snapshot>
    var candidates: map<Id, H.Candidate>
    var log: map<Id, seq<R.Transition>>
    var cursor: map<Id, int>
    var incidents: map<Id, seq<Incident>>
    var alerts: map<(Id, int), Alert>
    var queue: Q.Queue
    ghost var facts: map<Id, seq<R.Fact>>
    ghost var announced: map<(Id, int), Id>
    ghost var archived: map<Id, seq<bool>>
    ghost var home: map<Id, (Id, nat)>

    ghost function View(): Db
      reads this
    {
      Db(monitors, runs, health, candidates, log, cursor, incidents, alerts, queue, facts,
         announced, archived, home)
    }

    constructor ()
      ensures View() == Empty()
    {
      monitors, runs, health, candidates := map[], map[], map[], map[];
      log, cursor, incidents, alerts, queue := map[], map[], map[], map[], Q.Empty();
      facts, announced, archived, home := map[], map[], map[], map[];
    }

    /** Ends the pending candidate, adds the new one, and asks for its confirmation. */
    method WriteCandidates(d: H.Decision, event: Id, now: Time)
      modifies `candidates, `queue
      ensures candidates == Created(Completed(old(candidates), d.completed), d.created)
      ensures queue == Request(old(queue), d.created, event, now)
    {
      if d.completed.Some? {
        var c := d.completed.value;
        if c.id in candidates && candidates[c.id].state.Pending? {
          candidates := candidates[c.id := candidates[c.id].(state := c.state)];
        }
      }
      if d.created.Some? {
        var c := d.created.value;
        candidates := candidates[c.id := c];
        queue := Q.Issue(queue, event,
                         ConfirmationRequested(c.id, c.monitor, c.revision, c.triggeringRun, now,
                                               c.expected), now);
      }
    }

    /** What a decision writes once it is known not to break a constraint. */
    method Write(m: Id, ghost f: R.Fact, row: R.Transition, d: H.Decision, ids: HealthIds, now: Time)
      requires row == R.RowOf(d, f)
      modifies `candidates, `queue, `health, `facts, `log, `announced
      ensures View() == Commit(old(View()), m, f, d, ids, now)
    {
      hide Completed, Created, Request, Q.Issue;
      WriteCandidates(d, ids.confirmationEvent, now);
      health := health[m := d.snapshot];
      facts := facts[m := Rows(facts, m) + [f]];
      if d.transitioned { WriteTransition(m, row, d, ids.transitionEvent, now); }
    }

    /** Appends to the log and announces the transition. */
    method WriteTransition(m: Id, row: R.Transition, d: H.Decision, event: Id, now: Time)
      modifies `log, `announced, `queue
      ensures log == old(log)[m := Rows(old(log), m) + [row]]
      ensures announced == old(announced)[(m, d.snapshot.version) := event]
      ensures queue == Q.Issue(old(queue), event,
                               HealthTransitioned(m, d.snapshot.version, d.previous,
                                                  d.snapshot.state), now)
    {
      log := log[m := Rows(log, m) + [row]];
      announced := announced[(m, d.snapshot.version) := event];
      queue := Q.Issue(queue, event,
                       HealthTransitioned(m, d.snapshot.version, d.previous, d.snapshot.state),
                       now);
    }

    method ProcessRunRecorded(e: Id, event: Payload, ids: HealthIds, now: Time)
      returns (answer: Q.Answer)
      requires e in queue.issued && queue.issued[e] == event && event.RunRecorded?
      modifies this
      ensures (View(), answer) == EvaluateRun(old(View()), e, ids, now)
    {
      if e in queue.processed { return Q.Handled; }
      if event.run !in runs || runs[event.run].monitor !in monitors { return INVALID; }
      var r := runs[event.run];
      if event.monitor != r.monitor || event.revision != r.revision
         || event.location != r.location || event.kind != r.kind || event.outcome != r.outcome
         || event.scheduledFor != r.scheduledFor {
        return INVALID;
      }
      var m := event.monitor;
      if !monitors[m].lifecycle.Active? {
        queue := Q.Mark(queue, e);
        return Q.Handled;
      }
      var current := if m in health then health[m] else H.Initial(m, now);
      var x := H.Input(e, event.run, r.kind, r.outcome, r.code, r.revision,
                       monitors[m].latestRevision, r.scheduledFor, r.finishedAt, r.candidate, now,
                       ids.candidate);
      var v := H.Evaluate(current, x);
      if v.Err? { return FAULT; }
      if Conflicts(Completed(candidates, v.value.completed), v.value.created) { return FAULT; }
      Write(m, R.Seen(x), R.RowOf(v.value, R.Seen(x)), v.value, ids, now);
      queue := Q.Mark(queue, e);
      return Q.Handled;
    }

    method MarkHealthStale(m: Id, version: int, event: Id, now: Time, ceiling: Time)
      modifies this
      ensures View() == SweepStale(old(View()), m, version, event, now, ceiling)
    {
      if m !in health || health[m].version != version || health[m].state.Unknown? { return; }
      if m !in monitors || !monitors[m].lifecycle.Active? { return; }
      var after := StaleAfter(monitors[m].intervalSeconds * SECOND, ceiling);
      if after.None? { return; }
      var last := health[m].lastDeterminateFinishedAt;
      if last.None? || now < last.value + after.value { return; }
      var v := H.MarkStale(health[m], now);
      if v.Err? { return; }
      Write(m, R.Swept(now), R.RowOf(v.value, R.Swept(now)), v.value, HealthIds("", "", event), now);
    }

    method OpenIncident(m: Id, t: R.Transition, ids: IncidentIds, now: Time)
      modifies `incidents, `home, `queue
      ensures View() == Projected(old(View()), m, Appends(Opening(t, ids)), ids, now)
    {
      var row := Entry(1, Opened, Some(t), t.at, ids.alertEvent);
      var i := Incident(ids.incident, Open, 1, t.version, None, t.at, None, None, t.at, [row]);
      home := home[i.id := (m, |Rows(incidents, m)|)];
      incidents := incidents[m := Rows(incidents, m) + [i]];
      queue := Q.Issue(queue, ids.alertEvent, IncidentTransitioned(m, i.id, 1, Opened, t.at), now);
    }

    method ResolveIncident(m: Id, k: nat, t: R.Transition, ids: IncidentIds, now: Time)
      requires k < |Rows(incidents, m)|
      modifies `incidents, `home, `queue
      ensures View() == Projected(old(View()), m,
                                  Replaces(k, Resolving(Rows(old(incidents), m)[k], t,
                                                        ids.alertEvent)), ids, now)
    {
      var i := Rows(incidents, m)[k];
      var version := i.version + 1;
      i := i.(state := Closed, version := version, resolvedBy := Some(t.version),
              resolvedAt := Some(t.at), updatedAt := t.at);
      i := i.(timeline := i.timeline + [Entry(version, Resolved, Some(t), t.at, ids.alertEvent)]);
      incidents := incidents[m := Rows(incidents, m)[k := i]];
      queue := Q.Issue(queue, ids.alertEvent,
                       IncidentTransitioned(m, i.id, version, Resolved, t.at), now);
    }

    /** Opens or resolves, if the transition calls for it. */
    method Project(m: Id, t: R.Transition, isArchived: bool, ids: IncidentIds, now: Time)
      modifies `incidents, `home, `queue
      ensures View() == Projected(old(View()), m,
                                  ChangeOf(Rows(old(incidents), m), t, isArchived, ids), ids, now)
    {
      match t.after {
        case Down =>
          if !isArchived {
            var active := FindActiveIncident(Rows(incidents, m));
            if active.None? { OpenIncident(m, t, ids, now); }
          }
        case Healthy =>
          var active := FindActiveIncident(Rows(incidents, m));
          if active.Some? { ResolveIncident(m, active.value, t, ids, now); }
        case _ =>
      }
    }

    method ProcessHealthTransition(e: Id, event: Payload, ids: IncidentIds, now: Time)
      returns (answer: Q.Answer)
      requires e in queue.issued && queue.issued[e] == event && event.HealthTransitioned?
      modifies this
      ensures (View(), answer) == ProjectTransition(old(View()), e, ids, now)
    {
      hide ChangeOf, Projected;
      if e in queue.processed { return Q.Handled; }
      var m := event.monitor;
      if m !in monitors { return INVALID; }
      if !(1 <= event.version <= |Rows(log, m)|) { return INVALID; }
      var t := log[m][event.version - 1];
      if t.version != event.version || t.before != event.before || t.after != event.after {
        return INVALID;
      }
      var last := if m in cursor then cursor[m] else 0;
      if event.version <= last {
        queue := Q.Mark(queue, e);
        return Q.Handled;
      }
      if event.version != last + 1 { return GAP; }
      var isArchived := monitors[m].lifecycle.Archived?;
      Project(m, t, isArchived, ids, now);
      cursor := cursor[m := event.version];
      archived := archived[m := Rows(archived, m) + [isArchived]];
      queue := Q.Mark(queue, e);
      return Q.Handled;
    }

    method AcknowledgeIncident(m: Id, id: Id, now: Time) returns (r: AckResult)
      modifies this
      ensures (View(), r) == Acknowledge(old(View()), m, id, now)
    {
      var k := FindIncidentById(Rows(incidents, m), id);
      if k.None? { return NotFound; }
      var i := incidents[m][k.value];
      if i.state.Closed? { return Conflict; }
      if i.state.Acked? { return Unchanged; }
      var version := i.version + 1;
      i := i.(state := Acked, version := version, acknowledgedAt := Some(now), updatedAt := now);
      i := i.(timeline := i.timeline + [Entry(version, Acknowledged, None, now, "")]);
      incidents := incidents[m := incidents[m][k.value := i]];
      return Acknowledges;
    }

    /** The query for the fact behind an incident event. */
    method FindFact(event: Payload) returns (found: bool)
      requires event.IncidentTransitioned?
      ensures found == HasFact(incidents, event)
    {
      var k := FindIncidentById(Rows(incidents, event.monitor), event.incident);
      if k.None? { return false; }
      var timeline := incidents[event.monitor][k.value].timeline;
      if !(1 <= event.version <= |timeline|) { return false; }
      var row := timeline[event.version - 1];
      return row.version == event.version && !row.kind.Acknowledged? && row.kind == event.change
             && row.at == event.at;
    }

    /** Inserts the Alert and marks its event as processed. */
    method InsertAlert(e: Id, event: Payload, alert: Id, now: Time)
      requires e in queue.issued && queue.issued[e] == event && event.IncidentTransitioned?
      requires e !in queue.processed && HasFact(incidents, event)
      requires (event.incident, event.version) !in alerts
      modifies `alerts, `queue
      ensures (View(), Q.Handled) == NotifyTransition(old(View()), e, alert, now)
    {
      alerts := alerts[(event.incident, event.version) :=
        Alert(alert, event.monitor, event.incident, event.version, event.change, event.at, now, e)];
      queue := Q.Mark(queue, e);
    }
  }
}
