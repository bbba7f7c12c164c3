/**
 * Evidence to health, health to Incidents, Incidents to Alerts: the tables, and each transaction
 * that reads and writes them. The queue delivers events at least once and in any order.
 */
module Pipeline {
  import opened Common
  import opened Events
  import H = Health
  import R = HealthRuns
  import Q = Outbox

  datatype Lifecycle = Draft | Active | Paused | Archived

  datatype Monitor = Monitor(lifecycle: Lifecycle, latestRevision: int, intervalSeconds: int)

  /** A recorded Run, joined with the failure code of its Observation. */
  datatype RunRow = RunRow(
    monitor: Id, revision: int, location: string, kind: H.Kind, outcome: H.Outcome, code: H.Code,
    scheduledFor: Time, finishedAt: Option<Time>, candidate: Id)

  datatype IncidentState = Open | Acked | Closed

  /** A timeline row; `fact` is everything it copies from the health transition behind it. */
  datatype Entry = Entry(
    version: int, kind: IncidentKind, fact: Option<R.Transition>, at: Time, event: Id)

  datatype Incident = Incident(
    id: Id, state: IncidentState, version: int, openedBy: int, resolvedBy: Option<int>,
    createdAt: Time, acknowledgedAt: Option<Time>, resolvedAt: Option<Time>, updatedAt: Time,
    timeline: seq<Entry>)

  datatype Alert = Alert(
    id: Id, monitor: Id, incident: Id, version: int, kind: IncidentKind,
    occurredAt: Time, createdAt: Time, event: Id)

  /**
   * The tables. The last four are history: every fact a Monitor's health was judged on, the event
   * that announced each transition, what lifecycle each projection read, and where an Incident is.
   */
  datatype Db = Db(
    monitors: map<Id, Monitor>, runs: map<Id, RunRow>,
    health: map<Id, H.Snapshot>, candidates: map<Id, H.Candidate>,
    log: map<Id, seq<R.Transition>>, cursor: map<Id, int>, incidents: map<Id, seq<Incident>>,
    alerts: map<(Id, int), Alert>, queue: Q.Queue,
    facts: map<Id, seq<R.Fact>>, announced: map<(Id, int), Id>, archived: map<Id, seq<bool>>,
    home: map<Id, (Id, nat)>)

  function Empty(): Db {
    Db(map[], map[], map[], map[], map[], map[], map[], map[], Q.Empty(), map[], map[], map[],
       map[])
  }

  function Rows<V>(table: map<Id, seq<V>>, m: Id): seq<V> {
    if m in table then table[m] else []
  }

  function Cursor(cursor: map<Id, int>, m: Id): int { if m in cursor then cursor[m] else 0 }

  const FAULT := Q.Failed(Q.HandlerFailed, false)
  const INVALID := Q.Failed(Q.PayloadInvalid, true)
  const GAP := Q.Failed(Q.VersionGap, false)

  // ---------------------------------------------------------------------------------------------
  // Evidence to health
  // ---------------------------------------------------------------------------------------------

  datatype HealthIds = HealthIds(candidate: Id, confirmationEvent: Id, transitionEvent: Id)

  predicate Announces(p: Payload, r: RunRow) {
    && p.RunRecorded? && p.monitor == r.monitor && p.revision == r.revision
    && p.location == r.location && p.kind == r.kind && p.outcome == r.outcome
    && p.scheduledFor == r.scheduledFor
  }

  function InputOf(db: Db, e: Id, run: Id, ids: HealthIds, now: Time): H.Input
    requires run in db.runs && db.runs[run].monitor in db.monitors
  {
    var r := db.runs[run];
    H.Input(e, run, r.kind, r.outcome, r.code, r.revision, db.monitors[r.monitor].latestRevision,
            r.scheduledFor, r.finishedAt, r.candidate, now, ids.candidate)
  }

  function Current(db: Db, m: Id, now: Time): H.Snapshot {
    if m in db.health then db.health[m] else H.Initial(m, now)
  }

  /** The unique index on what triggered a candidate. */
  predicate SameTrigger(a: H.Candidate, b: H.Candidate) {
    && a.monitor == b.monitor && a.revision == b.revision && a.direction == b.direction
    && a.triggeringRun == b.triggeringRun && a.triggeringScheduledFor == b.triggeringScheduledFor
  }

  predicate Conflicts(candidates: map<Id, H.Candidate>, c: Option<H.Candidate>) {
    c.Some? && exists id :: id in candidates && SameTrigger(candidates[id], c.value)
  }

  function Completed(candidates: map<Id, H.Candidate>, c: Option<H.Candidate>)
    : map<Id, H.Candidate>
  {
    if c.Some? && c.value.id in candidates && candidates[c.value.id].state.Pending? then
      candidates[c.value.id := candidates[c.value.id].(state := c.value.state)]
    else candidates
  }

  function Created(candidates: map<Id, H.Candidate>, c: Option<H.Candidate>)
    : map<Id, H.Candidate>
  {
    if c.Some? then candidates[c.value.id := c.value] else candidates
  }

  function Request(q: Q.Queue, c: Option<H.Candidate>, event: Id, now: Time): Q.Queue {
    if c.None? then q
    else Q.Issue(q, event, ConfirmationRequested(c.value.id, c.value.monitor, c.value.revision,
                                                 c.value.triggeringRun, now, c.value.expected), now)
  }

  /** Everything one decision about a Monitor writes, in one transaction. */
  function Commit(db: Db, m: Id, f: R.Fact, d: H.Decision, ids: HealthIds, now: Time): Db {
    var s := d.snapshot;
    var base := db.(
      candidates := Created(Completed(db.candidates, d.completed), d.created),
      health := db.health[m := s],
      facts := db.facts[m := Rows(db.facts, m) + [f]],
      queue := Request(db.queue, d.created, ids.confirmationEvent, now));
    if !d.transitioned then base
    else
      base.(log := db.log[m := Rows(db.log, m) + [R.RowOf(d, f)]],
            announced := db.announced[(m, s.version) := ids.transitionEvent],
            queue := Q.Issue(base.queue, ids.transitionEvent,
                             HealthTransitioned(m, s.version, d.previous, s.state), now))
  }

  /** Handles one recorded Run. */
  function EvaluateRun(db: Db, e: Id, ids: HealthIds, now: Time): (Db, Q.Answer)
    requires e in db.queue.issued && db.queue.issued[e].RunRecorded?
  {
    var p := db.queue.issued[e];
    if e in db.queue.processed then (db, Q.Handled)
    else if p.run !in db.runs || db.runs[p.run].monitor !in db.monitors then (db, INVALID)
    else if !Announces(p, db.runs[p.run]) then (db, INVALID)
    else if !db.monitors[p.monitor].lifecycle.Active? then
      (db.(queue := Q.Mark(db.queue, e)), Q.Handled)
    else
      var x := InputOf(db, e, p.run, ids, now);
      var v := H.Judge(Current(db, p.monitor, now), x);
      if v.Err? || Conflicts(Completed(db.candidates, v.value.completed), v.value.created) then
        (db, FAULT)
      else
        var after := Commit(db, p.monitor, R.Seen(x), v.value, ids, now);
        (after.(queue := Q.Mark(after.queue, e)), Q.Handled)
  }

  /** How long determinate evidence stays current. */
  function StaleAfter(interval: Time, ceiling: Time): Option<Time> {
    if interval <= 0 || ceiling <= 0 then None else Some(Max(3 * interval, 2 * ceiling))
  }

  /** The sweep's recheck, under the row lock. */
  predicate IsStale(db: Db, m: Id, version: int, now: Time, ceiling: Time) {
    && m in db.health && m in db.monitors
    && db.health[m].version == version && !db.health[m].state.Unknown?
    && db.monitors[m].lifecycle.Active?
    && var after := StaleAfter(db.monitors[m].intervalSeconds * SECOND, ceiling);
       && after.Some? && db.health[m].lastDeterminateFinishedAt.Some?
       && now >= db.health[m].lastDeterminateFinishedAt.value + after.value
  }

  function SweepStale(db: Db, m: Id, version: int, event: Id, now: Time, ceiling: Time): Db {
    if !IsStale(db, m, version, now, ceiling) then db
    else
      var v := H.Sweep(db.health[m], now);
      if v.Err? then db
      else Commit(db, m, R.Swept(now), v.value, HealthIds("", "", event), now)
  }

  // ---------------------------------------------------------------------------------------------
  // Health to Incidents
  // ---------------------------------------------------------------------------------------------

  datatype IncidentIds = IncidentIds(incident: Id, alertEvent: Id)

  /** The first Incident that is not resolved. */
  function FindActive(incidents: seq<Incident>): (r: Option<nat>)
    ensures r.Some? ==> r.value < |incidents| && !incidents[r.value].state.Closed?
    ensures r.None? ==> forall k :: 0 <= k < |incidents| ==> incidents[k].state.Closed?
  {
    if incidents == [] then None
    else if !incidents[0].state.Closed? then Some(0)
    else
      var rest := FindActive(incidents[1..]);
      if rest.Some? then Some(rest.value + 1) else None
  }

  function Opening(t: R.Transition, ids: IncidentIds): Incident {
    Incident(ids.incident, Open, 1, t.version, None, t.at, None, None, t.at,
             [Entry(1, Opened, Some(t), t.at, ids.alertEvent)])
  }

  function Resolving(i: Incident, t: R.Transition, event: Id): Incident {
    i.(state := Closed, version := i.version + 1, resolvedBy := Some(t.version),
       resolvedAt := Some(t.at), updatedAt := t.at,
       timeline := i.timeline + [Entry(i.version + 1, Resolved, Some(t), t.at, event)])
  }

  function Announce(q: Q.Queue, m: Id, i: Incident, kind: IncidentKind, event: Id, at: Time,
                    now: Time): Q.Queue
  {
    Q.Issue(q, event, IncidentTransitioned(m, i.id, i.version, kind, at), now)
  }

  /** What one transition does to its Monitor's Incidents. */
  datatype Change = Stays | Appends(i: Incident) | Replaces(k: nat, i: Incident)

  function ChangeOf(incidents: seq<Incident>, t: R.Transition, archived: bool, ids: IncidentIds)
    : (c: Change)
    ensures c.Appends? ==> c.i == Opening(t, ids)
    ensures c.Replaces? ==>
              c.k < |incidents| && c.i == Resolving(incidents[c.k], t, ids.alertEvent)
  {
    var active := FindActive(incidents);
    if t.after.Down? && !archived && active.None? then Appends(Opening(t, ids))
    else if t.after.Healthy? && active.Some? then
      Replaces(active.value, Resolving(incidents[active.value], t, ids.alertEvent))
    else Stays
  }

  function Changed(incidents: seq<Incident>, c: Change): seq<Incident>
    requires c.Replaces? ==> c.k < |incidents|
  {
    match c
    case Stays => incidents
    case Appends(i) => incidents + [i]
    case Replaces(k, i) => incidents[k := i]
  }

  function Projected(db: Db, m: Id, c: Change, ids: IncidentIds, now: Time): Db
    requires c.Replaces? ==> c.k < |Rows(db.incidents, m)|
  {
    match c
    case Stays => db
    case Appends(i) =>
      db.(incidents := db.incidents[m := Changed(Rows(db.incidents, m), c)],
          home := db.home[i.id := (m, |Rows(db.incidents, m)|)],
          queue := Announce(db.queue, m, i, Opened, ids.alertEvent, i.createdAt, now))
    case Replaces(_, i) =>
      db.(incidents := db.incidents[m := Changed(Rows(db.incidents, m), c)],
          queue := Announce(db.queue, m, i, Resolved, ids.alertEvent, i.updatedAt, now))
  }

  predicate ArchivedNow(db: Db, m: Id) { m in db.monitors && db.monitors[m].lifecycle.Archived? }

  /** Handles one health transition. */
  function ProjectTransition(db: Db, e: Id, ids: IncidentIds, now: Time): (Db, Q.Answer)
    requires e in db.queue.issued && db.queue.issued[e].HealthTransitioned?
  {
    var p := db.queue.issued[e];
    var m := p.monitor;
    if e in db.queue.processed then (db, Q.Handled)
    else if m !in db.monitors || !(1 <= p.version <= |Rows(db.log, m)|) then (db, INVALID)
    else
      var t := db.log[m][p.version - 1];
      if t.version != p.version || t.before != p.before || t.after != p.after then (db, INVALID)
      else if p.version <= Cursor(db.cursor, m) then (db.(queue := Q.Mark(db.queue, e)), Q.Handled)
      else if p.version != Cursor(db.cursor, m) + 1 then (db, GAP)
      else
        var c := ChangeOf(Rows(db.incidents, m), t, ArchivedNow(db, m), ids);
        var after := Projected(db, m, c, ids, now);
        (after.(cursor := db.cursor[m := p.version],
                archived := db.archived[m := Rows(db.archived, m) + [ArchivedNow(db, m)]],
                queue := Q.Mark(after.queue, e)),
         Q.Handled)
  }

  datatype AckResult = NotFound | Conflict | Unchanged | Acknowledges

  function FindIncident(incidents: seq<Incident>, id: Id): (r: Option<nat>)
    ensures r.Some? ==> r.value < |incidents| && incidents[r.value].id == id
    ensures r.None? ==> forall k :: 0 <= k < |incidents| ==> incidents[k].id != id
  {
    if incidents == [] then None
    else if incidents[0].id == id then Some(0)
    else
      var rest := FindIncident(incidents[1..], id);
      if rest.Some? then Some(rest.value + 1) else None
  }

  function Acknowledging(i: Incident, now: Time): Incident {
    i.(state := Acked, version := i.version + 1, acknowledgedAt := Some(now), updatedAt := now,
       timeline := i.timeline + [Entry(i.version + 1, Acknowledged, None, now, "")])
  }

  function Acknowledge(db: Db, m: Id, id: Id, now: Time): (Db, AckResult) {
    var incidents := Rows(db.incidents, m);
    var k := FindIncident(incidents, id);
    if k.None? then (db, NotFound)
    else
      var i := incidents[k.value];
      if i.state.Closed? then (db, Conflict)
      else if i.state.Acked? then (db, Unchanged)
      else
        (db.(incidents := db.incidents[m := incidents[k.value := Acknowledging(i, now)]]),
         Acknowledges)
  }

  // ---------------------------------------------------------------------------------------------
  // Incidents to Alerts
  // ---------------------------------------------------------------------------------------------

  /** The timeline row an incident event announces, if there is one. */
  predicate HasFact(table: map<Id, seq<Incident>>, p: Payload)
    requires p.IncidentTransitioned?
  {
    var incidents := Rows(table, p.monitor);
    var k := FindIncident(incidents, p.incident);
    && k.Some?
    && 1 <= p.version <= |incidents[k.value].timeline|
    && var t := incidents[k.value].timeline[p.version - 1];
       && t.version == p.version && !t.kind.Acknowledged?
       && t.kind == p.change && t.at == p.at
  }

  /** Handles one incident transition: at most one Alert for each, in one transaction. */
  function NotifyTransition(db: Db, e: Id, alert: Id, now: Time): (Db, Q.Answer)
    requires e in db.queue.issued && db.queue.issued[e].IncidentTransitioned?
  {
    var p := db.queue.issued[e];
    if e in db.queue.processed then (db, Q.Handled)
    else if !HasFact(db.incidents, p) then (db, INVALID)
    else if (p.incident, p.version) in db.alerts then (db, FAULT)
    else
      (db.(alerts := db.alerts[(p.incident, p.version) :=
             Alert(alert, p.monitor, p.incident, p.version, p.change, p.at, now, e)],
           queue := Q.Mark(db.queue, e)),
       Q.Handled)
  }

  // ---------------------------------------------------------------------------------------------
  // Runs
  // ---------------------------------------------------------------------------------------------

  datatype Step =
    | PutMonitor(m: Id, monitor: Monitor)
    | RecordRun(run: Id, row: RunRow, event: Id, at: Time)
    | Claim(holder: Id, at: Time, expires: Time, visible: seq<Id>, limit: nat)
    | Handle(e: Id, holder: Id, health: HealthIds, ids: IncidentIds, alert: Id, at: Time)
    | Answer(e: Id, holder: Id, answer: Q.Answer)
    | Settle(e: Id, holder: Id, hash: nat)
    | Sweep(m: Id, version: int, event: Id, at: Time, ceiling: Time)
    | Ack(m: Id, incident: Id, at: Time)

  /** A worker runs the handler of the entry it claimed; a confirmation request touches no row here. */
  function Handler(db: Db, s: Step): (Db, Q.Answer)
    requires s.Handle? && s.e in db.queue.issued
  {
    match db.queue.issued[s.e]
    case RunRecorded(_, _, _, _, _, _, _) => EvaluateRun(db, s.e, s.health, s.at)
    case HealthTransitioned(_, _, _, _) => ProjectTransition(db, s.e, s.ids, s.at)
    case IncidentTransitioned(_, _, _, _, _) => NotifyTransition(db, s.e, s.alert, s.at)
    case ConfirmationRequested(_, _, _, _, _, _) => (db, Q.Handled)
  }

  function Next(db: Db, s: Step): Db {
    match s
    case PutMonitor(m, row) => db.(monitors := db.monitors[m := row])
    case RecordRun(run, row, event, now) =>
      db.(runs := db.runs[run := row],
          queue := Q.Issue(db.queue, event,
                           RunRecorded(run, row.monitor, row.revision, row.location, row.kind,
                                       row.outcome, row.scheduledFor), now))
    case Claim(holder, now, expires, visible, limit) =>
      db.(queue := Q.Apply(db.queue, Q.Claiming(holder, now, expires, visible, limit)))
    case Handle(e, holder, _, _, _, _) =>
      if e !in db.queue.issued then db
      else
        var (after, answer) := Handler(db, s);
        after.(queue := Q.Reply(after.queue, e, holder, answer))
    case Answer(e, holder, answer) => db.(queue := Q.Reply(db.queue, e, holder, answer))
    case Settle(e, holder, hash) => db.(queue := Q.Settle(db.queue, e, holder, hash))
    case Sweep(m, version, event, now, ceiling) =>
      SweepStale(db, m, version, event, now, ceiling)
    case Ack(m, incident, now) => Acknowledge(db, m, incident, now).0
  }

  ghost predicate FreshEvent(db: Db, id: Id) { id != "" && id !in db.queue.issued }

  /**
   * What a step may assume: identifiers and holder tokens are new, a recorded Run belongs to a
   * known Monitor, was skipped or has finished and is recorded once, revisions count from one, only a claimed
   * entry is handled, and a handler that fails before committing answers with a transient failure;
   * a confirmation request is answered in any way.
   */
  ghost predicate Enabled(db: Db, s: Step) {
    match s
    case PutMonitor(m, row) => m != "" && row.latestRevision >= 1
    case RecordRun(run, row, event, _) =>
      && run != "" && run !in db.runs && row.monitor in db.monitors && FreshEvent(db, event)
      && row.revision >= 1 && (row.finishedAt.Some? || row.outcome.Skipped?)
    case Claim(holder, now, expires, _, _) => holder !in db.queue.holders && now < expires
    case Handle(e, holder, h, i, _, _) =>
      && (e, holder) in db.queue.claims && e in db.queue.issued && e != ""
      && h.candidate != "" && h.candidate !in db.candidates && i.incident !in db.home
      && FreshEvent(db, h.confirmationEvent) && FreshEvent(db, h.transitionEvent)
      && h.confirmationEvent != h.transitionEvent && FreshEvent(db, i.alertEvent)
    case Answer(e, holder, answer) =>
      && (e, holder) in db.queue.claims && e in db.queue.issued
      && (db.queue.issued[e].ConfirmationRequested?
          || answer == FAULT || answer == Q.Failed(Q.HandlerCancelled, false))
    case Settle(_, _, _) => true
    case Sweep(_, _, event, _, _) => FreshEvent(db, event)
    case Ack(_, _, _) => true
  }

  ghost predicate Legal(db: Db, steps: seq<Step>)
    decreases |steps|
  {
    steps == [] || (Enabled(db, steps[0]) && Legal(Next(db, steps[0]), steps[1..]))
  }

  function Run(db: Db, steps: seq<Step>): Db
    decreases |steps|
  {
    if steps == [] then db else Run(Next(db, steps[0]), steps[1..])
  }

  // ---------------------------------------------------------------------------------------------
  // The reference: a plain fold over the log, in order
  // ---------------------------------------------------------------------------------------------

  /** One outage: the version that opened it and the version that resolved it, if any did. */
  datatype Episode = Episode(openedBy: int, resolvedBy: Option<int>)

  predicate Ongoing(eps: seq<Episode>) { eps != [] && eps[|eps| - 1].resolvedBy.None? }

  function FoldStep(eps: seq<Episode>, t: R.Transition, archived: bool): seq<Episode> {
    if t.after.Down? && !archived && !Ongoing(eps) then eps + [Episode(t.version, None)]
    else if t.after.Healthy? && Ongoing(eps) then
      eps[..|eps| - 1] + [eps[|eps| - 1].(resolvedBy := Some(t.version))]
    else eps
  }

  function Fold(log: seq<R.Transition>, archived: seq<bool>): seq<Episode>
    requires |log| == |archived|
  {
    if log == [] then []
    else
      var n := |log| - 1;
      FoldStep(Fold(log[..n], archived[..n]), log[n], archived[n])
  }

  function Episodes(incidents: seq<Incident>): seq<Episode> {
    seq(|incidents|, k requires 0 <= k < |incidents| =>
      Episode(incidents[k].openedBy, incidents[k].resolvedBy))
  }
}
