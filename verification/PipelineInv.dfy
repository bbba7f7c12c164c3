/**
 * The invariant of the pipeline. Each part names just the tables it is about, so a transaction
 * only has to account for the parts whose tables it writes.
 */
module PipelineInv {
  import opened Common
  import opened Events
  import opened Pipeline
  import H = Health
  import R = HealthRuns
  import Q = Outbox

  // ---------------------------------------------------------------------------------------------
  // Health
  // ---------------------------------------------------------------------------------------------

  /** A fact a Monitor was judged on copies a Run that was recorded. */
  ghost predicate FromRun(runs: map<Id, RunRow>, m: Id, f: R.Fact) {
    f.Seen? ==>
      && f.x.run in runs
      && var r := runs[f.x.run];
         && r.monitor == m && f.x.kind == r.kind && f.x.outcome == r.outcome && f.x.code == r.code
         && f.x.revision == r.revision && f.x.scheduledFor == r.scheduledFor
         && f.x.candidate == r.candidate
  }

  function Lookup<V>(table: map<Id, V>, m: Id): Option<V> {
    if m in table then Some(table[m]) else None
  }

  /** A Monitor's health and log are what its history of facts leads to. */
  ghost predicate HealthRow(
    m: Id, health: Option<H.Snapshot>, log: seq<R.Transition>, t: seq<R.Fact>,
    runs: map<Id, RunRow>)
  {
    && (if t == [] then health.None? else m != "" && health == Some(R.Final(m, t)))
    && log == R.LogOf(m, t)
    && forall k :: 0 <= k < |t| ==> FromRun(runs, m, t[k])
  }

  ghost predicate HealthTable(
    health: map<Id, H.Snapshot>, log: map<Id, seq<R.Transition>>, facts: map<Id, seq<R.Fact>>,
    runs: map<Id, RunRow>)
  {
    forall m :: HealthRow(m, Lookup(health, m), Rows(log, m), Rows(facts, m), runs)
  }

  /** Monitors and Runs that other rows name exist and satisfy their own constraints. */
  ghost predicate Known(
    monitors: map<Id, Monitor>, runs: map<Id, RunRow>, health: map<Id, H.Snapshot>)
  {
    && "" !in monitors && "" !in runs
    && (forall m :: m in monitors ==> monitors[m].latestRevision >= 1)
    && (forall m :: m in health ==> m in monitors)
    && (forall r :: r in runs ==>
          && runs[r].monitor in monitors && runs[r].revision >= 1
          && (runs[r].finishedAt.Some? || runs[r].outcome.Skipped?))
  }

  ghost predicate FromEvent(c: H.Candidate, processed: set<Id>, issued: map<Id, Payload>) {
    && c.triggeringEvent in processed && c.triggeringEvent in issued
    && issued[c.triggeringEvent].RunRecorded?
    && issued[c.triggeringEvent].run == c.triggeringRun
  }

  ghost predicate PendingInHealth(c: H.Candidate, health: map<Id, H.Snapshot>) {
    c.monitor in health && (c.state.Pending? <==> health[c.monitor].candidate == Some(c))
  }

  /** A candidate row is pending exactly when it is the one its Monitor's health names. */
  ghost predicate CandidatesInv(
    candidates: map<Id, H.Candidate>, health: map<Id, H.Snapshot>, processed: set<Id>,
    issued: map<Id, Payload>)
  {
    && "" !in candidates
    && (forall id :: id in candidates ==> candidates[id].id == id)
    && (forall id :: id in candidates ==> FromEvent(candidates[id], processed, issued))
    && (forall id :: id in candidates ==> PendingInHealth(candidates[id], health))
    && (forall m :: m in health && health[m].candidate.Some? ==>
          var c := health[m].candidate.value;
          c.monitor == m && c.id in candidates && candidates[c.id] == c)
  }

  // ---------------------------------------------------------------------------------------------
  // Incidents
  // ---------------------------------------------------------------------------------------------

  function Kinds(timeline: seq<Entry>): seq<IncidentKind> {
    seq(|timeline|, k requires 0 <= k < |timeline| => timeline[k].kind)
  }

  /** The only shapes of a timeline, one for each state. */
  ghost predicate Shape(state: IncidentState, kinds: seq<IncidentKind>) {
    match state
    case Open => kinds == [Opened]
    case Acked => kinds == [Opened, Acknowledged]
    case Closed => kinds == [Opened, Resolved] || kinds == [Opened, Acknowledged, Resolved]
  }

  /** An Incident copies the transitions that opened and resolved it and counts its timeline. */
  ghost predicate IncidentInv(i: Incident, log: seq<R.Transition>) {
    && i.version == |i.timeline| && Shape(i.state, Kinds(i.timeline)) && |i.timeline| >= 1
    && (forall k :: 0 <= k < |i.timeline| ==> i.timeline[k].version == k + 1)
    && 1 <= i.openedBy <= |log| && log[i.openedBy - 1].after.Down?
    && i.timeline[0].fact == Some(log[i.openedBy - 1])
    && i.timeline[0].at == i.createdAt == log[i.openedBy - 1].at
    && (i.state.Closed? <==> i.resolvedBy.Some?)
    && (i.resolvedBy.Some? ==>
          && i.openedBy < i.resolvedBy.value <= |log|
          && var t := log[i.resolvedBy.value - 1];
             && t.after.Healthy?
             && i.timeline[i.version - 1].fact == Some(t)
             && i.timeline[i.version - 1].at == t.at && i.resolvedAt == Some(t.at))
  }

  /** The cursor is behind the log, and the Incidents are the fold of the log up to the cursor. */
  ghost predicate ProjectionRow(
    log: seq<R.Transition>, cursor: int, archived: seq<bool>, incidents: seq<Incident>)
  {
    && 0 <= cursor <= |log| && |archived| == cursor
    && Episodes(incidents) == Fold(log[..cursor], archived)
    && (forall k :: 0 <= k < |incidents| ==>
          IncidentInv(incidents[k], log) && incidents[k].openedBy <= cursor)
    && (forall k :: 0 <= k < |incidents| - 1 ==> incidents[k].state.Closed?)
  }

  ghost predicate ProjectionTable(
    log: map<Id, seq<R.Transition>>, cursor: map<Id, int>, archived: map<Id, seq<bool>>,
    incidents: map<Id, seq<Incident>>)
  {
    forall m :: ProjectionRow(Rows(log, m), Cursor(cursor, m), Rows(archived, m),
                              Rows(incidents, m))
  }

  ghost predicate IsHome(
    incidents: map<Id, seq<Incident>>, home: map<Id, (Id, nat)>, m: Id, k: int)
  {
    0 <= k < |Rows(incidents, m)| ==>
      && Rows(incidents, m)[k].id in home && home[Rows(incidents, m)[k].id] == (m, k)
  }

  /** No two Incidents share an identifier. */
  ghost predicate Homes(incidents: map<Id, seq<Incident>>, home: map<Id, (Id, nat)>) {
    forall m, k :: IsHome(incidents, home, m, k)
  }

  // ---------------------------------------------------------------------------------------------
  // Events
  // ---------------------------------------------------------------------------------------------

  ghost predicate TransitionEvent(
    log: map<Id, seq<R.Transition>>, announced: map<(Id, int), Id>, issued: map<Id, Payload>,
    m: Id, v: int)
  {
    && 1 <= v <= |Rows(log, m)|
    && (m, v) in announced && announced[(m, v)] in issued
    && issued[announced[(m, v)]]
       == HealthTransitioned(m, v, log[m][v - 1].before, log[m][v - 1].after)
  }

  /** Every transition has its event, and every transition event announces a transition. */
  ghost predicate TransitionEvents(
    log: map<Id, seq<R.Transition>>, announced: map<(Id, int), Id>, issued: map<Id, Payload>)
  {
    && (forall m, v {:trigger TransitionEvent(log, announced, issued, m, v)} ::
          1 <= v <= |Rows(log, m)| ==> TransitionEvent(log, announced, issued, m, v))
    && (forall e :: e in issued && issued[e].HealthTransitioned? ==>
          var p := issued[e];
          && TransitionEvent(log, announced, issued, p.monitor, p.version)
          && announced[(p.monitor, p.version)] == e)
  }

  /** The timeline row `v` of the `k`-th Incident of a Monitor. */
  ghost predicate IsRow(incidents: map<Id, seq<Incident>>, m: Id, k: int, v: int) {
    && 0 <= k < |Rows(incidents, m)|
    && 1 <= v <= |Rows(incidents, m)[k].timeline|
  }

  function Row(incidents: map<Id, seq<Incident>>, m: Id, k: int, v: int): Entry
    requires IsRow(incidents, m, k, v)
  {
    Rows(incidents, m)[k].timeline[v - 1]
  }

  function RowPayload(incidents: map<Id, seq<Incident>>, m: Id, k: int, v: int): Payload
    requires IsRow(incidents, m, k, v)
  {
    var t := Row(incidents, m, k, v);
    IncidentTransitioned(m, Rows(incidents, m)[k].id, v, t.kind, t.at)
  }

  /** An opening or a resolution has an event that announces it. */
  ghost predicate RowIsAnnounced(
    incidents: map<Id, seq<Incident>>, issued: map<Id, Payload>, m: Id, k: int, v: int)
  {
    IsRow(incidents, m, k, v) && !Row(incidents, m, k, v).kind.Acknowledged? ==>
      && Row(incidents, m, k, v).event in issued
      && issued[Row(incidents, m, k, v).event] == RowPayload(incidents, m, k, v)
  }

  /** An incident event announces an opening or a resolution, which names the event back. */
  ghost predicate AnnouncesRow(
    incidents: map<Id, seq<Incident>>, home: map<Id, (Id, nat)>, e: Id, p: Payload)
    requires p.IncidentTransitioned?
  {
    && p.incident in home && home[p.incident].0 == p.monitor
    && IsRow(incidents, p.monitor, home[p.incident].1, p.version)
    && Row(incidents, p.monitor, home[p.incident].1, p.version).event == e
    && !p.change.Acknowledged?
    && RowPayload(incidents, p.monitor, home[p.incident].1, p.version) == p
  }

  ghost predicate IncidentEvents(
    incidents: map<Id, seq<Incident>>, home: map<Id, (Id, nat)>, issued: map<Id, Payload>)
  {
    && (forall m, k, v :: RowIsAnnounced(incidents, issued, m, k, v))
    && (forall e :: e in issued && issued[e].IncidentTransitioned? ==>
          AnnouncesRow(incidents, home, e, issued[e]))
  }

  ghost predicate SameRun(issued: map<Id, Payload>, e: Id, e': Id) {
    && e in issued && e' in issued && issued[e].RunRecorded? && issued[e'].RunRecorded?
    && issued[e].run == issued[e'].run
  }

  /** Every recorded Run has at most one event, and the event copies the Run. */
  ghost predicate RunEvents(runs: map<Id, RunRow>, issued: map<Id, Payload>) {
    && (forall e :: e in issued && issued[e].RunRecorded? ==>
          issued[e].run in runs && Announces(issued[e], runs[issued[e].run]))
    && (forall e, e' :: SameRun(issued, e, e') ==> e == e')
  }

  /** A marker means that the event's effect is committed. */
  ghost predicate Effect(p: Payload, cursor: map<Id, int>, alerts: map<(Id, int), Alert>) {
    && (p.HealthTransitioned? ==> p.version <= Cursor(cursor, p.monitor))
    && (p.IncidentTransitioned? ==> (p.incident, p.version) in alerts)
  }

  ghost predicate Markers(
    processed: set<Id>, issued: map<Id, Payload>, cursor: map<Id, int>,
    alerts: map<(Id, int), Alert>)
  {
    forall e :: e in processed && e in issued ==> Effect(issued[e], cursor, alerts)
  }

  /** A worker that was told its event is handled finds the event's marker. */
  ghost predicate Answers(
    answers: map<(Id, Id), Q.Answer>, issued: map<Id, Payload>, processed: set<Id>)
  {
    forall k :: k in answers && answers[k].Handled? ==>
      k.0 in issued && (issued[k.0].ConfirmationRequested? || k.0 in processed)
  }

  /** The only refusals a worker ever reports on events other than confirmation requests. */
  ghost predicate NoRefusal(answers: map<(Id, Id), Q.Answer>, issued: map<Id, Payload>) {
    forall k :: k in answers && k.0 in issued && !issued[k.0].ConfirmationRequested? ==>
      answers[k] != INVALID
  }

  /** Each Alert was made by exactly one event, which announces the fact the Alert copies. */
  ghost predicate AlertsInv(
    alerts: map<(Id, int), Alert>, processed: set<Id>, issued: map<Id, Payload>)
  {
    forall k :: k in alerts ==>
      var a := alerts[k];
      && a.event in processed && a.event in issued
      && k == (a.incident, a.version)
      && issued[a.event]
         == IncidentTransitioned(a.monitor, a.incident, a.version, a.kind, a.occurredAt)
  }

  ghost predicate Inv(db: Db) {
    && Q.Inv(db.queue)
    && Known(db.monitors, db.runs, db.health)
    && HealthTable(db.health, db.log, db.facts, db.runs)
    && CandidatesInv(db.candidates, db.health, db.queue.processed, db.queue.issued)
    && ProjectionTable(db.log, db.cursor, db.archived, db.incidents)
    && Homes(db.incidents, db.home)
    && TransitionEvents(db.log, db.announced, db.queue.issued)
    && IncidentEvents(db.incidents, db.home, db.queue.issued)
    && RunEvents(db.runs, db.queue.issued)
    && Markers(db.queue.processed, db.queue.issued, db.cursor, db.alerts)
    && Answers(db.queue.answers, db.queue.issued, db.queue.processed)
    && NoRefusal(db.queue.answers, db.queue.issued)
    && AlertsInv(db.alerts, db.queue.processed, db.queue.issued)
  }

  lemma EmptyTables()
    ensures HealthTable(map[], map[], map[], map[])
    ensures ProjectionTable(map[], map[], map[], map[])
    ensures Homes(map[], map[])
    ensures TransitionEvents(map[], map[], map[]) && IncidentEvents(map[], map[], map[])
  {
    assert Episodes([]) == [];
  }

  lemma EmptyInv()
    ensures Inv(Empty())
  {
    EmptyTables();
    hide HealthTable, ProjectionTable, Homes, TransitionEvents, IncidentEvents;
  }

  // ---------------------------------------------------------------------------------------------
  // Steps that only touch the queue
  // ---------------------------------------------------------------------------------------------

  /** Taking, answering and settling entries never contradicts what the other tables hold. */
  lemma QueueStep(db: Db, q: Q.Queue)
    requires Inv(db) && Q.Inv(q)
    requires q.issued == db.queue.issued && db.queue.processed <= q.processed
    requires forall e :: e in q.processed && e in q.issued && e !in db.queue.processed ==>
               Effect(q.issued[e], db.cursor, db.alerts)
    requires Answers(q.answers, q.issued, q.processed) && NoRefusal(q.answers, q.issued)
    ensures Inv(db.(queue := q))
  {
    hide Q.Inv, Known, HealthTable, ProjectionTable, Homes, TransitionEvents, IncidentEvents;
    hide RunEvents, Effect;
  }

  lemma ReplyKeepsInv(db: Db, e: Id, holder: Id, answer: Q.Answer)
    requires Inv(db) && (e, holder) in db.queue.claims && e in db.queue.issued
    requires db.queue.issued[e].ConfirmationRequested?
             || (answer != INVALID && (answer.Handled? ==> e in db.queue.processed))
    ensures Inv(db.(queue := Q.Reply(db.queue, e, holder, answer)))
  {
    Q.ApplyKeepsInv(db.queue, Q.Replying(e, holder, answer));
    hide Q.Inv;
    QueueStep(db, Q.Reply(db.queue, e, holder, answer));
  }

  lemma ClaimKeepsInv(db: Db, s: Step)
    requires Inv(db) && s.Claim? && Enabled(db, s)
    ensures Inv(Next(db, s))
  {
    var op := Q.Claiming(s.holder, s.at, s.expires, s.visible, s.limit);
    Q.ApplyKeepsInv(db.queue, op);
    hide Q.Inv;
    QueueStep(db, Q.Apply(db.queue, op));
  }

  /** A worker that settles an entry as handled was told so, so the effect is committed. */
  lemma SettleKeepsInv(db: Db, e: Id, holder: Id, hash: nat)
    requires Inv(db)
    ensures Inv(db.(queue := Q.Settle(db.queue, e, holder, hash)))
  {
    Q.SettleKeepsInv(db.queue, e, holder, hash);
    Q.SettleEffects(db.queue, e, holder, hash);
    hide Q.Settle, Q.Inv;
    QueueStep(db, Q.Settle(db.queue, e, holder, hash));
  }

  // ---------------------------------------------------------------------------------------------
  // Monitors, Runs and issued events
  // ---------------------------------------------------------------------------------------------

  lemma PutMonitorKeepsInv(db: Db, m: Id, row: Monitor)
    requires Inv(db) && m != "" && row.latestRevision >= 1
    ensures Inv(db.(monitors := db.monitors[m := row]))
  {
    hide Q.Inv, HealthTable, CandidatesInv, ProjectionTable, Homes, TransitionEvents;
    hide IncidentEvents, RunEvents, Markers, Answers, NoRefusal, AlertsInv;
  }

  /** What the tables say about issued events survives the issue of an event of another kind. */
  lemma IssueOther(db: Db, e: Id, p: Payload)
    requires e !in db.queue.issued
    ensures var after := db.queue.issued[e := p];
            && (TransitionEvents(db.log, db.announced, db.queue.issued) && !p.HealthTransitioned?
                ==> TransitionEvents(db.log, db.announced, after))
            && (IncidentEvents(db.incidents, db.home, db.queue.issued) && !p.IncidentTransitioned?
                ==> IncidentEvents(db.incidents, db.home, after))
            && (RunEvents(db.runs, db.queue.issued) && !p.RunRecorded?
                ==> RunEvents(db.runs, after))
  {
    var issued, after := db.queue.issued, db.queue.issued[e := p];
    assert forall m, v {:trigger TransitionEvent(db.log, db.announced, after, m, v)} ::
        TransitionEvent(db.log, db.announced, issued, m, v) ==>
          TransitionEvent(db.log, db.announced, after, m, v);
    assert forall m, k, v {:trigger RowIsAnnounced(db.incidents, after, m, k, v)} ::
        RowIsAnnounced(db.incidents, issued, m, k, v) ==>
          RowIsAnnounced(db.incidents, after, m, k, v);
    assert forall a, b {:trigger SameRun(after, a, b)} ::
        SameRun(after, a, b) && a != e && b != e ==> SameRun(issued, a, b);
  }

  /** The rest does not mind new events at all: no marker or answer names them yet. */
  lemma IssueAny(db: Db, e: Id, p: Payload)
    requires Q.Inv(db.queue) && e !in db.queue.issued
    ensures var issued, after := db.queue.issued, db.queue.issued[e := p];
            var marked := db.queue.processed;
            && (CandidatesInv(db.candidates, db.health, marked, issued)
                ==> CandidatesInv(db.candidates, db.health, marked, after))
            && (Markers(marked, issued, db.cursor, db.alerts)
                ==> Markers(marked, after, db.cursor, db.alerts))
            && (Answers(db.queue.answers, issued, marked)
                ==> Answers(db.queue.answers, after, marked))
            && (NoRefusal(db.queue.answers, issued) ==> NoRefusal(db.queue.answers, after))
            && (AlertsInv(db.alerts, marked, issued) ==> AlertsInv(db.alerts, marked, after))
  {
    Q.NamesAreIssued(db.queue);
    hide Q.Inv, Effect;
  }

  lemma RecordRunKeepsInv(db: Db, s: Step)
    requires Inv(db) && s.RecordRun? && Enabled(db, s)
    ensures Inv(Next(db, s))
  {
    hide Q.Inv, CandidatesInv, ProjectionTable, Homes, TransitionEvents, IncidentEvents;
    hide RunEvents, Markers, Answers, NoRefusal, AlertsInv, HealthTable;
    var p := RunRecorded(s.run, s.row.monitor, s.row.revision, s.row.location, s.row.kind,
                         s.row.outcome, s.row.scheduledFor);
    Q.ApplyKeepsInv(db.queue, Q.Issuing(s.event, p, s.at));
    IssueAny(db, s.event, p);
    IssueOther(db, s.event, p);
    RunEventIsNew(db, s);
    RunsGrow(db, s.run, s.row);
  }

  lemma RunsGrow(db: Db, run: Id, row: RunRow)
    requires HealthTable(db.health, db.log, db.facts, db.runs) && run !in db.runs
    ensures HealthTable(db.health, db.log, db.facts, db.runs[run := row])
  {
    forall m
      ensures HealthRow(m, Lookup(db.health, m), Rows(db.log, m), Rows(db.facts, m),
                        db.runs[run := row])
    {
      assert HealthRow(m, Lookup(db.health, m), Rows(db.log, m), Rows(db.facts, m), db.runs);
    }
  }

  lemma RunEventIsNew(db: Db, s: Step)
    requires Inv(db) && s.RecordRun? && Enabled(db, s)
    ensures RunEvents(Next(db, s).runs, Next(db, s).queue.issued)
  {
    hide Q.Inv, HealthTable, CandidatesInv, ProjectionTable, Homes, TransitionEvents;
    hide IncidentEvents, Markers, Answers, NoRefusal, AlertsInv;
    var issued := Next(db, s).queue.issued;
    assert forall a, b {:trigger SameRun(issued, a, b)} ::
        SameRun(issued, a, b) && a != s.event && b != s.event ==> SameRun(db.queue.issued, a, b);
  }
}
