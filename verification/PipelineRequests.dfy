/**
 * Every health candidate has asked for its confirmation: in every run each candidate has exactly one
 * request event, which copies it, and there are no other requests.
 */
module PipelineRequests {
  import opened Common
  import opened Events
  import opened Pipeline
  import opened PipelineInv
  import PipelineProjection
  import PipelineRuns
  import PipelineSteps
  import H = Health
  import R = HealthRuns
  import Q = Outbox

  // ---------------------------------------------------------------------------------------------
  // The invariant
  // ---------------------------------------------------------------------------------------------

  /** What a candidate's request says. */
  ghost predicate AsksFor(p: Payload, c: H.Candidate) {
    p == ConfirmationRequested(c.id, c.monitor, c.revision, c.triggeringRun, c.requestedAt, c.expected)
  }

  ghost predicate Asked(c: H.Candidate, issued: map<Id, Payload>) {
    exists e :: e in issued && AsksFor(issued[e], c)
  }

  /** The request of a candidate that is there. */
  ghost predicate IsRequest(p: Payload, candidates: map<Id, H.Candidate>) {
    p.ConfirmationRequested? && p.candidate in candidates && AsksFor(p, candidates[p.candidate])
  }

  ghost predicate SameCandidate(issued: map<Id, Payload>, e: Id, f: Id) {
    && e in issued && f in issued
    && issued[e].ConfirmationRequested? && issued[f].ConfirmationRequested?
    && issued[e].candidate == issued[f].candidate
  }

  ghost predicate Requests(candidates: map<Id, H.Candidate>, issued: map<Id, Payload>) {
    && (forall id :: id in candidates ==> Asked(candidates[id], issued))
    && (forall e :: e in issued && issued[e].ConfirmationRequested? ==>
          IsRequest(issued[e], candidates))
    && (forall e, f :: SameCandidate(issued, e, f) ==> e == f)
  }

  /** Another event is another event. */
  lemma OtherEvent(candidates: map<Id, H.Candidate>, issued: map<Id, Payload>, e: Id, p: Payload)
    requires Requests(candidates, issued) && e !in issued && !p.ConfirmationRequested?
    ensures Requests(candidates, issued[e := p])
  {
    var after := issued[e := p];
    forall id | id in candidates ensures Asked(candidates[id], after) {
      assert Asked(candidates[id], issued);
      var f :| f in issued && AsksFor(issued[f], candidates[id]);
      assert AsksFor(after[f], candidates[id]);
    }
    forall a, b | SameCandidate(after, a, b) ensures a == b {
      assert SameCandidate(issued, a, b);
    }
  }

  /** A new candidate comes with its own request. */
  lemma NewCandidate(candidates: map<Id, H.Candidate>, issued: map<Id, Payload>, c: H.Candidate,
                     e: Id, p: Payload)
    requires Requests(candidates, issued) && e !in issued && c.id !in candidates && AsksFor(p, c)
    ensures Requests(candidates[c.id := c], issued[e := p])
  {
    var after, all := issued[e := p], candidates[c.id := c];
    forall id | id in all ensures Asked(all[id], after) {
      if id == c.id {
        assert AsksFor(after[e], c);
      } else {
        assert Asked(candidates[id], issued);
        var f :| f in issued && AsksFor(issued[f], candidates[id]);
        assert AsksFor(after[f], all[id]);
      }
    }
    forall a, b | SameCandidate(after, a, b) ensures a == b {
      if a != e && b != e { assert SameCandidate(issued, a, b); }
      if a != e { assert IsRequest(issued[a], candidates); }
      if b != e { assert IsRequest(issued[b], candidates); }
    }
  }

  /** Ending a candidate does not change what it asked for. */
  lemma EndedCandidate(candidates: map<Id, H.Candidate>, issued: map<Id, Payload>,
                       c: Option<H.Candidate>)
    requires Requests(candidates, issued)
    ensures Requests(Completed(candidates, c), issued)
  {
    var after := Completed(candidates, c);
    forall id | id in after ensures Asked(after[id], issued) {
      assert Asked(candidates[id], issued);
      var f :| f in issued && AsksFor(issued[f], candidates[id]);
      assert AsksFor(issued[f], after[id]);
    }
    forall e | e in issued && issued[e].ConfirmationRequested? ensures IsRequest(issued[e], after) {
      assert IsRequest(issued[e], candidates);
    }
  }

  // ---------------------------------------------------------------------------------------------
  // Every step keeps it
  // ---------------------------------------------------------------------------------------------

  /** The part of the state that requests are about. */
  ghost predicate RequestsOf(db: Db) { Requests(db.candidates, db.queue.issued) }

  lemma SameParts(db: Db, after: Db)
    requires RequestsOf(db)
    requires after.candidates == db.candidates && after.queue.issued == db.queue.issued
    ensures RequestsOf(after)
  {
  }

  lemma CommitKeepsRequests(db: Db, m: Id, f: R.Fact, d: H.Decision, ids: HealthIds, now: Time)
    requires RequestsOf(db)
    requires d.created.Some? ==>
               && d.created.value.id !in db.candidates && d.created.value.requestedAt == now
               && ids.confirmationEvent !in db.queue.issued
               && ids.confirmationEvent != ids.transitionEvent
    requires ids.transitionEvent !in db.queue.issued
    ensures RequestsOf(Commit(db, m, f, d, ids, now))
  {
    hide Requests;
    EndedCandidate(db.candidates, db.queue.issued, d.completed);
    var ended := Completed(db.candidates, d.completed);
    var candidates, issued := ended, db.queue.issued;
    if d.created.Some? {
      var c := d.created.value;
      var p := ConfirmationRequested(c.id, c.monitor, c.revision, c.triggeringRun, now, c.expected);
      NewCandidate(ended, issued, c, ids.confirmationEvent, p);
      candidates, issued := candidates[c.id := c], issued[ids.confirmationEvent := p];
    }
    if d.transitioned {
      OtherEvent(candidates, issued, ids.transitionEvent,
                 HealthTransitioned(m, d.snapshot.version, d.previous, d.snapshot.state));
    }
    hide Completed;
  }

  lemma EvidenceKeepsRequests(db: Db, s: Step)
    requires Inv(db) && RequestsOf(db) && s.Handle? && Enabled(db, s)
    requires s.e in db.queue.issued && db.queue.issued[s.e].RunRecorded?
    ensures RequestsOf(EvaluateRun(db, s.e, s.health, s.at).0)
  {
    hide Inv, H.Judge, Conflicts, Commit, Completed, InputOf, Current, Announces, RequestsOf;
    hide R.HealthInv, R.Chain;
    var p := db.queue.issued[s.e];
    SameParts(db, db.(queue := Q.Mark(db.queue, s.e)));
    PipelineSteps.RunIsThere(db, s.e);
    var x := InputOf(db, s.e, p.run, s.health, s.at);
    var v := H.Judge(Current(db, p.monitor, s.at), x);
    if v.Ok? {
      RunRaises(db, s);
      CommitKeepsRequests(db, p.monitor, R.Seen(x), v.value, s.health, s.at);
      var after := Commit(db, p.monitor, R.Seen(x), v.value, s.health, s.at);
      SameParts(after, after.(queue := Q.Mark(after.queue, s.e)));
    }
  }

  /** A candidate is raised under the new identifier, at the instant of the evaluation. */
  lemma RunRaises(db: Db, s: Step)
    requires Inv(db) && s.Handle? && Enabled(db, s)
    requires s.e in db.queue.issued && db.queue.issued[s.e].RunRecorded?
    requires db.queue.issued[s.e].run in db.runs
    requires db.runs[db.queue.issued[s.e].run].monitor == db.queue.issued[s.e].monitor
    requires db.queue.issued[s.e].monitor in db.monitors && db.queue.issued[s.e].monitor != ""
    ensures var p := db.queue.issued[s.e];
            var v := H.Judge(Current(db, p.monitor, s.at), InputOf(db, s.e, p.run, s.health, s.at));
            v.Ok? && v.value.created.Some? ==>
              v.value.created.value.id == s.health.candidate
              && v.value.created.value.requestedAt == s.at
  {
    hide Inv, H.Judge, R.HealthInv, R.Chain, Current;
    var p := db.queue.issued[s.e];
    var x := InputOf(db, s.e, p.run, s.health, s.at);
    PipelineSteps.CurrentInv(db, p.monitor, s.at);
    var c := Current(db, p.monitor, s.at);
    if H.Judge(c, x).Ok? { R.CandidateFlow(c, R.Seen(x)); }
  }

  lemma ProjectedKeepsRequests(db: Db, m: Id, c: Change, ids: IncidentIds, now: Time)
    requires RequestsOf(db) && ids.alertEvent !in db.queue.issued
    requires c.Replaces? ==> c.k < |Rows(db.incidents, m)|
    ensures RequestsOf(Projected(db, m, c, ids, now))
  {
    hide Requests, Changed;
    var issued := Projected(db, m, c, ids, now).queue.issued;
    if !c.Stays? {
      OtherEvent(db.candidates, db.queue.issued, ids.alertEvent, issued[ids.alertEvent]);
    }
  }

  lemma TransitionKeepsRequests(db: Db, s: Step)
    requires RequestsOf(db) && s.Handle? && Enabled(db, s)
    requires s.e in db.queue.issued && db.queue.issued[s.e].HealthTransitioned?
    ensures RequestsOf(ProjectTransition(db, s.e, s.ids, s.at).0)
  {
    hide ChangeOf, Projected, ArchivedNow, RequestsOf;
    var p := db.queue.issued[s.e];
    var m := p.monitor;
    SameParts(db, db.(queue := Q.Mark(db.queue, s.e)));
    if 1 <= p.version <= |Rows(db.log, m)| {
      var c := ChangeOf(Rows(db.incidents, m), db.log[m][p.version - 1], ArchivedNow(db, m), s.ids);
      ProjectedKeepsRequests(db, m, c, s.ids, s.at);
      var mid := Projected(db, m, c, s.ids, s.at);
      SameParts(mid, mid.(cursor := db.cursor[m := p.version],
                          archived := db.archived[m := Rows(db.archived, m) + [ArchivedNow(db, m)]],
                          queue := Q.Mark(mid.queue, s.e)));
    }
  }

  lemma AnnouncementKeepsRequests(db: Db, s: Step)
    requires RequestsOf(db) && s.Handle?
    requires s.e in db.queue.issued && db.queue.issued[s.e].IncidentTransitioned?
    ensures RequestsOf(NotifyTransition(db, s.e, s.alert, s.at).0)
  {
    hide Requests, HasFact;
  }

  lemma HandleKeepsRequests(db: Db, s: Step)
    requires Inv(db) && RequestsOf(db) && s.Handle? && Enabled(db, s)
    ensures RequestsOf(Next(db, s))
  {
    hide Inv, RequestsOf, EvaluateRun, ProjectTransition, NotifyTransition;
    match db.queue.issued[s.e] {
      case RunRecorded(_, _, _, _, _, _, _) => EvidenceKeepsRequests(db, s);
      case HealthTransitioned(_, _, _, _) => TransitionKeepsRequests(db, s);
      case IncidentTransitioned(_, _, _, _, _) => AnnouncementKeepsRequests(db, s);
      case ConfirmationRequested(_, _, _, _, _, _) =>
    }
    var (after, answer) := Handler(db, s);
    SameParts(after, after.(queue := Q.Reply(after.queue, s.e, s.holder, answer)));
  }

  lemma SweepKeepsRequests(db: Db, s: Step)
    requires Inv(db) && RequestsOf(db) && s.Sweep? && Enabled(db, s)
    ensures RequestsOf(Next(db, s))
  {
    hide Inv, RequestsOf, Commit;
    if IsStale(db, s.m, s.version, s.at, s.ceiling) {
      hide IsStale;
      var v := H.Sweep(db.health[s.m], s.at);
      if v.Ok? {
        assert v.value.created.None?;
        hide H.Sweep;
        CommitKeepsRequests(db, s.m, R.Swept(s.at), v.value, HealthIds("", "", s.event), s.at);
      }
    }
  }

  lemma RecordKeepsRequests(db: Db, s: Step)
    requires RequestsOf(db) && s.RecordRun? && Enabled(db, s)
    ensures RequestsOf(Next(db, s))
  {
    hide Requests;
    OtherEvent(db.candidates, db.queue.issued, s.event,
               RunRecorded(s.run, s.row.monitor, s.row.revision, s.row.location, s.row.kind,
                           s.row.outcome, s.row.scheduledFor));
  }

  lemma OtherKeepsRequests(db: Db, s: Step)
    requires RequestsOf(db) && !s.Handle? && !s.Sweep? && !s.RecordRun?
    ensures RequestsOf(Next(db, s))
  {
    OthersKeepParts(db, s);
    hide RequestsOf, Next;
    SameParts(db, Next(db, s));
  }

  lemma OthersKeepParts(db: Db, s: Step)
    requires !s.Handle? && !s.Sweep? && !s.RecordRun?
    ensures Next(db, s).candidates == db.candidates
    ensures Next(db, s).queue.issued == db.queue.issued
  {
    if s.Settle? {
      Q.SettleEffects(db.queue, s.e, s.holder, s.hash);
      hide Q.Settle;
    } else if s.Ack? {
      AcknowledgeKeepsParts(db, s.m, s.incident, s.at);
      hide Acknowledge;
    } else if s.Claim? {
      ClaimKeepsIssued(db.queue, s);
      hide Q.Apply;
    }
  }

  lemma AcknowledgeKeepsParts(db: Db, m: Id, incident: Id, now: Time)
    ensures var after := Acknowledge(db, m, incident, now).0;
            after.candidates == db.candidates && after.queue == db.queue
  {
    hide FindIncident, Acknowledging;
  }

  lemma ClaimKeepsIssued(q: Q.Queue, s: Step)
    requires s.Claim?
    ensures Q.Apply(q, Q.Claiming(s.holder, s.at, s.expires, s.visible, s.limit)).issued == q.issued
  {
    hide Q.Picked;
  }

  lemma NextKeepsRequests(db: Db, s: Step)
    requires Inv(db) && RequestsOf(db) && Enabled(db, s)
    ensures RequestsOf(Next(db, s))
  {
    hide Inv, RequestsOf;
    if s.Handle? {
      HandleKeepsRequests(db, s);
    } else if s.Sweep? {
      SweepKeepsRequests(db, s);
    } else if s.RecordRun? {
      RecordKeepsRequests(db, s);
    } else {
      OtherKeepsRequests(db, s);
    }
    hide Next, Enabled;
  }

  lemma {:induction false} RunKeepsRequests(db: Db, steps: seq<Step>)
    requires Inv(db) && RequestsOf(db) && Legal(db, steps)
    ensures RequestsOf(Run(db, steps))
    decreases |steps|
  {
    hide Inv, RequestsOf, Next, Enabled;
    if steps != [] {
      NextKeepsRequests(db, steps[0]);
      PipelineProjection.NextKeepsInv(db, steps[0]);
      RunKeepsRequests(Next(db, steps[0]), steps[1..]);
    }
  }

  // ---------------------------------------------------------------------------------------------
  // What every run guarantees
  // ---------------------------------------------------------------------------------------------

  lemma Reached(steps: seq<Step>)
    requires Legal(Empty(), steps)
    ensures Inv(Run(Empty(), steps)) && RequestsOf(Run(Empty(), steps))
  {
    EmptyInv();
    assert RequestsOf(Empty());
    hide Inv, RequestsOf;
    PipelineRuns.Reached(steps);
    RunKeepsRequests(Empty(), steps);
  }

  predicate IsRequestFor(p: Payload, candidate: Id) {
    p.ConfirmationRequested? && p.candidate == candidate
  }

  /**
   * In every run each candidate has exactly one confirmation request, which copies it, and the request
   * is live, processed or dead-lettered: it is never lost.
   */
  lemma CandidatesAreRequested(steps: seq<Step>, id: Id) returns (e: Id)
    requires Legal(Empty(), steps) && id in Run(Empty(), steps).candidates
    ensures var db := Run(Empty(), steps);
            var c := db.candidates[id];
            && c.id == id && e in db.queue.issued
            && db.queue.issued[e]
               == ConfirmationRequested(id, c.monitor, c.revision, c.triggeringRun, c.requestedAt,
                                        c.expected)
            && (e in db.queue.entries || e in db.queue.processed || e in db.queue.dead)
            && forall f :: f in db.queue.issued && IsRequestFor(db.queue.issued[f], id) ==> f == e
  {
    hide Legal, Run;
    Reached(steps);
    var db := Run(Empty(), steps);
    CandidatesAreNamed(db, id);
    hide Inv;
    assert Asked(db.candidates[id], db.queue.issued);
    e :| e in db.queue.issued && AsksFor(db.queue.issued[e], db.candidates[id]);
    EventIsSomewhere(db, e);
    forall f | f in db.queue.issued && IsRequestFor(db.queue.issued[f], id) ensures f == e
    {
      assert SameCandidate(db.queue.issued, e, f);
    }
  }

  lemma CandidatesAreNamed(db: Db, id: Id)
    requires Inv(db) && id in db.candidates
    ensures db.candidates[id].id == id
  {
    hide Q.Inv, Known, HealthTable, ProjectionTable, Homes, TransitionEvents, IncidentEvents;
    hide RunEvents, Markers, Answers, NoRefusal, AlertsInv;
  }

  lemma EventIsSomewhere(db: Db, e: Id)
    requires Inv(db) && e in db.queue.issued
    ensures e in db.queue.entries || e in db.queue.processed || e in db.queue.dead
  {
    hide Known, HealthTable, CandidatesInv, ProjectionTable, Homes, TransitionEvents, IncidentEvents;
    hide RunEvents, Markers, Answers, NoRefusal, AlertsInv, Q.Bounded, Q.LeaseMatchesClaim;
  }

  /** In every run a confirmation request names a candidate that is there, and copies it. */
  lemma RequestsNameCandidates(steps: seq<Step>, e: Id)
    requires Legal(Empty(), steps) && e in Run(Empty(), steps).queue.issued
    requires Run(Empty(), steps).queue.issued[e].ConfirmationRequested?
    ensures var db := Run(Empty(), steps);
            var p := db.queue.issued[e];
            && p.candidate in db.candidates
            && var c := db.candidates[p.candidate];
               && p.monitor == c.monitor && p.revision == c.revision && p.expected == c.expected
               && p.triggeringRun == c.triggeringRun && p.requestedFor == c.requestedAt
  {
    hide Legal, Run;
    Reached(steps);
    hide Inv;
    var db := Run(Empty(), steps);
    assert IsRequest(db.queue.issued[e], db.candidates);
  }
}
