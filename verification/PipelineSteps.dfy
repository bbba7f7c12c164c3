/** Every transaction of the pipeline keeps the invariant, and no handler ever refuses an event. */
module PipelineSteps {
  import opened Common
  import opened Events
  import opened Pipeline
  import opened PipelineInv
  import H = Health
  import R = HealthRuns
  import Q = Outbox

  /** An event may be marked once its effect is committed. */
  lemma MarkKeepsInv(db: Db, e: Id)
    requires Inv(db) && e in db.queue.issued
    requires Effect(db.queue.issued[e], db.cursor, db.alerts)
    ensures Inv(db.(queue := Q.Mark(db.queue, e)))
  {
    Q.ApplyKeepsInv(db.queue, Q.Marking(e));
    hide Q.Inv, Effect;
    QueueStep(db, Q.Mark(db.queue, e));
  }

  // ---------------------------------------------------------------------------------------------
  // Evidence to health
  // ---------------------------------------------------------------------------------------------

  lemma RequestKeepsInv(db: Db, c: Option<H.Candidate>, e: Id, now: Time)
    requires Inv(db) && e !in db.queue.issued
    ensures Inv(db.(queue := Request(db.queue, c, e, now)))
  {
    if c.Some? {
      var p := Request(db.queue, c, e, now).issued[e];
      Q.ApplyKeepsInv(db.queue, Q.Issuing(e, p, now));
      IssueAny(db, e, p);
      IssueOther(db, e, p);
      hide Q.Inv, HealthTable, CandidatesInv, ProjectionTable, Homes, TransitionEvents;
      hide IncidentEvents, RunEvents, Markers, Answers, NoRefusal, AlertsInv, Known;
    }
  }

  /** The fact a transaction judges a Monitor on, and the fresh identifiers it writes. */
  ghost predicate Judged(db: Db, m: Id, f: R.Fact, ids: HealthIds, now: Time) {
    && m in db.monitors && R.Now(f) == now && FromRun(db.runs, m, f)
    && R.Verdict(Current(db, m, now), f).Ok?
    && ids.transitionEvent !in db.queue.issued
    && (f.Swept? ==> m in db.health)
    && (f.Seen? ==>
          && f.x.newCandidate == ids.candidate && ids.candidate != ""
          && ids.candidate !in db.candidates
          && f.x.event in db.queue.processed && f.x.event in db.queue.issued
          && db.queue.issued[f.x.event].RunRecorded?
          && db.queue.issued[f.x.event].run == f.x.run
          && ids.confirmationEvent !in db.queue.issued
          && ids.confirmationEvent != ids.transitionEvent)
  }

  lemma InitialInv(m: Id, now: Time)
    requires m != ""
    ensures R.HealthInv(H.Initial(m, now))
  {
  }

  lemma RowIsSound(m: Id, h: Option<H.Snapshot>, log: seq<R.Transition>, t: seq<R.Fact>,
                   runs: map<Id, RunRow>)
    requires HealthRow(m, h, log, t, runs) && m != ""
    ensures h.Some? ==> R.HealthInv(h.value) && h.value.monitor == m && h.value.version == |log|
    ensures R.Chain(log) && (h.None? <==> t == []) && (t == [] ==> log == [])
  {
    assert t == [] ==> R.LogOf(m, t) == [];
    R.HistoryInv(m, t);
    hide R.LogOf, R.Final, R.HealthInv, R.Chain;
  }

  /** What the next fact is judged against satisfies the policy's own invariant. */
  lemma CurrentInv(db: Db, m: Id, now: Time)
    requires Inv(db) && m != ""
    ensures R.HealthInv(Current(db, m, now)) && Current(db, m, now).monitor == m
    ensures Current(db, m, now).version == |Rows(db.log, m)|
    ensures R.Chain(Rows(db.log, m))
    ensures Rows(db.facts, m) == [] <==> m !in db.health
    ensures m !in db.health ==> Rows(db.log, m) == []
  {
    hide R.HealthInv, R.Chain, HealthRow, Q.Inv, CandidatesInv, ProjectionTable, Homes;
    hide TransitionEvents, IncidentEvents, RunEvents, Markers, Answers, NoRefusal, AlertsInv;
    var h := Lookup(db.health, m);
    assert HealthRow(m, h, Rows(db.log, m), Rows(db.facts, m), db.runs);
    hide HealthTable;
    InitialInv(m, now);
    RowIsSound(m, h, Rows(db.log, m), Rows(db.facts, m), db.runs);
  }

  lemma HealthGrows(db: Db, m: Id, f: R.Fact, after: Db)
    requires HealthTable(db.health, db.log, db.facts, db.runs) && m != ""
    requires FromRun(db.runs, m, f)
    requires after.runs == db.runs && after.facts == db.facts[m := Rows(db.facts, m) + [f]]
    requires R.Verdict(Current(db, m, R.Now(f)), f).Ok?
    requires after.health
          == db.health[m := R.Verdict(Current(db, m, R.Now(f)), f).value.snapshot]
    requires Rows(after.log, m) == Rows(db.log, m) + R.Emitted(Current(db, m, R.Now(f)), f)
    requires forall n :: n != m ==> Rows(after.log, n) == Rows(db.log, n)
    ensures HealthTable(after.health, after.log, after.facts, after.runs)
  {
    hide R.Verdict, R.Emitted, R.LogOf, R.Final;
    forall n
      ensures HealthRow(n, Lookup(after.health, n), Rows(after.log, n), Rows(after.facts, n),
                        after.runs)
    {
      assert HealthRow(n, Lookup(db.health, n), Rows(db.log, n), Rows(db.facts, n), db.runs);
      if n == m { R.Extend(m, Rows(db.facts, m), f); }
    }
  }

  /** The decision about a Monitor's candidates, given the snapshot it is judged against. */
  ghost predicate Decides(db: Db, m: Id, f: R.Fact, d: H.Decision) {
    && Current(db, m, R.Now(f)).monitor == m
    && (Current(db, m, R.Now(f)).candidate.Some? ==> m in db.health)
    && R.Flows(Current(db, m, R.Now(f)), f, d)
    && (f.Seen? ==>
          && f.x.newCandidate !in db.candidates && f.x.newCandidate != ""
          && f.x.event in db.queue.processed && f.x.event in db.queue.issued
          && db.queue.issued[f.x.event].RunRecorded?
          && db.queue.issued[f.x.event].run == f.x.run)
  }

  lemma CandidateFollows(db: Db, m: Id, f: R.Fact, d: H.Decision, id: Id)
    requires CandidatesInv(db.candidates, db.health, db.queue.processed, db.queue.issued)
    requires Decides(db, m, f, d)
    requires id in Created(Completed(db.candidates, d.completed), d.created)
    ensures var c := Created(Completed(db.candidates, d.completed), d.created)[id];
            && c.id == id && PendingInHealth(c, db.health[m := d.snapshot])
            && FromEvent(c, db.queue.processed, db.queue.issued)
  {
    if id in db.candidates && !(d.created.Some? && id == d.created.value.id) {
      assert PendingInHealth(db.candidates[id], db.health);
      assert FromEvent(db.candidates[id], db.queue.processed, db.queue.issued);
    }
  }

  lemma CandidatesFollow(db: Db, m: Id, f: R.Fact, d: H.Decision)
    requires Inv(db) && Decides(db, m, f, d)
    ensures CandidatesInv(Created(Completed(db.candidates, d.completed), d.created),
                          db.health[m := d.snapshot], db.queue.processed, db.queue.issued)
  {
    hide Q.Inv, Known, HealthTable, ProjectionTable, Homes, TransitionEvents, IncidentEvents;
    hide RunEvents, Markers, Answers, NoRefusal, AlertsInv, PendingInHealth, FromEvent;
    var candidates := Created(Completed(db.candidates, d.completed), d.created);
    var health := db.health[m := d.snapshot];
    forall id | id in candidates
      ensures candidates[id].id == id && PendingInHealth(candidates[id], health)
      ensures FromEvent(candidates[id], db.queue.processed, db.queue.issued)
    {
      CandidateFollows(db, m, f, d, id);
    }
  }

  /** A longer log of one Monitor changes nothing that was projected from it. */
  lemma LogMayGrow(log: seq<R.Transition>, longer: seq<R.Transition>, cursor: int,
                   archived: seq<bool>, incidents: seq<Incident>)
    requires ProjectionRow(log, cursor, archived, incidents) && log <= longer
    ensures ProjectionRow(longer, cursor, archived, incidents)
  {
    assert log[..cursor] == longer[..cursor];
  }

  lemma ProjectionMayLag(db: Db, m: Id, rows: seq<R.Transition>)
    requires ProjectionTable(db.log, db.cursor, db.archived, db.incidents)
    ensures ProjectionTable(db.log[m := Rows(db.log, m) + rows], db.cursor, db.archived,
                            db.incidents)
  {
    var longer := db.log[m := Rows(db.log, m) + rows];
    hide ProjectionRow;
    forall n
      ensures ProjectionRow(Rows(longer, n), Cursor(db.cursor, n), Rows(db.archived, n),
                            Rows(db.incidents, n))
    {
      assert ProjectionRow(Rows(db.log, n), Cursor(db.cursor, n), Rows(db.archived, n),
                           Rows(db.incidents, n));
      LogMayGrow(Rows(db.log, n), Rows(longer, n), Cursor(db.cursor, n), Rows(db.archived, n),
                 Rows(db.incidents, n));
    }
  }

  lemma TransitionIsAnnounced(db: Db, m: Id, row: R.Transition, e: Id)
    requires TransitionEvents(db.log, db.announced, db.queue.issued)
    requires e !in db.queue.issued && row.version == |Rows(db.log, m)| + 1
    ensures TransitionEvents(
              db.log[m := Rows(db.log, m) + [row]], db.announced[(m, row.version) := e],
              db.queue.issued[e := HealthTransitioned(m, row.version, row.before, row.after)])
  {
    var log, announced := db.log[m := Rows(db.log, m) + [row]], db.announced[(m, row.version) := e];
    var issued := db.queue.issued[e := HealthTransitioned(m, row.version, row.before, row.after)];
    forall n, v | 1 <= v <= |Rows(log, n)|
      ensures TransitionEvent(log, announced, issued, n, v)
    {
      if (n, v) != (m, row.version) {
        assert TransitionEvent(db.log, db.announced, db.queue.issued, n, v);
      }
    }
  }

  /** A commit that moves the state appends one row to the log and issues its event. */
  lemma TransitionKeepsInv(db: Db, m: Id, row: R.Transition, e: Id, now: Time, h: H.Snapshot,
                           f: R.Fact, candidates: map<Id, H.Candidate>)
    requires Inv(db) && m in db.monitors && e !in db.queue.issued
    requires row.version == |Rows(db.log, m)| + 1
    requires CandidatesInv(candidates, db.health[m := h], db.queue.processed, db.queue.issued)
    requires HealthTable(db.health[m := h], db.log[m := Rows(db.log, m) + [row]],
                         db.facts[m := Rows(db.facts, m) + [f]], db.runs)
    ensures Inv(db.(
              candidates := candidates, health := db.health[m := h],
              facts := db.facts[m := Rows(db.facts, m) + [f]],
              log := db.log[m := Rows(db.log, m) + [row]],
              announced := db.announced[(m, row.version) := e],
              queue := Q.Issue(db.queue, e,
                               HealthTransitioned(m, row.version, row.before, row.after), now)))
  {
    hide Q.Inv, HealthTable, CandidatesInv, ProjectionTable, Homes, TransitionEvents;
    hide IncidentEvents, RunEvents, Markers, Answers, NoRefusal, AlertsInv;
    var p := HealthTransitioned(m, row.version, row.before, row.after);
    Q.ApplyKeepsInv(db.queue, Q.Issuing(e, p, now));
    IssueOther(db, e, p);
    IssueAny(db.(candidates := candidates, health := db.health[m := h]), e, p);
    TransitionIsAnnounced(db, m, row, e);
    ProjectionMayLag(db, m, [row]);
  }

  /** A commit that does not move the state only replaces the snapshot and its candidates. */
  lemma StayKeepsInv(db: Db, m: Id, h: H.Snapshot, f: R.Fact, candidates: map<Id, H.Candidate>)
    requires Inv(db) && m in db.monitors
    requires CandidatesInv(candidates, db.health[m := h], db.queue.processed, db.queue.issued)
    requires HealthTable(db.health[m := h], db.log, db.facts[m := Rows(db.facts, m) + [f]], db.runs)
    ensures Inv(db.(candidates := candidates, health := db.health[m := h],
                    facts := db.facts[m := Rows(db.facts, m) + [f]]))
  {
    hide Q.Inv, HealthTable, CandidatesInv, ProjectionTable, Homes, TransitionEvents;
    hide IncidentEvents, RunEvents, Markers, Answers, NoRefusal, AlertsInv;
  }

  function LogAfter(db: Db, m: Id, f: R.Fact, d: H.Decision): map<Id, seq<R.Transition>> {
    if d.transitioned then db.log[m := Rows(db.log, m) + [R.RowOf(d, f)]] else db.log
  }

  lemma HealthFollows(db: Db, m: Id, f: R.Fact, d: H.Decision)
    requires Inv(db) && m != "" && FromRun(db.runs, m, f)
    requires R.Verdict(Current(db, m, R.Now(f)), f) == Ok(d)
    requires R.Emitted(Current(db, m, R.Now(f)), f)
          == (if d.transitioned then [R.RowOf(d, f)] else [])
    ensures HealthTable(db.health[m := d.snapshot], LogAfter(db, m, f, d),
                        db.facts[m := Rows(db.facts, m) + [f]], db.runs)
  {
    hide R.Verdict, R.Emitted, HealthTable;
    HealthGrows(db, m, f, db.(health := db.health[m := d.snapshot], log := LogAfter(db, m, f, d),
                              facts := db.facts[m := Rows(db.facts, m) + [f]]));
  }

  lemma CommitWrites(db: Db, asked: Db, m: Id, f: R.Fact, d: H.Decision, ids: HealthIds, now: Time)
    requires asked == db.(queue := Request(db.queue, d.created, ids.confirmationEvent, now))
    requires Inv(asked) && m in db.monitors && ids.transitionEvent !in asked.queue.issued
    requires d.transitioned ==> d.snapshot.version == |Rows(db.log, m)| + 1
    requires CandidatesInv(Created(Completed(db.candidates, d.completed), d.created),
                           db.health[m := d.snapshot], asked.queue.processed, asked.queue.issued)
    requires HealthTable(db.health[m := d.snapshot], LogAfter(db, m, f, d),
                         db.facts[m := Rows(db.facts, m) + [f]], db.runs)
    ensures Inv(Commit(db, m, f, d, ids, now))
  {
    hide Inv, HealthTable, CandidatesInv, Request;
    var candidates := Created(Completed(db.candidates, d.completed), d.created);
    if d.transitioned {
      TransitionKeepsInv(asked, m, R.RowOf(d, f), ids.transitionEvent, now, d.snapshot, f,
                         candidates);
    } else {
      StayKeepsInv(asked, m, d.snapshot, f, candidates);
    }
  }

  /** Committing one decision keeps every part of the invariant. */
  lemma CommitKeepsInv(db: Db, m: Id, f: R.Fact, ids: HealthIds, now: Time)
    requires Inv(db) && Judged(db, m, f, ids, now)
    ensures Inv(Commit(db, m, f, R.Verdict(Current(db, m, now), f).value, ids, now))
  {
    hide R.Verdict, R.Emitted, R.HealthInv, Q.Inv, HealthTable, CandidatesInv, ProjectionTable;
    hide Homes, TransitionEvents, IncidentEvents, RunEvents, Markers, Answers, NoRefusal, AlertsInv;
    hide R.Flows, R.Chain;
    var s := Current(db, m, now);
    var d := R.Verdict(s, f).value;
    var asked := db.(queue := Request(db.queue, d.created, ids.confirmationEvent, now));
    CurrentInv(db, m, now);
    R.CandidateFlow(s, f);
    VerdictMoves(s, f);
    if d.created.Some? { RequestKeepsInv(db, d.created, ids.confirmationEvent, now); }
    hide Inv;
    CandidatesFollow(asked, m, f, d);
    HealthFollows(asked, m, f, d);
    CommitWrites(db, asked, m, f, d, ids, now);
  }

  lemma VerdictMoves(s: H.Snapshot, f: R.Fact)
    requires R.HealthInv(s) && R.Verdict(s, f).Ok?
    ensures var d := R.Verdict(s, f).value;
            && R.Emitted(s, f) == (if d.transitioned then [R.RowOf(d, f)] else [])
            && (d.transitioned ==> d.snapshot.version == s.version + 1)
            && d.previous == s.state && (d.created.Some? ==> f.Seen?)
  {
    if f.Seen? { R.JudgeIsGood(s, f.x); }
  }

  /** What a handler guarantees: it keeps the invariant and answers "handled" only with a marker. */
  ghost predicate Serves(db: Db, e: Id, after: Db, answer: Q.Answer)
    requires e in db.queue.issued
  {
    && Inv(after) && after.queue.claims == db.queue.claims
    && e in after.queue.issued && after.queue.issued[e] == db.queue.issued[e]
    && (answer == Q.Handled || answer == GAP)
    && (answer.Handled? && !db.queue.issued[e].ConfirmationRequested? ==>
          e in after.queue.processed)
  }

  /** A candidate is only ever raised by an event that was not handled before, so it is new. */
  lemma CandidateIsNew(db: Db, e: Id, c: H.Candidate)
    requires Inv(db) && e in db.queue.issued && db.queue.issued[e].RunRecorded?
    requires e !in db.queue.processed && c.triggeringRun == db.queue.issued[e].run
    ensures forall id :: id in db.candidates ==> !SameTrigger(db.candidates[id], c)
  {
    hide Q.Inv, Known, HealthTable, ProjectionTable, Homes, TransitionEvents, IncidentEvents;
    hide Markers, Answers, NoRefusal, AlertsInv;
    forall id | id in db.candidates
      ensures !SameTrigger(db.candidates[id], c)
    {
      assert FromEvent(db.candidates[id], db.queue.processed, db.queue.issued);
      assert !SameRun(db.queue.issued, e, db.candidates[id].triggeringEvent);
    }
  }

  lemma NeverConflicts(db: Db, e: Id, d: H.Decision)
    requires Inv(db) && e in db.queue.issued && db.queue.issued[e].RunRecorded?
    requires e !in db.queue.processed
    requires d.created.Some? ==> d.created.value.triggeringRun == db.queue.issued[e].run
    ensures !Conflicts(Completed(db.candidates, d.completed), d.created)
  {
    if d.created.Some? {
      CandidateIsNew(db, e, d.created.value);
      hide Inv;
    }
  }

  /** The event of a recorded Run names rows that are there and that agree with it. */
  lemma RunIsThere(db: Db, e: Id)
    requires Inv(db) && e in db.queue.issued && db.queue.issued[e].RunRecorded?
    ensures var p := db.queue.issued[e];
            && p.run in db.runs && db.runs[p.run].monitor == p.monitor && p.monitor in db.monitors
            && p.run != "" && p.monitor != "" && db.monitors[p.monitor].latestRevision >= 1
            && db.runs[p.run].revision >= 1
            && (db.runs[p.run].finishedAt.Some? || db.runs[p.run].outcome.Skipped?)
            && Announces(p, db.runs[p.run])
  {
    hide Q.Inv, HealthTable, ProjectionTable, Homes, TransitionEvents, IncidentEvents;
    hide CandidatesInv, Markers, Answers, NoRefusal, AlertsInv;
  }

  /** An unhandled Run of an active Monitor is always judged. */
  lemma RunIsJudged(db: Db, e: Id, ids: HealthIds, now: Time)
    requires Inv(db) && e in db.queue.issued && db.queue.issued[e].RunRecorded? && e != ""
    requires ids.candidate != "" && e !in db.queue.processed
    ensures var p := db.queue.issued[e];
            && p.run in db.runs && db.runs[p.run].monitor == p.monitor && p.monitor in db.monitors
            && var v := H.Judge(Current(db, p.monitor, now), InputOf(db, e, p.run, ids, now));
               v.Ok? && !Conflicts(Completed(db.candidates, v.value.completed), v.value.created)
  {
    hide Inv, H.Judge, R.HealthInv, R.Chain, Conflicts;
    RunIsThere(db, e);
    var p := db.queue.issued[e];
    var x := InputOf(db, e, p.run, ids, now);
    var s := Current(db, p.monitor, now);
    CurrentInv(db, p.monitor, now);
    R.JudgeNeverFails(s, x);
    R.CandidateFlow(s, R.Seen(x));
    NeverConflicts(db, e, H.Judge(s, x).value);
  }

  /** Judging a Run commits exactly one fact about its Monitor and marks the event. */
  lemma JudgedRunServes(db: Db, e: Id, ids: HealthIds, now: Time)
    requires Inv(db) && e in db.queue.issued && db.queue.issued[e].RunRecorded? && e != ""
    requires ids.candidate != "" && ids.candidate !in db.candidates
    requires ids.confirmationEvent !in db.queue.issued && ids.transitionEvent !in db.queue.issued
    requires ids.confirmationEvent != ids.transitionEvent && e !in db.queue.processed
    requires db.queue.issued[e].monitor in db.monitors
    requires db.monitors[db.queue.issued[e].monitor].lifecycle.Active?
    ensures var (after, answer) := EvaluateRun(db, e, ids, now);
            Serves(db, e, after, answer) && answer == Q.Handled
  {
    hide Inv, H.Judge, Conflicts, Commit;
    RunIsThere(db, e);
    RunIsJudged(db, e, ids, now);
    var p := db.queue.issued[e];
    var marked := db.(queue := Q.Mark(db.queue, e));
    MarkKeepsInv(db, e);
    var x := InputOf(db, e, p.run, ids, now);
    var v := H.Judge(Current(db, p.monitor, now), x);
    CommitKeepsInv(marked, p.monitor, R.Seen(x), ids, now);
    CommitIssues(db, p.monitor, R.Seen(x), v.value, ids, now, e);
    MarkCommutes(db, p.monitor, R.Seen(x), v.value, ids, now, e);
  }

  lemma MarkCommutes(db: Db, m: Id, f: R.Fact, d: H.Decision, ids: HealthIds, now: Time, e: Id)
    ensures var after := Commit(db, m, f, d, ids, now);
            after.(queue := Q.Mark(after.queue, e))
              == Commit(db.(queue := Q.Mark(db.queue, e)), m, f, d, ids, now)
  {
  }

  lemma EvaluateRunServes(db: Db, e: Id, ids: HealthIds, now: Time)
    requires Inv(db) && e in db.queue.issued && db.queue.issued[e].RunRecorded? && e != ""
    requires ids.candidate != "" && ids.candidate !in db.candidates
    requires ids.confirmationEvent !in db.queue.issued && ids.transitionEvent !in db.queue.issued
    requires ids.confirmationEvent != ids.transitionEvent
    ensures var (after, answer) := EvaluateRun(db, e, ids, now);
            Serves(db, e, after, answer) && answer == Q.Handled
  {
    hide Inv, H.Judge, Conflicts, Commit;
    RunIsThere(db, e);
    if e !in db.queue.processed {
      if db.monitors[db.queue.issued[e].monitor].lifecycle.Active? {
        JudgedRunServes(db, e, ids, now);
      } else {
        MarkKeepsInv(db, e);
      }
    }
  }

  /** A commit only adds events, so a fresh identifier never overwrites an issued one. */
  lemma CommitIssues(db: Db, m: Id, f: R.Fact, d: H.Decision, ids: HealthIds, now: Time, e: Id)
    requires e in db.queue.issued
    requires ids.confirmationEvent !in db.queue.issued && ids.transitionEvent !in db.queue.issued
    ensures var after := Commit(db, m, f, d, ids, now);
            && e in after.queue.issued && after.queue.issued[e] == db.queue.issued[e]
            && after.queue.claims == db.queue.claims
            && after.queue.processed == db.queue.processed
            && after.queue.answers == db.queue.answers
  {
  }

  lemma SweepKeepsInv(db: Db, s: Step)
    requires Inv(db) && s.Sweep? && Enabled(db, s)
    ensures Inv(Next(db, s))
  {
    hide H.Sweep;
    if IsStale(db, s.m, s.version, s.at, s.ceiling) && H.Sweep(db.health[s.m], s.at).Ok? {
      hide Inv;
      CommitKeepsInv(db, s.m, R.Swept(s.at), HealthIds("", "", s.event), s.at);
    }
  }
}
