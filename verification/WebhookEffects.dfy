/**
 * What each step on the Webhook tables comes to, in terms of the rows that were there before: exactly
 * which deliveries a claim takes, what a report makes of an attempt, and what rotating writes.
 */
module WebhookEffects {
  import opened Common
  import opened Webhook
  import opened WebhookInv
  import opened WebhookDelivery
  import opened WebhookRuns
  import S = Selection

  // ---------------------------------------------------------------------------------------------
  // Claiming
  // ---------------------------------------------------------------------------------------------

  /** Unfinished, with attempts left, available, and nobody holds a lease that still runs. */
  ghost predicate Waiting(d: Delivery, now: Time) {
    && d.completedAt.None? && d.attempts < 5 && d.availableAt <= now
    && (d.lease.Some? ==> d.lease.value.expires <= now)
  }

  ghost function WaitingIn(deliveries: map<Id, Delivery>, listed: seq<Id>, now: Time): set<Id> {
    set id | id in listed && id in deliveries && Waiting(deliveries[id], now)
  }

  /** Fewer than `limit` waiting deliveries come before some mention of this one in the list. */
  ghost predicate AheadOfLimit(deliveries: map<Id, Delivery>, s: Step, id: Id)
    requires s.Claims?
  {
    exists k :: 0 <= k < |s.visible| && s.visible[k] == id
                && |WaitingIn(deliveries, s.visible[..k], s.now)| < s.limit
  }

  /** A lease that ran out with all attempts used up. */
  ghost predicate UsedUp(d: Delivery, now: Time) {
    && d.completedAt.None? && d.attempts == 5
    && d.lease.Some? && d.lease.value.expires <= now
  }

  /**
   * Exactly which deliveries a claim takes: those that wait, taken over from a crashed worker or not,
   * with few enough ahead. Each gets the claimant's lease and a next attempt in progress. No other one
   * gains an attempt; one that used up its attempts ends, and the rest stay as they are.
   */
  lemma ClaimTakesExactly(db: Db, s: Step, id: Id)
    requires Inv(db) && ValidClaim(s) && id in db.deliveries
    ensures var d, after := db.deliveries[id], Next(db, s);
            && id in after.deliveries
            && if Waiting(d, s.now) && AheadOfLimit(db.deliveries, s, id) then
                 && after.deliveries[id]
                    == d.(attempts := d.attempts + 1, lease := Some(Lease(s.holder, s.expires)))
                 && (id, d.attempts + 1) in after.attempts && (id, d.attempts + 1) in after.claims
                 && after.attempts[(id, d.attempts + 1)] == Attempt(s.now, None, InProgress, None)
                 && after.claims[(id, d.attempts + 1)] == Claim(s.holder, s.now, s.expires)
               else
                 && (id, d.attempts + 1) !in after.attempts
                 && after.deliveries[id]
                    == if UsedUp(d, s.now) then d.(completedAt := Some(s.now), lease := None) else d
  {
    hide Inv, Swept, LeasePicked, Next, PickedBy, AheadOfLimit, Waiting, UsedUp;
    var d, swept := db.deliveries[id], Swept(db, s.now);
    SweepEffect(db, s.now, id);
    PickedExactly(db, s, id);
    StillToTry(d, s.now);
    ClaimIsSweepAndLease(db, s);
    var picked := PickedBy(db, s);
    LeaseEffect(swept, s, picked, id);
    if id in picked { assert swept.deliveries[id] == d; }
  }

  lemma StillToTry(d: Delivery, now: Time)
    ensures !(Waiting(d, now) && UsedUp(d, now))
  {
  }

  lemma LeaseEffect(db: Db, s: Step, picked: set<Id>, id: Id)
    requires s.Claims? && id in db.deliveries
    requires (id, db.deliveries[id].attempts + 1) !in db.attempts
    ensures var d := db.deliveries[id];
            var after := LeasePicked(db, s.holder, s.now, s.expires, picked);
            && id in after.deliveries
            && if id in picked then
                 && after.deliveries[id]
                    == d.(attempts := d.attempts + 1, lease := Some(Lease(s.holder, s.expires)))
                 && (id, d.attempts + 1) in after.attempts && (id, d.attempts + 1) in after.claims
                 && after.attempts[(id, d.attempts + 1)] == Attempt(s.now, None, InProgress, None)
                 && after.claims[(id, d.attempts + 1)] == Claim(s.holder, s.now, s.expires)
               else after.deliveries[id] == d && (id, d.attempts + 1) !in after.attempts
  {
    BegunAttempts(db, s.holder, s.now, s.expires, picked, id, db.deliveries[id].attempts + 1);
  }

  /** The first half of a claim ends what used up its attempts, and no other delivery. */
  lemma SweepEffect(db: Db, now: Time, id: Id)
    requires Inv(db) && id in db.deliveries
    ensures var d, after := db.deliveries[id], Swept(db, now);
            && id in after.deliveries && (id, d.attempts + 1) !in after.attempts
            && after.deliveries[id]
               == if UsedUp(d, now) then d.(completedAt := Some(now), lease := None) else d
  {
    var d := db.deliveries[id];
    assert DeliveryInv(id, d, db.attempts, db.claims);
    hide IntegrationsInv, LimitInv, PinsInv, DeliveriesInv, ClaimInv;
    if UsedUp(d, now) { SweptLast(db, now, id); }
    hide LastInv;
  }

  lemma PickedExactly(db: Db, s: Step, id: Id)
    requires Inv(db) && ValidClaim(s) && id in db.deliveries
    ensures id in PickedBy(db, s)
            <==> Waiting(db.deliveries[id], s.now) && AheadOfLimit(db.deliveries, s, id)
  {
    hide Inv, Swept, Due, Waiting;
    var swept := Swept(db, s.now).deliveries;
    SweptSameKeys(db, s.now);
    forall other | other in db.deliveries
      ensures Due(swept[other], s.now) <==> Waiting(db.deliveries[other], s.now)
    {
      SweptIsDue(db, s.now, other);
    }
    hide *;
    ChosenAreWaiting(swept, db.deliveries, s, id);
    PickedIsChosen(db, s);
  }

  lemma PickedIsChosen(db: Db, s: Step)
    requires s.Claims? && s.limit >= 0
    ensures PickedBy(db, s) == S.Chosen(Swept(db, s.now).deliveries, DueAt(s.now), s.visible, s.limit)
  {
    hide Swept, S.Chosen;
  }

  lemma ChosenAreWaiting(swept: map<Id, Delivery>, deliveries: map<Id, Delivery>, s: Step, id: Id)
    requires s.Claims? && s.limit >= 0 && swept.Keys == deliveries.Keys && id in deliveries
    requires forall other :: other in deliveries ==>
               (Due(swept[other], s.now) <==> Waiting(deliveries[other], s.now))
    ensures id in S.Chosen(swept, DueAt(s.now), s.visible, s.limit)
            <==> Waiting(deliveries[id], s.now) && AheadOfLimit(deliveries, s, id)
  {
    hide Due, Waiting, S.Among, S.Chosen, WaitingIn;
    S.ChosenExactly(swept, DueAt(s.now), s.visible, s.limit, id);
    forall k | 0 <= k < |s.visible|
      ensures |S.Among(swept, DueAt(s.now), s.visible[..k])|
           == |WaitingIn(deliveries, s.visible[..k], s.now)|
    {
      SameWaiting(swept, deliveries, s.visible[..k], s.now);
    }
  }

  lemma SweptIsDue(db: Db, now: Time, id: Id)
    requires Inv(db) && id in db.deliveries && id in Swept(db, now).deliveries
    ensures Due(Swept(db, now).deliveries[id], now) <==> Waiting(db.deliveries[id], now)
  {
    hide Inv, Swept, UsedUp;
    SweepEffect(db, now, id);
    DueMeansWaiting(db.deliveries[id], now);
    hide Due, Waiting;
  }

  lemma DueMeansWaiting(d: Delivery, now: Time)
    ensures Due(d, now) <==> Waiting(d, now)
    ensures UsedUp(d, now) ==>
              !Waiting(d, now) && !Due(d.(completedAt := Some(now), lease := None), now)
  {
  }

  lemma SameWaiting(swept: map<Id, Delivery>, deliveries: map<Id, Delivery>, listed: seq<Id>,
                    now: Time)
    requires swept.Keys == deliveries.Keys
    requires forall id :: id in deliveries ==> (Due(swept[id], now) <==> Waiting(deliveries[id], now))
    ensures S.Among(swept, DueAt(now), listed) == WaitingIn(deliveries, listed, now)
  {
    hide Due, Waiting;
  }

  // ---------------------------------------------------------------------------------------------
  // Reporting
  // ---------------------------------------------------------------------------------------------

  predicate Accepted(r: Response) { r.Status? && 200 <= r.code < 300 }

  /** A failure that may pass: the call was cut short, timed out or got a retryable answer. */
  predicate Passing(r: Response) {
    || r.Interrupted? || r.TimedOut? || r.Unreachable?
    || (r.Status? && (r.code == 408 || r.code == 425 || r.code == 429 || r.code >= 500))
  }

  /** What the attempt is remembered as. */
  function OutcomeOf(r: Response): Outcome {
    if Accepted(r) then Succeeded else if r.Interrupted? then Cancelled else Failed
  }

  function CodeOf(r: Response): Option<FailureCode> {
    match r
    case Interrupted => Some(CancelledCode)
    case TimedOut => Some(Timeout)
    case Unreachable => Some(Network)
    case NotSent(code) => Some(code)
    case Status(_) =>
      if Accepted(r) then None else if Passing(r) then Some(HttpRetryable) else Some(HttpRejected)
  }

  /** The attempt still runs, and the report comes after it began and before its lease ends. */
  ghost predicate Timely(db: Db, s: Step)
    requires s.Ends?
  {
    && (s.id, s.sequence) in db.attempts && db.attempts[(s.id, s.sequence)].outcome.InProgress?
    && s.id in db.deliveries && db.deliveries[s.id].lease.Some?
    && db.attempts[(s.id, s.sequence)].startedAt <= s.at
    && s.at < db.deliveries[s.id].lease.value.expires
  }

  /**
   * Exactly which reports count, and what they come to. The delivery is finished by an answer that
   * accepts it, by a failure that will not pass, and by the fifth attempt; otherwise it is released to
   * be tried again after the given delay. A report that is not timely changes nothing.
   */
  lemma ReportMeans(db: Db, s: Step)
    requires Inv(db) && s.Ends?
    ensures EndAttempt(db, s).1.Ok? <==> Timely(db, s)
    ensures !Timely(db, s) ==> Next(db, s) == db
    ensures Timely(db, s) ==>
              var k, d := (s.id, s.sequence), db.deliveries[s.id];
              var again := Passing(s.response) && s.sequence < 5;
              Next(db, s) == db.(
                attempts := db.attempts[k :=
                  Attempt(db.attempts[k].startedAt, Some(s.at), OutcomeOf(s.response),
                          CodeOf(s.response))],
                deliveries := db.deliveries[s.id :=
                  d.(lease := None,
                     completedAt := if again then None else Some(s.at),
                     availableAt := if again then s.at + s.delay else d.availableAt)])
  {
    hide Inv, Classify, Terminal, NextAt, Accepted, Passing, OutcomeOf, CodeOf;
    ResponseMeans(s.response, s.at, s.sequence, s.delay);
    TimelyMeansOwned(db, s);
    var k := (s.id, s.sequence);
    if k in db.claims {
      var x := Classify(s.response, s.at);
      CompleteMeans(db, s.id, s.sequence, db.claims[k], x, NextAt(x, s.sequence, s.delay),
                    Terminal(x, s.sequence));
    }
    hide Owns, Complete;
  }

  /** Recording a report that is in order, under the lease and otherwise. */
  lemma CompleteMeans(db: Db, id: Id, sequence: int, claim: Claim, x: Execution, next: Option<Time>,
                      terminal: bool)
    requires id != "" && claim.holder != "" && sequence >= 1 && terminal == next.None?
    ensures var (after, r) := Complete(db, id, sequence, claim, x, next, terminal);
            if claim.startedAt <= x.finishedAt && Owns(db, id, sequence, claim.holder, x.finishedAt)
            then
              && r.Ok? && (id, sequence) in db.attempts && id in db.deliveries
              && after == db.(
                   attempts := db.attempts[(id, sequence) :=
                     Attempt(db.attempts[(id, sequence)].startedAt, Some(x.finishedAt), x.outcome,
                             x.code)],
                   deliveries := db.deliveries[id := db.deliveries[id].(
                     lease := None, completedAt := if terminal then Some(x.finishedAt) else None,
                     availableAt := if next.Some? then next.value
                                    else db.deliveries[id].availableAt)])
            else r.Err? && after == db
  {
  }

  lemma TimelyMeansOwned(db: Db, s: Step)
    requires Inv(db) && s.Ends?
    ensures var k := (s.id, s.sequence);
            && (k in db.claims <==> k in db.attempts)
            && (k in db.claims ==>
                  && s.id != "" && s.sequence >= 1 && db.claims[k].holder != ""
                  && (Timely(db, s) <==> Owns(db, s.id, s.sequence, db.claims[k].holder, s.at)
                                         && db.claims[k].startedAt <= s.at))
            && (k !in db.claims ==> !Timely(db, s))
  {
    var k := (s.id, s.sequence);
    if k in db.attempts {
      assert k.0 in db.deliveries;
      assert DeliveryInv(s.id, db.deliveries[s.id], db.attempts, db.claims);
      RunningIsLeased(s.id, s.sequence, db.deliveries[s.id], db.attempts, db.claims);
    }
    assert db.claims.Keys == db.attempts.Keys;
    hide IntegrationsInv, LimitInv, PinsInv, DeliveriesInv, DeliveryInv;
  }

  lemma ResponseMeans(r: Response, at: Time, sequence: int, delay: Time)
    ensures var x := Classify(r, at);
            && x.finishedAt == at && Terminal(x, sequence) == !(Passing(r) && sequence < 5)
            && NextAt(x, sequence, delay)
               == (if Passing(r) && sequence < 5 then Some(at + delay) else None)
            && x.outcome == OutcomeOf(r) && x.code == CodeOf(r)
  {
  }

  /** A running attempt is the last one, and its lease is its worker's. */
  lemma RunningIsLeased(id: Id, n: int, d: Delivery, attempts: map<(Id, int), Attempt>,
                        claims: map<(Id, int), Claim>)
    requires DeliveryInv(id, d, attempts, claims) && (id, n) in attempts
    ensures id != "" && n >= 1 && (id, n) in claims && claims[(id, n)].holder != ""
    ensures claims[(id, n)].startedAt == attempts[(id, n)].startedAt
    ensures attempts[(id, n)].outcome.InProgress? ==>
              && n == d.attempts && d.completedAt.None? && d.lease.Some?
              && d.lease.value == Lease(claims[(id, n)].holder, claims[(id, n)].expires)
  {
  }

  /** An attempt whose lease ran out is written off as failed, with an outcome nobody knows. */
  lemma AbandonedMeans(db: Db, s: Step, id: Id)
    requires Inv(db) && ValidClaim(s) && id in db.deliveries
    requires db.deliveries[id].completedAt.None? && db.deliveries[id].lease.Some?
    requires db.deliveries[id].lease.value.expires <= s.now
    ensures var k := (id, db.deliveries[id].attempts);
            && k in db.attempts && k in Next(db, s).attempts
            && (db.attempts[k].outcome.InProgress? ==>
                  Next(db, s).attempts[k]
                  == Attempt(db.attempts[k].startedAt, Some(s.now), Failed, Some(OutcomeUncertain)))
  {
    var k := (id, db.deliveries[id].attempts);
    assert DeliveryInv(id, db.deliveries[id], db.attempts, db.claims);
    hide IntegrationsInv, LimitInv, PinsInv, DeliveriesInv, ClaimInv, HistoryInv;
    assert k in db.attempts;
    ClaimIsSweepAndLease(db, s);
    BegunAttempts(Swept(db, s.now), s.holder, s.now, s.expires, PickedBy(db, s), id, k.1);
    hide LeasePicked, Next, PickedBy;
  }

  // ---------------------------------------------------------------------------------------------
  // Rotating
  // ---------------------------------------------------------------------------------------------

  /** The row and the secrets of an Integration at the version that the caller expects. */
  ghost predicate At(db: Db, id: Id, expected: int) {
    id in db.rows && id in db.secrets && db.rows[id].version == expected
  }

  /**
   * Exactly which rows are read back: an identity, versions from one, a pending version that is the
   * next without a retiring one, a retiring version that is the previous, and instants in order.
   */
  lemma ReadBackMeans(i: Integration)
    ensures NewIntegration(i).Ok? ==> NewIntegration(i).value == i
    ensures NewIntegration(i).Ok? <==>
              && i.id != "" && 1 <= i.version && 1 <= i.active && i.created <= i.updated
              && (i.pending.Some? ==> i.pending == Some(i.active + 1) && i.retiring.None?)
              && (i.retiring.Some? ==> i.retiring == Some(i.active - 1))
  {
  }

  /** An Integration starts disabled, with one active secret. */
  lemma CreateMeans(db: Db, s: Step)
    requires s.Creates?
    ensures Next(db, s)
         == db.(rows := db.rows[s.id := Row(false, 1, 1, s.now, s.now)],
                secrets := db.secrets[s.id := [Secret(1, Active, Some(s.envelope))]])
  {
  }

  /** Exactly when enabling or disabling changes anything, and what: five may be enabled at most. */
  lemma EnableMeans(db: Db, s: Step)
    requires Inv(db) && s.Enables?
    ensures Next(db, s) ==
              if At(db, s.id, s.expected) && db.rows[s.id].enabled != s.enabled
                 && (s.enabled ==> |set id | id in db.rows && db.rows[id].enabled| < 5) then
                db.(rows := db.rows[s.id := db.rows[s.id].(enabled := s.enabled,
                                                           version := s.expected + 1,
                                                           updated := s.now)])
              else db
  {
    LoadSucceeds(db, s.id, s.expected);
    assert db.rows.Keys == db.secrets.Keys;
    hide IntegrationsInv, LoadExpected, DeliveriesInv, PinsInv, FindState;
  }

  /** Exactly when preparing adds a pending secret: none is pending and none retiring. */
  lemma PrepareMeans(db: Db, s: Step)
    requires Inv(db) && s.Prepares?
    ensures Next(db, s) ==
              if At(db, s.id, s.expected) && |db.secrets[s.id]| == db.rows[s.id].active
                 && (forall k :: 0 <= k < |db.secrets[s.id]| ==>
                       !db.secrets[s.id][k].state.Retiring?) then
                var row, secrets := db.rows[s.id], db.secrets[s.id];
                db.(rows := db.rows[s.id := row.(version := s.expected + 1, updated := s.now)],
                    secrets := db.secrets[s.id :=
                      secrets + [Secret(row.active + 1, Pending, Some(s.envelope))]])
              else db
  {
    LoadSucceeds(db, s.id, s.expected);
    assert db.rows.Keys == db.secrets.Keys;
    if s.id in db.rows {
      assert IntegrationInv(s.id, db.rows[s.id], db.secrets[s.id]);
      ShapeDetermines(db.secrets[s.id], db.rows[s.id].active);
    }
    hide IntegrationsInv, LoadExpected, DeliveriesInv, PinsInv, FindState, LimitInv;
  }

  /** Exactly when activating promotes the pending secret and retires the active one. */
  lemma ActivateMeans(db: Db, s: Step)
    requires Inv(db) && s.Activates?
    ensures Next(db, s) ==
              if At(db, s.id, s.expected) && 1 <= db.rows[s.id].active
                 && |db.secrets[s.id]| == db.rows[s.id].active + 1 then
                var row, secrets := db.rows[s.id], db.secrets[s.id];
                var a := row.active;
                db.(rows := db.rows[s.id := row.(version := s.expected + 1, active := a + 1,
                                                 updated := s.now)],
                    secrets := db.secrets[s.id :=
                      secrets[a - 1 := secrets[a - 1].(state := Retiring)]
                             [a := secrets[a].(state := Active)]])
              else db
  {
    LoadSucceeds(db, s.id, s.expected);
    assert db.rows.Keys == db.secrets.Keys;
    if s.id in db.rows {
      assert IntegrationInv(s.id, db.rows[s.id], db.secrets[s.id]);
      ShapeDetermines(db.secrets[s.id], db.rows[s.id].active);
    }
    hide IntegrationsInv, LoadExpected, DeliveriesInv, PinsInv, FindState, LimitInv;
  }

  /** Every delivery pinned to this version of the secret is complete. */
  ghost predicate AllFinished(deliveries: map<Id, Delivery>, id: Id, version: int) {
    forall d ::
      d in deliveries && deliveries[d].integration == id && deliveries[d].secretVersion == version ==>
        deliveries[d].completedAt.Some?
  }

  lemma FinishedMeansFree(deliveries: map<Id, Delivery>, id: Id, version: int)
    ensures AllFinished(deliveries, id, version) <==> !InUse(deliveries, id, version)
  {
  }

  /** Exactly when retiring erases: the previous secret is retiring and nothing unfinished needs it. */
  lemma RetireMeans(db: Db, s: Step)
    requires Inv(db) && s.Retires?
    ensures Next(db, s) ==
              if At(db, s.id, s.expected) && 2 <= db.rows[s.id].active <= |db.secrets[s.id]|
                 && db.secrets[s.id][db.rows[s.id].active - 2].state.Retiring?
                 && AllFinished(db.deliveries, s.id, db.rows[s.id].active - 1) then
                var row, secrets := db.rows[s.id], db.secrets[s.id];
                var a := row.active;
                db.(rows := db.rows[s.id := row.(version := s.expected + 1, updated := s.now)],
                    secrets := db.secrets[s.id :=
                      secrets[a - 2 := secrets[a - 2].(state := Retired, envelope := None)]])
              else db
  {
    LoadSucceeds(db, s.id, s.expected);
    assert db.rows.Keys == db.secrets.Keys;
    if s.id in db.rows {
      assert IntegrationInv(s.id, db.rows[s.id], db.secrets[s.id]);
      ShapeDetermines(db.secrets[s.id], db.rows[s.id].active);
      FinishedMeansFree(db.deliveries, s.id, db.rows[s.id].active - 1);
      assert 1 <= db.rows[s.id].active <= |db.secrets[s.id]|
             && (db.rows[s.id].active >= 2 ==>
                   db.secrets[s.id][db.rows[s.id].active - 2].version == db.rows[s.id].active - 1);
    }
    hide Inv, IntegrationInv, Shape, LoadExpected, FindState, InUse, AllFinished;
  }
}
