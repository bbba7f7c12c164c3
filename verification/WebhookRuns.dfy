/** What every run of rotation, routing and delivery guarantees, however their workers interleave. */
module WebhookRuns {
  import opened Common
  import opened Webhook
  import opened WebhookInv
  import opened WebhookDelivery
  import M = Maintenance

  lemma Reached(steps: seq<Step>)
    requires Legal(Empty(), steps)
    ensures Inv(Run(Empty(), steps))
  {
    EmptyInv();
    hide Inv;
    RunKeepsInv(Empty(), steps);
  }

  // ---------------------------------------------------------------------------------------------
  // Rotation
  // ---------------------------------------------------------------------------------------------

  /** No unfinished delivery needs a secret whose material was erased. */
  lemma UnfinishedDeliveriesCanBeSigned(steps: seq<Step>, d: Id)
    requires Legal(Empty(), steps) && d in Run(Empty(), steps).deliveries
    ensures var db := Run(Empty(), steps);
            var x := db.deliveries[d];
            && x.integration in db.secrets && 1 <= x.secretVersion <= |db.secrets[x.integration]|
            && var secret := db.secrets[x.integration][x.secretVersion - 1];
               && secret.version == x.secretVersion
               && (x.completedAt.None? ==> !secret.state.Retired? && secret.envelope.Some?)
  {
    hide Legal, Run;
    var db := Run(Empty(), steps);
    Reached(steps);
    assert PinInv(db.deliveries[d], db.rows, db.secrets);
    var id := db.deliveries[d].integration;
    assert IntegrationInv(id, db.rows[id], db.secrets[id]);
    hide DeliveriesInv, LimitInv;
  }

  /**
   * The exact shape of every rotation: one secret is active, and it is the Integration's active
   * version; a pending one is the next version, a retiring one the previous, and they never
   * coexist; every other version is retired. So a stored Integration is always read back.
   */
  lemma RotationHasOneShape(steps: seq<Step>, id: Id, k: int)
    requires Legal(Empty(), steps) && id in Run(Empty(), steps).rows
    ensures var db := Run(Empty(), steps);
            && id in db.secrets && Load(db, id).Ok?
            && var i, secrets := Load(db, id).value, db.secrets[id];
               && i.active == db.rows[id].active && !(i.pending.Some? && i.retiring.Some?)
               && (i.pending.Some? ==> i.pending.value == i.active + 1)
               && (i.retiring.Some? ==> i.retiring.value == i.active - 1)
               && |secrets| == (if i.pending.Some? then i.active + 1 else i.active)
               && (1 <= k <= |secrets| ==>
                     && secrets[k - 1].version == k
                     && (secrets[k - 1].state.Active? <==> k == i.active)
                     && (secrets[k - 1].state.Pending? <==> i.pending == Some(k))
                     && (secrets[k - 1].state.Retiring? <==> i.retiring == Some(k))
                     && (secrets[k - 1].state.Retired? <==> secrets[k - 1].envelope.None?))
  {
    hide Legal, Run;
    var db := Run(Empty(), steps);
    Reached(steps);
    assert IntegrationInv(id, db.rows[id], db.secrets[id]);
    ShapeRestores(id, db.rows[id], db.secrets[id]);
    hide DeliveriesInv, LimitInv, PinsInv, FindState, IntegrationsInv;
  }

  /** Versions only grow, and a version that is still the same is the same row and secrets. */
  ghost predicate Pins(before: Db, after: Db, id: Id) {
    id in before.rows ==>
      && id in after.rows && before.rows[id].version <= after.rows[id].version
      && (before.rows[id].version == after.rows[id].version ==>
            after.rows[id] == before.rows[id] && SecretsOf(after, id) == SecretsOf(before, id))
  }

  /** A change to an Integration or its secrets moves its version on by one. */
  ghost predicate MovesOn(db: Db, after: Db, id: Id) {
    after == db
    || (&& id in db.rows && id in after.rows
        && after.rows == db.rows[id := after.rows[id]]
        && after.rows[id].version == db.rows[id].version + 1
        && (forall j :: j != id ==> SecretsOf(after, j) == SecretsOf(db, j)))
  }

  lemma EnableMovesOn(db: Db, s: Step)
    requires IntegrationsInv(db.rows, db.secrets) && s.Enables?
    ensures MovesOn(db, Next(db, s), s.id)
  {
    LoadSucceeds(db, s.id, s.expected);
    hide IntegrationsInv, LoadExpected, EnabledIds;
  }

  lemma PrepareMovesOn(db: Db, s: Step)
    requires IntegrationsInv(db.rows, db.secrets) && s.Prepares?
    ensures MovesOn(db, Next(db, s), s.id)
  {
    LoadSucceeds(db, s.id, s.expected);
    hide IntegrationsInv, LoadExpected, FindState;
  }

  lemma ActivateMovesOn(db: Db, s: Step)
    requires IntegrationsInv(db.rows, db.secrets) && s.Activates?
    ensures MovesOn(db, Next(db, s), s.id)
  {
    LoadSucceeds(db, s.id, s.expected);
    hide IntegrationsInv, LoadExpected, FindState;
  }

  lemma RetireMovesOn(db: Db, s: Step)
    requires IntegrationsInv(db.rows, db.secrets) && s.Retires?
    ensures MovesOn(db, Next(db, s), s.id)
  {
    LoadSucceeds(db, s.id, s.expected);
    hide IntegrationsInv, LoadExpected, FindState, InUse;
  }

  lemma RowStepPins(db: Db, s: Step, id: Id)
    requires IntegrationsInv(db.rows, db.secrets)
    requires s.Enables? || s.Prepares? || s.Activates? || s.Retires?
    ensures Pins(db, Next(db, s), id)
  {
    hide IntegrationsInv, Next;
    match s
    case Enables(_, _, _, _) => EnableMovesOn(db, s);
    case Prepares(_, _, _, _) => PrepareMovesOn(db, s);
    case Activates(_, _, _) => ActivateMovesOn(db, s);
    case Retires(_, _, _) => RetireMovesOn(db, s);
  }

  lemma OtherStepPins(db: Db, s: Step, id: Id)
    requires Enabled(db, s) && (s.Creates? || s.Routes? || s.Claims? || s.Ends?)
    ensures Pins(db, Next(db, s), id)
  {
    hide Classify, RouteAll, Picked, Swept, Complete;
    match s
    case Claims(holder, now, expires, limit, visible) => ClaimKeepsRows(db, s);
    case Ends(_, _, _, _, _) => EndKeepsRows(db, s);
    case _ =>
  }

  lemma ClaimKeepsRows(db: Db, s: Step)
    requires s.Claims?
    ensures Next(db, s).rows == db.rows && Next(db, s).secrets == db.secrets
  {
    hide Picked, FinalizeExpired, CompleteExhausted, LeaseAll, Begun, Given;
  }

  lemma EndKeepsRows(db: Db, s: Step)
    requires s.Ends?
    ensures Next(db, s).rows == db.rows && Next(db, s).secrets == db.secrets
  {
    hide Classify;
  }

  lemma NextPins(db: Db, s: Step, id: Id)
    requires Inv(db) && Enabled(db, s)
    ensures Pins(db, Next(db, s), id)
  {
    assert IntegrationsInv(db.rows, db.secrets);
    hide *;
    if s.Enables? || s.Prepares? || s.Activates? || s.Retires? {
      RowStepPins(db, s, id);
    } else {
      OtherStepPins(db, s, id);
    }
  }

  /**
   * Optimistic concurrency: a caller whose expected version is still current acts on exactly the
   * Integration and secrets it read, whatever happened in between.
   */
  lemma {:induction false} VersionPinsState(db: Db, steps: seq<Step>, id: Id)
    requires Inv(db) && Legal(db, steps)
    ensures Pins(db, Run(db, steps), id)
    decreases |steps|
  {
    hide Inv, Next, Enabled;
    if steps != [] {
      NextKeepsInv(db, steps[0]);
      NextPins(db, steps[0], id);
      VersionPinsState(Next(db, steps[0]), steps[1..], id);
    }
  }

  ghost predicate ValidClaim(s: Step) {
    s.Claims? && s.holder != "" && 1 <= s.limit <= DELIVERY_BATCH && s.now < s.expires
  }

  function PickedBy(db: Db, s: Step): set<Id>
    requires s.Claims? && s.limit >= 0
  {
    Picked(Swept(db, s.now).deliveries, s.visible, s.now, s.limit)
  }

  /** A claim is a sweep and then a lease of what is due. */
  lemma ClaimIsSweepAndLease(db: Db, s: Step)
    requires ValidClaim(s)
    ensures Next(db, s) == LeasePicked(Swept(db, s.now), s.holder, s.now, s.expires, PickedBy(db, s))
  {
    hide Swept, LeasePicked, Picked;
  }

  lemma PickedIsReady(db: Db, s: Step, id: Id)
    requires Inv(db) && ValidClaim(s) && id in PickedBy(db, s)
    ensures var swept := Swept(db, s.now);
            && id in swept.deliveries && Due(swept.deliveries[id], s.now)
            && Ready(swept.deliveries[id], id, swept.attempts)
  {
    hide Inv, Swept, Ready;
    PickedAreDue(Swept(db, s.now).deliveries, s.visible, s.now, s.limit);
    SweptSameKeys(db, s.now);
    DueIsReady(db, s.now, id);
  }

  // ---------------------------------------------------------------------------------------------
  // Deliveries
  // ---------------------------------------------------------------------------------------------

  /**
   * Attempts are numbered 1 to the attempt count, at most five; only the last may be running, and
   * only under a lease; only the last may have succeeded, and then the delivery is complete; a
   * suppressed delivery has none.
   */
  lemma AttemptsAreNumbered(steps: seq<Step>, d: Id, n: int)
    requires Legal(Empty(), steps) && d in Run(Empty(), steps).deliveries
    ensures var db := Run(Empty(), steps);
            var x := db.deliveries[d];
            && 0 <= x.attempts <= MAX_ATTEMPTS
            && ((d, n) in db.attempts <==> 1 <= n <= x.attempts)
            && ((d, n) in db.attempts && db.attempts[(d, n)].outcome.InProgress? ==>
                  n == x.attempts && x.completedAt.None? && x.lease.Some?)
            && ((d, n) in db.attempts && db.attempts[(d, n)].outcome.Succeeded? ==>
                  n == x.attempts && x.completedAt.Some?)
            && (x.suppressedBy.Some? ==> x.attempts == 0 && x.completedAt.Some?)
  {
    hide Legal, Run;
    var db := Run(Empty(), steps);
    Reached(steps);
    assert DeliveryInv(d, db.deliveries[d], db.attempts, db.claims);
    hide IntegrationsInv, LimitInv, PinsInv, DeliveriesInv;
  }

  /** A delivery that used all its attempts is leased, and a claim after that lease ends it. */
  lemma ExhaustedDeliveriesEnd(steps: seq<Step>, d: Id, s: Step)
    requires Legal(Empty(), steps) && d in Run(Empty(), steps).deliveries && ValidClaim(s)
    ensures var db := Run(Empty(), steps);
            var x := db.deliveries[d];
            x.completedAt.None? && x.attempts == MAX_ATTEMPTS ==>
              && x.lease.Some?
              && (x.lease.value.expires <= s.now ==>
                    d in Next(db, s).deliveries
                    && Next(db, s).deliveries[d].completedAt == Some(s.now))
  {
    hide Legal, Run;
    Reached(steps);
    LeaseOfExhausted(Run(Empty(), steps), d);
    hide Inv, Next;
    var x := Run(Empty(), steps).deliveries[d];
    if Expired(x, s.now) && x.attempts == MAX_ATTEMPTS {
      ExpiredExhaustedEnds(Run(Empty(), steps), d, s);
    }
  }

  lemma LeaseOfExhausted(db: Db, d: Id)
    requires Inv(db) && d in db.deliveries
    ensures var x := db.deliveries[d];
            x.completedAt.None? && x.attempts == MAX_ATTEMPTS ==> x.lease.Some?
  {
    assert DeliveryInv(d, db.deliveries[d], db.attempts, db.claims);
    hide IntegrationsInv, LimitInv, PinsInv, DeliveriesInv, ClaimInv, HistoryInv;
  }

  lemma ExpiredExhaustedEnds(db: Db, d: Id, s: Step)
    requires Inv(db) && ValidClaim(s) && d in db.deliveries
    requires Expired(db.deliveries[d], s.now) && db.deliveries[d].attempts == MAX_ATTEMPTS
    ensures d in Next(db, s).deliveries && Next(db, s).deliveries[d].completedAt == Some(s.now)
  {
    SweepEnds(db, s.now, d);
    hide Inv, Swept, LeasePicked, Next, PickedBy, Ready;
    ClaimIsSweepAndLease(db, s);
    if d in PickedBy(db, s) { PickedIsReady(db, s, d); }
    LeaseLeavesOthers(Swept(db, s.now), s.holder, s.now, s.expires, PickedBy(db, s), d);
  }

  lemma SweepEnds(db: Db, now: Time, d: Id)
    requires Inv(db) && d in db.deliveries
    requires Expired(db.deliveries[d], now) && db.deliveries[d].attempts == MAX_ATTEMPTS
    ensures d in Swept(db, now).deliveries
    ensures Swept(db, now).deliveries[d].completedAt == Some(now)
  {
    assert DeliveryInv(d, db.deliveries[d], db.attempts, db.claims);
    hide Inv, HistoryInv, LastInv, ClaimInv;
    SweptLast(db, now, d);
  }

  lemma LeaseLeavesOthers(db: Db, holder: Id, now: Time, expires: Time, picked: set<Id>, d: Id)
    requires d in db.deliveries && d !in picked
    ensures var after := LeasePicked(db, holder, now, expires, picked);
            d in after.deliveries && after.deliveries[d] == db.deliveries[d]
  {
  }

  /** What one step may not do: touch a finished attempt, or a completed delivery. */
  ghost predicate Preserves(db: Db, after: Db, d: Id, n: int) {
    && (d in db.deliveries ==>
          d in after.deliveries
          && (db.deliveries[d].completedAt.Some? ==> after.deliveries[d] == db.deliveries[d]))
    && ((d, n) in db.attempts && Over(db.attempts[(d, n)]) ==>
          (d, n) in after.attempts && after.attempts[(d, n)] == db.attempts[(d, n)])
  }

  lemma SweepPreserves(db: Db, now: Time, d: Id, n: int)
    ensures Preserves(db, Swept(db, now), d, n)
  {
  }

  lemma LeasePreserves(db: Db, holder: Id, now: Time, expires: Time, picked: set<Id>, d: Id, n: int)
    requires Inv(db)
    requires forall id :: id in picked ==>
               id in db.deliveries && Ready(db.deliveries[id], id, db.attempts)
    ensures Preserves(db, LeasePicked(db, holder, now, expires, picked), d, n)
  {
    if (d, n) in db.attempts {
      assert (d, n).0 in db.deliveries;
      assert DeliveryInv(d, db.deliveries[d], db.attempts, db.claims);
      BegunAttempts(db, holder, now, expires, picked, d, n);
    }
    hide Inv;
  }

  lemma ClaimPreserves(db: Db, s: Step, d: Id, n: int)
    requires Inv(db) && s.Claims?
    ensures Preserves(db, Next(db, s), d, n)
  {
    if ValidClaim(s) {
      hide Inv, Swept, LeasePicked, Ready, Next, PickedBy;
      ClaimIsSweepAndLease(db, s);
      var swept := Swept(db, s.now);
      SweptKeepsInv(db, s.now);
      forall id | id in PickedBy(db, s)
        ensures id in swept.deliveries && Ready(swept.deliveries[id], id, swept.attempts)
      {
        PickedIsReady(db, s, id);
      }
      SweepPreserves(db, s.now, d, n);
      LeasePreserves(swept, s.holder, s.now, s.expires, PickedBy(db, s), d, n);
    }
  }

  lemma RoutePreserves(db: Db, s: Step, d: Id, n: int)
    requires s.Routes? && Enabled(db, s)
    ensures Preserves(db, Next(db, s), d, n)
  {
    hide RouteAll, Routed;
    RouteAllAdds(db, s.alert, s.at, WindowOf(s), s.targets, s.ids);
  }

  /** An attempt ends by rewriting only itself and its own, unfinished, delivery. */
  lemma EndRewrites(db: Db, s: Step)
    requires Inv(db) && s.Ends? && EndAttempt(db, s).1.Ok?
    ensures s.id in db.deliveries && db.deliveries[s.id].completedAt.None?
    ensures (s.id, s.sequence) in db.attempts
            && db.attempts[(s.id, s.sequence)].outcome.InProgress?
    ensures var after := Next(db, s);
            && s.id in after.deliveries && (s.id, s.sequence) in after.attempts
            && after.deliveries == db.deliveries[s.id := after.deliveries[s.id]]
            && after.attempts
               == db.attempts[(s.id, s.sequence) := after.attempts[(s.id, s.sequence)]]
  {
    EndedDelivery(db, s);
    hide Inv, Classify, DeliveryInv, Terminal, NextAt;
  }

  lemma FailedEndChangesNothing(db: Db, s: Step)
    requires s.Ends? && EndAttempt(db, s).1.Err?
    ensures Next(db, s) == db
  {
    hide Classify, Terminal, NextAt, Owns;
  }

  lemma EndPreserves(db: Db, s: Step, d: Id, n: int)
    requires Inv(db) && s.Ends?
    ensures Preserves(db, Next(db, s), d, n)
  {
    hide Inv, Next, EndAttempt;
    if EndAttempt(db, s).1.Ok? { EndRewrites(db, s); } else { FailedEndChangesNothing(db, s); }
  }

  /** Integrations and rotation do not touch deliveries. */
  lemma RowStepPreserves(db: Db, s: Step, d: Id, n: int)
    requires !s.Claims? && !s.Routes? && !s.Ends?
    ensures Preserves(db, Next(db, s), d, n)
  {
    hide FindState, NewIntegration, InUse, EnabledIds, LoadExpected;
  }

  lemma NextPreserves(db: Db, s: Step, d: Id, n: int)
    requires Inv(db) && Enabled(db, s)
    ensures Preserves(db, Next(db, s), d, n)
  {
    hide *;
    match s
    case Claims(_, _, _, _, _) => ClaimPreserves(db, s, d, n);
    case Routes(_, _, _, _, _, _, _) => RoutePreserves(db, s, d, n);
    case Ends(_, _, _, _, _) => EndPreserves(db, s, d, n);
    case _ => RowStepPreserves(db, s, d, n);
  }

  /** Completion is absorbing, and the record of a finished attempt is never rewritten. */
  lemma {:induction false} CompletionIsFinal(db: Db, steps: seq<Step>, d: Id, n: int)
    requires Inv(db) && Legal(db, steps)
    ensures Preserves(db, Run(db, steps), d, n)
    decreases |steps|
  {
    hide Inv, Next, Enabled;
    if steps != [] {
      NextKeepsInv(db, steps[0]);
      NextPreserves(db, steps[0], d, n);
      CompletionIsFinal(Next(db, steps[0]), steps[1..], d, n);
    }
  }

  /**
   * Fencing: once an attempt has been written off or recorded, whatever its worker reports later
   * is discarded and changes nothing.
   */
  lemma LateReportsAreDiscarded(db: Db, steps: seq<Step>, s: Step)
    requires Inv(db) && Legal(db, steps) && s.Ends?
    requires (s.id, s.sequence) in db.attempts && Over(db.attempts[(s.id, s.sequence)])
    ensures Next(Run(db, steps), s) == Run(db, steps)
    ensures EndAttempt(Run(db, steps), s).1.Err?
  {
    hide Inv, Run, Legal, Classify;
    CompletionIsFinal(db, steps, s.id, s.sequence);
  }

  /** Taking over a delivery whose lease expired writes the old attempt off first. */
  lemma TakeoverWritesOff(db: Db, s: Step, d: Id)
    requires Inv(db) && ValidClaim(s) && d in db.deliveries && Expired(db.deliveries[d], s.now)
    ensures var k := (d, db.deliveries[d].attempts);
            k in Next(db, s).attempts && Over(Next(db, s).attempts[k])
  {
    hide Inv, Swept, LeasePicked, Ready, Next, PickedBy;
    SweepWritesOff(db, s.now, d);
    ClaimIsSweepAndLease(db, s);
    var swept := Swept(db, s.now);
    SweptKeepsInv(db, s.now);
    forall id | id in PickedBy(db, s)
      ensures id in swept.deliveries && Ready(swept.deliveries[id], id, swept.attempts)
    {
      PickedIsReady(db, s, id);
    }
    LeasePreserves(swept, s.holder, s.now, s.expires, PickedBy(db, s), d,
                   db.deliveries[d].attempts);
  }

  lemma SweepWritesOff(db: Db, now: Time, d: Id)
    requires Inv(db) && d in db.deliveries && Expired(db.deliveries[d], now)
    ensures var k := (d, db.deliveries[d].attempts);
            k in Swept(db, now).attempts && Over(Swept(db, now).attempts[k])
  {
    assert DeliveryInv(d, db.deliveries[d], db.attempts, db.claims);
    hide IntegrationsInv, LimitInv, PinsInv, DeliveriesInv, ClaimInv, HistoryInv;
  }

  // ---------------------------------------------------------------------------------------------
  // Routing
  // ---------------------------------------------------------------------------------------------

  /**
   * Routing reaches every enabled Integration exactly once and no other one. Each delivery is pinned
   * to its version and active secret, and complete at once exactly if a window of the tables applies
   * to the Monitor at the instant of the Alert's fact.
   */
  lemma RoutingCoversEnabled(db: Db, s: Step, id: Id) returns (k: int)
    requires LimitInv(db.rows) && s.Routes? && Enabled(db, s)
    requires id in db.rows && db.rows[id].enabled
    ensures 0 <= k < |s.targets| && s.targets[k] == id && s.ids[k] !in db.deliveries
    ensures s.ids[k] in Next(db, s).deliveries
    ensures forall d :: d in Next(db, s).deliveries && Next(db, s).deliveries[d].alert == s.alert ==>
              var i := Next(db, s).deliveries[d].integration;
              && i in db.rows && db.rows[i].enabled && (i == id <==> d == s.ids[k])
    ensures var d := Next(db, s).deliveries[s.ids[k]];
            && d.alert == s.alert && d.integration == id && d.attempts == 0
            && d.secretVersion == db.rows[id].active && d.integrationVersion == db.rows[id].version
            && d.suppressedBy == WindowOf(s) && d.lease.None?
            && d.routedAt == s.at && d.availableAt == s.at
            && (d.completedAt.Some? ==> d.completedAt == Some(s.at))
            && (d.completedAt.Some? <==>
                  exists w :: w in s.windows && M.RoutingMatches(s.windows[w], s.monitor, s.occurredAt))
  {
    hide LimitInv, RouteAll, M.MatchOf, M.RoutingMatches;
    TargetsFit(db, s.targets);
    RouteAllAdds(db, s.alert, s.at, WindowOf(s), s.targets, s.ids);
    k :| 0 <= k < |s.targets| && s.targets[k] == id;
    WindowMeansMatch(s);
    RoutedOnce(s.targets, s.ids, db.deliveries, Next(db, s).deliveries, s.alert);
    hide WindowOf;
  }

  /** Whatever belongs to an Alert that was not routed before was made for one of its targets. */
  lemma RoutedOnce(targets: seq<Id>, ids: seq<Id>, before: map<Id, Delivery>, after: map<Id, Delivery>,
                   alert: Id)
    requires |targets| == |ids| && Distinct(targets) && Distinct(ids)
    requires forall d :: d in before ==> before[d].alert != alert
    requires forall d :: d in after <==> d in before || d in ids[..|targets|]
    requires forall d :: d in before ==> after[d] == before[d]
    requires forall k :: 0 <= k < |ids| ==> ids[k] in after && after[ids[k]].integration == targets[k]
    ensures forall d, k :: d in after && after[d].alert == alert && 0 <= k < |targets| ==>
              after[d].integration in targets && (after[d].integration == targets[k] <==> d == ids[k])
  {
    forall d | d in after && after[d].alert == alert
      ensures exists j :: 0 <= j < |ids| && ids[j] == d && after[d].integration == targets[j]
    {
      assert d in ids[..|targets|];
    }
  }

  lemma WindowMeansMatch(s: Step)
    requires s.Routes?
    ensures WindowOf(s).Some? <==>
              exists w :: w in s.windows && M.RoutingMatches(s.windows[w], s.monitor, s.occurredAt)
  {
    hide M.RoutingMatches;
    if w :| w in s.windows && M.RoutingMatches(s.windows[w], s.monitor, s.occurredAt) {
      assert M.Matches(s.windows, s.monitor, s.occurredAt, w);
    }
    if WindowOf(s).Some? { assert M.Matches(s.windows, s.monitor, s.occurredAt, WindowOf(s).value); }
  }

  /** What routing wrote stays: for whom a delivery is, what it is pinned to, what suppressed it. */
  ghost predicate SameRoute(a: Delivery, b: Delivery) {
    && a.alert == b.alert && a.integration == b.integration && a.routedAt == b.routedAt
    && a.integrationVersion == b.integrationVersion && a.secretVersion == b.secretVersion
    && a.suppressedBy == b.suppressedBy
  }

  ghost predicate KeepsRoutes(before: map<Id, Delivery>, after: map<Id, Delivery>) {
    forall d :: d in before ==> d in after && SameRoute(before[d], after[d])
  }

  lemma ClaimKeepsRoutes(db: Db, s: Step)
    requires s.Claims?
    ensures Next(db, s).deliveries.Keys == db.deliveries.Keys
    ensures KeepsRoutes(db.deliveries, Next(db, s).deliveries)
  {
    hide Picked, FinalizeExpired, Exhausted, Begun, Given;
  }

  lemma EndKeepsRoutes(db: Db, s: Step)
    requires s.Ends?
    ensures Next(db, s).deliveries.Keys == db.deliveries.Keys
    ensures KeepsRoutes(db.deliveries, Next(db, s).deliveries)
  {
    hide Classify, Terminal, NextAt;
  }

  lemma RowStepKeepsDeliveries(db: Db, s: Step)
    requires !s.Claims? && !s.Routes? && !s.Ends?
    ensures Next(db, s).deliveries == db.deliveries
  {
    hide FindState, NewIntegration, InUse, EnabledIds, LoadExpected;
  }

  /** Only routing adds deliveries, and nothing rewrites what it decided. */
  lemma NextKeepsRoutes(db: Db, s: Step)
    requires Enabled(db, s)
    ensures KeepsRoutes(db.deliveries, Next(db, s).deliveries)
    ensures !s.Routes? ==> Next(db, s).deliveries.Keys == db.deliveries.Keys
  {
    if s.Routes? {
      hide RouteAll, Routed, M.MatchOf;
      RouteAllAdds(db, s.alert, s.at, WindowOf(s), s.targets, s.ids);
    } else if s.Claims? {
      ClaimKeepsRoutes(db, s);
      hide *;
    } else if s.Ends? {
      EndKeepsRoutes(db, s);
      hide *;
    } else {
      RowStepKeepsDeliveries(db, s);
      hide Next, Enabled;
    }
  }

  ghost predicate SameTarget(a: Delivery, b: Delivery) {
    a.alert == b.alert && a.integration == b.integration
  }

  /** No two deliveries of an Alert go to the same Integration. */
  ghost predicate OneEach(deliveries: map<Id, Delivery>) {
    forall d, e :: d in deliveries && e in deliveries && SameTarget(deliveries[d], deliveries[e]) ==>
                     d == e
  }

  lemma NextKeepsOneEach(db: Db, s: Step)
    requires Enabled(db, s) && OneEach(db.deliveries)
    ensures OneEach(Next(db, s).deliveries)
  {
    if s.Routes? {
      RouteKeepsOneEach(db, s);
    } else {
      NextKeepsRoutes(db, s);
      hide Next, Enabled;
    }
  }

  lemma RouteKeepsOneEach(db: Db, s: Step)
    requires s.Routes? && Enabled(db, s) && OneEach(db.deliveries)
    ensures OneEach(Next(db, s).deliveries)
  {
    hide RouteAll, M.MatchOf, OneEach, Route;
    var after := RouteAll(db, s.alert, s.at, WindowOf(s), s.targets, s.ids);
    RouteAllAdds(db, s.alert, s.at, WindowOf(s), s.targets, s.ids);
    forall d, e | d in after && e in after && SameTarget(after[d], after[e]) ensures d == e {
      if d in db.deliveries && e in db.deliveries {
        OneOnly(db.deliveries, d, e);
      } else if d !in db.deliveries && e !in db.deliveries {
        NewOnesDiffer(s.targets, s.ids, after, d, e);
      }
    }
    OneEachOf(after);
    RoutesOrNothing(db, s);
  }

  lemma RoutesOrNothing(db: Db, s: Step)
    requires s.Routes? && |s.targets| <= |s.ids|
    ensures var after := RouteAll(db, s.alert, s.at, WindowOf(s), s.targets, s.ids);
            Next(db, s).deliveries == after || Next(db, s).deliveries == db.deliveries
  {
    hide RouteAll, M.MatchOf;
  }

  lemma NewOnesDiffer(targets: seq<Id>, ids: seq<Id>, after: map<Id, Delivery>, d: Id, e: Id)
    requires |targets| == |ids| && Distinct(targets) && d in ids && e in ids
    requires forall k :: 0 <= k < |ids| ==> ids[k] in after && after[ids[k]].integration == targets[k]
    requires d in after && e in after && after[d].integration == after[e].integration
    ensures d == e
  {
  }

  lemma OneOnly(deliveries: map<Id, Delivery>, d: Id, e: Id)
    requires OneEach(deliveries) && d in deliveries && e in deliveries
    requires SameTarget(deliveries[d], deliveries[e])
    ensures d == e
  {
  }

  lemma OneEachOf(deliveries: map<Id, Delivery>)
    requires forall d, e ::
               d in deliveries && e in deliveries && SameTarget(deliveries[d], deliveries[e]) ==> d == e
    ensures OneEach(deliveries)
  {
  }

  lemma {:induction false} StaysOneEach(db: Db, steps: seq<Step>)
    requires Legal(db, steps) && OneEach(db.deliveries)
    ensures OneEach(Run(db, steps).deliveries)
    decreases |steps|
  {
    hide Next, Enabled, OneEach;
    if steps != [] {
      NextKeepsOneEach(db, steps[0]);
      StaysOneEach(Next(db, steps[0]), steps[1..]);
    }
  }

  /** In every run an Alert has at most one delivery for each Integration. */
  lemma OneDeliveryEach(steps: seq<Step>, d: Id, e: Id)
    requires Legal(Empty(), steps)
    requires d in Run(Empty(), steps).deliveries && e in Run(Empty(), steps).deliveries
    requires var deliveries := Run(Empty(), steps).deliveries;
             && deliveries[d].alert == deliveries[e].alert
             && deliveries[d].integration == deliveries[e].integration
    ensures d == e
  {
    hide Run, Legal;
    StaysOneEach(Empty(), steps);
  }

  /** At most five Integrations are enabled, and routing never finds more. */
  lemma EnabledStaysLimited(steps: seq<Step>, s: Step)
    requires Legal(Empty(), steps)
    ensures |EnabledIds(Run(Empty(), steps).rows)| <= MAX_ENABLED
    ensures s.Routes? && Enabled(Run(Empty(), steps), s) ==>
              Route(Run(Empty(), steps), s.alert, s.at, WindowOf(s), s.targets, s.ids).1.Ok?
  {
    hide Legal, Run;
    Reached(steps);
    if s.Routes? && Enabled(Run(Empty(), steps), s) { RouteKeepsInv(Run(Empty(), steps), s); }
    hide IntegrationsInv, PinsInv, DeliveriesInv;
  }
}
