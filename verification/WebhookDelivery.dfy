/** Routing, claiming and completing deliveries keep the invariant. */
module WebhookDelivery {
  import opened Common
  import Selection
  import opened Webhook
  import opened WebhookInv

  // ---------------------------------------------------------------------------------------------
  // Routing
  // ---------------------------------------------------------------------------------------------

  /** Exactly the new deliveries are added, one for each target. */
  lemma {:induction false} RouteAllAdds(
    db: Db, alert: Id, at: Time, window: Option<Id>, targets: seq<Id>, ids: seq<Id>)
    requires |targets| <= |ids| && Distinct(ids)
    requires forall k :: 0 <= k < |targets| ==> targets[k] in db.rows
    requires forall k :: 0 <= k < |ids| ==> ids[k] !in db.deliveries
    ensures var after := RouteAll(db, alert, at, window, targets, ids);
            && (forall d :: d in after <==> d in db.deliveries || d in ids[..|targets|])
            && (forall d :: d in db.deliveries ==> after[d] == db.deliveries[d])
            && (forall k :: 0 <= k < |targets| ==>
                  ids[k] in after
                  && after[ids[k]] == Routed(alert, targets[k], db.rows[targets[k]], at, window))
    decreases |targets|
  {
    if targets != [] {
      var n := |targets| - 1;
      RouteAllAdds(db, alert, at, window, targets[..n], ids);
      assert ids[..|targets|] == ids[..n] + [ids[n]];
    }
  }

  lemma RoutedPin(db: Db, alert: Id, id: Id, at: Time, window: Option<Id>)
    requires IntegrationsInv(db.rows, db.secrets) && id in db.rows
    ensures PinInv(Routed(alert, id, db.rows[id], at, window), db.rows, db.secrets)
  {
    assert IntegrationInv(id, db.rows[id], db.secrets[id]);
  }

  lemma RoutedDelivery(db: Db, d: Id, alert: Id, id: Id, at: Time, window: Option<Id>)
    requires DeliveriesInv(db.deliveries, db.attempts, db.claims) && d !in db.deliveries && d != ""
    requires id in db.rows
    ensures DeliveryInv(d, Routed(alert, id, db.rows[id], at, window), db.attempts, db.claims)
  {
    forall n: int ensures (d, n) !in db.attempts {
      assert (d, n) in db.attempts ==> (d, n).0 in db.deliveries;
    }
  }

  lemma RoutedRow(db: Db, s: Step, d: Id)
    requires Inv(db) && s.Routes? && Enabled(db, s)
    requires d in RouteAll(db, s.alert, s.at, WindowOf(s), s.targets, s.ids)
    ensures var row := RouteAll(db, s.alert, s.at, WindowOf(s), s.targets, s.ids)[d];
            PinInv(row, db.rows, db.secrets) && DeliveryInv(d, row, db.attempts, db.claims)
  {
    hide IntegrationsInv, LimitInv, DeliveryInv, PinInv, RouteAll, Routed;
    RouteAllAdds(db, s.alert, s.at, WindowOf(s), s.targets, s.ids);
    if d !in db.deliveries {
      var k :| 0 <= k < |s.targets| && s.ids[k] == d;
      hide PinsInv;
      RoutedPin(db, s.alert, s.targets[k], s.at, WindowOf(s));
      RoutedDelivery(db, d, s.alert, s.targets[k], s.at, WindowOf(s));
    }
  }

  lemma RouteKeepsInv(db: Db, s: Step)
    requires Inv(db) && s.Routes? && Enabled(db, s)
    ensures Inv(Next(db, s))
    ensures Route(db, s.alert, s.at, WindowOf(s), s.targets, s.ids).1.Ok?
  {
    hide IntegrationsInv, DeliveryInv, PinInv, RouteAll, Routed;
    TargetsFit(db, s.targets);
    RouteAllAdds(db, s.alert, s.at, WindowOf(s), s.targets, s.ids);
    hide LimitInv;
    var after := RouteAll(db, s.alert, s.at, WindowOf(s), s.targets, s.ids);
    forall d | d in after
      ensures PinInv(after[d], db.rows, db.secrets)
      ensures DeliveryInv(d, after[d], db.attempts, db.claims)
    {
      RoutedRow(db, s, d);
    }
  }

  /** The limit on enabled Integrations holds, so routing never finds it violated. */
  lemma TargetsFit(db: Db, targets: seq<Id>)
    requires LimitInv(db.rows) && Distinct(targets)
    requires forall k :: 0 <= k < |targets| ==> targets[k] in db.rows && db.rows[targets[k]].enabled
    ensures |targets| <= MAX_ENABLED
  {
    var s := set k | 0 <= k < |targets| :: targets[k];
    assert s <= EnabledIds(db.rows);
    Cardinality(s, EnabledIds(db.rows));
    DistinctSize(targets);
  }

  lemma {:induction false} DistinctSize(s: seq<Id>)
    requires Distinct(s)
    ensures |set k | 0 <= k < |s| :: s[k]| == |s|
  {
    if s != [] {
      var n := |s| - 1;
      DistinctSize(s[..n]);
      assert (set k | 0 <= k < |s| :: s[k]) == (set k | 0 <= k < n :: s[..n][k]) + {s[n]};
    }
  }

  // ---------------------------------------------------------------------------------------------
  // Claiming
  // ---------------------------------------------------------------------------------------------

  /** The first half of a claim: expired attempts are written off, exhausted deliveries end. */
  lemma SweptHistory(db: Db, now: Time, id: Id)
    requires id in db.deliveries && HistoryInv(id, db.deliveries[id].attempts, db.attempts)
    ensures HistoryInv(id, db.deliveries[id].attempts, FinalizeExpired(db, now))
  {
    var after := FinalizeExpired(db, now);
    assert forall n: int :: (id, n) in after <==> (id, n) in db.attempts;
  }

  lemma SweptLast(db: Db, now: Time, id: Id)
    requires id in db.deliveries && HistoryInv(id, db.deliveries[id].attempts, db.attempts)
    requires LastInv(id, db.deliveries[id], db.attempts)
    ensures LastInv(id, Swept(db, now).deliveries[id], FinalizeExpired(db, now))
    ensures var after := Swept(db, now).deliveries[id];
            && after.attempts == db.deliveries[id].attempts
            && (after.lease.Some? ==> after.lease == db.deliveries[id].lease)
            && (after.completedAt == db.deliveries[id].completedAt
                || (db.deliveries[id].completedAt.None? && after.lease.None?))
            && after.integration == db.deliveries[id].integration
            && after.secretVersion == db.deliveries[id].secretVersion
    ensures var after := Swept(db, now).deliveries[id];
            Expired(db.deliveries[id], now) && db.deliveries[id].attempts == MAX_ATTEMPTS ==>
              after.completedAt == Some(now)
  {
    var d := db.deliveries[id];
    var attempts := FinalizeExpired(db, now);
    if Expired(d, now) && d.attempts >= 1 {
      assert !attempts[(id, d.attempts)].outcome.InProgress?;
      forall k | k in attempts && k.0 == id ensures !attempts[k].outcome.InProgress? {
        assert (id, k.1) in db.attempts;
      }
    }
  }

  lemma SweptClaims(db: Db, now: Time, id: Id)
    requires id in db.deliveries
    requires ClaimInv(id, db.deliveries[id], db.attempts, db.claims)
    requires HistoryInv(id, db.deliveries[id].attempts, db.attempts)
    requires LastInv(id, db.deliveries[id], db.attempts)
    ensures ClaimInv(id, Swept(db, now).deliveries[id], FinalizeExpired(db, now), db.claims)
  {
    SweptLast(db, now, id);
    hide HistoryInv, LastInv;
  }

  lemma SweptKeepsInv(db: Db, now: Time)
    requires Inv(db)
    ensures Inv(Swept(db, now))
  {
    var after := Swept(db, now);
    hide IntegrationsInv, LimitInv, HistoryInv, LastInv, ClaimInv;
    forall id | id in after.deliveries
      ensures DeliveryInv(id, after.deliveries[id], after.attempts, after.claims)
      ensures PinInv(after.deliveries[id], db.rows, db.secrets)
    {
      assert DeliveryInv(id, db.deliveries[id], db.attempts, db.claims);
      assert PinInv(db.deliveries[id], db.rows, db.secrets);
      SweptHistory(db, now, id);
      SweptLast(db, now, id);
      SweptClaims(db, now, id);
    }
  }

  lemma PickedAreDue(deliveries: map<Id, Delivery>, visible: seq<Id>, now: Time, limit: nat)
    ensures forall id :: id in Picked(deliveries, visible, now, limit) ==>
              id in deliveries && Due(deliveries[id], now) && id in visible
    ensures |Picked(deliveries, visible, now, limit)| <= limit
  {
    Selection.ChosenAreEligible(deliveries, DueAt(now), visible, limit);
  }

  /** Which attempts exist after leasing: one more for each picked delivery. */
  lemma BegunAttempts(db: Db, holder: Id, now: Time, expires: Time, picked: set<Id>, id: Id, n: int)
    requires id in db.deliveries
    ensures var after := LeasePicked(db, holder, now, expires, picked);
            var added := id in picked && n == db.deliveries[id].attempts + 1;
            && ((id, n) in after.attempts <==> (id, n) in db.attempts || added)
            && ((id, n) in after.claims <==> (id, n) in db.claims || added)
            && (added ==> after.attempts[(id, n)] == Attempt(now, None, InProgress, None)
                          && after.claims[(id, n)] == Claim(holder, now, expires))
            && (!added && (id, n) in db.attempts ==>
                  after.attempts[(id, n)] == db.attempts[(id, n)])
            && (!added && (id, n) in db.claims ==> after.claims[(id, n)] == db.claims[(id, n)])
  {
  }

  ghost predicate Ready(d: Delivery, id: Id, attempts: map<(Id, int), Attempt>) {
    && d.completedAt.None? && d.attempts < MAX_ATTEMPTS
    && (d.attempts >= 1 ==>
          (id, d.attempts) in attempts && !attempts[(id, d.attempts)].outcome.InProgress?)
  }

  lemma LeasedHistory(db: Db, holder: Id, now: Time, expires: Time, picked: set<Id>, id: Id)
    requires id in db.deliveries && DeliveryInv(id, db.deliveries[id], db.attempts, db.claims)
    requires id in picked && Ready(db.deliveries[id], id, db.attempts)
    ensures HistoryInv(id, db.deliveries[id].attempts + 1,
                       LeasePicked(db, holder, now, expires, picked).attempts)
  {
    hide LeasePicked, ClaimInv;
    var after := LeasePicked(db, holder, now, expires, picked);
    var count := db.deliveries[id].attempts;
    forall n: int
      ensures (id, n) in after.attempts <==> 1 <= n <= count + 1
      ensures 1 <= n < count + 1 ==>
                (id, n) in after.attempts && Over(after.attempts[(id, n)])
                && !after.attempts[(id, n)].outcome.Succeeded?
    {
      BegunAttempts(db, holder, now, expires, picked, id, n);
    }
  }

  lemma LeasedClaim(db: Db, holder: Id, now: Time, expires: Time, picked: set<Id>, id: Id)
    requires id in db.deliveries && DeliveryInv(id, db.deliveries[id], db.attempts, db.claims)
    requires id in picked && holder != ""
    ensures var after := LeasePicked(db, holder, now, expires, picked);
            ClaimInv(id, Leased(db.deliveries[id], holder, expires), after.attempts, after.claims)
  {
    hide LeasePicked, HistoryInv, LastInv;
    var after := LeasePicked(db, holder, now, expires, picked);
    forall n: int | (id, n) in after.attempts
      ensures (id, n) in after.claims && after.claims[(id, n)].holder != ""
      ensures after.claims[(id, n)].startedAt == after.attempts[(id, n)].startedAt
    {
      BegunAttempts(db, holder, now, expires, picked, id, n);
    }
    BegunAttempts(db, holder, now, expires, picked, id, db.deliveries[id].attempts + 1);
  }

  /** A leased delivery starts its next attempt. */
  lemma LeasedDelivery(db: Db, holder: Id, now: Time, expires: Time, picked: set<Id>, id: Id)
    requires id in db.deliveries && DeliveryInv(id, db.deliveries[id], db.attempts, db.claims)
    requires id in picked && Ready(db.deliveries[id], id, db.attempts) && holder != ""
    ensures var after := LeasePicked(db, holder, now, expires, picked);
            DeliveryInv(id, Leased(db.deliveries[id], holder, expires), after.attempts,
                        after.claims)
  {
    LeasedHistory(db, holder, now, expires, picked, id);
    LeasedClaim(db, holder, now, expires, picked, id);
    BegunAttempts(db, holder, now, expires, picked, id, db.deliveries[id].attempts + 1);
    hide LeasePicked, HistoryInv, ClaimInv;
  }

  /** The other deliveries keep their attempts. */
  lemma UnpickedDelivery(db: Db, holder: Id, now: Time, expires: Time, picked: set<Id>, id: Id)
    requires id in db.deliveries && DeliveryInv(id, db.deliveries[id], db.attempts, db.claims)
    requires id !in picked
    ensures var after := LeasePicked(db, holder, now, expires, picked);
            DeliveryInv(id, db.deliveries[id], after.attempts, after.claims)
  {
    hide LeasePicked;
    var after := LeasePicked(db, holder, now, expires, picked);
    forall n: int
      ensures (id, n) in after.attempts <==> (id, n) in db.attempts
      ensures (id, n) in after.claims <==> (id, n) in db.claims
      ensures (id, n) in db.attempts ==> after.attempts[(id, n)] == db.attempts[(id, n)]
      ensures (id, n) in db.claims ==> after.claims[(id, n)] == db.claims[(id, n)]
    {
      BegunAttempts(db, holder, now, expires, picked, id, n);
    }
    SameAttempts(id, db.deliveries[id], db.attempts, db.claims, after.attempts, after.claims);
  }

  lemma SameAttempts(
    id: Id, d: Delivery, attempts: map<(Id, int), Attempt>, claims: map<(Id, int), Claim>,
    attempts': map<(Id, int), Attempt>, claims': map<(Id, int), Claim>)
    requires DeliveryInv(id, d, attempts, claims)
    requires forall n: int :: (id, n) in attempts' <==> (id, n) in attempts
    requires forall n: int :: (id, n) in attempts ==>
               (id, n) in attempts' && attempts'[(id, n)] == attempts[(id, n)]
    requires forall n: int :: (id, n) in claims' <==> (id, n) in claims
    requires forall n: int :: (id, n) in claims ==>
               (id, n) in claims' && claims'[(id, n)] == claims[(id, n)]
    ensures DeliveryInv(id, d, attempts', claims')
  {
  }

  lemma LeaseKeepsInv(db: Db, holder: Id, now: Time, expires: Time, picked: set<Id>)
    requires Inv(db) && holder != ""
    requires forall id :: id in picked ==>
               id in db.deliveries && Ready(db.deliveries[id], id, db.attempts)
    ensures Inv(LeasePicked(db, holder, now, expires, picked))
  {
    hide IntegrationsInv, LimitInv, DeliveryInv, Ready;
    var after := LeasePicked(db, holder, now, expires, picked);
    forall id | id in after.deliveries
      ensures DeliveryInv(id, after.deliveries[id], after.attempts, after.claims)
      ensures PinInv(after.deliveries[id], db.rows, db.secrets)
    {
      assert DeliveryInv(id, db.deliveries[id], db.attempts, db.claims);
      assert PinInv(db.deliveries[id], db.rows, db.secrets);
      if id in picked {
        LeasedDelivery(db, holder, now, expires, picked, id);
      } else {
        UnpickedDelivery(db, holder, now, expires, picked, id);
      }
    }
  }

  /** After the sweep, a due delivery has no attempt that might still be running. */
  lemma DueIsReady(db: Db, now: Time, id: Id)
    requires Inv(db) && id in db.deliveries && Due(Swept(db, now).deliveries[id], now)
    ensures Ready(Swept(db, now).deliveries[id], id, Swept(db, now).attempts)
  {
    assert DeliveryInv(id, db.deliveries[id], db.attempts, db.claims);
    SweptLast(db, now, id);
    hide IntegrationsInv, LimitInv, PinsInv, DeliveriesInv, HistoryInv, ClaimInv;
  }

  lemma ClaimKeepsInv(db: Db, s: Step)
    requires Inv(db) && s.Claims?
    ensures Inv(Next(db, s))
  {
    hide Inv, Swept, LeasePicked, Ready;
    if s.holder != "" && 1 <= s.limit <= DELIVERY_BATCH && s.now < s.expires {
      var swept := Swept(db, s.now);
      SweptKeepsInv(db, s.now);
      SweptSameKeys(db, s.now);
      PickedAreDue(swept.deliveries, s.visible, s.now, s.limit);
      var picked := Picked(swept.deliveries, s.visible, s.now, s.limit);
      forall id | id in picked
        ensures id in swept.deliveries && Ready(swept.deliveries[id], id, swept.attempts)
      {
        DueIsReady(db, s.now, id);
      }
      LeaseKeepsInv(swept, s.holder, s.now, s.expires, picked);
    }
  }

  lemma SweptSameKeys(db: Db, now: Time)
    ensures Swept(db, now).deliveries.Keys == db.deliveries.Keys
  {
  }

  // ---------------------------------------------------------------------------------------------
  // Completing
  // ---------------------------------------------------------------------------------------------

  /** What an executor may report. */
  lemma ClassifiedOutcome(response: Response, at: Time)
    ensures var x := Classify(response, at);
            && !x.outcome.InProgress? && x.finishedAt == at
            && (x.outcome.Succeeded? ==> !x.retry && x.code.None?)
            && (x.outcome.Cancelled? ==> x.retry)
            && (x.outcome.Succeeded? <==> x.code.None?)
  {
  }

  lemma EndedDelivery(db: Db, s: Step)
    requires Inv(db) && s.Ends? && EndAttempt(db, s).1.Ok?
    ensures s.id in db.deliveries && (s.id, s.sequence) in db.attempts
    ensures db.deliveries[s.id].completedAt.None?
    ensures var after := EndAttempt(db, s).0;
            DeliveryInv(s.id, after.deliveries[s.id], after.attempts, after.claims)
  {
    hide IntegrationsInv, LimitInv, PinsInv;
    ClassifiedOutcome(s.response, s.at);
    hide Classify;
    assert DeliveryInv(s.id, db.deliveries[s.id], db.attempts, db.claims);
  }

  lemma EndKeepsInv(db: Db, s: Step)
    requires Inv(db) && s.Ends?
    ensures Inv(Next(db, s))
  {
    hide IntegrationsInv, LimitInv, DeliveryInv, Classify;
    if EndAttempt(db, s).1.Ok? {
      var after := EndAttempt(db, s).0;
      EndedDelivery(db, s);
      forall id | id in after.deliveries
        ensures DeliveryInv(id, after.deliveries[id], after.attempts, after.claims)
        ensures PinInv(after.deliveries[id], db.rows, db.secrets)
      {
        assert DeliveryInv(id, db.deliveries[id], db.attempts, db.claims);
        assert PinInv(db.deliveries[id], db.rows, db.secrets);
        if id != s.id {
          SameAttempts(id, db.deliveries[id], db.attempts, db.claims, after.attempts, after.claims);
        }
      }
    }
  }

  /** Every step of the three protocols keeps the invariant. */
  lemma NextKeepsInv(db: Db, s: Step)
    requires Inv(db) && Enabled(db, s)
    ensures Inv(Next(db, s))
  {
    match s
    case Creates(_, _, _) => hide *; CreateKeepsInv(db, s);
    case Enables(_, _, _, _) => hide *; EnableKeepsInv(db, s);
    case Prepares(_, _, _, _) => hide *; PrepareKeepsInv(db, s);
    case Activates(_, _, _) => hide *; ActivateKeepsInv(db, s);
    case Retires(_, _, _) => hide *; RetireKeepsInv(db, s);
    case Routes(_, _, _, _, _, _, _) => hide *; RouteKeepsInv(db, s);
    case Claims(_, _, _, _, _) => hide *; ClaimKeepsInv(db, s);
    case Ends(_, _, _, _, _) => hide *; EndKeepsInv(db, s);
  }

  lemma {:induction false} RunKeepsInv(db: Db, steps: seq<Step>)
    requires Inv(db) && Legal(db, steps)
    ensures Inv(Run(db, steps))
    decreases |steps|
  {
    hide Inv, Next, Enabled;
    if steps != [] {
      NextKeepsInv(db, steps[0]);
      RunKeepsInv(Next(db, steps[0]), steps[1..]);
    }
  }
}
