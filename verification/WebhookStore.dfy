/** The Webhook store, its dispatcher and the rotation service, statement by statement. */
module WebhookStore {
  import opened Common
  import Selection
  import M = Maintenance
  import opened Webhook
  import opened WebhookInv
  import D = WebhookDelivery

  /** The query for the secret in one state. */
  method FindSecret(secrets: seq<Secret>, state: SecretState) returns (r: Option<nat>)
    ensures r == FindState(secrets, state)
  {
    var i := 0;
    assert secrets[0..] == secrets;
    while i < |secrets|
      invariant 0 <= i <= |secrets|
      invariant var rest := FindState(secrets[i..], state);
                FindState(secrets, state) == if rest.Some? then Some(i + rest.value) else None
    {
      if secrets[i].state == state { return Some(i); }
      assert secrets[i..][1..] == secrets[i + 1..];
      i := i + 1;
    }
    return None;
  }

  class Store {
    var rows: map<Id, Row>
    var secrets: map<Id, seq<Secret>>
    var deliveries: map<Id, Delivery>
    var attempts: map<(Id, int), Attempt>
    var claims: map<(Id, int), Claim>

    function View(): Db
      reads this
    {
      Db(rows, secrets, deliveries, attempts, claims)
    }

    constructor ()
      ensures View() == Empty()
    {
      rows, secrets, deliveries, attempts, claims := map[], map[], map[], map[], map[];
    }

    method Create(id: Id, envelope: string, now: Time)
      modifies `rows, `secrets
      ensures View() == Webhook.Create(old(View()), id, envelope, now)
    {
      rows := rows[id := Row(false, 1, 1, now, now)];
      secrets := secrets[id := [Secret(1, Active, Some(envelope))]];
    }

    /** Loads and locks an Integration, and checks the version the caller last saw. */
    method Lock(id: Id, expected: int) returns (r: Result<Integration, Fault>)
      ensures r == LoadExpected(View(), id, expected)
    {
      if id !in rows { return Err(NotFound); }
      var own := if id in secrets then secrets[id] else [];
      var pending := FindSecret(own, Pending);
      var retiring := FindSecret(own, Retiring);
      var row := rows[id];
      r := NewIntegration(Integration(
        id, row.enabled, row.version, row.active,
        if pending.Some? then Some(own[pending.value].version) else None,
        if retiring.Some? then Some(own[retiring.value].version) else None,
        row.created, row.updated));
      if r.Ok? && r.value.version != expected { return Err(ConcurrentUpdate); }
    }

    method SetEnabled(id: Id, expected: int, enabled: bool, now: Time)
      returns (r: Result<(), Fault>)
      modifies `rows
      ensures (View(), r) == Webhook.SetEnabled(old(View()), id, expected, enabled, now)
    {
      hide NewIntegration, FindState;
      var current := Lock(id, expected);
      if current.Err? { return Err(current.error); }
      if current.value.enabled == enabled { return Ok(()); }
      if enabled {
        var count := |set i | i in rows && rows[i].enabled|;
        if count >= MAX_ENABLED { return Err(EnabledLimit); }
      }
      rows := rows[id := rows[id].(enabled := enabled, version := current.value.version + 1,
                                   updated := now)];
      return Ok(());
    }

    method PrepareSecret(updated: Integration, secret: Secret, expected: int)
      returns (r: Result<(), Fault>)
      modifies `rows, `secrets
      ensures (View(), r) == Webhook.PrepareSecret(old(View()), updated, secret, expected)
    {
      hide NewIntegration, FindState;
      var current := Lock(updated.id, expected);
      if current.Err? { return Err(current.error); }
      var c := current.value;
      if updated.version != c.version + 1 || updated.active != c.active
         || secret.version != c.active + 1 || !secret.state.Pending? || secret.envelope.None? {
        return Err(BadSnapshot);
      }
      var own := if updated.id in secrets then secrets[updated.id] else [];
      var pending := FindSecret(own, Pending);
      var retiring := FindSecret(own, Retiring);
      if pending.Some? || retiring.Some? { return Err(RotationInProgress); }
      secrets := secrets[updated.id := own + [secret]];
      rows := rows[updated.id := rows[updated.id].(version := rows[updated.id].version + 1,
                                                   active := c.active, updated := updated.updated)];
      return Ok(());
    }

    method ActivateSecret(id: Id, expected: int, now: Time) returns (r: Result<(), Fault>)
      modifies `rows, `secrets
      ensures (View(), r) == Webhook.ActivateSecret(old(View()), id, expected, now)
    {
      hide NewIntegration, FindState;
      var current := Lock(id, expected);
      if current.Err? { return Err(current.error); }
      var own := if id in secrets then secrets[id] else [];
      var pending := FindSecret(own, Pending);
      if pending.None? { return Err(PendingMissing); }
      var active := FindSecret(own, Active);
      if active.None? || own[active.value].version != current.value.active {
        return Err(ActiveMissing);
      }
      var version := own[pending.value].version;
      own := own[active.value := own[active.value].(state := Retiring)];
      own := own[pending.value := own[pending.value].(state := Active)];
      secrets := secrets[id := own];
      rows := rows[id := rows[id].(version := rows[id].version + 1, active := version,
                                   updated := now)];
      return Ok(());
    }

    method RetireSecret(id: Id, expected: int, now: Time) returns (r: Result<(), Fault>)
      modifies `rows, `secrets
      ensures (View(), r) == Webhook.RetireSecret(old(View()), id, expected, now)
    {
      hide NewIntegration, FindState;
      var current := Lock(id, expected);
      if current.Err? { return Err(current.error); }
      var own := if id in secrets then secrets[id] else [];
      var retiring := FindSecret(own, Retiring);
      if retiring.None? { return Err(RetiringMissing); }
      var version := own[retiring.value].version;
      var inUse := exists d :: d in deliveries && deliveries[d].integration == id
                               && deliveries[d].secretVersion == version
                               && deliveries[d].completedAt.None?;
      if inUse { return Err(RetiringInUse); }
      own := own[retiring.value := own[retiring.value].(state := Retired, envelope := None)];
      secrets := secrets[id := own];
      rows := rows[id := rows[id].(version := rows[id].version + 1, active := current.value.active,
                                   updated := now)];
      return Ok(());
    }

    /**
     * Finds the window that applied when the Alert's fact occurred, then inserts a delivery for each
     * enabled Integration. `listing` and `targets` are what the two queries list, in their orders.
     */
    method Route(alert: Id, at: Time, monitor: Id, occurredAt: Time, windows: map<Id, M.Window>,
                 listing: seq<Id>, targets: seq<Id>, ids: seq<Id>)
      returns (r: Result<(), Fault>)
      requires |targets| <= |ids| && M.Lists(windows, listing)
      modifies `deliveries
      ensures (View(), r)
           == Webhook.Route(old(View()), alert, at, M.MatchOf(windows, monitor, occurredAt), targets,
                            ids)
    {
      hide M.MatchOf, M.Lists;
      var window := M.FindMatch(windows, listing, monitor, occurredAt);
      r := InsertDeliveries(alert, at, window, targets, ids);
    }

    method InsertDeliveries(alert: Id, at: Time, window: Option<Id>, targets: seq<Id>, ids: seq<Id>)
      returns (r: Result<(), Fault>)
      requires |targets| <= |ids|
      modifies `deliveries
      ensures (View(), r) == Webhook.Route(old(View()), alert, at, window, targets, ids)
    {
      if |targets| > MAX_ENABLED { return Err(LimitViolated); }
      ghost var before := View();
      var i := 0;
      assert targets[..0] == [];
      while i < |targets|
        invariant 0 <= i <= |targets|
        invariant deliveries == RouteAll(before, alert, at, window, targets[..i], ids)
      {
        assert targets[..i + 1][..i] == targets[..i];
        if targets[i] in rows {
          var row := rows[targets[i]];
          deliveries := deliveries[ids[i] :=
            Delivery(alert, targets[i], row.version, row.active, at, at, 0, None,
                     if window.Some? then Some(at) else None, window)];
        }
        i := i + 1;
      }
      assert targets[..i] == targets;
      return Ok(());
    }

    /** Writes off expired attempts, completes exhausted deliveries, and leases what is due. */
    method ClaimDeliveries(holder: Id, now: Time, expires: Time, limit: int, visible: seq<Id>)
      returns (r: Result<set<Id>, Fault>)
      modifies `deliveries, `attempts, `claims
      ensures (View(), r) == Webhook.ClaimDeliveries(old(View()), holder, now, expires, limit, visible)
    {
      if holder == "" || limit < 1 || limit > DELIVERY_BATCH || expires <= now {
        return Err(Invalid);
      }
      hide Swept, LeasePicked, Picked;
      SweepExpired(now);
      var candidates := Selection.Choose(deliveries, DueAt(now), visible, limit);
      D.PickedAreDue(deliveries, visible, now, limit);
      LeaseEach(candidates, holder, now, expires);
      return Ok(candidates);
    }

    /** Writes off expired attempts, then completes deliveries that have none left. */
    method SweepExpired(now: Time)
      modifies `deliveries, `attempts
      ensures View() == Swept(old(View()), now)
    {
      attempts := FinalizeExpired(View(), now);
      deliveries := CompleteExhausted(deliveries, attempts, now);
    }

    /** Leases the candidates one by one, starting an attempt for each. */
    method LeaseEach(candidates: set<Id>, holder: Id, now: Time, expires: Time)
      requires candidates <= deliveries.Keys
      modifies `deliveries, `attempts, `claims
      ensures View() == LeasePicked(old(View()), holder, now, expires, candidates)
    {
      hide LeasePicked;
      ghost var swept := View();
      var left, done: set<Id> := candidates, {};
      NothingLeased(swept, holder, now, expires);
      while left != {}
        invariant left + done == candidates && left !! done
        invariant View() == LeasePicked(swept, holder, now, expires, done)
        decreases left
      {
        var id :| id in left;
        LeaseOneMore(swept, holder, now, expires, done, id);
        var sequence := deliveries[id].attempts + 1;
        deliveries := deliveries[id := deliveries[id].(attempts := sequence,
                                                       lease := Some(Lease(holder, expires)))];
        attempts := attempts[(id, sequence) := Attempt(now, None, InProgress, None)];
        claims := claims[(id, sequence) := Claim(holder, now, expires)];
        left, done := left - {id}, done + {id};
      }
      assert done == candidates;
    }

    method Complete(id: Id, sequence: int, claim: Claim, x: Execution, next: Option<Time>,
                    terminal: bool)
      returns (r: Result<(), Fault>)
      modifies `deliveries, `attempts
      ensures (View(), r) == Webhook.Complete(old(View()), id, sequence, claim, x, next, terminal)
    {
      if id == "" || claim.holder == "" || sequence < 1 || x.finishedAt < claim.startedAt
         || (!terminal && next.None?) || (terminal && next.Some?) {
        return Err(Invalid);
      }
      if (id, sequence) !in attempts || !attempts[(id, sequence)].outcome.InProgress?
         || id !in deliveries || deliveries[id].lease.None?
         || deliveries[id].lease.value.holder != claim.holder
         || deliveries[id].lease.value.expires <= x.finishedAt
         || deliveries[id].attempts != sequence {
        return Err(LeaseLost);
      }
      attempts := attempts[(id, sequence) := attempts[(id, sequence)].(
        finishedAt := Some(x.finishedAt), outcome := x.outcome, code := x.code)];
      var d := deliveries[id];
      if next.Some? { d := d.(availableAt := next.value); }
      deliveries := deliveries[id := d.(
        completedAt := if terminal then Some(x.finishedAt) else None, lease := None)];
      return Ok(());
    }

    /** Other workers and operators act. */
    method Meanwhile(steps: seq<Step>)
      modifies this
      ensures View() == Run(old(View()), steps)
    {
      var after := Run(View(), steps);
      rows, secrets, deliveries := after.rows, after.secrets, after.deliveries;
      attempts, claims := after.attempts, after.claims;
    }
  }

  lemma NothingLeased(db: Db, holder: Id, now: Time, expires: Time)
    ensures LeasePicked(db, holder, now, expires, {}) == db
  {
    hide LeaseAll, Begun, Given;
    LeaseNone(db.deliveries, holder, expires);
    BeginNone(db.deliveries, now);
    GiveNone(db.deliveries, holder, now, expires);
    AddNone(db.attempts);
    AddNone(db.claims);
  }

  lemma LeaseNone(d: map<Id, Delivery>, holder: Id, expires: Time)
    ensures LeaseAll(d, {}, holder, expires) == d
  {
  }

  lemma BeginNone(d: map<Id, Delivery>, now: Time)
    ensures Begun(d, {}, now) == map[]
  {
  }

  lemma GiveNone(d: map<Id, Delivery>, holder: Id, now: Time, expires: Time)
    ensures Given(d, {}, holder, now, expires) == map[]
  {
  }

  lemma AddNone<K, V>(m: map<K, V>)
    ensures m + map[] == m
  {
  }

  lemma LeaseOneRow(d: map<Id, Delivery>, holder: Id, expires: Time, done: set<Id>, id: Id)
    requires id in d && id !in done
    ensures id in LeaseAll(d, done, holder, expires)
    ensures LeaseAll(d, done, holder, expires)[id] == d[id]
    ensures LeaseAll(d, done + {id}, holder, expires)
         == LeaseAll(d, done, holder, expires)[id := Leased(d[id], holder, expires)]
  {
  }

  lemma BeginOneAttempt(d: map<Id, Delivery>, now: Time, done: set<Id>, id: Id)
    requires id in d
    ensures Begun(d, done + {id}, now)
         == Begun(d, done, now)[(id, d[id].attempts + 1) := Attempt(now, None, InProgress, None)]
  {
  }

  lemma GiveOneClaim(d: map<Id, Delivery>, holder: Id, now: Time, expires: Time, done: set<Id>,
                     id: Id)
    requires id in d
    ensures Given(d, done + {id}, holder, now, expires)
         == Given(d, done, holder, now, expires)[(id, d[id].attempts + 1) :=
              Claim(holder, now, expires)]
  {
  }

  lemma AddOne<K, V>(m: map<K, V>, n: map<K, V>, k: K, v: V)
    ensures m + n[k := v] == (m + n)[k := v]
  {
  }

  lemma LeaseOneMore(db: Db, holder: Id, now: Time, expires: Time, done: set<Id>, id: Id)
    requires id in db.deliveries && id !in done
    ensures var before := LeasePicked(db, holder, now, expires, done);
            var k := (id, db.deliveries[id].attempts + 1);
            && id in before.deliveries && before.deliveries[id] == db.deliveries[id]
            && LeasePicked(db, holder, now, expires, done + {id})
               == before.(
                    deliveries := before.deliveries[id := Leased(db.deliveries[id], holder, expires)],
                    attempts := before.attempts[k := Attempt(now, None, InProgress, None)],
                    claims := before.claims[k := Claim(holder, now, expires)])
  {
    hide LeaseAll, Begun, Given;
    LeaseOneRow(db.deliveries, holder, expires, done, id);
    BeginOneAttempt(db.deliveries, now, done, id);
    GiveOneClaim(db.deliveries, holder, now, expires, done, id);
    var k := (id, db.deliveries[id].attempts + 1);
    AddOne(db.attempts, Begun(db.deliveries, done, now), k,
           Attempt(now, None, InProgress, None));
    AddOne(db.claims, Given(db.deliveries, done, holder, now, expires), k,
           Claim(holder, now, expires));
  }
}
