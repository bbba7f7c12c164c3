/**
 * The invariant that rotation, routing and delivery keep together: the exact shape of a rotation,
 * which secrets unfinished deliveries may need, and the history of every delivery's attempts.
 */
module WebhookInv {
  import opened Common
  import opened Webhook

  // ---------------------------------------------------------------------------------------------
  // Rotation
  // ---------------------------------------------------------------------------------------------

  /**
   * Versions are numbered from one. One secret is active; the one before it is retiring or retired
   * and all older ones are retired; a pending one may follow it, but never while another retires.
   */
  ghost predicate Shape(secrets: seq<Secret>, active: int) {
    && 1 <= active <= |secrets| <= active + 1
    && (forall k :: 0 <= k < |secrets| ==> secrets[k].version == k + 1)
    && secrets[active - 1].state.Active?
    && (forall k :: 0 <= k < active - 2 ==> secrets[k].state.Retired?)
    && (active >= 2 ==>
          secrets[active - 2].state.Retiring? || secrets[active - 2].state.Retired?)
    && (|secrets| == active + 1 ==>
          && secrets[active].state.Pending?
          && (active >= 2 ==> secrets[active - 2].state.Retired?))
    && (forall k :: 0 <= k < |secrets| ==>
          (secrets[k].envelope.None? <==> secrets[k].state.Retired?))
  }

  ghost predicate IntegrationInv(id: Id, row: Row, secrets: seq<Secret>) {
    id != "" && row.version >= 1 && row.created <= row.updated && Shape(secrets, row.active)
  }

  ghost predicate IntegrationsInv(rows: map<Id, Row>, secrets: map<Id, seq<Secret>>) {
    && rows.Keys == secrets.Keys
    && forall id :: id in rows ==> IntegrationInv(id, rows[id], secrets[id])
  }

  /** What a query by state finds in a rotation of that shape. */
  lemma ShapeDetermines(secrets: seq<Secret>, active: int)
    requires Shape(secrets, active)
    ensures FindState(secrets, Active) == Some(active - 1)
    ensures FindState(secrets, Pending) == if |secrets| > active then Some(active) else None
    ensures FindState(secrets, Retiring)
         == if active >= 2 && secrets[active - 2].state.Retiring? then Some(active - 2) else None
  {
    hide FindState;
  }

  /** A row of that shape is always read back: the checks on pending and retiring never fail. */
  lemma ShapeRestores(id: Id, row: Row, secrets: seq<Secret>)
    requires IntegrationInv(id, row, secrets)
    ensures NewIntegration(Joined(id, row, secrets)) == Ok(Joined(id, row, secrets))
    ensures Joined(id, row, secrets).pending
         == if |secrets| > row.active then Some(row.active + 1) else None
    ensures Joined(id, row, secrets).retiring
         == if row.active >= 2 && secrets[row.active - 2].state.Retiring?
            then Some(row.active - 1) else None
  {
    ShapeDetermines(secrets, row.active);
    hide FindState;
  }

  // ---------------------------------------------------------------------------------------------
  // Pinned secrets
  // ---------------------------------------------------------------------------------------------

  /** A delivery names a secret that exists, and until it is finished one that is not erased. */
  ghost predicate PinInv(d: Delivery, rows: map<Id, Row>, secrets: map<Id, seq<Secret>>) {
    && d.integration in rows && d.integration in secrets
    && 1 <= d.secretVersion <= rows[d.integration].active
    && d.secretVersion <= |secrets[d.integration]|
    && (d.completedAt.None? ==> !secrets[d.integration][d.secretVersion - 1].state.Retired?)
  }

  ghost predicate PinsInv(
    deliveries: map<Id, Delivery>, rows: map<Id, Row>, secrets: map<Id, seq<Secret>>)
  {
    forall id :: id in deliveries ==> PinInv(deliveries[id], rows, secrets)
  }

  // ---------------------------------------------------------------------------------------------
  // Attempts
  // ---------------------------------------------------------------------------------------------

  ghost predicate Over(a: Attempt) { !a.outcome.InProgress? && a.finishedAt.Some? }

  /** Attempts are numbered without gaps, and only the last may be unfinished or have succeeded. */
  ghost predicate HistoryInv(id: Id, count: int, attempts: map<(Id, int), Attempt>) {
    && 0 <= count <= MAX_ATTEMPTS
    && (forall n: int :: (id, n) in attempts <==> 1 <= n <= count)
    && (forall n: int :: 1 <= n < count ==>
          (id, n) in attempts && Over(attempts[(id, n)]) && !attempts[(id, n)].outcome.Succeeded?)
  }

  /** How a delivery's own columns follow its last attempt. */
  ghost predicate LastInv(id: Id, d: Delivery, attempts: map<(Id, int), Attempt>) {
    && (d.attempts >= 1 ==>
          && (id, d.attempts) in attempts
          && var last := attempts[(id, d.attempts)];
             && (last.outcome.InProgress? <==> last.finishedAt.None?)
             && (last.outcome.InProgress? ==> d.completedAt.None? && d.lease.Some?)
             && (last.outcome.Succeeded? ==> d.completedAt.Some?))
    && (d.completedAt.Some? ==> d.lease.None?)
    && (d.lease.Some? ==> d.attempts >= 1)
    && (d.suppressedBy.Some? ==> d.completedAt.Some? && d.attempts == 0)
    && (d.completedAt.None? && d.attempts == MAX_ATTEMPTS ==>
          (id, d.attempts) in attempts && attempts[(id, d.attempts)].outcome.InProgress?)
  }

  /** A running attempt belongs to the worker whose lease is on the delivery. */
  ghost predicate ClaimInv(
    id: Id, d: Delivery, attempts: map<(Id, int), Attempt>, claims: map<(Id, int), Claim>)
  {
    && (forall n: int :: (id, n) in attempts ==>
          && (id, n) in claims && claims[(id, n)].holder != ""
          && claims[(id, n)].startedAt == attempts[(id, n)].startedAt)
    && (d.lease.Some? && (id, d.attempts) in claims ==>
          var c := claims[(id, d.attempts)];
          d.lease.value == Lease(c.holder, c.expires))
  }

  ghost predicate DeliveryInv(
    id: Id, d: Delivery, attempts: map<(Id, int), Attempt>, claims: map<(Id, int), Claim>)
  {
    && id != "" && HistoryInv(id, d.attempts, attempts) && LastInv(id, d, attempts)
    && ClaimInv(id, d, attempts, claims)
  }

  ghost predicate DeliveriesInv(
    deliveries: map<Id, Delivery>, attempts: map<(Id, int), Attempt>, claims: map<(Id, int), Claim>)
  {
    && (forall id :: id in deliveries ==> DeliveryInv(id, deliveries[id], attempts, claims))
    && (forall k :: k in attempts ==> k.0 in deliveries)
    && claims.Keys == attempts.Keys
  }

  ghost predicate LimitInv(rows: map<Id, Row>) { |EnabledIds(rows)| <= MAX_ENABLED }

  ghost predicate Inv(db: Db) {
    && IntegrationsInv(db.rows, db.secrets) && LimitInv(db.rows)
    && PinsInv(db.deliveries, db.rows, db.secrets)
    && DeliveriesInv(db.deliveries, db.attempts, db.claims)
  }

  lemma EmptyInv()
    ensures Inv(Empty())
  {
    assert EnabledIds(map[]) == {};
  }

  // ---------------------------------------------------------------------------------------------
  // Integrations and rotation keep it
  // ---------------------------------------------------------------------------------------------

  lemma LoadSucceeds(db: Db, id: Id, expected: int)
    requires IntegrationsInv(db.rows, db.secrets)
    ensures var current := LoadExpected(db, id, expected);
            && (id !in db.rows ==> current == Err(NotFound))
            && (id in db.rows && db.rows[id].version != expected ==> current == Err(ConcurrentUpdate))
            && (id in db.rows && db.rows[id].version == expected ==>
                  current == Ok(Joined(id, db.rows[id], db.secrets[id])))
  {
    if id in db.rows {
      assert IntegrationInv(id, db.rows[id], db.secrets[id]);
      ShapeRestores(id, db.rows[id], db.secrets[id]);
    }
    hide FindState, IntegrationInv;
  }

  lemma InitialShape(envelope: string)
    ensures Shape([Secret(1, Active, Some(envelope))], 1)
  {
  }

  lemma CreateKeepsInv(db: Db, s: Step)
    requires Inv(db) && s.Creates? && Enabled(db, s)
    ensures Inv(Next(db, s))
  {
    hide DeliveriesInv, Shape;
    InitialShape(s.envelope);
    var after := Next(db, s);
    assert EnabledIds(after.rows) == EnabledIds(db.rows);
    forall id | id in db.deliveries
      ensures PinInv(db.deliveries[id], after.rows, after.secrets)
    {
      assert PinInv(db.deliveries[id], db.rows, db.secrets);
    }
  }

  lemma EnabledAfter(rows: map<Id, Row>, id: Id, row: Row)
    requires id in rows
    ensures EnabledIds(rows[id := row])
         == if row.enabled then EnabledIds(rows) + {id} else EnabledIds(rows) - {id}
  {
  }

  lemma EnableKeepsInv(db: Db, s: Step)
    requires Inv(db) && s.Enables? && Enabled(db, s)
    ensures Inv(Next(db, s))
  {
    hide DeliveriesInv, FindState, Shape;
    LoadSucceeds(db, s.id, s.expected);
    var after := Next(db, s);
    if s.id in db.rows {
      EnabledAfter(db.rows, s.id, after.rows[s.id]);
      assert after.rows == db.rows[s.id := after.rows[s.id]];
    }
    forall id | id in db.deliveries
      ensures PinInv(db.deliveries[id], after.rows, after.secrets)
    {
      assert PinInv(db.deliveries[id], db.rows, db.secrets);
    }
  }

  /** A rotation step that keeps the shape, never lowers the active version and erases nothing. */
  lemma RotationKeepsInv(db: Db, id: Id, row: Row, secrets: seq<Secret>)
    requires Inv(db) && id in db.rows && IntegrationInv(id, row, secrets)
    requires row.enabled == db.rows[id].enabled && db.rows[id].active <= row.active
    requires |db.secrets[id]| <= |secrets|
    requires forall k :: 0 <= k < |db.secrets[id]| && secrets[k].state.Retired? ==>
               db.secrets[id][k].state.Retired? || !InUse(db.deliveries, id, k + 1)
    ensures Inv(db.(rows := db.rows[id := row], secrets := db.secrets[id := secrets]))
  {
    hide DeliveriesInv, Shape;
    EnabledAfter(db.rows, id, row);
    var rows, all := db.rows[id := row], db.secrets[id := secrets];
    assert EnabledIds(rows) == EnabledIds(db.rows);
    forall d | d in db.deliveries ensures PinInv(db.deliveries[d], rows, all) {
      assert PinInv(db.deliveries[d], db.rows, db.secrets);
      assert db.deliveries[d].completedAt.None? && db.deliveries[d].integration == id ==>
               InUse(db.deliveries, id, db.deliveries[d].secretVersion);
    }
  }

  lemma PreparedShape(secrets: seq<Secret>, active: int, envelope: string)
    requires Shape(secrets, active) && |secrets| == active
    requires active >= 2 ==> secrets[active - 2].state.Retired?
    ensures Shape(secrets + [Secret(active + 1, Pending, Some(envelope))], active)
  {
  }

  lemma ActivatedShape(secrets: seq<Secret>, active: int)
    requires Shape(secrets, active) && |secrets| == active + 1
    ensures Shape(Promoted(secrets, active), active + 1)
  {
  }

  lemma RetiredShape(secrets: seq<Secret>, active: int)
    requires Shape(secrets, active) && active >= 2 && secrets[active - 2].state.Retiring?
    ensures var r := secrets[active - 2].(state := Retired, envelope := None);
            Shape(secrets[active - 2 := r], active)
  {
  }

  /** What preparing writes, if it writes anything. */
  lemma PrepareWrites(db: Db, s: Step)
    requires IntegrationsInv(db.rows, db.secrets) && s.Prepares?
    ensures Next(db, s) == db
            || (&& s.id in db.rows && s.id in db.secrets
                && FindState(db.secrets[s.id], Pending).None?
                && FindState(db.secrets[s.id], Retiring).None?
                && var row := db.rows[s.id];
                   Next(db, s) == db.(
                     rows := db.rows[s.id := Advanced(row, row.active, s.now)],
                     secrets := db.secrets[s.id :=
                       db.secrets[s.id] + [Secret(row.active + 1, Pending, Some(s.envelope))]]))
  {
    LoadSucceeds(db, s.id, s.expected);
    hide IntegrationsInv, LoadExpected, FindState;
  }

  lemma PrepareKeepsInv(db: Db, s: Step)
    requires Inv(db) && s.Prepares? && Enabled(db, s)
    ensures Inv(Next(db, s))
  {
    hide Next, FindState, Shape, DeliveriesInv, LimitInv, PinsInv;
    PrepareWrites(db, s);
    if Next(db, s) != db {
      var row, secrets := db.rows[s.id], db.secrets[s.id];
      assert IntegrationInv(s.id, row, secrets);
      ShapeDetermines(secrets, row.active);
      ShapeIsIdle(secrets, row.active);
      PreparedShape(secrets, row.active, s.envelope);
      hide IntegrationsInv;
      RotationKeepsInv(db, s.id, Advanced(row, row.active, s.now),
                       secrets + [Secret(row.active + 1, Pending, Some(s.envelope))]);
    }
  }

  /** With nothing pending or retiring, only one secret still has its material. */
  lemma ShapeIsIdle(secrets: seq<Secret>, active: int)
    requires Shape(secrets, active)
    requires FindState(secrets, Pending).None? && FindState(secrets, Retiring).None?
    ensures |secrets| == active && (active >= 2 ==> secrets[active - 2].state.Retired?)
  {
    ShapeDetermines(secrets, active);
    hide FindState;
  }

  function Promoted(secrets: seq<Secret>, active: int): seq<Secret>
    requires 1 <= active < |secrets|
  {
    var demoted := secrets[active - 1 := secrets[active - 1].(state := Retiring)];
    demoted[active := demoted[active].(state := Active)]
  }

  /** What activating writes, if it writes anything. */
  lemma ActivateWrites(db: Db, s: Step)
    requires IntegrationsInv(db.rows, db.secrets) && s.Activates?
    ensures Next(db, s) == db
            || (&& s.id in db.rows && s.id in db.secrets
                && IntegrationInv(s.id, db.rows[s.id], db.secrets[s.id])
                && var row, secrets := db.rows[s.id], db.secrets[s.id];
                   && 1 <= row.active && |secrets| == row.active + 1
                   && Next(db, s) == db.(
                        rows := db.rows[s.id := Advanced(row, row.active + 1, s.now)],
                        secrets := db.secrets[s.id := Promoted(secrets, row.active)]))
  {
    LoadSucceeds(db, s.id, s.expected);
    if s.id in db.rows && db.rows[s.id].version == s.expected {
      assert IntegrationInv(s.id, db.rows[s.id], db.secrets[s.id]);
      ShapeDetermines(db.secrets[s.id], db.rows[s.id].active);
    }
    hide IntegrationsInv, LoadExpected, FindState;
  }

  lemma ActivateKeepsInv(db: Db, s: Step)
    requires Inv(db) && s.Activates? && Enabled(db, s)
    ensures Inv(Next(db, s))
  {
    hide Next, Shape, DeliveriesInv, LimitInv, PinsInv, IntegrationsInv;
    ActivateWrites(db, s);
    if Next(db, s) != db {
      var row, secrets := db.rows[s.id], db.secrets[s.id];
      ActivatedShape(secrets, row.active);
      RotationKeepsInv(db, s.id, Advanced(row, row.active + 1, s.now), Promoted(secrets, row.active));
    }
  }

  lemma RetireKeepsInv(db: Db, s: Step)
    requires Inv(db) && s.Retires? && Enabled(db, s)
    ensures Inv(Next(db, s))
  {
    LoadSucceeds(db, s.id, s.expected);
    if s.id in db.rows && db.rows[s.id].version == s.expected {
      var row, secrets := db.rows[s.id], db.secrets[s.id];
      assert IntegrationInv(s.id, row, secrets);
      ShapeDetermines(secrets, row.active);
      hide Inv, FindState, LoadExpected;
      var a := row.active;
      if FindState(secrets, Retiring).Some? && !InUse(db.deliveries, s.id, a - 1) {
        RetiredShape(secrets, a);
        var r := secrets[a - 2].(state := Retired, envelope := None);
        RotationKeepsInv(db, s.id, Advanced(row, a, s.now), secrets[a - 2 := r]);
      }
    }
  }
}
