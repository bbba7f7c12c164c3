/** The delivery dispatcher and the rotation service. */
module WebhookService {
  import opened Common
  import opened Webhook
  import opened WebhookInv
  import opened WebhookStore
  import D = WebhookDelivery
  import R = WebhookRuns

  // ---------------------------------------------------------------------------------------------
  // Dispatching
  // ---------------------------------------------------------------------------------------------

  datatype Handling = Delivered | Retried | GaveUp | Interruption | Lost

  datatype TickResult = TickResult(
    claimed: nat, succeeded: nat, retried: nat, failed: nat, cancelled: nat, lost: nat)

  /** What a worker's report comes to, as the delivery it worked on shows afterwards. */
  ghost predicate Shows(db: Db, id: Id, sequence: int, h: Handling, at: Time, delay: Time)
    requires id in db.deliveries && (id, sequence) in db.attempts
  {
    var d, a := db.deliveries[id], db.attempts[(id, sequence)];
    && a.finishedAt == Some(at) && d.lease.None?
    && (h.Delivered? <==> a.outcome.Succeeded?)
    && (h.Interruption? <==> a.outcome.Cancelled?)
    && (h.Delivered? || h.GaveUp? ==> d.completedAt == Some(at))
    && (h.Retried? ==> d.completedAt.None? && d.availableAt == at + delay)
    && (d.completedAt.None? ==> sequence < MAX_ATTEMPTS && d.availableAt == at + delay)
  }

  /** What a worker reports about the attempt it ends. */
  function Fate(db: Db, s: Step): Handling
    requires s.Ends?
  {
    var x := Classify(s.response, s.at);
    if EndAttempt(db, s).1.Err? then Lost
    else if x.outcome.Succeeded? then Delivered
    else if x.outcome.Cancelled? then Interruption
    else if Terminal(x, s.sequence) then GaveUp
    else Retried
  }

  /** Decides whether the delivery ends, and records the attempt under its lease. */
  method Handle(store: Store, id: Id, sequence: int, claim: Claim, response: Response, at: Time,
                delay: Time)
    returns (h: Handling)
    requires (id, sequence) in store.claims && store.claims[(id, sequence)] == claim
    modifies store`deliveries, store`attempts
    ensures store.View() == Next(old(store.View()), Ends(id, sequence, response, at, delay))
    ensures h.Lost? <==> EndAttempt(old(store.View()), Ends(id, sequence, response, at, delay)).1.Err?
    ensures h == Fate(old(store.View()), Ends(id, sequence, response, at, delay))
    ensures h.Lost? ==> store.View() == old(store.View())
    ensures !h.Lost? ==>
              && id in store.deliveries && (id, sequence) in store.attempts
              && Shows(store.View(), id, sequence, h, at, delay)
  {
    var x := Classify(response, at);
    D.ClassifiedOutcome(response, at);
    hide Classify;
    var terminal := !x.retry || sequence >= MAX_ATTEMPTS;
    var next: Option<Time> := None;
    if x.retry && !terminal { next := Some(x.finishedAt + delay); }
    var done := store.Complete(id, sequence, claim, x, next, terminal);
    if done.Err? { return Lost; }
    if x.outcome.Succeeded? { return Delivered; }
    if x.outcome.Cancelled? { return Interruption; }
    if next.Some? { return Retried; }
    return GaveUp;
  }

  /** The end of the one attempt that a claim gave to a worker. */
  function EndOf(db: Db, id: Id, respond: Id -> Response, at: Id -> Time, delay: Id -> Time): Step
    requires id in db.deliveries
  {
    Ends(id, db.deliveries[id].attempts, respond(id), at(id), delay(id))
  }

  /** Two states agree about one delivery and its attempts. */
  ghost predicate SameAt(a: Db, b: Db, id: Id) {
    && a.claims == b.claims
    && (id in a.deliveries <==> id in b.deliveries)
    && (id in a.deliveries && id in b.deliveries ==> a.deliveries[id] == b.deliveries[id])
    && (forall n :: (id, n) in a.attempts <==> (id, n) in b.attempts)
    && (forall n :: (id, n) in a.attempts && (id, n) in b.attempts ==>
          a.attempts[(id, n)] == b.attempts[(id, n)])
  }

  /** The deliveries in `of` ended their attempts as their workers found, and no other one did. */
  ghost predicate AllEnded(db: Db, claimed: Db, of: map<Id, Handling>, respond: Id -> Response,
                           at: Id -> Time, delay: Id -> Time)
  {
    && of.Keys <= claimed.deliveries.Keys
    && (forall id :: id in of ==>
          && of[id] == Fate(claimed, EndOf(claimed, id, respond, at, delay))
          && SameAt(db, Next(claimed, EndOf(claimed, id, respond, at, delay)), id))
    && (forall id :: id !in of ==> SameAt(db, claimed, id))
  }

  /** Ending an attempt depends on its delivery alone and leaves every other one as it was. */
  lemma EndingIsLocal(a: Db, b: Db, s: Step)
    requires s.Ends? && SameAt(a, b, s.id)
    ensures SameAt(Next(a, s), Next(b, s), s.id) && Fate(a, s) == Fate(b, s)
    ensures forall other :: other != s.id ==> SameAt(Next(a, s), a, other)
  {
    hide Classify;
  }

  lemma SameAtTogether(a: Db, b: Db, c: Db, id: Id)
    requires SameAt(a, b, id) && SameAt(b, c, id)
    ensures SameAt(a, c, id)
  {
  }

  lemma OneMoreEnded(db: Db, claimed: Db, of: map<Id, Handling>, id: Id, respond: Id -> Response,
                     at: Id -> Time, delay: Id -> Time)
    requires AllEnded(db, claimed, of, respond, at, delay)
    requires id in claimed.deliveries && id !in of
    ensures var s := EndOf(claimed, id, respond, at, delay);
            AllEnded(Next(db, s), claimed, of[id := Fate(db, s)], respond, at, delay)
  {
    hide Next, Fate, SameAt;
    var s := EndOf(claimed, id, respond, at, delay);
    EndingIsLocal(db, claimed, s);
    var after := Next(db, s);
    forall other | other != id && other in of
      ensures SameAt(after, Next(claimed, EndOf(claimed, other, respond, at, delay)), other)
    {
      SameAtTogether(after, db, Next(claimed, EndOf(claimed, other, respond, at, delay)), other);
    }
    forall other | other != id && other !in of ensures SameAt(after, claimed, other) {
      SameAtTogether(after, db, claimed, other);
    }
  }

  function Counted(t: TickResult, h: Handling): TickResult {
    match h
    case Delivered => t.(succeeded := t.succeeded + 1)
    case Interruption => t.(cancelled := t.cancelled + 1)
    case Lost => t.(lost := t.lost + 1)
    case Retried => t.(retried := t.retried + 1)
    case GaveUp => t.(failed := t.failed + 1)
  }

  function Total(t: TickResult): nat {
    t.succeeded + t.retried + t.failed + t.cancelled + t.lost
  }

  ghost predicate Counts(t: TickResult, of: map<Id, Handling>) {
    && t.succeeded == Tally(of, Delivered) && t.cancelled == Tally(of, Interruption)
    && t.lost == Tally(of, Lost) && t.retried == Tally(of, Retried)
    && t.failed == Tally(of, GaveUp)
  }

  lemma NothingCounted(claimed: nat)
    ensures Counts(TickResult(claimed, 0, 0, 0, 0, 0), map[])
  {
    TallyIsBounded<Handling>(map[]);
  }

  lemma OneMoreCounted(t: TickResult, of: map<Id, Handling>, id: Id, h: Handling)
    requires Counts(t, of) && id !in of
    ensures Counts(Counted(t, h), of[id := h]) && Counted(t, h).claimed == t.claimed
    ensures Total(Counted(t, h)) == Total(t) + 1
  {
    TallyOneMore(of, id, h);
  }

  /**
   * One pass: claims a batch, executes it, and counts what became of each delivery. `of` says what
   * that is. A worker that finishes after its lease has run out finds the attempt lost.
   */
  method Tick(store: Store, holder: Id, now: Time, lease: Time, batch: int, visible: seq<Id>,
              respond: Id -> Response, at: Id -> Time, delay: Id -> Time)
    returns (r: Result<TickResult, Fault>, ghost of: map<Id, Handling>)
    modifies store
    ensures r.Err? ==> store.View() == old(store.View())
    ensures r.Ok? ==>
              && r.value.claimed == |of| <= batch && Counts(r.value, of)
              && r.value.claimed == Total(r.value)
    ensures var (claimed, taken) := Webhook.ClaimDeliveries(
              old(store.View()), holder, now, now + lease, batch, visible);
            && (r.Err? <==> taken.Err?)
            && (r.Ok? ==>
                  && of.Keys == taken.value
                  && AllEnded(store.View(), claimed, of, respond, at, delay))
  {
    hide Webhook.ClaimDeliveries, AllEnded, SameAt, Counts;
    ghost var before := store.View();
    var taken := store.ClaimDeliveries(holder, now, now + lease, batch, visible);
    if taken.Err? {
      FailedClaim(before, holder, now, now + lease, batch, visible);
      return Err(taken.error), map[];
    }
    PickedHaveClaims(before, store.View(), holder, now, now + lease, batch, visible, taken.value);
    var t;
    t, of := ExecuteEach(store, taken.value, respond, at, delay);
    return Ok(t), of;
  }

  lemma FailedClaim(before: Db, holder: Id, now: Time, expires: Time, limit: int, visible: seq<Id>)
    requires Webhook.ClaimDeliveries(before, holder, now, expires, limit, visible).1.Err?
    ensures Webhook.ClaimDeliveries(before, holder, now, expires, limit, visible).0 == before
  {
  }

  lemma NothingEnded(db: Db, respond: Id -> Response, at: Id -> Time, delay: Id -> Time)
    ensures AllEnded(db, db, map[], respond, at, delay)
  {
  }

  /** The workers of one pass. */
  method ExecuteEach(store: Store, taken: set<Id>, respond: Id -> Response, at: Id -> Time,
                     delay: Id -> Time)
    returns (t: TickResult, ghost of: map<Id, Handling>)
    requires forall id :: id in taken ==>
               id in store.deliveries && (id, store.deliveries[id].attempts) in store.claims
    modifies store`deliveries, store`attempts
    ensures of.Keys == taken && t.claimed == |taken| && Counts(t, of)
    ensures t.claimed == Total(t)
    ensures AllEnded(store.View(), old(store.View()), of, respond, at, delay)
  {
    hide Classify, Next, EndAttempt, Fate, AllEnded, SameAt, Shows, Counts, Counted;
    of := map[];
    var deliveries, claims := store.deliveries, store.claims;
    ghost var claimed := store.View();
    NothingEnded(claimed, respond, at, delay);
    NothingCounted(|taken|);
    t := TickResult(|taken|, 0, 0, 0, 0, 0);
    var left := taken;
    while left != {}
      invariant left <= taken && of.Keys == taken - left
      invariant store.claims == claims
      invariant Counts(t, of) && t.claimed == |taken|
      invariant Total(t) == t.claimed - |left|
      invariant AllEnded(store.View(), claimed, of, respond, at, delay)
      decreases left
    {
      var id :| id in left;
      var sequence := deliveries[id].attempts;
      OneMoreEnded(store.View(), claimed, of, id, respond, at, delay);
      var h := Handle(store, id, sequence, claims[(id, sequence)], respond(id), at(id), delay(id));
      OneMoreCounted(t, of, id, h);
      t := Counted(t, h);
      of := of[id := h];
      left := left - {id};
    }
  }

  lemma PickedHaveClaims(before: Db, after: Db, holder: Id, now: Time, expires: Time, limit: int,
                         visible: seq<Id>, taken: set<Id>)
    requires Webhook.ClaimDeliveries(before, holder, now, expires, limit, visible)
          == (after, Ok(taken))
    ensures |taken| <= limit
    ensures forall id :: id in taken ==>
              id in after.deliveries && (id, after.deliveries[id].attempts) in after.claims
  {
    hide Swept, LeasePicked, Picked;
    var swept := Swept(before, now);
    D.PickedAreDue(swept.deliveries, visible, now, limit);
    LeasedHaveClaims(swept, holder, now, expires, taken);
  }

  lemma LeasedHaveClaims(db: Db, holder: Id, now: Time, expires: Time, picked: set<Id>)
    requires picked <= db.deliveries.Keys
    ensures var after := LeasePicked(db, holder, now, expires, picked);
            forall id :: id in picked ==>
              id in after.deliveries && (id, after.deliveries[id].attempts) in after.claims
  {
  }

  // ---------------------------------------------------------------------------------------------
  // Rotating
  // ---------------------------------------------------------------------------------------------

  datatype RotationConflict = Concurrent | InProgressAlready | NothingPending | NothingRetiring
                            | StillNeeded

  datatype RotationResult =
    | RotationPrepared(integration: Integration, secret: int)
    | RotationUpdated
    | InvalidVersion
    | Missing
    | Conflict(why: RotationConflict)
    | KeyringUnavailable
    | Broken(fault: Fault)

  /** The conflicts that a caller is told about; anything else is a defect. */
  function Reported(fault: Fault): RotationResult {
    match fault
    case NotFound => Missing
    case ConcurrentUpdate => Conflict(Concurrent)
    case RotationInProgress => Conflict(InProgressAlready)
    case PendingMissing => Conflict(NothingPending)
    case RetiringMissing => Conflict(NothingRetiring)
    case RetiringInUse => Conflict(StillNeeded)
    case _ => Broken(fault)
  }

  /**
   * Reads the Integration, builds the next snapshot and secret from it, and stores them if the
   * version is still the one that was read. Others may act in between; the snapshot is never
   * found to be inconsistent with the row it replaces.
   */
  method PrepareRotation(store: Store, id: Id, expected: int, keyring: bool, now: Time,
                         envelope: string, meanwhile: seq<Step>)
    returns (r: RotationResult)
    requires Inv(store.View()) && Legal(store.View(), meanwhile)
    modifies store
    ensures r.InvalidVersion? <==> expected < 1
    ensures !r.Broken?
    ensures r.RotationPrepared? <==>
              && expected >= 1 && keyring && LoadExpected(old(store.View()), id, expected).Ok?
              && Idle(Run(old(store.View()), meanwhile), id, expected)
    ensures !r.RotationPrepared? ==>
              store.View() == old(store.View()) || store.View() == Run(old(store.View()), meanwhile)
    ensures r.RotationPrepared? ==>
              && store.View() == Next(Run(old(store.View()), meanwhile),
                                      Prepares(id, expected, envelope, now))
              && id in store.rows && store.rows[id].version == expected + 1
              && id in store.secrets
              && r.secret == store.rows[id].active + 1
              && r.integration == Joined(id, store.rows[id], store.secrets[id])
  {
    hide Inv, Run, Legal, Next, NewIntegration, FindState, LoadExpected, R.Pins, Enabled;
    hide Webhook.PrepareSecret, Idle;
    if expected < 1 { return InvalidVersion; }
    Loaded(store.View(), id, expected);
    var value := store.Lock(id, expected);
    if value.Err? { return Reported(value.error); }
    if !keyring { return KeyringUnavailable; }
    var secretVersion := value.value.active + 1;
    var secret := Secret(secretVersion, Pending, Some(envelope));
    var updated := value.value.(version := value.value.version + 1, updated := now,
                                pending := Some(secretVersion));
    ghost var before := store.View();
    store.Meanwhile(meanwhile);
    PreparationIsSound(before, meanwhile, id, expected, updated, secret, now, envelope);
    var done := store.PrepareSecret(updated, secret, expected);
    if done.Err? { return Reported(done.error); }
    return RotationPrepared(updated, secretVersion);
  }

  /** The Integration has the expected version, and no rotation of it is in progress. */
  ghost predicate Idle(db: Db, id: Id, expected: int) {
    var current := LoadExpected(db, id, expected);
    current.Ok? && current.value.pending.None? && current.value.retiring.None?
  }

  /** A stored Integration is always read back, or has another version, or is not there. */
  lemma Loaded(db: Db, id: Id, expected: int)
    requires Inv(db)
    ensures var current := LoadExpected(db, id, expected);
            current.Ok? || current == Err(NotFound) || current == Err(ConcurrentUpdate)
    ensures LoadExpected(db, id, expected).Ok? ==>
              id in db.rows && id in db.secrets && db.rows[id].version == expected
              && LoadExpected(db, id, expected).value == Joined(id, db.rows[id], db.secrets[id])
  {
    LoadSucceeds(db, id, expected);
    hide IntegrationsInv, LoadExpected, LimitInv, PinsInv, DeliveriesInv;
  }

  /** The row is as it was read, unless its version moved on. */
  lemma StillThere(before: Db, mid: Db, id: Id, expected: int)
    requires Inv(before) && Inv(mid) && R.Pins(before, mid, id)
    requires LoadExpected(before, id, expected).Ok?
    ensures LoadExpected(mid, id, expected).Ok? ==>
              LoadExpected(mid, id, expected) == LoadExpected(before, id, expected)
    ensures LoadExpected(mid, id, expected).Ok?
            || LoadExpected(mid, id, expected) == Err(ConcurrentUpdate)
  {
    Loaded(before, id, expected);
    Loaded(mid, id, expected);
    LoadSucceeds(mid, id, expected);
    hide Inv, LoadExpected;
  }

  /** A snapshot built from an unchanged row is the one the store expects. */
  lemma Consistent(db: Db, id: Id, expected: int, updated: Integration, secret: Secret, now: Time,
                   envelope: string)
    requires Inv(db) && updated.id == id
    requires LoadExpected(db, id, expected).Ok? ==>
               var i := LoadExpected(db, id, expected).value;
               updated == Prepared(i, now) && secret == Secret(i.active + 1, Pending, Some(envelope))
    requires LoadExpected(db, id, expected).Ok?
             || LoadExpected(db, id, expected) == Err(ConcurrentUpdate)
    ensures var (after, r) := Webhook.PrepareSecret(db, updated, secret, expected);
            && (r.Ok? || r == Err(ConcurrentUpdate) || r == Err(RotationInProgress))
            && (r.Ok? <==> Idle(db, id, expected)) && (r.Err? ==> after == db)
            && (r.Ok? ==>
                  && after == Next(db, Prepares(id, expected, envelope, now))
                  && id in after.rows && after.rows[id].version == expected + 1
                  && id in after.secrets && updated.active == after.rows[id].active
                  && updated == Joined(id, after.rows[id], after.secrets[id]))
  {
    Loaded(db, id, expected);
    hide LoadExpected;
    if LoadExpected(db, id, expected).Ok? {
      var secrets := db.secrets[id];
      assert IntegrationInv(id, db.rows[id], secrets);
      hide IntegrationsInv, LimitInv, PinsInv, DeliveriesInv;
      ShapeRestores(id, db.rows[id], secrets);
      if FindState(secrets, Pending).None? && FindState(secrets, Retiring).None? {
        ShapeIsIdle(secrets, db.rows[id].active);
        PreparedShape(secrets, db.rows[id].active, envelope);
        ShapeDetermines(secrets, db.rows[id].active);
        ShapeDetermines(secrets + [secret], db.rows[id].active);
      }
      hide Shape, FindState;
    }
  }

  /** Whatever others did, a snapshot built from what was read is stored or has become stale. */
  lemma PreparationIsSound(before: Db, meanwhile: seq<Step>, id: Id, expected: int,
                           updated: Integration, secret: Secret, now: Time, envelope: string)
    requires Inv(before) && Legal(before, meanwhile) && LoadExpected(before, id, expected).Ok?
    requires var i := LoadExpected(before, id, expected).value;
             && updated == Prepared(i, now) && updated.id == id
             && secret == Secret(i.active + 1, Pending, Some(envelope))
    ensures var mid := Run(before, meanwhile);
            var (after, r) := Webhook.PrepareSecret(mid, updated, secret, expected);
            && (r.Ok? || r == Err(ConcurrentUpdate) || r == Err(RotationInProgress))
            && (r.Ok? <==> Idle(mid, id, expected)) && (r.Err? ==> after == mid)
            && (r.Ok? ==>
                  && after == Next(mid, Prepares(id, expected, envelope, now))
                  && id in after.rows && after.rows[id].version == expected + 1
                  && id in after.secrets && updated.active == after.rows[id].active
                  && updated == Joined(id, after.rows[id], after.secrets[id]))
  {
    hide Inv, Run, Legal, Next, FindState, LoadExpected, R.Pins, Webhook.PrepareSecret, Idle;
    R.VersionPinsState(before, meanwhile, id);
    D.RunKeepsInv(before, meanwhile);
    StillThere(before, Run(before, meanwhile), id, expected);
    Consistent(Run(before, meanwhile), id, expected, updated, secret, now, envelope);
  }

  method ActivateRotation(store: Store, id: Id, expected: int, now: Time)
    returns (r: RotationResult)
    requires Inv(store.View())
    modifies store
    ensures r.InvalidVersion? <==> expected < 1
    ensures !r.Broken?
    ensures if r.RotationUpdated? then
              store.View() == Next(old(store.View()), Activates(id, expected, now))
            else store.View() == old(store.View())
    ensures r.RotationUpdated? <==>
              && expected >= 1 && LoadExpected(old(store.View()), id, expected).Ok?
              && LoadExpected(old(store.View()), id, expected).value.pending.Some?
  {
    hide Inv, Webhook.ActivateSecret, Next, LoadExpected;
    if expected < 1 { return InvalidVersion; }
    ActivationIsSound(store.View(), id, expected, now);
    var done := store.ActivateSecret(id, expected, now);
    if done.Err? { return Reported(done.error); }
    return RotationUpdated;
  }

  /** The active secret is always found. */
  lemma ActivationIsSound(db: Db, id: Id, expected: int, now: Time)
    requires Inv(db)
    ensures var (after, r) := Webhook.ActivateSecret(db, id, expected, now);
            && after == Next(db, Activates(id, expected, now)) && (r.Err? ==> after == db)
            && (r.Ok? || r == Err(NotFound) || r == Err(ConcurrentUpdate) || r == Err(PendingMissing))
            && (r.Ok? <==> LoadExpected(db, id, expected).Ok?
                           && LoadExpected(db, id, expected).value.pending.Some?)
  {
    Loaded(db, id, expected);
    if LoadExpected(db, id, expected).Ok? {
      assert IntegrationInv(id, db.rows[id], db.secrets[id]);
      ShapeDetermines(db.secrets[id], db.rows[id].active);
    }
    hide IntegrationsInv, LimitInv, PinsInv, DeliveriesInv, LoadExpected, FindState;
  }

  /** A secret is retiring, and every delivery that was pinned to it is complete. */
  ghost predicate Drained(db: Db, id: Id, expected: int) {
    var current := LoadExpected(db, id, expected);
    && current.Ok? && current.value.retiring.Some?
    && forall d :: d in db.deliveries && db.deliveries[d].integration == id
                   && db.deliveries[d].secretVersion == current.value.retiring.value ==>
         db.deliveries[d].completedAt.Some?
  }

  method RetireRotation(store: Store, id: Id, expected: int, now: Time) returns (r: RotationResult)
    requires Inv(store.View())
    modifies store
    ensures r.InvalidVersion? <==> expected < 1
    ensures !r.Broken?
    ensures if r.RotationUpdated? then
              store.View() == Next(old(store.View()), Retires(id, expected, now))
            else store.View() == old(store.View())
    ensures r.RotationUpdated? <==> expected >= 1 && Drained(old(store.View()), id, expected)
  {
    hide Inv, Webhook.RetireSecret, Next, Drained, LoadExpected;
    if expected < 1 { return InvalidVersion; }
    RetirementIsSound(store.View(), id, expected, now);
    var done := store.RetireSecret(id, expected, now);
    if done.Err? { return Reported(done.error); }
    return RotationUpdated;
  }

  lemma RetirementIsSound(db: Db, id: Id, expected: int, now: Time)
    requires Inv(db)
    ensures var (after, r) := Webhook.RetireSecret(db, id, expected, now);
            && after == Next(db, Retires(id, expected, now)) && (r.Err? ==> after == db)
            && (r.Ok? || r == Err(NotFound) || r == Err(ConcurrentUpdate)
                || r == Err(RetiringMissing) || r == Err(RetiringInUse))
            && (r.Ok? <==> Drained(db, id, expected))
  {
    Loaded(db, id, expected);
    hide Inv, LoadExpected, FindState, InUse;
  }
}
