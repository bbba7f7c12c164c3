/**
 * Webhook Integrations, their signing secrets, and the deliveries that routing pins to one secret
 * version: the transactions on the tables, for one Organization.
 */
module Webhook {
  import opened Common
  import opened Selection
  import M = Maintenance

  const MAX_ENABLED := 5
  const MAX_ATTEMPTS := 5
  const DELIVERY_BATCH := 4

  datatype SecretState = Pending | Active | Retiring | Retired

  /** One version of an Integration's signing secret; a retired one has no material left. */
  datatype Secret = Secret(version: int, state: SecretState, envelope: Option<string>)

  /** An Integration's own row. */
  datatype Row = Row(enabled: bool, version: int, active: int, created: Time, updated: Time)

  /** An Integration as the program sees it: its row, joined with its secrets by state. */
  datatype Integration = Integration(
    id: Id, enabled: bool, version: int, active: int, pending: Option<int>,
    retiring: Option<int>, created: Time, updated: Time)

  datatype Delivery = Delivery(
    alert: Id, integration: Id, integrationVersion: int, secretVersion: int, routedAt: Time,
    availableAt: Time, attempts: int, lease: Option<Lease>, completedAt: Option<Time>,
    suppressedBy: Option<Id>)

  datatype Outcome = InProgress | Succeeded | Failed | Cancelled

  datatype FailureCode =
    | CancelledCode
    | DestinationInvalid
    | HttpRejected
    | HttpRetryable
    | Network
    | PayloadInvalid
    | SecretUnavailable
    | Timeout
    | OutcomeUncertain

  datatype Attempt = Attempt(
    startedAt: Time, finishedAt: Option<Time>, outcome: Outcome, code: Option<FailureCode>)

  /** What a worker holds while it executes one attempt. */
  datatype Claim = Claim(holder: Id, startedAt: Time, expires: Time)

  /** The tables; `claims` is history: what each attempt's worker was given. */
  datatype Db = Db(
    rows: map<Id, Row>, secrets: map<Id, seq<Secret>>, deliveries: map<Id, Delivery>,
    attempts: map<(Id, int), Attempt>, claims: map<(Id, int), Claim>)

  function Empty(): Db { Db(map[], map[], map[], map[], map[]) }

  datatype Fault =
    | NotFound
    | ConcurrentUpdate
    | EnabledLimit
    | RotationInProgress
    | PendingMissing
    | RetiringMissing
    | RetiringInUse
    | ActiveMissing
    | BadSnapshot
    | Corrupt
    | LimitViolated
    | Invalid
    | LeaseLost

  // ---------------------------------------------------------------------------------------------
  // Integrations
  // ---------------------------------------------------------------------------------------------

  /** What a stored Integration must satisfy to be read back. */
  function NewIntegration(i: Integration): Result<Integration, Fault> {
    if i.id == "" then Err(Corrupt)
    else if i.version < 1 || i.active < 1 then Err(Corrupt)
    else if i.pending.Some? && (i.pending.value != i.active + 1 || i.retiring.Some?) then
      Err(Corrupt)
    else if i.retiring.Some? && i.retiring.value != i.active - 1 then Err(Corrupt)
    else if i.updated < i.created then Err(Corrupt)
    else Ok(i)
  }

  /** The position of the first secret in a state, if there is one. */
  function FindState(secrets: seq<Secret>, state: SecretState): (r: Option<nat>)
    ensures r.Some? ==> r.value < |secrets| && secrets[r.value].state == state
    ensures r.None? ==> forall k :: 0 <= k < |secrets| ==> secrets[k].state != state
  {
    if secrets == [] then None
    else if secrets[0].state == state then Some(0)
    else
      var rest := FindState(secrets[1..], state);
      if rest.Some? then Some(rest.value + 1) else None
  }

  function VersionIn(secrets: seq<Secret>, state: SecretState): Option<int> {
    var k := FindState(secrets, state);
    if k.Some? then Some(secrets[k.value].version) else None
  }

  function SecretsOf(db: Db, id: Id): seq<Secret> {
    if id in db.secrets then db.secrets[id] else []
  }

  function Joined(id: Id, row: Row, secrets: seq<Secret>): Integration {
    Integration(id, row.enabled, row.version, row.active, VersionIn(secrets, Pending),
                VersionIn(secrets, Retiring), row.created, row.updated)
  }

  function Load(db: Db, id: Id): Result<Integration, Fault> {
    if id !in db.rows then Err(NotFound)
    else NewIntegration(Joined(id, db.rows[id], SecretsOf(db, id)))
  }

  /** Reads the row under a lock and checks the version the caller last saw. */
  function LoadExpected(db: Db, id: Id, expected: int): Result<Integration, Fault> {
    var current := Load(db, id);
    if current.Ok? && current.value.version != expected then Err(ConcurrentUpdate) else current
  }

  function Create(db: Db, id: Id, envelope: string, now: Time): Db {
    db.(rows := db.rows[id := Row(false, 1, 1, now, now)],
        secrets := db.secrets[id := [Secret(1, Active, Some(envelope))]])
  }

  function EnabledIds(rows: map<Id, Row>): set<Id> { set id | id in rows && rows[id].enabled }

  function SetEnabled(db: Db, id: Id, expected: int, enabled: bool, now: Time): (Db, Result<(), Fault>)
  {
    var current := LoadExpected(db, id, expected);
    if current.Err? then (db, Err(current.error))
    else if current.value.enabled == enabled then (db, Ok(()))
    else if enabled && |EnabledIds(db.rows)| >= MAX_ENABLED then (db, Err(EnabledLimit))
    else
      var row := db.rows[id].(enabled := enabled, version := current.value.version + 1,
                              updated := now);
      (db.(rows := db.rows[id := row]), Ok(()))
  }

  // ---------------------------------------------------------------------------------------------
  // Rotation
  // ---------------------------------------------------------------------------------------------

  function Advanced(row: Row, active: int, now: Time): Row {
    row.(version := row.version + 1, active := active, updated := now)
  }

  /** Adds a pending secret; at most one rotation is in progress. */
  function PrepareSecret(db: Db, updated: Integration, secret: Secret, expected: int)
    : (Db, Result<(), Fault>)
  {
    var id := updated.id;
    var current := LoadExpected(db, id, expected);
    if current.Err? then (db, Err(current.error))
    else
      var c := current.value;
      if updated.version != c.version + 1 || updated.active != c.active
         || secret.version != c.active + 1 || !secret.state.Pending? || secret.envelope.None? then
        (db, Err(BadSnapshot))
      else if FindState(SecretsOf(db, id), Pending).Some?
              || FindState(SecretsOf(db, id), Retiring).Some? then (db, Err(RotationInProgress))
      else
        (db.(secrets := db.secrets[id := SecretsOf(db, id) + [secret]],
             rows := db.rows[id := Advanced(db.rows[id], c.active, updated.updated)]), Ok(()))
  }

  /** The pending secret becomes active and the active one retiring. */
  function ActivateSecret(db: Db, id: Id, expected: int, now: Time): (Db, Result<(), Fault>) {
    var current := LoadExpected(db, id, expected);
    if current.Err? then (db, Err(current.error))
    else
      var secrets := SecretsOf(db, id);
      var p := FindState(secrets, Pending);
      var a := FindState(secrets, Active);
      if p.None? then (db, Err(PendingMissing))
      else if a.None? || secrets[a.value].version != current.value.active then
        (db, Err(ActiveMissing))
      else
        var demoted := secrets[a.value := secrets[a.value].(state := Retiring)];
        var promoted := demoted[p.value := demoted[p.value].(state := Active)];
        (db.(secrets := db.secrets[id := promoted],
             rows := db.rows[id := Advanced(db.rows[id], secrets[p.value].version, now)]), Ok(()))
  }

  /** An unfinished delivery still needs this version of the secret. */
  predicate InUse(deliveries: map<Id, Delivery>, id: Id, version: int) {
    exists d :: d in deliveries && deliveries[d].integration == id
                && deliveries[d].secretVersion == version && deliveries[d].completedAt.None?
  }

  /** The retiring secret's material is erased, once nothing needs it. */
  function RetireSecret(db: Db, id: Id, expected: int, now: Time): (Db, Result<(), Fault>) {
    var current := LoadExpected(db, id, expected);
    if current.Err? then (db, Err(current.error))
    else
      var secrets := SecretsOf(db, id);
      var r := FindState(secrets, Retiring);
      if r.None? then (db, Err(RetiringMissing))
      else if InUse(db.deliveries, id, secrets[r.value].version) then (db, Err(RetiringInUse))
      else
        var erased := secrets[r.value := secrets[r.value].(state := Retired, envelope := None)];
        (db.(secrets := db.secrets[id := erased],
             rows := db.rows[id := Advanced(db.rows[id], current.value.active, now)]), Ok(()))
  }

  // ---------------------------------------------------------------------------------------------
  // Routing
  // ---------------------------------------------------------------------------------------------

  /** A delivery is pinned to the secret that is active when its Alert is projected. */
  function Routed(alert: Id, id: Id, row: Row, at: Time, window: Option<Id>): Delivery {
    Delivery(alert, id, row.version, row.active, at, at, 0, None,
             if window.Some? then Some(at) else None, window)
  }

  function RouteAll(db: Db, alert: Id, at: Time, window: Option<Id>, targets: seq<Id>, ids: seq<Id>)
    : map<Id, Delivery>
    requires |targets| <= |ids|
    decreases |targets|
  {
    if targets == [] then db.deliveries
    else
      var n := |targets| - 1;
      var rest := RouteAll(db, alert, at, window, targets[..n], ids);
      if targets[n] in db.rows then
        rest[ids[n] := Routed(alert, targets[n], db.rows[targets[n]], at, window)]
      else rest
  }

  /** One delivery for each enabled Integration; completed at once inside a maintenance window. */
  function Route(db: Db, alert: Id, at: Time, window: Option<Id>, targets: seq<Id>, ids: seq<Id>)
    : (Db, Result<(), Fault>)
    requires |targets| <= |ids|
  {
    if |targets| > MAX_ENABLED then (db, Err(LimitViolated))
    else (db.(deliveries := RouteAll(db, alert, at, window, targets, ids)), Ok(()))
  }

  // ---------------------------------------------------------------------------------------------
  // Deliveries
  // ---------------------------------------------------------------------------------------------

  predicate Expired(d: Delivery, now: Time) {
    d.completedAt.None? && d.lease.Some? && d.lease.value.expires <= now
  }

  /** The attempt of an expired lease is written off: nobody knows what became of it. */
  function WrittenOff(a: Attempt, now: Time): Attempt {
    a.(outcome := Failed, finishedAt := Some(now), code := Some(OutcomeUncertain))
  }

  predicate Abandoned(deliveries: map<Id, Delivery>, k: (Id, int), a: Attempt, now: Time) {
    && a.outcome.InProgress? && k.0 in deliveries && deliveries[k.0].attempts == k.1
    && Expired(deliveries[k.0], now)
  }

  function FinalizeExpired(db: Db, now: Time): map<(Id, int), Attempt> {
    map k | k in db.attempts ::
      if Abandoned(db.deliveries, k, db.attempts[k], now) then WrittenOff(db.attempts[k], now)
      else db.attempts[k]
  }

  predicate StillRunning(attempts: map<(Id, int), Attempt>, id: Id) {
    exists k :: k in attempts && k.0 == id && attempts[k].outcome.InProgress?
  }

  predicate Exhausted(d: Delivery, id: Id, attempts: map<(Id, int), Attempt>, now: Time) {
    Expired(d, now) && d.attempts >= MAX_ATTEMPTS && !StillRunning(attempts, id)
  }

  function CompleteExhausted(deliveries: map<Id, Delivery>, attempts: map<(Id, int), Attempt>,
                             now: Time): map<Id, Delivery>
  {
    map id | id in deliveries ::
      if Exhausted(deliveries[id], id, attempts, now) then
        deliveries[id].(completedAt := Some(now), lease := None)
      else deliveries[id]
  }

  predicate Due(d: Delivery, now: Time) {
    && d.completedAt.None? && d.availableAt <= now && d.attempts < MAX_ATTEMPTS
    && (d.lease.None? || d.lease.value.expires <= now)
  }

  function DueAt(now: Time): Delivery -> bool { (d: Delivery) => Due(d, now) }

  /** The due deliveries among the rows nobody else has locked, in order, up to the limit. */
  function Picked(deliveries: map<Id, Delivery>, visible: seq<Id>, now: Time, limit: nat): set<Id> {
    Chosen(deliveries, DueAt(now), visible, limit)
  }

  function Leased(d: Delivery, holder: Id, expires: Time): Delivery {
    d.(attempts := d.attempts + 1, lease := Some(Lease(holder, expires)))
  }

  function LeaseAll(deliveries: map<Id, Delivery>, picked: set<Id>, holder: Id, expires: Time)
    : map<Id, Delivery>
  {
    map id | id in deliveries ::
      if id in picked then Leased(deliveries[id], holder, expires) else deliveries[id]
  }

  /** A new attempt for every leased delivery, numbered after the ones before it. */
  function Begun(deliveries: map<Id, Delivery>, picked: set<Id>, now: Time)
    : map<(Id, int), Attempt>
  {
    map id | id in deliveries && id in picked ::
      (id, deliveries[id].attempts + 1) := Attempt(now, None, InProgress, None)
  }

  function Given(deliveries: map<Id, Delivery>, picked: set<Id>, holder: Id, now: Time, expires: Time)
    : map<(Id, int), Claim>
  {
    map id | id in deliveries && id in picked ::
      (id, deliveries[id].attempts + 1) := Claim(holder, now, expires)
  }

  /** Writes off expired attempts and completes exhausted deliveries. */
  function Swept(db: Db, now: Time): Db {
    var attempts := FinalizeExpired(db, now);
    db.(attempts := attempts, deliveries := CompleteExhausted(db.deliveries, attempts, now))
  }

  function LeasePicked(db: Db, holder: Id, now: Time, expires: Time, picked: set<Id>): Db {
    db.(deliveries := LeaseAll(db.deliveries, picked, holder, expires),
        attempts := db.attempts + Begun(db.deliveries, picked, now),
        claims := db.claims + Given(db.deliveries, picked, holder, now, expires))
  }

  function ClaimDeliveries(db: Db, holder: Id, now: Time, expires: Time, limit: int,
                           visible: seq<Id>): (Db, Result<set<Id>, Fault>)
  {
    if holder == "" || limit < 1 || limit > DELIVERY_BATCH || expires <= now then
      (db, Err(Invalid))
    else
      var swept := Swept(db, now);
      var picked := Picked(swept.deliveries, visible, now, limit);
      (LeasePicked(swept, holder, now, expires, picked), Ok(picked))
  }

  /** What an executor reports, and whether the delivery may be tried again. */
  datatype Execution = Execution(
    outcome: Outcome, finishedAt: Time, code: Option<FailureCode>, retry: bool)

  datatype Response = Status(code: int) | Interrupted | TimedOut | Unreachable | NotSent(FailureCode)

  /** How a call's end is classified. */
  function Classify(response: Response, at: Time): Execution {
    match response
    case Interrupted => Execution(Cancelled, at, Some(CancelledCode), true)
    case TimedOut => Execution(Failed, at, Some(Timeout), true)
    case Unreachable => Execution(Failed, at, Some(Network), true)
    case NotSent(code) => Execution(Failed, at, Some(code), false)
    case Status(code) =>
      if 200 <= code < 300 then Execution(Succeeded, at, None, false)
      else if code == 408 || code == 425 || code == 429 || code >= 500 then
        Execution(Failed, at, Some(HttpRetryable), true)
      else Execution(Failed, at, Some(HttpRejected), false)
  }

  /** The attempt's row is still this worker's. */
  predicate Owns(db: Db, id: Id, sequence: int, holder: Id, at: Time) {
    && (id, sequence) in db.attempts && db.attempts[(id, sequence)].outcome.InProgress?
    && id in db.deliveries && db.deliveries[id].lease.Some?
    && db.deliveries[id].lease.value.holder == holder && db.deliveries[id].lease.value.expires > at
    && db.deliveries[id].attempts == sequence
  }

  function Complete(db: Db, id: Id, sequence: int, claim: Claim, x: Execution, next: Option<Time>,
                    terminal: bool): (Db, Result<(), Fault>)
  {
    if id == "" || claim.holder == "" || sequence < 1 || x.finishedAt < claim.startedAt
       || terminal == next.Some? then (db, Err(Invalid))
    else if !Owns(db, id, sequence, claim.holder, x.finishedAt) then (db, Err(LeaseLost))
    else
      var a := db.attempts[(id, sequence)].(finishedAt := Some(x.finishedAt), outcome := x.outcome,
                                            code := x.code);
      var d := db.deliveries[id].(
        availableAt := if next.Some? then next.value else db.deliveries[id].availableAt,
        completedAt := if terminal then Some(x.finishedAt) else None, lease := None);
      (db.(attempts := db.attempts[(id, sequence) := a], deliveries := db.deliveries[id := d]),
       Ok(()))
  }

  /** The dispatcher's decision: a delivery ends unless it may be retried and has attempts left. */
  function Terminal(x: Execution, sequence: int): bool { !x.retry || sequence >= MAX_ATTEMPTS }

  function NextAt(x: Execution, sequence: int, delay: Time): Option<Time> {
    if Terminal(x, sequence) then None else Some(x.finishedAt + delay)
  }

  // ---------------------------------------------------------------------------------------------
  // Runs
  // ---------------------------------------------------------------------------------------------

  datatype Step =
    | Creates(id: Id, envelope: string, now: Time)
    | Enables(id: Id, expected: int, enabled: bool, now: Time)
    | Prepares(id: Id, expected: int, envelope: string, now: Time)
    | Activates(id: Id, expected: int, now: Time)
    | Retires(id: Id, expected: int, now: Time)
    | Routes(alert: Id, at: Time, monitor: Id, occurredAt: Time, windows: map<Id, M.Window>,
             targets: seq<Id>, ids: seq<Id>)
    | Claims(holder: Id, now: Time, expires: Time, limit: int, visible: seq<Id>)
    | Ends(id: Id, sequence: int, response: Response, at: Time, delay: Time)

  /** The snapshot and the secret that the service prepares from what it read. */
  function Prepared(i: Integration, now: Time): Integration {
    i.(version := i.version + 1, updated := now, pending := Some(i.active + 1))
  }

  /** The maintenance window that applies, of those the tables hold, when the Alert's fact occurred. */
  function WindowOf(s: Step): Option<Id>
    requires s.Routes?
  {
    M.MatchOf(s.windows, s.monitor, s.occurredAt)
  }

  function EndAttempt(db: Db, s: Step): (Db, Result<(), Fault>)
    requires s.Ends?
  {
    if (s.id, s.sequence) !in db.claims then (db, Err(LeaseLost))
    else
      var x := Classify(s.response, s.at);
      Complete(db, s.id, s.sequence, db.claims[(s.id, s.sequence)], x,
               NextAt(x, s.sequence, s.delay), Terminal(x, s.sequence))
  }

  function Next(db: Db, s: Step): Db {
    match s
    case Creates(id, envelope, now) => Create(db, id, envelope, now)
    case Enables(id, expected, enabled, now) => SetEnabled(db, id, expected, enabled, now).0
    case Prepares(id, expected, envelope, now) =>
      var current := LoadExpected(db, id, expected);
      if current.Err? then db
      else
        PrepareSecret(db, Prepared(current.value, now),
                      Secret(current.value.active + 1, Pending, Some(envelope)), expected).0
    case Activates(id, expected, now) => ActivateSecret(db, id, expected, now).0
    case Retires(id, expected, now) => RetireSecret(db, id, expected, now).0
    case Routes(alert, at, _, _, _, targets, ids) =>
      if |targets| > |ids| then db else Route(db, alert, at, WindowOf(s), targets, ids).0
    case Claims(holder, now, expires, limit, visible) =>
      ClaimDeliveries(db, holder, now, expires, limit, visible).0
    case Ends(_, _, _, _, _) => EndAttempt(db, s).0
  }

  /**
   * Identifiers are fresh, an Alert is routed once, the clock does not run backwards past a row's creation, and routing
   * reads the enabled Integrations, one more than the limit at most.
   */
  ghost predicate Enabled(db: Db, s: Step) {
    match s
    case Creates(id, _, _) => id != "" && id !in db.rows
    case Enables(id, _, _, now) => id in db.rows ==> db.rows[id].created <= now
    case Prepares(id, _, _, now) => id in db.rows ==> db.rows[id].created <= now
    case Activates(id, _, now) => id in db.rows ==> db.rows[id].created <= now
    case Retires(id, _, now) => id in db.rows ==> db.rows[id].created <= now
    case Routes(alert, _, _, _, _, targets, ids) =>
      && (forall d :: d in db.deliveries ==> db.deliveries[d].alert != alert)
      && |targets| == |ids| && Distinct(targets) && Distinct(ids)
      && (forall k :: 0 <= k < |ids| ==> ids[k] != "" && ids[k] !in db.deliveries)
      && (forall k :: 0 <= k < |targets| ==>
            targets[k] in db.rows && db.rows[targets[k]].enabled)
      && (|targets| <= MAX_ENABLED ==>
            forall id :: id in db.rows && db.rows[id].enabled ==> id in targets)
    case Claims(_, _, _, _, _) => true
    case Ends(_, _, _, _, _) => true
  }

  ghost predicate Legal(db: Db, steps: seq<Step>)
    decreases |steps|
  {
    steps == [] || (Enabled(db, steps[0]) && Legal(Next(db, steps[0]), steps[1..]))
  }

  function Run(db: Db, steps: seq<Step>): Db
    decreases |steps|
  {
    if steps == [] then db else Run(Next(db, steps[0]), steps[1..])
  }
}
