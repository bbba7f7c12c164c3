/**
 * The durable outbox and its dispatcher: at-least-once delivery of events under leases, with
 * retries, a time limit on version gaps, and dead letters.
 *
 * Every function below is one transaction or one worker
 * decision; a run is any sequence of them, so claims, answers and settlements of many workers
 * interleave freely, workers crash by never settling, and leases expire by being reclaimed.
 */
module Outbox {
  import opened Common
  import opened Selection
  import opened Events
  import opened Retry

  const MAX_ATTEMPTS := 12
  const BATCH_SIZE := 32
  const GAP_TIMEOUT: Time := 15 * MINUTE

  datatype Code =
    | TopicUnknown
    | PayloadInvalid
    | OrganizationMismatch
    | VersionGap
    | HandlerFailed
    | HandlerCancelled

  /** What a worker's handler reported for one claimed entry. */
  datatype Answer = Handled | Failed(code: Code, permanent: bool)

  /**
   * A live row. `fails` and `recorded` are history: how many failures other than version gaps,
   * and how many failures of any kind, have been recorded without dead-lettering the entry.
   */
  datatype Entry = Entry(
    payload: Payload, attempts: nat, availableAt: Time, lease: Option<Lease>,
    gapFirstSeen: Option<Time>, lastFailure: Option<Code>, fails: nat, recorded: nat)

  /** The copy of a row that a worker claimed, and the instant of the claim. */
  datatype Claimed = Claimed(entry: Entry, now: Time)

  /**
   * The live table, the processed markers and the dead letters. The rest is history: every event
   * ever issued, every holder token ever used, every claim, and every handler's answer.
   */
  datatype Queue = Queue(
    entries: map<Id, Entry>, processed: set<Id>, dead: set<Id>,
    issued: map<Id, Payload>, holders: set<Id>,
    claims: map<(Id, Id), Claimed>, answers: map<(Id, Id), Answer>)

  function Empty(): Queue { Queue(map[], {}, {}, map[], {}, map[], map[]) }

  // ---------------------------------------------------------------------------------------------
  // Transactions
  // ---------------------------------------------------------------------------------------------

  function Issue(ob: Queue, id: Id, payload: Payload, now: Time): Queue {
    ob.(entries := ob.entries[id := Entry(payload, 0, now, None, None, None, 0, 0)],
        issued := ob.issued[id := payload])
  }

  function Mark(ob: Queue, id: Id): Queue { ob.(processed := ob.processed + {id}) }

  predicate Eligible(e: Entry, now: Time) {
    e.availableAt <= now && (e.lease.None? || e.lease.value.expires <= now)
  }

  function EligibleAt(now: Time): Entry -> bool { (e: Entry) => Eligible(e, now) }

  /** The first `limit` eligible rows among those another transaction has not locked. */
  function Picked(entries: map<Id, Entry>, visible: seq<Id>, now: Time, limit: nat): set<Id> {
    Chosen(entries, EligibleAt(now), visible, limit)
  }

  function Leased(e: Entry, holder: Id, expires: Time): Entry {
    e.(lease := Some(Lease(holder, expires)), attempts := e.attempts + 1)
  }

  /** The update: every picked row gets the lease and one more attempt. */
  function LeaseAll(entries: map<Id, Entry>, picked: set<Id>, holder: Id, expires: Time)
    : map<Id, Entry>
  {
    map id | id in entries ::
      if id in picked then Leased(entries[id], holder, expires) else entries[id]
  }

  /** The copies the update returns to the worker. */
  function Copies(entries: map<Id, Entry>, picked: set<Id>, holder: Id, expires: Time, now: Time)
    : map<(Id, Id), Claimed>
  {
    map id | id in entries && id in picked ::
      (id, holder) := Claimed(Leased(entries[id], holder, expires), now)
  }

  function Claim(ob: Queue, holder: Id, now: Time, expires: Time, picked: set<Id>): Queue {
    ob.(entries := LeaseAll(ob.entries, picked, holder, expires),
        holders := ob.holders + {holder},
        claims := ob.claims + Copies(ob.entries, picked, holder, expires, now))
  }

  predicate Held(ob: Queue, id: Id, holder: Id) {
    id in ob.entries && ob.entries[id].lease.Some? && ob.entries[id].lease.value.holder == holder
  }

  function AfterSuccess(ob: Queue, id: Id, holder: Id): Queue {
    if Held(ob, id, holder) then
      ob.(processed := ob.processed + {id}, entries := ob.entries - {id})
    else ob
  }

  function Released(e: Entry, code: Code, next: Time, now: Time): Entry {
    e.(availableAt := next, lease := None, lastFailure := Some(code),
       gapFirstSeen :=
         if !code.VersionGap? then None
         else if e.gapFirstSeen.Some? then e.gapFirstSeen else Some(now),
       fails := if code.VersionGap? then e.fails else e.fails + 1,
       recorded := e.recorded + 1)
  }

  function AfterFailure(ob: Queue, id: Id, holder: Id, code: Code, next: Time, now: Time, dead: bool)
    : Queue
  {
    if !Held(ob, id, holder) then ob
    else if !dead then ob.(entries := ob.entries[id := Released(ob.entries[id], code, next, now)])
    else if id in ob.dead then ob
    else ob.(dead := ob.dead + {id}, entries := ob.entries - {id})
  }

  // ---------------------------------------------------------------------------------------------
  // The dispatcher's decision
  // ---------------------------------------------------------------------------------------------

  datatype Verdict = Acknowledge | Record(code: Code, next: Time, dead: bool)

  function GapDeadline(e: Entry, now: Time): Time {
    (if e.gapFirstSeen.Some? then e.gapFirstSeen.value else now) + GAP_TIMEOUT
  }

  /** What a worker does with the entry it claimed once the handler has answered. */
  function Decide(e: Entry, answer: Answer, now: Time, hash: nat): Verdict {
    if answer.Handled? then Acknowledge
    else
      var next := now + Delay(e.attempts, hash);
      if answer.code.VersionGap? then
        var dead := now >= GapDeadline(e, now);
        Record(VersionGap, if dead then next else Min(next, GapDeadline(e, now)), dead)
      else Record(answer.code, next, answer.permanent || e.attempts >= MAX_ATTEMPTS)
  }

  function Conclude(ob: Queue, id: Id, holder: Id, v: Verdict, now: Time): Queue {
    match v
    case Acknowledge => AfterSuccess(ob, id, holder)
    case Record(code, next, dead) => AfterFailure(ob, id, holder, code, next, now, dead)
  }

  /** A worker settles an entry by the copy it claimed and the answer it got. */
  function Settle(ob: Queue, id: Id, holder: Id, hash: nat): Queue {
    if (id, holder) !in ob.claims || (id, holder) !in ob.answers then ob
    else
      var c := ob.claims[(id, holder)];
      Conclude(ob, id, holder, Decide(c.entry, ob.answers[(id, holder)], c.now, hash), c.now)
  }

  function Reply(ob: Queue, id: Id, holder: Id, answer: Answer): Queue {
    ob.(answers := ob.answers[(id, holder) := answer])
  }

  // ---------------------------------------------------------------------------------------------
  // Runs
  // ---------------------------------------------------------------------------------------------

  datatype Op =
    | Issuing(id: Id, payload: Payload, at: Time)
    | Marking(id: Id)
    | Claiming(holder: Id, at: Time, expires: Time, visible: seq<Id>, limit: nat)
    | Replying(id: Id, holder: Id, answer: Answer)
    | Settling(id: Id, holder: Id, hash: nat)

  function Apply(ob: Queue, op: Op): Queue {
    match op
    case Issuing(id, payload, now) => Issue(ob, id, payload, now)
    case Marking(id) => Mark(ob, id)
    case Claiming(holder, now, expires, visible, limit) =>
      Claim(ob, holder, now, expires, Picked(ob.entries, visible, now, limit))
    case Replying(id, holder, answer) => Reply(ob, id, holder, answer)
    case Settling(id, holder, hash) => Settle(ob, id, holder, hash)
  }

  /** Event identifiers and holder tokens are fresh; only issued events are marked or answered. */
  ghost predicate Allowed(ob: Queue, op: Op) {
    match op
    case Issuing(id, _, _) => id !in ob.issued
    case Marking(id) => id in ob.issued
    case Claiming(holder, now, expires, _, _) => holder !in ob.holders && now < expires
    case Replying(id, holder, _) => (id, holder) in ob.claims
    case Settling(_, _, _) => true
  }

  ghost predicate Legal(ob: Queue, ops: seq<Op>)
    decreases |ops|
  {
    ops == [] || (Allowed(ob, ops[0]) && Legal(Apply(ob, ops[0]), ops[1..]))
  }

  function Run(ob: Queue, ops: seq<Op>): Queue
    decreases |ops|
  {
    if ops == [] then ob else Run(Apply(ob, ops[0]), ops[1..])
  }

  // ---------------------------------------------------------------------------------------------
  // The invariant
  // ---------------------------------------------------------------------------------------------

  /** No issued event is lost: it is live, or it left a processed marker or a dead letter. */
  ghost predicate Conserved(ob: Queue) {
    && (forall id :: id in ob.issued ==> id in ob.entries || id in ob.processed || id in ob.dead)
    && (forall id :: id in ob.entries ==> id in ob.issued && ob.entries[id].payload == ob.issued[id])
    && (forall id :: id in ob.processed || id in ob.dead ==> id in ob.issued)
    && (forall id :: id in ob.dead ==> id !in ob.entries)
  }

  /** A leased row is exactly the copy its holder claimed. */
  ghost predicate LeaseMatchesClaim(ob: Queue) {
    && (forall k :: k in ob.claims ==> k.0 in ob.issued && k.1 in ob.holders)
    && (forall k :: k in ob.answers ==> k in ob.claims)
    && (forall id :: id in ob.entries && ob.entries[id].lease.Some? ==>
          var k := (id, ob.entries[id].lease.value.holder);
          && k in ob.claims && ob.claims[k].entry == ob.entries[id]
          && ob.entries[id].availableAt <= ob.claims[k].now
          && 1 <= ob.entries[id].attempts)
  }

  const ROUND := 901

  /** How many seconds of the gap deadline a row has left, rounded up. */
  function GapBudget(e: Entry): int {
    if e.gapFirstSeen.None? then ROUND - 1
    else (e.gapFirstSeen.value + GAP_TIMEOUT - e.availableAt + SECOND - 1) / SECOND
  }

  /** The failures a row may still record: every one that does not dead-letter it costs some. */
  function Budget(e: Entry): int {
    (MAX_ATTEMPTS - 1 - e.fails) * ROUND + GapBudget(e)
  }

  const MAX_RECORDED := MAX_ATTEMPTS * ROUND - 1

  ghost predicate Bounded(e: Entry) {
    && e.fails <= MAX_ATTEMPTS - 1
    && e.fails + (if e.lease.Some? then 1 else 0) <= e.attempts
    && (e.gapFirstSeen.Some? ==> e.availableAt <= e.gapFirstSeen.value + GAP_TIMEOUT)
    && 0 <= GapBudget(e) < ROUND
    && e.recorded + Budget(e) <= MAX_RECORDED
  }

  ghost predicate Inv(ob: Queue) {
    && Conserved(ob) && LeaseMatchesClaim(ob)
    && (forall id :: id in ob.entries ==> Bounded(ob.entries[id]))
  }

  /** Recording a failure that does not dead-letter a row spends some of its budget. */
  lemma RecordingSpends(e: Entry, answer: Answer, now: Time, hash: nat)
    requires Bounded(e) && e.lease.Some? && e.availableAt <= now && answer.Failed?
    requires !Decide(e, answer, now, hash).dead
    ensures var v := Decide(e, answer, now, hash);
            var r := Released(e, v.code, v.next, now);
            Bounded(r) && Budget(r) < Budget(e)
            && (answer.code.VersionGap? ==> now < GapDeadline(e, now))
  {
    DelayBounds(e.attempts, hash);
    var v := Decide(e, answer, now, hash);
    var r := Released(e, v.code, v.next, now);
    if answer.code.VersionGap? {
      var d := GapDeadline(e, now);
      assert r.gapFirstSeen == Some(d - GAP_TIMEOUT);
      assert r.availableAt <= d && (r.availableAt == d || r.availableAt >= now + SECOND);
      assert 0 <= GapBudget(r) < GapBudget(e);
    }
  }

  lemma SettleKeepsInv(ob: Queue, id: Id, holder: Id, hash: nat)
    requires Inv(ob)
    ensures Inv(Settle(ob, id, holder, hash))
  {
    if (id, holder) in ob.claims && (id, holder) in ob.answers && Held(ob, id, holder) {
      var c := ob.claims[(id, holder)];
      var answer := ob.answers[(id, holder)];
      if answer.Failed? && !Decide(c.entry, answer, c.now, hash).dead {
        RecordingSpends(c.entry, answer, c.now, hash);
      }
    }
  }

  /** Settling touches no history, and only an acknowledged entry gains a marker. */
  lemma SettleEffects(ob: Queue, id: Id, holder: Id, hash: nat)
    ensures var after := Settle(ob, id, holder, hash);
            && after.issued == ob.issued && after.claims == ob.claims && after.answers == ob.answers
            && ob.processed <= after.processed <= ob.processed + {id}
            && (after.processed != ob.processed ==>
                  (id, holder) in ob.answers && ob.answers[(id, holder)].Handled?)
  {
  }

  lemma ClaimKeepsInv(ob: Queue, holder: Id, now: Time, expires: Time, picked: set<Id>)
    requires Inv(ob) && holder !in ob.holders
    requires forall id :: id in picked ==> id in ob.entries && Eligible(ob.entries[id], now)
    ensures Inv(Claim(ob, holder, now, expires, picked))
  {
    var after := Claim(ob, holder, now, expires, picked);
    forall id | id in after.entries
      ensures Bounded(after.entries[id])
    {
      assert Bounded(ob.entries[id]);
      assert GapBudget(after.entries[id]) == GapBudget(ob.entries[id]);
    }
    forall id | id in after.entries && after.entries[id].lease.Some?
      ensures var k := (id, after.entries[id].lease.value.holder);
              && k in after.claims && after.claims[k].entry == after.entries[id]
              && after.entries[id].availableAt <= after.claims[k].now
              && 1 <= after.entries[id].attempts
    {
      var k := (id, after.entries[id].lease.value.holder);
      if id !in picked { assert k in ob.claims && k.1 != holder; }
    }
  }

  lemma PickedAreEligible(entries: map<Id, Entry>, visible: seq<Id>, now: Time, limit: nat)
    ensures forall id :: id in Picked(entries, visible, now, limit) ==>
              id in entries && Eligible(entries[id], now) && id in visible
    ensures |Picked(entries, visible, now, limit)| <= limit
  {
    ChosenAreEligible(entries, EligibleAt(now), visible, limit);
  }

  lemma ApplyKeepsInv(ob: Queue, op: Op)
    requires Inv(ob) && Allowed(ob, op)
    ensures Inv(Apply(ob, op))
  {
    match op
    case Issuing(id, payload, now) =>
      var e := Entry(payload, 0, now, None, None, None, 0, 0);
      assert Bounded(e);
    case Marking(_) =>
    case Claiming(holder, now, expires, visible, limit) =>
      PickedAreEligible(ob.entries, visible, now, limit);
      ClaimKeepsInv(ob, holder, now, expires, Picked(ob.entries, visible, now, limit));
    case Replying(_, _, _) =>
    case Settling(id, holder, hash) => SettleKeepsInv(ob, id, holder, hash);
  }

  /** Markers, claims and answers only ever name issued events. */
  lemma NamesAreIssued(ob: Queue)
    requires Inv(ob)
    ensures ob.processed <= ob.issued.Keys
    ensures forall k :: k in ob.claims ==> k.0 in ob.issued
    ensures forall k :: k in ob.answers ==> k in ob.claims
  {
  }

  /** Over every run: conservation, matching claims, and the bounds on recorded failures. */
  lemma {:induction false} RunKeepsInv(ob: Queue, ops: seq<Op>)
    requires Inv(ob) && Legal(ob, ops)
    ensures Inv(Run(ob, ops))
    decreases |ops|
  {
    if ops != [] {
      ApplyKeepsInv(ob, ops[0]);
      RunKeepsInv(Apply(ob, ops[0]), ops[1..]);
    }
  }

  // ---------------------------------------------------------------------------------------------
  // What every run guarantees
  // ---------------------------------------------------------------------------------------------

  lemma EmptyInv()
    ensures Inv(Empty())
  {
  }

  /** No event is ever lost, and a drained outbox has a marker or a dead letter for each. */
  lemma NothingIsLost(ops: seq<Op>, id: Id)
    requires Legal(Empty(), ops)
    ensures var ob := Run(Empty(), ops);
            id in ob.issued ==>
              || (id in ob.entries && ob.entries[id].payload == ob.issued[id])
              || id in ob.processed || id in ob.dead
  {
    RunKeepsInv(Empty(), ops);
  }

  /**
   * Retrying is bounded: an entry records at most 11 failures other than version gaps, at most
   * 10811 failures in all, however the two kinds alternate, and while it waits for a version gap
   * it never waits past a quarter of an hour after the gap was first seen.
   */
  lemma RetryIsBounded(ops: seq<Op>, id: Id)
    requires Legal(Empty(), ops) && id in Run(Empty(), ops).entries
    ensures var e := Run(Empty(), ops).entries[id];
            && e.fails <= 11 && e.recorded <= 10811
            && (e.gapFirstSeen.Some? ==> e.availableAt <= e.gapFirstSeen.value + 15 * MINUTE)
  {
    RunKeepsInv(Empty(), ops);
    assert Bounded(Run(Empty(), ops).entries[id]);
  }

  /** A gap reported at or after its deadline ends the entry as a dead letter. */
  lemma ExpiredGapIsDeadLettered(ob: Queue, id: Id, holder: Id, hash: nat)
    requires Inv(ob) && Held(ob, id, holder)
    requires (id, holder) in ob.answers && ob.answers[(id, holder)] == Failed(VersionGap, false)
    requires ob.entries[id].gapFirstSeen.Some?
    requires ob.claims[(id, holder)].now >= ob.entries[id].gapFirstSeen.value + GAP_TIMEOUT
    ensures var after := Settle(ob, id, holder, hash);
            id in after.dead && id !in after.entries
  {
  }

  /** Once a used holder token does not hold an entry, it never holds it again. */
  lemma {:induction false} LostForGood(ob: Queue, ops: seq<Op>, id: Id, holder: Id)
    requires Inv(ob) && Legal(ob, ops)
    requires holder in ob.holders && id in ob.issued && !Held(ob, id, holder)
    ensures !Held(Run(ob, ops), id, holder)
    decreases |ops|
  {
    if ops != [] {
      ApplyKeepsInv(ob, ops[0]);
      StaysLost(ob, ops[0], id, holder);
      hide Inv, Apply, Allowed, Held;
      LostForGood(Apply(ob, ops[0]), ops[1..], id, holder);
    }
  }

  lemma StaysLost(ob: Queue, op: Op, id: Id, holder: Id)
    requires Inv(ob) && Allowed(ob, op)
    requires holder in ob.holders && id in ob.issued && !Held(ob, id, holder)
    ensures var after := Apply(ob, op);
            holder in after.holders && id in after.issued && !Held(after, id, holder)
  {
    hide Bounded, Picked, Decide;
  }

  /**
   * Fencing: after another worker reclaims an entry, whatever happens next, nothing the old
   * holder does to settle it changes anything.
   */
  lemma ReclaimFences(ob: Queue, claim: Op, ops: seq<Op>, id: Id, holder: Id, hash: nat)
    requires Inv(ob) && claim.Claiming? && Legal(ob, [claim] + ops)
    requires holder in ob.holders
    requires id in Picked(ob.entries, claim.visible, claim.at, claim.limit)
    ensures var after := Run(ob, [claim] + ops); Settle(after, id, holder, hash) == after
  {
    assert ([claim] + ops)[1..] == ops;
    PickedAreEligible(ob.entries, claim.visible, claim.at, claim.limit);
    ApplyKeepsInv(ob, claim);
    LostForGood(Apply(ob, claim), ops, id, holder);
  }

  // ---------------------------------------------------------------------------------------------
  // What claiming and settling come to
  // ---------------------------------------------------------------------------------------------

  /** Waiting to be worked on: available, and nobody holds a lease that still runs. */
  ghost predicate Waiting(e: Entry, now: Time) {
    && e.availableAt <= now
    && (e.lease.None? || (e.lease.Some? && e.lease.value.expires <= now))
  }

  ghost function WaitingIn(entries: map<Id, Entry>, listed: seq<Id>, now: Time): set<Id> {
    set id | id in listed && id in entries && Waiting(entries[id], now)
  }

  lemma {:induction false} WaitingAreFew(entries: map<Id, Entry>, listed: seq<Id>, now: Time)
    ensures |WaitingIn(entries, listed, now)| <= |listed|
    decreases |listed|
  {
    if listed != [] {
      var last, rest := listed[|listed| - 1], listed[..|listed| - 1];
      WaitingAreFew(entries, rest, now);
      assert listed == rest + [last];
      Cardinality(WaitingIn(entries, listed, now), WaitingIn(entries, rest, now) + {last});
    }
  }

  /** Fewer than `limit` waiting entries come before some mention of this one in the list. */
  ghost predicate AheadOfLimit(entries: map<Id, Entry>, visible: seq<Id>, now: Time, limit: nat,
                               id: Id)
  {
    exists k :: 0 <= k < |visible| && visible[k] == id
                && |WaitingIn(entries, visible[..k], now)| < limit
  }

  /**
   * Exactly which entries a claim takes, and what taking one means: the lease is the claimant's, the
   * attempt is counted, and nothing else about it changes. All others stay as they are.
   */
  lemma ClaimTakesExactly(ob: Queue, claim: Op, id: Id)
    requires claim.Claiming? && id in ob.entries
    ensures var e, after := ob.entries[id], Apply(ob, claim).entries;
            && id in after && after.Keys == ob.entries.Keys
            && after[id] ==
                 if Waiting(e, claim.at)
                    && AheadOfLimit(ob.entries, claim.visible, claim.at, claim.limit, id) then
                   e.(lease := Some(Lease(claim.holder, claim.expires)), attempts := e.attempts + 1)
                 else e
  {
    ChosenExactly(ob.entries, EligibleAt(claim.at), claim.visible, claim.limit, id);
    hide Chosen;
    forall k | 0 <= k <= |claim.visible|
      ensures Among(ob.entries, EligibleAt(claim.at), claim.visible[..k])
           == WaitingIn(ob.entries, claim.visible[..k], claim.at)
    {
    }
    hide Among;
  }

  /** An event can be taken by the first claim that lists it first once it is issued. */
  lemma IssuedIsTaken(ob: Queue, id: Id, payload: Payload, at: Time, claim: Op)
    requires claim.Claiming? && claim.at >= at && claim.limit >= 1
    requires claim.visible != [] && claim.visible[0] == id
    ensures var after := Apply(Apply(ob, Issuing(id, payload, at)), claim);
            && id in after.entries && after.entries[id].payload == payload
            && after.entries[id].lease == Some(Lease(claim.holder, claim.expires))
            && after.entries[id].attempts == 1
  {
    var issued := Apply(ob, Issuing(id, payload, at));
    ClaimTakesExactly(issued, claim, id);
    WaitingAreFew(issued.entries, claim.visible[..0], claim.at);
    assert AheadOfLimit(issued.entries, claim.visible, claim.at, claim.limit, id);
    hide Picked;
  }

  /** Whether an answer is the last word on an entry. */
  ghost predicate EndsEntry(copy: Entry, answer: Answer, now: Time)
    requires answer.Failed?
  {
    if answer.code.VersionGap? then
      copy.gapFirstSeen.Some? && now >= copy.gapFirstSeen.value + 15 * MINUTE
    else answer.permanent || copy.attempts >= 12
  }

  /**
   * What becomes of an entry by the answer about the copy that was claimed. A handled one is gone and
   * marked. A failed one ends as a dead letter if it is refused for good, used up its attempts, or is
   * a version gap for fifteen minutes. Any other failure leaves it live and unleased, to be tried
   * again in one second to five minutes; a version gap never waits past its fifteen minutes.
   */
  ghost predicate Becomes(copy: Entry, answer: Answer, now: Time, before: Queue, after: Queue, id: Id)
    requires id in before.entries
  {
    match answer
    case Handled => id !in after.entries && id in after.processed
    case Failed(code, _) =>
      if EndsEntry(copy, answer, now) then id !in after.entries && id in after.dead
      else
        && id in after.entries && id !in after.dead
        && var e := after.entries[id];
           && e.payload == before.entries[id].payload && e.attempts == before.entries[id].attempts
           && e.lease.None? && e.lastFailure == Some(code)
           && e.availableAt <= now + 5 * MINUTE
           && if code.VersionGap? then
                var first := if before.entries[id].gapFirstSeen.Some? then
                               before.entries[id].gapFirstSeen.value else now;
                && e.gapFirstSeen == Some(first)
                && (copy.gapFirstSeen == before.entries[id].gapFirstSeen ==>
                      now < e.availableAt <= first + 15 * MINUTE)
              else e.gapFirstSeen.None? && now + SECOND <= e.availableAt
  }

  lemma ConcludingMeans(ob: Queue, id: Id, holder: Id, copy: Entry, answer: Answer, now: Time,
                        hash: nat)
    requires Held(ob, id, holder) && id !in ob.dead
    ensures var after := Conclude(ob, id, holder, Decide(copy, answer, now, hash), now);
            Becomes(copy, answer, now, ob, after, id)
  {
    DelayBounds(copy.attempts, hash);
    hide Delay;
  }

  /** Settling, in terms of the row that is held and of the answer alone. */
  lemma SettlingMeans(ob: Queue, id: Id, holder: Id, hash: nat)
    requires Inv(ob) && Held(ob, id, holder) && (id, holder) in ob.answers
    ensures (id, holder) in ob.claims
    ensures var e, at := ob.entries[id], ob.claims[(id, holder)].now;
            Becomes(e, ob.answers[(id, holder)], at, ob, Settle(ob, id, holder, hash), id)
  {
    ConcludingMeans(ob, id, holder, ob.claims[(id, holder)].entry, ob.answers[(id, holder)],
                    ob.claims[(id, holder)].now, hash);
    hide Becomes, Conclude, Decide;
  }

  /** Retries do spread: every delay between the backoff and a fifth more is some hash's. */
  lemma SettlingSpreads(ob: Queue, id: Id, holder: Id, delay: Time) returns (hash: nat)
    requires Inv(ob) && Held(ob, id, holder) && (id, holder) in ob.answers
    requires var answer := ob.answers[(id, holder)];
             && answer.Failed? && !answer.code.VersionGap? && !EndsEntry(ob.entries[id], answer, 0)
    requires var base := Min(5 * MINUTE, SECOND * Pow2(Max(ob.entries[id].attempts, 1) - 1));
             base <= delay <= Min(5 * MINUTE, base + base / 5)
    ensures (id, holder) in ob.claims
    ensures var after := Settle(ob, id, holder, hash);
            id in after.entries
            && after.entries[id].availableAt == ob.claims[(id, holder)].now + delay
  {
    JitterCovers(ob.entries[id].attempts, delay);
    hash := delay - Backoff(ob.entries[id].attempts);
    hide Backoff, Delay, Pow2, Bounded;
  }

  // ---------------------------------------------------------------------------------------------
  // The store and the dispatcher
  // ---------------------------------------------------------------------------------------------

  datatype ClaimFault = InvalidLease | InvalidLimit

  datatype Lost = LeaseLost

  datatype Handling = Succeeded | Retried | DeadLettered | Missed

  datatype TickResult = TickResult(
    claimed: nat, succeeded: nat, retried: nat, deadLettered: nat, lost: nat)

  /** What a worker reports when it settles an entry. */
  function Fate(ob: Queue, id: Id, holder: Id, v: Verdict): Handling {
    if !Held(ob, id, holder) then Missed
    else
      match v
      case Acknowledge => Succeeded
      case Record(_, _, dead) =>
        if !dead then Retried else if id in ob.dead then Missed else DeadLettered
  }

  function VerdictOn(copy: Entry, handler: Entry -> Answer, now: Time, hash: nat): Verdict {
    Decide(copy, handler(copy), now, hash)
  }

  /** Two queues agree about one event. */
  ghost predicate SameAt(a: Queue, b: Queue, id: Id) {
    && (id in a.entries <==> id in b.entries)
    && (id in a.entries && id in b.entries ==> a.entries[id] == b.entries[id])
    && (id in a.processed <==> id in b.processed) && (id in a.dead <==> id in b.dead)
  }

  /** Settling an entry depends on that entry alone, and leaves every other one as it was. */
  lemma SettlingIsLocal(a: Queue, b: Queue, id: Id, holder: Id, v: Verdict, now: Time)
    requires SameAt(a, b, id)
    ensures SameAt(Conclude(a, id, holder, v, now), Conclude(b, id, holder, v, now), id)
    ensures Fate(a, id, holder, v) == Fate(b, id, holder, v)
  {
    assert Held(a, id, holder) <==> Held(b, id, holder);
  }

  lemma SettlingKeepsOthers(ob: Queue, id: Id, holder: Id, v: Verdict, now: Time)
    ensures forall other :: other != id ==> SameAt(Conclude(ob, id, holder, v, now), ob, other)
  {
    hide Released;
  }

  /** The entries in `of` were settled as decided on their claimed copies, and no other one was. */
  ghost predicate AllSettled(ob: Queue, claimed: Queue, of: map<Id, Handling>, holder: Id,
                             handler: Entry -> Answer, now: Time, hash: Id -> nat)
  {
    && of.Keys <= claimed.entries.Keys
    && (forall id :: id in of ==>
          var v := VerdictOn(claimed.entries[id], handler, now, hash(id));
          && of[id] == Fate(claimed, id, holder, v)
          && SameAt(ob, Conclude(claimed, id, holder, v, now), id))
    && (forall id :: id !in of ==> SameAt(ob, claimed, id))
  }

  lemma NothingSettled(ob: Queue, holder: Id, handler: Entry -> Answer, now: Time, hash: Id -> nat)
    ensures AllSettled(ob, ob, map[], holder, handler, now, hash)
  {
  }

  lemma OneMoreSettled(ob: Queue, claimed: Queue, of: map<Id, Handling>, id: Id, holder: Id,
                       handler: Entry -> Answer, now: Time, hash: Id -> nat)
    requires AllSettled(ob, claimed, of, holder, handler, now, hash)
    requires id in claimed.entries && id !in of
    ensures var v := VerdictOn(claimed.entries[id], handler, now, hash(id));
            AllSettled(Conclude(ob, id, holder, v, now), claimed,
                       of[id := Fate(ob, id, holder, v)], holder, handler, now, hash)
  {
    var v := VerdictOn(claimed.entries[id], handler, now, hash(id));
    var after := Conclude(ob, id, holder, v, now);
    SettlingIsLocal(ob, claimed, id, holder, v, now);
    SettlingKeepsOthers(ob, id, holder, v, now);
    hide Conclude, Fate, VerdictOn, SameAt;
    forall other | other != id && other in of
      ensures var w := VerdictOn(claimed.entries[other], handler, now, hash(other));
              SameAt(after, Conclude(claimed, other, holder, w, now), other)
    {
      var w := VerdictOn(claimed.entries[other], handler, now, hash(other));
      SameAtTogether(after, ob, Conclude(claimed, other, holder, w, now), other);
    }
    forall other | other != id && other !in of ensures SameAt(after, claimed, other) {
      SameAtTogether(after, ob, claimed, other);
    }
  }

  lemma ClaimedMeans(ob: Queue, before: Queue, of: map<Id, Handling>, holder: Id,
                     handler: Entry -> Answer, now: Time, expires: Time, hash: Id -> nat)
    requires AllSettled(ob, Claim(before, holder, now, expires, of.Keys), of, holder, handler, now,
                        hash)
    ensures var claimed := Claim(before, holder, now, expires, of.Keys);
            forall id :: id in of && id !in before.dead ==>
              id in claimed.entries
              && Becomes(claimed.entries[id], handler(claimed.entries[id]), now, claimed, ob, id)
  {
    var claimed := Claim(before, holder, now, expires, of.Keys);
    forall id | id in of && id !in before.dead
      ensures id in claimed.entries
      ensures Becomes(claimed.entries[id], handler(claimed.entries[id]), now, claimed, ob, id)
    {
      var copy := claimed.entries[id];
      ConcludingMeans(claimed, id, holder, copy, handler(copy), now, hash(id));
      BecomesThere(copy, handler(copy), now, claimed,
                   Conclude(claimed, id, holder, VerdictOn(copy, handler, now, hash(id)), now), ob,
                   id);
    }
  }

  lemma BecomesThere(copy: Entry, answer: Answer, now: Time, before: Queue, after: Queue, ob: Queue,
                     id: Id)
    requires id in before.entries && SameAt(ob, after, id)
    requires Becomes(copy, answer, now, before, after, id)
    ensures Becomes(copy, answer, now, before, ob, id)
  {
  }

  lemma ClaimedStay(before: Queue, holder: Id, now: Time, expires: Time, visible: seq<Id>,
                    limit: nat)
    ensures var picked := Picked(before.entries, visible, now, limit);
            picked <= Claim(before, holder, now, expires, picked).entries.Keys
  {
    PickedAreEligible(before.entries, visible, now, limit);
    hide Picked;
  }

  /** What was not claimed is as it was before the claim. */
  lemma UnclaimedStay(ob: Queue, before: Queue, of: map<Id, Handling>, holder: Id,
                      handler: Entry -> Answer, now: Time, expires: Time, hash: Id -> nat)
    requires AllSettled(ob, Claim(before, holder, now, expires, of.Keys), of, holder, handler, now,
                        hash)
    ensures forall id :: id !in of.Keys ==> SameAt(ob, before, id)
  {
    hide Conclude, Fate, VerdictOn;
  }

  lemma SameAtTogether(a: Queue, b: Queue, c: Queue, id: Id)
    requires SameAt(a, b, id) && SameAt(b, c, id)
    ensures SameAt(a, c, id)
  {
  }

  function Counted(t: TickResult, h: Handling): TickResult {
    match h
    case Succeeded => t.(succeeded := t.succeeded + 1)
    case Retried => t.(retried := t.retried + 1)
    case DeadLettered => t.(deadLettered := t.deadLettered + 1)
    case Missed => t.(lost := t.lost + 1)
  }

  ghost predicate Counts(t: TickResult, of: map<Id, Handling>) {
    && t.succeeded == Tally(of, Succeeded) && t.retried == Tally(of, Retried)
    && t.deadLettered == Tally(of, DeadLettered) && t.lost == Tally(of, Missed)
  }

  lemma NothingCounted(claimed: nat)
    ensures Counts(TickResult(claimed, 0, 0, 0, 0), map[])
  {
    TallyIsBounded<Handling>(map[]);
  }

  lemma OneMoreCounted(t: TickResult, of: map<Id, Handling>, id: Id, h: Handling)
    requires Counts(t, of) && id !in of
    ensures Counts(Counted(t, h), of[id := h])
  {
    TallyOneMore(of, id, h);
  }

  class OutboxStore {
    var entries: map<Id, Entry>
    var processed: set<Id>
    var dead: set<Id>
    ghost var issued: map<Id, Payload>
    ghost var holders: set<Id>
    ghost var claims: map<(Id, Id), Claimed>
    ghost var answers: map<(Id, Id), Answer>

    ghost function View(): Queue
      reads this
    {
      Queue(entries, processed, dead, issued, holders, claims, answers)
    }

    constructor ()
      ensures View() == Empty()
    {
      entries, processed, dead := map[], {}, {};
      issued, holders, claims, answers := map[], {}, map[], map[];
    }

    /** `visible` lists the rows no other transaction has locked, in index order. */
    method ClaimEntries(holder: Id, now: Time, expires: Time, limit: int, visible: seq<Id>)
      returns (r: Result<set<Id>, ClaimFault>)
      modifies this
      ensures r.Err? <==> holder == "" || expires <= now || !(1 <= limit <= BATCH_SIZE)
      ensures r.Err? ==> View() == old(View())
      ensures r.Ok? ==> r.value == Picked(old(entries), visible, now, limit)
      ensures r.Ok? ==> View() == Claim(old(View()), holder, now, expires, r.value)
    {
      if holder == "" || expires <= now { return Err(InvalidLease); }
      if limit < 1 || limit > BATCH_SIZE { return Err(InvalidLimit); }
      var candidates := Choose(entries, EligibleAt(now), visible, limit);
      claims := claims + Copies(entries, candidates, holder, expires, now);
      entries := LeaseAll(entries, candidates, holder, expires);
      holders := holders + {holder};
      return Ok(candidates);
    }

    method Succeed(id: Id, holder: Id) returns (r: Result<(), Lost>)
      modifies this
      ensures r.Ok? <==> Held(old(View()), id, holder)
      ensures View() == AfterSuccess(old(View()), id, holder)
    {
      var held := id in entries && entries[id].lease.Some?
                  && entries[id].lease.value.holder == holder;
      var inserted := held && id !in processed;
      if !inserted && !held { return Err(LeaseLost); }
      processed := processed + {id};
      entries := entries - {id};
      return Ok(());
    }

    method Fail(id: Id, holder: Id, code: Code, next: Time, now: Time, dying: bool)
      returns (r: Result<(), Lost>)
      modifies this
      ensures r.Ok? <==> Held(old(View()), id, holder) && !(dying && id in old(dead))
      ensures View() == AfterFailure(old(View()), id, holder, code, next, now, dying)
    {
      if dying {
        r := DeadLetter(id, holder);
        return;
      }
      if id !in entries || entries[id].lease.None? || entries[id].lease.value.holder != holder {
        return Err(LeaseLost);
      }
      entries := entries[id := Released(entries[id], code, next, now)];
      return Ok(());
    }

    method DeadLetter(id: Id, holder: Id) returns (r: Result<(), Lost>)
      modifies this
      ensures r.Ok? <==> Held(old(View()), id, holder) && id !in old(dead)
      ensures r.Err? ==> View() == old(View())
      ensures r.Ok? ==>
                View() == old(View()).(dead := old(dead) + {id}, entries := old(entries) - {id})
    {
      if id !in entries || entries[id].lease.None? || entries[id].lease.value.holder != holder
         || id in dead {
        return Err(LeaseLost);
      }
      dead := dead + {id};
      entries := entries - {id};
      return Ok(());
    }

    /** One worker settles the copy it claimed, once its handler has answered. */
    method Handle(id: Id, copy: Entry, holder: Id, now: Time, answer: Answer, hash: nat)
      returns (h: Handling)
      modifies this
      ensures View() == Conclude(old(View()), id, holder, Decide(copy, answer, now, hash), now)
      ensures h == Fate(old(View()), id, holder, Decide(copy, answer, now, hash))
      ensures Held(old(View()), id, holder) && id !in old(dead) ==>
                && Becomes(copy, answer, now, old(View()), View(), id)
                && (h.Succeeded? <==> answer.Handled?)
                && (h.DeadLettered? <==> answer.Failed? && EndsEntry(copy, answer, now))
                && (h.Retried? <==> answer.Failed? && !EndsEntry(copy, answer, now))
      ensures h.Missed? ==> View() == old(View())
      ensures h.Succeeded? <==> answer.Handled? && Held(old(View()), id, holder)
      ensures !h.Missed? && answer.Failed? ==>
                h.DeadLettered? == Decide(copy, answer, now, hash).dead
    {
      if Held(View(), id, holder) && id !in dead {
        ConcludingMeans(View(), id, holder, copy, answer, now, hash);
      }
      hide Becomes, Delay;
      if answer.Handled? {
        var done := Succeed(id, holder);
        return if done.Ok? then Succeeded else Missed;
      }
      var code, dying := answer.code, answer.permanent;
      if code.VersionGap? {
        var firstSeen := now;
        if copy.gapFirstSeen.Some? { firstSeen := copy.gapFirstSeen.value; }
        dying := now >= firstSeen + GAP_TIMEOUT;
      } else if copy.attempts >= MAX_ATTEMPTS {
        dying := true;
      }
      var delay := RetryDelay(copy.attempts, hash);
      var next := now + delay;
      if code.VersionGap? && !dying {
        var deadline := now + GAP_TIMEOUT;
        if copy.gapFirstSeen.Some? { deadline := copy.gapFirstSeen.value + GAP_TIMEOUT; }
        if next > deadline { next := deadline; }
      }
      var recorded := Fail(id, holder, code, next, now, dying);
      if recorded.Err? { return Missed; }
      return if dying then DeadLettered else Retried;
    }

    /**
     * One pass: claim a batch, run its handlers, settle each entry, count what happened. `of` says
     * what became of each claimed entry.
     */
    method Tick(holder: Id, now: Time, lease: Time, batch: int, visible: seq<Id>,
                handler: Entry -> Answer, hash: Id -> nat)
      returns (r: Result<TickResult, ClaimFault>, ghost of: map<Id, Handling>)
      modifies this
      ensures r.Err? <==> holder == "" || lease <= 0 || !(1 <= batch <= BATCH_SIZE)
      ensures r.Err? ==> View() == old(View())
      ensures r.Ok? ==>
                && r.value.claimed == |of| && Counts(r.value, of)
                && r.value.claimed == r.value.succeeded + r.value.retried
                                      + r.value.deadLettered + r.value.lost
      ensures r.Ok? ==>
                var picked := Picked(old(entries), visible, now, batch);
                var claimed := Claim(old(View()), holder, now, now + lease, picked);
                && of.Keys == picked
                && AllSettled(View(), claimed, of, holder, handler, now, hash)
                && (forall id :: id !in picked ==> SameAt(View(), old(View()), id))
                && (forall id :: id in picked && id !in old(dead) ==>
                      && id in claimed.entries
                      && Becomes(claimed.entries[id], handler(claimed.entries[id]), now, claimed,
                                 View(), id))
    {
      hide Picked, Claim, AllSettled, SameAt, Counts;
      var taken := ClaimEntries(holder, now, now + lease, batch, visible);
      if taken.Err? { return Err(taken.error), map[]; }
      ClaimedStay(old(View()), holder, now, now + lease, visible, batch);
      var t;
      t, of := SettleEach(taken.value, holder, now, handler, hash);
      hide *;
      ClaimedMeans(View(), old(View()), of, holder, handler, now, now + lease, hash);
      UnclaimedStay(View(), old(View()), of, holder, handler, now, now + lease, hash);
      return Ok(t), of;
    }

    /** The workers of one pass. */
    method SettleEach(taken: set<Id>, holder: Id, now: Time, handler: Entry -> Answer,
                      hash: Id -> nat)
      returns (t: TickResult, ghost of: map<Id, Handling>)
      requires taken <= entries.Keys
      modifies this
      ensures of.Keys == taken && t.claimed == |taken|
      ensures Counts(t, of)
      ensures t.claimed == t.succeeded + t.retried + t.deadLettered + t.lost
      ensures AllSettled(View(), old(View()), of, holder, handler, now, hash)
    {
      hide Conclude, Decide, Held, Fate, AllSettled, SameAt, Counts;
      of := map[];
      var copies := entries;
      ghost var claimed := View();
      NothingSettled(claimed, holder, handler, now, hash);
      t := TickResult(|taken|, 0, 0, 0, 0);
      NothingCounted(|taken|);
      var left := taken;
      while left != {}
        invariant left <= taken
        invariant Counts(t, of) && t.claimed == |taken|
        invariant t.succeeded + t.retried + t.deadLettered + t.lost == t.claimed - |left|
        invariant of.Keys == taken - left
        invariant AllSettled(View(), claimed, of, holder, handler, now, hash)
        decreases left
      {
        var id :| id in left;
        OneMoreSettled(View(), claimed, of, id, holder, handler, now, hash);
        var answer := handler(copies[id]);
        var h := Handle(id, copies[id], holder, now, answer, hash(id));
        OneMoreCounted(t, of, id, h);
        t := Counted(t, h);
        of := of[id := h];
        left := left - {id};
      }
    }
  }
}
