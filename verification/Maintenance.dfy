/**
 * Maintenance windows: half-open intervals that are kept when cancelled, so that what they say
 * about an instant can be asked later. Every instant is UTC.
 */
module Maintenance {
  import opened Common

  const MAX_DURATION: Time := 30 * 24 * HOUR

  /** `version` is the transaction that last wrote the row. */
  datatype Window = Window(
    id: Id, monitor: Id, starts: Time, ends: Time, created: Time, cancelled: Option<Time>,
    version: nat)

  datatype Fault = MissingIdentity | InvalidBounds | BeginsBeforeCreation | InvalidCancellation
                 | Ended

  datatype Status = Upcoming | Active | Over | Withdrawn

  /** What a row must satisfy to become a window. */
  function Restore(w: Window): Result<Window, Fault> {
    if w.id == "" || w.monitor == "" then Err(MissingIdentity)
    else if w.ends - w.starts <= 0 || w.ends - w.starts > MAX_DURATION then Err(InvalidBounds)
    else if w.created > w.starts then Err(BeginsBeforeCreation)
    else if w.cancelled.Some? && (w.cancelled.value < w.created || w.cancelled.value >= w.ends) then
      Err(InvalidCancellation)
    else Ok(w)
  }

  function StatusAt(w: Window, now: Time): Status {
    if w.cancelled.Some? then Withdrawn
    else if now < w.starts then Upcoming
    else if now < w.ends then Active
    else Over
  }

  /** Whether the window says anything about this instant, whenever it is asked. */
  predicate AppliesAt(w: Window, at: Time) {
    w.starts <= at < w.ends && (w.cancelled.Some? ==> at < w.cancelled.value)
  }

  /** The instants before this one that the window applies at form an interval. */
  function EffectiveEnd(w: Window): Time {
    if w.cancelled.Some? then Min(w.ends, w.cancelled.value) else w.ends
  }

  lemma AppliesOnInterval(w: Window, at: Time)
    ensures AppliesAt(w, at) <==> w.starts <= at < EffectiveEnd(w)
  {
  }

  /** A window that was not cancelled is active exactly at the instants it applies at. */
  lemma ActiveMeansApplies(w: Window, now: Time)
    ensures StatusAt(w, now).Active? <==> AppliesAt(w, now) && w.cancelled.None?
  {
  }

  /** Cancelling records when the window stopped applying; cancelling again changes nothing. */
  function Cancelled(w: Window, at: Time): Result<Window, Fault> {
    if w.cancelled.Some? then Ok(w)
    else if at < w.created then Err(InvalidCancellation)
    else if at >= w.ends then Err(Ended)
    else Ok(w.(cancelled := Some(at)))
  }

  method Cancel(w: Window, at: Time) returns (r: Result<Window, Fault>)
    ensures r == Cancelled(w, at)
  {
    if w.cancelled.Some? { return Ok(w); }
    if at < w.created { return Err(InvalidCancellation); }
    if !(at < w.ends) { return Err(Ended); }
    var value := w;
    value := value.(cancelled := Some(at));
    return Ok(value);
  }

  /** Cancelling keeps a window valid, leaves the past alone and ends it at that instant. */
  lemma CancelKeepsThePast(w: Window, at: Time, t: Time)
    requires Restore(w).Ok? && Cancelled(w, at).Ok?
    ensures Restore(Cancelled(w, at).value).Ok?
    ensures t < at ==> (AppliesAt(Cancelled(w, at).value, t) <==> AppliesAt(w, t))
    ensures w.cancelled.None? && at <= t ==> !AppliesAt(Cancelled(w, at).value, t)
  {
  }

  // ---------------------------------------------------------------------------------------------
  // The table
  // ---------------------------------------------------------------------------------------------

  datatype Db = Db(monitors: set<Id>, windows: map<Id, Window>, transactions: nat)

  datatype StoreFault = MonitorNotFound | Overlap | ConcurrentUpdate

  /** The overlap check looks at windows that were not cancelled. */
  predicate Blocks(w: Window, value: Window) {
    w.monitor == value.monitor && w.cancelled.None? && w.starts < value.ends
    && w.ends > value.starts
  }

  predicate Overlaps(db: Db, value: Window) {
    exists id :: id in db.windows && Blocks(db.windows[id], value)
  }

  function CreateWindow(db: Db, value: Window): (Db, Result<(), StoreFault>) {
    if value.monitor !in db.monitors then (db, Err(MonitorNotFound))
    else if Overlaps(db, value) then (db, Err(Overlap))
    else
      var row := value.(version := db.transactions + 1);
      (db.(windows := db.windows[value.id := row], transactions := db.transactions + 1), Ok(()))
  }

  function CancelWindow(db: Db, value: Window, expected: nat): (Db, Result<(), StoreFault>) {
    if value.id !in db.windows || db.windows[value.id].monitor != value.monitor
       || db.windows[value.id].version != expected || value.monitor !in db.monitors then
      (db, Err(ConcurrentUpdate))
    else
      var row := db.windows[value.id].(cancelled := value.cancelled,
                                       version := db.transactions + 1);
      (db.(windows := db.windows[value.id := row], transactions := db.transactions + 1), Ok(()))
  }

  /** An uncancelled window of the Monitor and this one both apply at some instant. */
  ghost predicate Meets(w: Window, value: Window) {
    w.monitor == value.monitor && w.cancelled.None?
    && exists t :: AppliesAt(w, t) && AppliesAt(value, t)
  }

  lemma BlocksMeansMeets(w: Window, value: Window)
    requires Restore(w).Ok? && Restore(value).Ok? && value.cancelled.None?
    ensures Blocks(w, value) <==> Meets(w, value)
  {
    if Blocks(w, value) {
      var t := Max(w.starts, value.starts);
      assert AppliesAt(w, t) && AppliesAt(value, t);
    }
  }

  /**
   * Exactly when a window is refused: its Monitor is unknown, or an uncancelled window of the Monitor
   * and the new one both apply at some instant. Otherwise it is added as it is.
   */
  lemma CreationMeans(db: Db, value: Window)
    requires Restore(value).Ok? && value.cancelled.None?
    requires forall id :: id in db.windows ==> Restore(db.windows[id]).Ok?
    ensures var (after, r) := CreateWindow(db, value);
            && (r == Err(MonitorNotFound) <==> value.monitor !in db.monitors)
            && (r == Err(Overlap) <==>
                  value.monitor in db.monitors
                  && exists id :: id in db.windows && Meets(db.windows[id], value))
            && (r.Err? ==> after == db)
            && (r.Ok? ==>
                  && after.monitors == db.monitors && value.id in after.windows
                  && after.windows == db.windows[value.id := after.windows[value.id]]
                  && after.windows[value.id] == value.(version := after.windows[value.id].version))
  {
    forall id | id in db.windows ensures Blocks(db.windows[id], value) <==> Meets(db.windows[id], value)
    {
      BlocksMeansMeets(db.windows[id], value);
    }
    hide Blocks, Meets;
  }

  /** Exactly when a cancellation is written: the row is there in the version that was read. */
  lemma CancellationMeans(db: Db, value: Window, expected: nat)
    ensures var (after, r) := CancelWindow(db, value, expected);
            if value.id in db.windows && db.windows[value.id].monitor == value.monitor
               && value.monitor in db.monitors && db.windows[value.id].version == expected then
              && r.Ok? && after.monitors == db.monitors && value.id in after.windows
              && after.windows == db.windows[value.id := after.windows[value.id]]
              && after.windows[value.id]
                 == db.windows[value.id].(cancelled := value.cancelled,
                                          version := after.windows[value.id].version)
              && (expected <= db.transactions ==> after.windows[value.id].version != expected)
            else r == Err(ConcurrentUpdate) && after == db
  {
  }

  /** The condition the routing query puts on a row for the instant of an Alert. */
  predicate RoutingMatches(w: Window, monitor: Id, at: Time) {
    && w.monitor == monitor && w.created <= at && w.starts <= at && w.ends > at
    && (w.cancelled.None? || w.cancelled.value > at)
  }

  /** On every row the schema allows, the query asks what the domain asks. */
  lemma RoutingAgrees(w: Window, at: Time)
    requires Restore(w).Ok?
    ensures RoutingMatches(w, w.monitor, at) <==> AppliesAt(w, at)
  {
  }

  // ---------------------------------------------------------------------------------------------
  // The window an Alert matches
  // ---------------------------------------------------------------------------------------------

  /** Identifiers in ascending order. */
  predicate Below(a: Id, b: Id)
    decreases |a|
  {
    b != "" && (a == "" || a[0] < b[0] || (a[0] == b[0] && Below(a[1..], b[1..])))
  }

  lemma {:induction false} BelowIsTotal(a: Id, b: Id)
    ensures !(Below(a, b) && Below(b, a))
    ensures a == b || Below(a, b) || Below(b, a)
    ensures !Below(a, a)
    decreases |a|
  {
    if a != "" {
      BelowIsTotal(a[1..], if b == "" then "" else b[1..]);
      if b != "" && a[0] == b[0] && a[1..] == b[1..] {
        assert a == [a[0]] + a[1..] && b == [b[0]] + b[1..];
      }
    }
  }

  lemma {:induction false} BelowIsTransitive(a: Id, b: Id, c: Id)
    requires Below(a, b) && Below(b, c)
    ensures Below(a, c)
    decreases |a|
  {
    if a != "" && a[0] == b[0] == c[0] { BelowIsTransitive(a[1..], b[1..], c[1..]); }
  }

  /** The order of the routing query: by start, then by identifier. */
  predicate Precedes(windows: map<Id, Window>, a: Id, b: Id)
    requires a in windows && b in windows
  {
    windows[a].starts < windows[b].starts
    || (windows[a].starts == windows[b].starts && Below(a, b))
  }

  predicate Matches(windows: map<Id, Window>, monitor: Id, at: Time, id: Id) {
    id in windows && RoutingMatches(windows[id], monitor, at)
  }

  /** The first of the windows that match. */
  predicate IsFirst(windows: map<Id, Window>, monitor: Id, at: Time, id: Id) {
    && Matches(windows, monitor, at, id)
    && forall other :: other in windows && Matches(windows, monitor, at, other) && other != id ==>
         Precedes(windows, id, other)
  }

  lemma OnlyOneIsFirst(windows: map<Id, Window>, monitor: Id, at: Time, a: Id, b: Id)
    requires IsFirst(windows, monitor, at, a) && IsFirst(windows, monitor, at, b)
    ensures a == b
  {
    BelowIsTotal(a, b);
  }

  /** Some row of a non-empty set of rows precedes all the others. */
  lemma {:induction false} SomeoneIsFirst(windows: map<Id, Window>, ids: set<Id>)
    returns (first: Id)
    requires ids != {} && ids <= windows.Keys
    ensures first in ids && forall id :: id in ids && id != first ==> Precedes(windows, first, id)
    decreases ids
  {
    var one :| one in ids;
    var rest := ids - {one};
    if rest == {} {
      assert ids == {one};
      return one;
    }
    var next := SomeoneIsFirst(windows, rest);
    BelowIsTotal(one, next);
    if Precedes(windows, next, one) { return next; }
    forall id | id in rest && id != next ensures Precedes(windows, one, id) {
      if Below(one, next) && Below(next, id) { BelowIsTransitive(one, next, id); }
    }
    first := one;
    forall id | id in ids && id != first ensures Precedes(windows, first, id) {
      assert id in rest;
    }
  }

  /** The window that suppresses deliveries about a Monitor at an instant, if one does. */
  function MatchOf(windows: map<Id, Window>, monitor: Id, at: Time): (r: Option<Id>)
    ensures r.Some? <==> exists id :: Matches(windows, monitor, at, id)
    ensures r.Some? ==> IsFirst(windows, monitor, at, r.value)
  {
    MatchExists(windows, monitor, at);
    if exists id :: id in windows && IsFirst(windows, monitor, at, id) then
      OneMatchOnly(windows, monitor, at);
      var id :| id in windows && IsFirst(windows, monitor, at, id);
      Some(id)
    else None
  }

  lemma OneMatchOnly(windows: map<Id, Window>, monitor: Id, at: Time)
    ensures forall a, b :: IsFirst(windows, monitor, at, a) && IsFirst(windows, monitor, at, b) ==>
              a == b
  {
    forall a, b | IsFirst(windows, monitor, at, a) && IsFirst(windows, monitor, at, b)
      ensures a == b
    {
      OnlyOneIsFirst(windows, monitor, at, a, b);
    }
  }

  lemma MatchExists(windows: map<Id, Window>, monitor: Id, at: Time)
    ensures (exists id :: Matches(windows, monitor, at, id)) ==>
              exists id :: id in windows && IsFirst(windows, monitor, at, id)
  {
    var ids := set id | id in windows && Matches(windows, monitor, at, id);
    if id :| Matches(windows, monitor, at, id) {
      assert id in ids;
      var first := SomeoneIsFirst(windows, ids);
      assert IsFirst(windows, monitor, at, first);
    }
  }

  /** Tables in which the same rows match, with the same starts, give the same answer. */
  lemma SameMatches(before: map<Id, Window>, after: map<Id, Window>, monitor: Id, at: Time)
    requires forall id :: Matches(before, monitor, at, id) <==> Matches(after, monitor, at, id)
    requires forall id :: id in before && id in after ==> before[id].starts == after[id].starts
    ensures MatchOf(before, monitor, at) == MatchOf(after, monitor, at)
  {
    hide MatchOf, RoutingMatches;
    var a, b := MatchOf(before, monitor, at), MatchOf(after, monitor, at);
    if a.Some? {
      assert Matches(after, monitor, at, a.value) && Matches(before, monitor, at, b.value);
      BelowIsTotal(a.value, b.value);
    }
  }

  /** The table's identifiers in the order of the query. */
  ghost predicate Lists(windows: map<Id, Window>, listing: seq<Id>) {
    && (forall id :: id in windows <==> id in listing)
    && (forall i, j :: 0 <= i < j < |listing| ==> Precedes(windows, listing[i], listing[j]))
  }

  /** The routing query: the first row in that order that matches. */
  method FindMatch(windows: map<Id, Window>, listing: seq<Id>, monitor: Id, at: Time)
    returns (r: Option<Id>)
    requires Lists(windows, listing)
    ensures r == MatchOf(windows, monitor, at)
  {
    hide MatchOf, RoutingMatches;
    for i := 0 to |listing|
      invariant forall k :: 0 <= k < i ==> !Matches(windows, monitor, at, listing[k])
    {
      if RoutingMatches(windows[listing[i]], monitor, at) {
        var id := listing[i];
        assert IsFirst(windows, monitor, at, id);
        OnlyOneIsFirst(windows, monitor, at, id, MatchOf(windows, monitor, at).value);
        return Some(id);
      }
    }
    assert forall id :: !Matches(windows, monitor, at, id);
    return None;
  }
}
