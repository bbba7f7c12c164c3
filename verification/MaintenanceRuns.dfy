/**
 * Operators create and cancel windows concurrently. An operation reads the clock when it begins and
 * commits later; what windows say about an instant is final once nothing in flight read the clock
 * before it.
 */
module MaintenanceRuns {
  import opened Common
  import opened Maintenance

  datatype Operation =
    | Creating(w: Window)
    | Cancelling(w: Window, at: Time)

  /** Operations that have read the clock and have not committed, by a token of their own. */
  datatype World = World(db: Db, clock: Time, pending: map<nat, Operation>)

  datatype Event =
    | Passes(to: Time)
    | Registers(monitor: Id)
    | BeginsCreating(k: nat, id: Id, monitor: Id, starts: Time, ends: Time)
    | BeginsCancelling(k: nat, id: Id)
    | Commits(k: nat)
    | Abandons(k: nat)

  function Reading(o: Operation): Time {
    match o
    case Creating(w) => w.created
    case Cancelling(_, at) => at
  }

  function MonitorOf(o: Operation): Id { o.w.monitor }

  /** The service's own checks before it builds a window. */
  predicate Acceptable(starts: Time, ends: Time, now: Time) {
    now <= starts < ends && ends - starts <= MAX_DURATION
  }

  function Begin(w: World, k: nat, o: Operation): World { w.(pending := w.pending[k := o]) }

  function Committed(db: Db, o: Operation): (Db, Result<(), StoreFault>) {
    match o
    case Creating(w) => CreateWindow(db, w)
    case Cancelling(w, at) => CancelWindow(db, w.(cancelled := Some(at)), w.version)
  }

  function Happens(w: World, e: Event): World {
    match e
    case Passes(to) => w.(clock := to)
    case Registers(m) => w.(db := w.db.(monitors := w.db.monitors + {m}))
    case BeginsCreating(k, id, m, starts, ends) =>
      var v := Restore(Window(id, m, starts, ends, w.clock, None, 0));
      if !Acceptable(starts, ends, w.clock) || v.Err? then w else Begin(w, k, Creating(v.value))
    case BeginsCancelling(k, id) =>
      if id !in w.db.windows || w.db.windows[id].cancelled.Some?
         || Cancelled(w.db.windows[id], w.clock).Err? then w
      else Begin(w, k, Cancelling(w.db.windows[id], w.clock))
    case Commits(k) =>
      if k !in w.pending then w
      else w.(db := Committed(w.db, w.pending[k]).0, pending := w.pending - {k})
    case Abandons(k) => w.(pending := w.pending - {k})
  }

  /** Time moves forward; tokens and window identifiers are fresh. */
  ghost predicate May(w: World, e: Event) {
    match e
    case Passes(to) => w.clock <= to
    case BeginsCreating(k, id, _, _, _) =>
      && k !in w.pending && id !in w.db.windows
      && forall j :: j in w.pending ==> w.pending[j].w.id != id
    case BeginsCancelling(k, _) => k !in w.pending
    case _ => true
  }

  ghost predicate Possible(w: World, es: seq<Event>)
    decreases |es|
  {
    es == [] || (May(w, es[0]) && Possible(Happens(w, es[0]), es[1..]))
  }

  function After(w: World, es: seq<Event>): World
    decreases |es|
  {
    if es == [] then w else After(Happens(w, es[0]), es[1..])
  }

  const ORIGIN := World(Db({}, map[], 0), 0, map[])

  // ---------------------------------------------------------------------------------------------
  // Every row is valid
  // ---------------------------------------------------------------------------------------------

  /** A pending operation read the clock already, and what it would write is valid. */
  ghost predicate PendingInv(w: World, o: Operation) {
    && Reading(o) <= w.clock
    && match o
       case Creating(v) =>
         Restore(v).Ok? && v.cancelled.None? && v.created <= v.starts && v.id !in w.db.windows
       case Cancelling(v, at) =>
         && v.cancelled.None? && v.created <= at < v.ends
         && v.id in w.db.windows && w.db.windows[v.id].monitor == v.monitor
         && v.version <= w.db.windows[v.id].version
         && (w.db.windows[v.id].version == v.version ==> w.db.windows[v.id] == v)
  }

  ghost predicate RowInv(db: Db, id: Id) {
    id in db.windows ==>
      && db.windows[id].id == id && Restore(db.windows[id]).Ok?
      && db.windows[id].version <= db.transactions
  }

  ghost predicate Inv(w: World) {
    && (forall id :: RowInv(w.db, id))
    && (forall k :: k in w.pending ==> PendingInv(w, w.pending[k]))
    && (forall j, k :: j in w.pending && k in w.pending && j != k
                       && w.pending[j].Creating? && w.pending[k].Creating? ==>
          w.pending[j].w.id != w.pending[k].w.id)
  }

  lemma CommitKeepsInv(w: World, k: nat)
    requires Inv(w) && k in w.pending
    ensures Inv(Happens(w, Commits(k)))
  {
    var after := Happens(w, Commits(k));
    var o := w.pending[k];
    assert PendingInv(w, o) && RowInv(w.db, o.w.id);
    CommitWrites(w, o);
    hide Committed, Restore;
    forall id ensures RowInv(after.db, id) { assert RowInv(w.db, id); }
    forall j | j in after.pending ensures PendingInv(after, after.pending[j]) {
      assert PendingInv(w, w.pending[j]);
      assert RowInv(w.db, w.pending[j].w.id);
    }
  }

  /** A commit writes at most the row of its own window, under a new transaction. */
  lemma CommitWrites(w: World, o: Operation)
    requires PendingInv(w, o) && RowInv(w.db, o.w.id)
    ensures var after := Committed(w.db, o).0;
            && after.monitors == w.db.monitors && w.db.transactions <= after.transactions
            && (after.windows == w.db.windows
                || (&& o.w.id in after.windows && after.windows[o.w.id].id == o.w.id
                    && after.windows == w.db.windows[o.w.id := after.windows[o.w.id]]
                    && after.windows[o.w.id].version == after.transactions
                    && w.db.transactions < after.transactions
                    && after.windows[o.w.id].monitor == o.w.monitor
                    && Restore(after.windows[o.w.id]).Ok?))
  {
  }

  lemma HappensKeepsInv(w: World, e: Event)
    requires Inv(w) && May(w, e)
    ensures Inv(Happens(w, e))
  {
    if e.Commits? && e.k in w.pending {
      CommitKeepsInv(w, e.k);
      hide *;
    } else {
      var after := Happens(w, e);
      forall id ensures RowInv(after.db, id) { assert RowInv(w.db, id); }
      forall k | k in after.pending ensures PendingInv(after, after.pending[k]) {
        if k in w.pending { assert PendingInv(w, w.pending[k]); }
        if e.BeginsCancelling? { assert RowInv(w.db, e.id); }
      }
    }
  }

  lemma {:induction false} AfterKeepsInv(w: World, es: seq<Event>)
    requires Inv(w) && Possible(w, es)
    ensures Inv(After(w, es))
    decreases |es|
  {
    hide Inv, May, Happens;
    if es != [] {
      HappensKeepsInv(w, es[0]);
      AfterKeepsInv(Happens(w, es[0]), es[1..]);
    }
  }

  /** Every stored window satisfies what reading it back demands. */
  lemma EveryRowRestores(es: seq<Event>, id: Id)
    requires Possible(ORIGIN, es) && id in After(ORIGIN, es).db.windows
    ensures Restore(After(ORIGIN, es).db.windows[id]).Ok?
  {
    hide Possible, After;
    assert Inv(ORIGIN);
    AfterKeepsInv(ORIGIN, es);
    assert RowInv(After(ORIGIN, es).db, id);
  }

  // ---------------------------------------------------------------------------------------------
  // The past is final
  // ---------------------------------------------------------------------------------------------

  ghost predicate Says(db: Db, id: Id, t: Time) { id in db.windows && AppliesAt(db.windows[id], t) }

  /** Nothing in flight, and nothing still to begin, has read the clock at or before this instant. */
  ghost predicate Settled(w: World, t: Time) {
    t < w.clock && forall k :: k in w.pending ==> t < Reading(w.pending[k])
  }

  lemma HappensKeepsThePast(w: World, e: Event, id: Id, t: Time)
    requires Inv(w) && May(w, e) && Settled(w, t)
    ensures Settled(Happens(w, e), t)
    ensures Says(Happens(w, e).db, id, t) <==> Says(w.db, id, t)
  {
    if e.Commits? && e.k in w.pending {
      assert PendingInv(w, w.pending[e.k]);
    }
  }

  /**
   * Event-time answers are stable: once an instant is settled, nothing that happens later changes
   * which windows apply at it.
   */
  lemma {:induction false} SettledIsFinal(w: World, es: seq<Event>, id: Id, t: Time)
    requires Inv(w) && Possible(w, es) && Settled(w, t)
    ensures Says(After(w, es).db, id, t) <==> Says(w.db, id, t)
    decreases |es|
  {
    hide Inv, May, Happens, Says, Settled;
    if es != [] {
      HappensKeepsInv(w, es[0]);
      HappensKeepsThePast(w, es[0], id, t);
      SettledIsFinal(Happens(w, es[0]), es[1..], id, t);
    }
  }

  /** What a step keeps of every row: its Monitor and its start. */
  ghost predicate KeepsRows(before: Db, after: Db) {
    forall id :: id in before.windows ==>
      && id in after.windows && after.windows[id].monitor == before.windows[id].monitor
      && after.windows[id].starts == before.windows[id].starts
  }

  lemma HappensKeepsRows(w: World, e: Event)
    requires Inv(w) && May(w, e)
    ensures KeepsRows(w.db, Happens(w, e).db)
  {
    if e.Commits? && e.k in w.pending {
      var o := w.pending[e.k];
      assert PendingInv(w, o);
    }
  }

  lemma {:induction false} RowsAreKept(w: World, es: seq<Event>)
    requires Inv(w) && Possible(w, es)
    ensures KeepsRows(w.db, After(w, es).db)
    decreases |es|
  {
    hide Inv, May, Happens;
    if es != [] {
      HappensKeepsInv(w, es[0]);
      HappensKeepsRows(w, es[0]);
      RowsAreKept(Happens(w, es[0]), es[1..]);
    }
  }

  /** On valid rows a match is a window of the Monitor that applies. */
  lemma MatchesMeansSays(w: World, monitor: Id, t: Time, id: Id)
    requires Inv(w)
    ensures Matches(w.db.windows, monitor, t, id) <==>
              Says(w.db, id, t) && w.db.windows[id].monitor == monitor
  {
    if id in w.db.windows {
      assert RowInv(w.db, id);
      RoutingAgrees(w.db.windows[id], t);
    }
  }

  /**
   * Routing does not depend on how late it happens: once an instant is settled, the window an Alert
   * about it matches stays the same, whatever operators do in the meantime.
   */
  lemma MatchIsFinal(w: World, es: seq<Event>, monitor: Id, t: Time)
    requires Inv(w) && Possible(w, es) && Settled(w, t)
    ensures MatchOf(After(w, es).db.windows, monitor, t) == MatchOf(w.db.windows, monitor, t)
  {
    hide Inv, Possible, After, Settled, Matches, MatchOf, Says;
    var later := After(w, es);
    AfterKeepsInv(w, es);
    RowsAreKept(w, es);
    forall id
      ensures Matches(w.db.windows, monitor, t, id) <==> Matches(later.db.windows, monitor, t, id)
    {
      MatchesMeansSays(w, monitor, t, id);
      MatchesMeansSays(later, monitor, t, id);
      SettledIsFinal(w, es, id, t);
      SaysIsThere(w.db, id, t);
    }
    SameMatches(w.db.windows, later.db.windows, monitor, t);
  }

  lemma SaysIsThere(db: Db, id: Id, t: Time)
    ensures Says(db, id, t) ==> id in db.windows
  {
  }

  // ---------------------------------------------------------------------------------------------
  // At most one window applies
  // ---------------------------------------------------------------------------------------------

  ghost predicate Apart(a: Window, b: Window) {
    a.monitor == b.monitor ==> EffectiveEnd(a) <= b.starts || EffectiveEnd(b) <= a.starts
                               || EffectiveEnd(a) <= a.starts || EffectiveEnd(b) <= b.starts
  }

  /** No two windows of a Monitor, cancelled or not, apply at the same instant. */
  ghost predicate Exclusive(windows: map<Id, Window>) {
    forall a, b :: a in windows && b in windows && a != b ==> Apart(windows[a], windows[b])
  }

  /** At most one window of a Monitor applies at any instant. */
  ghost predicate OneApplies(db: Db) {
    forall a, b, t ::
      Says(db, a, t) && Says(db, b, t) && db.windows[a].monitor == db.windows[b].monitor ==> a == b
  }

  /** Windows are exclusive exactly if at most one applies at any instant. */
  lemma ExclusiveMeansOne(db: Db)
    ensures Exclusive(db.windows) <==> OneApplies(db)
  {
    if Exclusive(db.windows) {
      forall a, b, t | Says(db, a, t) && Says(db, b, t)
                       && db.windows[a].monitor == db.windows[b].monitor
        ensures a == b
      {
        AppliesOnInterval(db.windows[a], t);
        AppliesOnInterval(db.windows[b], t);
        assert a != b ==> Apart(db.windows[a], db.windows[b]);
      }
    }
    if OneApplies(db) {
      forall a, b | a in db.windows && b in db.windows && a != b
        ensures Apart(db.windows[a], db.windows[b])
      {
        OneMeansApart(db, a, b);
      }
    }
  }

  lemma OneMeansApart(db: Db, a: Id, b: Id)
    requires OneApplies(db) && a in db.windows && b in db.windows && a != b
    ensures Apart(db.windows[a], db.windows[b])
  {
    var t := Max(db.windows[a].starts, db.windows[b].starts);
    AppliesOnInterval(db.windows[a], t);
    AppliesOnInterval(db.windows[b], t);
    if db.windows[a].monitor == db.windows[b].monitor {
      assert !(Says(db, a, t) && Says(db, b, t));
    }
  }

  /**
   * Exactly when creating a window keeps at most one applying at any instant. The overlap check
   * ignores cancelled windows, so each of those must have stopped applying before the new one starts,
   * or start after it ends, or have been cancelled before it ever applied.
   */
  lemma CreateKeepsExclusive(db: Db, value: Window)
    requires OneApplies(db) && value.cancelled.None? && value.id !in db.windows
    requires CreateWindow(db, value).1.Ok?
    ensures OneApplies(CreateWindow(db, value).0) <==>
            forall id :: id in db.windows && db.windows[id].monitor == value.monitor
                         && db.windows[id].cancelled.Some? ==>
              var w := db.windows[id];
              Min(Min(w.ends, w.cancelled.value), value.ends) <= Max(w.starts, value.starts)
  {
    ExclusiveMeansOne(db);
    ExclusiveMeansOne(CreateWindow(db, value).0);
    hide OneApplies;
    CreateKeepsApart(db, value);
    hide CreateWindow, Exclusive;
    forall id | id in db.windows && db.windows[id].cancelled.Some?
      ensures Apart(db.windows[id], value) <==>
              (db.windows[id].monitor == value.monitor ==>
                 var w := db.windows[id];
                 Min(Min(w.ends, w.cancelled.value), value.ends) <= Max(w.starts, value.starts))
    {
    }
  }

  lemma CreateKeepsApart(db: Db, value: Window)
    requires Exclusive(db.windows) && value.cancelled.None? && value.id !in db.windows
    requires CreateWindow(db, value).1.Ok?
    ensures Exclusive(CreateWindow(db, value).0.windows) <==>
            forall id :: id in db.windows && db.windows[id].cancelled.Some? ==>
              Apart(db.windows[id], value)
  {
    var after := CreateWindow(db, value).0;
    var row := after.windows[value.id];
    forall id | id in db.windows && db.windows[id].cancelled.None?
      ensures Apart(db.windows[id], value)
    {
      assert !Blocks(db.windows[id], value);
    }
    forall id | id in db.windows
      ensures Apart(db.windows[id], row) <==> Apart(db.windows[id], value)
    {
    }
    if Exclusive(after.windows) {
      forall id | id in db.windows && db.windows[id].cancelled.Some?
        ensures Apart(db.windows[id], value)
      {
        assert Apart(after.windows[id], after.windows[value.id]);
      }
    }
  }

  /** Cancelling only takes instants away. */
  lemma CancelKeepsExclusive(db: Db, value: Window, expected: nat)
    requires Exclusive(db.windows) && value.id in db.windows && db.windows[value.id].cancelled.None?
    requires value.cancelled.Some?
    ensures Exclusive(CancelWindow(db, value, expected).0.windows)
  {
    var after := CancelWindow(db, value, expected).0;
    forall a, b | a in after.windows && b in after.windows && a != b
      ensures Apart(after.windows[a], after.windows[b])
    {
      assert Apart(db.windows[a], db.windows[b]);
    }
  }

  /** Operations on one Monitor do not overlap: each commits before the next reads the clock. */
  ghost predicate Alone(w: World, e: Event) {
    && (e.BeginsCreating? ==> forall k :: k in w.pending ==> MonitorOf(w.pending[k]) != e.monitor)
    && (e.BeginsCancelling? && e.id in w.db.windows ==>
          forall k :: k in w.pending ==> MonitorOf(w.pending[k]) != w.db.windows[e.id].monitor)
  }

  ghost predicate OneAtATime(w: World, es: seq<Event>)
    decreases |es|
  {
    es == [] || (Alone(w, es[0]) && OneAtATime(Happens(w, es[0]), es[1..]))
  }

  ghost predicate Unraced(w: World) {
    && (forall j, k :: j in w.pending && k in w.pending && j != k ==>
          MonitorOf(w.pending[j]) != MonitorOf(w.pending[k]))
    && (forall k, id :: k in w.pending && id in w.db.windows
                        && w.db.windows[id].monitor == MonitorOf(w.pending[k])
                        && w.db.windows[id].cancelled.Some? ==>
          w.db.windows[id].cancelled.value <= Reading(w.pending[k]))
    && (forall id :: id in w.db.windows && w.db.windows[id].cancelled.Some? ==>
          w.db.windows[id].cancelled.value <= w.clock)
    && Exclusive(w.db.windows)
  }

  lemma UnracedCommit(w: World, k: nat)
    requires Inv(w) && Unraced(w) && k in w.pending
    ensures Unraced(Happens(w, Commits(k)))
  {
    var o := w.pending[k];
    var after := Happens(w, Commits(k));
    assert PendingInv(w, o);
    match o {
      case Creating(v) =>
        if Committed(w.db, o).1.Ok? {
          forall id | id in w.db.windows && w.db.windows[id].cancelled.Some?
            ensures Apart(w.db.windows[id], v)
          {
          }
          CreateKeepsApart(w.db, v);
        }
      case Cancelling(v, at) =>
        if Committed(w.db, o).1.Ok? {
          CancelKeepsExclusive(w.db, v.(cancelled := Some(at)), v.version);
        }
    }
    hide Exclusive;
  }

  lemma HappensStaysUnraced(w: World, e: Event)
    requires Inv(w) && May(w, e) && Alone(w, e) && Unraced(w)
    ensures Unraced(Happens(w, e))
  {
    hide Exclusive;
    if e.Commits? && e.k in w.pending { UnracedCommit(w, e.k); }
  }

  lemma {:induction false} StaysUnraced(w: World, es: seq<Event>)
    requires Inv(w) && Possible(w, es) && OneAtATime(w, es) && Unraced(w)
    ensures Unraced(After(w, es))
    decreases |es|
  {
    hide Inv, May, Happens, Unraced, Alone;
    if es != [] {
      HappensKeepsInv(w, es[0]);
      HappensStaysUnraced(w, es[0]);
      StaysUnraced(Happens(w, es[0]), es[1..]);
    }
  }

  /** If operations on a Monitor happen one at a time, at most one window applies at any instant. */
  lemma AtMostOneApplies(es: seq<Event>, a: Id, b: Id, t: Time)
    requires Possible(ORIGIN, es) && OneAtATime(ORIGIN, es)
    requires var db := After(ORIGIN, es).db;
             Says(db, a, t) && Says(db, b, t) && db.windows[a].monitor == db.windows[b].monitor
    ensures a == b
  {
    hide Possible, OneAtATime, After;
    assert Inv(ORIGIN) && Unraced(ORIGIN);
    StaysUnraced(ORIGIN, es);
    ExclusiveMeansOne(After(ORIGIN, es).db);
  }

  /**
   * A race the overlap check does not see: the second window is created with a clock reading from
   * before the cancellation of the first, and committed after it.
   */
  const RACE := [
    Registers("monitor"), BeginsCreating(0, "first", "monitor", 10, 20), Commits(0), Passes(12),
    BeginsCreating(1, "second", "monitor", 12, 30), Passes(15), BeginsCancelling(2, "first"),
    Commits(2), Commits(1)]

  /** Then both windows apply at the instants in between, and only the race is to blame. */
  lemma RacingWindowsOverlap()
    ensures Possible(ORIGIN, RACE) && !OneAtATime(ORIGIN, RACE)
    ensures var db := After(ORIGIN, RACE).db;
            && Says(db, "first", 13) && Says(db, "second", 13)
            && db.windows["first"].monitor == db.windows["second"].monitor
  {
    var w1 := Happens(ORIGIN, RACE[0]);
    var w2 := Happens(w1, RACE[1]);
    var w3 := Happens(w2, RACE[2]);
    var w4 := Happens(w3, RACE[3]);
    var w5 := Happens(w4, RACE[4]);
    var w6 := Happens(w5, RACE[5]);
    var w7 := Happens(w6, RACE[6]);
    var w8 := Happens(w7, RACE[7]);
    var w9 := Happens(w8, RACE[8]);
    FirstIsCreated();
    SecondBegins(w4);
    FirstIsCancelled(w6);
    hide Happens, May, Alone;
    Unfold(w8, 8);
    Unfold(w7, 7);
    Unfold(w6, 6);
    Unfold(w5, 5);
    Unfold(w4, 4);
    Unfold(w3, 3);
    Unfold(w2, 2);
    Unfold(w1, 1);
    Unfold(ORIGIN, 0);
    assert RACE[0..] == RACE && RACE[9..] == [];
    assert w9.db.windows["first"].monitor == "monitor";
  }

  /** The history from one of its events on. */
  lemma Unfold(w: World, k: nat)
    requires k < |RACE|
    ensures Possible(w, RACE[k..]) <==> May(w, RACE[k]) && Possible(Happens(w, RACE[k]), RACE[k + 1..])
    ensures OneAtATime(w, RACE[k..])
            <==> Alone(w, RACE[k]) && OneAtATime(Happens(w, RACE[k]), RACE[k + 1..])
    ensures After(w, RACE[k..]) == After(Happens(w, RACE[k]), RACE[k + 1..])
  {
    assert RACE[k..][1..] == RACE[k + 1..];
  }

  lemma FirstIsCreated()
    ensures var w1 := Happens(ORIGIN, RACE[0]);
            var w2 := Happens(w1, RACE[1]);
            var w3 := Happens(w2, RACE[2]);
            && May(ORIGIN, RACE[0]) && May(w1, RACE[1]) && May(w2, RACE[2]) && May(w3, RACE[3])
            && Happens(w3, RACE[3])
               == World(Db({"monitor"}, map["first" := Window("first", "monitor", 10, 20, 0, None, 1)],
                           1), 12, map[])
  {
  }

  lemma SecondBegins(w: World)
    requires w == World(Db({"monitor"}, map["first" := Window("first", "monitor", 10, 20, 0, None, 1)],
                           1), 12, map[])
    ensures var w5 := Happens(w, RACE[4]);
            && May(w, RACE[4]) && May(w5, RACE[5])
            && Happens(w5, RACE[5])
               == w.(clock := 15,
                     pending := map[1 := Creating(Window("second", "monitor", 12, 30, 12, None, 0))])
  {
  }

  lemma FirstIsCancelled(w: World)
    requires w == World(Db({"monitor"}, map["first" := Window("first", "monitor", 10, 20, 0, None, 1)],
                           1), 15,
                        map[1 := Creating(Window("second", "monitor", 12, 30, 12, None, 0))])
    ensures var w7 := Happens(w, RACE[6]);
            var w8 := Happens(w7, RACE[7]);
            var w9 := Happens(w8, RACE[8]);
            && May(w, RACE[6]) && !Alone(w, RACE[6]) && May(w7, RACE[7]) && May(w8, RACE[8])
            && Says(w9.db, "first", 13) && Says(w9.db, "second", 13)
            && w9.db.windows["first"].monitor == w9.db.windows["second"].monitor == "monitor"
  {
    var w7 := Happens(w, RACE[6]);
    var w8 := Happens(w7, RACE[7]);
    assert w7.pending[2] == Cancelling(w.db.windows["first"], 15);
    assert w8.db.windows.Keys == {"first"} && w8.db.windows["first"].cancelled == Some(15);
    assert !Overlaps(w8.db, w8.pending[1].w);
  }
}
