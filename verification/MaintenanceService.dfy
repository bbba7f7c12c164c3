/** The maintenance service and its store, statement by statement. */
module MaintenanceService {
  import opened Common
  import opened Maintenance
  import R = MaintenanceRuns

  class WindowStore {
    var monitors: set<Id>
    var windows: map<Id, Window>
    var transactions: nat

    function View(): Db
      reads this
    {
      Db(monitors, windows, transactions)
    }

    constructor ()
      ensures View() == Db({}, map[], 0)
    {
      monitors, windows, transactions := {}, map[], 0;
    }

    method CreateWindow(value: Window) returns (r: Result<(), StoreFault>)
      modifies `windows, `transactions
      ensures (View(), r) == Maintenance.CreateWindow(old(View()), value)
    {
      if value.monitor !in monitors { return Err(MonitorNotFound); }
      var overlaps := exists id :: id in windows && Blocks(windows[id], value);
      if overlaps { return Err(Overlap); }
      transactions := transactions + 1;
      windows := windows[value.id := value.(version := transactions)];
      return Ok(());
    }

    method FindWindow(monitor: Id, id: Id) returns (r: Option<Window>)
      ensures r.Some? <==> id in windows && windows[id].monitor == monitor && monitor in monitors
      ensures r.Some? ==> r.value == windows[id]
    {
      if id !in windows || windows[id].monitor != monitor || monitor !in monitors { return None; }
      return Some(windows[id]);
    }

    method CancelWindow(value: Window, expected: nat) returns (r: Result<(), StoreFault>)
      modifies `windows, `transactions
      ensures (View(), r) == Maintenance.CancelWindow(old(View()), value, expected)
    {
      if value.id !in windows || windows[value.id].monitor != value.monitor
         || windows[value.id].version != expected || value.monitor !in monitors {
        return Err(ConcurrentUpdate);
      }
      transactions := transactions + 1;
      windows := windows[value.id := windows[value.id].(cancelled := value.cancelled,
                                                        version := transactions)];
      return Ok(());
    }

    /** Other operators' commits. */
    method Others(ops: seq<R.Operation>)
      modifies `windows, `transactions
      ensures View() == After(old(View()), ops)
    {
      var after := After(View(), ops);
      AfterKeepsMonitors(View(), ops);
      windows, transactions := after.windows, after.transactions;
    }
  }

  function After(db: Db, ops: seq<R.Operation>): Db
    decreases |ops|
  {
    if ops == [] then db else After(R.Committed(db, ops[0]).0, ops[1..])
  }

  lemma {:induction false} AfterKeepsMonitors(db: Db, ops: seq<R.Operation>)
    ensures After(db, ops).monitors == db.monitors
    decreases |ops|
  {
    if ops != [] { AfterKeepsMonitors(R.Committed(db, ops[0]).0, ops[1..]); }
  }

  datatype Failure = StartsAtInvalid | EndsAtInvalid | DurationInvalid

  datatype CreateResult =
    | Invalid(failures: seq<Failure>)
    | Created(window: Window)
    | UnknownMonitor
    | Overlapping
    | Faulty

  /** The service reads the clock, lists every rule the command breaks, then asks the store. */
  method Create(store: WindowStore, id: Id, monitor: Id, starts: Time, ends: Time, now: Time)
    returns (r: CreateResult)
    requires id != "" && monitor != ""
    modifies store
    ensures r.Invalid? <==> !R.Acceptable(starts, ends, now)
    ensures r.Invalid? ==>
              && (StartsAtInvalid in r.failures <==> starts < now)
              && (EndsAtInvalid in r.failures <==> ends <= starts)
              && (DurationInvalid in r.failures <==>
                    now <= starts < ends && ends - starts > MAX_DURATION)
    ensures !r.Faulty?
    ensures var w := Window(id, monitor, starts, ends, now, None, 0);
            if r.Created? then
              r.window == w && old(store.monitors) == store.monitors
              && Maintenance.CreateWindow(old(store.View()), w) == (store.View(), Ok(()))
            else store.View() == old(store.View())
    ensures r.UnknownMonitor? <==> !r.Invalid? && monitor !in store.monitors
    ensures (forall i :: i in old(store.windows) ==> Restore(old(store.windows)[i]).Ok?) ==>
              (r.Overlapping? <==>
                 && !r.Invalid? && monitor in store.monitors
                 && exists i :: i in old(store.windows)
                                && Meets(old(store.windows)[i],
                                         Window(id, monitor, starts, ends, now, None, 0)))
  {
    var startsValid := starts >= now;
    var endsValid := ends > starts;
    var failures: seq<Failure> := [];
    if !startsValid { failures := failures + [StartsAtInvalid]; }
    if !endsValid { failures := failures + [EndsAtInvalid]; }
    if startsValid && endsValid && ends - starts > MAX_DURATION {
      failures := failures + [DurationInvalid];
    }
    if |failures| != 0 { return Invalid(failures); }
    var created := Restore(Window(id, monitor, starts, ends, now, None, 0));
    if created.Err? { return Faulty; }
    if forall i :: i in store.windows ==> Restore(store.windows[i]).Ok? {
      CreationMeans(store.View(), created.value);
    }
    hide Overlaps, Meets;
    var done := store.CreateWindow(created.value);
    if done.Ok? { return Created(created.value); }
    match done.error {
      case MonitorNotFound => return UnknownMonitor;
      case Overlap => return Overlapping;
      case ConcurrentUpdate => return Faulty;
    }
  }

  datatype CancelResult =
    | WasCancelled(window: Window)
    | NotFound
    | WindowEnded
    | Concurrent
    | Broken

  /** Others may create windows, and may cancel the one in question. */
  ghost predicate Others(db: Db, ops: seq<R.Operation>)
    decreases |ops|
  {
    ops == []
    || (&& (ops[0].Creating? ==> ops[0].w.id !in db.windows)
        && Others(R.Committed(db, ops[0]).0, ops[1..]))
  }

  /** A row others wrote in the meantime is one they cancelled. */
  lemma {:induction false} OthersOnlyCancel(db: Db, ops: seq<R.Operation>, id: Id)
    requires Others(db, ops) && id in db.windows
    ensures id in After(db, ops).windows
    ensures After(db, ops).windows[id] == db.windows[id]
            || (After(db, ops).windows[id].cancelled.Some?
                && After(db, ops).windows[id].monitor == db.windows[id].monitor)
    decreases |ops|
  {
    if ops != [] { OthersOnlyCancel(R.Committed(db, ops[0]).0, ops[1..], id); }
  }

  /**
   * Cancels a window. Others may commit between reading it and writing it; since all they can do
   * to it is cancel it, the caller is never told of a concurrent update. A clock that is behind the
   * window's creation is an error.
   */
  method CancelById(store: WindowStore, monitor: Id, id: Id, now: Time, ops: seq<R.Operation>)
    returns (r: CancelResult)
    requires Others(store.View(), ops)
    requires forall i :: i in store.windows ==>
               store.windows[i].id == i && Restore(store.windows[i]).Ok?
    modifies store
    ensures r.NotFound? <==> !(id in old(store.windows) && old(store.windows)[id].monitor == monitor
                               && monitor in old(store.monitors))
    ensures r.WasCancelled? ==> id in store.windows && store.windows[id].cancelled.Some?
                                && store.windows[id].monitor == monitor
    ensures r.WasCancelled? ==> r.window.cancelled == store.windows[id].cancelled
    ensures if r.WasCancelled? && old(store.windows)[id].cancelled.None? then
              store.View()
              == R.Committed(After(old(store.View()), ops),
                             R.Cancelling(old(store.windows)[id], now)).0
            else store.View() == old(store.View())
    ensures r.WindowEnded? <==> !r.NotFound? && old(store.windows)[id].cancelled.None?
                                && old(store.windows)[id].ends <= now
    ensures r.Broken? <==> !r.NotFound? && old(store.windows)[id].cancelled.None?
                           && now < old(store.windows)[id].created
    ensures !r.Concurrent?
  {
    var found := store.FindWindow(monitor, id);
    if found.None? { return NotFound; }
    var value := found.value;
    if value.cancelled.Some? { return WasCancelled(value); }
    var expected := value.version;
    var cancelled := Cancel(value, now);
    if cancelled.Err? { return if cancelled.error.Ended? then WindowEnded else Broken; }
    value := cancelled.value;
    ghost var before := store.View();
    store.Others(ops);
    OthersOnlyCancel(before, ops, id);
    AfterKeepsMonitors(before, ops);
    var done := store.CancelWindow(value, expected);
    if done.Err? {
      var current := store.FindWindow(monitor, id);
      if current.Some? && current.value.cancelled.Some? { return WasCancelled(current.value); }
      return Concurrent;
    }
    return WasCancelled(value);
  }
}
