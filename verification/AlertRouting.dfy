/**
 * Announcing Incidents: the transaction that turns an Incident's fact into an Alert also routes it to
 * webhooks, by the maintenance windows of the instant the fact occurred at. Three state machines meet
 * here: the pipeline, the webhook tables, and the operators' maintenance windows.
 */
module AlertRouting {
  import opened Common
  import opened Events
  import P = Pipeline
  import PI = PipelineInv
  import PP = PipelineProjection
  import PR = PipelineRuns
  import PS = PipelineStore
  import W = Webhook
  import WI = WebhookInv
  import WD = WebhookDelivery
  import WR = WebhookRuns
  import WS = WebhookStore
  import M = Maintenance
  import MR = MaintenanceRuns
  import Q = Outbox
  import H = Health
  import R = HealthRuns

  /** History: which fact an Alert was about, who was enabled then, and which window applied. */
  datatype Routing = Routing(key: (Id, int), enabled: set<Id>, window: Option<Id>)

  datatype System = System(
    pipeline: P.Db, webhooks: W.Db, operators: MR.World, routed: map<Id, Routing>)

  const ORIGIN := System(P.Empty(), W.Empty(), MR.ORIGIN, map[])

  datatype Action =
    | Pipelines(s: P.Step)
    | Webhooks(w: W.Step)
    | Operates(o: MR.Event)
    | Projects(s: P.Step, targets: seq<Id>, ids: seq<Id>)

  /** A worker handles an incident event. */
  predicate IsProjection(db: P.Db, s: P.Step) {
    s.Handle? && s.e in db.queue.issued && db.queue.issued[s.e].IncidentTransitioned?
  }

  function Key(p: Payload): (Id, int)
    requires p.IncidentTransitioned?
  {
    (p.incident, p.version)
  }

  /** The event is new, and so is the Alert about its fact. */
  predicate Announcing(db: P.Db, s: P.Step)
    requires IsProjection(db, s)
  {
    var p := db.queue.issued[s.e];
    s.e !in db.queue.processed && P.HasFact(db.incidents, p) && Key(p) !in db.alerts
  }

  /** The routing step of the transaction. */
  function RoutesOf(x: System, s: P.Step, targets: seq<Id>, ids: seq<Id>): W.Step
    requires IsProjection(x.pipeline, s)
  {
    var p := x.pipeline.queue.issued[s.e];
    W.Routes(s.alert, s.at, p.monitor, p.at, x.operators.db.windows, targets, ids)
  }

  /** Alert, deliveries and marker are written together or not at all. */
  function Project(x: System, s: P.Step, targets: seq<Id>, ids: seq<Id>): (System, Q.Answer)
    requires IsProjection(x.pipeline, s) && |targets| <= |ids|
  {
    var (p, answer) := P.NotifyTransition(x.pipeline, s.e, s.alert, s.at);
    if !Announcing(x.pipeline, s) then (x.(pipeline := p), answer)
    else
      var window := W.WindowOf(RoutesOf(x, s, targets, ids));
      var (w, r) := W.Route(x.webhooks, s.alert, s.at, window, targets, ids);
      if r.Err? then (x, P.FAULT)
      else
        (System(p, w, x.operators,
                x.routed[s.alert := Routing(Key(x.pipeline.queue.issued[s.e]),
                                            W.EnabledIds(x.webhooks.rows), window)]), answer)
  }

  function Next(x: System, a: Action): System {
    match a
    case Pipelines(s) => x.(pipeline := P.Next(x.pipeline, s))
    case Webhooks(w) => x.(webhooks := W.Next(x.webhooks, w))
    case Operates(o) => x.(operators := MR.Happens(x.operators, o))
    case Projects(s, targets, ids) =>
      if !IsProjection(x.pipeline, s) || |targets| > |ids| then x
      else
        var (after, answer) := Project(x, s, targets, ids);
        after.(pipeline := after.pipeline.(
          queue := Q.Reply(after.pipeline.queue, s.e, s.holder, answer)))
  }

  /** Incident events are handled, and Alerts routed, only together; an Alert's identifier is new. */
  ghost predicate Enabled(x: System, a: Action) {
    match a
    case Pipelines(s) => P.Enabled(x.pipeline, s) && !IsProjection(x.pipeline, s)
    case Webhooks(w) => W.Enabled(x.webhooks, w) && !w.Routes?
    case Operates(o) => MR.May(x.operators, o)
    case Projects(s, targets, ids) =>
      && IsProjection(x.pipeline, s) && P.Enabled(x.pipeline, s) && s.alert !in x.routed
      && W.Enabled(x.webhooks, RoutesOf(x, s, targets, ids))
  }

  ghost predicate Legal(x: System, actions: seq<Action>)
    decreases |actions|
  {
    actions == [] || (Enabled(x, actions[0]) && Legal(Next(x, actions[0]), actions[1..]))
  }

  function Run(x: System, actions: seq<Action>): System
    decreases |actions|
  {
    if actions == [] then x else Run(Next(x, actions[0]), actions[1..])
  }

  // ---------------------------------------------------------------------------------------------
  // The invariant
  // ---------------------------------------------------------------------------------------------

  /** Alerts and routings are in one-to-one correspondence. */
  ghost predicate Paired(alerts: map<(Id, int), P.Alert>, routed: map<Id, Routing>) {
    && (forall key :: key in alerts ==> alerts[key].id in routed && routed[alerts[key].id].key == key)
    && (forall a :: a in routed ==> routed[a].key in alerts && alerts[routed[a].key].id == a)
  }

  /** A delivery goes to an Integration that was enabled, under the window that applied. */
  ghost predicate Follows(d: W.Delivery, routed: map<Id, Routing>) {
    && d.alert in routed && d.integration in routed[d.alert].enabled
    && d.suppressedBy == routed[d.alert].window
  }

  ghost predicate Reaches(deliveries: map<Id, W.Delivery>, alert: Id, integration: Id) {
    exists d :: d in deliveries && deliveries[d].alert == alert
                && deliveries[d].integration == integration
  }

  /** Deliveries are exactly the ones that routing decided on. */
  ghost predicate Delivered(deliveries: map<Id, W.Delivery>, routed: map<Id, Routing>) {
    && (forall d :: d in deliveries ==> Follows(deliveries[d], routed))
    && (forall a, i :: a in routed && i in routed[a].enabled ==> Reaches(deliveries, a, i))
    && WR.OneEach(deliveries)
  }

  ghost predicate Inv(x: System) {
    && PI.Inv(x.pipeline) && WI.Inv(x.webhooks) && MR.Inv(x.operators)
    && Paired(x.pipeline.alerts, x.routed) && Delivered(x.webhooks.deliveries, x.routed)
  }

  lemma OriginInv()
    ensures Inv(ORIGIN)
  {
    PI.EmptyInv();
    WI.EmptyInv();
    hide PI.Inv, WI.Inv;
  }

  ghost predicate SameAlerts(a: P.Db, b: P.Db) { a.alerts == b.alerts }

  lemma MarkedKeepsAlerts(db: P.Db, mid: P.Db, e: Id)
    requires SameAlerts(db, mid)
    ensures SameAlerts(db, mid.(queue := Q.Mark(mid.queue, e)))
  {
  }

  lemma CommitKeepsAlerts(db: P.Db, m: Id, f: R.Fact, d: H.Decision, ids: P.HealthIds, now: Time)
    ensures SameAlerts(db, P.Commit(db, m, f, d, ids, now))
  {
    hide P.Completed, P.Created, P.Request, Q.Issue;
  }

  lemma EvidenceKeepsAlerts(db: P.Db, s: P.Step)
    requires s.Handle? && s.e in db.queue.issued && db.queue.issued[s.e].RunRecorded?
    ensures SameAlerts(db, P.EvaluateRun(db, s.e, s.health, s.at).0)
  {
    assert SameAlerts(db, db);
    hide H.Judge, P.Conflicts, P.Commit, P.Completed, P.InputOf, P.Current, P.Announces, SameAlerts;
    var p := db.queue.issued[s.e];
    MarkedKeepsAlerts(db, db, s.e);
    if p.run in db.runs && db.runs[p.run].monitor in db.monitors {
      var x := P.InputOf(db, s.e, p.run, s.health, s.at);
      var v := H.Judge(P.Current(db, p.monitor, s.at), x);
      if v.Ok? {
        CommitKeepsAlerts(db, p.monitor, R.Seen(x), v.value, s.health, s.at);
        MarkedKeepsAlerts(db, P.Commit(db, p.monitor, R.Seen(x), v.value, s.health, s.at), s.e);
      }
    }
  }

  lemma ProjectedKeepsAlerts(db: P.Db, m: Id, c: P.Change, ids: P.IncidentIds, now: Time)
    requires c.Replaces? ==> c.k < |P.Rows(db.incidents, m)|
    ensures P.Projected(db, m, c, ids, now).alerts == db.alerts
  {
    hide P.Changed, P.Announce;
  }

  lemma TransitionKeepsAlerts(db: P.Db, s: P.Step)
    requires s.Handle? && s.e in db.queue.issued && db.queue.issued[s.e].HealthTransitioned?
    ensures P.ProjectTransition(db, s.e, s.ids, s.at).0.alerts == db.alerts
  {
    hide P.ChangeOf, P.Projected, P.ArchivedNow;
    var p := db.queue.issued[s.e];
    var m := p.monitor;
    if 1 <= p.version <= |P.Rows(db.log, m)| {
      var c := P.ChangeOf(P.Rows(db.incidents, m), db.log[m][p.version - 1], P.ArchivedNow(db, m),
                          s.ids);
      ProjectedKeepsAlerts(db, m, c, s.ids, s.at);
    }
  }

  lemma SweepKeepsAlerts(db: P.Db, s: P.Step)
    requires s.Sweep?
    ensures P.Next(db, s).alerts == db.alerts
  {
    hide H.Sweep, P.Commit;
    if !P.IsStale(db, s.m, s.version, s.at, s.ceiling) { return; }
    hide P.IsStale;
    var v := H.Sweep(db.health[s.m], s.at);
    if v.Ok? {
      CommitKeepsAlerts(db, s.m, R.Swept(s.at), v.value, P.HealthIds("", "", s.event), s.at);
    }
  }

  lemma HandlerKeepsAlerts(db: P.Db, s: P.Step)
    requires s.Handle? && s.e in db.queue.issued && !db.queue.issued[s.e].IncidentTransitioned?
    ensures SameAlerts(db, P.Handler(db, s).0)
  {
    assert SameAlerts(db, db);
    hide P.EvaluateRun, P.ProjectTransition, P.NotifyTransition;
    match db.queue.issued[s.e]
    case RunRecorded(_, _, _, _, _, _, _) => EvidenceKeepsAlerts(db, s);
    case HealthTransitioned(_, _, _, _) => TransitionKeepsAlerts(db, s);
    case ConfirmationRequested(_, _, _, _, _, _) =>
  }

  lemma OthersKeepAlerts(db: P.Db, s: P.Step)
    requires !s.Sweep? && !s.Handle?
    ensures P.Next(db, s).alerts == db.alerts
  {
    hide Q.Settle, Q.Apply, P.FindIncident, P.Acknowledging, Q.Issue, Q.Reply;
  }

  /** Only handling an incident event touches Alerts. */
  lemma AlertsStay(db: P.Db, s: P.Step)
    requires !IsProjection(db, s)
    ensures P.Next(db, s).alerts == db.alerts
  {
    if s.Sweep? {
      SweepKeepsAlerts(db, s);
    } else if s.Handle? && s.e in db.queue.issued {
      HandlerKeepsAlerts(db, s);
      hide P.Handler;
    } else if !s.Handle? {
      OthersKeepAlerts(db, s);
      hide P.Next;
    }
  }

  /** What routing decided is never rewritten. */
  lemma DeliveredStays(before: map<Id, W.Delivery>, after: map<Id, W.Delivery>,
                       routed: map<Id, Routing>)
    requires Delivered(before, routed) && WR.KeepsRoutes(before, after) && after.Keys == before.Keys
    requires WR.OneEach(after)
    ensures Delivered(after, routed)
  {
    hide WR.OneEach;
    forall a, i | a in routed && i in routed[a].enabled ensures Reaches(after, a, i) {
      assert Reaches(before, a, i);
      var d :| d in before && before[d].alert == a && before[d].integration == i;
      assert after[d].alert == a;
    }
  }

  /** Together they are a step of the pipeline and, for a new Alert, one of the webhooks. */
  lemma ProjectIsBoth(x: System, a: Action)
    requires Inv(x) && a.Projects? && Enabled(x, a)
    ensures var after := Next(x, a);
            var routes := RoutesOf(x, a.s, a.targets, a.ids);
            && after.pipeline == P.Next(x.pipeline, a.s) && after.operators == x.operators
            && (if Announcing(x.pipeline, a.s) then
                  && after.webhooks == W.Next(x.webhooks, routes)
                  && after.routed
                     == x.routed[a.s.alert := Routing(Key(x.pipeline.queue.issued[a.s.e]),
                                                      W.EnabledIds(x.webhooks.rows),
                                                      W.WindowOf(routes))]
                else after.webhooks == x.webhooks && after.routed == x.routed)
  {
    hide PI.Inv, WI.Inv, MR.Inv, Paired, Delivered, P.NotifyTransition, W.Route, W.WindowOf;
    RouteIsDone(x, a);
    NotifyIsDone(x.pipeline, a.s);
    hide P.Enabled, W.Enabled, Announcing;
  }

  lemma RouteIsDone(x: System, a: Action)
    requires WI.Inv(x.webhooks) && a.Projects? && Enabled(x, a)
    ensures |a.targets| <= |a.ids|
    ensures var routes := RoutesOf(x, a.s, a.targets, a.ids);
            var r := W.Route(x.webhooks, a.s.alert, a.s.at, W.WindowOf(routes), a.targets, a.ids);
            r.1.Ok? && W.Next(x.webhooks, routes) == r.0
  {
    var routes := RoutesOf(x, a.s, a.targets, a.ids);
    hide WI.Inv, W.Route, W.WindowOf, P.Enabled;
    WD.RouteKeepsInv(x.webhooks, routes);
  }

  lemma NotifyIsDone(db: P.Db, s: P.Step)
    requires IsProjection(db, s)
    ensures var (after, answer) := P.NotifyTransition(db, s.e, s.alert, s.at);
            P.Next(db, s) == after.(queue := Q.Reply(after.queue, s.e, s.holder, answer))
  {
    hide P.NotifyTransition;
  }

  /** A new Alert is added under its own key, with its own routing. */
  lemma PairedGrows(alerts: map<(Id, int), P.Alert>, routed: map<Id, Routing>, a: P.Alert, r: Routing)
    requires Paired(alerts, routed) && r.key == (a.incident, a.version)
    requires r.key !in alerts && a.id !in routed
    ensures Paired(alerts[r.key := a], routed[a.id := r])
  {
  }

  /** Routing adds exactly the deliveries that its own record speaks of. */
  lemma DeliveredGrows(db: W.Db, step: W.Step, routed: map<Id, Routing>, r: Routing)
    requires WI.Inv(db) && Delivered(db.deliveries, routed)
    requires step.Routes? && W.Enabled(db, step) && step.alert !in routed
    requires r.enabled == W.EnabledIds(db.rows) && r.window == W.WindowOf(step)
    ensures Delivered(W.Next(db, step).deliveries, routed[step.alert := r])
  {
    var after := W.Next(db, step).deliveries;
    WR.NextKeepsOneEach(db, step);
    WR.NextKeepsRoutes(db, step);
    hide WI.Inv, WR.OneEach, W.Next, W.WindowOf, Delivered;
    forall d | d in after ensures Follows(after[d], routed[step.alert := r]) {
      NewOrOld(db, step, d);
      if d in db.deliveries { FollowsStill(db.deliveries, routed, d); }
    }
    forall a, i | a in routed[step.alert := r] && i in routed[step.alert := r][a].enabled
      ensures Reaches(after, a, i)
    {
      if a == step.alert { ReachesEnabled(db, step, i); } else { ReachesStill(db, step, routed, a, i); }
    }
    DeliveredOf(after, routed[step.alert := r]);
  }

  lemma DeliveredOf(deliveries: map<Id, W.Delivery>, routed: map<Id, Routing>)
    requires forall d :: d in deliveries ==> Follows(deliveries[d], routed)
    requires forall a, i :: a in routed && i in routed[a].enabled ==> Reaches(deliveries, a, i)
    requires WR.OneEach(deliveries)
    ensures Delivered(deliveries, routed)
  {
  }

  lemma FollowsStill(deliveries: map<Id, W.Delivery>, routed: map<Id, Routing>, d: Id)
    requires Delivered(deliveries, routed) && d in deliveries
    ensures Follows(deliveries[d], routed)
  {
  }

  /** A delivery was there before, or goes to one of the targets. */
  lemma NewOrOld(db: W.Db, step: W.Step, d: Id)
    requires WI.Inv(db) && step.Routes? && W.Enabled(db, step) && d in W.Next(db, step).deliveries
    ensures var after := W.Next(db, step).deliveries;
            if d in db.deliveries then after[d] == db.deliveries[d]
            else
              && after[d].alert == step.alert && after[d].suppressedBy == W.WindowOf(step)
              && after[d].integration in W.EnabledIds(db.rows)
  {
    hide WI.Inv, W.RouteAll, W.WindowOf, W.Route;
    RoutesWrites(db, step);
    WD.RouteAllAdds(db, step.alert, step.at, W.WindowOf(step), step.targets, step.ids);
    if d !in db.deliveries {
      var k :| 0 <= k < |step.targets| && step.ids[k] == d;
    }
  }

  lemma RoutesWrites(db: W.Db, step: W.Step)
    requires WI.Inv(db) && step.Routes? && W.Enabled(db, step)
    ensures W.Next(db, step).deliveries
         == W.RouteAll(db, step.alert, step.at, W.WindowOf(step), step.targets, step.ids)
  {
    WD.RouteKeepsInv(db, step);
    hide WI.Inv, W.RouteAll, W.WindowOf;
  }

  lemma ReachesEnabled(db: W.Db, step: W.Step, i: Id)
    requires WI.Inv(db) && step.Routes? && W.Enabled(db, step) && i in W.EnabledIds(db.rows)
    ensures Reaches(W.Next(db, step).deliveries, step.alert, i)
  {
    hide W.Next, W.WindowOf, W.Enabled;
    var k := WR.RoutingCoversEnabled(db, step, i);
    hide WI.Inv;
  }

  lemma ReachesStill(db: W.Db, step: W.Step, routed: map<Id, Routing>, a: Id, i: Id)
    requires Delivered(db.deliveries, routed) && a in routed && i in routed[a].enabled
    requires WR.KeepsRoutes(db.deliveries, W.Next(db, step).deliveries)
    ensures Reaches(W.Next(db, step).deliveries, a, i)
  {
    hide W.Next, WR.OneEach;
    var after := W.Next(db, step).deliveries;
    assert Reaches(db.deliveries, a, i);
    var d :| d in db.deliveries && db.deliveries[d].alert == a && db.deliveries[d].integration == i;
    assert after[d].alert == a;
  }

  lemma ProjectKeepsInv(x: System, a: Action)
    requires Inv(x) && a.Projects? && Enabled(x, a)
    ensures Inv(Next(x, a))
  {
    hide PI.Inv, WI.Inv, MR.Inv, Paired, Delivered, P.Enabled, W.Enabled, Next, P.Next, W.Next;
    hide W.WindowOf, W.EnabledIds;
    ProjectIsBoth(x, a);
    PP.NextKeepsInv(x.pipeline, a.s);
    AlertIsAdded(x.pipeline, a.s);
    if Announcing(x.pipeline, a.s) {
      var step := RoutesOf(x, a.s, a.targets, a.ids);
      var r := Routing(Key(x.pipeline.queue.issued[a.s.e]), W.EnabledIds(x.webhooks.rows),
                       W.WindowOf(step));
      WD.NextKeepsInv(x.webhooks, step);
      DeliveredGrows(x.webhooks, step, x.routed, r);
      var p := x.pipeline.queue.issued[a.s.e];
      PairedGrows(x.pipeline.alerts, x.routed,
                  P.Alert(a.s.alert, p.monitor, p.incident, p.version, p.change, p.at, a.s.at, a.s.e),
                  r);
    }
  }

  lemma AlertIsAdded(db: P.Db, s: P.Step)
    requires IsProjection(db, s)
    ensures var p := db.queue.issued[s.e];
            P.Next(db, s).alerts ==
              if Announcing(db, s) then
                db.alerts[Key(p) :=
                  P.Alert(s.alert, p.monitor, p.incident, p.version, p.change, p.at, s.at, s.e)]
              else db.alerts
  {
    hide P.HasFact;
  }

  /** Every action keeps the invariant of all three together. */
  lemma NextKeepsInv(x: System, a: Action)
    requires Inv(x) && Enabled(x, a)
    ensures Inv(Next(x, a))
  {
    hide PI.Inv, WI.Inv, MR.Inv, Paired, P.Enabled, W.Enabled, MR.May, P.Next, W.Next, MR.Happens;
    match a
    case Pipelines(s) =>
      PP.NextKeepsInv(x.pipeline, s);
      AlertsStay(x.pipeline, s);
      hide Delivered;
    case Webhooks(w) =>
      WD.NextKeepsInv(x.webhooks, w);
      WR.NextKeepsOneEach(x.webhooks, w);
      WR.NextKeepsRoutes(x.webhooks, w);
      DeliveredStays(x.webhooks.deliveries, W.Next(x.webhooks, w).deliveries, x.routed);
      hide Delivered;
    case Operates(o) =>
      MR.HappensKeepsInv(x.operators, o);
      hide Delivered;
    case Projects(_, _, _) =>
      ProjectKeepsInv(x, a);
      hide Inv, Next;
  }

  lemma {:induction false} RunKeepsInv(x: System, actions: seq<Action>)
    requires Inv(x) && Legal(x, actions)
    ensures Inv(Run(x, actions))
    decreases |actions|
  {
    hide Inv, Next, Enabled;
    if actions != [] {
      NextKeepsInv(x, actions[0]);
      RunKeepsInv(Next(x, actions[0]), actions[1..]);
    }
  }

  // ---------------------------------------------------------------------------------------------
  // What every run guarantees
  // ---------------------------------------------------------------------------------------------

  /**
   * Once an incident event is marked as processed, its Alert exists and so do its deliveries: exactly
   * one for each Integration that was enabled when it was projected, and none for any other.
   */
  lemma MarkedMeansRouted(actions: seq<Action>, e: Id, integration: Id) returns (d: Id)
    requires Legal(ORIGIN, actions)
    requires var q := Run(ORIGIN, actions).pipeline.queue;
             e in q.processed && e in q.issued && q.issued[e].IncidentTransitioned?
    ensures var x := Run(ORIGIN, actions);
            var key := Key(x.pipeline.queue.issued[e]);
            && key in x.pipeline.alerts
            && var alert := x.pipeline.alerts[key].id;
               && alert in x.routed && x.routed[alert].key == key
               && var deliveries := x.webhooks.deliveries;
                  && (integration in x.routed[alert].enabled ==>
                        && d in deliveries && deliveries[d].integration == integration
                        && deliveries[d].alert == alert)
                  && forall other ::
                       other in deliveries && deliveries[other].alert == alert
                       && deliveries[other].integration == integration ==>
                         && integration in x.routed[alert].enabled && other == d
                         && deliveries[other].suppressedBy == x.routed[alert].window
  {
    hide Legal, Run;
    var x := Run(ORIGIN, actions);
    OriginInv();
    RunKeepsInv(ORIGIN, actions);
    MarkedHasAlert(x.pipeline, e);
    hide PI.Inv, WI.Inv, MR.Inv;
    var alert := x.pipeline.alerts[Key(x.pipeline.queue.issued[e])].id;
    var deliveries := x.webhooks.deliveries;
    d := "";
    if integration in x.routed[alert].enabled {
      assert Reaches(deliveries, alert, integration);
      d :| d in deliveries && deliveries[d].alert == alert && deliveries[d].integration == integration;
    }
  }

  lemma MarkedHasAlert(db: P.Db, e: Id)
    requires PI.Inv(db) && e in db.queue.processed && e in db.queue.issued
    requires db.queue.issued[e].IncidentTransitioned?
    ensures Key(db.queue.issued[e]) in db.alerts
  {
    hide Q.Inv, PI.Known, PI.HealthTable, PI.CandidatesInv, PI.ProjectionTable, PI.Homes;
    hide PI.TransitionEvents, PI.IncidentEvents, PI.RunEvents, PI.Answers, PI.NoRefusal, PI.AlertsInv;
  }

  /** With the outbox drained and no dead letters, every opening and resolution reached its webhooks. */
  lemma DrainedMeansDelivered(actions: seq<Action>, m: Id, k: int, v: int, integration: Id)
    requires Legal(ORIGIN, actions)
    requires var x := Run(ORIGIN, actions);
             && x.pipeline.queue.entries == map[] && x.pipeline.queue.dead == {}
             && PI.IsRow(x.pipeline.incidents, m, k, v)
             && !PI.Row(x.pipeline.incidents, m, k, v).kind.Acknowledged?
    ensures var x := Run(ORIGIN, actions);
            var key := (P.Rows(x.pipeline.incidents, m)[k].id, v);
            && key in x.pipeline.alerts && x.pipeline.alerts[key].id in x.routed
            && (integration in x.routed[x.pipeline.alerts[key].id].enabled ==>
                  Reaches(x.webhooks.deliveries, x.pipeline.alerts[key].id, integration))
  {
    hide Legal, Run;
    var x := Run(ORIGIN, actions);
    OriginInv();
    RunKeepsInv(ORIGIN, actions);
    hide PI.Inv, WI.Inv, MR.Inv, WR.OneEach, Reaches, PI.Row, PI.IsRow;
    PR.RowIsSomewhere(x.pipeline, m, k, v);
  }

  /** The operators' part of a history. */
  function Operations(actions: seq<Action>): seq<MR.Event> {
    if actions == [] then []
    else (if actions[0].Operates? then [actions[0].o] else []) + Operations(actions[1..])
  }

  /** Nothing but operators changes windows, and nothing rewrites what was routed. */
  lemma NextKeepsRecord(x: System, a: Action, alert: Id)
    requires Inv(x) && Enabled(x, a)
    ensures !a.Operates? ==> Next(x, a).operators == x.operators
    ensures alert in x.routed ==>
              alert in Next(x, a).routed && Next(x, a).routed[alert] == x.routed[alert]
  {
    hide PI.Inv, WI.Inv, MR.Inv, Paired, Delivered, P.Enabled, W.Enabled, P.Next, W.Next;
    hide W.WindowOf, W.EnabledIds, Announcing;
    if a.Projects? {
      ProjectIsBoth(x, a);
      hide Next;
    }
  }

  lemma {:induction false} RunKeepsRecord(x: System, actions: seq<Action>, alert: Id)
    requires Inv(x) && Legal(x, actions)
    ensures var y := Run(x, actions);
            && MR.Possible(x.operators, Operations(actions))
            && y.operators == MR.After(x.operators, Operations(actions))
            && (alert in x.routed ==> alert in y.routed && y.routed[alert] == x.routed[alert])
    decreases |actions|
  {
    hide Inv;
    if actions != [] {
      NextKeepsInv(x, actions[0]);
      NextKeepsRecord(x, actions[0], alert);
      RunKeepsRecord(Next(x, actions[0]), actions[1..], alert);
      OperatesOrNot(x, actions);
    }
    hide Next, Enabled;
  }

  lemma OperatesOrNot(x: System, actions: seq<Action>)
    requires actions != [] && Enabled(x, actions[0])
    ensures if actions[0].Operates? then
              && Operations(actions)[1..] == Operations(actions[1..])
              && Operations(actions) != [] && Operations(actions)[0] == actions[0].o
              && MR.May(x.operators, actions[0].o)
              && Next(x, actions[0]).operators == MR.Happens(x.operators, actions[0].o)
            else Operations(actions) == Operations(actions[1..])
  {
    hide MR.May, MR.Happens;
  }

  /**
   * Suppression does not depend on processing delay: if the instant of a fact was settled when its
   * Alert was routed, then at any later time its deliveries are suppressed by exactly the window that
   * the tables then say applied, the one a later routing would have found.
   */
  lemma SuppressionIgnoresDelay(actions: seq<Action>, a: Action, later: seq<Action>, d: Id)
    requires Legal(ORIGIN, actions) && a.Projects? && Enabled(Run(ORIGIN, actions), a)
    requires Announcing(Run(ORIGIN, actions).pipeline, a.s)
    requires Legal(Next(Run(ORIGIN, actions), a), later)
    requires var x := Run(ORIGIN, actions);
             MR.Settled(x.operators, x.pipeline.queue.issued[a.s.e].at)
    requires var y := Run(Next(Run(ORIGIN, actions), a), later);
             d in y.webhooks.deliveries && y.webhooks.deliveries[d].alert == a.s.alert
    ensures var p := Run(ORIGIN, actions).pipeline.queue.issued[a.s.e];
            var y := Run(Next(Run(ORIGIN, actions), a), later);
            y.webhooks.deliveries[d].suppressedBy
            == M.MatchOf(y.operators.db.windows, p.monitor, p.at)
  {
    hide *;
    OriginInv();
    RunKeepsInv(ORIGIN, actions);
    SuppressionIsFinal(Run(ORIGIN, actions), a, later, d);
  }

  lemma SuppressionIsFinal(x: System, a: Action, later: seq<Action>, d: Id)
    requires Inv(x) && a.Projects? && Enabled(x, a)
    requires Announcing(x.pipeline, a.s) && Legal(Next(x, a), later)
    requires MR.Settled(x.operators, x.pipeline.queue.issued[a.s.e].at)
    requires var y := Run(Next(x, a), later);
             d in y.webhooks.deliveries && y.webhooks.deliveries[d].alert == a.s.alert
    ensures var p := x.pipeline.queue.issued[a.s.e];
            var y := Run(Next(x, a), later);
            y.webhooks.deliveries[d].suppressedBy
            == M.MatchOf(y.operators.db.windows, p.monitor, p.at)
  {
    hide Legal, Run, Next, Announcing, M.MatchOf, MR.Settled, P.Enabled, W.Enabled, Inv;
    var p := x.pipeline.queue.issued[a.s.e];
    var mid := Next(x, a);
    ProjectIsBoth(x, a);
    InvParts(x);
    NextKeepsInv(x, a);
    RunKeepsInv(mid, later);
    RunKeepsRecord(mid, later, a.s.alert);
    MR.MatchIsFinal(x.operators, Operations(later), p.monitor, p.at);
    InvParts(Run(mid, later));
    FollowsStill(Run(mid, later).webhooks.deliveries, Run(mid, later).routed, d);
    hide P.Next, W.Next, MR.After, MR.Possible, MR.Inv, Delivered, Operations;
  }

  lemma InvParts(x: System)
    requires Inv(x)
    ensures MR.Inv(x.operators) && Delivered(x.webhooks.deliveries, x.routed)
  {
    hide PI.Inv, WI.Inv, MR.Inv, Paired, Delivered;
  }

  // ---------------------------------------------------------------------------------------------
  // The transaction, statement by statement
  // ---------------------------------------------------------------------------------------------

  /**
   * Projects an Alert: finds the fact, routes to the enabled Integrations under the window that
   * applied, and inserts the Alert with its marker. Within the transaction the order of the writes
   * does not show; routing comes first here because it may refuse, which undoes everything.
   */
  method ProjectIncidentTransition(
    store: PS.Store, hooks: WS.Store, operators: MR.World, listing: seq<Id>, s: P.Step,
    event: Payload, targets: seq<Id>, ids: seq<Id>, ghost routed: map<Id, Routing>)
    returns (answer: Q.Answer)
    requires IsProjection(store.View(), s) && store.queue.issued[s.e] == event
    requires |targets| <= |ids| && M.Lists(operators.db.windows, listing)
    modifies store`alerts, store`queue, hooks`deliveries
    ensures var (after, r) := Project(System(old(store.View()), old(hooks.View()), operators, routed),
                                      s, targets, ids);
            answer == r && store.View() == after.pipeline && hooks.View() == after.webhooks
  {
    hide W.Route, M.MatchOf, M.Lists, P.HasFact;
    if s.e in store.queue.processed { return Q.Handled; }
    var found := store.FindFact(event);
    if !found { return P.INVALID; }
    if Key(event) in store.alerts { return P.FAULT; }
    ghost var before := hooks.View();
    var sent := hooks.Route(s.alert, s.at, event.monitor, event.at, operators.db.windows, listing,
                            targets, ids);
    RefusedRouting(before, s.alert, s.at,
                   M.MatchOf(operators.db.windows, event.monitor, event.at), targets, ids);
    if sent.Err? { return P.FAULT; }
    store.InsertAlert(s.e, event, s.alert, s.at);
    return Q.Handled;
  }

  lemma RefusedRouting(db: W.Db, alert: Id, at: Time, window: Option<Id>, targets: seq<Id>,
                       ids: seq<Id>)
    requires |targets| <= |ids|
    ensures var (after, r) := W.Route(db, alert, at, window, targets, ids);
            r.Err? ==> after == db
  {
  }
}
