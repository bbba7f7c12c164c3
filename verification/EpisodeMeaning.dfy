/**
 * What the reference fold means: its outages are disjoint and in order, they cover every
 * transition to down that was projected while the Monitor was not archived, and they cover no
 * transition to healthy.
 */
module EpisodeMeaning {
  import opened Common
  import opened Pipeline
  import R = HealthRuns

  /** Outages are opened by a transition to down, resolved by one to healthy, and never overlap. */
  ghost predicate InOrder(eps: seq<Episode>, log: seq<R.Transition>, archived: seq<bool>)
    requires |log| == |archived|
  {
    && (forall k :: 0 <= k < |eps| ==>
          && 1 <= eps[k].openedBy <= |log| && log[eps[k].openedBy - 1].after.Down?
          && !archived[eps[k].openedBy - 1])
    && (forall k :: 0 <= k < |eps| && eps[k].resolvedBy.Some? ==>
          && eps[k].openedBy < eps[k].resolvedBy.value <= |log|
          && log[eps[k].resolvedBy.value - 1].after.Healthy?)
    && (forall j, k :: 0 <= j < k < |eps| ==>
          eps[j].resolvedBy.Some? && eps[j].resolvedBy.value < eps[k].openedBy)
  }

  predicate Spans(ep: Episode, v: int) {
    ep.openedBy <= v && (ep.resolvedBy.Some? ==> v < ep.resolvedBy.value)
  }

  /** Version `v` lies inside one of the outages. */
  ghost predicate Covered(eps: seq<Episode>, v: int) {
    exists k :: 0 <= k < |eps| && Spans(eps[k], v)
  }

  ghost predicate Numbered(log: seq<R.Transition>) {
    forall k :: 0 <= k < |log| ==> log[k].version == k + 1
  }

  lemma StepInOrder(eps: seq<Episode>, log: seq<R.Transition>, archived: seq<bool>)
    requires log != [] && |archived| == |log| && Numbered(log)
    requires InOrder(eps, log[..|log| - 1], archived[..|log| - 1])
    ensures InOrder(FoldStep(eps, log[|log| - 1], archived[|log| - 1]), log, archived)
  {
  }

  lemma {:induction false} FoldInOrder(log: seq<R.Transition>, archived: seq<bool>)
    requires |log| == |archived| && Numbered(log)
    ensures InOrder(Fold(log, archived), log, archived)
    decreases |log|
  {
    if log != [] {
      var n := |log| - 1;
      FoldInOrder(log[..n], archived[..n]);
      StepInOrder(Fold(log[..n], archived[..n]), log, archived);
    }
  }

  /** A later transition never changes which earlier versions are covered. */
  lemma StepKeepsCover(eps: seq<Episode>, t: R.Transition, archived: bool, v: int)
    requires v < t.version
    ensures Covered(FoldStep(eps, t, archived), v) <==> Covered(eps, v)
  {
    var after := FoldStep(eps, t, archived);
    assert forall k :: 0 <= k < |eps| ==> (Spans(after[k], v) <==> Spans(eps[k], v));
    assert forall k :: |eps| <= k < |after| ==> !Spans(after[k], v);
  }

  /** The transition itself: down is covered unless archived, healthy is not. */
  lemma StepCovers(eps: seq<Episode>, log: seq<R.Transition>, flags: seq<bool>, archived: bool)
    requires log != [] && |flags| == |log| - 1 && Numbered(log)
    requires InOrder(eps, log[..|log| - 1], flags)
    ensures var t := log[|log| - 1];
            var after := FoldStep(eps, t, archived);
            && (t.after.Down? && !archived ==> Covered(after, t.version))
            && (t.after.Healthy? ==> !Covered(after, t.version))
  {
    var t := log[|log| - 1];
    var after := FoldStep(eps, t, archived);
    if t.after.Down? && !archived { assert Spans(after[|after| - 1], t.version); }
  }

  /** Every unarchived transition to down is inside an outage; no transition to healthy is. */
  lemma {:induction false} FoldCovers(log: seq<R.Transition>, archived: seq<bool>, v: int)
    requires |log| == |archived| && Numbered(log) && 1 <= v <= |log|
    ensures log[v - 1].after.Down? && !archived[v - 1] ==> Covered(Fold(log, archived), v)
    ensures log[v - 1].after.Healthy? ==> !Covered(Fold(log, archived), v)
    decreases |log|
  {
    hide Covered, InOrder, FoldStep;
    var n := |log| - 1;
    FoldInOrder(log[..n], archived[..n]);
    if v == n + 1 {
      StepCovers(Fold(log[..n], archived[..n]), log, archived[..n], archived[n]);
    } else {
      FoldCovers(log[..n], archived[..n], v);
      StepKeepsCover(Fold(log[..n], archived[..n]), log[n], archived[n], v);
    }
  }
}
