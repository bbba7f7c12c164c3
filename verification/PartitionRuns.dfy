/**
 * Maintenance and operators at work on the same partitions, over any history: exactly which
 * partitions that operators attached are at risk, and from when on.
 */
module PartitionRuns {
  import opened Common
  import opened Retention
  import opened Partitions

  datatype Step =
    | Ensures(now: Time, ahead: int)
    | Cleans(days: int, now: Time)
    | Attaches(table: string, name: string)
    | Detaches(table: string, name: string)

  const NOTHING := Catalogue({}, map[], {})

  function Without(names: seq<string>, name: string): seq<string> {
    if names == [] then []
    else
      var rest := Without(names[..|names| - 1], name);
      if names[|names| - 1] == name then rest else rest + [names[|names| - 1]]
  }

  predicate IsPartition(c: Catalogue, table: string, name: string) {
    name in Partitioned(c.partitions, table)
  }

  /** An operator's partition keeps its relation when it is detached, and may come back. */
  function Next(c: Catalogue, s: Step): Catalogue {
    match s
    case Ensures(now, ahead) =>
      if now < 0 || ahead < 0 || ahead > MAX_AHEAD then c else Ensured(c, Plan(now, ahead))
    case Cleans(days, now) =>
      if days < MIN_DAYS || days > MAX_DAYS then c else Cleaned(c, days, now)
    case Attaches(table, name) =>
      c.(relations := c.relations + {name},
         partitions := c.partitions[table := Partitioned(c.partitions, table) + [name]])
    case Detaches(table, name) =>
      c.(partitions := c.partitions[table := Without(Partitioned(c.partitions, table), name)])
  }

  /** A relation is a partition of one table at most. */
  ghost predicate Enabled(c: Catalogue, s: Step) {
    s.Attaches? ==> s.table in TABLES && forall t :: !IsPartition(c, t, s.name)
  }

  ghost predicate Legal(c: Catalogue, steps: seq<Step>)
    decreases |steps|
  {
    steps == [] || (Enabled(c, steps[0]) && Legal(Next(c, steps[0]), steps[1..]))
  }

  function Run(c: Catalogue, steps: seq<Step>): Catalogue
    decreases |steps|
  {
    if steps == [] then c else Run(Next(c, steps[0]), steps[1..])
  }

  // ---------------------------------------------------------------------------------------------
  // The invariant
  // ---------------------------------------------------------------------------------------------

  /** Maintenance's own relations exist, and so do all partitions, each under one table. */
  ghost predicate Inv(c: Catalogue) {
    && c.created <= c.relations
    && (forall t, n :: IsPartition(c, t, n) ==> n in c.relations)
    && (forall t, u, n :: IsPartition(c, t, n) && IsPartition(c, u, n) ==> t == u)
  }

  /** One more partition of one table. */
  lemma OneMorePartition(c: Catalogue, after: Catalogue, table: string, name: string, t: string,
                         n: string)
    requires after.partitions == c.partitions[table := Partitioned(c.partitions, table) + [name]]
    ensures IsPartition(after, t, n) <==> IsPartition(c, t, n) || (t == table && n == name)
  {
  }

  lemma WithPartitionAdds(c: Catalogue, table: string, name: string)
    requires Inv(c)
    ensures Adds(c, WithPartition(c, table, name))
  {
    var after := WithPartition(c, table, name);
    if name !in c.relations {
      forall t, n ensures IsPartition(after, t, n) <==>
                            IsPartition(c, t, n) || (t == table && n == name)
      {
        OneMorePartition(c, after, table, name, t, n);
      }
    }
    hide IsPartition, Partitioned;
  }

  /** Creating adds partitions of its own and touches no other. */
  ghost predicate Adds(c: Catalogue, after: Catalogue) {
    && Inv(after) && c.relations <= after.relations
    && after.created * c.relations == c.created
    && (forall t, n :: IsPartition(c, t, n) ==> IsPartition(after, t, n))
  }

  lemma {:induction false} WithMonthsAdds(c: Catalogue, table: string, months: seq<Month>)
    requires Inv(c)
    ensures Adds(c, WithMonths(c, table, months))
    decreases |months|
  {
    if months == [] { return; }
    var n := |months| - 1;
    WithMonthsAdds(c, table, months[..n]);
    WithPartitionAdds(WithMonths(c, table, months[..n]), table, PartitionName(table, months[n]));
    hide PartitionName, WithPartition, IsPartition;
  }

  lemma EnsuredAdds(c: Catalogue, months: seq<Month>)
    requires Inv(c)
    ensures Adds(c, Ensured(c, months))
  {
    WithMonthsAdds(c, TABLES[0], months);
    WithMonthsAdds(WithMonths(c, TABLES[0], months), TABLES[1], months);
    hide WithMonths, IsPartition;
  }

  /** What one table's clean-up leaves. */
  lemma WithoutExpiredLeaves(c: Catalogue, table: string, days: int, now: Time, t: string, n: string)
    requires Inv(c)
    ensures var after := WithoutExpired(c, table, days, now);
            && (IsPartition(after, t, n) <==>
                  IsPartition(c, t, n) && !(t == table && Droppable(table, n, days, now)))
            && (n in after.relations <==>
                  n in c.relations && !(IsPartition(c, table, n) && Droppable(table, n, days, now)))
            && (n in after.created <==>
                  n in c.created && !(IsPartition(c, table, n) && Droppable(table, n, days, now)))
  {
    KeptAreTheRest(Partitioned(c.partitions, table), table, days, now, n);
    hide Droppable, Kept;
  }

  lemma WithoutExpiredKeepsInv(c: Catalogue, table: string, days: int, now: Time)
    requires Inv(c)
    ensures Inv(WithoutExpired(c, table, days, now))
  {
    var after := WithoutExpired(c, table, days, now);
    forall t, n
      ensures IsPartition(after, t, n) ==> IsPartition(c, t, n) && n in after.relations
      ensures n in after.created ==> n in c.created && n in after.relations
    {
      WithoutExpiredLeaves(c, table, days, now, t, n);
    }
    hide WithoutExpired, Droppable, IsPartition;
  }

  /** Clean-up drops exactly the partitions that are read as an expired month of their table. */
  lemma CleanedLeaves(c: Catalogue, days: int, now: Time, n: string)
    requires Inv(c)
    ensures Inv(Cleaned(c, days, now))
    ensures n in Cleaned(c, days, now).relations <==>
              n in c.relations
              && forall t :: t in TABLES && IsPartition(c, t, n) ==> !Droppable(t, n, days, now)
    ensures n in Cleaned(c, days, now).created <==>
              n in c.created && n in Cleaned(c, days, now).relations
    ensures forall t :: IsPartition(Cleaned(c, days, now), t, n) ==> IsPartition(c, t, n)
    ensures forall t :: IsPartition(c, t, n) && n in Cleaned(c, days, now).relations ==>
              IsPartition(Cleaned(c, days, now), t, n)
  {
    var mid := WithoutExpired(c, TABLES[1], days, now);
    WithoutExpiredKeepsInv(c, TABLES[1], days, now);
    WithoutExpiredKeepsInv(mid, TABLES[0], days, now);
    var after := WithoutExpired(mid, TABLES[0], days, now);
    forall t
      ensures IsPartition(after, t, n) <==>
                IsPartition(c, t, n) && !(t in TABLES && Droppable(t, n, days, now))
    {
      WithoutExpiredLeaves(c, TABLES[1], days, now, t, n);
      WithoutExpiredLeaves(mid, TABLES[0], days, now, t, n);
    }
    WithoutExpiredLeaves(c, TABLES[1], days, now, TABLES[0], n);
    WithoutExpiredLeaves(mid, TABLES[0], days, now, TABLES[0], n);
    hide WithoutExpired, Droppable, IsPartition;
  }

  lemma {:induction false} WithoutIsTheRest(names: seq<string>, name: string, n: string)
    ensures n in Without(names, name) <==> n in names && n != name
    decreases |names|
  {
    if names != [] {
      WithoutIsTheRest(names[..|names| - 1], name, n);
      assert names == names[..|names| - 1] + [names[|names| - 1]];
    }
  }

  lemma NextKeepsInv(c: Catalogue, s: Step)
    requires Inv(c) && Enabled(c, s)
    ensures Inv(Next(c, s))
  {
    match s
    case Ensures(now, ahead) =>
      if now >= 0 && ahead >= 0 { EnsuredAdds(c, Plan(now, ahead)); }
      hide Ensured, Plan;
    case Cleans(days, now) =>
      CleanedLeaves(c, days, now, "");
      hide Cleaned;
    case Attaches(table, name) =>
      forall t, n ensures IsPartition(Next(c, s), t, n) <==>
                            IsPartition(c, t, n) || (t == table && n == name)
      {
        OneMorePartition(c, Next(c, s), table, name, t, n);
      }
      hide IsPartition, Partitioned;
    case Detaches(table, name) =>
      forall t, n ensures IsPartition(Next(c, s), t, n) ==> IsPartition(c, t, n) {
        WithoutIsTheRest(Partitioned(c.partitions, table), name, n);
      }
      hide IsPartition, Partitioned, Without;
  }

  lemma {:induction false} RunKeepsInv(c: Catalogue, steps: seq<Step>)
    requires Inv(c) && Legal(c, steps)
    ensures Inv(Run(c, steps))
    decreases |steps|
  {
    hide Inv, Next, Enabled;
    if steps != [] {
      NextKeepsInv(c, steps[0]);
      RunKeepsInv(Next(c, steps[0]), steps[1..]);
    }
  }

  lemma Reached(steps: seq<Step>)
    requires Legal(NOTHING, steps)
    ensures Inv(Run(NOTHING, steps))
  {
    assert Inv(NOTHING);
    hide Inv;
    RunKeepsInv(NOTHING, steps);
  }

  /**
   * In every run, exactly which recognised partitions a clean-up drops: those with nothing in their
   * month that is younger than the window.
   */
  lemma CleanupDropsExactly(steps: seq<Step>, table: string, name: string, days: int, now: Time)
    requires Legal(NOTHING, steps) && MIN_DAYS <= days <= MAX_DAYS && table in TABLES
    requires IsPartition(Run(NOTHING, steps), table, name) && PartitionMonth(table, name).Some?
    ensures var m := PartitionMonth(table, name).value;
            && Ordinal(m) >= 0
            && (name !in Next(Run(NOTHING, steps), Cleans(days, now)).relations <==>
                  forall t :: InMonth(m, t) ==> t < now - days * (24 * HOUR))
  {
    hide Legal, Run;
    var c := Run(NOTHING, steps);
    Reached(steps);
    MonthIsValid(table, name);
    CleanedLeaves(c, days, now, name);
    hide Cleaned, PartitionMonth, Ordinal, InMonth, Retention.Expired;
    ExpiredMeansAllBefore(PartitionMonth(table, name).value, days, now);
    assert name in c.relations;
  }

  // ---------------------------------------------------------------------------------------------
  // "Maintenance drops only what it created"
  // ---------------------------------------------------------------------------------------------

  /** An operator attached it: no maintenance created the relation. */
  ghost predicate Foreign(c: Catalogue, table: string, name: string) {
    table in TABLES && IsPartition(c, table, name) && name !in c.created
  }

  /**
   * In every run, exactly when a clean-up drops only what maintenance created: no partition that an
   * operator attached has a name that is read as a month of its table that has expired.
   */
  lemma CleanupSparesForeign(steps: seq<Step>, days: int, now: Time)
    requires Legal(NOTHING, steps) && MIN_DAYS <= days <= MAX_DAYS
    ensures var c := Run(NOTHING, steps);
            var after := Next(c, Cleans(days, now));
            (forall n :: n in c.relations && n !in after.relations ==> n in c.created) <==>
            forall table, name :: Foreign(c, table, name) ==>
              var m := PartitionMonth(table, name);
              m.Some? ==> Ordinal(m.value) >= 0 && !Retention.Expired(m.value, days, now)
  {
    hide Legal, Run;
    var c := Run(NOTHING, steps);
    Reached(steps);
    forall n { CleanedLeaves(c, days, now, n); }
    forall table, name { MonthIsValid(table, name); }
    hide Cleaned, PartitionMonth, Retention.Expired, Ordinal, Inv;
  }

  lemma MonthIsValid(table: string, name: string)
    ensures PartitionMonth(table, name).Some? ==> Ordinal(PartitionMonth(table, name).value) >= 0
  {
    var suffix := CutPrefix(name, table + "_");
    if suffix.Some? { ParsedIsValid(suffix.value); }
    hide ParseMonthSuffix;
  }

  ghost predicate OnlyMaintenance(steps: seq<Step>) {
    forall k :: 0 <= k < |steps| ==> steps[k].Ensures? || steps[k].Cleans?
  }

  /**
   * Exactly when an attached partition is safe from all maintenance to come: its name is not read as
   * a month of its table at all. Otherwise some clean-up drops it, whoever created it.
   */
  lemma AttachedIsSafe(steps: seq<Step>, table: string, name: string)
    requires Legal(NOTHING, steps) && table in TABLES
    requires IsPartition(Run(NOTHING, steps), table, name)
    ensures var c := Run(NOTHING, steps);
            (forall later :: OnlyMaintenance(later) ==> name in Run(c, later).relations) <==>
            PartitionMonth(table, name).None?
  {
    hide Legal, Run;
    var c := Run(NOTHING, steps);
    Reached(steps);
    if PartitionMonth(table, name).None? {
      forall later | OnlyMaintenance(later) ensures name in Run(c, later).relations {
        UnrecognisedIsKept(c, later, table, name);
      }
    } else {
      RecognisedIsDropped(c, table, name);
    }
    hide Inv, PartitionMonth;
  }

  lemma UnrecognisedStep(c: Catalogue, s: Step, table: string, name: string)
    requires Inv(c) && table in TABLES && IsPartition(c, table, name)
    requires PartitionMonth(table, name).None? && (s.Ensures? || s.Cleans?)
    ensures Inv(Next(c, s)) && IsPartition(Next(c, s), table, name)
  {
    NextKeepsInv(c, s);
    match s
    case Ensures(now, ahead) =>
      if now >= 0 && ahead >= 0 { EnsuredAdds(c, Plan(now, ahead)); }
      hide Ensured, Plan, PartitionMonth;
    case Cleans(days, now) =>
      CleanedLeaves(c, days, now, name);
      hide Cleaned, PartitionMonth;
  }

  lemma {:induction false} UnrecognisedIsKept(c: Catalogue, later: seq<Step>, table: string,
                                              name: string)
    requires Inv(c) && table in TABLES && IsPartition(c, table, name)
    requires PartitionMonth(table, name).None? && OnlyMaintenance(later)
    ensures name in Run(c, later).relations
    decreases |later|
  {
    hide Next, PartitionMonth;
    if later != [] {
      UnrecognisedStep(c, later[0], table, name);
      UnrecognisedIsKept(Next(c, later[0]), later[1..], table, name);
    }
  }

  lemma RecognisedIsDropped(c: Catalogue, table: string, name: string)
    requires Inv(c) && table in TABLES && IsPartition(c, table, name)
    requires PartitionMonth(table, name).Some?
    ensures exists later :: OnlyMaintenance(later) && name !in Run(c, later).relations
  {
    MonthIsValid(table, name);
    var m := PartitionMonth(table, name).value;
    var now := End(m) + DAY;
    var later := [Cleans(1, now)];
    CleanedLeaves(c, 1, now, name);
    hide Cleaned, PartitionMonth, Ordinal, StartOf, Inv;
    assert Run(c, later) == Next(c, later[0]) by { assert later[1..] == []; }
    assert OnlyMaintenance(later);
  }

  // ---------------------------------------------------------------------------------------------
  // Two names at risk
  // ---------------------------------------------------------------------------------------------

  const SIGNED := "runs_+123_01"
  const UNSIGNED := "runs_0123_01"

  lemma SignedName()
    ensures PartitionMonth(RUNS, SIGNED) == Some(Month(123, 1))
    ensures forall m :: Valid(m) ==> PartitionName(RUNS, m) != SIGNED
  {
    var prefix := RUNS + "_";
    assert prefix == "runs_" && SIGNED[..5] == prefix && SIGNED[5..] == "+123_01";
    SignedSuffixIsRecognised();
    hide ParseMonthSuffix, Suffix;
    forall m | Valid(m) ensures PartitionName(RUNS, m) != SIGNED {
      SuffixReadsBack(m);
      assert PartitionName(RUNS, m) == prefix + Suffix(m);
      assert (prefix + Suffix(m))[5..] == Suffix(m);
    }
  }

  lemma UnsignedName()
    ensures PartitionMonth(RUNS, UNSIGNED) == Some(Month(123, 1))
    ensures PartitionName(RUNS, Month(123, 1)) == UNSIGNED
  {
    var prefix := RUNS + "_";
    assert prefix == "runs_" && UNSIGNED[..5] == prefix && UNSIGNED[5..] == "0123_01";
    UnsignedSuffixIsRecognised();
    hide ParseMonthSuffix, Suffix;
    assert PartitionName(RUNS, Month(123, 1)) == prefix + Suffix(Month(123, 1));
    assert prefix + "0123_01" == UNSIGNED;
  }

  /**
   * An operator attaches a partition for old rows, under a name that maintenance never writes or
   * under one that it would write for that month. The next clean-up drops it, although maintenance
   * did not create it.
   */
  lemma AttachedPartitionIsDropped(name: string, m: Month, days: int, now: Time)
    requires name == SIGNED || name == UNSIGNED
    requires m == Month(123, 1) && Ordinal(m) >= 0 && Retention.Expired(m, days, now)
    requires MIN_DAYS <= days <= MAX_DAYS
    ensures var steps := [Attaches(RUNS, name)];
            && Legal(NOTHING, steps) && Foreign(Run(NOTHING, steps), RUNS, name)
            && name in Run(NOTHING, steps).relations
            && name !in Next(Run(NOTHING, steps), Cleans(days, now)).relations
  {
    SignedName();
    UnsignedName();
    hide *;
    RecognisedIsDroppedNext(name, m, days, now);
  }

  lemma RecognisedIsDroppedNext(name: string, m: Month, days: int, now: Time)
    requires PartitionMonth(RUNS, name) == Some(m)
    requires Ordinal(m) >= 0 && Retention.Expired(m, days, now) && MIN_DAYS <= days <= MAX_DAYS
    ensures var steps := [Attaches(RUNS, name)];
            && Legal(NOTHING, steps) && Foreign(Run(NOTHING, steps), RUNS, name)
            && name in Run(NOTHING, steps).relations
            && name !in Next(Run(NOTHING, steps), Cleans(days, now)).relations
  {
    hide Retention.Expired, Ordinal, PartitionMonth, Cleaned, Legal, Run, Foreign, Inv, IsPartition;
    var steps := [Attaches(RUNS, name)];
    AttachedAlone(name);
    Reached(steps);
    CleanedLeaves(Run(NOTHING, steps), days, now, name);
    assert Droppable(RUNS, name, days, now);
  }

  lemma AttachedAlone(name: string)
    ensures var steps := [Attaches(RUNS, name)];
            && Legal(NOTHING, steps) && Foreign(Run(NOTHING, steps), RUNS, name)
            && IsPartition(Run(NOTHING, steps), RUNS, name) && name in Run(NOTHING, steps).relations
  {
    var steps := [Attaches(RUNS, name)];
    var c := Next(NOTHING, steps[0]);
    assert steps[1..] == [] && Run(c, []) == c && Legal(c, []);
  }
}
