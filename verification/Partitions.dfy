/** Partition maintenance: creating the planned months and dropping the expired ones. */
module Partitions {
  import opened Common
  import opened Retention

  const RUNS := "runs"
  const OBSERVATIONS := "observations"

  /** Observations refer to Runs, so months are created in this order and dropped in reverse. */
  const TABLES := [RUNS, OBSERVATIONS]

  function PartitionName(table: string, m: Month): string { table + "_" + Suffix(m) }

  function CutPrefix(name: string, prefix: string): Option<string> {
    if |prefix| <= |name| && name[..|prefix|] == prefix then Some(name[|prefix|..]) else None
  }

  function PartitionMonth(table: string, name: string): Option<Month> {
    var suffix := CutPrefix(name, table + "_");
    if suffix.None? then None else ParseMonthSuffix(suffix.value)
  }

  /** The month of a partition that maintenance created is read back from its name. */
  lemma NameReadsBack(table: string, m: Month)
    requires Valid(m)
    ensures PartitionMonth(table, PartitionName(table, m)) == Some(m) <==> 1 <= m.year <= 9999
  {
    var prefix := table + "_";
    assert PartitionName(table, m) == prefix + Suffix(m);
    assert PartitionName(table, m)[..|prefix|] == prefix;
    assert PartitionName(table, m)[|prefix|..] == Suffix(m);
    SuffixReadsBack(m);
  }

  /** A parsed month always has an ordinal. */
  lemma ParsedIsValid(s: string)
    ensures ParseMonthSuffix(s).Some? ==>
              var m := ParseMonthSuffix(s).value;
              Valid(m) && m.year >= 1 && Ordinal(m) >= 0
  {
  }

  /** Whether maintenance takes this partition for one of its own that has expired. */
  predicate Droppable(table: string, name: string, days: int, now: Time) {
    var m := PartitionMonth(table, name);
    m.Some? && Ordinal(m.value) >= 0 && Expired(m.value, days, now)
  }

  function Partitioned(partitions: map<string, seq<string>>, table: string): seq<string> {
    if table in partitions then partitions[table] else []
  }

  /** The partitions that expiry leaves. */
  function Kept(names: seq<string>, table: string, days: int, now: Time): seq<string> {
    if names == [] then []
    else
      var rest := Kept(names[..|names| - 1], table, days, now);
      var last := names[|names| - 1];
      if Droppable(table, last, days, now) then rest else rest + [last]
  }

  // ---------------------------------------------------------------------------------------------
  // The catalogue, and what maintenance makes of it
  // ---------------------------------------------------------------------------------------------

  /**
   * Every relation of the schema, and the partitions of each table. `created` is history: the
   * relations that maintenance created and that still exist.
   */
  datatype Catalogue = Catalogue(
    relations: set<string>, partitions: map<string, seq<string>>, created: set<string>)

  /** Creates one month's partition of a table, unless a relation of that name is present. */
  function WithPartition(c: Catalogue, table: string, name: string): Catalogue {
    if name in c.relations then c
    else
      Catalogue(c.relations + {name},
                c.partitions[table := Partitioned(c.partitions, table) + [name]],
                c.created + {name})
  }

  function WithMonths(c: Catalogue, table: string, months: seq<Month>): Catalogue {
    if months == [] then c
    else
      var n := |months| - 1;
      WithPartition(WithMonths(c, table, months[..n]), table, PartitionName(table, months[n]))
  }

  function Ensured(c: Catalogue, months: seq<Month>): Catalogue {
    WithMonths(WithMonths(c, TABLES[0], months), TABLES[1], months)
  }

  function Gone(c: Catalogue, table: string, days: int, now: Time): set<string> {
    set n | n in Partitioned(c.partitions, table) && Droppable(table, n, days, now)
  }

  function WithoutExpired(c: Catalogue, table: string, days: int, now: Time): Catalogue {
    var gone := Gone(c, table, days, now);
    Catalogue(c.relations - gone,
              c.partitions[table := Kept(Partitioned(c.partitions, table), table, days, now)],
              c.created - gone)
  }

  /** The referring table's partitions go first. */
  function Cleaned(c: Catalogue, days: int, now: Time): Catalogue {
    WithoutExpired(WithoutExpired(c, TABLES[1], days, now), TABLES[0], days, now)
  }

  /** A table from the `first`-th on has a partition of this name that expiry drops. */
  ghost predicate Expires(partitions: map<string, seq<string>>, name: string, days: int, now: Time,
                          first: nat)
  {
    exists k :: first <= k < |TABLES| && name in Partitioned(partitions, TABLES[k])
                && Droppable(TABLES[k], name, days, now)
  }

  lemma NothingExpires(partitions: map<string, seq<string>>, days: int, now: Time)
    ensures forall n :: !Expires(partitions, n, days, now, |TABLES|)
  {
  }

  lemma ExpiresFrom(partitions: map<string, seq<string>>, days: int, now: Time, first: nat)
    requires first < |TABLES|
    ensures forall n :: Expires(partitions, n, days, now, first) <==>
              Expires(partitions, n, days, now, first + 1)
              || (n in Partitioned(partitions, TABLES[first])
                  && Droppable(TABLES[first], n, days, now))
  {
    hide Droppable;
  }

  lemma {:induction false} KeptAreTheRest(names: seq<string>, table: string, days: int, now: Time,
                                          name: string)
    ensures name in Kept(names, table, days, now) <==>
              name in names && !Droppable(table, name, days, now)
    decreases |names|
  {
    if names != [] {
      KeptAreTheRest(names[..|names| - 1], table, days, now, name);
      assert names == names[..|names| - 1] + [names[|names| - 1]];
      hide Droppable;
    }
  }

  /** A partition of a month that is planned now or later is never dropped. */
  lemma PlannedPartitionIsKept(table: string, names: seq<string>, m: Month, days: int, now: Time,
                               later: Time, ahead: nat)
    requires 0 <= now <= later && days >= MIN_DAYS && Planned(m, later, ahead) && m.year <= 9999
    requires PartitionName(table, m) in names
    ensures PartitionName(table, m) in Kept(names, table, days, now)
  {
    NameReadsBack(table, m);
    PlannedNeverExpires(m, days, now, later, ahead);
    KeptAreTheRest(names, table, days, now, PartitionName(table, m));
    hide Expired, Ordinal, PartitionMonth, PartitionName;
  }

  /** A partition is dropped only if nothing in its month is within the retention window. */
  lemma DroppedMonthIsPast(table: string, names: seq<string>, m: Month, days: int, now: Time, t: Time)
    requires Valid(m) && 1 <= m.year <= 9999 && PartitionName(table, m) in names
    requires PartitionName(table, m) !in Kept(names, table, days, now)
    ensures Ordinal(m) >= 0 && (InMonth(m, t) ==> t < now - days * (24 * HOUR))
  {
    NameReadsBack(table, m);
    KeptAreTheRest(names, table, days, now, PartitionName(table, m));
    hide Ordinal, PartitionMonth, PartitionName;
    ExpiredMeansAllBefore(m, days, now);
  }

  /** The name of a partition of one of these months. */
  ghost predicate Named(table: string, name: string, months: seq<Month>) {
    exists m :: m in months && name == PartitionName(table, m)
  }

  /** What is new in a table's list was created for one of these months. */
  ghost predicate Extended(was: seq<string>, list: seq<string>, table: string,
                           created: seq<string>, months: seq<Month>)
  {
    && was <= list
    && forall n :: n in list[|was|..] ==> n in created && Named(table, n, months)
  }

  lemma StaysExtended(was: seq<string>, list: seq<string>, longer: seq<string>, table: string,
                      created: seq<string>, more: seq<string>, months: seq<Month>)
    requires longer == list || (list == was && longer == list + more)
    requires list == was || Extended(was, list, table, created, months)
    requires longer == list || forall n :: n in more ==> Named(table, n, months)
    ensures Extended(was, longer, table, created + more, months)
  {
  }

  /** What is new in a table's list was created for a month that is planned. */
  ghost predicate Grown(was: seq<string>, list: seq<string>, table: string, created: seq<string>,
                        now: Time, ahead: nat)
    requires now >= 0
  {
    && was <= list
    && forall n :: n in list[|was|..] ==> n in created && Wanted(table, n, now, ahead)
  }

  lemma ExtendedAsPlanned(was: seq<string>, list: seq<string>, table: string, created: seq<string>,
                          months: seq<Month>, now: Time, ahead: nat)
    requires now >= 0 && Extended(was, list, table, created, months)
    requires forall m :: m in months ==> Planned(m, now, ahead)
    ensures Grown(was, list, table, created, now, ahead)
  {
    hide Planned, PartitionName;
    forall n | n in list[|was|..] ensures n in created && Wanted(table, n, now, ahead) {
      var m :| m in months && n == PartitionName(table, m);
    }
  }

  /** The name of a partition that the plan of this instant asks for. */
  ghost predicate Wanted(table: string, name: string, now: Time, ahead: nat)
    requires now >= 0
  {
    exists m :: Planned(m, now, ahead) && name == PartitionName(table, m)
  }

  class PartitionStore {
    var relations: set<string>
    var partitions: map<string, seq<string>>
    ghost var created: set<string>

    ghost function View(): Catalogue
      reads this
    {
      Catalogue(relations, partitions, created)
    }

    ghost predicate Valid()
      reads this
    {
      forall t, n :: t in partitions && n in partitions[t] ==> n in relations
    }

    constructor ()
      ensures Valid() && View() == Catalogue({}, map[], {})
    {
      relations, partitions, created := {}, map[], {};
    }

    /** Creates one month's partition of a table, unless a relation of that name is present. */
    method EnsureOne(table: string, name: string) returns (made: bool)
      requires Valid()
      modifies this
      ensures Valid() && made == (name !in old(relations))
      ensures View() == WithPartition(old(View()), table, name)
    {
      if name in relations { return false; }
      relations, created := relations + {name}, created + {name};
      partitions := partitions[table := Partitioned(partitions, table) + [name]];
      return true;
    }

    /** Creates what is planned and missing, and reports exactly that. */
    method EnsurePartitions(now: Time, ahead: int) returns (r: Result<seq<string>, ()>)
      requires Valid() && now >= 0
      modifies this
      ensures Valid()
      ensures r.Err? <==> ahead < 0 || ahead > MAX_AHEAD
      ensures r.Err? ==> View() == old(View())
      ensures r.Ok? ==> View() == Ensured(old(View()), Plan(now, ahead))
      ensures r.Ok? ==> forall m, t :: t in TABLES && Planned(m, now, ahead) ==>
                          PartitionName(t, m) in relations
      ensures r.Ok? ==> forall n :: n in relations <==> n in old(relations) || n in r.value
      ensures r.Ok? ==> forall n :: n in r.value ==> n !in old(relations)
      ensures r.Ok? ==> forall t :: t in TABLES ==>
                Grown(Partitioned(old(partitions), t), Partitioned(partitions, t), t, r.value, now,
                      ahead)
    {
      hide Ordinal, MonthOf, PartitionName, Extended, Planned, Grown, Partitioned, WithMonths;
      var plan := PartitionPlan(now, ahead);
      if plan.Err? { return Err(()); }
      var made: seq<string> := [];
      var i := 0;
      while i < |TABLES|
        invariant 0 <= i <= |TABLES| && Valid()
        invariant i == 0 ==> View() == old(View())
        invariant i == 1 ==> View() == WithMonths(old(View()), TABLES[0], plan.value)
        invariant i == 2 ==> View() == Ensured(old(View()), plan.value)
        invariant forall j :: 0 <= j < i ==> AllPresent(TABLES[j], plan.value)
        invariant forall n :: n in relations <==> n in old(relations) || n in made
        invariant forall n :: n in made ==> n !in old(relations)
        invariant forall j :: i <= j < |TABLES| ==>
                    Partitioned(partitions, TABLES[j]) == Partitioned(old(partitions), TABLES[j])
        invariant forall j :: 0 <= j < i ==>
                    Extended(Partitioned(old(partitions), TABLES[j]),
                             Partitioned(partitions, TABLES[j]), TABLES[j], made, plan.value)
      {
        ghost var before := partitions;
        var more := EnsureTable(TABLES[i], plan.value);
        forall j | 0 <= j <= i
          ensures Extended(Partitioned(old(partitions), TABLES[j]),
                           Partitioned(partitions, TABLES[j]), TABLES[j], made + more, plan.value)
        {
          StaysExtended(Partitioned(old(partitions), TABLES[j]), Partitioned(before, TABLES[j]),
                        Partitioned(partitions, TABLES[j]), TABLES[j], made, more, plan.value);
        }
        made := made + more;
        i := i + 1;
      }
      PlanIsPlan(plan.value, now, ahead);
      ListedIsPlanned(plan.value, now, ahead);
      PlannedIsListed(plan.value, now, ahead);
      assert AllPresent(TABLES[0], plan.value) && AllPresent(TABLES[1], plan.value);
      forall t | t in TABLES
        ensures Grown(Partitioned(old(partitions), t), Partitioned(partitions, t), t, made, now,
                      ahead)
      {
        var k :| 0 <= k < |TABLES| && TABLES[k] == t;
        ExtendedAsPlanned(Partitioned(old(partitions), t), Partitioned(partitions, t), t, made,
                          plan.value, now, ahead);
      }
      return Ok(made);
    }

    ghost predicate AllPresent(table: string, months: seq<Month>)
      reads this
    {
      forall m :: m in months ==> PartitionName(table, m) in relations
    }

    method EnsureTable(table: string, months: seq<Month>) returns (made: seq<string>)
      requires Valid()
      modifies this
      ensures Valid() && AllPresent(table, months)
      ensures View() == WithMonths(old(View()), table, months)
      ensures forall n :: n in relations <==> n in old(relations) || n in made
      ensures forall n :: n in made ==> n !in old(relations) && Named(table, n, months)
      ensures Partitioned(partitions, table) == Partitioned(old(partitions), table) + made
      ensures forall t :: t != table ==> Partitioned(partitions, t) == Partitioned(old(partitions), t)
    {
      hide PartitionName;
      made := [];
      var index := 0;
      while index < |months|
        invariant 0 <= index <= |months| && Valid()
        invariant View() == WithMonths(old(View()), table, months[..index])
        invariant forall k :: 0 <= k < index ==> PartitionName(table, months[k]) in relations
        invariant forall n :: n in relations <==> n in old(relations) || n in made
        invariant forall n :: n in made ==> n !in old(relations) && Named(table, n, months)
        invariant Partitioned(partitions, table) == Partitioned(old(partitions), table) + made
        invariant forall t :: t != table ==>
                    Partitioned(partitions, t) == Partitioned(old(partitions), t)
      {
        var name := PartitionName(table, months[index]);
        assert Named(table, name, months);
        assert months[..index + 1][..index] == months[..index];
        var missing := EnsureOne(table, name);
        if missing { made := made + [name]; }
        index := index + 1;
      }
      assert months[..index] == months;
    }

    /** Drops the expired partitions of both tables, the referring table's first. */
    method DropExpiredPartitions(days: int, now: Time) returns (r: Result<seq<string>, ()>)
      requires Valid()
      modifies this
      ensures r.Err? <==> days < MIN_DAYS || days > MAX_DAYS
      ensures r.Err? ==> View() == old(View())
      ensures r.Ok? ==> View() == Cleaned(old(View()), days, now)
      ensures r.Ok? ==> forall t :: t in TABLES ==>
                Partitioned(partitions, t) == Kept(Partitioned(old(partitions), t), t, days, now)
      ensures r.Ok? ==> forall n :: n in r.value <==> Expires(old(partitions), n, days, now, 0)
      ensures r.Ok? ==> forall n :: n in relations <==> n in old(relations) && n !in r.value
    {
      hide Droppable, Kept, Expires, Partitioned, WithoutExpired;
      if days < MIN_DAYS || days > MAX_DAYS { return Err(()); }
      var dropped: seq<string> := [];
      var index := |TABLES|;
      NothingExpires(partitions, days, now);
      while index > 0
        invariant 0 <= index <= |TABLES|
        invariant index == 2 ==> View() == old(View())
        invariant index == 1 ==> View() == WithoutExpired(old(View()), TABLES[1], days, now)
        invariant index == 0 ==> View() == Cleaned(old(View()), days, now)
        invariant forall j :: index <= j < |TABLES| ==>
                    Partitioned(partitions, TABLES[j])
                    == Kept(Partitioned(old(partitions), TABLES[j]), TABLES[j], days, now)
        invariant forall j :: 0 <= j < index ==>
                    Partitioned(partitions, TABLES[j]) == Partitioned(old(partitions), TABLES[j])
        invariant forall n :: n in dropped <==> Expires(old(partitions), n, days, now, index)
        invariant forall n :: n in relations <==> n in old(relations) && n !in dropped
      {
        index := index - 1;
        var table := TABLES[index];
        var gone := DropFrom(table, days, now);
        ExpiresFrom(old(partitions), days, now, index);
        dropped := dropped + gone;
      }
      return Ok(dropped);
    }

    method DropFrom(table: string, days: int, now: Time) returns (gone: seq<string>)
      modifies this
      ensures View() == WithoutExpired(old(View()), table, days, now)
      ensures Partitioned(partitions, table)
           == Kept(Partitioned(old(partitions), table), table, days, now)
      ensures forall t :: t != table ==> Partitioned(partitions, t) == Partitioned(old(partitions), t)
      ensures forall n :: n in gone <==>
                n in Partitioned(old(partitions), table) && Droppable(table, n, days, now)
      ensures forall n :: n in relations <==> n in old(relations) && n !in gone
    {
      hide Droppable;
      var names := Partitioned(partitions, table);
      var kept: seq<string> := [];
      gone := [];
      var i := 0;
      while i < |names|
        invariant 0 <= i <= |names|
        invariant kept == Kept(names[..i], table, days, now)
        invariant forall n :: n in gone <==> n in names[..i] && Droppable(table, n, days, now)
        invariant forall n :: n in relations <==> n in old(relations) && n !in gone
        invariant partitions == old(partitions)
        invariant created == old(created) - (set n | n in names[..i] && Droppable(table, n, days, now))
        invariant relations
               == old(relations) - (set n | n in names[..i] && Droppable(table, n, days, now))
      {
        assert names[..i + 1][..i] == names[..i];
        if Droppable(table, names[i], days, now) {
          relations, created := relations - {names[i]}, created - {names[i]};
          gone := gone + [names[i]];
        } else {
          kept := kept + [names[i]];
        }
        i := i + 1;
      }
      assert names[..i] == names;
      partitions := partitions[table := kept];
    }
  }

  /** The plan, month by month. */
  function Plan(now: Time, ahead: nat): seq<Month>
    requires now >= 0
  {
    seq(ahead + 1, k requires 0 <= k => NthMonth(Ordinal(MonthOf(now)) + k))
  }

  function NthMonth(k: int): Month { if k >= 0 then FromOrdinal(k) else Month(1, 1) }

  lemma PlanIsPlan(months: seq<Month>, now: Time, ahead: nat)
    requires now >= 0 && |months| == ahead + 1
    requires forall k :: 0 <= k <= ahead ==>
               Valid(months[k]) && months[k].year >= 1
               && Ordinal(months[k]) == Ordinal(MonthOf(now)) + k
    ensures months == Plan(now, ahead)
  {
    hide MonthOf, Ordinal, FromOrdinal;
    forall k | 0 <= k <= ahead ensures months[k] == NthMonth(Ordinal(MonthOf(now)) + k) {
      MonthsAreOrdinals(months[k]);
    }
  }

  /** The plan lists only planned months. */
  lemma ListedIsPlanned(months: seq<Month>, now: Time, ahead: nat)
    requires now >= 0 && |months| == ahead + 1
    requires forall k :: 0 <= k <= ahead ==>
               Valid(months[k]) && months[k].year >= 1
               && Ordinal(months[k]) == Ordinal(MonthOf(now)) + k
    ensures forall m :: m in months ==> Planned(m, now, ahead)
  {
  }

  /** The plan lists every planned month. */
  lemma PlannedIsListed(months: seq<Month>, now: Time, ahead: nat)
    requires now >= 0 && |months| == ahead + 1
    requires forall k :: 0 <= k <= ahead ==>
               Valid(months[k]) && months[k].year >= 1
               && Ordinal(months[k]) == Ordinal(MonthOf(now)) + k
    ensures forall m :: Planned(m, now, ahead) ==> m in months
  {
    forall m | Planned(m, now, ahead) ensures m in months {
      var k := Ordinal(m) - Ordinal(MonthOf(now));
      MonthsAreOrdinals(m);
      MonthsAreOrdinals(months[k]);
      assert months[k] == m;
    }
  }
}
