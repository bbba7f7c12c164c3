/** How a claim selects its candidates, whatever the table. */
module Selection {
  import opened Common

  /** The first eligible rows, up to the limit, of a list of the rows nobody else has locked. */
  function Chosen<T>(rows: map<Id, T>, eligible: T -> bool, visible: seq<Id>, limit: nat): set<Id>
    decreases |visible|
  {
    if visible == [] || limit == 0 then {}
    else
      var id := visible[0];
      if id in rows && eligible(rows[id]) then
        {id} + Chosen(rows - {id}, eligible, visible[1..], limit - 1)
      else Chosen(rows, eligible, visible[1..], limit)
  }

  /** Only eligible visible rows are chosen, and no more than the limit. */
  lemma {:induction false} ChosenAreEligible<T>(
    rows: map<Id, T>, eligible: T -> bool, visible: seq<Id>, limit: nat)
    ensures forall id :: id in Chosen(rows, eligible, visible, limit) ==>
              id in rows && eligible(rows[id]) && id in visible
    ensures |Chosen(rows, eligible, visible, limit)| <= limit
    decreases |visible|
  {
    if visible != [] && limit != 0 {
      var id := visible[0];
      ChosenAreEligible(rows, eligible, visible[1..], limit);
      ChosenAreEligible(rows - {id}, eligible, visible[1..], limit - 1);
    }
  }

  /** No eligible row is passed over: one that is not chosen comes after `limit` others that are. */
  lemma {:induction false} ChosenAreFirst<T>(
    rows: map<Id, T>, eligible: T -> bool, visible: seq<Id>, limit: nat, k: nat)
    requires k < |visible| && visible[k] in rows && eligible(rows[visible[k]])
    requires visible[k] !in Chosen(rows, eligible, visible, limit)
    ensures |Chosen(rows, eligible, visible, limit)| == limit
    ensures forall id :: id in Chosen(rows, eligible, visible, limit) ==> id in visible[..k]
    decreases |visible|
  {
    hide Chosen;
    ChosenNone(rows, eligible, visible);
    if limit == 0 { return; }
    ChosenStep(rows, eligible, visible, limit);
    var id, rest := visible[0], visible[1..];
    if k == 0 { return; }
    var ahead := rest[..k - 1];
    assert visible[..k] == [id] + ahead && visible[k] == rest[k - 1];
    if id in rows && eligible(rows[id]) {
      var others := Chosen(rows - {id}, eligible, rest, limit - 1);
      ChosenAreEligible(rows - {id}, eligible, rest, limit - 1);
      ChosenAreFirst(rows - {id}, eligible, rest, limit - 1, k - 1);
      OneAhead(id, others, ahead);
    } else {
      ChosenAreFirst(rows, eligible, rest, limit, k - 1);
    }
  }

  lemma OneAhead(id: Id, others: set<Id>, ahead: seq<Id>)
    requires id !in others && forall other :: other in others ==> other in ahead
    ensures |{id} + others| == 1 + |others|
    ensures forall other :: other in {id} + others ==> other in [id] + ahead
  {
  }

  lemma ChosenNone<T>(rows: map<Id, T>, eligible: T -> bool, visible: seq<Id>)
    ensures Chosen(rows, eligible, visible, 0) == {}
  {
  }

  lemma ChosenStep<T>(rows: map<Id, T>, eligible: T -> bool, visible: seq<Id>, limit: nat)
    requires visible != [] && limit > 0
    ensures var id, rest := visible[0], visible[1..];
            Chosen(rows, eligible, visible, limit)
            == if id in rows && eligible(rows[id]) then
                 {id} + Chosen(rows - {id}, eligible, rest, limit - 1)
               else Chosen(rows, eligible, rest, limit)
  {
  }

  /** The eligible rows of a list. */
  ghost function Among<T>(rows: map<Id, T>, eligible: T -> bool, visible: seq<Id>): set<Id> {
    set id | id in visible && id in rows && eligible(rows[id])
  }

  /** Exactly which rows are chosen: the eligible ones with less than `limit` eligible ones ahead. */
  lemma ChosenExactly<T>(rows: map<Id, T>, eligible: T -> bool, visible: seq<Id>, limit: nat, id: Id)
    ensures id in Chosen(rows, eligible, visible, limit) <==>
              && id in rows && eligible(rows[id])
              && exists k :: 0 <= k < |visible| && visible[k] == id
                             && |Among(rows, eligible, visible[..k])| < limit
  {
    if id in Chosen(rows, eligible, visible, limit) {
      ChosenAreEligible(rows, eligible, visible, limit);
      var k := FewAhead(rows, eligible, visible, limit, id);
    } else if id in rows && eligible(rows[id]) {
      forall k | 0 <= k < |visible| && visible[k] == id
        ensures |Among(rows, eligible, visible[..k])| >= limit
      {
        ChosenAreFirst(rows, eligible, visible, limit, k);
        ChosenAreEligible(rows, eligible, visible, limit);
        hide Chosen;
        Cardinality(Chosen(rows, eligible, visible, limit), Among(rows, eligible, visible[..k]));
      }
    }
  }

  lemma {:induction false} FewAhead<T>(rows: map<Id, T>, eligible: T -> bool, visible: seq<Id>,
                                       limit: nat, id: Id)
    returns (k: nat)
    requires id in Chosen(rows, eligible, visible, limit)
    ensures k < |visible| && visible[k] == id && |Among(rows, eligible, visible[..k])| < limit
    decreases |visible|
  {
    var first, rest := visible[0], visible[1..];
    ChosenStep(rows, eligible, visible, limit);
    hide Chosen;
    if first in rows && eligible(rows[first]) {
      if id == first {
        assert Among(rows, eligible, visible[..0]) == {};
        return 0;
      }
      k := FewAhead(rows - {first}, eligible, rest, limit - 1, id);
    } else {
      k := FewAhead(rows, eligible, rest, limit, id);
    }
    AmongStep(rows, eligible, first, rest[..k]);
    assert visible[..k + 1] == [first] + rest[..k];
    hide Among;
    k := k + 1;
  }

  lemma AmongStep<T>(rows: map<Id, T>, eligible: T -> bool, first: Id, rest: seq<Id>)
    ensures |Among(rows, eligible, [first] + rest)|
         == if first in rows && eligible(rows[first]) then
              1 + |Among(rows - {first}, eligible, rest)|
            else |Among(rows, eligible, rest)|
  {
    if first in rows && eligible(rows[first]) {
      assert Among(rows, eligible, [first] + rest)
          == {first} + Among(rows - {first}, eligible, rest);
    } else {
      assert Among(rows, eligible, [first] + rest) == Among(rows, eligible, rest);
    }
  }

  method Choose<T>(rows: map<Id, T>, eligible: T -> bool, visible: seq<Id>, limit: nat)
    returns (candidates: set<Id>)
    ensures candidates == Chosen(rows, eligible, visible, limit)
  {
    candidates := {};
    var taken, i := 0, 0;
    assert visible[0..] == visible && rows - candidates == rows;
    while i < |visible| && taken < limit
      invariant 0 <= i <= |visible| && 0 <= taken <= limit
      invariant Chosen(rows, eligible, visible, limit)
             == candidates + Chosen(rows - candidates, eligible, visible[i..], limit - taken)
    {
      var id := visible[i];
      if id in rows && id !in candidates && eligible(rows[id]) {
        assert rows - candidates - {id} == rows - (candidates + {id});
        candidates, taken := candidates + {id}, taken + 1;
      }
      i := i + 1;
    }
  }
}
