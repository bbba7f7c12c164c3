/** Vocabulary shared by every component of the model. */
module Common {

  datatype Option<+T> = None | Some(value: T)

  datatype Result<+T, +E> = Ok(value: T) | Err(error: E)

  /** An instant or a duration, in nanoseconds. Every instant is a UTC instant. */
  type Time = int

  type Id = string

  const SECOND: Time := 1_000_000_000
  const MINUTE: Time := 60 * SECOND
  const HOUR: Time := 60 * MINUTE

  /** A worker's exclusive right to one row until an instant. */
  datatype Lease = Lease(holder: Id, expires: Time)

  function Min(a: int, b: int): int { if a <= b then a else b }

  function Max(a: int, b: int): int { if a >= b then a else b }

  ghost predicate Distinct<T>(s: seq<T>) {
    forall i, j :: 0 <= i < j < |s| ==> s[i] != s[j]
  }

  /** How many of them came to `v`. */
  ghost function Tally<T>(of: map<Id, T>, v: T): nat { |set id | id in of && of[id] == v| }

  lemma Cardinality<T>(a: set<T>, b: set<T>)
    requires a <= b
    ensures |a| <= |b|
  {
    assert b == a + (b - a);
  }

  lemma TallyIsBounded<T>(of: map<Id, T>)
    ensures forall v :: Tally(of, v) <= |of|
  {
    forall v ensures Tally(of, v) <= |of| {
      Cardinality((set id | id in of && of[id] == v), of.Keys);
    }
  }

  lemma TallyOneMore<T>(of: map<Id, T>, id: Id, h: T)
    requires id !in of
    ensures forall v :: Tally(of[id := h], v) == Tally(of, v) + if v == h then 1 else 0
  {
    forall v ensures Tally(of[id := h], v) == Tally(of, v) + if v == h then 1 else 0 {
      var more := of[id := h];
      var was := set k | k in of && of[k] == v;
      assert (set k | k in more && more[k] == v) == if v == h then was + {id} else was;
    }
  }
}
