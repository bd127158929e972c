/** A JPA repository as a map from generated ids to rows, and the derived
    queries as filters over it. */
module Repositories {
  import opened Outcomes

  /** The rows of `m` with key below `n` that satisfy `p`: a derived
      `findBy...` query returning a list. */
  function Select<T(==)>(m: map<nat, T>, n: nat, p: T -> bool): (r: seq<T>)
    ensures forall i :: 0 <= i < |r| ==> p(r[i]) && r[i] in m.Values
    ensures forall k :: k in m && k < n && p(m[k]) ==> m[k] in r
    decreases n
  {
    if n == 0 then []
    else Select(m, n - 1, p) + (if n - 1 in m && p(m[n - 1]) then [m[n - 1]] else [])
  }

  /** The smallest key in [from, n) whose row satisfies `p`. */
  function FirstKey<T>(m: map<nat, T>, from: nat, n: nat, p: T -> bool): (r: Option<nat>)
    ensures r.Some? ==> from <= r.value < n && r.value in m && p(m[r.value])
    ensures r.Some? ==> forall k :: from <= k < r.value && k in m ==> !p(m[k])
    ensures r.None? ==> forall k :: from <= k < n && k in m ==> !p(m[k])
    decreases n - from
  {
    if from >= n then None
    else if from in m && p(m[from]) then Some(from)
    else FirstKey(m, from + 1, n, p)
  }

  /** A repository: the stored rows by id, and the next id the database
      assigns on insertion. */
  class Repository<T(==,!new)> {
    var rows: map<nat, T>
    var nextId: nat

    ghost predicate Valid()
      reads this
    {
      forall k :: k in rows ==> k < nextId
    }

    constructor ()
      ensures Valid() && rows == map[] && nextId == 0
    {
      rows := map[];
      nextId := 0;
    }

    /** `findById`. */
    function FindById(id: nat): (r: Option<T>)
      reads this
      ensures r.Some? <==> id in rows
      ensures r.Some? ==> r.value == rows[id]
    {
      if id in rows then Some(rows[id]) else None
    }

    /** `findAll`. */
    function FindAll(): (r: seq<T>)
      reads this
      requires Valid()
      ensures forall x :: x in r <==> x in rows.Values
    {
      Select(rows, nextId, _ => true)
    }

    /** `save` of a new row: it is stored under the next id. */
    method Insert(x: T)
      requires Valid()
      modifies this
      ensures Valid()
      ensures old(nextId) !in old(rows)
      ensures rows == old(rows)[old(nextId) := x] && nextId == old(nextId) + 1
    {
      rows := rows[nextId := x];
      nextId := nextId + 1;
    }

    /** `save` of a row already stored under `id`. */
    method Save(id: nat, x: T)
      requires Valid() && id in rows
      modifies this
      ensures Valid()
      ensures rows == old(rows)[id := x] && nextId == old(nextId)
    {
      rows := rows[id := x];
    }

    /** `delete` / `deleteById`. */
    method Delete(id: nat)
      requires Valid()
      modifies this
      ensures Valid()
      ensures rows == old(rows) - {id} && nextId == old(nextId)
    {
      rows := rows - {id};
    }
  }
}
