/** The result shapes, the row-id helpers, and the minimum and maximum used throughout the model. */
module Wrappers {

  datatype Option<+T> = None | Some(value: T)

  datatype Result<+T, +E> = Ok(value: T) | Err(error: E)

  function Min(a: int, b: int): int { if a < b then a else b }

  function Max(a: int, b: int): int { if a < b then b else a }

  /** Some element of a non-empty set of row ids; loops over query results visit rows with it. */
  method PickId(ids: set<int>) returns (id: int)
    requires ids != {}
    ensures id in ids
  {
    assert exists x :: x in ids by {
      if forall x :: x !in ids { assert false; }
    }
    id :| id in ids;
  }

  /** The smallest of a non-empty set of row ids, for queries ordered by id. */
  method PickLeast(ids: set<int>) returns (id: int)
    requires ids != {}
    ensures id in ids && forall x | x in ids :: id <= x
  {
    id := PickId(ids);
    var pending := ids;
    while pending != {}
      invariant pending <= ids && id in ids
      invariant forall x | x in ids && x !in pending :: id <= x
      decreases |pending|
    {
      var x := PickId(pending);
      pending := pending - {x};
      id := Min(id, x);
    }
  }

  ghost predicate Ascending(ids: seq<int>) { forall i, j :: 0 <= i < j < |ids| ==> ids[i] < ids[j] }

  /** The id a table hands out next: one above the largest id in use. */
  method NextId(ids: set<int>) returns (id: int)
    ensures id !in ids
  {
    id := 1;
    var pending := ids;
    while pending != {}
      invariant pending <= ids
      invariant forall x | x in ids && x !in pending :: x < id
      decreases |pending|
    {
      var x := PickId(pending);
      pending := pending - {x};
      if id <= x { id := x + 1; }
    }
  }
}
