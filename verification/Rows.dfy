/** Queries over a table kept as a sequence of rows in creation order; the index of a row is its id. */
module Rows {
  import opened Wrappers

  /** `findFirst` without an order, on a condition at most one row meets. */
  function FirstMatch<T>(rows: seq<T>, p: T -> bool): (found: Option<nat>)
    ensures found.Some? ==> found.value < |rows| && p(rows[found.value])
    ensures forall i :: 0 <= i < (if found.Some? then found.value else |rows|) ==> !p(rows[i])
  {
    if rows == [] then None
    else if p(rows[0]) then Some(0)
    else
      var rest := FirstMatch(rows[1..], p);
      assert forall i :: 1 <= i < |rows| ==> rows[i] == rows[1..][i - 1];
      if rest.Some? then Some(rest.value + 1) else None
  }

  /** `findFirst` with `orderBy: { createdAt: "desc" }`: the newest row meeting the condition. */
  function LastMatch<T>(rows: seq<T>, p: T -> bool): (found: Option<nat>)
    ensures found.Some? ==> found.value < |rows| && p(rows[found.value])
    ensures forall i :: (if found.Some? then found.value + 1 else 0) <= i < |rows| ==> !p(rows[i])
  {
    if rows == [] then None
    else if p(rows[|rows| - 1]) then Some(|rows| - 1)
    else LastMatch(rows[..|rows| - 1], p)
  }
}
