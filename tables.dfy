/**
 * The three query shapes the server's route handlers use on a table held in memory as a
 * sequence of rows: `query.filter(cond).all()`, `query.filter(cond).first()` and
 * `db.delete(row)`.
 */
module Tables {
  import opened Wrappers

  /** `filter(keep).all()`: the rows satisfying `keep`, in table order. */
  function Where<T(!new)>(rows: seq<T>, keep: T -> bool): (r: seq<T>)
    ensures |r| <= |rows|
    ensures forall x :: x in r <==> x in rows && keep(x)
  {
    if rows == [] then []
    else (if keep(rows[0]) then [rows[0]] else []) + Where(rows[1..], keep)
  }

  /** `filter(cond).first()`, as a position: the first row satisfying `cond`, if any. */
  function First<T>(rows: seq<T>, cond: T -> bool): (k: Option<nat>)
    ensures k.Some? ==> k.value < |rows| && cond(rows[k.value])
    ensures k.Some? ==> forall j :: 0 <= j < k.value ==> !cond(rows[j])
    ensures k.None? <==> forall j :: 0 <= j < |rows| ==> !cond(rows[j])
  {
    if rows == [] then None
    else if cond(rows[0]) then Some(0)
    else match First(rows[1..], cond)
      case Some(k) => Some(k + 1)
      case None => None
  }

  /** The table after `db.delete` of the row at position `k`: every other row, in order. */
  function RemoveAt<T>(rows: seq<T>, k: nat): (r: seq<T>)
    requires k < |rows|
    ensures |r| == |rows| - 1
    ensures forall j :: 0 <= j < k ==> r[j] == rows[j]
    ensures forall j :: k <= j < |r| ==> r[j] == rows[j + 1]
  {
    rows[..k] + rows[k + 1..]
  }

  /** Deleting one row deletes only it: what remains is the table's other rows, and the row is gone if it occurred once. */
  lemma RemoveAtMembers<T(!new)>(rows: seq<T>, k: nat)
    requires k < |rows|
    requires forall j :: 0 <= j < |rows| && j != k ==> rows[j] != rows[k]
    ensures forall x :: x in RemoveAt(rows, k) <==> x in rows && x != rows[k]
  {
    var r := RemoveAt(rows, k);
    forall x | x in rows && x != rows[k] ensures x in r {
      var j :| 0 <= j < |rows| && rows[j] == x;
      if j < k { assert r[j] == x; } else { assert r[j - 1] == x; }
    }
  }
}
