/** In which order, and from which positions, a loop takes what it collects. */
module Order {

  /** Positions below n, each after the one before it. */
  ghost predicate Ascending(at: seq<nat>, n: nat) {
    && (forall i | 0 <= i < |at| :: at[i] < n)
    && (forall i, j | 0 <= i < j < |at| :: at[i] < at[j])
  }

  /** Positions in a list of rows, row by row and from left to right in each. */
  ghost predicate RowByRow(at: seq<(nat, nat)>) {
    forall i, j | 0 <= i < j < |at| :: at[i].0 < at[j].0 || (at[i].0 == at[j].0 && at[i].1 < at[j].1)
  }

  /** One element more, which is taken or not. */
  lemma AscendingStep(at: seq<nat>, n: nat)
    requires Ascending(at, n)
    ensures Ascending(at, n + 1) && Ascending(at + [n], n + 1)
    ensures n !in at && forall i: nat | i < n :: i in at + [n] <==> i in at
  {
  }

  /** The same positions behind one more element. */
  function Moved(at: seq<nat>): (r: seq<nat>)
    ensures |r| == |at| && forall n | 0 <= n < |at| :: r[n] == at[n] + 1
  {
    seq(|at|, n requires 0 <= n < |at| => at[n] + 1)
  }

  lemma MovedHas(at: seq<nat>, i: nat)
    ensures i in Moved(at) <==> i > 0 && i - 1 in at
  {
    if i > 0 && i - 1 in at {
      var n :| 0 <= n < |at| && at[n] == i - 1;
      assert Moved(at)[n] == i;
    }
  }

  /** What follows a first element, which is taken or not. */
  function After(taken: bool, at: seq<nat>): seq<nat> {
    if taken then [0] + Moved(at) else Moved(at)
  }

  lemma AfterAscends(taken: bool, at: seq<nat>, n: nat)
    requires Ascending(at, n)
    ensures Ascending(After(taken, at), n + 1)
  {
    var moved, r := Moved(at), After(taken, at);
    assert forall i, j | 0 <= i < j < |moved| :: moved[i] < moved[j];
    if taken {
      assert forall i | 0 < i < |r| :: r[i] == moved[i - 1];
      assert Ascending([0] + moved, n + 1);
    }
  }

  /** All positions below n. */
  function Upto(n: nat): (at: seq<nat>)
    ensures Ascending(at, n) && |at| == n && forall i | 0 <= i < n :: at[i] == i
  {
    seq(n, i requires 0 <= i < n => i)
  }

  /** Positions of one row. */
  function Row(i: nat, columns: seq<nat>): (r: seq<(nat, nat)>)
    ensures |r| == |columns| && forall n | 0 <= n < |columns| :: r[n] == (i, columns[n])
  {
    seq(|columns|, n requires 0 <= n < |columns| => (i, columns[n]))
  }

  lemma RowHas(i: nat, columns: seq<nat>, j: nat)
    ensures (i, j) in Row(i, columns) <==> j in columns
  {
    if j in columns {
      var n :| 0 <= n < |columns| && columns[n] == j;
      assert Row(i, columns)[n] == (i, j);
    }
  }

  lemma RowStep(at: seq<(nat, nat)>, i: nat, columns: seq<nat>, width: nat)
    requires RowByRow(at) && Ascending(columns, width) && forall n | 0 <= n < |at| :: at[n].0 < i
    ensures RowByRow(at + Row(i, columns))
  {
    var all := at + Row(i, columns);
    assert forall n | |at| <= n < |all| :: all[n] == (i, columns[n - |at|]);
  }
}
