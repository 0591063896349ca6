/** SQL `GROUP BY k1, ..., kn` with `SUM(value)` and `COUNT(*)`, returning one
    row per distinct key in `ORDER BY k1, ..., kn` order. Keys are tuples of
    integer columns compared lexicographically. */
module GroupBy {

  import opened Folds
  import opened LexOrder

  /** An input row: its grouping key and the value that SUM adds up. */
  datatype Row = Row(key: seq<int>, value: int)

  /** An output row: a distinct key, the SUM of its values and its COUNT(*). */
  datatype Group = Group(key: seq<int>, sum: int, count: nat)

  /** Keys strictly increase from each group to the next. */
  predicate StrictlyOrdered(gs: seq<Group>)
  {
    forall i :: 0 <= i < |gs| - 1 ==> Less(gs[i].key, gs[i + 1].key)
  }

  /** Every group holds at least one row. */
  predicate NonEmptyGroups(gs: seq<Group>)
  {
    forall i :: 0 <= i < |gs| ==> gs[i].count >= 1
  }

  /** Adds one row to the ordered groups: into the group with its key, or as a
      new group at the place its key sorts to. */
  function Insert(gs: seq<Group>, r: Row): (res: seq<Group>)
    requires StrictlyOrdered(gs) && NonEmptyGroups(gs)
    ensures StrictlyOrdered(res) && NonEmptyGroups(res)
    ensures res != [] && (res[0].key == r.key || (gs != [] && res[0].key == gs[0].key))
    decreases |gs|
  {
    if gs == [] then
      [Group(r.key, r.value, 1)]
    else if gs[0].key == r.key then
      [gs[0].(sum := gs[0].sum + r.value, count := gs[0].count + 1)] + gs[1..]
    else if Less(r.key, gs[0].key) then
      [Group(r.key, r.value, 1)] + gs
    else
      LessTotal(r.key, gs[0].key);
      [gs[0]] + Insert(gs[1..], r)
  }

  /** The grouped result of a list of rows, built one row at a time. */
  function GroupRows(rows: seq<Row>): (gs: seq<Group>)
    ensures StrictlyOrdered(gs) && NonEmptyGroups(gs)
    decreases |rows|
  {
    if rows == [] then [] else Insert(GroupRows(rows[..|rows| - 1]), rows[|rows| - 1])
  }

  /** The value a row contributes to SUM for key `k`. */
  function ValueFor(k: seq<int>): Row -> int
  {
    (r: Row) => if r.key == k then r.value else 0
  }

  /** What a row contributes to COUNT(*) for key `k`. */
  function HitFor(k: seq<int>): Row -> int
  {
    (r: Row) => if r.key == k then 1 else 0
  }

  /** SUM(value) over the input rows whose key is `k`. */
  function SumOf(rows: seq<Row>, k: seq<int>): int
  {
    SumBy(rows, ValueFor(k))
  }

  /** COUNT(*) over the input rows whose key is `k`. */
  function CountOf(rows: seq<Row>, k: seq<int>): int
  {
    SumBy(rows, HitFor(k))
  }

  /** The (sum, count) reported for key `k`, or (0, 0) when no group has it. */
  function Totals(gs: seq<Group>, k: seq<int>): (int, int)
    decreases |gs|
  {
    if gs == [] then (0, 0)
    else if gs[0].key == k then (gs[0].sum, gs[0].count)
    else Totals(gs[1..], k)
  }

  /** In strictly ordered groups every earlier key is below every later one. */
  lemma {:induction false} OrderedPairwise(gs: seq<Group>, i: int, j: int)
    requires StrictlyOrdered(gs)
    requires 0 <= i < j < |gs|
    ensures Less(gs[i].key, gs[j].key)
    decreases j - i
  {
    if i + 1 < j {
      OrderedPairwise(gs, i + 1, j);
      LessTransitive(gs[i].key, gs[i + 1].key, gs[j].key);
    }
  }

  /** A key below the first group's key belongs to no group. */
  lemma {:induction false} AbsentBelowFirst(gs: seq<Group>, k: seq<int>)
    requires StrictlyOrdered(gs) && gs != []
    requires Less(k, gs[0].key)
    ensures Totals(gs, k) == (0, 0)
    decreases |gs|
  {
    LessIrreflexive(k);
    if |gs| > 1 {
      LessTransitive(k, gs[0].key, gs[1].key);
      AbsentBelowFirst(gs[1..], k);
    }
  }

  /** Inserting a row changes the totals of its own key only, by its value and
      by one. */
  lemma {:induction false} InsertTotals(gs: seq<Group>, r: Row, k: seq<int>)
    requires StrictlyOrdered(gs) && NonEmptyGroups(gs)
    ensures Totals(Insert(gs, r), k) ==
              if k == r.key then (Totals(gs, k).0 + r.value, Totals(gs, k).1 + 1)
              else Totals(gs, k)
    decreases |gs|
  {
    if gs == [] {
    } else if gs[0].key == r.key {
    } else if Less(r.key, gs[0].key) {
      if k == r.key {
        AbsentBelowFirst(gs, k);
      }
    } else {
      InsertTotals(gs[1..], r, k);
    }
  }

  /** Each group reports exactly the SUM and COUNT(*) of the input rows with
      its key, and a key with no rows has no group. */
  lemma {:induction false} GroupRowsTotals(rows: seq<Row>, k: seq<int>)
    ensures Totals(GroupRows(rows), k) == (SumOf(rows, k), CountOf(rows, k))
    decreases |rows|
  {
    if rows != [] {
      var n := |rows| - 1;
      GroupRowsTotals(rows[..n], k);
      InsertTotals(GroupRows(rows[..n]), rows[n], k);
    }
  }

  /** Keys are unique, so looking a group's key up finds that group. */
  lemma {:induction false} TotalsAtIndex(gs: seq<Group>, i: int)
    requires StrictlyOrdered(gs)
    requires 0 <= i < |gs|
    ensures Totals(gs, gs[i].key) == (gs[i].sum, gs[i].count)
    decreases i
  {
    if i > 0 {
      OrderedPairwise(gs, 0, i);
      LessIrreflexive(gs[i].key);
      assert gs[1..][i - 1] == gs[i];
      TotalsAtIndex(gs[1..], i - 1);
    }
  }

  /** Every output group is exactly the SUM and COUNT(*) of the input rows
      that carry its key; there is at least one such row. */
  lemma GroupMatchesRows(rows: seq<Row>, i: int)
    requires 0 <= i < |GroupRows(rows)|
    ensures GroupRows(rows)[i].sum == SumOf(rows, GroupRows(rows)[i].key)
    ensures GroupRows(rows)[i].count == CountOf(rows, GroupRows(rows)[i].key) >= 1
  {
    var gs := GroupRows(rows);
    TotalsAtIndex(gs, i);
    GroupRowsTotals(rows, gs[i].key);
  }

  /** A key that occurs in some row. */
  lemma {:induction false} CountWitness(rows: seq<Row>, k: seq<int>) returns (j: int)
    requires CountOf(rows, k) > 0
    ensures 0 <= j < |rows| && rows[j].key == k
    decreases |rows|
  {
    var n := |rows| - 1;
    if rows[n].key == k {
      j := n;
    } else {
      j := CountWitness(rows[..n], k);
    }
  }

  /** Every group's key is the key of some input row. */
  lemma GroupKeyWitness(rows: seq<Row>, i: int) returns (j: int)
    requires 0 <= i < |GroupRows(rows)|
    ensures 0 <= j < |rows| && rows[j].key == GroupRows(rows)[i].key
  {
    GroupMatchesRows(rows, i);
    j := CountWitness(rows, GroupRows(rows)[i].key);
  }

  function GroupCount(g: Group): int
  {
    g.count
  }

  function GroupSum(g: Group): int
  {
    g.sum
  }

  function RowValue(r: Row): int
  {
    r.value
  }

  /** Inserting a row adds one to the total count and its value to the total
      sum. */
  lemma {:induction false} InsertGrandTotals(gs: seq<Group>, r: Row)
    requires StrictlyOrdered(gs) && NonEmptyGroups(gs)
    ensures SumBy(Insert(gs, r), GroupCount) == SumBy(gs, GroupCount) + 1
    ensures SumBy(Insert(gs, r), GroupSum) == SumBy(gs, GroupSum) + r.value
    decreases |gs|
  {
    if gs == [] {
      SumByCons(Group(r.key, r.value, 1), [], GroupCount);
      SumByCons(Group(r.key, r.value, 1), [], GroupSum);
    } else {
      assert gs == [gs[0]] + gs[1..];
      SumByCons(gs[0], gs[1..], GroupCount);
      SumByCons(gs[0], gs[1..], GroupSum);
      if gs[0].key == r.key {
        var g := gs[0].(sum := gs[0].sum + r.value, count := gs[0].count + 1);
        SumByCons(g, gs[1..], GroupCount);
        SumByCons(g, gs[1..], GroupSum);
      } else if Less(r.key, gs[0].key) {
        SumByCons(Group(r.key, r.value, 1), gs, GroupCount);
        SumByCons(Group(r.key, r.value, 1), gs, GroupSum);
      } else {
        InsertGrandTotals(gs[1..], r);
        SumByCons(gs[0], Insert(gs[1..], r), GroupCount);
        SumByCons(gs[0], Insert(gs[1..], r), GroupSum);
      }
    }
  }

  /** The counts of all groups add up to the number of input rows, and their
      sums to the sum of all input values: no row is lost or counted twice. */
  lemma {:induction false} GroupRowsGrandTotals(rows: seq<Row>)
    ensures SumBy(GroupRows(rows), GroupCount) == |rows|
    ensures SumBy(GroupRows(rows), GroupSum) == SumBy(rows, RowValue)
    decreases |rows|
  {
    if rows != [] {
      var n := |rows| - 1;
      GroupRowsGrandTotals(rows[..n]);
      InsertGrandTotals(GroupRows(rows[..n]), rows[n]);
    }
  }

  /** When every row with key `k` carries the same value `w`, the group's SUM
      is COUNT(*) times `w`. */
  lemma {:induction false} UniformSum(rows: seq<Row>, k: seq<int>, w: int)
    requires forall j :: 0 <= j < |rows| && rows[j].key == k ==> rows[j].value == w
    ensures SumOf(rows, k) == w * CountOf(rows, k)
    decreases |rows|
  {
    if rows != [] {
      var n := |rows| - 1;
      UniformSum(rows[..n], k, w);
    }
  }

}
