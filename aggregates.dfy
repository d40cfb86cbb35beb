/** The cost summary over the filtered records: total spend, average CPU utilisation,
    and the daily cost per service that the trend chart plots. */
module Aggregates {
  import opened Records

  /** Total spend: the sum of `cost` over the records (0 for no records). */
  function TotalSpend(rs: seq<Record>): (total: real)
    ensures (forall i :: 0 <= i < |rs| ==> rs[i].cost >= 0.0) ==> total >= 0.0
  {
    if rs == [] then 0.0 else rs[0].cost + TotalSpend(rs[1..])
  }

  lemma {:induction false} TotalSpendAppend(a: seq<Record>, b: seq<Record>)
    ensures TotalSpend(a + b) == TotalSpend(a) + TotalSpend(b)
  {
    if a == [] {
      assert a + b == b;
    } else {
      assert (a + b)[0] == a[0] && (a + b)[1..] == a[1..] + b;
      TotalSpendAppend(a[1..], b);
    }
  }

  /** Sum of `cpu_utilization` over the records. */
  function CpuSum(rs: seq<Record>): (sum: real)
    ensures (forall i :: 0 <= i < |rs| ==> rs[i].cpuUtilization >= 0.0) ==> sum >= 0.0
  {
    if rs == [] then 0.0 else rs[0].cpuUtilization + CpuSum(rs[1..])
  }

  /** Average CPU utilisation of a non-empty selection. */
  function MeanCpu(rs: seq<Record>): (mean: real)
    requires |rs| > 0
    ensures mean * (|rs| as real) == CpuSum(rs)
    ensures (forall i :: 0 <= i < |rs| ==> rs[i].cpuUtilization >= 0.0) ==> mean >= 0.0
  {
    CpuSum(rs) / (|rs| as real)
  }

  lemma {:induction false} CpuSumBounds(rs: seq<Record>, lo: real, hi: real)
    requires forall i :: 0 <= i < |rs| ==> lo <= rs[i].cpuUtilization <= hi
    ensures lo * (|rs| as real) <= CpuSum(rs) <= hi * (|rs| as real)
  {
    if rs != [] {
      CpuSumBounds(rs[1..], lo, hi);
      assert lo * (|rs| as real) == lo + lo * (|rs[1..]| as real);
      assert hi * (|rs| as real) == hi + hi * (|rs[1..]| as real);
    }
  }

  /** The average lies between the smallest and the largest utilisation: if every
      record is within [lo, hi], so is the mean. */
  lemma MeanCpuWithinBounds(rs: seq<Record>, lo: real, hi: real)
    requires |rs| > 0
    requires forall i :: 0 <= i < |rs| ==> lo <= rs[i].cpuUtilization <= hi
    ensures lo <= MeanCpu(rs) <= hi
  {
    CpuSumBounds(rs, lo, hi);
    Between(lo, MeanCpu(rs), hi, |rs| as real, CpuSum(rs));
  }

  /** If `m * n == s` for a positive `n`, bounds on `s` scaled by `n` are bounds on `m`. */
  lemma Between(lo: real, m: real, hi: real, n: real, s: real)
    requires n > 0.0 && m * n == s && lo * n <= s <= hi * n
    ensures lo <= m <= hi
  {
    assert (m - lo) * n >= 0.0;
    assert (hi - m) * n >= 0.0;
  }

  /** The records falling in one cell of the pivot. */
  function InGroup(rs: seq<Record>, k: GroupKey): (group: seq<Record>)
    ensures forall x :: x in group <==> x in rs && KeyOf(x) == k
  {
    if rs == [] then []
    else
      assert rs == [rs[0]] + rs[1..];
      if KeyOf(rs[0]) == k then [rs[0]] + InGroup(rs[1..], k) else InGroup(rs[1..], k)
  }

  /** Reference value of a pivot cell: the total spend of the records with that date and service. */
  function GroupCost(rs: seq<Record>, k: GroupKey): real {
    TotalSpend(InGroup(rs, k))
  }

  /** The (date, service) pairs that occur in the records. */
  function GroupKeys(rs: seq<Record>): set<GroupKey> {
    set r | r in rs :: KeyOf(r)
  }

  lemma GroupKeysCons(rs: seq<Record>)
    requires rs != []
    ensures GroupKeys(rs) == {KeyOf(rs[0])} + GroupKeys(rs[1..])
  {
    assert rs == [rs[0]] + rs[1..];
  }

  lemma GroupCostCons(rs: seq<Record>, k: GroupKey)
    requires rs != []
    ensures GroupCost(rs, k) == (if KeyOf(rs[0]) == k then rs[0].cost else 0.0) + GroupCost(rs[1..], k)
  {
    var g := InGroup(rs[1..], k);
    assert ([rs[0]] + g)[0] == rs[0] && ([rs[0]] + g)[1..] == g;
  }

  lemma {:induction false} NoRecordsNoGroup(rs: seq<Record>, k: GroupKey)
    requires k !in GroupKeys(rs)
    ensures InGroup(rs, k) == []
  {
    if rs != [] {
      GroupKeysCons(rs);
      NoRecordsNoGroup(rs[1..], k);
    }
  }

  /** `pivot_table(index="date", columns="service", values="cost", aggfunc="sum")`:
      one cell per (date, service) pair that occurs, holding the summed cost. */
  function Pivot(rs: seq<Record>): (table: map<GroupKey, real>)
    ensures table.Keys == GroupKeys(rs)
  {
    if rs == [] then map[]
    else
      var rest := Pivot(rs[1..]);
      var k := KeyOf(rs[0]);
      GroupKeysCons(rs);
      rest[k := rs[0].cost + (if k in rest then rest[k] else 0.0)]
  }

  /** The pivot has a cell for exactly the (date, service) pairs that occur, and each
      cell holds the total cost of the records with that date and service. */
  lemma {:induction false} PivotCells(rs: seq<Record>)
    ensures forall k :: k in Pivot(rs) ==> Pivot(rs)[k] == GroupCost(rs, k)
  {
    if rs != [] {
      PivotCells(rs[1..]);
      var rest := Pivot(rs[1..]);
      var k := KeyOf(rs[0]);
      forall j | j in Pivot(rs) ensures Pivot(rs)[j] == GroupCost(rs, j) {
        GroupCostCons(rs, j);
        if j != k {
          assert Pivot(rs)[j] == rest[j];
        } else if k !in rest {
          NoRecordsNoGroup(rs[1..], k);
        }
      }
    }
  }

  predicate Distinct(ks: seq<GroupKey>) {
    forall i, j :: 0 <= i < j < |ks| ==> ks[i] != ks[j]
  }

  /** The pivot cells listed in `ks`, added up. */
  function SumCells(ks: seq<GroupKey>, table: map<GroupKey, real>): real
    requires forall k :: k in ks ==> k in table
  {
    if ks == [] then 0.0 else table[ks[0]] + SumCells(ks[1..], table)
  }

  /** The reference group costs of the keys in `ks`, added up. */
  function SumGroupCosts(ks: seq<GroupKey>, rs: seq<Record>): real {
    if ks == [] then 0.0 else GroupCost(rs, ks[0]) + SumGroupCosts(ks[1..], rs)
  }

  /** What one record adds to the cells listed in `ks`. */
  function SumShare(ks: seq<GroupKey>, r: Record): real {
    if ks == [] then 0.0 else (if ks[0] == KeyOf(r) then r.cost else 0.0) + SumShare(ks[1..], r)
  }

  lemma {:induction false} SumShareOnce(ks: seq<GroupKey>, r: Record)
    requires Distinct(ks)
    ensures SumShare(ks, r) == if KeyOf(r) in ks then r.cost else 0.0
  {
    if ks != [] {
      SumShareOnce(ks[1..], r);
    }
  }

  lemma {:induction false} SumGroupCostsEmpty(ks: seq<GroupKey>)
    ensures SumGroupCosts(ks, []) == 0.0
  {
    if ks != [] {
      SumGroupCostsEmpty(ks[1..]);
    }
  }

  lemma {:induction false} SumGroupCostsCons(ks: seq<GroupKey>, rs: seq<Record>)
    requires rs != []
    ensures SumGroupCosts(ks, rs) == SumShare(ks, rs[0]) + SumGroupCosts(ks, rs[1..])
  {
    if ks != [] {
      SumGroupCostsCons(ks[1..], rs);
      assert rs == [rs[0]] + rs[1..];
      var k := ks[0];
      if KeyOf(rs[0]) == k {
        assert InGroup(rs, k) == [rs[0]] + InGroup(rs[1..], k);
      } else {
        assert InGroup(rs, k) == InGroup(rs[1..], k);
      }
    }
  }

  /** Adding up the group costs of a list of distinct keys that covers every record
      gives the total spend: every record is counted in exactly one group. */
  lemma {:induction false} GroupCostsAddUp(ks: seq<GroupKey>, rs: seq<Record>)
    requires Distinct(ks)
    requires forall r :: r in rs ==> KeyOf(r) in ks
    ensures SumGroupCosts(ks, rs) == TotalSpend(rs)
  {
    if rs == [] {
      SumGroupCostsEmpty(ks);
    } else {
      assert rs == [rs[0]] + rs[1..];
      SumGroupCostsCons(ks, rs);
      SumShareOnce(ks, rs[0]);
      GroupCostsAddUp(ks, rs[1..]);
    }
  }

  lemma {:induction false} SumCellsIsSumGroupCosts(ks: seq<GroupKey>, rs: seq<Record>)
    requires forall k :: k in ks ==> k in Pivot(rs)
    ensures SumCells(ks, Pivot(rs)) == SumGroupCosts(ks, rs)
  {
    if ks != [] {
      PivotCells(rs);
      SumCellsIsSumGroupCosts(ks[1..], rs);
    }
  }

  /** Every cell of the pivot, each counted once, adds up to the total spend. */
  lemma PivotAddsUpToTotal(rs: seq<Record>, ks: seq<GroupKey>)
    requires Distinct(ks)
    requires forall k :: k in ks <==> k in Pivot(rs)
    ensures SumCells(ks, Pivot(rs)) == TotalSpend(rs)
  {
    PivotCells(rs);
    SumCellsIsSumGroupCosts(ks, rs);
    assert forall r :: r in rs ==> KeyOf(r) in GroupKeys(rs);
    GroupCostsAddUp(ks, rs);
  }
}
