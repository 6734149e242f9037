/** The machine comparison page: the selection of at most five machines,
    the performance badge, best / worst / average OEE and the comparison
    table's order. */
module Comparativa {
  import opened Wrappers
  import opened Seqs

  /** One machine's performance figures (percentages; downtime in hours). */
  datatype MachinePerformance = MachinePerformance(
    machineId: string,
    machineName: string,
    efficiency: real,
    production: int,
    downtime: real,
    quality: real,
    oee: real)

  // ----- The selection -----

  const MaxSelected: nat := 5

  /** No machine name occurs twice. */
  ghost predicate NoDuplicates(s: seq<string>) {
    forall x :: multiset(s)[x] <= 1
  }

  /** The selection's invariant: at most five machines, none twice. */
  ghost predicate ValidSelection(s: seq<string>) {
    |s| <= MaxSelected && NoDuplicates(s)
  }

  function Other(machine: string): string -> bool {
    (m: string) => m != machine
  }

  /** `toggleMachine(machine)` on the previous selection. */
  function Toggled(prev: seq<string>, machine: string): (r: seq<string>)
    ensures machine in prev ==>
      machine !in r && SubseqOf(r, prev) && forall x :: x != machine ==> multiset(r)[x] == multiset(prev)[x]
    ensures machine !in prev && |prev| < MaxSelected ==> r == prev + [machine]
    ensures machine !in prev && |prev| >= MaxSelected ==> r == prev
  {
    if machine in prev then
      FilterIsSubseq(prev, Other(machine));
      FilterCounts(prev, Other(machine));
      Filter(prev, Other(machine))
    else if |prev| < MaxSelected then prev + [machine]
    else prev
  }

  /** Toggling keeps the selection valid. */
  lemma ToggleKeepsValid(prev: seq<string>, machine: string)
    requires ValidSelection(prev)
    ensures ValidSelection(Toggled(prev, machine))
  {
    var r := Toggled(prev, machine);
    if machine in prev {
      assert |r| <= |prev|;
    } else if |prev| < MaxSelected {
      assert multiset(r) == multiset(prev) + multiset{machine};
    }
  }

  /** Adding an absent machine and toggling it again restores the selection. */
  lemma ToggleTwiceRestores(prev: seq<string>, machine: string)
    requires machine !in prev && |prev| < MaxSelected
    ensures Toggled(Toggled(prev, machine), machine) == prev
  {
    FilterAppend(prev, [machine], Other(machine));
    FilterAll(prev, Other(machine));
    assert Filter([machine], Other(machine)) == [];
  }

  class Selection {
    var selected: seq<string>

    /** The page opens with M1, M2 and M3 selected. */
    constructor ()
      ensures selected == ["M1", "M2", "M3"]
      ensures ValidSelection(selected)
    {
      selected := ["M1", "M2", "M3"];
    }

    method ToggleMachine(machine: string)
      modifies this
      ensures selected == Toggled(old(selected), machine)
    {
      selected := Toggled(selected, machine);
    }
  }

  // ----- The performance badge -----

  datatype Badge = Excelente | EnMeta | BajoMeta

  /** `getPerformanceBadge(value, threshold)`. */
  function PerformanceBadge(value: real, threshold: real): (b: Badge)
    ensures b == Excelente <==> value >= threshold + 5.0
    ensures b == EnMeta <==> threshold <= value < threshold + 5.0
    ensures b == BajoMeta <==> value < threshold
  {
    if value >= threshold + 5.0 then Excelente
    else if value >= threshold then EnMeta
    else BajoMeta
  }

  function BadgeRank(b: Badge): nat {
    match b
    case BajoMeta => 0
    case EnMeta => 1
    case Excelente => 2
  }

  /** A higher value never earns a lower badge. */
  lemma BadgeMonotone(v1: real, v2: real, threshold: real)
    requires v1 <= v2
    ensures BadgeRank(PerformanceBadge(v1, threshold)) <= BadgeRank(PerformanceBadge(v2, threshold))
  {
  }

  // ----- Best, worst and average -----

  /** The accumulator of `reduce((best, current) => current.oee > best.oee ?
      current : best)`, as an index: the first machine with the highest OEE. */
  function BestIndex(s: seq<MachinePerformance>): (k: nat)
    requires s != []
    ensures k < |s|
    ensures forall j :: 0 <= j < |s| ==> s[j].oee <= s[k].oee
    ensures forall j :: 0 <= j < k ==> s[j].oee < s[k].oee
    decreases |s|
  {
    if |s| == 1 then 0
    else
      var b := BestIndex(s[..|s| - 1]);
      if s[|s| - 1].oee > s[b].oee then |s| - 1 else b
  }

  /** The same for `worstMachine`: the first machine with the lowest OEE. */
  function WorstIndex(s: seq<MachinePerformance>): (k: nat)
    requires s != []
    ensures k < |s|
    ensures forall j :: 0 <= j < |s| ==> s[k].oee <= s[j].oee
    ensures forall j :: 0 <= j < k ==> s[k].oee < s[j].oee
    decreases |s|
  {
    if |s| == 1 then 0
    else
      var w := WorstIndex(s[..|s| - 1]);
      if s[|s| - 1].oee < s[w].oee then |s| - 1 else w
  }

  /** `bestMachine`; `reduce` without a seed throws on an empty list, which
      is `None`. */
  function BestMachine(s: seq<MachinePerformance>): (r: Option<MachinePerformance>)
    ensures r.None? <==> s == []
    ensures r.Some? ==> r.value in s && forall m :: m in s ==> m.oee <= r.value.oee
  {
    if s == [] then None else Some(s[BestIndex(s)])
  }

  function WorstMachine(s: seq<MachinePerformance>): (r: Option<MachinePerformance>)
    ensures r.None? <==> s == []
    ensures r.Some? ==> r.value in s && forall m :: m in s ==> r.value.oee <= m.oee
  {
    if s == [] then None else Some(s[WorstIndex(s)])
  }

  function OeeSum(s: seq<MachinePerformance>): real {
    if s == [] then 0.0 else s[0].oee + OeeSum(s[1..])
  }

  lemma {:induction false} OeeSumBounds(s: seq<MachinePerformance>, lo: real, hi: real)
    requires forall j :: 0 <= j < |s| ==> lo <= s[j].oee <= hi
    ensures |s| as real * lo <= OeeSum(s) <= |s| as real * hi
  {
    if s != [] {
      OeeSumBounds(s[1..], lo, hi);
    }
  }

  lemma MeanBounds(sum: real, n: real, lo: real, hi: real)
    requires n > 0.0 && n * lo <= sum <= n * hi
    ensures lo <= sum / n <= hi
  {
    assert (sum / n) * n == sum;
  }

  /** The mean of values within bounds lies within the bounds. */
  lemma MeanWithin(s: seq<MachinePerformance>, lo: real, hi: real)
    requires s != []
    requires forall j :: 0 <= j < |s| ==> lo <= s[j].oee <= hi
    ensures lo <= OeeSum(s) / |s| as real <= hi
  {
    OeeSumBounds(s, lo, hi);
    MeanBounds(OeeSum(s), |s| as real, lo, hi);
  }

  /** The mean OEE of a non-empty list lies between its worst and best
      machine's OEE. */
  lemma MeanBetween(s: seq<MachinePerformance>)
    requires s != []
    ensures WorstMachine(s).value.oee <= OeeSum(s) / |s| as real <= BestMachine(s).value.oee
  {
    MeanWithin(s, s[WorstIndex(s)].oee, s[BestIndex(s)].oee);
  }

  /** `avgOee`; the empty list gives `0 / 0`, which is `None`. The average
      lies between the worst and the best machine's OEE. */
  function AvgOee(s: seq<MachinePerformance>): (r: Option<real>)
    ensures r.None? <==> s == []
    ensures r.Some? ==> WorstMachine(s).value.oee <= r.value <= BestMachine(s).value.oee
  {
    if s == [] then None
    else
      MeanBetween(s);
      Some(OeeSum(s) / |s| as real)
  }

  // ----- The comparison table -----

  /** `(a, b) => b.oee - a.oee`, as "`a` may come before `b`". */
  function HigherOee(): (MachinePerformance, MachinePerformance) -> bool {
    (a: MachinePerformance, b: MachinePerformance) => b.oee - a.oee <= 0.0
  }

  function IsSelectedIn(selected: seq<string>): MachinePerformance -> bool {
    (m: MachinePerformance) => m.machineName in selected
  }

  /** The table rows: the selected machines, by non-increasing OEE. */
  function TableRows(data: seq<MachinePerformance>, selected: seq<string>): (r: seq<MachinePerformance>)
    ensures multiset(r) == multiset(Filter(data, IsSelectedIn(selected)))
    ensures forall m :: m in r ==> m.machineName in selected && m in data
    ensures forall i, j :: 0 <= i < j < |r| ==> r[i].oee >= r[j].oee
  {
    var shown := Filter(data, IsSelectedIn(selected));
    assert Total(HigherOee()) && Transitive(HigherOee());
    SortBySorted(shown, HigherOee());
    var r := SortBy(shown, HigherOee());
    forall m | m in r
      ensures m.machineName in selected && m in data
    {
      assert m in multiset(r);
      assert m in shown;
    }
    r
  }
}
