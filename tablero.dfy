/** The live operations board: operators ranked by units produced, the top
    three on a podium and the rest in two interleaved columns of ranks. */
module Tablero {
  import opened Wrappers
  import opened Seqs
  import opened Records

  /** The comparator `b.units - a.units`: more units first. */
  function MoreUnits(): (Operator, Operator) -> bool {
    (a: Operator, b: Operator) => a.units >= b.units
  }

  /** `sortedOperators`: a permutation of the operators with the units never
      increasing along the list. */
  function SortedOperators(ops: seq<Operator>): (r: seq<Operator>)
    ensures multiset(r) == multiset(ops)
    ensures forall i, j :: 0 <= i < j < |r| ==> r[i].units >= r[j].units
  {
    assert Total(MoreUnits()) && Transitive(MoreUnits());
    SortBySorted(ops, MoreUnits());
    SortBy(ops, MoreUnits())
  }

  /** The first operator of the board produced at least as much as anyone. */
  lemma LeaderHasMostUnits(ops: seq<Operator>, k: nat)
    requires k < |ops|
    ensures SortedOperators(ops)[0].units >= ops[k].units
  {
    var r := SortedOperators(ops);
    assert ops[k] in multiset(r);
    var j :| 0 <= j < |r| && r[j] == ops[k];
  }

  /** `topThree` and `restOperators`: the board split after the third place. */
  function TopThree(ops: seq<Operator>): seq<Operator> {
    Take(SortedOperators(ops), 3)
  }

  function Rest(ops: seq<Operator>): seq<Operator> {
    Skip(SortedOperators(ops), 3)
  }

  /** The podium and the rest together are the whole board, and the podium
      has three places or as many operators as there are. */
  lemma SplitIsWholeBoard(ops: seq<Operator>)
    ensures TopThree(ops) + Rest(ops) == SortedOperators(ops)
    ensures |TopThree(ops)| == if |ops| < 3 then |ops| else 3
  {
  }

  // ----- The two columns -----

  /** `filter((_, i) => i % 2 === 0)`: the elements at even positions. */
  function EvenPositions<T>(s: seq<T>): (r: seq<T>)
    ensures |r| == (|s| + 1) / 2
    ensures forall i :: 0 <= i < |r| ==> r[i] == s[2 * i]
  {
    if s == [] then [] else [s[0]] + OddPositions(s[1..])
  }

  /** `filter((_, i) => i % 2 === 1)`: the elements at odd positions. */
  function OddPositions<T>(s: seq<T>): (r: seq<T>)
    ensures |r| == |s| / 2
    ensures forall i :: 0 <= i < |r| ==> r[i] == s[2 * i + 1]
  {
    if s == [] then [] else EvenPositions(s[1..])
  }

  /** The two columns take turns: together they hold every element once, and
      the left one is as long as the right one or one longer. */
  lemma {:induction false} ColumnsPartition<T>(s: seq<T>)
    ensures multiset(EvenPositions(s)) + multiset(OddPositions(s)) == multiset(s)
    ensures |EvenPositions(s)| == |OddPositions(s)| || |EvenPositions(s)| == |OddPositions(s)| + 1
  {
    if s != [] {
      ColumnsPartition(s[1..]);
      assert s == [s[0]] + s[1..];
    }
  }

  function LeftColumn(ops: seq<Operator>): seq<Operator> {
    EvenPositions(Rest(ops))
  }

  function RightColumn(ops: seq<Operator>): seq<Operator> {
    OddPositions(Rest(ops))
  }

  /** The rank printed for the `i`-th row of the left column. */
  function LeftRank(i: nat): (rank: nat)
    ensures rank >= 4 && rank % 2 == 0
  {
    4 + i * 2
  }

  /** The rank printed for the `i`-th row of the right column. */
  function RightRank(i: nat): (rank: nat)
    ensures rank >= 5 && rank % 2 == 1
  {
    5 + i * 2
  }

  /** The printed ranks are the operators' places on the board (counting
      from 1). */
  lemma RanksArePlaces(ops: seq<Operator>)
    ensures forall i :: 0 <= i < |LeftColumn(ops)| ==>
      LeftRank(i) <= |ops| && LeftColumn(ops)[i] == SortedOperators(ops)[LeftRank(i) - 1]
    ensures forall i :: 0 <= i < |RightColumn(ops)| ==>
      RightRank(i) <= |ops| && RightColumn(ops)[i] == SortedOperators(ops)[RightRank(i) - 1]
  {
    var sorted := SortedOperators(ops);
    if |sorted| > 3 {
      assert Rest(ops) == sorted[3..];
    }
  }

  // ----- The podium -----

  /** A podium place: its rank and the operator at `topThree[k]`, `None` when
      there are fewer operators than places. */
  datatype Place = Place(rank: nat, operator: Option<Operator>)

  function At(s: seq<Operator>, k: nat): Option<Operator> {
    if k < |s| then Some(s[k]) else None
  }

  /** The podium left to right: second, first, third. */
  function Podium(ops: seq<Operator>): (p: seq<Place>)
    ensures |p| == 3
    ensures p[0].rank == 2 && p[1].rank == 1 && p[2].rank == 3
  {
    var top := TopThree(ops);
    [Place(2, At(top, 1)), Place(1, At(top, 0)), Place(3, At(top, 2))]
  }

  /** Every place shows the operator with that rank, and is empty only when
      fewer operators than its rank exist. */
  lemma PodiumPlaces(ops: seq<Operator>)
    ensures forall k :: 0 <= k < 3 ==>
      var place := Podium(ops)[k];
      (place.operator.None? <==> |ops| < place.rank) &&
      (place.operator.Some? ==> place.operator.value == SortedOperators(ops)[place.rank - 1])
  {
  }
}
