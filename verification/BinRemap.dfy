/** Remapping variable-width price bins onto integer prices (rtb-bid-model/src/experiments/eval_bins_v2.py). */
module BinRemap {
  import opened Arithmetic

  function RealMin(a: real, b: real): real {
    if a <= b then a else b
  }

  function RealMax(a: real, b: real): real {
    if a >= b then a else b
  }

  /** Integer cell `j` is the prices that round to `j`; the first starts at zero. */
  function CellLo(j: nat): real {
    if j == 0 then 0.0 else j as real - 0.5
  }

  function CellHi(j: nat): real {
    j as real + 0.5
  }

  /** Length of the part of `[lo, hi)` inside `[from, to)`. */
  function Overlap(lo: real, hi: real, from: real, to: real): real {
    RealMax(0.0, RealMin(hi, to) - RealMax(lo, from))
  }

  /** The share of the bin `[lo, hi)` that lies in `[from, to)`; an empty bin gives none. */
  function Share(lo: real, hi: real, from: real, to: real): real {
    if hi <= lo then 0.0 else Over(Overlap(lo, hi, from, to), hi - lo)
  }

  /** The transfer matrix: which share of bin `k` goes to integer `j`. */
  function Weight(edges: seq<real>, k: nat, j: nat): real
    requires k + 1 < |edges|
  {
    Share(edges[k], edges[k + 1], CellLo(j), CellHi(j))
  }

  function Ceil(x: real): int {
    -(-x).Floor
  }

  /** The loop over `floor(lo) .. ceil(hi)` leaves no cell out: outside it nothing overlaps. */
  lemma LoopMissesNoCell(lo: real, hi: real, j: nat)
    requires j < lo.Floor || j > Ceil(hi)
    ensures Overlap(lo, hi, CellLo(j), CellHi(j)) == 0.0
  {
    if j < lo.Floor {
      assert (j + 1) as real <= lo.Floor as real <= lo;
    } else {
      assert j as real >= Ceil(hi) as real + 1.0 && Ceil(hi) as real >= hi;
    }
  }

  /** Fills the transfer matrix bin by bin, visiting only the cells between a bin's edges. */
  method Transfer(edges: seq<real>, cells: nat) returns (w: array2<real>)
    requires |edges| >= 1 && cells >= 1
    ensures fresh(w) && w.Length0 == |edges| - 1 && w.Length1 == cells
    ensures forall k, j :: 0 <= k < |edges| - 1 && 0 <= j < cells ==> w[k, j] == Weight(edges, k, j)
  {
    var bins := |edges| - 1;
    w := new real[bins, cells]((k, j) => 0.0);
    for k := 0 to bins
      invariant forall a, j :: 0 <= a < k && 0 <= j < cells ==> w[a, j] == Weight(edges, a, j)
      invariant forall a, j :: k <= a < bins && 0 <= j < cells ==> w[a, j] == 0.0
    {
      var lo, hi := edges[k], edges[k + 1];
      if hi <= lo {
        continue;
      }
      var binWidth := hi - lo;
      var j0 := if lo.Floor > 0 then lo.Floor else 0;
      var j1 := if Ceil(hi) < cells - 1 then Ceil(hi) else cells - 1;
      var j := j0;
      while j <= j1
        invariant j0 <= j
        invariant forall a, b :: 0 <= a < k && 0 <= b < cells ==> w[a, b] == Weight(edges, a, b)
        invariant forall a, b :: k < a < bins && 0 <= b < cells ==> w[a, b] == 0.0
        invariant forall b :: 0 <= b < cells ==> w[k, b] == if j0 <= b < j && b <= j1 then Weight(edges, k, b) else 0.0
        decreases j1 - j
      {
        var overlap := Overlap(lo, hi, CellLo(j), CellHi(j));
        if overlap > 0.0 {
          w[k, j] := Over(overlap, binWidth);
        } else {
          NoOverlapNoShare(lo, hi, CellLo(j), CellHi(j));
        }
        j := j + 1;
      }
      forall b | 0 <= b < cells ensures w[k, b] == Weight(edges, k, b) {
        if b < j0 || b > j1 {
          LoopMissesNoCell(lo, hi, b);
          NoOverlapNoShare(lo, hi, CellLo(b), CellHi(b));
        }
      }
    }
  }

  lemma NoOverlapNoShare(lo: real, hi: real, from: real, to: real)
    requires Overlap(lo, hi, from, to) <= 0.0
    ensures Share(lo, hi, from, to) == 0.0
  {
    hide Over;
    if lo < hi {
      OverUnits(hi - lo);
    }
  }

  // ---------- one bin ----------

  /** Row sum of the transfer matrix over the first `m` integers. */
  function RowShare(edges: seq<real>, k: nat, m: nat): real
    requires k + 1 < |edges|
  {
    if m == 0 then 0.0 else RowShare(edges, k, m - 1) + Weight(edges, k, m - 1)
  }

  /** Where the first `m` integer cells end. */
  function CellsEnd(m: nat): real {
    if m == 0 then 0.0 else CellHi(m - 1)
  }

  lemma SharesAdd(lo: real, hi: real, m: nat)
    ensures Share(lo, hi, 0.0, CellsEnd(m)) + Share(lo, hi, CellLo(m), CellHi(m)) == Share(lo, hi, 0.0, CellsEnd(m + 1))
  {
    if lo < hi {
      var a, b, c := Overlap(lo, hi, 0.0, CellsEnd(m)), Overlap(lo, hi, CellLo(m), CellHi(m)),
        Overlap(lo, hi, 0.0, CellsEnd(m + 1));
      assert CellLo(m) == CellsEnd(m) && CellHi(m) == CellsEnd(m + 1);
      OverlapsAdd(lo, hi, CellsEnd(m), CellsEnd(m + 1));
      hide Over;
      OverAdds(a, b, hi - lo);
    }
  }

  lemma OverlapsAdd(lo: real, hi: real, mid: real, to: real)
    requires lo < hi && 0.0 <= mid <= to
    ensures Overlap(lo, hi, 0.0, mid) + Overlap(lo, hi, mid, to) == Overlap(lo, hi, 0.0, to)
  {
  }

  /** Adjacent cells neither overlap nor leave gaps: the first `m` of them receive exactly the share of the bin that
      lies between zero and their end. */
  lemma {:induction false} RowShareIsTheCoveredShare(edges: seq<real>, k: nat, m: nat)
    requires k + 1 < |edges|
    ensures RowShare(edges, k, m) == Share(edges[k], edges[k + 1], 0.0, CellsEnd(m))
  {
    if m > 0 {
      RowShareIsTheCoveredShare(edges, k, m - 1);
      SharesAdd(edges[k], edges[k + 1], m - 1);
      hide Share, CellHi, CellLo;
    }
  }

  /** A row sums to 1 exactly when the bin is not empty and lies inside the cells; a bin that sticks out loses mass,
      and an empty or reversed one sums to nothing. */
  lemma RowSumsToOneExactlyInRange(edges: seq<real>, k: nat, cells: nat)
    requires k + 1 < |edges| && cells >= 1
    ensures 0.0 <= RowShare(edges, k, cells) <= 1.0
    ensures RowShare(edges, k, cells) == 1.0 <==>
      edges[k] < edges[k + 1] && 0.0 <= edges[k] && edges[k + 1] <= cells as real - 0.5
    ensures edges[k] >= edges[k + 1] ==> RowShare(edges, k, cells) == 0.0
  {
    hide Over;
    RowShareIsTheCoveredShare(edges, k, cells);
    var lo, hi := edges[k], edges[k + 1];
    if lo < hi {
      ShareIsAFraction(lo, hi, CellsEnd(cells));
    }
  }

  lemma ShareIsAFraction(lo: real, hi: real, to: real)
    requires lo < hi && to > 0.0
    ensures 0.0 <= Share(lo, hi, 0.0, to) <= 1.0
    ensures Share(lo, hi, 0.0, to) == 1.0 <==> 0.0 <= lo && hi <= to
    ensures to <= lo ==> Share(lo, hi, 0.0, to) == 0.0
  {
    hide Over;
    var overlap, w := Overlap(lo, hi, 0.0, to), hi - lo;
    OverUnits(w);
    OverCompares(overlap, w, w);
    OverSign(overlap, w);
  }

  // ---------- the whole distribution ----------

  /** Mass that the first `bins` bins send to integer `j`. */
  function Column(p: seq<real>, edges: seq<real>, bins: nat, j: nat): real
    requires bins <= |p| && bins < |edges|
  {
    if bins == 0 then 0.0 else Column(p, edges, bins - 1, j) + Times(p[bins - 1], Weight(edges, bins - 1, j))
  }

  /** Mass at the first `m` integers, before normalising. */
  function Cumulative(p: seq<real>, edges: seq<real>, bins: nat, m: nat): real
    requires bins <= |p| && bins < |edges|
  {
    if m == 0 then 0.0 else Cumulative(p, edges, bins, m - 1) + Column(p, edges, bins, m - 1)
  }

  /** Mass between zero and `x` of the source, whose mass is spread evenly inside each bin. */
  function SourceMass(p: seq<real>, edges: seq<real>, bins: nat, x: real): real
    requires bins <= |p| && bins < |edges|
  {
    if bins == 0 then 0.0
    else SourceMass(p, edges, bins - 1, x) + Times(p[bins - 1], Share(edges[bins - 1], edges[bins], 0.0, x))
  }

  lemma {:induction false} NoBinsNoMass(p: seq<real>, edges: seq<real>, m: nat)
    requires |edges| > 0
    ensures Cumulative(p, edges, 0, m) == 0.0
  {
    if m > 0 {
      NoBinsNoMass(p, edges, m - 1);
    }
  }

  /** Summing the columns of the first `m` integers is summing the rows up to there. */
  lemma {:induction false} CumulativeByRows(p: seq<real>, edges: seq<real>, bins: nat, m: nat)
    requires 0 < bins <= |p| && bins < |edges|
    ensures Cumulative(p, edges, bins, m)
      == Cumulative(p, edges, bins - 1, m) + Times(p[bins - 1], RowShare(edges, bins - 1, m))
  {
    hide Weight, Times;
    if m > 0 {
      CumulativeByRows(p, edges, bins, m - 1);
      TimesAdds(RowShare(edges, bins - 1, m - 1), Weight(edges, bins - 1, m - 1), p[bins - 1]);
    } else {
      TimesUnits(p[bins - 1]);
    }
  }

  /** Remapping preserves the distribution: the mass at integers up to `j` is the mass the piecewise-linear source puts
      between zero and `j + 0.5`, whatever the edges and the probabilities. */
  lemma {:induction false} RemappingPreservesTheCdf(p: seq<real>, edges: seq<real>, bins: nat, j: nat)
    requires bins <= |p| && bins < |edges|
    ensures Cumulative(p, edges, bins, j + 1) == SourceMass(p, edges, bins, j as real + 0.5)
  {
    hide Share, Times, Column, Cumulative, RowShare;
    if bins == 0 {
      NoBinsNoMass(p, edges, j + 1);
    } else {
      RemappingPreservesTheCdf(p, edges, bins - 1, j);
      CumulativeByRows(p, edges, bins, j + 1);
      RowShareIsTheCoveredShare(edges, bins - 1, j + 1);
    }
  }

  predicate Increasing(edges: seq<real>) {
    forall i, j :: 0 <= i < j < |edges| ==> edges[i] < edges[j]
  }

  /** At an edge the source CDF is the plain sum of the bins before it; so the cells up to an edge that ends one
      receive exactly those bins. */
  lemma {:induction false} SourceMassAtAnEdge(p: seq<real>, edges: seq<real>, bins: nat, at: nat)
    requires bins <= |p| && bins < |edges| && at < |edges| && Increasing(edges) && edges[0] >= 0.0
    ensures SourceMass(p, edges, bins, edges[at]) == Mass(p, if at < bins then at else bins)
  {
    hide Share, Times;
    if bins > 0 {
      var lo, hi := edges[bins - 1], edges[bins];
      SourceMassAtAnEdge(p, edges, bins - 1, at);
      assert lo < hi && 0.0 <= lo;
      WholeOrNothing(lo, hi, edges[at]);
      TimesUnits(p[bins - 1]);
    }
  }

  lemma WholeOrNothing(lo: real, hi: real, x: real)
    requires 0.0 <= lo < hi && x >= 0.0
    ensures x >= hi ==> Share(lo, hi, 0.0, x) == 1.0
    ensures x <= lo ==> Share(lo, hi, 0.0, x) == 0.0
  {
    hide Over;
    if x > 0.0 {
      ShareIsAFraction(lo, hi, x);
    } else {
      OverUnits(hi - lo);
    }
  }

  /** Increasing edges inside the cells lose nothing: the remapped mass is the source's mass. */
  lemma {:induction false} InRangeMassIsKept(p: seq<real>, edges: seq<real>, bins: nat, cells: nat)
    requires bins <= |p| && bins < |edges| && Increasing(edges)
    requires edges[0] >= 0.0 && edges[|edges| - 1] <= cells as real - 0.5
    ensures Cumulative(p, edges, bins, cells) == Mass(p, bins)
  {
    hide RowShare, Cumulative, Times;
    if bins == 0 {
      NoBinsNoMass(p, edges, cells);
    } else {
      InRangeMassIsKept(p, edges, bins - 1, cells);
      CumulativeByRows(p, edges, bins, cells);
      assert edges[0] <= edges[bins - 1] < edges[bins] <= edges[|edges| - 1];
      CellsForARange(edges, cells);
      RowSumsToOneExactlyInRange(edges, bins - 1, cells);
      TimesUnits(p[bins - 1]);
    }
  }

  lemma CellsForARange(edges: seq<real>, cells: nat)
    requires edges != [] && 0.0 <= edges[0] <= edges[|edges| - 1] <= cells as real - 0.5
    ensures cells >= 1
  {
  }

  // ---------- normalising ----------

  const TINY: real := 0.000000000000000000000000000001

  function Remapped(p: seq<real>, edges: seq<real>, cells: nat): (r: seq<real>)
    requires |edges| == |p| + 1
    ensures |r| == cells
  {
    var total := Cumulative(p, edges, |p|, cells);
    seq(cells, j requires 0 <= j => Over(Column(p, edges, |p|, j), RealMax(total, TINY)))
  }

  lemma {:induction false} NormalisedSum(p: seq<real>, edges: seq<real>, cells: nat, m: nat)
    requires |edges| == |p| + 1 && m <= cells
    ensures Mass(Remapped(p, edges, cells), m)
         == Over(Cumulative(p, edges, |p|, m), RealMax(Cumulative(p, edges, |p|, cells), TINY))
  {
    hide Over, Column;
    var total := RealMax(Cumulative(p, edges, |p|, cells), TINY);
    OverUnits(total);
    if m > 0 {
      NormalisedSum(p, edges, cells, m - 1);
      hide Cumulative;
      OverAdds(Cumulative(p, edges, |p|, m - 1), Column(p, edges, |p|, m - 1), total);
      CumulativeStep(p, edges, m);
    }
  }

  lemma CumulativeStep(p: seq<real>, edges: seq<real>, m: nat)
    requires |edges| == |p| + 1 && m > 0
    ensures Cumulative(p, edges, |p|, m) == Cumulative(p, edges, |p|, m - 1) + Column(p, edges, |p|, m - 1)
  {
  }

  /** The result sums to 1 exactly when the cells received at least the smallest allowed total, and its CDF at `j` is
      then the source's mass below `j + 0.5` relative to the mass inside the cells. */
  lemma RemappedIsADistribution(p: seq<real>, edges: seq<real>, cells: nat, j: nat)
    requires |edges| == |p| + 1 && j < cells
    ensures var total, r := Cumulative(p, edges, |p|, cells), Remapped(p, edges, cells);
            && (Mass(r, cells) == 1.0 <==> total >= TINY)
            && Mass(r, j + 1) == Over(SourceMass(p, edges, |p|, j as real + 0.5), RealMax(total, TINY))
  {
    hide Cumulative, SourceMass, Mass, Remapped, Over;
    NormalisedSum(p, edges, cells, cells);
    NormalisedSum(p, edges, cells, j + 1);
    RemappingPreservesTheCdf(p, edges, |p|, j);
    var total := Cumulative(p, edges, |p|, cells);
    OverUnits(RealMax(total, TINY));
    OverCompares(total, RealMax(total, TINY), RealMax(total, TINY));
  }

  /** For a distribution on increasing edges inside the cells normalising changes nothing. */
  lemma NormalisingIsIdle(p: seq<real>, edges: seq<real>, cells: nat, j: nat)
    requires |edges| == |p| + 1 && Increasing(edges) && Mass(p, |p|) == 1.0 && j < cells
    requires edges[0] >= 0.0 && edges[|edges| - 1] <= cells as real - 0.5
    ensures Remapped(p, edges, cells)[j] == Column(p, edges, |p|, j)
  {
    hide Cumulative, Column, Mass, Over;
    InRangeMassIsKept(p, edges, |p|, cells);
    OverIsUnique(Column(p, edges, |p|, j), Column(p, edges, |p|, j), 1.0) by {
      TimesUnits(Column(p, edges, |p|, j));
    }
  }
}
