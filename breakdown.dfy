/** The Cost Breakdown screen (src/components/CostBreakdown.tsx): a local copy
    of the project's lines whose rates the user may edit, the running total,
    the pie-chart data with its colour cycle, and Recalculate. */
module Breakdown {
  import opened Records
  import Seqs

  /** The pie-slice palette. */
  const Colors: seq<string> := ["#1E88E5", "#FBC02D", "#43A047", "#E53935", "#8E24AA", "#FB8C00"]

  /** COLORS[index % COLORS.length] */
  function ColorAt(index: nat): (c: string)
    ensures c in Colors
  {
    Colors[index % |Colors|]
  }

  /** The palette repeats after six slices. */
  lemma ColorsCycle(index: nat)
    ensures ColorAt(index + |Colors|) == ColorAt(index)
  {
  }

  /** Any six consecutive slices get six different colours. */
  lemma NearbySlicesDiffer(i: nat, j: nat)
    requires i < j < i + |Colors|
    ensures ColorAt(i) != ColorAt(j)
  {
  }

  /** The rate `parseFloat(newRate) || 0` gives: the parsed number, or 0 when
      parsing yields NaN (None here). A parsed 0 is 0 either way. */
  function RateOrZero(parsed: Option<real>): (rate: real)
    ensures parsed.Some? ==> rate == parsed.value
    ensures parsed.None? ==> rate == 0.0
  {
    match parsed
    case Some(v) => v
    case None => 0.0
  }

  /** The lines after line index is given a new rate. */
  function WithRate(lines: seq<MaterialLine>, index: nat, rate: real): (r: seq<MaterialLine>)
    requires index < |lines|
    ensures |r| == |lines|
    ensures forall j :: 0 <= j < |r| && j != index ==> r[j] == lines[j]
    ensures r[index].name == lines[index].name && r[index].quantity == lines[index].quantity
    ensures r[index].unit == lines[index].unit
    ensures r[index].rate == rate && r[index].cost == lines[index].quantity as real * rate
  {
    lines[index := lines[index].(rate := rate, cost := lines[index].quantity as real * rate)]
  }

  /** WithRate is the point update the component writes with a spread. */
  lemma WithRateIsUpdate(lines: seq<MaterialLine>, index: nat, rate: real)
    requires index < |lines|
    ensures lines[index := lines[index].(rate := rate, cost := lines[index].quantity as real * rate)] == WithRate(lines, index, rate)
  {
    var updated := lines[index := lines[index].(rate := rate, cost := lines[index].quantity as real * rate)];
    var expected := WithRate(lines, index, rate);
    assert forall k :: 0 <= k < |updated| ==> updated[k] == expected[k];
  }

  /** A rate edit moves the total by exactly the change in that line's cost. */
  lemma WithRateTotal(lines: seq<MaterialLine>, index: nat, rate: real)
    requires index < |lines|
    ensures SumCosts(WithRate(lines, index, rate))
         == SumCosts(lines) - lines[index].cost + lines[index].quantity as real * rate
  {
    var line := lines[index].(rate := rate, cost := lines[index].quantity as real * rate);
    Seqs.SumUpdate(lines, index, line, CostOf);
    var updated := WithRate(lines, index, rate);
    assert forall k :: 0 <= k < |updated| ==> updated[k] == lines[index := line][k];
    assert updated == lines[index := line];
    assert CostOf(line) == lines[index].quantity as real * rate && CostOf(lines[index]) == lines[index].cost;
  }

  /** Edits of two different lines commute. */
  lemma WithRateCommute(lines: seq<MaterialLine>, i: nat, a: real, j: nat, b: real)
    requires i < |lines| && j < |lines| && i != j
    ensures WithRate(WithRate(lines, i, a), j, b) == WithRate(WithRate(lines, j, b), i, a)
  {
    var left, right := WithRate(WithRate(lines, i, a), j, b), WithRate(WithRate(lines, j, b), i, a);
    assert forall k :: 0 <= k < |left| ==> left[k] == right[k];
  }

  /** Of two edits of the same line only the second counts. */
  lemma WithRateLastWins(lines: seq<MaterialLine>, i: nat, a: real, b: real)
    requires i < |lines|
    ensures WithRate(WithRate(lines, i, a), i, b) == WithRate(lines, i, b)
  {
    var left, right := WithRate(WithRate(lines, i, a), i, b), WithRate(lines, i, b);
    assert forall k :: 0 <= k < |left| ==> left[k] == right[k];
  }

  /** Repeating an edit changes nothing. */
  lemma WithRateIdempotent(lines: seq<MaterialLine>, i: nat, a: real)
    requires i < |lines|
    ensures WithRate(WithRate(lines, i, a), i, a) == WithRate(lines, i, a)
  {
    WithRateLastWins(lines, i, a, a);
  }

  datatype ChartEntry = ChartEntry(name: string, value: real)

  function ValueOf(e: ChartEntry): real { e.value }

  /** materials.map((m) => ({ name: m.name, value: m.cost })) */
  function ChartData(materials: seq<MaterialLine>): (r: seq<ChartEntry>)
    ensures |r| == |materials|
    ensures forall i :: 0 <= i < |r| ==> r[i].name == materials[i].name && r[i].value == materials[i].cost
  {
    if materials == [] then []
    else [ChartEntry(materials[0].name, materials[0].cost)] + ChartData(materials[1..])
  }

  /** The slices of the pie add up to the displayed total. */
  lemma ChartTotal(materials: seq<MaterialLine>)
    ensures Seqs.Sum(ChartData(materials), ValueOf) == SumCosts(materials)
  {
    Seqs.SumPointwise(ChartData(materials), ValueOf, materials, CostOf);
  }

  class CostBreakdownView {
    const project: Project
    var materials: seq<MaterialLine>

    constructor (project: Project)
      ensures this.project == project && materials == project.materials
    {
      this.project := project;
      materials := project.materials;
    }

    /** The total shown on the screen: the sum of the current line costs,
        which is also the sum of the pie chart's slices. */
    function TotalCost(): (total: real)
      reads this
      ensures total == Seqs.Sum(ChartData(materials), ValueOf)
    {
      ChartTotal(materials);
      SumCosts(materials)
    }

    method HandleRateChange(index: nat, newRate: Option<real>)
      requires index < |materials|
      modifies this`materials
      ensures materials == WithRate(old(materials), index, RateOrZero(newRate))
      ensures TotalCost() == old(TotalCost()) - old(materials[index].cost) + materials[index].cost
    {
      var rate := RateOrZero(newRate);
      var lines := materials;
      WithRateIsUpdate(lines, index, rate);
      WithRateTotal(lines, index, rate);
      materials := lines[index := lines[index].(rate := rate, cost := lines[index].quantity as real * rate)];
    }

    /** The project sent back by Recalculate: the edited lines, their total,
        and every other field of the original project. */
    function HandleRecalculate(): (p: Project)
      reads this
      ensures p.materials == materials && Consistent(p)
      ensures p == project.(materials := materials, totalCost := p.totalCost)
    {
      project.(materials := materials, totalCost := SumCosts(materials))
    }
  }

  /** Recalculating without any edit returns the very project shown, when
      that project's total was consistent. */
  lemma RecalculateUnedited(view: CostBreakdownView)
    requires view.materials == view.project.materials && Consistent(view.project)
    ensures view.HandleRecalculate() == view.project
  {
  }
}
