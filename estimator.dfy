/** The New Estimate form (src/components/ProjectInput.tsx): the fixed material
    table, the per-material quantity formula, the material selection that the
    checkboxes toggle, and the project the Estimate button produces. */
module Estimator {
  import opened Records
  import Seqs

  datatype MaterialSpec = MaterialSpec(rate: real, unit: string)

  /** Rate (currency per unit) and unit label of every material on offer. */
  const MaterialRates: map<string, MaterialSpec> := map[
    "Cement" := MaterialSpec(450.0, "bags"),
    "Sand" := MaterialSpec(800.0, "m\U{00B3}"),
    "Gravel" := MaterialSpec(900.0, "m\U{00B3}"),
    "Steel" := MaterialSpec(65.0, "kg"),
    "Bricks" := MaterialSpec(8.0, "nos"),
    "Paint" := MaterialSpec(250.0, "liters")
  ]

  /** Quantity of material needed per cubic metre of volume; the switch's
      default gives 0 to a name it does not know. */
  function Factor(material: string): (f: real)
    ensures material in MaterialRates ==> f > 0.0
    ensures material !in MaterialRates ==> f == 0.0
  {
    if material == "Cement" then 1.33
    else if material == "Sand" then 0.42
    else if material == "Gravel" then 0.37
    else if material == "Steel" then 50.0
    else if material == "Bricks" then 500.0
    else if material == "Paint" then 0.5
    else 0.0
  }

  /** Math.ceil on exact reals: the least integer not below x. */
  function Ceil(x: real): (c: int)
    ensures x <= c as real < x + 1.0
  {
    -((-x).Floor)
  }

  /** The volume of the structure in cubic metres. */
  function Volume(l: real, b: real, h: real): (v: real)
    ensures l >= 0.0 && b >= 0.0 && h >= 0.0 ==> v >= 0.0
    ensures l == 0.0 || b == 0.0 || h == 0.0 ==> v == 0.0
  {
    l * b * h
  }

  /** The estimate line for one selected material. */
  function LineFor(material: string, volume: real): (line: MaterialLine)
    requires material in MaterialRates
    ensures line.name == material
    ensures line.unit == MaterialRates[material].unit && line.rate == MaterialRates[material].rate
    ensures volume * Factor(material) <= line.quantity as real < volume * Factor(material) + 1.0
    ensures line.cost == line.quantity as real * line.rate
  {
    var spec := MaterialRates[material];
    var quantity := Ceil(volume * Factor(material));
    MaterialLine(material, quantity, spec.unit, spec.rate, quantity as real * spec.rate)
  }

  predicate InTable(selected: seq<string>)
  {
    forall i :: 0 <= i < |selected| ==> selected[i] in MaterialRates
  }

  /** selectedMaterials.map(...): one line per selected material, in selection order. */
  function Lines(selected: seq<string>, volume: real): (r: seq<MaterialLine>)
    requires InTable(selected)
    ensures |r| == |selected|
    ensures forall i :: 0 <= i < |r| ==> r[i] == LineFor(selected[i], volume)
  {
    if selected == [] then []
    else [LineFor(selected[0], volume)] + Lines(selected[1..], volume)
  }

  /** projectName || `${projectType} Project` */
  function ProjectName(projectName: string, projectType: string): (r: string)
    ensures |r| > 0
    ensures |projectName| > 0 ==> r == projectName
    ensures |projectName| == 0 ==> r == projectType + " Project"
  {
    if projectName != "" then projectName else projectType + " Project"
  }

  /** location || 'Not specified' */
  function ProjectLocation(location: string): (r: string)
    ensures |r| > 0
    ensures |location| > 0 ==> r == location
    ensures |location| == 0 ==> r == "Not specified"
  {
    if location != "" then location else "Not specified"
  }

  /** selectedMaterials.filter((m) => m !== material) */
  function Removed(selected: seq<string>, material: string): (r: seq<string>)
    ensures |r| <= |selected|
    ensures forall i :: 0 <= i < |r| ==> r[i] in selected && r[i] != material
    ensures forall i :: 0 <= i < |selected| && selected[i] != material ==> selected[i] in r
  {
    Seqs.Filter(selected, (m: string) => m != material)
  }

  /** The selection after the checkbox of material is clicked. */
  function Toggled(selected: seq<string>, material: string): (r: seq<string>)
    ensures material in r <==> material !in selected
    ensures material !in selected ==> r == selected + [material]
    ensures forall i :: 0 <= i < |r| ==> r[i] == material || r[i] in selected
  {
    if material in selected then Removed(selected, material) else selected + [material]
  }

  /** Clicking a checkbox flips that material's membership and no other. */
  lemma ToggleFlipsMembership(selected: seq<string>, material: string, x: string)
    ensures x in Toggled(selected, material) <==> (if x == material then material !in selected else x in selected)
  {
  }

  /** Removing a material keeps the other elements, with their multiplicities,
      in their original order, and drops every occurrence of it. */
  lemma {:induction false} RemovedKeepsOthers(selected: seq<string>, material: string)
    ensures material !in Removed(selected, material)
    ensures Seqs.IsSubsequence(Removed(selected, material), selected)
    ensures forall x :: x != material ==> multiset(Removed(selected, material))[x] == multiset(selected)[x]
  {
    var keep := (m: string) => m != material;
    var other := (m: string) => m == material;
    Seqs.FilterIsSubsequence(selected, keep);
    Seqs.FilterPartition(selected, keep, other);
    var dropped := Seqs.Filter(selected, other);
    forall x | x != material
      ensures multiset(dropped)[x] == 0
    {
      assert x !in dropped;
    }
  }

  /** Appending a material and clicking it again restores the selection. */
  lemma ToggleTwiceRestores(selected: seq<string>, material: string)
    requires material !in selected
    ensures Toggled(Toggled(selected, material), material) == selected
  {
    var keep := (m: string) => m != material;
    assert material in selected + [material];
    Seqs.FilterAppend(selected, [material], keep);
    Seqs.FilterAll(selected, keep);
    assert Seqs.Filter([material], keep) == [];
  }

  /** Toggling a table material keeps every selected name in the table. */
  lemma ToggleStaysInTable(selected: seq<string>, material: string)
    requires InTable(selected) && material in MaterialRates
    ensures InTable(Toggled(selected, material))
  {
  }

  /** Selecting one more material appends exactly its line and its cost. */
  lemma LinesAppend(selected: seq<string>, material: string, volume: real)
    requires InTable(selected) && material in MaterialRates
    ensures InTable(selected + [material])
    ensures Lines(selected + [material], volume) == Lines(selected, volume) + [LineFor(material, volume)]
    ensures SumCosts(Lines(selected + [material], volume)) == SumCosts(Lines(selected, volume)) + LineFor(material, volume).cost
  {
  }

  /** For a non-negative volume every table material needs a non-negative
      quantity at a non-negative cost. */
  lemma QuantityNonNegative(material: string, volume: real)
    requires material in MaterialRates && volume >= 0.0
    ensures LineFor(material, volume).quantity >= 0 && LineFor(material, volume).cost >= 0.0
  {
  }

  /** 20 m x 15 m x 3 m with cement: ceil(900 * 1.33) = 1197 bags at 450 each. */
  lemma CementExample()
    ensures Volume(20.0, 15.0, 3.0) == 900.0
    ensures LineFor("Cement", 900.0).quantity == 1197
    ensures LineFor("Cement", 900.0).cost == 538650.0
  {
  }

  /** The state of the New Estimate form. The text fields hold what the user
      typed; their onChange handlers are plain assignments to these fields. */
  class EstimateForm {
    var projectType: string
    var length: string
    var breadth: string
    var height: string
    var thickness: string
    var location: string
    var projectName: string
    var selectedMaterials: seq<string>

    /** The class invariant: only table materials are ever selected, because
        the checkboxes are generated from the table. It holds in every state
        of the form, unlike IsValid below, which is the source's own
        condition for enabling the Estimate button. */
    predicate Valid()
      reads this
    {
      InTable(selectedMaterials)
    }

    constructor ()
      ensures Valid()
      ensures projectType == "Building" && projectName == "" && location == ""
      ensures length == "" && breadth == "" && height == "" && thickness == ""
      ensures selectedMaterials == ["Cement", "Sand", "Gravel"]
    {
      projectType := "Building";
      length, breadth, height, thickness := "", "", "", "";
      location, projectName := "", "";
      selectedMaterials := ["Cement", "Sand", "Gravel"];
    }

    method ToggleMaterial(material: string)
      requires Valid() && material in MaterialRates
      modifies this`selectedMaterials
      ensures Valid()
      ensures selectedMaterials == Toggled(old(selectedMaterials), material)
    {
      ToggleStaysInTable(selectedMaterials, material);
      if material in selectedMaterials {
        selectedMaterials := Removed(selectedMaterials, material);
      } else {
        selectedMaterials := selectedMaterials + [material];
      }
    }

    /** The source's isValid: the Estimate button is enabled exactly when this
        holds. Unlike Valid, it changes as the user fills in the form. */
    predicate IsValid()
      reads this
    {
      length != "" && breadth != "" && height != "" && |selectedMaterials| > 0
    }

    /** The project the Estimate button hands on. l, b, h and t are the parsed
        length, breadth, height and thickness fields; id and date stand for
        the clock readings the source takes. */
    function CalculateQuantities(l: real, b: real, h: real, t: real, id: string, date: string): (p: Project)
      reads this
      requires Valid() && IsValid()
      ensures |p.materials| == |selectedMaterials| > 0
      ensures forall i :: 0 <= i < |p.materials| ==> p.materials[i] == LineFor(selectedMaterials[i], Volume(l, b, h))
      ensures Consistent(p)
      ensures p.name == ProjectName(projectName, projectType) && p.location == ProjectLocation(location)
      ensures p.id == id && p.projectType == projectType && p.date == date
      ensures p.dimensions == Dimensions(l, b, h, if thickness == "" then None else Some(t))
    {
      var materials := Lines(selectedMaterials, Volume(l, b, h));
      Project(
        id,
        ProjectName(projectName, projectType),
        projectType,
        date,
        SumCosts(materials),
        Dimensions(l, b, h, if thickness != "" then Some(t) else None),
        materials,
        ProjectLocation(location))
    }
  }

  /** The Estimate button is enabled exactly when the three dimension fields
      are filled in and the estimate would have at least one line. */
  lemma EstimateEnabled(form: EstimateForm, l: real, b: real, h: real)
    requires form.Valid()
    ensures form.IsValid() <==> form.length != "" && form.breadth != "" && form.height != ""
                                && Lines(form.selectedMaterials, Volume(l, b, h)) != []
  {
  }

  /** The thickness field is recorded but does not enter any quantity or cost. */
  lemma ThicknessIgnored(form: EstimateForm, l: real, b: real, h: real, t1: real, t2: real, id: string, date: string)
    requires form.Valid() && form.IsValid()
    ensures form.CalculateQuantities(l, b, h, t1, id, date).materials == form.CalculateQuantities(l, b, h, t2, id, date).materials
    ensures form.CalculateQuantities(l, b, h, t1, id, date).totalCost == form.CalculateQuantities(l, b, h, t2, id, date).totalCost
  {
  }
}
