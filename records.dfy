/** The records the application passes between its screens (the Project and
    Document types of src/App.tsx). Money and measurements are exact reals. */
module Records {
  import Seqs

  datatype Option<T> = None | Some(value: T)

  /** Structure dimensions in metres; thickness is optional. */
  datatype Dimensions = Dimensions(length: real, breadth: real, height: real, thickness: Option<real>)

  /** One line of an estimate: a material, how much of it, at what rate. */
  datatype MaterialLine = MaterialLine(name: string, quantity: int, unit: string, rate: real, cost: real)

  datatype Project = Project(
    id: string,
    name: string,
    projectType: string,
    date: string,
    totalCost: real,
    dimensions: Dimensions,
    materials: seq<MaterialLine>,
    location: string)

  /** The two kinds a document may have ('bill' | 'document'). */
  datatype DocKind = Bill | Doc

  datatype Document = Document(id: string, title: string, date: string, projectId: string, kind: DocKind, fileType: string)

  function CostOf(line: MaterialLine): real { line.cost }

  /** materials.reduce((sum, m) => sum + m.cost, 0) */
  function SumCosts(lines: seq<MaterialLine>): (total: real)
    ensures lines == [] ==> total == 0.0
    ensures (forall i :: 0 <= i < |lines| ==> lines[i].cost >= 0.0) ==> total >= 0.0
  {
    Seqs.SumNonNegative(lines, CostOf);
    Seqs.Sum(lines, CostOf)
  }

  lemma SumCostsAppend(a: seq<MaterialLine>, b: seq<MaterialLine>)
    ensures SumCosts(a + b) == SumCosts(a) + SumCosts(b)
  {
    Seqs.SumAppend(a, b, CostOf);
  }

  lemma SumCostsSingle(s: seq<MaterialLine>)
    requires |s| == 1
    ensures SumCosts(s) == s[0].cost
  {
    assert s[..0] == [];
    assert Seqs.Sum(s, CostOf) == Seqs.Sum(s[..0], CostOf) + CostOf(s[0]);
  }

  /** A project's stored total agrees with the lines it lists. */
  predicate Consistent(p: Project)
  {
    p.totalCost == SumCosts(p.materials)
  }
}
