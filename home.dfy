/** The Home screen's overview (src/components/Home.tsx): the number of
    projects, their total budget and the three most recent estimates, each
    with the names of its first three materials. */
module Home {
  import opened Records
  import Seqs

  function Min(a: nat, b: nat): nat { if a <= b then a else b }

  function TotalCostOf(p: Project): real { p.totalCost }

  /** projects.reduce((sum, p) => sum + p.totalCost, 0) */
  function TotalBudget(projects: seq<Project>): (total: real)
    ensures (forall i :: 0 <= i < |projects| ==> projects[i].totalCost >= 0.0) ==> total >= 0.0
  {
    Seqs.SumNonNegative(projects, TotalCostOf);
    Seqs.Sum(projects, TotalCostOf)
  }

  /** projects.slice(0, 3) */
  function RecentProjects(projects: seq<Project>): (r: seq<Project>)
    ensures |r| == Min(3, |projects|)
    ensures forall i :: 0 <= i < |r| ==> r[i] == projects[i]
  {
    projects[..Min(3, |projects|)]
  }

  /** The names of a line list, in order. */
  function Names(lines: seq<MaterialLine>): (r: seq<string>)
    ensures |r| == |lines|
    ensures forall i :: 0 <= i < |r| ==> r[i] == lines[i].name
  {
    if lines == [] then [] else [lines[0].name] + Names(lines[1..])
  }

  /** project.materials.slice(0, 3).map((m) => m.name) */
  function MaterialChips(p: Project): (r: seq<string>)
    ensures |r| == Min(3, |p.materials|)
    ensures forall i :: 0 <= i < |r| ==> r[i] == p.materials[i].name
  {
    Names(p.materials[..Min(3, |p.materials|)])
  }

  lemma TotalBudgetEmpty()
    ensures TotalBudget([]) == 0.0
  {
  }

  /** Saving a project raises the count by one and the budget by its total,
      and puts it first among the recent estimates, ahead of at most two of
      the previous ones. */
  lemma SaveUpdatesOverview(p: Project, projects: seq<Project>)
    ensures |[p] + projects| == |projects| + 1
    ensures TotalBudget([p] + projects) == p.totalCost + TotalBudget(projects)
    ensures RecentProjects([p] + projects) == [p] + RecentProjects(projects)[..Min(2, |projects|)]
  {
    Seqs.SumCons(p, projects, TotalCostOf);
    var r := RecentProjects([p] + projects);
    assert forall i :: 0 <= i < |r| ==> r[i] == ([p] + RecentProjects(projects)[..Min(2, |projects|)])[i];
  }
}
