/**
 * The parsed workspace as the objects `JSON.parse` builds, and
 * `readWorkspaceConfiguration`'s rewrite of them in place. Each method is
 * proved to leave the objects holding the value that the functions of
 * module WorkspaceConfig compute from the value they held before.
 */
module ParsedWorkspace {
  import opened Wrappers
  import opened Json
  import opened Errors
  import opened WorkspaceConfig

  /** A parsed target object. */
  class TargetNode {
    var executor: Option<string>
    var builder: Option<string>
    const rest: Json

    constructor (executor: Option<string>, builder: Option<string>, rest: Json)
      ensures Value() == TargetDefinition(executor, builder, rest)
    {
      this.executor := executor;
      this.builder := builder;
      this.rest := rest;
    }

    function Value(): TargetDefinition
      reads this
    {
      TargetDefinition(executor, builder, rest)
    }

    /** Lines 49-52: an unset `executor` takes the value of `builder`, which is cleared. */
    method Normalize()
      modifies this
      ensures Value() == NormalizeTarget(old(Value()))
    {
      if !Truthy(executor) && Truthy(builder) {
        executor := builder;
        builder := None;
      }
    }
  }

  /** The entries of a parsed target map, in `Object.values` order. */
  type TargetNodes = seq<(string, TargetNode)>

  ghost function NodesOf(ts: TargetNodes): set<TargetNode> {
    set i | 0 <= i < |ts| :: ts[i].1
  }

  ghost function NodesOfOpt(ts: Option<TargetNodes>): set<TargetNode> {
    if ts.Some? then NodesOf(ts.value) else {}
  }

  /** No target object appears twice (`JSON.parse` shares no objects). */
  ghost predicate Distinct(ts: TargetNodes) {
    forall i, j :: 0 <= i < j < |ts| ==> ts[i].1 != ts[j].1
  }

  ghost function ValueOf(ts: TargetNodes): (r: TargetMap)
    reads NodesOf(ts)
    ensures |r| == |ts| && forall i :: 0 <= i < |ts| ==> r[i] == (ts[i].0, ts[i].1.Value())
  {
    seq(|ts|, i requires 0 <= i < |ts| reads NodesOf(ts) => (ts[i].0, ts[i].1.Value()))
  }

  /** Lines 48-53: every target of the map is normalised, in order. */
  method NormalizeTargets(ts: TargetNodes)
    requires Distinct(ts)
    modifies NodesOf(ts)
    ensures ValueOf(ts) == NormalizeTargetMap(old(ValueOf(ts)))
  {
    ghost var before := ValueOf(ts);
    var j := 0;
    while j < |ts|
      invariant 0 <= j <= |ts|
      invariant forall k :: 0 <= k < j ==> ts[k].1.Value() == NormalizeTarget(before[k].1)
      invariant forall k :: j <= k < |ts| ==> ts[k].1.Value() == before[k].1
    {
      assert ts[j].1 in NodesOf(ts);
      ts[j].1.Normalize();
      j := j + 1;
    }
  }

  /** A parsed project object. */
  class ProjectNode {
    var targets: Option<TargetNodes>
    var architect: Option<TargetNodes>
    var generators: Option<Json>
    var schematics: Option<Json>
    const rest: Json

    constructor (targets: Option<TargetNodes>, architect: Option<TargetNodes>,
                 generators: Option<Json>, schematics: Option<Json>, rest: Json)
      requires targets.Some? ==> Distinct(targets.value)
      requires architect.Some? ==> Distinct(architect.value)
      requires NodesOfOpt(targets) !! NodesOfOpt(architect)
      ensures Valid()
      ensures this.targets == targets && this.architect == architect
      ensures this.generators == generators && this.schematics == schematics && this.rest == rest
    {
      this.targets := targets;
      this.architect := architect;
      this.generators := generators;
      this.schematics := schematics;
      this.rest := rest;
    }

    /** The target objects reachable from this project. */
    ghost function Nodes(): set<TargetNode>
      reads this
    {
      NodesOfOpt(targets) + NodesOfOpt(architect)
    }

    ghost predicate Valid()
      reads this
    {
      && (targets.Some? ==> Distinct(targets.value))
      && (architect.Some? ==> Distinct(architect.value))
      && NodesOfOpt(targets) !! NodesOfOpt(architect)
    }

    ghost function Value(): ProjectDefinition
      reads this, Nodes()
    {
      ProjectDefinition(
        if targets.Some? then Some(ValueOf(targets.value)) else None,
        if architect.Some? then Some(ValueOf(architect.value)) else None,
        generators, schematics, rest)
    }

    /**
     * Lines 43-58 for this project. `ok` is false when the project has
     * neither `targets` nor `architect` (`Object.values(undefined)` throws);
     * the project is then unchanged.
     */
    method Normalize() returns (ok: bool)
      requires Valid()
      modifies this, Nodes()
      ensures Valid() && Nodes() <= old(Nodes())
      ensures ok == HasTargets(old(Value()))
      ensures Value() == NormalizeProject(old(Value()))
    {
      if targets.None? && architect.Some? {
        targets := architect;
        architect := None;
      }
      if targets.None? {
        return false;
      }
      ghost var mid := Value();
      NormalizeTargets(targets.value);
      assert architect.Some? ==> ValueOf(architect.value) == mid.architect.value;
      if !Present(generators) && Present(schematics) {
        generators := schematics;
        schematics := None;
      }
      ok := true;
    }
  }

  /** The parsed workspace object. */
  class WorkspaceNode {
    const projects: seq<(string, ProjectNode)>
    var generators: Option<Json>
    var schematics: Option<Json>
    const rest: Json

    constructor (projects: seq<(string, ProjectNode)>, generators: Option<Json>, schematics: Option<Json>, rest: Json)
      requires forall i, j :: 0 <= i < j < |projects| ==>
        projects[i].1 != projects[j].1 && projects[i].1.Nodes() !! projects[j].1.Nodes()
      requires forall i :: 0 <= i < |projects| ==> projects[i].1.Valid()
      ensures Valid()
      ensures this.projects == projects && this.generators == generators
      ensures this.schematics == schematics && this.rest == rest
    {
      this.projects := projects;
      this.generators := generators;
      this.schematics := schematics;
      this.rest := rest;
    }

    ghost function ProjectSet(): set<ProjectNode> {
      set i | 0 <= i < |projects| :: projects[i].1
    }

    /** Every object of the parsed workspace other than itself. */
    ghost function Repr(): (r: set<object>)
      reads ProjectSet()
      ensures this !in r
    {
      (set p: ProjectNode | p in ProjectSet() :: p as object) +
      (set p: ProjectNode, t: TargetNode | p in ProjectSet() && t in p.Nodes() :: t as object)
    }

    /** Projects are distinct objects that share no target object. */
    ghost predicate Valid()
      reads ProjectSet()
    {
      && (forall i, j :: 0 <= i < j < |projects| ==>
            projects[i].1 != projects[j].1 && projects[i].1.Nodes() !! projects[j].1.Nodes())
      && (forall i :: 0 <= i < |projects| ==> projects[i].1.Valid())
    }

    ghost function ProjectsValue(): Dict<ProjectDefinition>
      reads Repr()
    {
      seq(|projects|, i requires 0 <= i < |projects| reads Repr() => (projects[i].0, projects[i].1.Value()))
    }

    ghost function Value(): WorkspaceDefinition
      reads this, Repr()
    {
      WorkspaceDefinition(ProjectsValue(), generators, schematics, rest)
    }

    /** Lines 61-64. */
    method MoveSchematics()
      requires Valid()
      modifies this
      ensures Value() == WorkspaceConfig.MoveSchematics(old(Value()))
    {
      if !Present(generators) && Present(schematics) {
        generators := schematics;
        schematics := None;
      }
      assert ProjectsValue() == old(ProjectsValue());
    }
  }

  /** Lines 43-58 applied to the `i`-th project of `w`; the other projects keep their value. */
  method NormalizeProjectAt(w: WorkspaceNode, i: nat) returns (ok: bool)
    requires w.Valid() && i < |w.projects|
    modifies w.projects[i].1, w.projects[i].1.Nodes()
    ensures w.Valid()
    ensures forall k :: 0 <= k < |w.projects| ==> w.projects[k].1.Nodes() <= old(w.projects[k].1.Nodes())
    ensures ok == HasTargets(old(w.Value()).projects[i].1)
    ensures w.Value() == old(w.Value()).(projects := old(w.Value()).projects[i :=
      (w.projects[i].0, NormalizeProject(old(w.Value()).projects[i].1))])
  {
    var ps := w.projects;
    ghost var before := w.Value();
    ok := ps[i].1.Normalize();
    forall k | 0 <= k < |ps| && k != i
      ensures ps[k].1.Nodes() == old(ps[k].1.Nodes())
      ensures ps[k].1.Value() == before.projects[k].1
    {
    }
    assert w.Value().projects == before.projects[i := (ps[i].0, NormalizeProject(before.projects[i].1))];
  }

  /**
   * Lines 42-59: rewrites the projects of `w` in order, stopping at the first
   * one that has neither `targets` nor `architect` (`ok` is then false).
   */
  method NormalizeProjects(w: WorkspaceNode) returns (ok: bool)
    requires w.Valid()
    modifies w.Repr()
    ensures w.Valid()
    ensures ok == (FirstWithoutTargets(old(w.Value()).projects) == |w.projects|)
    ensures w.Value() == old(w.Value()).(projects :=
      NormalizeProjectsBefore(old(w.Value()).projects, FirstWithoutTargets(old(w.Value()).projects)))
  {
    ghost var before := w.Value();
    var ps := w.projects;
    var i := 0;
    while i < |ps|
      invariant 0 <= i <= |ps|
      invariant w.Valid()
      invariant forall k :: 0 <= k < |ps| ==> ps[k].1.Nodes() <= old(ps[k].1.Nodes())
      invariant forall k :: 0 <= k < i ==> HasTargets(before.projects[k].1)
      invariant w.Value() == before.(projects := NormalizeProjectsBefore(before.projects, i))
    {
      assert ps[i].1 in w.ProjectSet();
      assert old(ps[i].1.Nodes()) <= old(w.Repr());
      ghost var done := NormalizeProjectsBefore(before.projects, i);
      ok := NormalizeProjectAt(w, i);
      assert done[i] == before.projects[i];
      NormalizeProjectsStep(before.projects, i);
      if !ok {
        assert FirstWithoutTargets(before.projects) == i;
        return;
      }
      i := i + 1;
    }
    assert FirstWithoutTargets(before.projects) == |ps|;
    ok := true;
  }

  /**
   * `readWorkspaceConfiguration` after parsing: rewrites `w` in place and
   * returns it, or fails when a project has neither `targets` nor
   * `architect`; the projects before that one have then been rewritten.
   */
  method ReadWorkspaceConfiguration(w: WorkspaceNode) returns (r: Result<WorkspaceNode, Failure>)
    requires w.Valid()
    modifies w, w.Repr()
    ensures w.Valid()
    ensures r.Ok? <==> NormalizeWorkspace(old(w.Value())).Ok?
    ensures r.Ok? ==> r.value == w && w.Value() == NormalizeWorkspace(old(w.Value())).value
    ensures r.Err? ==>
      r.error == NormalizeWorkspace(old(w.Value())).error &&
      w.Value() == old(w.Value()).(projects :=
        NormalizeProjectsBefore(old(w.Value()).projects, FirstWithoutTargets(old(w.Value()).projects)))
  {
    ghost var before := w.Value();
    var ok := NormalizeProjects(w);
    if !ok {
      return Err(TypeError("Cannot convert undefined or null to object"));
    }
    w.MoveSchematics();
    r := Ok(w);
  }
}
