/**
 * The parsed workspace configuration as values, and the rewrite of its legacy
 * property names (`architect`, `builder`, `schematics`) into the current ones
 * (`targets`, `executor`, `generators`) that `readWorkspaceConfiguration`
 * performs. The in-place version of the rewrite is in module ParsedWorkspace
 * and is proved to compute `NormalizeWorkspace`.
 */
module WorkspaceConfig {
  import opened Wrappers
  import opened Paths
  import opened Json
  import opened Errors

  /**
   * The name of the workspace file in `root`: `angular.json` whenever that
   * file exists (the `fs.statSync` succeeds), else `workspace.json`.
   */
  function WorkspaceConfigName(existing: set<Path>, root: Path): (name: string)
    ensures name == "angular.json" <==> Join(root, "angular.json") in existing
    ensures name == "workspace.json" <==> Join(root, "angular.json") !in existing
  {
    if Join(root, "angular.json") in existing then "angular.json" else "workspace.json"
  }

  /** A target; `rest` stands for every other property (options, outputs, configurations). */
  datatype TargetDefinition = TargetDefinition(executor: Option<string>, builder: Option<string>, rest: Json)

  type TargetMap = Dict<TargetDefinition>

  /** A project; `rest` stands for every other property (root, prefix, sourceRoot). */
  datatype ProjectDefinition = ProjectDefinition(
    targets: Option<TargetMap>,
    architect: Option<TargetMap>,
    generators: Option<Json>,
    schematics: Option<Json>,
    rest: Json)

  /** A workspace; `rest` stands for every other property (defaultProject, cli, version). */
  datatype WorkspaceDefinition = WorkspaceDefinition(
    projects: Dict<ProjectDefinition>,
    generators: Option<Json>,
    schematics: Option<Json>,
    rest: Json)

  /** The executor a target names: `executor` when it is set, else the legacy `builder`. */
  function DesignatedExecutor(t: TargetDefinition): Option<string> {
    if !Truthy(t.executor) && Truthy(t.builder) then t.builder else t.executor
  }

  /** A target whose `builder` moves to an unset `executor`. */
  function NormalizeTarget(t: TargetDefinition): (r: TargetDefinition)
    ensures r.executor == DesignatedExecutor(t)
    ensures r.rest == t.rest
    ensures r.builder.Some? ==> r == t
    ensures Truthy(r.builder) ==> Truthy(r.executor)
    ensures Truthy(t.executor) || !Truthy(t.builder) ==> r == t
    ensures !Truthy(t.executor) && Truthy(t.builder) ==> r == t.(executor := t.builder, builder := None)
  {
    if !Truthy(t.executor) && Truthy(t.builder) then t.(executor := t.builder, builder := None) else t
  }

  function NormalizeTargetMap(ts: TargetMap): (r: TargetMap)
    ensures Keys(r) == Keys(ts)
    ensures |r| == |ts| && forall i :: 0 <= i < |ts| ==> r[i].1 == NormalizeTarget(ts[i].1)
  {
    seq(|ts|, i requires 0 <= i < |ts| => (ts[i].0, NormalizeTarget(ts[i].1)))
  }

  /** The rewrite can complete for this project: after `architect` moves, `targets` is set. */
  predicate HasTargets(p: ProjectDefinition) {
    p.targets.Some? || p.architect.Some?
  }

  /**
   * Lines 43-58 applied to one project: `architect` moves to an unset
   * `targets`, every target is normalised, `schematics` moves to an unset
   * `generators`. A project without either target map is left as it is
   * (the rewrite throws before changing it).
   */
  function NormalizeProject(p: ProjectDefinition): (r: ProjectDefinition)
    ensures r.rest == p.rest
    ensures !HasTargets(p) ==> r == p
    ensures HasTargets(p) ==> r.targets.Some?
  {
    if !HasTargets(p) then p
    else
      var p1 := if p.targets.None? && p.architect.Some? then p.(targets := p.architect, architect := None) else p;
      var p2 := p1.(targets := Some(NormalizeTargetMap(p1.targets.value)));
      if !Present(p2.generators) && Present(p2.schematics) then p2.(generators := p2.schematics, schematics := None)
      else p2
  }

  /** Index of the first project whose rewrite throws, or `|ps|` when there is none. */
  function FirstWithoutTargets(ps: Dict<ProjectDefinition>): (k: nat)
    ensures k <= |ps|
    ensures forall j :: 0 <= j < k ==> HasTargets(ps[j].1)
    ensures k < |ps| ==> !HasTargets(ps[k].1)
  {
    if ps == [] then 0
    else if !HasTargets(ps[0].1) then 0
    else 1 + FirstWithoutTargets(ps[1..])
  }

  /** The projects after the forEach of lines 42-59 has rewritten the first `k` of them. */
  function NormalizeProjectsBefore(ps: Dict<ProjectDefinition>, k: nat): (r: Dict<ProjectDefinition>)
    ensures Keys(r) == Keys(ps)
    ensures |r| == |ps|
    ensures forall i :: 0 <= i < |ps| ==> r[i].1 == if i < k then NormalizeProject(ps[i].1) else ps[i].1
  {
    seq(|ps|, i requires 0 <= i < |ps| => if i < k then (ps[i].0, NormalizeProject(ps[i].1)) else ps[i])
  }

  /** Rewriting project `k` after the first `k` extends the rewritten prefix by one. */
  lemma NormalizeProjectsStep(ps: Dict<ProjectDefinition>, k: nat)
    requires k < |ps|
    ensures NormalizeProjectsBefore(ps, k)[k := (ps[k].0, NormalizeProject(ps[k].1))] == NormalizeProjectsBefore(ps, k + 1)
  {
    var a := NormalizeProjectsBefore(ps, k)[k := (ps[k].0, NormalizeProject(ps[k].1))];
    var b := NormalizeProjectsBefore(ps, k + 1);
    forall i | 0 <= i < |ps| ensures a[i] == b[i] {
      assert Keys(a)[i] == Keys(b)[i] by {
        assert Keys(NormalizeProjectsBefore(ps, k))[i] == Keys(ps)[i];
      }
    }
  }

  /** Lines 61-64: the workspace's `schematics` moves to an unset `generators`. */
  function MoveSchematics(w: WorkspaceDefinition): (r: WorkspaceDefinition)
    ensures r.projects == w.projects && r.rest == w.rest
    ensures !Present(w.generators) && Present(w.schematics) ==> r.generators == w.schematics && r.schematics == None
    ensures Present(w.generators) || !Present(w.schematics) ==> r == w
  {
    if !Present(w.generators) && Present(w.schematics) then w.(generators := w.schematics, schematics := None) else w
  }

  /**
   * `readWorkspaceConfiguration` after parsing: every project is rewritten in
   * order, then the workspace's `schematics` moves to an unset `generators`.
   * `Object.values(undefined)` throws for the first project that has neither
   * `targets` nor `architect`.
   */
  function NormalizeWorkspace(w: WorkspaceDefinition): (r: Result<WorkspaceDefinition, Failure>)
    ensures r.Ok? <==> forall i :: 0 <= i < |w.projects| ==> HasTargets(w.projects[i].1)
    ensures r.Ok? ==> r.value.rest == w.rest && Keys(r.value.projects) == Keys(w.projects)
    ensures r.Ok? ==> |r.value.projects| == |w.projects|
    ensures r.Ok? ==> forall i :: 0 <= i < |w.projects| ==> r.value.projects[i].1 == NormalizeProject(w.projects[i].1)
  {
    var k := FirstWithoutTargets(w.projects);
    if k < |w.projects| then Err(TypeError("Cannot convert undefined or null to object"))
    else
      Ok(MoveSchematics(w.(projects := NormalizeProjectsBefore(w.projects, |w.projects|))))
  }

  // ---------------------------------------------------------------------------
  // The three rename rules

  /** `architect` becomes `targets` only when `targets` is unset; the targets kept are then normalised. */
  lemma ArchitectRule(p: ProjectDefinition)
    requires HasTargets(p)
    ensures p.targets.None? ==>
      NormalizeProject(p).targets == Some(NormalizeTargetMap(p.architect.value)) &&
      NormalizeProject(p).architect == None
    ensures p.targets.Some? ==>
      NormalizeProject(p).targets == Some(NormalizeTargetMap(p.targets.value)) &&
      NormalizeProject(p).architect == p.architect
  {
  }

  /** A project's `schematics` becomes `generators` only when `generators` is unset. */
  lemma ProjectSchematicsRule(p: ProjectDefinition)
    requires HasTargets(p)
    ensures !Present(p.generators) && Present(p.schematics) ==>
      NormalizeProject(p).generators == p.schematics && NormalizeProject(p).schematics == None
    ensures Present(p.generators) || !Present(p.schematics) ==>
      NormalizeProject(p).generators == p.generators && NormalizeProject(p).schematics == p.schematics
  {
  }

  /** The workspace's `schematics` becomes `generators` only when `generators` is unset. */
  lemma WorkspaceSchematicsRule(w: WorkspaceDefinition)
    requires NormalizeWorkspace(w).Ok?
    ensures !Present(w.generators) && Present(w.schematics) ==>
      NormalizeWorkspace(w).value.generators == w.schematics && NormalizeWorkspace(w).value.schematics == None
    ensures Present(w.generators) || !Present(w.schematics) ==>
      NormalizeWorkspace(w).value.generators == w.generators && NormalizeWorkspace(w).value.schematics == w.schematics
  {
  }

  // ---------------------------------------------------------------------------
  // Idempotence

  lemma NormalizeTargetIdempotent(t: TargetDefinition)
    ensures NormalizeTarget(NormalizeTarget(t)) == NormalizeTarget(t)
  {
  }

  lemma NormalizeProjectIdempotent(p: ProjectDefinition)
    ensures NormalizeProject(NormalizeProject(p)) == NormalizeProject(p)
  {
    if HasTargets(p) {
      var q := NormalizeProject(p);
      var ts := q.targets.value;
      assert NormalizeTargetMap(ts) == ts by {
        forall i | 0 <= i < |ts|
          ensures NormalizeTargetMap(ts)[i] == ts[i]
        {
          assert Keys(NormalizeTargetMap(ts))[i] == Keys(ts)[i];
          NormalizeTargetIdempotent(NormalizeTargetMap(if p.targets.Some? then p.targets.value else p.architect.value)[i].1);
        }
      }
    }
  }

  /** Rewriting an already rewritten workspace changes nothing. */
  lemma {:induction false} NormalizeWorkspaceIdempotent(w: WorkspaceDefinition)
    requires NormalizeWorkspace(w).Ok?
    ensures NormalizeWorkspace(NormalizeWorkspace(w).value) == NormalizeWorkspace(w)
  {
    var w1 := NormalizeWorkspace(w).value;
    var ps := w1.projects;
    forall i | 0 <= i < |ps|
      ensures HasTargets(ps[i].1) && NormalizeProject(ps[i].1) == ps[i].1
    {
      NormalizeProjectIdempotent(w.projects[i].1);
    }
    var ps2 := NormalizeProjectsBefore(ps, |ps|);
    assert ps2 == ps by {
      forall i | 0 <= i < |ps|
        ensures ps2[i] == ps[i]
      {
        assert Keys(ps2)[i] == Keys(ps)[i];
      }
    }
  }

  // ---------------------------------------------------------------------------
  // Legacy vocabulary is a synonym of the current one

  /** A target written with the current vocabulary only. */
  predicate CurrentTarget(t: TargetDefinition) {
    t.builder.None? && (t.executor.None? || Truthy(t.executor))
  }

  /** A project written with the current vocabulary only. */
  predicate CurrentProject(p: ProjectDefinition) {
    && p.targets.Some? && p.architect.None?
    && p.schematics.None? && (p.generators.None? || Present(p.generators))
    && forall i :: 0 <= i < |p.targets.value| ==> CurrentTarget(p.targets.value[i].1)
  }

  /** A workspace written with the current vocabulary only. */
  predicate CurrentWorkspace(w: WorkspaceDefinition) {
    && w.schematics.None? && (w.generators.None? || Present(w.generators))
    && forall i :: 0 <= i < |w.projects| ==> CurrentProject(w.projects[i].1)
  }

  function LegacyTarget(t: TargetDefinition): TargetDefinition {
    t.(executor := None, builder := t.executor)
  }

  function LegacyProject(p: ProjectDefinition): ProjectDefinition
    requires p.targets.Some?
  {
    var ts := p.targets.value;
    p.(targets := None,
       architect := Some(seq(|ts|, i requires 0 <= i < |ts| => (ts[i].0, LegacyTarget(ts[i].1)))),
       generators := None, schematics := p.generators)
  }

  /** The same workspace written with `architect`, `builder` and `schematics` only. */
  function LegacyWorkspace(w: WorkspaceDefinition): WorkspaceDefinition
    requires forall i :: 0 <= i < |w.projects| ==> w.projects[i].1.targets.Some?
  {
    var ps := w.projects;
    w.(projects := seq(|ps|, i requires 0 <= i < |ps| => (ps[i].0, LegacyProject(ps[i].1))),
       generators := None, schematics := w.generators)
  }

  lemma LegacyProjectNormalizes(p: ProjectDefinition)
    requires CurrentProject(p)
    ensures NormalizeProject(p) == p
    ensures NormalizeProject(LegacyProject(p)) == p
  {
    var ts := p.targets.value;
    assert NormalizeTargetMap(ts) == ts by {
      forall i | 0 <= i < |ts| ensures NormalizeTargetMap(ts)[i] == ts[i] {
        assert Keys(NormalizeTargetMap(ts))[i] == Keys(ts)[i];
      }
    }
    var ls := LegacyProject(p).architect.value;
    assert NormalizeTargetMap(ls) == ts by {
      forall i | 0 <= i < |ts| ensures NormalizeTargetMap(ls)[i] == ts[i] {
        assert Keys(NormalizeTargetMap(ls))[i] == Keys(ls)[i];
      }
    }
  }

  /**
   * A workspace that uses only the legacy names is rewritten into exactly the
   * workspace that uses only the current names, which the rewrite leaves alone.
   */
  lemma {:induction false} LegacySynonyms(w: WorkspaceDefinition)
    requires CurrentWorkspace(w)
    ensures NormalizeWorkspace(w) == Ok(w)
    ensures NormalizeWorkspace(LegacyWorkspace(w)) == Ok(w)
  {
    var ps := w.projects;
    var lw := LegacyWorkspace(w);
    forall i | 0 <= i < |ps|
      ensures NormalizeProject(ps[i].1) == ps[i].1
      ensures NormalizeProject(lw.projects[i].1) == ps[i].1
    {
      LegacyProjectNormalizes(ps[i].1);
    }
    assert NormalizeProjectsBefore(ps, |ps|) == ps by {
      forall i | 0 <= i < |ps| ensures NormalizeProjectsBefore(ps, |ps|)[i] == ps[i] {
        assert Keys(NormalizeProjectsBefore(ps, |ps|))[i] == Keys(ps)[i];
      }
    }
    var lps := lw.projects;
    assert NormalizeProjectsBefore(lps, |lps|) == ps by {
      forall i | 0 <= i < |ps| ensures NormalizeProjectsBefore(lps, |lps|)[i] == ps[i] {
        assert Keys(NormalizeProjectsBefore(lps, |lps|))[i] == Keys(lps)[i];
      }
    }
  }
}
