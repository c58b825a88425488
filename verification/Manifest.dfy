/** The declarative form of a domain, and how it becomes the engine's step tables. */
module Manifest {
  import opened Basics
  import opened Values
  import opened Workflows

  // ----- A decoded manifest file -----

  datatype IntentSpec = IntentSpec(nodeId: string, examples: seq<string>, entryWorkflowRef: string,
                                   deprecatedEntryStepRef: string)
  {
    function EntryWorkflow(): string
    {
      if entryWorkflowRef != "" then entryWorkflowRef else deprecatedEntryStepRef
    }

    predicate ConflictingEntry()
    {
      entryWorkflowRef != "" && deprecatedEntryStepRef != "" && entryWorkflowRef != deprecatedEntryStepRef
    }
  }

  datatype PolicySpec = PolicySpec(id: string, fallback: string)

  datatype StepSpec = StepSpec(
    id: string, kind: string, actionRef: string, params: Context, probeRef: string, policyRef: string,
    onSuccess: string, subRef: string, branches: seq<string>, compensateWith: string)

  datatype WorkflowSpec = WorkflowSpec(id: string, entry: string, steps: seq<StepSpec>)

  datatype File = File(name: string, intents: seq<IntentSpec>, policies: seq<PolicySpec>, workflows: seq<WorkflowSpec>)

  // ----- Actions by name -----

  datatype Made = Made(action: Action) | Misconfigured(reason: string)

  /** A standard action is made from the step's parameters. */
  type Factory = Context -> Made

  type Library = map<string, Factory>

  type Hooks = map<string, Action>

  // ----- What loading yields -----

  datatype IntentNode = IntentNode(nodeId: string, domain: string, examples: seq<string>, entryWorkflowRef: string)

  datatype Domain = Domain(name: string, intents: seq<IntentNode>, workflows: seq<Workflow>, policies: seq<Policy>)

  datatype LoadError =
    | MissingName
    | ConflictingIntent(node: string)
    | BadParameters(workflow: string, step: string, action: string, reason: string)
    | UnregisteredAction(workflow: string, step: string, action: string)
    | NoSubWorkflow(workflow: string, step: string)
    | NoBranchesListed(workflow: string, step: string)
    | EmptyBranch(workflow: string, step: string)
    | BranchTwice(workflow: string, step: string, branch: string)
    | BadType(workflow: string, step: string, kind: string)

  datatype Result<T> = Ok(value: T) | Err(error: LoadError)

  /** The standard library comes first, so a hook cannot shadow it. */
  function ResolveAction(wf: string, spec: StepSpec, hooks: Hooks, std: Library): Result<Action>
  {
    if spec.actionRef in std then
      match std[spec.actionRef](spec.params)
      case Made(action) => Ok(action)
      case Misconfigured(reason) => Err(BadParameters(wf, spec.id, spec.actionRef, reason))
    else if spec.actionRef in hooks then Ok(hooks[spec.actionRef])
    else Err(UnregisteredAction(wf, spec.id, spec.actionRef))
  }

  /** What is wrong with the branches from `i` on, first problem first. */
  function BranchProblem(wf: string, spec: StepSpec, i: nat): (p: Option<LoadError>)
    requires i <= |spec.branches|
    decreases |spec.branches| - i
  {
    if i == |spec.branches| then None
    else if spec.branches[i] == "" then Some(EmptyBranch(wf, spec.id))
    else if spec.branches[i] in spec.branches[..i] then Some(BranchTwice(wf, spec.id, spec.branches[i]))
    else BranchProblem(wf, spec, i + 1)
  }

  function Built(wf: string, spec: StepSpec, hooks: Hooks, std: Library): Result<Step>
  {
    if spec.kind == "leaf" then
      match ResolveAction(wf, spec, hooks, std)
      case Err(e) => Err(e)
      case Ok(action) => Ok(Leaf(spec.id, action, spec.probeRef, spec.policyRef, spec.onSuccess, spec.compensateWith))
    else if spec.kind == "composite" then
      if spec.subRef == "" then Err(NoSubWorkflow(wf, spec.id))
      else Ok(Composite(spec.id, spec.subRef, spec.policyRef, spec.onSuccess))
    else if spec.kind == "parallel" then
      if spec.branches == [] then Err(NoBranchesListed(wf, spec.id))
      else
        match BranchProblem(wf, spec, 0)
        case Some(e) => Err(e)
        case None => Ok(Parallel(spec.id, spec.branches, spec.policyRef, spec.onSuccess))
    else Err(BadType(wf, spec.id, spec.kind))
  }

  /** The step table once the specs from `i` on are entered too; a later spec replaces an earlier one of the same id. */
  function BuiltFrom(wf: string, specs: seq<StepSpec>, i: nat, table: map<string, Step>, hooks: Hooks,
                     std: Library): (r: Result<map<string, Step>>)
    requires i <= |specs|
    decreases |specs| - i
  {
    if i == |specs| then Ok(table)
    else
      match Built(wf, specs[i], hooks, std)
      case Err(e) => Err(e)
      case Ok(step) => BuiltFrom(wf, specs, i + 1, table[specs[i].id := step], hooks, std)
  }

  function WorkflowsFrom(specs: seq<WorkflowSpec>, i: nat, built: seq<Workflow>, hooks: Hooks,
                         std: Library): (r: Result<seq<Workflow>>)
    requires i <= |specs|
    decreases |specs| - i
  {
    if i == |specs| then Ok(built)
    else
      match BuiltFrom(specs[i].id, specs[i].steps, 0, map[], hooks, std)
      case Err(e) => Err(e)
      case Ok(table) => WorkflowsFrom(specs, i + 1, built + [Workflow(specs[i].id, "", specs[i].entry, table)], hooks,
                                      std)
  }

  function IntentOf(name: string, i: IntentSpec): IntentNode
  {
    IntentNode(i.nodeId, name, i.examples, i.EntryWorkflow())
  }

  function IntentsFrom(name: string, specs: seq<IntentSpec>, i: nat,
                       nodes: seq<IntentNode>): (r: Result<seq<IntentNode>>)
    requires i <= |specs|
    decreases |specs| - i
  {
    if i == |specs| then Ok(nodes)
    else if specs[i].ConflictingEntry() then Err(ConflictingIntent(specs[i].nodeId))
    else IntentsFrom(name, specs, i + 1, nodes + [IntentOf(name, specs[i])])
  }

  function PoliciesOf(specs: seq<PolicySpec>): (ps: seq<Policy>)
    ensures |ps| == |specs|
  {
    seq(|specs|, i requires 0 <= i < |specs| => Policy(specs[i].id, specs[i].fallback))
  }

  /** What loading the file yields: its domain, or the first problem found. */
  function LoadOf(file: File, hooks: Hooks, std: Library): Result<Domain>
  {
    if file.name == "" then Err(MissingName)
    else
      match IntentsFrom(file.name, file.intents, 0, [])
      case Err(e) => Err(e)
      case Ok(intents) =>
        match WorkflowsFrom(file.workflows, 0, [], hooks, std)
        case Err(e) => Err(e)
        case Ok(workflows) => Ok(Domain(file.name, intents, workflows, PoliciesOf(file.policies)))
  }

  // ----- Loading as it is done -----

  method CheckBranches(wf: string, spec: StepSpec) returns (problem: Option<LoadError>)
    ensures problem == BranchProblem(wf, spec, 0)
    ensures problem.None? <==> BranchesFine(spec.branches)
    ensures problem.Some? ==> IsBranchProblem(wf, spec, problem.value)
  {
    BranchProblemExactly(wf, spec);
    var seen: set<string> := {};
    for i := 0 to |spec.branches|
      invariant forall b :: b in seen <==> b in spec.branches[..i]
      invariant BranchProblem(wf, spec, 0) == BranchProblem(wf, spec, i)
    {
      var branch := spec.branches[i];
      if branch == "" {
        return Some(EmptyBranch(wf, spec.id));
      }
      if branch in seen {
        return Some(BranchTwice(wf, spec.id, branch));
      }
      seen := seen + {branch};
    }
    problem := None;
  }

  method BuildStep(wf: string, spec: StepSpec, hooks: Hooks, std: Library) returns (r: Result<Step>)
    ensures r == Built(wf, spec, hooks, std)
    ensures r.Ok? <==> Buildable(spec, hooks, std)
    ensures r.Ok? ==> IsBuilt(spec, r.value, hooks, std)
    ensures r.Err? ==> IsProblem(wf, spec, hooks, std, r.error)
  {
    BuiltExactly(wf, spec, hooks, std);
    match spec.kind {
      case "leaf" =>
        var action := ResolveAction(wf, spec, hooks, std);
        match action {
          case Err(e) => r := Err(e);
          case Ok(run) =>
            r := Ok(Leaf(spec.id, run, spec.probeRef, spec.policyRef, spec.onSuccess, spec.compensateWith));
        }
      case "composite" =>
        if spec.subRef == "" {
          return Err(NoSubWorkflow(wf, spec.id));
        }
        r := Ok(Composite(spec.id, spec.subRef, spec.policyRef, spec.onSuccess));
      case "parallel" =>
        if |spec.branches| == 0 {
          return Err(NoBranchesListed(wf, spec.id));
        }
        var problem := CheckBranches(wf, spec);
        if problem.Some? {
          return Err(problem.value);
        }
        r := Ok(Parallel(spec.id, spec.branches, spec.policyRef, spec.onSuccess));
      case _ =>
        r := Err(BadType(wf, spec.id, spec.kind));
    }
  }

  method Load(file: File, hooks: Hooks, std: Library) returns (r: Result<Domain>)
    ensures r == LoadOf(file, hooks, std)
    ensures r.Ok? <==> Loadable(file, hooks, std)
    ensures r.Ok? ==> IsLoaded(file, r.value, hooks, std)
    ensures r.Err? ==> IsFirstProblem(file, hooks, std, r.error)
  {
    LoadExactly(file, hooks, std);
    hide Loadable, IsLoaded, IsFirstProblem;
    if file.name == "" {
      return Err(MissingName);
    }
    var intents: seq<IntentNode> := [];
    for i := 0 to |file.intents|
      invariant IntentsFrom(file.name, file.intents, 0, []) == IntentsFrom(file.name, file.intents, i, intents)
    {
      if file.intents[i].ConflictingEntry() {
        return Err(ConflictingIntent(file.intents[i].nodeId));
      }
      intents := intents + [IntentOf(file.name, file.intents[i])];
    }
    var policies: seq<Policy> := [];
    for i := 0 to |file.policies|
      invariant policies == PoliciesOf(file.policies[..i])
    {
      policies := policies + [Policy(file.policies[i].id, file.policies[i].fallback)];
    }
    assert file.policies[..|file.policies|] == file.policies;
    var workflows: seq<Workflow> := [];
    for i := 0 to |file.workflows|
      invariant WorkflowsFrom(file.workflows, 0, [], hooks, std)
                == WorkflowsFrom(file.workflows, i, workflows, hooks, std)
    {
      var wf := file.workflows[i];
      var steps: map<string, Step> := map[];
      for j := 0 to |wf.steps|
        invariant BuiltFrom(wf.id, wf.steps, 0, map[], hooks, std) == BuiltFrom(wf.id, wf.steps, j, steps, hooks, std)
      {
        var step := BuildStep(wf.id, wf.steps[j], hooks, std);
        if step.Err? {
          return Err(step.error);
        }
        steps := steps[wf.steps[j].id := step.value];
      }
      workflows := workflows + [Workflow(wf.id, "", wf.entry, steps)];
    }
    r := Ok(Domain(file.name, intents, workflows, policies));
  }

  // ----- What loading means -----

  /** Every branch has a name of its own. */
  ghost predicate BranchesFine(branches: seq<string>)
  {
    "" !in branches && forall i, j :: 0 <= i < j < |branches| ==> branches[i] != branches[j]
  }

  ghost predicate Buildable(spec: StepSpec, hooks: Hooks, std: Library)
  {
    if spec.kind == "leaf" then
      if spec.actionRef in std then std[spec.actionRef](spec.params).Made? else spec.actionRef in hooks
    else if spec.kind == "composite" then spec.subRef != ""
    else spec.kind == "parallel" && spec.branches != [] && BranchesFine(spec.branches)
  }

  /** The action a leaf names: the standard one of that name, made from its parameters, or else the hook. */
  ghost predicate IsAction(spec: StepSpec, run: Action, hooks: Hooks, std: Library)
  {
    if spec.actionRef in std then std[spec.actionRef](spec.params) == Made(run)
    else spec.actionRef in hooks && run == hooks[spec.actionRef]
  }

  /** The step says what the spec says, field by field. */
  ghost predicate IsBuilt(spec: StepSpec, step: Step, hooks: Hooks, std: Library)
  {
    && Buildable(spec, hooks, std) && !step.Foreign? && step.id == spec.id && step.policyRef == spec.policyRef
    && step.onSuccess == spec.onSuccess
    && (step.Leaf? <==> spec.kind == "leaf") && (step.Composite? <==> spec.kind == "composite")
    && (step.Parallel? <==> spec.kind == "parallel")
    && (step.Leaf? ==> step.probeRef == spec.probeRef && step.compensateRef == spec.compensateWith
                       && IsAction(spec, step.run, hooks, std))
    && (step.Composite? ==> step.subRef == spec.subRef)
    && (step.Parallel? ==> step.branches == spec.branches)
  }

  /** Branch `k` is the first that is empty or was listed before. */
  ghost predicate FirstBadBranch(branches: seq<string>, k: nat)
  {
    k < |branches| && BranchesFine(branches[..k]) && (branches[k] == "" || branches[k] in branches[..k])
  }

  ghost predicate IsBranchProblem(wf: string, spec: StepSpec, e: LoadError)
  {
    exists k: nat :: FirstBadBranch(spec.branches, k)
                     && e == if spec.branches[k] == "" then EmptyBranch(wf, spec.id)
                             else BranchTwice(wf, spec.id, spec.branches[k])
  }

  /** What is wrong with a step that cannot be built. */
  ghost predicate IsProblem(wf: string, spec: StepSpec, hooks: Hooks, std: Library, e: LoadError)
  {
    if spec.kind == "leaf" then
      if spec.actionRef in std then
        var made := std[spec.actionRef](spec.params);
        made.Misconfigured? && e == BadParameters(wf, spec.id, spec.actionRef, made.reason)
      else e == UnregisteredAction(wf, spec.id, spec.actionRef)
    else if spec.kind == "composite" then e == NoSubWorkflow(wf, spec.id)
    else if spec.kind != "parallel" then e == BadType(wf, spec.id, spec.kind)
    else if spec.branches == [] then e == NoBranchesListed(wf, spec.id)
    else IsBranchProblem(wf, spec, e)
  }

  lemma {:induction false} BranchesAreFine(wf: string, spec: StepSpec, i: nat)
    requires i <= |spec.branches| && BranchesFine(spec.branches[..i])
    ensures BranchProblem(wf, spec, i).None? <==> BranchesFine(spec.branches)
    ensures var p := BranchProblem(wf, spec, i); p.Some? ==> IsBranchProblem(wf, spec, p.value)
    decreases |spec.branches| - i
  {
    hide BranchesFine;
    if i == |spec.branches| {
      assert spec.branches[..i] == spec.branches;
    } else {
      OneMoreBranch(spec.branches, i);
      if BranchProblem(wf, spec, i) != BranchProblem(wf, spec, i + 1) || spec.branches[i] == ""
         || spec.branches[i] in spec.branches[..i] {
        assert FirstBadBranch(spec.branches, i);
      } else {
        BranchesAreFine(wf, spec, i + 1);
      }
    }
  }

  lemma OneMoreBranch(branches: seq<string>, i: nat)
    requires i < |branches| && BranchesFine(branches[..i])
    ensures BranchesFine(branches[..i + 1]) <==> branches[i] != "" && branches[i] !in branches[..i]
    ensures !BranchesFine(branches[..i + 1]) ==> !BranchesFine(branches)
  {
    assert branches[..i + 1] == branches[..i] + [branches[i]];
  }

  lemma BranchProblemExactly(wf: string, spec: StepSpec)
    ensures BranchProblem(wf, spec, 0).None? <==> BranchesFine(spec.branches)
    ensures var p := BranchProblem(wf, spec, 0); p.Some? ==> IsBranchProblem(wf, spec, p.value)
  {
    BranchesAreFine(wf, spec, 0);
  }

  /** A step is built exactly when it can be, and then says what the spec says; otherwise the error says what is wrong.
      */
  lemma BuiltExactly(wf: string, spec: StepSpec, hooks: Hooks, std: Library)
    ensures var r := Built(wf, spec, hooks, std);
            && (r.Ok? <==> Buildable(spec, hooks, std))
            && (r.Ok? ==> IsBuilt(spec, r.value, hooks, std))
            && (r.Err? ==> IsProblem(wf, spec, hooks, std, r.error))
  {
    hide BranchesFine, IsBranchProblem, BranchProblem;
    BranchProblemExactly(wf, spec);
  }

  /** `j` is the last spec of that id among the first `n`. */
  ghost predicate LastSpec(specs: seq<StepSpec>, n: nat, id: string, j: nat)
    requires n <= |specs|
  {
    j < n && specs[j].id == id && forall k :: j < k < n ==> specs[k].id != id
  }

  /** The table holds, under each id among the first `n` specs, the step built from the last one of that id. */
  ghost predicate TableOf(specs: seq<StepSpec>, n: nat, table: map<string, Step>, hooks: Hooks, std: Library)
    requires n <= |specs|
  {
    && (forall id :: id in table ==>
          exists j: nat :: LastSpec(specs, n, id, j) && IsBuilt(specs[j], table[id], hooks, std))
    && (forall j :: 0 <= j < n ==> specs[j].id in table)
  }

  /** Spec `k` is the first from `i` on that cannot be built, for this reason. */
  ghost predicate FirstBadStep(wf: string, specs: seq<StepSpec>, i: nat, k: nat, hooks: Hooks, std: Library,
                               e: LoadError)
  {
    && k < |specs| && (forall j :: i <= j < k ==> Buildable(specs[j], hooks, std))
    && !Buildable(specs[k], hooks, std) && IsProblem(wf, specs[k], hooks, std, e)
  }

  lemma {:induction false} StepsExactly(wf: string, specs: seq<StepSpec>, i: nat, table: map<string, Step>,
                                        hooks: Hooks, std: Library)
    requires i <= |specs| && TableOf(specs, i, table, hooks, std)
    ensures var r := BuiltFrom(wf, specs, i, table, hooks, std);
            && (r.Ok? <==> forall k :: i <= k < |specs| ==> Buildable(specs[k], hooks, std))
            && (r.Ok? ==> TableOf(specs, |specs|, r.value, hooks, std))
            && (r.Err? ==> exists k: nat :: i <= k && FirstBadStep(wf, specs, i, k, hooks, std, r.error))
    decreases |specs| - i
  {
    hide TableOf, Built, Buildable, IsBuilt, IsProblem;
    if i < |specs| {
      BuiltExactly(wf, specs[i], hooks, std);
      var built := Built(wf, specs[i], hooks, std);
      if built.Ok? {
        TableGrows(specs, i, table, built.value, hooks, std);
        StepsExactly(wf, specs, i + 1, table[specs[i].id := built.value], hooks, std);
        var r := BuiltFrom(wf, specs, i + 1, table[specs[i].id := built.value], hooks, std);
        if r.Err? {
          var k: nat :| i + 1 <= k && FirstBadStep(wf, specs, i + 1, k, hooks, std, r.error);
          assert FirstBadStep(wf, specs, i, k, hooks, std, r.error);
        }
      } else {
        assert FirstBadStep(wf, specs, i, i, hooks, std, built.error);
      }
    }
  }

  lemma TableGrows(specs: seq<StepSpec>, i: nat, table: map<string, Step>, step: Step, hooks: Hooks, std: Library)
    requires i < |specs| && TableOf(specs, i, table, hooks, std) && IsBuilt(specs[i], step, hooks, std)
    ensures TableOf(specs, i + 1, table[specs[i].id := step], hooks, std)
  {
    hide IsBuilt;
    var next := table[specs[i].id := step];
    forall id | id in next
      ensures exists j: nat :: LastSpec(specs, i + 1, id, j) && IsBuilt(specs[j], next[id], hooks, std)
    {
      if id == specs[i].id {
        assert LastSpec(specs, i + 1, id, i);
      } else {
        var j: nat :| LastSpec(specs, i, id, j) && IsBuilt(specs[j], table[id], hooks, std);
        assert LastSpec(specs, i + 1, id, j);
      }
    }
  }

  /** One workflow of the domain is one workflow of the file, in order. */
  ghost predicate LoadedAs(spec: WorkflowSpec, wf: Workflow, hooks: Hooks, std: Library)
  {
    wf.id == spec.id && wf.entry == spec.entry && TableOf(spec.steps, |spec.steps|, wf.steps, hooks, std)
  }

  ghost predicate AllBuildable(spec: WorkflowSpec, hooks: Hooks, std: Library)
  {
    forall s :: s in spec.steps ==> Buildable(s, hooks, std)
  }

  /** Workflow `k` is the first from `i` on with a step that cannot be built. */
  ghost predicate FirstBadWorkflow(specs: seq<WorkflowSpec>, i: nat, k: nat, hooks: Hooks, std: Library, e: LoadError)
  {
    && k < |specs| && (forall j :: i <= j < k ==> AllBuildable(specs[j], hooks, std))
    && exists j: nat :: FirstBadStep(specs[k].id, specs[k].steps, 0, j, hooks, std, e)
  }

  lemma OneWorkflow(spec: WorkflowSpec, hooks: Hooks, std: Library)
    ensures var r := BuiltFrom(spec.id, spec.steps, 0, map[], hooks, std);
            && (r.Ok? <==> AllBuildable(spec, hooks, std))
            && (r.Ok? ==> LoadedAs(spec, Workflow(spec.id, "", spec.entry, r.value), hooks, std))
            && (r.Err? ==> exists j: nat :: FirstBadStep(spec.id, spec.steps, 0, j, hooks, std, r.error))
  {
    hide Buildable, IsBuilt, FirstBadStep;
    StepsExactly(spec.id, spec.steps, 0, map[], hooks, std);
  }

  lemma {:induction false} WorkflowsExactly(specs: seq<WorkflowSpec>, i: nat, built: seq<Workflow>, hooks: Hooks,
                                            std: Library)
    requires i == |built| <= |specs|
    requires forall k :: 0 <= k < i ==> LoadedAs(specs[k], built[k], hooks, std)
    ensures var r := WorkflowsFrom(specs, i, built, hooks, std);
            && (r.Ok? <==> forall k :: i <= k < |specs| ==> AllBuildable(specs[k], hooks, std))
            && (r.Ok? ==> |r.value| == |specs| && forall k :: 0 <= k < |specs| ==>
                  LoadedAs(specs[k], r.value[k], hooks, std))
            && (r.Err? ==> exists k: nat :: i <= k && FirstBadWorkflow(specs, i, k, hooks, std, r.error))
    decreases |specs| - i
  {
    hide AllBuildable, LoadedAs, BuiltFrom, FirstBadStep;
    if i < |specs| {
      var spec := specs[i];
      OneWorkflow(spec, hooks, std);
      var table := BuiltFrom(spec.id, spec.steps, 0, map[], hooks, std);
      if table.Ok? {
        var more := built + [Workflow(spec.id, "", spec.entry, table.value)];
        WorkflowsExactly(specs, i + 1, more, hooks, std);
        var r := WorkflowsFrom(specs, i + 1, more, hooks, std);
        if r.Err? {
          var k: nat :| i + 1 <= k && FirstBadWorkflow(specs, i + 1, k, hooks, std, r.error);
          assert FirstBadWorkflow(specs, i, k, hooks, std, r.error);
        }
      } else {
        assert FirstBadWorkflow(specs, i, i, hooks, std, table.error);
      }
    }
  }

  /** The intent names two different workflows, in its old field and its new one. */
  ghost predicate Contradicts(i: IntentSpec)
  {
    i.entryWorkflowRef !in {"", i.deprecatedEntryStepRef} && i.deprecatedEntryStepRef != ""
  }

  /** The node of an intent leads to the workflow its new field names, or else to the one its old field names. */
  ghost predicate IsNode(domain: string, i: IntentSpec, node: IntentNode)
  {
    && node.nodeId == i.nodeId && node.domain == domain && node.examples == i.examples
    && (i.entryWorkflowRef != "" ==> node.entryWorkflowRef == i.entryWorkflowRef)
    && (i.entryWorkflowRef == "" ==> node.entryWorkflowRef == i.deprecatedEntryStepRef)
  }

  ghost predicate FirstBadIntent(specs: seq<IntentSpec>, i: nat, k: nat, e: LoadError)
  {
    && k < |specs| && (forall j :: i <= j < k ==> !Contradicts(specs[j]))
    && Contradicts(specs[k]) && e == ConflictingIntent(specs[k].nodeId)
  }

  lemma {:induction false} IntentsExactly(name: string, specs: seq<IntentSpec>, i: nat, nodes: seq<IntentNode>)
    requires i == |nodes| <= |specs|
    requires forall k :: 0 <= k < i ==> IsNode(name, specs[k], nodes[k])
    ensures var r := IntentsFrom(name, specs, i, nodes);
            && (r.Ok? <==> forall k :: i <= k < |specs| ==> !Contradicts(specs[k]))
            && (r.Ok? ==> |r.value| == |specs| && forall k :: 0 <= k < |specs| ==> IsNode(name, specs[k], r.value[k]))
            && (r.Err? ==> exists k: nat :: i <= k && FirstBadIntent(specs, i, k, r.error))
    decreases |specs| - i
  {
    if i < |specs| {
      if specs[i].ConflictingEntry() {
        assert FirstBadIntent(specs, i, i, ConflictingIntent(specs[i].nodeId));
      } else {
        var more := nodes + [IntentOf(name, specs[i])];
        IntentsExactly(name, specs, i + 1, more);
        var r := IntentsFrom(name, specs, i + 1, more);
        if r.Err? {
          var k: nat :| i + 1 <= k && FirstBadIntent(specs, i + 1, k, r.error);
          assert FirstBadIntent(specs, i, k, r.error);
        }
      }
    }
  }

  ghost predicate Loadable(file: File, hooks: Hooks, std: Library)
  {
    && file.name != "" && (forall i :: i in file.intents ==> !Contradicts(i))
    && (forall wf :: wf in file.workflows ==> AllBuildable(wf, hooks, std))
  }

  /** The domain says what the file says: its intents, policies and workflows in order, and under each step id of a
      workflow what the last step of that id says. */
  ghost predicate IsLoaded(file: File, d: Domain, hooks: Hooks, std: Library)
  {
    && d.name == file.name && |d.intents| == |file.intents| && |d.policies| == |file.policies|
    && |d.workflows| == |file.workflows|
    && (forall k :: 0 <= k < |file.intents| ==> IsNode(file.name, file.intents[k], d.intents[k]))
    && (forall k :: 0 <= k < |file.policies| ==>
          d.policies[k].id == file.policies[k].id && d.policies[k].fallback == file.policies[k].fallback)
    && (forall k :: 0 <= k < |file.workflows| ==> LoadedAs(file.workflows[k], d.workflows[k], hooks, std))
  }

  /** The first thing wrong with a file that does not load: its name, then its intents, then its steps, in order. */
  ghost predicate IsFirstProblem(file: File, hooks: Hooks, std: Library, e: LoadError)
  {
    if file.name == "" then e == MissingName
    else if exists i :: i in file.intents && Contradicts(i) then
      exists k: nat :: FirstBadIntent(file.intents, 0, k, e)
    else exists k: nat :: FirstBadWorkflow(file.workflows, 0, k, hooks, std, e)
  }

  /** Loading succeeds exactly when the file is named, no intent contradicts itself and every step can be built, and
      then yields what the file says; otherwise the error is about the first thing that is wrong. */
  lemma LoadExactly(file: File, hooks: Hooks, std: Library)
    ensures var r := LoadOf(file, hooks, std);
            && (r.Ok? <==> Loadable(file, hooks, std))
            && (r.Ok? ==> IsLoaded(file, r.value, hooks, std) && r.value.policies == PoliciesOf(file.policies))
            && (r.Err? ==> IsFirstProblem(file, hooks, std, r.error))
  {
    hide AllBuildable, LoadedAs, WorkflowsFrom, IntentsFrom, IsNode, Contradicts, FirstBadWorkflow;
    IntentsExactly(file.name, file.intents, 0, []);
    WorkflowsExactly(file.workflows, 0, [], hooks, std);
    assert (forall i :: i in file.intents ==> !Contradicts(i))
           <==> forall k :: 0 <= k < |file.intents| ==> !Contradicts(file.intents[k]);
  }
}
