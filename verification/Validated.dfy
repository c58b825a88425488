/** What validation buys: a manifest whose report has no error loads, and what it loads cannot go wrong. */
module Validated {
  import opened Values
  import opened Graphs
  import opened Workflows
  import opened BigStep
  import opened Machine
  import opened Budgets
  import opened Manifest
  import opened Validate
  import opened Registry
  import S = Soundness

  // ----- Loading -----

  /** Every leaf's action is a standard one or a hook. */
  ghost predicate ActionsResolve(file: File, hooks: Hooks, std: Library)
  {
    forall wf, s :: wf in file.workflows && s in wf.steps && s.kind == "leaf" ==>
        s.actionRef in std || s.actionRef in hooks
  }

  lemma SoundStepsBuild(s: StepSpec, workflowIds: set<string>, hooks: Hooks, std: Library)
    requires SoundKind(s, workflowIds, std) && (s.kind == "leaf" ==> s.actionRef in std || s.actionRef in hooks)
    ensures Buildable(s, hooks, std)
  {
  }

  /** A sound manifest whose actions are all there loads. */
  lemma SoundManifestsLoad(file: File, hooks: Hooks, std: Library)
    requires Sound(file, std) && ActionsResolve(file, hooks, std)
    ensures LoadOf(file, hooks, std).Ok?
  {
    LoadExactly(file, hooks, std);
    hide LoadOf;
    forall wf | wf in file.workflows ensures AllBuildable(wf, hooks, std) {
      assert SoundWorkflow(wf, WorkflowIds(file.workflows), Fallbacks(file.policies), std);
      forall s | s in wf.steps ensures Buildable(s, hooks, std) {
        assert SoundStep(s, StepIds(wf), WorkflowIds(file.workflows), Fallbacks(file.policies), std);
        SoundStepsBuild(s, WorkflowIds(file.workflows), hooks, std);
      }
    }
  }

  // ----- From specs to tables -----

  /** The domain, and nothing else, is registered. */
  ghost predicate RegisteredAlone(w: World, d: Domain)
  {
    w.workflows == WithWorkflows(map[], d.name, d.workflows) && w.policies == WithPolicies(map[], d.policies)
  }

  /** The spec a step of the tables was built from. */
  lemma SpecBehind(file: File, hooks: Hooks, std: Library, d: Domain, w: World, ref: string, key: string)
    returns (spec: WorkflowSpec, wf: Workflow, j: nat)
    requires LoadOf(file, hooks, std) == Ok(d) && RegisteredAlone(w, d)
    requires ref in w.workflows && key in w.workflows[ref].steps
    ensures spec in file.workflows && wf.steps == w.workflows[ref].steps
    ensures j < |spec.steps| && IsBuilt(spec.steps[j], wf.steps[key], hooks, std)
  {
    spec, wf := WorkflowBehind(file, hooks, std, d, w, ref);
    hide IsBuilt;
    j :| LastSpec(spec.steps, |spec.steps|, key, j) && IsBuilt(spec.steps[j], wf.steps[key], hooks, std);
  }

  lemma WorkflowBehind(file: File, hooks: Hooks, std: Library, d: Domain, w: World, ref: string)
    returns (spec: WorkflowSpec, wf: Workflow)
    requires LoadOf(file, hooks, std) == Ok(d) && RegisteredAlone(w, d) && ref in w.workflows
    ensures spec in file.workflows && LoadedAs(spec, wf, hooks, std) && w.workflows[ref].steps == wf.steps
  {
    LoadExactly(file, hooks, std);
    hide LoadOf, LoadedAs;
    WorkflowComesFrom(d.name, d.workflows, ref);
    var k :| 0 <= k < |d.workflows| && d.workflows[k].id == ref
      && w.workflows[ref] == d.workflows[k].(domain := d.name);
    spec, wf := file.workflows[k], d.workflows[k];
  }

  lemma {:induction false} WorkflowComesFrom(name: string, workflows: seq<Workflow>, id: string)
    requires id in WithWorkflows(map[], name, workflows)
    ensures exists k :: 0 <= k < |workflows| && workflows[k].id == id
                        && WithWorkflows(map[], name, workflows)[id] == workflows[k].(domain := name)
  {
    var last := |workflows| - 1;
    if workflows[last].id != id {
      WorkflowComesFrom(name, workflows[..last], id);
      var k :| 0 <= k < last && workflows[..last][k].id == id
               && WithWorkflows(map[], name, workflows[..last])[id] == workflows[..last][k].(domain := name);
      assert workflows[k].id == id;
    }
  }

  lemma {:induction false} WorkflowGoesIn(name: string, workflows: seq<Workflow>, k: nat)
    requires k < |workflows|
    ensures workflows[k].id in WithWorkflows(map[], name, workflows)
  {
    if k < |workflows| - 1 {
      WorkflowGoesIn(name, workflows[..|workflows| - 1], k);
    }
  }

  /** The registered policies name the fallbacks the validator worked with. */
  lemma {:induction false} PoliciesAgree(policies: seq<PolicySpec>, ref: string)
    requires ref != ""
    ensures var table, fallbacks := WithPolicies(map[], PoliciesOf(policies)), Fallbacks(policies);
            && (ref in table <==> ref in fallbacks)
            && (ref in table ==> table[ref].fallback == fallbacks[ref])
  {
    if policies != [] {
      var init := policies[..|policies| - 1];
      PoliciesAgree(init, ref);
      assert PoliciesOf(policies)[..|policies| - 1] == PoliciesOf(init);
    }
  }

  /** A step of the engine's table is what some step of the file was built into. */
  ghost predicate BuiltFrom(wf: Workflow, spec: WorkflowSpec, key: string, s: StepSpec, hooks: Hooks, std: Library)
  {
    && key in wf.steps && s in spec.steps && s.id == key
    && IsBuilt(s, wf.steps[key], hooks, std)
  }

  ghost predicate ComesFrom(wf: Workflow, spec: WorkflowSpec, hooks: Hooks, std: Library)
  {
    && wf.id == spec.id && wf.entry == spec.entry && wf.steps.Keys == StepIds(spec)
    && forall key :: key in wf.steps ==> exists s :: BuiltFrom(wf, spec, key, s, hooks, std)
  }

  lemma LoadedComesFrom(spec: WorkflowSpec, wf: Workflow, name: string, hooks: Hooks, std: Library)
    requires LoadedAs(spec, wf, hooks, std) && SoundIds(spec)
    ensures ComesFrom(wf.(domain := name), spec, hooks, std)
  {
    hide IsBuilt;
    forall key | key in wf.steps ensures exists s :: BuiltFrom(wf.(domain := name), spec, key, s, hooks, std) {
      var j: nat :| LastSpec(spec.steps, |spec.steps|, key, j)
        && IsBuilt(spec.steps[j], wf.steps[key], hooks, std);
      assert BuiltFrom(wf.(domain := name), spec, key, spec.steps[j], hooks, std);
    }
    forall id | id in StepIds(spec) ensures id in wf.steps {
      var s :| s in spec.steps && s.id == id;
      var j :| 0 <= j < |spec.steps| && spec.steps[j] == s;
    }
  }

  /** Every registered workflow comes from one of the file, and every one of the file is registered under its id. */
  lemma RegisteredComesFrom(file: File, hooks: Hooks, std: Library, d: Domain, w: World)
    requires Sound(file, std) && LoadOf(file, hooks, std) == Ok(d) && RegisteredAlone(w, d)
    ensures w.workflows.Keys == WorkflowIds(file.workflows)
    ensures forall id :: id in w.workflows ==>
              exists spec :: spec in file.workflows && spec.id == id && ComesFrom(w.workflows[id], spec, hooks, std)
  {
    LoadExactly(file, hooks, std);
    hide LoadOf, SoundWorkflow, ComesFrom, LoadedAs, WithWorkflows;
    forall id | id in w.workflows
      ensures id in WorkflowIds(file.workflows)
      ensures exists spec :: spec in file.workflows && spec.id == id && ComesFrom(w.workflows[id], spec, hooks, std)
    {
      WorkflowComesFrom(d.name, d.workflows, id);
      var k :| 0 <= k < |d.workflows| && d.workflows[k].id == id
        && w.workflows[id] == d.workflows[k].(domain := d.name);
      var spec := file.workflows[k];
      assert spec.id == id by { LoadedKeepsId(spec, d.workflows[k], hooks, std); }
      SoundHasIds(file, spec, std);
      LoadedComesFrom(spec, d.workflows[k], d.name, hooks, std);
    }
    forall id | id in WorkflowIds(file.workflows) ensures id in w.workflows {
      var spec :| spec in file.workflows && spec.id == id;
      var k :| 0 <= k < |file.workflows| && file.workflows[k] == spec;
      LoadedKeepsId(spec, d.workflows[k], hooks, std);
      WorkflowGoesIn(d.name, d.workflows, k);
    }
  }

  lemma LoadedKeepsId(spec: WorkflowSpec, wf: Workflow, hooks: Hooks, std: Library)
    requires LoadedAs(spec, wf, hooks, std)
    ensures wf.id == spec.id
  {
  }

  lemma SoundHasIds(file: File, spec: WorkflowSpec, std: Library)
    requires Sound(file, std) && spec in file.workflows
    ensures SoundIds(spec)
  {
    assert SoundWorkflow(spec, WorkflowIds(file.workflows), Fallbacks(file.policies), std);
  }

  // ----- Sound specs make closed tables -----

  /** The tables of a world that came from a sound file. */
  ghost predicate FromSound(w: World, file: File, hooks: Hooks, std: Library)
  {
    && Sound(file, std) && w.workflows.Keys == WorkflowIds(file.workflows)
    && w.policies == WithPolicies(map[], PoliciesOf(file.policies))
    && forall id :: id in w.workflows ==>
        exists spec :: spec in file.workflows && spec.id == id && ComesFrom(w.workflows[id], spec, hooks, std)
  }

  lemma FallbackAgrees(file: File, w: World, step: Step)
    requires w.policies == WithPolicies(map[], PoliciesOf(file.policies)) && !step.Foreign?
    ensures var fallbacks := Fallbacks(file.policies);
            FallbackOf(w, step) == if step.policyRef != ""
              && step.policyRef in fallbacks then fallbacks[step.policyRef] else ""
  {
    if step.policyRef != "" {
      PoliciesAgree(file.policies, step.policyRef);
    }
  }

  lemma StepIsClosed(file: File, hooks: Hooks, std: Library, w: World, wf: Workflow, spec: WorkflowSpec, key: string,
                     s: StepSpec)
    requires FromSound(w, file, hooks, std) && spec in file.workflows && ComesFrom(wf, spec, hooks, std)
    requires BuiltFrom(wf, spec, key, s, hooks, std)
    ensures S.ClosedStep(w, wf, wf.steps[key])
  {
    hide WithPolicies, Fallbacks, ComesFrom, SoundIds, SoundEntry;
    var step := wf.steps[key];
    assert wf.steps.Keys == StepIds(spec) by { KeysAreIds(wf, spec, hooks, std); }
    assert SoundWorkflow(spec, WorkflowIds(file.workflows), Fallbacks(file.policies), std);
    assert SoundStep(s, StepIds(spec), WorkflowIds(file.workflows), Fallbacks(file.policies), std);
    FallbackAgrees(file, w, step);
  }

  lemma KeysAreIds(wf: Workflow, spec: WorkflowSpec, hooks: Hooks, std: Library)
    requires ComesFrom(wf, spec, hooks, std)
    ensures wf.steps.Keys == StepIds(spec) && wf.entry == spec.entry
  {
  }

  lemma WorldIsClosed(file: File, hooks: Hooks, std: Library, w: World)
    requires FromSound(w, file, hooks, std)
    ensures S.ClosedWorld(w)
  {
    hide S.ClosedStep, BuiltFrom;
    forall id | id in w.workflows ensures S.ClosedWorkflow(w, w.workflows[id]) {
      var wf := w.workflows[id];
      var spec :| spec in file.workflows && spec.id == id && ComesFrom(wf, spec, hooks, std);
      assert SoundWorkflow(spec, WorkflowIds(file.workflows), Fallbacks(file.policies), std);
      forall key | key in wf.steps ensures S.ClosedStep(w, wf, wf.steps[key]) {
        var s :| BuiltFrom(wf, spec, key, s, hooks, std);
        StepIsClosed(file, hooks, std, w, wf, spec, key, s);
      }
    }
  }

  // ----- Shapes -----

  lemma BuiltCalls(spec: WorkflowSpec, s: StepSpec, step: Step, hooks: Hooks, std: Library, known: set<string>,
                   b: string)
    requires IsBuilt(s, step, hooks, std) && S.StepCalls(step, b)
    requires b in known && (s.kind == "composite" ==> s.subRef != "")
             && (s.kind == "parallel" && b in s.branches ==> b != "")
    ensures SpecCalls(s, known, b)
  {
  }

  lemma CallsAreEdges(file: File, hooks: Hooks, std: Library, w: World, a: string, b: string)
    requires FromSound(w, file, hooks, std) && S.Calls(w, a, b)
    ensures Edge(WorkflowEdges(file.workflows, WorkflowIds(file.workflows)), a, b)
  {
    hide WorkflowEdges, Edge, Sound, WithPolicies, SoundWorkflow, S.ClosedStep, SpecCalls, S.StepCalls;
    var known := WorkflowIds(file.workflows);
    var wf := w.workflows[a];
    var key :| key in wf.steps && S.StepCalls(wf.steps[key], b);
    var spec, s := SpecOf(file, hooks, std, w, a, key);
    hide ComesFrom;
    StepIsClosed(file, hooks, std, w, wf, spec, key, s);
    ClosedCalls(w, wf, wf.steps[key], b);
    SameKeys(file, hooks, std, w);
    hide FromSound;
    SoundCalls(file, spec, s, std, b);
    BuiltCalls(spec, s, wf.steps[key], hooks, std, known, b);
    WorkflowEdgesExactly(file.workflows, known);
  }

  lemma ClosedCalls(w: World, wf: Workflow, step: Step, b: string)
    requires S.ClosedStep(w, wf, step) && S.StepCalls(step, b)
    ensures b in w.workflows
  {
  }

  /** Where a step of the world's tables was written. */
  lemma SpecOf(file: File, hooks: Hooks, std: Library, w: World, id: string, key: string)
    returns (spec: WorkflowSpec, s: StepSpec)
    requires FromSound(w, file, hooks, std) && id in w.workflows && key in w.workflows[id].steps
    ensures spec in file.workflows && spec.id == id && ComesFrom(w.workflows[id], spec, hooks, std)
    ensures BuiltFrom(w.workflows[id], spec, key, s, hooks, std)
  {
    hide Sound, BuiltFrom, WithPolicies;
    spec :| spec in file.workflows && spec.id == id && ComesFrom(w.workflows[id], spec, hooks, std);
    s :| BuiltFrom(w.workflows[id], spec, key, s, hooks, std);
  }

  /** No sound step calls a workflow without an id. */
  lemma SoundCalls(file: File, spec: WorkflowSpec, s: StepSpec, std: Library, b: string)
    requires Sound(file, std) && spec in file.workflows && s in spec.steps
    ensures s.kind == "composite" ==> s.subRef != ""
    ensures s.kind == "parallel" && b in s.branches ==> b != ""
  {
    assert SoundWorkflow(spec, WorkflowIds(file.workflows), Fallbacks(file.policies), std);
    assert SoundStep(s, StepIds(spec), WorkflowIds(file.workflows), Fallbacks(file.policies), std);
  }

  lemma DepthIsEnough(file: File, hooks: Hooks, std: Library, w: World)
    requires FromSound(w, file, hooks, std) && |WorkflowIds(file.workflows)| <= w.maxDepth + 1
    ensures S.DepthSuffices(w)
  {
    var g := WorkflowEdges(file.workflows, WorkflowIds(file.workflows));
    assert Acyclic(g);
    hide Acyclic, Edge, WorkflowEdges, S.Calls, FromSound;
    forall a, b | S.Calls(w, a, b) ensures Edge(g, a, b) {
      CallsAreEdges(file, hooks, std, w, a, b);
    }
    assert |w.workflows| == |WorkflowIds(file.workflows)| by {
      assert |w.workflows| == |w.workflows.Keys|;
      SameKeys(file, hooks, std, w);
    }
  }

  lemma SameKeys(file: File, hooks: Hooks, std: Library, w: World)
    requires FromSound(w, file, hooks, std)
    ensures w.workflows.Keys == WorkflowIds(file.workflows)
  {
  }

  lemma StepsAreEdges(file: File, hooks: Hooks, std: Library, w: World, wf: Workflow, spec: WorkflowSpec, a: string,
                      b: string)
    requires FromSound(w, file, hooks, std) && spec in file.workflows && ComesFrom(wf, spec, hooks, std)
             && S.StepsTo(w, wf, a, b)
    ensures Edge(StepEdges(spec.steps, StepIds(spec), Fallbacks(file.policies), true), a, b)
  {
    hide StepEdges, Edge, Sound, WithPolicies, SoundWorkflow, Fallbacks;
    var s :| BuiltFrom(wf, spec, a, s, hooks, std);
    StepIsClosed(file, hooks, std, w, wf, spec, a, s);
    FallbackAgrees(file, w, wf.steps[a]);
    assert b in StepIds(spec);
    assert SpecLeads(s, StepIds(spec), Fallbacks(file.policies), true, b);
    assert a != "";
    StepEdgesExactly(spec.steps, StepIds(spec), Fallbacks(file.policies), true);
  }

  /** No walk over success and fallback edges of any workflow closes, and none has more steps than the budget. */
  ghost predicate StepsFit(file: File, maxSteps: nat)
  {
    forall spec :: spec in file.workflows ==>
      Acyclic(StepEdges(spec.steps, StepIds(spec), Fallbacks(file.policies), true)) && |StepIds(spec)| <= maxSteps
  }

  lemma StepsAreEnough(file: File, hooks: Hooks, std: Library, w: World, id: string)
    requires FromSound(w, file, hooks, std) && StepsFit(file, w.maxSteps) && id in w.workflows
    ensures S.StepsSuffice(w, w.workflows[id])
  {
    var wf := w.workflows[id];
    var spec :| spec in file.workflows && spec.id == id && ComesFrom(wf, spec, hooks, std);
    var g := StepEdges(spec.steps, StepIds(spec), Fallbacks(file.policies), true);
    hide Acyclic, Edge, StepEdges, S.StepsTo, FromSound, ComesFrom, Fallbacks;
    forall a, b | S.StepsTo(w, wf, a, b) ensures Edge(g, a, b) {
      StepsAreEdges(file, hooks, std, w, wf, spec, a, b);
    }
    KeysAreIds(wf, spec, hooks, std);
    assert |wf.steps| == |wf.steps.Keys|;
  }

  // ----- The promise -----

  /** A manifest whose report holds no error, loaded and registered alone, runs any of its workflows, from the entry or
      from any step as a resumed run does, under any actions, probes, input and schedule, without ever raising "no
      workflow registered", "has no step", "unknown step type" or "no branches", and without a compensation that names
      no step; the depth limit is out of reach when there are at most maxDepth + 1 workflow ids, the step limit when no
      workflow loops through its fallbacks or has more than maxSteps steps. A compensation target may be no leaf, and
      then compensating fails; where every target is a leaf it fails only if the leaf refuses. */
  lemma ValidatedManifestsCannotGoWrong(file: File, hooks: Hooks, std: Library, d: Domain, w: World, ref: string,
                                        start: string,
                                        ctx: Context, cs: seq<Choice>)
    requires Sound(file, std) && LoadOf(file, hooks, std) == Ok(d) && RegisteredAlone(w, d)
    requires ref in w.workflows && (start == "" || start in w.workflows[ref].steps)
    requires Interleaves(w, ref, start, ctx, cs)
    ensures ref in w.workflows <==> ref in WorkflowIds(file.workflows)
    ensures var t := Execute(w, Starting(Launch(ref, start, ctx, 0, [])), cs);
            && NeverRaises(t.log, {KNoWorkflow, KNoStep, KUnknownType, KNoBranches})
            && (|WorkflowIds(file.workflows)| <= w.maxDepth + 1 ==> NeverRaises(t.log, {KDepthLimit}))
            && (StepsFit(file, w.maxSteps) ==> NeverRaises(t.log, {KStepLimit}))
            && (t.machine.Halted? && t.machine.out.Failed? && t.machine.out.error.CircuitBreakerTripped? ==>
                  forall f :: f in t.machine.out.error.failures ==>
                      !f.why.MissingStep? && (LeafTargets(file) ==> !f.why.NotALeaf?))
  {
    hide Execute, Follows, LoadOf, Sound, LeafTargets, S.LeafTargets, RegisteredAlone, StepsFit, S.DepthSuffices,
         S.StepsSuffice, FromSound, S.ClosedWorld;
    RegisteredFromSound(file, hooks, std, d, w);
    WorldIsClosed(file, hooks, std, w);
    SameKeys(file, hooks, std, w);
    S.ClosedWorldsCannotGoWrong(w, ref, start, ctx, cs);
    if |WorkflowIds(file.workflows)| <= w.maxDepth + 1 {
      DepthIsEnough(file, hooks, std, w);
    }
    if StepsFit(file, w.maxSteps) {
      forall id | id in w.workflows ensures S.StepsSuffice(w, w.workflows[id]) {
        StepsAreEnough(file, hooks, std, w, id);
      }
    }
    if LeafTargets(file) {
      TargetsAreLeaves(file, hooks, std, w);
    }
  }

  ghost predicate LeafTargets(file: File)
  {
    forall spec, s, t ::
      spec in file.workflows && s in spec.steps && t in spec.steps && s.compensateWith == t.id != "" ==>
          t.kind == "leaf"
  }

  lemma TargetsAreLeaves(file: File, hooks: Hooks, std: Library, w: World)
    requires FromSound(w, file, hooks, std) && LeafTargets(file)
    ensures S.LeafTargets(w)
  {
    hide FromSound, ComesFrom, Buildable, LeafTargets, S.LeafTarget;
    forall id, key | id in w.workflows && key in w.workflows[id].steps
      ensures S.LeafTarget(w.workflows[id], w.workflows[id].steps[key])
    {
      var wf := w.workflows[id];
      var spec, s := SpecOf(file, hooks, std, w, id, key);
      if s.compensateWith in wf.steps {
        assert wf.steps.Keys == StepIds(spec) by { KeysAreIds(wf, spec, hooks, std); }
        var t := StepSpecOf(wf, spec, s.compensateWith, hooks, std);
        LeafTargetBuilt(file, wf, spec, s, t, key, hooks, std);
      } else {
        NoTarget(wf, spec, s, key, hooks, std);
      }
    }
  }

  lemma NoTarget(wf: Workflow, spec: WorkflowSpec, s: StepSpec, key: string, hooks: Hooks, std: Library)
    requires BuiltFrom(wf, spec, key, s, hooks, std) && s.compensateWith !in wf.steps
    ensures S.LeafTarget(wf, wf.steps[key])
  {
  }

  lemma StepSpecOf(wf: Workflow, spec: WorkflowSpec, key: string, hooks: Hooks, std: Library) returns (s: StepSpec)
    requires ComesFrom(wf, spec, hooks, std) && key in wf.steps
    ensures BuiltFrom(wf, spec, key, s, hooks, std)
  {
    hide BuiltFrom;
    s :| BuiltFrom(wf, spec, key, s, hooks, std);
  }

  lemma LeafTargetBuilt(file: File, wf: Workflow, spec: WorkflowSpec, s: StepSpec, t: StepSpec, key: string,
                        hooks: Hooks, std: Library)
    requires LeafTargets(file) && spec in file.workflows
    requires BuiltFrom(wf, spec, key, s, hooks, std) && BuiltFrom(wf, spec, s.compensateWith, t, hooks, std)
    ensures S.LeafTarget(wf, wf.steps[key])
  {
  }

  ghost predicate Interleaves(w: World, ref: string, start: string, ctx: Context, cs: seq<Choice>)
  {
    Follows(w, Starting(Launch(ref, start, ctx, 0, [])), cs)
  }

  ghost predicate NeverRaises(log: Log, kinds: set<Kind>)
  {
    forall e :: e in log && e.what.Raised? ==> e.what.kind !in kinds
  }

  lemma RegisteredFromSound(file: File, hooks: Hooks, std: Library, d: Domain, w: World)
    requires Sound(file, std) && LoadOf(file, hooks, std) == Ok(d) && RegisteredAlone(w, d)
    ensures FromSound(w, file, hooks, std)
  {
    hide Sound;
    LoadExactly(file, hooks, std);
    RegisteredComesFrom(file, hooks, std, d, w);
  }

  // ----- What validation does not promise -----

  function LeafSpec(id: string, action: string, next: string, undo: string): StepSpec
  {
    StepSpec(id, "leaf", action, map[], "", "", next, "", [], undo)
  }

  /** An order whose charge is to be undone by a composite step; shipping fails. */
  function Shop(): File
  {
    File("shop", [], [],
         [WorkflowSpec("order", "charge",
                       [LeafSpec("charge", "done", "ship", "refund"),
                        LeafSpec("ship", "broken", "", ""),
                        StepSpec("refund", "composite", "", map[], "", "", "", "payback", [], "")]),
          WorkflowSpec("payback", "pay", [LeafSpec("pay", "done", "", "")])])
  }

  function ShopHooks(): Hooks
  {
    map["done" := (ctx: Context) => Output(map[]), "broken" := (ctx: Context) => Failure("no stock")]
  }

  lemma ShopIsAcyclic(wf: WorkflowSpec)
    requires wf in Shop().workflows
    ensures Acyclic(StepEdges(wf.steps, StepIds(wf), map[], false))
  {
    hide Acyclic, StepEdges, StepIds;
    StepEdgesExactly(wf.steps, StepIds(wf), map[], false);
    RankedIsAcyclic(StepEdges(wf.steps, StepIds(wf), map[], false), map["charge" := 0, "ship" := 1]);
  }

  lemma ShopWorkflowIsSound(wf: WorkflowSpec)
    requires wf in Shop().workflows
    ensures SoundWorkflow(wf, {"order", "payback"}, map[], map[])
  {
    hide Acyclic, StepEdges, SoundStep;
    ShopIsAcyclic(wf);
    ShopStepIds(wf);
    forall s | s in wf.steps ensures SoundStep(s, StepIds(wf), {"order", "payback"}, map[], map[]) {
      ShopStepIsSound(wf, s);
    }
  }

  lemma ShopStepIds(wf: WorkflowSpec)
    requires wf in Shop().workflows
    ensures StepIds(wf) == if wf.id == "order" then {"charge", "ship", "refund"} else {"pay"}
  {
    var ids := StepIds(wf);
    assert wf == Shop().workflows[0] ==> wf.steps[0].id in ids && wf.steps[1].id in ids && wf.steps[2].id in ids;
    assert wf == Shop().workflows[1] ==> wf.steps[0].id in ids;
  }

  lemma ShopStepIsSound(wf: WorkflowSpec, s: StepSpec)
    requires wf in Shop().workflows && s in wf.steps
    ensures SoundStep(s, StepIds(wf), {"order", "payback"}, map[], map[])
  {
    ShopStepIds(wf);
    hide StepIds;
  }

  lemma ShopIds()
    ensures WorkflowIds(Shop().workflows) == {"order", "payback"}
  {
    assert Shop().workflows[0].id == "order" && Shop().workflows[1].id == "payback";
    assert Shop().workflows[0] in Shop().workflows && Shop().workflows[1] in Shop().workflows;
  }

  lemma ShopIsSound()
    ensures Sound(Shop(), map[])
  {
    hide SoundWorkflow, Acyclic, WorkflowEdges;
    ShopIds();
    forall wf | wf in Shop().workflows ensures SoundWorkflow(wf, {"order", "payback"}, map[], map[]) {
      ShopWorkflowIsSound(wf);
    }
    var ids := WorkflowIds(Shop().workflows);
    WorkflowEdgesExactly(Shop().workflows, ids);
    RankedIsAcyclic(WorkflowEdges(Shop().workflows, ids), map["order" := 0, "payback" := 1]);
  }

  lemma ShopLoads()
    ensures LoadOf(Shop(), ShopHooks(), map[]).Ok?
  {
    hide Sound, LoadOf;
    ShopIsSound();
    SoundManifestsLoad(Shop(), ShopHooks(), map[]);
  }

  /** The steps of the order as the engine holds them. */
  lemma ShopTables(d: Domain, w: World)
    requires LoadOf(Shop(), ShopHooks(), map[]) == Ok(d) && RegisteredAlone(w, d)
    ensures "order" in w.workflows
    ensures var wf := w.workflows["order"];
            && wf.entry == "charge" && wf.steps.Keys == {"charge", "ship", "refund"}
            && wf.steps["charge"] == Leaf("charge", ShopHooks()["done"], "", "", "ship", "refund")
            && wf.steps["ship"] == Leaf("ship", ShopHooks()["broken"], "", "", "", "")
            && wf.steps["refund"].Composite?
  {
    hide Sound, LoadOf, RegisteredAlone, FromSound;
    var file := Shop();
    ShopIsSound();
    RegisteredFromSound(file, ShopHooks(), map[], d, w);
    SameKeys(file, ShopHooks(), map[], w);
    assert file.workflows[0].id == "order";
    assert "order" in WorkflowIds(file.workflows);
    var spec := OrderSpec(w);
    hide ComesFrom;
    OrderSteps(w.workflows["order"], spec);
  }

  lemma OrderSteps(wf: Workflow, spec: WorkflowSpec)
    requires spec in Shop().workflows && spec.id == "order" && ComesFrom(wf, spec, ShopHooks(), map[])
    ensures wf.entry == "charge" && wf.steps.Keys == {"charge", "ship", "refund"}
    ensures wf.steps["charge"] == Leaf("charge", ShopHooks()["done"], "", "", "ship", "refund")
    ensures wf.steps["ship"] == Leaf("ship", ShopHooks()["broken"], "", "", "", "")
    ensures wf.steps["refund"].Composite?
  {
    hide ComesFrom, ShopHooks, ResolveAction;
    assert spec == Shop().workflows[0];
    KeysAreIds(wf, spec, ShopHooks(), map[]);
    assert spec.steps[0].id in StepIds(spec) && spec.steps[1].id in StepIds(spec) && spec.steps[2].id in StepIds(spec);
    var charge := StepSpecOf(wf, spec, "charge", ShopHooks(), map[]);
    assert charge == spec.steps[0];
    var ship := StepSpecOf(wf, spec, "ship", ShopHooks(), map[]);
    assert ship == spec.steps[1];
    var refund := StepSpecOf(wf, spec, "refund", ShopHooks(), map[]);
    assert refund == spec.steps[2];
    ShopActions(spec);
  }

  lemma ShopActions(spec: WorkflowSpec)
    requires spec == Shop().workflows[0]
    ensures ResolveAction(spec.id, spec.steps[0], ShopHooks(), map[]) == Ok(ShopHooks()["done"])
    ensures ResolveAction(spec.id, spec.steps[1], ShopHooks(), map[]) == Ok(ShopHooks()["broken"])
  {
  }

  lemma OrderSpec(w: World) returns (spec: WorkflowSpec)
    requires FromSound(w, Shop(), ShopHooks(), map[]) && "order" in w.workflows
    ensures spec in Shop().workflows && spec.id == "order" && ComesFrom(w.workflows["order"], spec, ShopHooks(), map[])
  {
    hide Sound, ComesFrom;
    spec :| spec in Shop().workflows && spec.id == "order" && ComesFrom(w.workflows["order"], spec, ShopHooks(), map[]);
  }

  /** The validator accepts a compensation that is not a leaf; compensating the charge then fails. */
  lemma CompensationsNeedNotBeLeaves(d: Domain, w: World)
    requires LoadOf(Shop(), ShopHooks(), map[]) == Ok(d) && RegisteredAlone(w, d) && w.maxSteps >= 2
    ensures Sound(Shop(), map[]) && !LeafTargets(Shop())
    ensures RunOf(w, Launch("order", "", map[], 0, [])).out
         == Failed(CircuitBreakerTripped("ship", "no stock", [], [UndoFailure("charge", "refund", NotALeaf)]))
  {
    hide Sound, LoadOf, RegisteredAlone;
    ShopIsSound();
    ShopTables(d, w);
    assert !LeafTargets(Shop()) by { ShopTargets(); }
    OrderFails(w, w.workflows["order"]);
    hide Shop, ShopHooks, Loop;
    assert RunOf(w, Launch("order", "", map[], 0, [])).out
           == Loop(w, Frame([], "order", w.workflows["order"], 0, "charge", map[], [], [], 0)).out;
  }

  lemma OrderFails(w: World, wf: Workflow)
    requires w.maxSteps >= 2 && "charge" in wf.steps && "ship" in wf.steps && "refund" in wf.steps
             && wf.steps["refund"].Composite?
    requires wf.steps["charge"] == Leaf("charge", ShopHooks()["done"], "", "", "ship", "refund")
    requires wf.steps["ship"] == Leaf("ship", ShopHooks()["broken"], "", "", "", "")
    ensures Loop(w, Frame([], "order", wf, 0, "charge", map[], [], [], 0)).out
         == Failed(CircuitBreakerTripped("ship", "no stock", [], [UndoFailure("charge", "refund", NotALeaf)]))
  {
    hide Shop, Loop, UnwindAll;
    var f := Frame([], "order", wf, 0, "charge", map[], [], [], 0);
    var g := f.(steps := 1, trace := ["charge"]);
    assert [] + ["charge"] == ["charge"];
    LoopAtLeaf(w, f, g, wf.steps["charge"]);
    var h := g.(ctx := Merge(map[], map[]), done := [Undoable("charge", "refund")], at := "ship");
    assert [] + [Undoable("charge", "refund")] == [Undoable("charge", "refund")];
    assert Act(w, g, wf.steps["charge"]).Go? && Act(w, g, wf.steps["charge"]).frame == h;
    ShippingFails(w, h);
  }

  lemma ShippingFails(w: World, f: Frame)
    requires f.depth <= w.maxDepth && f.steps + 1 <= w.maxSteps && f.at == "ship"
             && f.done == [Undoable("charge", "refund")]
    requires "ship" in f.wf.steps && f.wf.steps["ship"] == Leaf("ship", ShopHooks()["broken"], "", "", "", "")
    requires "refund" in f.wf.steps && f.wf.steps["refund"].Composite?
    ensures Loop(w, f).out == Failed(CircuitBreakerTripped("ship", "no stock", [],
                                                           [UndoFailure("charge", "refund", NotALeaf)]))
  {
    hide Loop, UnwindAll;
    var g := f.(steps := f.steps + 1, trace := f.trace + ["ship"]);
    LoopAtLeaf(w, f, g, f.wf.steps["ship"]);
    var u := Unwinding(g, "ship", "no stock", g.done, g.ctx, [], []);
    assert Act(w, g, f.wf.steps["ship"]).Unwind? && Act(w, g, f.wf.steps["ship"]).unwinding == u;
    RefundFails(w, u);
  }

  lemma RefundFails(w: World, u: Unwinding)
    requires u.left == [Undoable("charge", "refund")] && "refund" in u.frame.wf.steps
             && u.frame.wf.steps["refund"].Composite?
    requires u.undone == [] && u.failures == []
    ensures UnwindAll(w, u).out
            == Failed(CircuitBreakerTripped(u.step, u.reason, [], [UndoFailure("charge", "refund", NotALeaf)]))
  {
    var n := UnwindOne(w, u);
    assert n.unwinding.left == [] && n.unwinding.failures == [UndoFailure("charge", "refund", NotALeaf)];
    assert UnwindAll(w, n.unwinding).out == UnwindOne(w, n.unwinding).out;
  }

  lemma ShopTargets()
    ensures !LeafTargets(Shop())
  {
    var spec := Shop().workflows[0];
    assert spec.steps[0].compensateWith == spec.steps[2].id && spec.steps[2].kind != "leaf";
  }
}
