/** Manifests of standard actions alone: which of them can panic, and with it any comparison they are part of. */
module Standard {
  import opened Basics
  import opened Values
  import opened Graphs
  import opened Workflows
  import opened BigStep
  import opened Manifest
  import opened Validate
  import opened PolicyDiff
  import P = Panics
  import Std = StdLib
  import V = Validated

  /** No step of the file compares with something that has no built-in equality. */
  ghost predicate SpecsCannotPanic(file: File)
  {
    forall wf, s :: wf in file.workflows && s in wf.steps ==> !Std.CanPanic(s.actionRef, s.params)
  }

  lemma BuiltNeverPanics(s: StepSpec, step: Step, ctx: Context)
    requires IsBuilt(s, step, map[], Std.Default()) && step.Leaf? && !Std.CanPanic(s.actionRef, s.params)
    ensures !step.run(ctx).Panic?
  {
    hide Std.Default, Std.CanPanic, Std.PanicsSomewhere;
    Std.StandardActionsPanicExactly(s.actionRef, s.params);
    PanicsHere(step.run, ctx);
  }

  lemma PanicsHere(run: Action, ctx: Context)
    ensures run(ctx).Panic? ==> Std.PanicsSomewhere(run)
  {
  }

  /** With standard actions whose parameters cannot make them panic no run panics, so every comparison of two such
      manifests gets its report. */
  lemma StandardRunsNeverPanic(file: File, d: Domain, text: Error -> string, e: SuiteEvent, value: string)
    requires LoadOf(file, map[], Std.Default()) == Ok(d) && SpecsCannotPanic(file)
    ensures !EndsWith(WorldOf(d, text), e, Panicked(value))
  {
    hide RunOf, Std.Default, Std.CanPanic, LoadOf, IsBuilt;
    var w, l := WorldOf(d, text), Launch(e.workflow, "", e.ctx, 0, []);
    P.RunPanic(w, l);
    if RunOf(w, l).out.Panicked? {
      var ref, key, ctx: Context :| P.ThrowsAt(w, ref, key, ctx, RunOf(w, l).out.value);
      var spec, wf, j := V.SpecBehind(file, map[], Std.Default(), d, w, ref, key);
      assert spec.steps[j] in spec.steps;
      BuiltNeverPanics(spec.steps[j], wf.steps[key], ctx);
    }
  }

  // ----- Each of those conditions is needed -----

  /** The manifest of one workflow with one step. */
  function OneStep(action: string, params: Context): File
  {
    File("m", [], [], [WorkflowSpec("w", "s", [OneSpec(action, params)])])
  }

  function OneSpec(action: string, params: Context): StepSpec
  {
    StepSpec("s", "leaf", action, params, "", "", "", "", [], "")
  }

  lemma OneStepIds(action: string, params: Context)
    ensures WorkflowIds(OneStep(action, params).workflows) == {"w"}
    ensures StepIds(OneStep(action, params).workflows[0]) == {"s"}
  {
    var file := OneStep(action, params);
    assert file.workflows[0] in file.workflows && file.workflows[0].id == "w";
    assert file.workflows[0].steps[0].id == "s";
  }

  lemma OneStepIsSound(action: string, params: Context)
    requires action in Std.Default() && Std.Default()[action](params).Made?
    ensures Sound(OneStep(action, params), Std.Default())
  {
    hide Acyclic, StepEdges, WorkflowEdges, WorkflowIds, StepIds, Std.Default;
    var file := OneStep(action, params);
    var wf, ids := file.workflows[0], WorkflowIds(file.workflows);
    OneStepIds(action, params);
    StepEdgesExactly(wf.steps, StepIds(wf), map[], false);
    RankedIsAcyclic(StepEdges(wf.steps, StepIds(wf), map[], false), map[]);
    WorkflowEdgesExactly(file.workflows, ids);
    RankedIsAcyclic(WorkflowEdges(file.workflows, ids), map[]);
    assert action != "" by { NamedActions(action); }
  }

  lemma NamedActions(action: string)
    requires action in Std.Default()
    ensures action != ""
  {
  }

  /** The tables it becomes. */
  lemma OneStepTables(action: string, params: Context, d: Domain, text: Error -> string)
    requires action in Std.Default() && Std.Default()[action](params).Made?
    requires LoadOf(OneStep(action, params), map[], Std.Default()) == Ok(d)
    ensures var w, run := WorldOf(d, text), Std.Default()[action](params).action;
            && "w" in w.workflows && w.workflows["w"].entry == "s"
            && "s" in w.workflows["w"].steps && w.workflows["w"].steps["s"] == Leaf("s", run, "", "", "", "")
  {
    hide Std.Default;
    var specs := [OneSpec(action, params)];
    var step := Leaf("s", Std.Default()[action](params).action, "", "", "", "");
    assert Built("w", specs[0], map[], Std.Default()) == Ok(step);
    assert BuiltFrom("w", specs, 1, map["s" := step], map[], Std.Default()) == Ok(map["s" := step]);
    assert BuiltFrom("w", specs, 0, map[], map[], Std.Default()) == Ok(map["s" := step]);
    var wfs := OneStep(action, params).workflows;
    var wf := Workflow("w", "", "s", map["s" := step]);
    assert WorkflowsFrom(wfs, 1, [wf], map[], Std.Default()) == Ok([wf]);
    assert [] + [wf] == [wf] && wfs[0].steps == specs;
    assert WorkflowsFrom(wfs, 0, [], map[], Std.Default()) == Ok([wf]);
  }

  lemma OneStepPanics(w: World, ctx: Context, run: Action)
    requires "w" in w.workflows && w.workflows["w"].entry == "s" && w.maxSteps >= 1
    requires "s" in w.workflows["w"].steps && w.workflows["w"].steps["s"] == Leaf("s", run, "", "", "", "")
    requires run(ctx).Panic?
    ensures RunOf(w, Launch("w", "", ctx, 0, [])).out == Panicked(run(ctx).value)
  {
    hide Loop;
    var s := w.workflows["w"].steps["s"];
    var f := Frame([], "w", w.workflows["w"], 0, "s", ctx, [], [], 0);
    var g := f.(steps := 1, trace := ["s"]);
    assert [] + ["s"] == ["s"];
    LoopAtLeaf(w, f, g, s);
  }

  /** A standard action with parameters that can make it panic passes validation and loads, and some event makes the
      run of a manifest with just that step panic; with any other parameters none does. */
  lemma OneStepPanicsExactly(action: string, params: Context, text: Error -> string)
    requires action in Std.Default() && Std.Default()[action](params).Made?
    ensures Sound(OneStep(action, params), Std.Default())
    ensures var r := LoadOf(OneStep(action, params), map[], Std.Default());
            && r.Ok?
            && ((exists e, value :: EndsWith(WorldOf(r.value, text), e, Panicked(value)))
                <==> Std.CanPanic(action, params))
  {
    hide Std.Default, Std.CanPanic, LoadOf, Sound, RunOf, WorldOf;
    var file := OneStep(action, params);
    OneStepIsSound(action, params);
    V.SoundManifestsLoad(file, map[], Std.Default());
    var d := LoadOf(file, map[], Std.Default()).value;
    var w, run := WorldOf(d, text), Std.Default()[action](params).action;
    Std.StandardActionsPanicExactly(action, params);
    if Std.CanPanic(action, params) {
      var ctx :| run(ctx).Panic?;
      OneStepTables(action, params, d, text);
      assert w.maxSteps >= 1 by { Budget(d, text); }
      OneStepPanics(w, ctx, run);
      assert EndsWith(w, SuiteEvent("w", ctx), Panicked(run(ctx).value));
    } else {
      assert SpecsCannotPanic(file);
      forall e, value ensures !EndsWith(w, e, Panicked(value)) {
        StandardRunsNeverPanic(file, d, text, e, value);
      }
    }
  }

  lemma Budget(d: Domain, text: Error -> string)
    ensures WorldOf(d, text).maxSteps >= 1
  {
  }

  /** Requiring a field to equal an empty object, and an event in which it does: a sound manifest whose run panics. */
  lemma EqualObjectsPanic(text: Error -> string)
    ensures var params := map["field" := Text("x"), "op" := Text("eq"), "value" := Object(map[])];
            var file := OneStep("std.require", params);
            var r := LoadOf(file, map[], Std.Default());
            && Sound(file, Std.Default()) && r.Ok?
            && EndsWith(WorldOf(r.value, text), SuiteEvent("w", map["x" := Object(map[])]),
                        Panicked("runtime error: comparing uncomparable type " + "map[string]interface {}"))
  {
    hide Sound, LoadOf, RunOf, WorldOf, Std.Default, Std.CanPanic, Std.RequireFactory, OneStep;
    var params := map["field" := Text("x"), "op" := Text("eq"), "value" := Object(map[])];
    var ctx: Context := map["x" := Object(map[])];
    var run := EqualObjectsAction();
    OneStepPanicsExactly("std.require", params, text);
    var d := LoadOf(OneStep("std.require", params), map[], Std.Default()).value;
    OneStepTables("std.require", params, d, text);
    assert WorldOf(d, text).maxSteps >= 1 by { Budget(d, text); }
    OneStepPanics(WorldOf(d, text), ctx, run);
  }

  lemma EqualObjectsAction() returns (run: Action)
    ensures var params := map["field" := Text("x"), "op" := Text("eq"), "value" := Object(map[])];
            "std.require" in Std.Default() && Std.Default()["std.require"](params) == Made(run)
    ensures run(map["x" := Object(map[])])
            == Panic("runtime error: comparing uncomparable type " + "map[string]interface {}")
  {
    hide Std.Default, Std.RequireFactory;
    var params := map["field" := Text("x"), "op" := Text("eq"), "value" := Object(map[])];
    var ctx := map["x" := Object(map[])];
    EqualObjectsParams(params);
    ObjectsBlow();
    Std.RequiringPanics(params, ctx);
    assert "std.require" in Std.Default() by { Named(); }
    run := Std.RequireFactory(params).action;
  }

  lemma Named()
    ensures "std.require" in Std.Default()
  {
  }

  lemma EqualObjectsParams(params: Context)
    requires params == map["field" := Text("x"), "op" := Text("eq"), "value" := Object(map[])]
    ensures Std.ComparisonParams("std.require", params) == Std.Comparison("x", "eq", Object(map[]))
  {
    hide Std.ValidOp;
    assert Std.TextParam(params, "field") == Some("x");
    assert Std.TextParam(params, "op") == Some("eq");
    assert Std.ValidOp("eq") by { EqIsValid(); }
  }

  lemma EqIsValid()
    ensures Std.ValidOp("eq")
  {
  }

  lemma ObjectsBlow()
    ensures Std.Compared(Object(map[]), "eq", Object(map[]))
         == Std.Blows("runtime error: comparing uncomparable type " + "map[string]interface {}")
  {
  }
}
