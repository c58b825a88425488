/** Contexts only grow, so a composite step hands back exactly its sub-run's output. */
module Growth {
  import opened Values
  import opened Join
  import opened Workflows
  import opened BigStep

  /** A run that hands back a context hands back every field it was given. */
  ghost predicate Keeps(ctx: Context, out: Outcome)
  {
    out.Finished? || out.Parked? ==> ctx.Keys <= OutputOf(out).Keys
  }

  ghost predicate NextKeeps(ctx: Context, n: Next)
  {
    match n
    case Go(g, _) => ctx.Keys <= g.ctx.Keys
    case Stop(out, _) => Keeps(ctx, out)
    case Unwind(_, _) => true
  }

  lemma {:induction false} UnwindKeeps(w: World, u: Unwinding, ctx: Context)
    ensures Keeps(ctx, UnwindAll(w, u).out)
    decreases |u.left|
  {
    if UnwindOne(w, u).Unwind? {
      UnwindKeeps(w, UnwindOne(w, u).unwinding, ctx);
    }
  }

  lemma {:induction false} JoinKeeps(before: Context, branches: seq<string>, deltas: seq<Context>, i: nat,
                                     ledger: Ledger)
    requires |branches| == |deltas| && i <= |deltas|
    ensures var r := JoinFrom(before, branches, deltas, i, ledger); r.Joined? ==> before.Keys <= r.ctx.Keys
    decreases |deltas| - i
  {
    if i < |deltas| && Clashes(ledger, deltas[i]) == {} {
      JoinKeeps(before, branches, deltas, i + 1, Enter(ledger, branches[i], deltas[i]));
    }
  }

  lemma HarvestKeeps(w: World, f: Frame, s: Step, outs: seq<Outcome>)
    requires s.Parallel? && |outs| == |s.branches|
    ensures NextKeeps(f.ctx, Harvest(w, f, s, outs))
  {
    hide PanicLog, Harvest, Failures, Traces, Delta, RivalsOf, Under;
    JoinKeeps(f.ctx, s.branches, Deltas(f.ctx, Outputs(Recover(s, outs))), 0, map[]);
    HarvestShape(w, f, s, outs);
  }

  lemma {:induction false} RunKeeps(w: World, l: Launch)
    ensures Keeps(l.ctx, RunOf(w, l).out)
    decreases w.maxDepth + 1 - l.depth, w.maxSteps + 2, 0
  {
    if Start(w, l).Begun? {
      LoopKeeps(w, Start(w, l).frame);
    }
  }

  /** Every field of a frame's context is in the output of every run from it that ends with one. */
  lemma {:induction false} LoopKeeps(w: World, f: Frame)
    requires f.depth <= w.maxDepth
    ensures Keeps(f.ctx, Loop(w, f).out)
    decreases w.maxDepth + 1 - f.depth, w.maxSteps + 1 - f.steps, 0
  {
    if Top(w, f).Visit? {
      var g, s := Top(w, f).frame, Top(w, f).step;
      var n := VisitNext(w, f, g, s);
      match n
      case Go(h, _) => LoopKeeps(w, h);
      case Stop(_, _) =>
      case Unwind(u, _) => UnwindKeeps(w, u, f.ctx);
    }
  }

  lemma VisitNext(w: World, f: Frame, g: Frame, s: Step) returns (n: Next)
    requires f.depth <= w.maxDepth && Top(w, f) == Visit(g, s)
    ensures NextKeeps(f.ctx, n) && Continues(n, g)
    ensures Loop(w, f).out == Then(w, n, g.depth, g.steps).out
  {
    hide Loop, RunOf, BranchRuns, Harvest, Then;
    if s.Leaf? {
      LoopAtLeaf(w, f, g, s);
      var gate := Gated(w, g, s);
      n := if gate.Shut? then gate.next else Act(w, g, s);
    } else if s.Composite? {
      LoopAtComposite(w, f, g, s);
      n := AfterSub(w, g, s, RunOf(w, SubLaunch(g, s)).out);
    } else if Unrunnable(s) {
      LoopAtUnrunnable(w, f, g, s);
      n := Refuse(g, s);
    } else {
      LoopAtParallel(w, f, g, s);
      HarvestKeeps(w, g, s, Outs(BranchRuns(w, g, s)));
      n := Harvest(w, g, s, Outs(BranchRuns(w, g, s)));
    }
  }

  /** The fields a sub-run changed, put back over the context it started from, are its output: the engine's
      join of deltas loses nothing, and a composite step's context afterwards is exactly the sub-run's output. */
  lemma SubRunIsWhole(w: World, f: Frame, s: Step)
    requires s.Composite?
    ensures var out := RunOf(w, SubLaunch(f, s)).out;
            out.Finished? ==>
              && Merge(f.ctx, Delta(f.ctx, out.output)) == out.output
              && AfterSub(w, f, s, out).Go? && AfterSub(w, f, s, out).frame.ctx == out.output
  {
    RunKeeps(w, SubLaunch(f, s));
    var out := RunOf(w, SubLaunch(f, s)).out;
    if out.Finished? {
      MergeOfDelta(f.ctx, out.output);
      assert Merge(f.ctx, out.output) == out.output;
    }
  }
}
