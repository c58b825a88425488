/** Where a panic that ends a run comes from. */
module Panics {
  import opened Values
  import opened Join
  import opened Workflows
  import opened BigStep

  ghost predicate HasPanic(log: Log)
  {
    exists e :: e in log && e.what.ActionPanicked?
  }

  /** Some action of the tables panics with this value on some context. */
  ghost predicate Throws(w: World, value: string)
  {
    exists ref, key, ctx: Context :: ThrowsAt(w, ref, key, ctx, value)
  }

  ghost predicate ThrowsAt(w: World, ref: string, key: string, ctx: Context, value: string)
  {
    && ref in w.workflows && key in w.workflows[ref].steps && w.workflows[ref].steps[key].Leaf?
    && w.workflows[ref].steps[key].run(ctx) == Panic(value)
  }

  ghost predicate FromTable(w: World, f: Frame)
  {
    f.ref in w.workflows && f.wf == w.workflows[f.ref]
  }

  /** The panic the outcome may be is an action's, and on record. */
  ghost predicate Accounted(w: World, r: Run)
  {
    r.out.Panicked? ==> HasPanic(r.log) && Throws(w, r.out.value)
  }

  lemma PanicIn(a: Log, b: Log)
    requires HasPanic(a) && forall e :: e in a ==> e in b
    ensures HasPanic(b)
  {
  }

  lemma Thrown(w: World, f: Frame, key: string, ctx: Context, value: string)
    requires FromTable(w, f) && key in f.wf.steps && f.wf.steps[key].Leaf? && f.wf.steps[key].run(ctx) == Panic(value)
    ensures Throws(w, value)
  {
    assert ThrowsAt(w, f.ref, key, ctx, value);
  }

  lemma {:induction false} UnwindPanic(w: World, u: Unwinding)
    requires FromTable(w, u.frame)
    ensures Accounted(w, UnwindAll(w, u))
    decreases |u.left|
  {
    hide Throws, FromTable;
    var n, r := UnwindOne(w, u), UnwindAll(w, u);
    if n.Unwind? {
      UnwindPanic(w, n.unwinding);
      if r.out.Panicked? {
        PanicIn(UnwindAll(w, n.unwinding).log, r.log);
      }
    } else if r.out.Panicked? {
      assert r.log[1].what.ActionPanicked?;
      Thrown(w, u.frame, u.left[|u.left| - 1].via, u.ctx, r.out.value);
    }
  }

  /** A run ends in a panic only if an action of its tables panics with that value on some context, and then the log
      says that an action did. */
  lemma {:induction false} RunPanic(w: World, l: Launch)
    ensures Accounted(w, RunOf(w, l))
    decreases w.maxDepth + 1 - l.depth, w.maxSteps + 2, 0
  {
    hide Loop, HasPanic, Throws;
    if Start(w, l).Begun? {
      LoopPanic(w, Start(w, l).frame);
      assert RunOf(w, l).log == Loop(w, Start(w, l).frame).log;
    }
  }

  lemma {:induction false} LoopPanic(w: World, f: Frame)
    requires f.depth <= w.maxDepth && FromTable(w, f)
    ensures Accounted(w, Loop(w, f))
    decreases w.maxDepth + 1 - f.depth, w.maxSteps + 1 - f.steps, 0
  {
    hide Throws;
    if Top(w, f).Visit? {
      VisitPanic(w, f, Top(w, f).frame, Top(w, f).step);
    }
  }

  lemma {:induction false} ThenPanic(w: World, n: Next, f: Frame)
    requires f.depth <= w.maxDepth && FromTable(w, f) && Continues(n, f)
    requires n.Stop? ==> Accounted(w, Run(n.out, n.log, 0))
    ensures Accounted(w, Then(w, n, f.depth, f.steps))
    decreases w.maxDepth + 1 - f.depth, w.maxSteps + 1 - f.steps, 1
  {
    hide Loop, UnwindAll, HasPanic, Throws;
    var r := Then(w, n, f.depth, f.steps);
    match n
    case Go(g, _) =>
      LoopPanic(w, g);
      if r.out.Panicked? {
        PanicIn(Loop(w, g).log, r.log);
      }
    case Stop(_, _) =>
    case Unwind(u, _) =>
      UnwindPanic(w, u);
      if r.out.Panicked? {
        PanicIn(UnwindAll(w, u).log, r.log);
      }
  }

  lemma StopEnds(w: World, n: Next, f: Frame)
    requires f.depth <= w.maxDepth && n.Stop?
    ensures Then(w, n, f.depth, f.steps) == Run(n.out, n.log, 0)
  {
  }

  lemma ActPanic(w: World, f: Frame, s: Step)
    requires FromTable(w, f) && f.at in f.wf.steps && f.wf.steps[f.at] == s && s.Leaf?
    ensures var n := Act(w, f, s); n.Stop? ==> Accounted(w, Run(n.out, n.log, 0))
    ensures var g := Gated(w, f, s); g.Shut? && g.next.Stop? ==> !g.next.out.Panicked?
  {
    hide OnFailure, Throws, FromTable;
    if s.run(f.ctx).Panic? {
      assert Act(w, f, s).log[1].what.ActionPanicked?;
      Thrown(w, f, f.at, f.ctx, s.run(f.ctx).value);
    }
  }

  lemma {:induction false} VisitPanic(w: World, f: Frame, g: Frame, s: Step)
    requires f.depth <= w.maxDepth && FromTable(w, f) && Top(w, f) == Visit(g, s)
    ensures Accounted(w, Loop(w, f))
    decreases w.maxDepth + 1 - f.depth, w.maxSteps + 1 - g.steps, 2
  {
    hide Loop, RunOf, BranchRuns, Harvest, Then, Throws, HasPanic, Act, Gated;
    var n: Next;
    if s.Leaf? {
      LoopAtLeaf(w, f, g, s);
      ActPanic(w, g, s);
      n := if Gated(w, g, s).Shut? then Gated(w, g, s).next else Act(w, g, s);
    } else if s.Composite? {
      LoopAtComposite(w, f, g, s);
      var sub := RunOf(w, SubLaunch(g, s));
      n := AfterSub(w, g, s, sub.out);
      RunPanic(w, SubLaunch(g, s));
      if sub.out.Panicked? {
        StopEnds(w, n, g);
        PanicIn(sub.log, Loop(w, f).log);
        return;
      }
    } else if Unrunnable(s) {
      LoopAtUnrunnable(w, f, g, s);
      n := Refuse(g, s);
    } else {
      LoopAtParallel(w, f, g, s);
      n := Harvest(w, g, s, Outs(BranchRuns(w, g, s)));
      HarvestCalm(w, g, s, Outs(BranchRuns(w, g, s)));
    }
    ThenPanic(w, n, g);
    if Loop(w, f).out.Panicked? {
      PanicIn(Then(w, n, g.depth, g.steps).log, Loop(w, f).log);
    }
  }

  lemma HarvestCalm(w: World, f: Frame, s: Step, outs: seq<Outcome>)
    requires s.Parallel? && |outs| == |s.branches|
    ensures var n := Harvest(w, f, s, outs); n.Stop? ==> !n.out.Panicked?
  {
    hide OnFailure, PanicLog, Failures, Traces, RivalsOf;
    ClashInRange(f.ctx, s.branches, Deltas(f.ctx, Outputs(Recover(s, outs))), 0, map[]);
  }
}
