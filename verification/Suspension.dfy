/** Suspending and resuming against running straight through. */
module Suspension {
  import opened Basics
  import opened Values
  import opened Join
  import opened Workflows
  import opened BigStep
  import opened Interleaving

  /** What a suspended frame leaves behind when it is resumed as a fresh one. */
  datatype Past = Past(trace: seq<string>, done: seq<Undoable>, steps: nat)

  const NOTHING := Past([], [], 0)

  /** `f` stands where `g` stands, with a past that `g` lacks. */
  ghost predicate Later(z: Past, f: Frame, g: Frame)
  {
    && f.ref == g.ref && f.wf == g.wf && f.depth == g.depth && f.at == g.at && f.ctx == g.ctx
    && f.trace == z.trace + g.trace && f.done == z.done + g.done && f.steps == z.steps + g.steps
  }

  ghost predicate ReportIsPart(b: Outcome, a: Outcome)
  {
    && a.Failed? && a.error.CircuitBreakerTripped? && b.Failed? && b.error.CircuitBreakerTripped?
    && a.error.step == b.error.step && a.error.reason == b.error.reason
    && b.error.compensated <= a.error.compensated && b.error.failures <= a.error.failures
  }

  /** How the frame without the past ends, given how the one with it ends: with the same output or the same
      suspension and the trace since; with the same error, except that the compensation report stops at what the
      frame did itself, and that its step budget is a fresh one. */
  ghost predicate EndsAlike(z: Past, a: Outcome, b: Outcome)
  {
    && (z == NOTHING ==> Agrees(a, b))
    && match a
       case Finished(output, trace) => b.Finished? && b.output == output && trace == z.trace + b.trace
       case Parked(_, _, _, _, _, trace) => b.Parked? && a == b.(trace := trace) && trace == z.trace + b.trace
       case Failed(e) => e.StepLimitExceeded? || Agrees(a, b) || ReportIsPart(b, a)
       case Panicked(_) => a == b || (b.Failed? && b.error.CircuitBreakerTripped?)
  }

  ghost predicate GoesAlike(z: Past, a: Next, b: Next)
  {
    match a
    case Go(f, _) => b.Go? && Later(z, f, b.frame)
    case Stop(out, _) => b.Stop? && EndsAlike(z, out, b.out)
    case Unwind(u, _) => b.Unwind? && UnwindsAlike(z, u, b.unwinding)
  }

  ghost predicate UnwindsAlike(z: Past, u: Unwinding, v: Unwinding)
  {
    && u.frame.wf == v.frame.wf && u.step == v.step && u.reason == v.reason && u.left == z.done + v.left
    && u.ctx == v.ctx && u.undone == v.undone && u.failures == v.failures
  }

  /** A probe's answer depends on what it is asked, not on when or where. */
  ghost predicate PureProbes(w: World)
  {
    w.sandbox.Some? ==>
        forall p, q, ref, domain, ctx :: w.sandbox.value(p, ref, domain, ctx) == w.sandbox.value(q, ref, domain, ctx)
  }

  // ----- One turn -----

  lemma ErrorsAlike(z: Past, f: Frame, g: Frame, e: Error)
    requires !e.StepLimitExceeded?
    ensures GoesAlike(z, Raise(f, e), Raise(g, e))
  {
  }

  lemma FailureAlike(w: World, z: Past, f: Frame, g: Frame, s: Step, reason: string)
    requires Later(z, f, g)
    ensures GoesAlike(z, OnFailure(w, f, s, reason), OnFailure(w, g, s, reason))
  {
  }

  lemma GateAlike(w: World, z: Past, f: Frame, g: Frame, s: Step)
    requires Later(z, f, g) && s.Leaf? && PureProbes(w)
    ensures var a, b := Gated(w, f, s), Gated(w, g, s);
            a.Open? == b.Open? && (a.Shut? ==> GoesAlike(z, a.next, b.next))
  {
    if s.probeRef != "" && w.sandbox.Some? {
      var v := w.sandbox.value(Point(f), s.probeRef, f.wf.domain, f.ctx);
      assert v == w.sandbox.value(Point(g), s.probeRef, g.wf.domain, g.ctx);
      if Refusal(v).Some? {
        FailureAlike(w, z, f, g, s, Refusal(v).value);
      }
    }
  }

  lemma ActAlike(w: World, z: Past, f: Frame, g: Frame, s: Step)
    requires Later(z, f, g) && s.Leaf?
    ensures GoesAlike(z, Act(w, f, s), Act(w, g, s))
  {
    var r := s.run(f.ctx);
    if r.Output? && s.compensateRef != "" {
      var u := [Undoable(s.id, s.compensateRef)];
      assert (z.done + g.done) + u == z.done + (g.done + u);
    }
  }

  lemma SubAlike(w: World, z: Past, f: Frame, g: Frame, s: Step, out: Outcome, out': Outcome)
    requires Later(z, f, g) && s.Composite? && Agrees(out, out')
    ensures GoesAlike(z, AfterSub(w, f, s, out), AfterSub(w, g, s, out'))
  {
    match out
    case Failed(e) =>
      if !BypassesBreaker(e) {
        FailureAlike(w, z, f, g, s, w.text(e));
      }
    case Panicked(_) =>
    case _ => assert (z.trace + g.trace) + TraceOf(out) == z.trace + (g.trace + TraceOf(out));
  }

  /** The turn after a fan-out, by cases. */
  lemma BranchesShape(w: World, f: Frame, s: Step, outs: seq<Outcome>, k: string)
    requires s.Parallel? && |outs| == |s.branches| && MayName(JoinOf(f, s, outs), k)
    ensures var n, rs := AfterBranches(w, f, s, outs, k), Recover(s, outs);
            var failures, r := Failures(w, s.branches, rs), JoinOf(f, s, outs);
            if FirstBypass(rs, 0) < |rs| then n.Stop? && n.out == rs[FirstBypass(rs, 0)]
            else if failures != [] then
              var m := OnFailure(w, f, s, w.text(BranchesFailed(s.id, |s.branches|, failures)));
              (m.Go? ==> n.Go? && n.frame == m.frame) && (m.Unwind? ==> n.Unwind? && n.unwinding == m.unwinding)
            else if r.Joined? then
              n.Go? && n.frame == f.(ctx := r.ctx, trace := f.trace + Traces(rs), at := s.onSuccess)
            else
              && r.second < |s.branches| && k in Clashes(r.ledger, r.delta)
              && n.Stop? && n.out == Failed(ConflictError(s, r, k))
  {
    hide PanicLog, OnFailure, Failures, Traces;
    ClashInRange(f.ctx, s.branches, Deltas(f.ctx, Outputs(Recover(s, outs))), 0, map[]);
  }

  lemma FailedAlike(z: Past, out: Outcome)
    requires out.Failed?
    ensures EndsAlike(z, out, out)
  {
  }

  lemma ResolveAlike(w: World, z: Past, f: Frame, g: Frame, s: Step, outs: seq<Outcome>, k: string)
    requires Later(z, f, g) && s.Parallel? && |outs| == |s.branches| && MayName(JoinOf(g, s, outs), k)
    ensures MayName(JoinOf(f, s, outs), k)
    ensures GoesAlike(z, AfterBranches(w, f, s, outs, k), AfterBranches(w, g, s, outs, k))
  {
    hide AfterBranches, OnFailure, Failures, Traces, EndsAlike, UnwindsAlike;
    var rs := Recover(s, outs);
    assert JoinOf(f, s, outs) == JoinOf(g, s, outs);
    BranchesShape(w, f, s, outs, k);
    BranchesShape(w, g, s, outs, k);
    if FirstBypass(rs, 0) < |rs| {
      FailedAlike(z, rs[FirstBypass(rs, 0)]);
    } else if Failures(w, s.branches, rs) != [] {
      FailureAlike(w, z, f, g, s, w.text(BranchesFailed(s.id, |s.branches|, Failures(w, s.branches, rs))));
    } else if JoinOf(f, s, outs).Joined? {
      assert (z.trace + g.trace) + Traces(rs) == z.trace + (g.trace + Traces(rs));
    } else {
      FailedAlike(z, Failed(ConflictError(s, JoinOf(f, s, outs), k)));
    }
  }

  lemma AgreesThenAlike(z: Past, a: Next, b: Next, c: Next)
    requires NextAgrees(a, b) && GoesAlike(z, b, c)
    ensures GoesAlike(z, a, c)
  {
  }

  lemma HarvestAlike(w: World, z: Past, f: Frame, g: Frame, s: Step, outs: seq<Outcome>, outs': seq<Outcome>)
    requires Later(z, f, g) && s.Parallel? && |outs| == |s.branches| && AllAgree(outs, outs')
    ensures GoesAlike(z, Harvest(w, f, s, outs), Harvest(w, g, s, outs'))
  {
    hide AfterBranches, GoesAlike, NextAgrees;
    var k := SomeField(g, s, outs');
    ResolveAlike(w, z, f, g, s, outs', k);
    AfterBranchesAgrees(w, f, s, outs, outs', SomeField(f, s, outs), k);
    AgreesThenAlike(z, Harvest(w, f, s, outs), AfterBranches(w, f, s, outs', k), AfterBranches(w, g, s, outs', k));
  }

  /** Unwinding further only adds to the report. */
  lemma {:induction false} UnwindAdds(w: World, u: Unwinding)
    ensures var out := UnwindAll(w, u).out;
            || out.Panicked?
            || (out.Failed? && out.error.CircuitBreakerTripped? && out.error.step == u.step
                && out.error.reason == u.reason
                && u.undone <= out.error.compensated && u.failures <= out.error.failures)
    decreases |u.left|
  {
    if UnwindOne(w, u).Unwind? {
      UnwindAdds(w, UnwindOne(w, u).unwinding);
    }
  }

  lemma {:induction false} UnwindAlike(w: World, z: Past, u: Unwinding, v: Unwinding)
    requires UnwindsAlike(z, u, v)
    ensures EndsAlike(z, UnwindAll(w, u).out, UnwindAll(w, v).out)
    decreases |v.left|
  {
    if v.left == [] {
      assert u.left == z.done;
      UnwindAdds(w, u);
    } else {
      var last := v.left[|v.left| - 1];
      assert u.left[|u.left| - 1] == last && u.left[..|u.left| - 1] == z.done + v.left[..|v.left| - 1];
      if UnwindOne(w, v).Unwind? {
        UnwindAlike(w, z, UnwindOne(w, u).unwinding, UnwindOne(w, v).unwinding);
      }
    }
  }

  // ----- Whole runs -----

  /** A run started elsewhere with the same input ends the same. */
  lemma {:induction false} RunAlike(w: World, l: Launch, path: Path)
    requires PureProbes(w)
    ensures Agrees(RunOf(w, l).out, RunOf(w, l.(path := path)).out)
    decreases w.maxDepth + 1 - l.depth, w.maxSteps + 2, 0
  {
    hide Loop;
    if Start(w, l).Begun? {
      var f, g := Start(w, l).frame, Start(w, l.(path := path)).frame;
      assert [] + g.trace == g.trace && [] + g.done == g.done;
      LoopAlike(w, NOTHING, f, g);
    }
  }

  /** The frame with a past and the frame without it end alike. */
  lemma {:induction false} LoopAlike(w: World, z: Past, f: Frame, g: Frame)
    requires f.depth <= w.maxDepth && PureProbes(w) && Later(z, f, g)
    ensures EndsAlike(z, Loop(w, f).out, Loop(w, g).out)
    decreases w.maxDepth + 1 - f.depth, w.maxSteps + 1 - f.steps, 0
  {
    match Top(w, f)
    case Through(_) =>
    case Refusing(e) => RefusalAlike(w, z, f, g);
    case Visit(v, s) => VisitAlike(w, z, f, g, v, s);
  }

  lemma RefusalAlike(w: World, z: Past, f: Frame, g: Frame)
    requires f.depth <= w.maxDepth && Later(z, f, g) && Top(w, f).Refusing?
    ensures EndsAlike(z, Loop(w, f).out, Loop(w, g).out)
  {
    if z == NOTHING {
      assert f.trace == g.trace && Top(w, g) == Top(w, f);
    }
  }

  lemma TopAlike(w: World, z: Past, f: Frame, g: Frame, v: Frame, s: Step) returns (v': Frame)
    requires Later(z, f, g) && Top(w, f) == Visit(v, s)
    ensures Top(w, g) == Visit(v', s) && Later(z, v, v') && v'.path == g.path
  {
    v' := g.(steps := g.steps + 1, trace := g.trace + [s.id]);
    assert (z.trace + g.trace) + [s.id] == z.trace + (g.trace + [s.id]);
  }

  lemma {:induction false} VisitAlike(w: World, z: Past, f: Frame, g: Frame, v: Frame, s: Step)
    requires f.depth <= w.maxDepth && PureProbes(w) && Later(z, f, g) && Top(w, f) == Visit(v, s)
    ensures EndsAlike(z, Loop(w, f).out, Loop(w, g).out)
    decreases w.maxDepth + 1 - f.depth, w.maxSteps + 1 - v.steps, 3
  {
    hide Loop, RunOf, BranchRuns, Harvest, Then, Act, Gated, AfterSub, GoesAlike, EndsAlike, PureProbes, Agrees;
    var v' := TopAlike(w, z, f, g, v, s);
    if s.Leaf? {
      LoopAtLeaf(w, f, v, s);
      LoopAtLeaf(w, g, v', s);
      GateAlike(w, z, v, v', s);
      ActAlike(w, z, v, v', s);
      if Gated(w, v, s).Shut? {
        TurnAlike(w, z, v, v', Gated(w, v, s).next, Gated(w, v', s).next);
      } else {
        TurnAlike(w, z, v, v', Act(w, v, s), Act(w, v', s));
      }
    } else if s.Composite? {
      LoopAtComposite(w, f, v, s);
      LoopAtComposite(w, g, v', s);
      var l, l' := SubLaunch(v, s), SubLaunch(v', s);
      assert l.(path := l'.path) == l';
      RunAlike(w, l, l'.path);
      SubAlike(w, z, v, v', s, RunOf(w, l).out, RunOf(w, l').out);
      TurnAlike(w, z, v, v', AfterSub(w, v, s, RunOf(w, l).out), AfterSub(w, v', s, RunOf(w, l').out));
    } else if Unrunnable(s) {
      LoopAtUnrunnable(w, f, v, s);
      LoopAtUnrunnable(w, g, v', s);
      ErrorsAlike(z, v, v', if s.Foreign? then UnknownStepType(f.at) else NoBranches(f.wf.id, s.id));
      TurnAlike(w, z, v, v', Refuse(v, s), Refuse(v', s));
    } else {
      LoopAtParallel(w, f, v, s);
      LoopAtParallel(w, g, v', s);
      var outs, outs' := Outs(BranchRuns(w, v, s)), Outs(BranchRuns(w, v', s));
      forall i | 0 <= i < |outs| ensures Agrees(outs[i], outs'[i]) {
        var l, l' := BranchLaunch(v, s, i), BranchLaunch(v', s, i);
        assert l.(path := l'.path) == l';
        RunAlike(w, l, l'.path);
      }
      HarvestAlike(w, z, v, v', s, outs, outs');
      TurnAlike(w, z, v, v', Harvest(w, v, s, outs), Harvest(w, v', s, outs'));
    }
  }

  lemma {:induction false} TurnAlike(w: World, z: Past, f: Frame, g: Frame, a: Next, b: Next)
    requires f.depth <= w.maxDepth && PureProbes(w) && Later(z, f, g)
    requires Continues(a, f) && Continues(b, g) && GoesAlike(z, a, b)
    ensures EndsAlike(z, Then(w, a, f.depth, f.steps).out, Then(w, b, g.depth, g.steps).out)
    decreases w.maxDepth + 1 - f.depth, w.maxSteps + 1 - f.steps, 2
  {
    hide Loop, UnwindAll, EndsAlike, PureProbes;
    match a
    case Go(h, _) => LoopAlike(w, z, h, b.frame);
    case Stop(_, _) =>
    case Unwind(u, _) => UnwindAlike(w, z, u, b.unwinding);
  }

  // ----- Where a run is parked -----

  /** The frame stands at a leaf, already on its trace, whose action asks to suspend. */
  ghost predicate ParksAt(w: World, f: Frame, s: Step, out: Outcome)
  {
    && w.hasStore && f.depth == 0 && s.Leaf? && s in f.wf.steps.Values && s.run(f.ctx).Suspended?
    && out == Parked(f.wf.id, s.id, s.run(f.ctx).reason, s.run(f.ctx).audience, f.ctx, f.trace)
  }

  /** A turn parks the frame only by its leaf asking for it, ends it well not at all, and never shortens the trace. */
  ghost predicate ParksByActing(w: World, f: Frame, s: Step, n: Next)
  {
    && (n.Stop? && n.out.Parked? ==> s.Leaf? && ParksAt(w, f, s, n.out))
    && (n.Stop? ==> !n.out.Finished?)
    && (n.Go? ==> f.trace <= n.frame.trace)
  }

  lemma HarvestNeverParks(w: World, f: Frame, s: Step, outs: seq<Outcome>)
    requires s.Parallel? && |outs| == |s.branches|
    ensures ParksByActing(w, f, s, Harvest(w, f, s, outs))
    ensures var n := Harvest(w, f, s, outs); n.Stop? ==> !n.out.Parked?
  {
    ClashInRange(f.ctx, s.branches, Deltas(f.ctx, Outputs(Recover(s, outs))), 0, map[]);
  }

  lemma VisitParks(w: World, f: Frame, g: Frame, s: Step) returns (n: Next)
    requires f.depth <= w.maxDepth && Top(w, f) == Visit(g, s)
    ensures Continues(n, g) && ParksByActing(w, g, s, n)
    ensures Loop(w, f).out == Then(w, n, g.depth, g.steps).out
  {
    hide Loop, RunOf, BranchRuns, Harvest, Then;
    if s.Leaf? {
      LoopAtLeaf(w, f, g, s);
      n := if Gated(w, g, s).Shut? then Gated(w, g, s).next else Act(w, g, s);
    } else if s.Composite? {
      LoopAtComposite(w, f, g, s);
      n := AfterSub(w, g, s, RunOf(w, SubLaunch(g, s)).out);
    } else if Unrunnable(s) {
      LoopAtUnrunnable(w, f, g, s);
      n := Refuse(g, s);
    } else {
      LoopAtParallel(w, f, g, s);
      n := Harvest(w, g, s, Outs(BranchRuns(w, g, s)));
      HarvestNeverParks(w, g, s, Outs(BranchRuns(w, g, s)));
    }
  }

  lemma {:induction false} LoopParks(w: World, f: Frame) returns (g: Frame, s: Step)
    requires f.depth <= w.maxDepth && Loop(w, f).out.Parked?
    ensures ParksAt(w, g, s, Loop(w, f).out)
    ensures g.wf == f.wf && g.ref == f.ref && g.depth == f.depth && f.trace < g.trace
    decreases w.maxSteps + 1 - f.steps
  {
    if Top(w, f).Visit? {
      var v, t := Top(w, f).frame, Top(w, f).step;
      var n := VisitParks(w, f, v, t);
      match n
      case Go(h, _) =>
        g, s := LoopParks(w, h);
      case Stop(_, _) => g, s := v, t;
      case Unwind(u, _) =>
        UnwindAdds(w, u);
        assert false;
    } else {
      assert false;
    }
  }

  /** A run that visits a step and completes has a longer trace. */
  lemma {:induction false} LoopTraces(w: World, f: Frame)
    requires f.depth <= w.maxDepth && Loop(w, f).out.Finished?
    ensures f.trace <= Loop(w, f).out.trace && (f.at != "" ==> f.trace < Loop(w, f).out.trace)
    decreases w.maxSteps + 1 - f.steps
  {
    if Top(w, f).Visit? {
      var n := VisitParks(w, f, Top(w, f).frame, Top(w, f).step);
      match n
      case Go(h, _) => LoopTraces(w, h);
      case Stop(_, _) => assert false;
      case Unwind(u, _) =>
        UnwindAdds(w, u);
        assert false;
    }
  }

  // ----- The promise, and its exact limit -----

  /** The frame as it would go on had the leaf handed out these fields instead of suspending. */
  function GoesOn(f: Frame, s: Step, fields: Context): Frame
    requires s.Leaf?
  {
    var done := if s.compensateRef != "" then f.done + [Undoable(s.id, s.compensateRef)] else f.done;
    f.(ctx := Merge(f.ctx, fields), done := done, at := s.onSuccess)
  }

  /** A run suspended at a leaf and resumed with some fields ends as if the leaf had handed out those fields and the
      run had gone on: same output and whole trace, or the same next suspension with the trace since, or the same
      error with the report of what was done since. This is so exactly when the leaf names a next step, or the
      workflow has no entry step to start over from; otherwise resuming starts the workflow over. */
  lemma ResumingIsGoingOn(w: World, l: Launch, fields: Context) returns (f: Frame, s: Step)
    requires PureProbes(w) && RunOf(w, l).out.Parked?
    ensures l.ref in w.workflows && f.wf == w.workflows[l.ref] && ParksAt(w, f, s, RunOf(w, l).out)
    ensures var next := GoesOn(f, s, fields);
            EndsAlike(Past(f.trace, next.done, f.steps), Loop(w, next).out,
                      RunOf(w, Launch(l.ref, s.onSuccess, next.ctx, 0, [])).out)
            <==> s.onSuccess != "" || f.wf.entry == ""
  {
    hide Loop, EndsAlike;
    f, s := LoopParks(w, Start(w, l).frame);
    var next := GoesOn(f, s, fields);
    var z := Past(f.trace, next.done, f.steps);
    var again := Start(w, Launch(l.ref, s.onSuccess, next.ctx, 0, [])).frame;
    if again.at == s.onSuccess {
      assert f.trace + [] == f.trace && next.done + [] == next.done;
      LoopAlike(w, z, next, again);
    } else {
      StartsOver(w, z, next, again);
    }
  }

  /** Starting over visits a step, so it cannot complete with nothing on its trace. */
  lemma StartsOver(w: World, z: Past, f: Frame, g: Frame)
    requires f.depth <= w.maxDepth && g.depth <= w.maxDepth && f.at == "" && g.at != "" && g.trace == []
             && f.trace == z.trace
    ensures !EndsAlike(z, Loop(w, f).out, Loop(w, g).out)
  {
    if Loop(w, g).out.Finished? {
      LoopTraces(w, g);
      assert z.trace + Loop(w, g).out.trace != z.trace;
    }
  }

  // ----- Starting over, by example -----

  /** One workflow of one step, which always asks and leads nowhere. */
  function Asking(): World
  {
    var ask := Leaf("ask", (ctx: Context) => Suspended("approve?", ""), "", "", "", "");
    World(map["w" := Workflow("w", "", "ask", map["ask" := ask])], map[], None, true, 10, 5, (e: Error) => "")
  }

  /** Going on after its step would complete the run; resuming it asks again. */
  lemma ResumingMayStartOver(answer: Context)
    ensures RunOf(Asking(), Launch("w", "", map[], 0, [])).out == Parked("w", "ask", "approve?", "", map[], ["ask"])
    ensures var w := Asking();
            var f := Frame([], "w", w.workflows["w"], 0, "ask", map[], [], ["ask"], 1);
            && Loop(w, GoesOn(f, f.wf.steps["ask"], answer)).out == Finished(Merge(map[], answer), ["ask"])
            && RunOf(w, Launch("w", "", Merge(map[], answer), 0, [])).out
              == Parked("w", "ask", "approve?", "", Merge(map[], answer), ["ask"])
  {
    AsksAgain(map[]);
    AsksAgain(Merge(map[], answer));
  }

  lemma AsksAgain(ctx: Context)
    ensures RunOf(Asking(), Launch("w", "", ctx, 0, [])).out == Parked("w", "ask", "approve?", "", ctx, ["ask"])
  {
    hide Loop;
    var w := Asking();
    var f := Start(w, Launch("w", "", ctx, 0, [])).frame;
    var g := f.(steps := 1, trace := ["ask"]);
    assert [] + ["ask"] == ["ask"];
    LoopAtLeaf(w, f, g, f.wf.steps["ask"]);
  }
}
