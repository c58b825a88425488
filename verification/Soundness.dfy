/** Tables in which every reference resolves cannot go wrong: what no run over them ever reports. */
module Soundness {
  import opened Basics
  import opened Values
  import opened Join
  import opened Graphs
  import opened Workflows
  import opened BigStep
  import opened Machine
  import opened Interleaving
  import opened Budgets

  // ----- Closed tables -----

  ghost predicate ClosedStep(w: World, wf: Workflow, s: Step)
  {
    && !s.Foreign?
    && (SuccessOf(s) != "" ==> SuccessOf(s) in wf.steps)
    && (FallbackOf(w, s) != "" ==> FallbackOf(w, s) in wf.steps)
    && (s.Leaf? && s.compensateRef != "" ==> s.compensateRef in wf.steps)
    && (s.Composite? ==> s.subRef in w.workflows)
    && (s.Parallel? ==> s.branches != [] && forall b :: b in s.branches ==> b in w.workflows)
  }

  ghost predicate ClosedWorkflow(w: World, wf: Workflow)
  {
    wf.entry in wf.steps && forall key :: key in wf.steps ==> ClosedStep(w, wf, wf.steps[key])
  }

  ghost predicate ClosedWorld(w: World)
  {
    forall id :: id in w.workflows ==> ClosedWorkflow(w, w.workflows[id])
  }

  // ----- Who calls whom, and which step follows which -----

  predicate StepCalls(s: Step, ref: string)
  {
    (s.Composite? && s.subRef == ref) || (s.Parallel? && ref in s.branches)
  }

  ghost predicate Calls(w: World, a: string, b: string)
  {
    a in w.workflows && exists key :: key in w.workflows[a].steps && StepCalls(w.workflows[a].steps[key], b)
  }

  ghost predicate CallChain(w: World, chain: seq<string>)
  {
    && (forall r :: r in chain ==> r in w.workflows)
    && (forall i :: 0 <= i < |chain| - 1 ==> Calls(w, chain[i], chain[i + 1]))
  }

  ghost predicate StepsTo(w: World, wf: Workflow, a: string, b: string)
  {
    a in wf.steps && b != "" && (SuccessOf(wf.steps[a]) == b || FallbackOf(w, wf.steps[a]) == b)
  }

  ghost predicate StepChain(w: World, wf: Workflow, chain: seq<string>)
  {
    && (forall k :: k in chain ==> k in wf.steps)
    && (forall i :: 0 <= i < |chain| - 1 ==> StepsTo(w, wf, chain[i], chain[i + 1]))
  }

  /** No workflow calls itself, not even through others, and there are few enough of them. */
  ghost predicate DepthSuffices(w: World)
  {
    |w.workflows| <= w.maxDepth + 1
    && exists g :: Acyclic(g) && forall a, b :: Calls(w, a, b) ==> Edge(g, a, b)
  }

  ghost predicate StepsSuffice(w: World, wf: Workflow)
  {
    |wf.steps| <= w.maxSteps
    && exists g :: Acyclic(g) && forall a, b :: StepsTo(w, wf, a, b) ==> Edge(g, a, b)
  }

  lemma CallChainsAreShort(w: World, chain: seq<string>)
    requires DepthSuffices(w) && CallChain(w, chain)
    ensures |chain| <= w.maxDepth + 1
  {
    var g :| Acyclic(g) && forall a, b :: Calls(w, a, b) ==> Edge(g, a, b);
    hide Acyclic;
    assert Walk(g, chain);
    WalksAreShort(g, chain, w.workflows.Keys);
  }

  lemma StepChainsAreShort(w: World, wf: Workflow, chain: seq<string>)
    requires StepsSuffice(w, wf) && StepChain(w, wf, chain)
    ensures |chain| <= w.maxSteps
  {
    var g :| Acyclic(g) && forall a, b :: StepsTo(w, wf, a, b) ==> Edge(g, a, b);
    hide Acyclic;
    assert Walk(g, chain);
    WalksAreShort(g, chain, wf.steps.Keys);
  }

  // ----- What is ruled out -----

  /** The errors no run over closed tables raises, the two budgets' errors only where the budgets suffice. */
  ghost predicate Ruled(w: World, k: Kind)
  {
    || k in {KNoWorkflow, KNoStep, KUnknownType, KNoBranches}
    || (k == KDepthLimit && DepthSuffices(w))
    || (k == KStepLimit && forall id :: id in w.workflows ==> StepsSuffice(w, w.workflows[id]))
  }

  ghost predicate Proper(w: World, log: Log)
  {
    forall e :: e in log && e.what.Raised? ==> !Ruled(w, e.what.kind)
  }

  /** Whether the target of a compensation exists, and is a leaf where all targets are. */
  ghost predicate Target(w: World, wf: Workflow, via: string)
  {
    via in wf.steps && (LeafTargets(w) ==> wf.steps[via].Leaf?)
  }

  ghost predicate LeafTargets(w: World)
  {
    forall id, key :: id in w.workflows && key in w.workflows[id].steps ==>
        LeafTarget(w.workflows[id], w.workflows[id].steps[key])
  }

  predicate LeafTarget(wf: Workflow, s: Step)
  {
    s.Leaf? && s.compensateRef != "" && s.compensateRef in wf.steps ==> wf.steps[s.compensateRef].Leaf?
  }

  ghost predicate Untargeted(w: World, f: UndoFailure)
  {
    f.why.MissingStep? || (f.why.NotALeaf? && LeafTargets(w))
  }

  ghost predicate ProperOut(w: World, out: Outcome)
  {
    out.Failed? ==>
      && !Ruled(w, KindOf(out.error))
      && (out.error.CircuitBreakerTripped? ==> forall f :: f in out.error.failures ==> !Untargeted(w, f))
  }

  /** Every compensation still to be run has its target. */
  ghost predicate Targeted(w: World, wf: Workflow, done: seq<Undoable>)
  {
    forall d :: d in done ==> Target(w, wf, d.via)
  }

  ghost predicate ProperNext(w: World, f: Frame, s: Step, n: Next)
  {
    && Proper(w, n.log)
    && match n
       case Go(g, _) => Targeted(w, f.wf, g.done) && (g.at == SuccessOf(s) || g.at == FallbackOf(w, s))
       case Stop(out, _) => ProperOut(w, out)
       case Unwind(_, _) => true
  }

  lemma KindsAllowed(w: World)
    ensures forall k :: k in {KTripped, KNoSandbox, KNested, KNoStore, KConflict, KPanicked, KBranchesFailed} ==>
              !Ruled(w, k)
  {
  }

  lemma FailureProper(w: World, f: Frame, s: Step, reason: string)
    requires Targeted(w, f.wf, f.done)
    ensures ProperNext(w, f, s, OnFailure(w, f, s, reason))
  {
  }

  lemma BeforeProper(w: World, f: Frame, s: Step, log: Log, n: Next)
    requires ProperNext(w, f, s, n) && Proper(w, log)
    ensures ProperNext(w, f, s, Before(log, n))
  {
  }

  lemma GateProper(w: World, f: Frame, s: Step)
    requires s.Leaf? && Targeted(w, f.wf, f.done)
    ensures var g := Gated(w, f, s); if g.Shut? then ProperNext(w, f, s, g.next) else Proper(w, g.log)
  {
    KindsAllowed(w);
    if s.probeRef != "" && w.sandbox.Some? {
      var v := w.sandbox.value(Point(f), s.probeRef, f.wf.domain, f.ctx);
      if Refusal(v).Some? {
        FailureProper(w, f, s, Refusal(v).value);
        BeforeProper(w, f, s, [Say(f, ProbeObserved(s.id)), Say(f, ProbeAsked(s.probeRef, v)),
                               Say(f, ProbeOutcome(s.id, false))],
                     OnFailure(w, f, s, Refusal(v).value));
      }
    }
  }

  lemma ActProper(w: World, f: Frame, s: Step)
    requires s.Leaf? && Targeted(w, f.wf, f.done) && (s.compensateRef != "" ==> Target(w, f.wf, s.compensateRef))
    ensures ProperNext(w, f, s, Act(w, f, s))
  {
    hide OnFailure, Ruled;
    KindsAllowed(w);
    var r := s.run(f.ctx);
    if r.Failure? {
      FailureProper(w, f, s, r.reason);
      BeforeProper(w, f, s, [Say(f, StepObserved(s.id))], OnFailure(w, f, s, r.reason));
    }
  }

  lemma SubProper(w: World, f: Frame, s: Step, out: Outcome)
    requires s.Composite? && Targeted(w, f.wf, f.done) && ProperOut(w, out)
    ensures ProperNext(w, f, s, AfterSub(w, f, s, out))
  {
    hide OnFailure, Ruled;
    if out.Failed? && !BypassesBreaker(out.error) {
      FailureProper(w, f, s, w.text(out.error));
    }
  }

  lemma {:induction false} PanicLogProper(w: World, f: Frame, outs: seq<Outcome>, i: nat)
    requires i <= |outs|
    ensures Proper(w, PanicLog(f, outs, i))
    decreases |outs| - i
  {
    if i < |outs| {
      PanicLogProper(w, f, outs, i + 1);
    }
  }

  lemma ResolveProper(w: World, f: Frame, s: Step, outs: seq<Outcome>, k: string)
    requires s.Parallel? && |outs| == |s.branches| && MayName(JoinOf(f, s, outs), k)
    requires Targeted(w, f.wf, f.done) && forall out :: out in outs ==> ProperOut(w, out)
    ensures ProperNext(w, f, s, Resolve(w, f, s, outs, k))
  {
    hide OnFailure, Ruled, Target, Untargeted, Resolve, JoinOf, Failures, Traces, RivalsOf;
    KindsAllowed(w);
    ResolveShape(w, f, s, outs, k);
    var rs := Recover(s, outs);
    var failures := Failures(w, s.branches, rs);
    if FirstBypass(rs, 0) < |rs| {
      assert outs[FirstBypass(rs, 0)] in outs;
    } else if failures != [] {
      var reason := w.text(BranchesFailed(s.id, |s.branches|, failures));
      FailureProper(w, f, s, reason);
      BeforeProper(w, f, s, [Say(f, Raised(KBranchesFailed))], OnFailure(w, f, s, reason));
    }
  }

  lemma HarvestProper(w: World, f: Frame, s: Step, outs: seq<Outcome>)
    requires s.Parallel? && |outs| == |s.branches|
    requires Targeted(w, f.wf, f.done) && forall out :: out in outs ==> ProperOut(w, out)
    ensures ProperNext(w, f, s, Harvest(w, f, s, outs))
  {
    hide PanicLog, Resolve, ProperNext;
    var k := SomeField(f, s, outs);
    ResolveProper(w, f, s, outs, k);
    PanicLogProper(w, f, outs, 0);
    BeforeProper(w, f, s, PanicLog(f, outs, 0), Resolve(w, f, s, outs, k));
  }

  lemma {:induction false} UnwindProper(w: World, u: Unwinding)
    requires Targeted(w, u.frame.wf, u.left) && forall f :: f in u.failures ==> !Untargeted(w, f)
    ensures var r := UnwindAll(w, u); Proper(w, r.log) && ProperOut(w, r.out)
    decreases |u.left|
  {
    hide Ruled;
    KindsAllowed(w);
    var n := UnwindOne(w, u);
    if n.Unwind? {
      var entry := u.left[|u.left| - 1];
      assert entry in u.left;
      UnwindProper(w, n.unwinding);
    }
  }

  // ----- Whole runs -----

  /** `calls` leads to the workflow being run, one workflow for each level of depth. */
  ghost predicate CalledThrough(w: World, calls: seq<string>, ref: string, depth: nat)
  {
    |calls| == depth && CallChain(w, calls + [ref])
  }

  /** Where a frame of a closed world can stand: on a step of its workflow, with `visits` behind it. */
  ghost predicate Standing(w: World, f: Frame, calls: seq<string>, visits: seq<string>)
  {
    && f.ref in w.workflows && f.wf == w.workflows[f.ref] && CalledThrough(w, calls, f.ref, f.depth)
    && Targeted(w, f.wf, f.done)
    && (f.at == "" || f.at in f.wf.steps)
    && |visits| == f.steps && StepChain(w, f.wf, if f.at == "" then visits else visits + [f.at])
  }

  lemma CallOn(w: World, f: Frame, calls: seq<string>, visits: seq<string>, s: Step, ref: string)
    requires Standing(w, f, calls, visits) && f.at in f.wf.steps && s == f.wf.steps[f.at]
    requires StepCalls(s, ref) && ref in w.workflows
    ensures CalledThrough(w, calls + [f.ref], ref, f.depth + 1)
  {
    var chain := calls + [f.ref] + [ref];
    assert Calls(w, f.ref, ref);
    assert forall r :: r in chain ==> r in calls + [f.ref] || r == ref;
    forall i | 0 <= i < |chain| - 1 ensures Calls(w, chain[i], chain[i + 1]) {
      if i < |calls| {
        assert chain[i] == (calls + [f.ref])[i] && chain[i + 1] == (calls + [f.ref])[i + 1];
      }
    }
  }

  lemma ChainGrows(w: World, wf: Workflow, chain: seq<string>, to: string)
    requires StepChain(w, wf, chain) && chain != [] && StepsTo(w, wf, chain[|chain| - 1], to) && to in wf.steps
    ensures StepChain(w, wf, chain + [to])
  {
    hide StepsTo;
    var longer := chain + [to];
    assert forall k :: k in longer ==> k in chain || k == to;
    forall i | 0 <= i < |longer| - 1 ensures StepsTo(w, wf, longer[i], longer[i + 1]) {
      if i < |chain| - 1 {
        assert StepsTo(w, wf, chain[i], chain[i + 1]);
      }
    }
  }

  lemma StepOn(w: World, f: Frame, calls: seq<string>, visits: seq<string>, g: Frame, s: Step, n: Next)
    requires ClosedWorld(w) && Standing(w, f, calls, visits) && Top(w, f) == Visit(g, s)
    requires Continues(n, g) && ProperNext(w, g, s, n) && n.Go?
    ensures Standing(w, n.frame, calls, visits + [f.at])
  {
    hide StepChain, CallChain, Ruled, ClosedStep, SuccessOf, FallbackOf;
    var at := n.frame.at;
    assert f.at != "" by { VisitsAStep(w, f); }
    if at != "" {
      EdgeStays(w, f.wf, s, at);
      assert StepsTo(w, f.wf, f.at, at);
      ChainGrows(w, f.wf, visits + [f.at], at);
    }
  }

  lemma VisitsAStep(w: World, f: Frame)
    requires Top(w, f).Visit?
    ensures f.at != ""
  {
  }

  lemma EdgeStays(w: World, wf: Workflow, s: Step, at: string)
    requires ClosedWorld(w) && wf in w.workflows.Values && s in wf.steps.Values
    requires at != "" && (at == SuccessOf(s) || at == FallbackOf(w, s))
    ensures at in wf.steps
  {
    assert ClosedWorkflow(w, wf) && ClosedStep(w, wf, s);
  }

  lemma {:induction false} RunProper(w: World, l: Launch, calls: seq<string>)
    requires ClosedWorld(w) && l.ref in w.workflows && CalledThrough(w, calls, l.ref, l.depth)
    requires l.start == "" || l.start in w.workflows[l.ref].steps
    ensures var r := RunOf(w, l); Proper(w, r.log) && ProperOut(w, r.out)
    decreases w.maxDepth + 1 - l.depth, w.maxSteps + 2, 0
  {
    hide Loop, Standing, Ruled, CalledThrough, RunOf, Proper, ProperOut;
    if Start(w, l).Begun? {
      StartStands(w, l, calls);
      LoopProper(w, Start(w, l).frame, calls, []);
      RunBegins(w, l);
    } else {
      RejectedProper(w, l, calls);
      RejectionProper(w, l);
    }
  }

  lemma RunBegins(w: World, l: Launch)
    requires Start(w, l).Begun?
    ensures RunOf(w, l).log == Loop(w, Start(w, l).frame).log && RunOf(w, l).out == Loop(w, Start(w, l).frame).out
  {
    hide Loop;
    assert [] + Loop(w, Start(w, l).frame).log == Loop(w, Start(w, l).frame).log;
  }

  lemma RejectionProper(w: World, l: Launch)
    requires Start(w, l).Rejected? && !Ruled(w, KindOf(Start(w, l).error))
    ensures Proper(w, RunOf(w, l).log) && ProperOut(w, RunOf(w, l).out)
  {
    hide Ruled;
  }

  lemma StartStands(w: World, l: Launch, calls: seq<string>)
    requires ClosedWorld(w) && l.ref in w.workflows && CalledThrough(w, calls, l.ref, l.depth) && Start(w, l).Begun?
    requires l.start == "" || l.start in w.workflows[l.ref].steps
    ensures Standing(w, Start(w, l).frame, calls, [])
  {
    hide LeafTargets, ClosedStep, CalledThrough, StepsTo;
    var f := Start(w, l).frame;
    assert ClosedWorkflow(w, f.wf);
    assert [] + [f.at] == [f.at];
  }

  lemma RejectedProper(w: World, l: Launch, calls: seq<string>)
    requires l.ref in w.workflows && CalledThrough(w, calls, l.ref, l.depth) && Start(w, l).Rejected?
    ensures !Ruled(w, KindOf(Start(w, l).error))
  {
    if DepthSuffices(w) {
      CallChainsAreShort(w, calls + [l.ref]);
    }
  }

  lemma RefusingProper(w: World, f: Frame, calls: seq<string>, visits: seq<string>)
    requires Standing(w, f, calls, visits) && Top(w, f).Refusing?
    ensures !Ruled(w, KindOf(Top(w, f).error)) && !Top(w, f).error.CircuitBreakerTripped?
  {
    if StepsSuffice(w, f.wf) {
      StepChainsAreShort(w, f.wf, visits + [f.at]);
    }
  }

  lemma {:induction false} LoopProper(w: World, f: Frame, calls: seq<string>, visits: seq<string>)
    requires f.depth <= w.maxDepth && ClosedWorld(w) && Standing(w, f, calls, visits)
    ensures var r := Loop(w, f); Proper(w, r.log) && ProperOut(w, r.out)
    decreases w.maxDepth + 1 - f.depth, w.maxSteps + 1 - f.steps, 0
  {
    hide Ruled;
    match Top(w, f)
    case Through(_) =>
    case Refusing(_) => RefusingProper(w, f, calls, visits);
    case Visit(g, s) => VisitProper(w, f, calls, visits, g, s);
  }

  lemma {:induction false} VisitProper(w: World, f: Frame, calls: seq<string>, visits: seq<string>, g: Frame, s: Step)
    requires f.depth <= w.maxDepth && ClosedWorld(w) && Standing(w, f, calls, visits) && Top(w, f) == Visit(g, s)
    ensures var r := Loop(w, f); Proper(w, r.log) && ProperOut(w, r.out)
    decreases w.maxDepth + 1 - f.depth, w.maxSteps + 1 - g.steps, 3
  {
    hide Loop, RunOf, BranchRuns, Harvest, Then, Act, Gated, AfterSub, ProperNext, Ruled, Proper, ProperOut, Standing,
         ClosedWorld, ClosedStep, Top;
    StandingFacts(w, f, calls, visits, g, s);
    if s.Leaf? {
      LoopAtLeaf(w, f, g, s);
      GateProper(w, g, s);
      ActProper(w, g, s);
      var gate := Gated(w, g, s);
      if gate.Open? {
        TurnProper(w, f, calls, visits, g, s, gate.log, Act(w, g, s));
      } else {
        NothingProper(w);
        TurnProper(w, f, calls, visits, g, s, [], gate.next);
        assert Seen(f, s) + [] == Seen(f, s);
      }
    } else if s.Composite? {
      LoopAtComposite(w, f, g, s);
      var sub := RunOf(w, SubLaunch(g, s));
      CallOn(w, f, calls, visits, s, s.subRef);
      RunProper(w, SubLaunch(g, s), calls + [f.ref]);
      SubProper(w, g, s, sub.out);
      TurnProper(w, f, calls, visits, g, s, sub.log, AfterSub(w, g, s, sub.out));
    } else {
      LoopAtParallel(w, f, g, s);
      var runs := BranchRuns(w, g, s);
      forall i | 0 <= i < |runs| ensures Proper(w, runs[i].log) && ProperOut(w, runs[i].out) {
        var l := BranchLaunch(g, s, i);
        CallOn(w, f, calls, visits, s, l.ref);
        RunProper(w, l, calls + [f.ref]);
      }
      ConcatProper(w, Logs(runs));
      HarvestProper(w, g, s, Outs(runs));
      TurnProper(w, f, calls, visits, g, s, Concat(Logs(runs)), Harvest(w, g, s, Outs(runs)));
    }
  }

  lemma StandingFacts(w: World, f: Frame, calls: seq<string>, visits: seq<string>, g: Frame, s: Step)
    requires ClosedWorld(w) && Standing(w, f, calls, visits) && Top(w, f) == Visit(g, s)
    ensures f.at in f.wf.steps && s == f.wf.steps[f.at] && g.wf == f.wf && Targeted(w, g.wf, g.done)
    ensures !Unrunnable(s) && (s.Leaf? && s.compensateRef != "" ==> Target(w, g.wf, s.compensateRef))
    ensures s.Composite? ==> s.subRef in w.workflows && StepCalls(s, s.subRef)
    ensures s.Parallel? ==> forall i :: 0 <= i < |s.branches| ==>
              s.branches[i] in w.workflows && StepCalls(s, s.branches[i])
    ensures g.depth == f.depth && g.steps == f.steps + 1 && g.path == f.path
  {
    assert ClosedWorkflow(w, f.wf) && ClosedStep(w, f.wf, s);
    assert LeafTargets(w) ==> LeafTarget(f.wf, s);
  }

  lemma NothingProper(w: World)
    ensures Proper(w, [])
  {
  }

  lemma ConcatProper(w: World, logs: seq<Log>)
    requires forall i :: 0 <= i < |logs| ==> Proper(w, logs[i])
    ensures Proper(w, Concat(logs))
  {
    hide Ruled;
    forall e | e in Concat(logs) && e.what.Raised? ensures !Ruled(w, e.what.kind) {
      ConcatMember(logs, e);
    }
  }

  /** The visit and what ran below it were proper, so the rest being proper is all it takes. */
  lemma {:induction false} TurnProper(w: World, f: Frame, calls: seq<string>, visits: seq<string>, g: Frame, s: Step,
                                      inner: Log, n: Next)
    requires f.depth <= w.maxDepth && ClosedWorld(w) && Standing(w, f, calls, visits) && Top(w, f) == Visit(g, s)
    requires Continues(n, g) && ProperNext(w, g, s, n) && Proper(w, inner)
    ensures var r := Then(w, n, g.depth, g.steps); Proper(w, (Seen(f, s) + inner) + r.log) && ProperOut(w, r.out)
    decreases w.maxDepth + 1 - f.depth, w.maxSteps + 1 - g.steps, 2
  {
    hide Loop, UnwindAll, Ruled, Top, Standing, ClosedWorld;
    assert Top(w, f).Visit?;
    match n
    case Go(h, _) =>
      StepOn(w, f, calls, visits, g, s, n);
      LoopProper(w, h, calls, visits + [f.at]);
    case Stop(_, _) =>
    case Unwind(u, _) =>
      StandingFacts(w, f, calls, visits, g, s);
      UnwindProper(w, u);
  }

  lemma ProperSame(w: World, all: Log, part: Log, rest: Log)
    requires multiset(all) == multiset(part) + multiset(rest) && Proper(w, all)
    ensures Proper(w, part)
  {
    hide Ruled;
    assert forall e :: e in part ==> e in multiset(all);
  }

  lemma ProperAgrees(w: World, a: Outcome, b: Outcome)
    requires Agrees(a, b) && ProperOut(w, a)
    ensures ProperOut(w, b)
  {
    hide Ruled;
  }

  /** Whatever the actions, probes, input and schedule do: over closed tables no run looks for a workflow or a step
      that is not there, meets a step it does not know or a fan-out without branches, or finds a compensation missing;
      nor does it exhaust a budget that suffices for the shape of the tables. Where every compensation is a leaf,
      compensations fail only by refusing. */
  lemma ClosedWorldsCannotGoWrong(w: World, ref: string, start: string, ctx: Context, cs: seq<Choice>)
    requires ClosedWorld(w) && ref in w.workflows && (start == "" || start in w.workflows[ref].steps)
    requires Follows(w, Starting(Launch(ref, start, ctx, 0, [])), cs)
    ensures var t := Execute(w, Starting(Launch(ref, start, ctx, 0, [])), cs);
            Proper(w, t.log) && (t.machine.Halted? ==> ProperOut(w, t.machine.out))
  {
    hide Execute, Follows, RunOf, Ruled, Enabled, Agrees, Proper, ProperOut, Denote, ClosedWorld, CalledThrough;
    var l := Launch(ref, start, ctx, 0, []);
    CalledFirst(w, ref);
    RunProper(w, l, []);
    ExecutionLeaves(w, Starting(l), cs);
    SchedulingIsInvisible(w, l, cs);
    var t := Execute(w, Starting(l), cs);
    assert Denote(w, Starting(l)) == RunOf(w, l) by { StartDenotes(w, l); }
    ProperSame(w, RunOf(w, l).log, t.log, Denote(w, t.machine).log);
    if t.machine.Halted? {
      ProperAgrees(w, RunOf(w, l).out, t.machine.out);
    }
  }

  lemma CalledFirst(w: World, ref: string)
    requires ref in w.workflows
    ensures CalledThrough(w, [], ref, 0)
  {
  }

  lemma StartDenotes(w: World, l: Launch)
    ensures WellFormed(w, Starting(l)) && Denote(w, Starting(l)) == RunOf(w, l)
  {
  }
}
