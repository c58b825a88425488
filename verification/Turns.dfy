/** What one turn of a run's loop does, case by case, told in the workflow's own terms: how the frame goes on or how it
    ends, and the events in between. */
module Turns {
  import opened Basics
  import opened Values
  import opened Join
  import opened Workflows
  import opened BigStep
  import opened Interleaving
  import opened Suspension
  import opened Growth
  import opened Compensation

  // ----- How a frame goes on -----

  /** After the events `said` the frame goes on as `h` does: to the same end, by the same events. */
  ghost predicate GoesOnAs(w: World, f: Frame, said: Log, h: Frame)
    requires f.depth <= w.maxDepth && h.depth <= w.maxDepth
  {
    Loop(w, f).out == Loop(w, h).out && Loop(w, f).log == said + Loop(w, h).log
  }

  /** After these events the frame has ended this way. */
  ghost predicate Ends(w: World, f: Frame, said: Log, out: Outcome)
    requires f.depth <= w.maxDepth
  {
    Loop(w, f).out == out && Loop(w, f).log == said
  }

  /** The frame has steps left, and its next step is `s`. */
  ghost predicate ComesTo(w: World, f: Frame, s: Step)
  {
    f.depth <= w.maxDepth && f.at != "" && f.steps < w.maxSteps && f.at in f.wf.steps && s == f.wf.steps[f.at]
  }

  /** The frame one step further: same workflow, one more step spent, the step on its trace. */
  ghost predicate OneFurther(f: Frame, s: Step, h: Frame)
  {
    h.path == f.path && h.ref == f.ref && h.wf == f.wf && h.depth == f.depth && h.steps == f.steps + 1
      && f.trace + [s.id] <= h.trace
  }

  /** The step on record, before anything comes of it. */
  ghost function Seeing(f: Frame, leaf: bool): Event
  {
    Event(f.path, Visited(f.ref, f.at, f.steps + 1, f.ctx, leaf))
  }

  /** The same frame with the step counted and on the trace. */
  ghost function Counted(f: Frame, s: Step): (g: Frame)
  {
    f.(steps := f.steps + 1, trace := f.trace + [s.id])
  }

  lemma ComingIsVisiting(w: World, f: Frame, s: Step)
    requires ComesTo(w, f, s)
    ensures Top(w, f) == Visit(Counted(f, s), s)
  {
  }

  // ----- Starting and stopping -----

  /** A launch beyond the depth limit or of an unknown workflow fails; any other runs from the named step, or else from
      the workflow's entry, with nothing done so far. */
  lemma RunMeans(w: World, l: Launch)
    ensures var r := RunOf(w, l);
            if l.depth > w.maxDepth then
              r.out == Failed(DepthLimitExceeded(l.ref, w.maxDepth)) && r.log == [Event(l.path, Raised(KDepthLimit))]
            else if l.ref !in w.workflows then
              r.out == Failed(NoWorkflow(l.ref)) && r.log == [Event(l.path, Raised(KNoWorkflow))]
            else
              var wf := w.workflows[l.ref];
              var at := if l.start != "" then l.start else wf.entry;
              var f := Frame(l.path, l.ref, wf, l.depth, at, l.ctx, [], [], 0);
              r.out == Loop(w, f).out && r.log == Loop(w, f).log
  {
    hide Loop;
  }

  /** At most the last ten steps of the trace. */
  ghost predicate MostRecent(trace: seq<string>, recent: seq<string>)
  {
    && |recent| == (if |trace| < 10 then |trace| else 10)
    && trace == trace[..|trace| - |recent|] + recent
  }

  /** A frame without a next step is through, with its context and trace; one whose budget is spent, or whose step the
      workflow lacks, ends in that error. */
  lemma FrameStops(w: World, f: Frame) returns (recent: seq<string>)
    requires f.depth <= w.maxDepth
    ensures f.at == "" ==> Ends(w, f, [], Finished(f.ctx, f.trace))
    ensures f.at != "" && f.steps >= w.maxSteps ==>
              && Ends(w, f, [Event(f.path, Raised(KStepLimit))], Failed(StepLimitExceeded(f.ref, w.maxSteps, recent)))
              && MostRecent(f.trace, recent)
    ensures f.at != "" && f.steps < w.maxSteps && f.at !in f.wf.steps ==>
              Ends(w, f, [Event(f.path, Raised(KNoStep))], Failed(NoStep(f.ref, f.at)))
  {
    hide RunOf, Then;
    recent := Tail(f.trace, 10);
  }

  /** A step of an unknown kind, a parallel step without branches and a leaf that names a probe where there is no
      sandbox end the run as soon as they are seen: nothing is run, nothing probed, and no breaker is asked. */
  lemma StepStops(w: World, f: Frame, s: Step)
    requires ComesTo(w, f, s)
    ensures s.Foreign? ==>
              Ends(w, f, [Seeing(f, false), Event(f.path, Raised(KUnknownType))], Failed(UnknownStepType(f.at)))
    ensures s.Parallel? && s.branches == [] ==>
              Ends(w, f, [Seeing(f, false), Event(f.path, Raised(KNoBranches))], Failed(NoBranches(f.wf.id, s.id)))
    ensures s.Leaf? && s.probeRef != "" && w.sandbox.None? ==>
              Ends(w, f, [Seeing(f, true), Event(f.path, Raised(KNoSandbox))], Failed(NoSandbox(s.id, s.probeRef)))
  {
    hide Loop, RunOf;
    var g := Counted(f, s);
    ComingIsVisiting(w, f, s);
    if Unrunnable(s) {
      LoopAtUnrunnable(w, f, g, s);
    } else if s.Leaf? {
      LoopAtLeaf(w, f, g, s);
    }
  }

  // ----- Failing -----

  /** The policy of the step names a fallback. */
  ghost predicate HasFallback(w: World, s: Step)
  {
    s.policyRef != "" && s.policyRef in w.policies && w.policies[s.policyRef].fallback != ""
  }

  /** What becomes of a frame whose step failed for this reason, after the events `said`: the breaker is observed, and
      then exactly where the step's policy names a fallback the run goes on there, with the reason and the step's id in
      its context and nothing else changed; otherwise the frame is abandoned with the context it has, its compensations
      are handled, and it ends as they add up: in a tripped breaker that names the step and the reason, or in a panic
      of a compensation. */
  ghost predicate Fails(w: World, f: Frame, s: Step, reason: string, said: Log)
    requires f.depth <= w.maxDepth
  {
    var tripped := said + [Event(f.path, BreakerObserved(f.ref, f.at))];
    if HasFallback(w, s) then
      exists h: Frame :: h.depth <= w.maxDepth && Diverts(w, f, s, reason, h)
                         && GoesOnAs(w, f, tripped + [Event(f.path, Diverted(h.at))], h)
    else
      && tripped + [Event(f.path, Abandoned(f.ctx))] <= Loop(w, f).log
      && exists hs :: IsUnwinding(f.wf, f.done, f.ctx, hs) && EndsAs(Loop(w, f).out, s.id, reason, hs)
  }

  ghost predicate Diverts(w: World, f: Frame, s: Step, reason: string, h: Frame)
  {
    && OneFurther(f, s, h) && h.trace == f.trace + [s.id] && h.done == f.done
    && s.policyRef in w.policies && h.at == w.policies[s.policyRef].fallback
    && Overlaid(f.ctx, map["cee.failure_reason" := Text(reason), "cee.failed_step" := Text(s.id)], h.ctx)
  }

  lemma FailureMeans(w: World, f: Frame, s: Step, reason: string, said: Log)
    requires ComesTo(w, f, s)
    requires var g := Counted(f, s);
             var r := Then(w, OnFailure(w, g, s, reason), g.depth, g.steps);
             Loop(w, f).out == r.out && Loop(w, f).log == said + r.log
    ensures Fails(w, f, s, reason, said)
  {
    hide Loop, UnwindAll, IsUnwinding, EndsAs, Handlings;
    var g := Counted(f, s);
    var n := OnFailure(w, g, s, reason);
    if n.Go? {
      var h := n.frame;
      assert FAILURE_REASON_KEY == "cee.failure_reason" && FAILED_STEP_KEY == "cee.failed_step";
      assert said + (n.log + Loop(w, h).log) == (said + [n.log[0]]) + [n.log[1]] + Loop(w, h).log;
      assert Diverts(w, f, s, reason, h);
    } else {
      UnwindingEnds(w, n.unwinding, g);
      assert said + (n.log + UnwindAll(w, n.unwinding).log)
          == (said + [n.log[0]]) + [n.log[1]] + UnwindAll(w, n.unwinding).log;
    }
  }

  // ----- Leaves -----

  /** The probe's verdict on a leaf, asked at this point of the run with the frame's own domain and context. */
  ghost function Verdict(w: World, f: Frame, s: Step): ProbeVerdict
    requires s.Leaf? && w.sandbox.Some?
  {
    w.sandbox.value(f.path + [f.steps + 1], s.probeRef, f.wf.domain, f.ctx)
  }

  ghost predicate Passes(v: ProbeVerdict)
  {
    v.err.None? && v.healthy
  }

  /** The leaf names no probe, or its probe finds nothing. */
  ghost predicate Lets(w: World, f: Frame, s: Step)
    requires s.Leaf?
  {
    s.probeRef == "" || (w.sandbox.Some? && Passes(Verdict(w, f, s)))
  }

  /** The leaf seen, and its probe, if it names one, observed, asked and its outcome observed. */
  ghost function Asking(w: World, f: Frame, s: Step): (said: Log)
    requires s.Leaf? && (s.probeRef != "" ==> w.sandbox.Some?)
  {
    if s.probeRef == "" then [Seeing(f, true)]
    else
      var v := Verdict(w, f, s);
      [Seeing(f, true), Event(f.path, ProbeObserved(s.id)), Event(f.path, ProbeAsked(s.probeRef, v)),
       Event(f.path, ProbeOutcome(s.id, Passes(v)))]
  }

  lemma LetThrough(w: World, f: Frame, s: Step)
    requires ComesTo(w, f, s) && s.Leaf? && Lets(w, f, s)
    ensures var g := Counted(f, s);
            var r := Then(w, Act(w, g, s), g.depth, g.steps);
            Loop(w, f).out == r.out && Loop(w, f).log == Asking(w, f, s) + r.log
  {
    hide Loop, Then, Act;
    ComingIsVisiting(w, f, s);
    LoopAtLeaf(w, f, Counted(f, s), s);
    assert Seen(f, s) + [] == Seen(f, s);
  }

  /** A leaf that is let through and succeeds hands its fields to the rest of the run, which goes on at its success
      edge, with its compensation, if it declares one, last on the log. */
  lemma LeafSucceeds(w: World, f: Frame, s: Step) returns (h: Frame)
    requires ComesTo(w, f, s) && s.Leaf? && Lets(w, f, s) && s.run(f.ctx).Output?
    ensures OneFurther(f, s, h) && h.trace == f.trace + [s.id] && h.at == s.onSuccess
    ensures Overlaid(f.ctx, s.run(f.ctx).fields, h.ctx)
    ensures h.done == f.done + if s.compensateRef == "" then [] else [Undoable(s.id, s.compensateRef)]
    ensures GoesOnAs(w, f,
                     Asking(w, f, s)
                     + [Event(f.path, StepObserved(s.id)),
                        Event(f.path, Succeeded(f.ref, f.at, s.id, s.compensateRef, s.run(f.ctx).fields))], h)
    ensures h == GoesOn(Counted(f, s), s, s.run(f.ctx).fields)
  {
    hide Loop, Asking;
    var g := Counted(f, s);
    h := GoesOn(g, s, s.run(f.ctx).fields);
    LetThrough(w, f, s);
    assert f.done + [] == f.done;
    var n := Act(w, g, s);
    assert Asking(w, f, s) + (n.log + Loop(w, h).log) == (Asking(w, f, s) + n.log) + Loop(w, h).log;
  }

  /** A leaf whose probe refuses it fails without its action being run, for the probe's error, or else for the failure
      mode the probe detected. */
  lemma ProbeRefuses(w: World, f: Frame, s: Step)
    requires ComesTo(w, f, s) && s.Leaf? && s.probeRef != "" && w.sandbox.Some? && !Passes(Verdict(w, f, s))
    ensures var v := Verdict(w, f, s);
            Fails(w, f, s, if v.err.Some? then v.err.value else v.mode, Asking(w, f, s))
  {
    hide Loop, Then, Fails, OnFailure;
    var g, v := Counted(f, s), Verdict(w, f, s);
    ComingIsVisiting(w, f, s);
    LoopAtLeaf(w, f, g, s);
    FailsAfter(w, f, s, Refusal(v).value, Asking(w, f, s)[1..], Seen(f, s), Gated(w, g, s).next);
    assert Seen(f, s) + Asking(w, f, s)[1..] == Asking(w, f, s);
  }

  /** A turn that says something and then fails. */
  lemma FailsAfter(w: World, f: Frame, s: Step, reason: string, log: Log, said: Log, n: Next)
    requires ComesTo(w, f, s) && n == Before(log, OnFailure(w, Counted(f, s), s, reason))
    requires var r := Then(w, n, f.depth, f.steps + 1);
             Loop(w, f).out == r.out && Loop(w, f).log == said + r.log
    ensures Fails(w, f, s, reason, said + log)
  {
    hide Loop, Fails, OnFailure;
    var g := Counted(f, s);
    var r := Then(w, OnFailure(w, g, s, reason), g.depth, g.steps);
    ThenBefore(w, OnFailure(w, g, s, reason), log, g);
    assert said + (log + r.log) == (said + log) + r.log;
    FailureMeans(w, f, s, reason, said + log);
  }

  lemma ThenBefore(w: World, n: Next, log: Log, g: Frame)
    requires g.depth <= w.maxDepth && (n.Go? ==> n.frame.depth == g.depth && n.frame.steps == g.steps)
    ensures var r, r' := Then(w, n, g.depth, g.steps), Then(w, Before(log, n), g.depth, g.steps);
            r'.out == r.out && r'.log == log + r.log
  {
    hide Loop, UnwindAll;
    match n
    case Go(f, l) => assert (log + l) + Loop(w, f).log == log + (l + Loop(w, f).log);
    case Stop(_, _) =>
    case Unwind(u, l) => assert (log + l) + UnwindAll(w, u).log == log + (l + UnwindAll(w, u).log);
  }

  /** A leaf that is let through and fails, fails for its action's reason. */
  lemma LeafFails(w: World, f: Frame, s: Step)
    requires ComesTo(w, f, s) && s.Leaf? && Lets(w, f, s) && s.run(f.ctx).Failure?
    ensures Fails(w, f, s, s.run(f.ctx).reason, Asking(w, f, s) + [Event(f.path, StepObserved(s.id))])
  {
    hide Loop, Then, Fails, OnFailure, Asking;
    LetThrough(w, f, s);
    FailsAfter(w, f, s, s.run(f.ctx).reason, [Event(f.path, StepObserved(s.id))], Asking(w, f, s),
               Act(w, Counted(f, s), s));
  }

  /** A leaf that asks to suspend never reaches the breaker: below the top level, or without a store, the run ends in
      the error that says so, and otherwise it is parked with the workflow, the step, the reason, the audience, the
      context and the trace it has. A leaf that panics ends the frame in that panic. */
  lemma LeafStops(w: World, f: Frame, s: Step)
    requires ComesTo(w, f, s) && s.Leaf? && Lets(w, f, s)
    ensures var said := Asking(w, f, s) + [Event(f.path, StepObserved(s.id))];
            match s.run(f.ctx)
            case Suspended(reason, audience) =>
              if f.depth > 0 then
                Ends(w, f, said + [Event(f.path, Raised(KNested))], Failed(NestedSuspensionUnsupported(f.wf.id, s.id)))
              else if !w.hasStore then
                Ends(w, f, said + [Event(f.path, Raised(KNoStore))], Failed(NoSuspensionSupport(f.wf.id, s.id)))
              else
                Ends(w, f, said + [Event(f.path, SuspensionReached(s.id))],
                     Parked(f.wf.id, s.id, reason, audience, f.ctx, f.trace + [s.id]))
            case Panic(value) => Ends(w, f, said + [Event(f.path, ActionPanicked)], Panicked(value))
            case _ => true
  {
    hide Loop, Lets, Asking, OnFailure;
    LetThrough(w, f, s);
  }

  // ----- Composite steps -----

  /** The run of a composite step's workflow: from its entry, one level down, on the frame's own context. */
  ghost function SubRun(w: World, f: Frame, s: Step): Run
    requires s.Composite?
  {
    RunOf(w, Launch(s.subRef, "", f.ctx, f.depth + 1, f.path + [f.steps + 1, 0]))
  }

  lemma SubRunTurn(w: World, f: Frame, s: Step)
    requires ComesTo(w, f, s) && s.Composite?
    ensures var g := Counted(f, s);
            var r := Then(w, AfterSub(w, g, s, SubRun(w, f, s).out), g.depth, g.steps);
            && SubLaunch(g, s) == Launch(s.subRef, "", f.ctx, f.depth + 1, f.path + [f.steps + 1, 0])
            && Loop(w, f).out == r.out && Loop(w, f).log == [Seeing(f, false)] + SubRun(w, f, s).log + r.log
  {
    hide Loop, RunOf, Then, AfterSub;
    var g := Counted(f, s);
    ComingIsVisiting(w, f, s);
    LoopAtComposite(w, f, g, s);
    assert (f.path + [f.steps + 1]) + [0] == f.path + [f.steps + 1, 0];
  }

  /** A composite step whose sub-run completes goes on with exactly the sub-run's output and its trace appended. */
  lemma CompositeSucceeds(w: World, f: Frame, s: Step) returns (h: Frame)
    requires ComesTo(w, f, s) && s.Composite? && SubRun(w, f, s).out.Finished?
    ensures OneFurther(f, s, h) && h.at == s.onSuccess && h.done == f.done
    ensures h.ctx == SubRun(w, f, s).out.output && h.trace == f.trace + [s.id] + SubRun(w, f, s).out.trace
    ensures GoesOnAs(w, f, [Seeing(f, false)] + SubRun(w, f, s).log, h)
  {
    hide Loop, RunOf;
    var g := Counted(f, s);
    SubRunTurn(w, f, s);
    SubRunIsWhole(w, g, s);
    h := AfterSub(w, g, s, SubRun(w, f, s).out).frame;
    assert [] + Loop(w, h).log == Loop(w, h).log;
  }

  /** A sub-run that does not complete never suspends. An error of its that no breaker may absorb ends the run as it is,
      and so does a panic; any other error is the composite step's failure. */
  lemma CompositeFails(w: World, f: Frame, s: Step)
    requires ComesTo(w, f, s) && s.Composite? && !SubRun(w, f, s).out.Finished?
    ensures var out, said := SubRun(w, f, s).out, [Seeing(f, false)] + SubRun(w, f, s).log;
            if out.Panicked? || (out.Failed? && BypassesBreaker(out.error)) then Ends(w, f, said, out)
            else out.Failed? && Fails(w, f, s, w.text(out.error), said)
  {
    hide Loop, RunOf, OnFailure, Fails, UnwindAll;
    var g, out := Counted(f, s), SubRun(w, f, s).out;
    SubRunTurn(w, f, s);
    NestedNeverParks(w, SubLaunch(g, s));
    if out.Failed? && !BypassesBreaker(out.error) {
      var said := [Seeing(f, false)] + SubRun(w, f, s).log;
      assert said + [] == said;
      SilentBefore(OnFailure(w, g, s, w.text(out.error)));
      FailsAfter(w, f, s, w.text(out.error), [], said, AfterSub(w, g, s, out));
    }
  }

  lemma SilentBefore(n: Next)
    ensures Before([], n) == n
  {
    assert [] + n.log == n.log;
  }

  lemma NestedNeverParks(w: World, l: Launch)
    requires l.depth > 0
    ensures !RunOf(w, l).out.Parked?
  {
    hide Loop;
    if RunOf(w, l).out.Parked? {
      var g, s := LoopParks(w, Start(w, l).frame);
    }
  }

  // ----- Parallel steps -----

  /** The run of one branch: its workflow from the entry, one level down, on the frame's own context. */
  ghost function BranchRun(w: World, f: Frame, s: Step, i: nat): Run
    requires s.Parallel? && i < |s.branches|
  {
    RunOf(w, Launch(s.branches[i], "", f.ctx, f.depth + 1, f.path + [f.steps + 1, i]))
  }

  /** How the branches ended, in declaration order. */
  ghost function BranchOuts(w: World, f: Frame, s: Step): (outs: seq<Outcome>)
    requires s.Parallel?
    ensures |outs| == |s.branches|
  {
    seq(|s.branches|, i requires 0 <= i < |s.branches| => BranchRun(w, f, s, i).out)
  }

  /** The step seen, and everything the branches did. */
  ghost function Fanning(w: World, f: Frame, s: Step): Log
    requires s.Parallel?
  {
    [Seeing(f, false)] + Concat(seq(|s.branches|, i requires 0 <= i < |s.branches| => BranchRun(w, f, s, i).log))
  }

  lemma FanOutTurn(w: World, f: Frame, s: Step)
    requires ComesTo(w, f, s) && s.Parallel? && s.branches != []
    ensures var g := Counted(f, s);
            var r := Then(w, Harvest(w, g, s, BranchOuts(w, f, s)), g.depth, g.steps);
            Loop(w, f).out == r.out && Loop(w, f).log == Fanning(w, f, s) + r.log
  {
    hide Loop, RunOf, Then, Harvest;
    var g := Counted(f, s);
    ComingIsVisiting(w, f, s);
    LoopAtParallel(w, f, g, s);
    var runs := BranchRuns(w, g, s);
    forall i | 0 <= i < |s.branches| ensures runs[i] == BranchRun(w, f, s, i) {
      assert (f.path + [f.steps + 1]) + [i] == f.path + [f.steps + 1, i];
    }
    assert Outs(runs) == BranchOuts(w, f, s);
    assert Logs(runs) == seq(|s.branches|, i requires 0 <= i < |s.branches| => BranchRun(w, f, s, i).log);
  }

  ghost predicate AllFinished(outs: seq<Outcome>)
  {
    forall i :: 0 <= i < |outs| ==> outs[i].Finished?
  }

  /** What each branch changed in the context all of them started from. */
  ghost function Changes(ctx: Context, outs: seq<Outcome>): (deltas: seq<Context>)
    requires AllFinished(outs)
    ensures |deltas| == |outs|
  {
    seq(|outs|, i requires 0 <= i < |outs| => Delta(ctx, outs[i].output))
  }

  lemma ChangesAreDeltas(ctx: Context, outs: seq<Outcome>)
    requires AllFinished(outs)
    ensures Deltas(ctx, Outputs(outs)) == Changes(ctx, outs)
  {
    hide Delta;
  }

  /** The traces one after another. */
  ghost predicate TracesInOrder(outs: seq<Outcome>, trace: seq<string>)
    requires AllFinished(outs)
  {
    trace == Concat(seq(|outs|, i requires 0 <= i < |outs| => outs[i].trace))
  }

  lemma {:induction false} TracesAreInOrder(outs: seq<Outcome>)
    requires AllFinished(outs)
    ensures TracesInOrder(outs, Traces(outs))
  {
    if outs != [] {
      TracesAreInOrder(outs[1..]);
      var all := seq(|outs|, i requires 0 <= i < |outs| => outs[i].trace);
      assert all[1..] == seq(|outs[1..]|, i requires 0 <= i < |outs[1..]| => outs[1..][i].trace);
    }
  }

  /** A fan-out whose branches all complete comes down to the join of what they changed. */
  lemma FanOutJoins(w: World, g: Frame, s: Step, outs: seq<Outcome>) returns (field: string)
    requires s.Parallel? && |outs| == |s.branches| && AllFinished(outs)
    ensures var n, r := Harvest(w, g, s, outs), JoinAll(g.ctx, s.branches, Outputs(outs));
            if r.Joined? then n == Go(g.(ctx := r.ctx, trace := g.trace + Traces(outs), at := s.onSuccess), [])
            else
              && r.second < |s.branches| && field in RivalsOf(r.ledger, r.delta)
              && n == Raise(g, ConflictingBranchWrites(Dispute(s.id, s.branches[r.second], RivalsOf(r.ledger, r.delta),
                                                               field)))
  {
    hide Harvest, OnFailure, Traces, PanicLog, Failures, Deltas, RivalsOf, JoinAll;
    field := SomeField(g, s, outs);
    assert Recover(s, outs) == outs;
    NoneFailed(w, s.branches, outs);
    NonePanicked(g, outs, 0);
    HarvestShape(w, g, s, outs);
    SilentBefore(Harvest(w, g, s, outs));
  }

  lemma {:induction false} NonePanicked(g: Frame, outs: seq<Outcome>, i: nat)
    requires i <= |outs| && forall j :: 0 <= j < |outs| ==> !outs[j].Panicked?
    ensures PanicLog(g, outs, i) == []
    decreases |outs| - i
  {
    if i < |outs| {
      NonePanicked(g, outs, i + 1);
    }
  }

  lemma {:induction false} NoneFailed(w: World, branches: seq<string>, outs: seq<Outcome>)
    requires |branches| == |outs| && AllFinished(outs)
    ensures Failures(w, branches, outs) == [] && FirstBypass(outs, 0) == |outs|
  {
    if outs != [] {
      NoneFailed(w, branches[1..], outs[1..]);
    }
    assert forall i :: 0 <= i < |outs| ==> !outs[i].Failed?;
  }

  /** A fan-out whose branches all complete and agree on what they changed goes on with the join, and with the branches'
      traces in declaration order, whatever order they ran in. */
  lemma ParallelSucceeds(w: World, f: Frame, s: Step) returns (h: Frame, trace: seq<string>)
    requires ComesTo(w, f, s) && s.Parallel? && s.branches != [] && AllFinished(BranchOuts(w, f, s))
    requires Agreeing(Changes(f.ctx, BranchOuts(w, f, s)))
    ensures OneFurther(f, s, h) && h.at == s.onSuccess && h.done == f.done
    ensures IsJoin(f.ctx, Changes(f.ctx, BranchOuts(w, f, s)), h.ctx)
    ensures h.trace == f.trace + [s.id] + trace && TracesInOrder(BranchOuts(w, f, s), trace)
    ensures GoesOnAs(w, f, Fanning(w, f, s), h)
  {
    hide Loop, RunOf, Harvest, Agreeing, IsJoin, Traces, JoinAll, Fanning, AreRivals, RivalsOf;
    var g, outs := Counted(f, s), BranchOuts(w, f, s);
    FanOutTurn(w, f, s);
    ChangesAreDeltas(f.ctx, outs);
    JoinReported(f.ctx, s.branches, Outputs(outs));
    var _ := FanOutJoins(w, g, s, outs);
    TracesAreInOrder(outs);
    trace := Traces(outs);
    h := Harvest(w, g, s, outs).frame;
    assert [] + Loop(w, h).log == Loop(w, h).log;
  }

  /** A fan-out whose branches all complete but disagree ends the run in a conflict that names the step and the earliest
      branch to disagree with a predecessor, and holds exactly the fields on which it does, each with the latest earlier
      writer and both values. */
  lemma ParallelConflicts(w: World, f: Frame, s: Step) returns (c: Conflict, second: nat)
    requires ComesTo(w, f, s) && s.Parallel? && s.branches != [] && AllFinished(BranchOuts(w, f, s))
    requires !Agreeing(Changes(f.ctx, BranchOuts(w, f, s)))
    ensures var deltas := Changes(f.ctx, BranchOuts(w, f, s));
            && second < |s.branches| && c.step == s.id && c.second == s.branches[second]
            && Agreeing(deltas[..second]) && AreRivals(s.branches, deltas, second, c.rivals)
    ensures Ends(w, f, Fanning(w, f, s) + [Event(f.path, Raised(KConflict))], Failed(ConflictingBranchWrites(c)))
  {
    hide Loop, RunOf, Harvest, Agreeing, IsJoin, JoinAll, Fanning, AreRivals, RivalsOf;
    var g, outs := Counted(f, s), BranchOuts(w, f, s);
    FanOutTurn(w, f, s);
    ChangesAreDeltas(f.ctx, outs);
    JoinReported(f.ctx, s.branches, Outputs(outs));
    var field := FanOutJoins(w, g, s, outs);
    var r := JoinAll(f.ctx, s.branches, Outputs(outs));
    second := r.second;
    c := Dispute(s.id, s.branches[second], RivalsOf(r.ledger, r.delta), field);
  }

  /** `failing` lists the branches that failed, in declaration order. */
  ghost predicate AreFailing(outs: seq<Outcome>, failing: seq<nat>)
  {
    && (forall j, k :: 0 <= j < k < |failing| ==> failing[j] < failing[k])
    && (forall i: nat :: i in failing <==> i < |outs| && outs[i].Failed?)
  }

  /** The failures name those branches, with the texts of their errors. */
  ghost predicate Names(w: World, branches: seq<string>, outs: seq<Outcome>, failing: seq<nat>,
                        failures: seq<BranchFailure>)
    requires |branches| == |outs|
  {
    |failures| == |failing| && forall j :: 0 <= j < |failing| ==> NamesOne(w, branches, outs, failing[j], failures[j])
  }

  ghost predicate NamesOne(w: World, branches: seq<string>, outs: seq<Outcome>, i: nat, failure: BranchFailure)
    requires |branches| == |outs|
  {
    i < |outs| && outs[i].Failed? && failure == BranchFailure(branches[i], w.text(outs[i].error))
  }

  lemma {:induction false} FailuresAreListed(w: World, branches: seq<string>, outs: seq<Outcome>)
    returns (failing: seq<nat>)
    requires |branches| == |outs|
    ensures AreFailing(outs, failing) && Names(w, branches, outs, failing, Failures(w, branches, outs))
    decreases |outs|
  {
    if outs == [] {
      failing := [];
    } else {
      var n := |outs| - 1;
      failing := FailuresAreListed(w, branches[..n], outs[..n]);
      LastFailure(w, branches, outs);
      hide Failures;
      ListedGrows(w, branches, outs, failing, Failures(w, branches[..n], outs[..n]));
      if outs[n].Failed? {
        failing := failing + [n];
      }
    }
  }

  lemma ListedGrows(w: World, branches: seq<string>, outs: seq<Outcome>, failing: seq<nat>,
                    failures: seq<BranchFailure>)
    requires |branches| == |outs| > 0
    requires var n := |outs| - 1;
             AreFailing(outs[..n], failing) && Names(w, branches[..n], outs[..n], failing, failures)
    ensures var n := |outs| - 1;
            if outs[n].Failed? then
              AreFailing(outs, failing + [n]) && Names(w, branches, outs, failing + [n],
                                                       failures + [BranchFailure(branches[n], w.text(outs[n].error))])
            else AreFailing(outs, failing) && Names(w, branches, outs, failing, failures)
  {
    var n := |outs| - 1;
    var longer := failing + [n];
    assert forall i: nat :: i in longer <==> i in failing || i == n;
    assert forall j :: 0 <= j < |failing| ==> failing[j] in failing;
    forall j | 0 <= j < |failing| ensures NamesOne(w, branches, outs, failing[j], failures[j]) {
      assert NamesOne(w, branches[..n], outs[..n], failing[j], failures[j]);
    }
  }

  lemma {:induction false} LastFailure(w: World, branches: seq<string>, outs: seq<Outcome>)
    requires |branches| == |outs| > 0
    ensures var n := |outs| - 1;
            Failures(w, branches, outs)
            == Failures(w, branches[..n], outs[..n]) + if outs[n].Failed?
              then [BranchFailure(branches[n], w.text(outs[n].error))] else []
    decreases |outs|
  {
    if |outs| > 1 {
      LastFailure(w, branches[1..], outs[1..]);
      assert branches[1..][..|outs| - 2] == branches[..|outs| - 1][1..]
             && outs[1..][..|outs| - 2] == outs[..|outs| - 1][1..];
    }
  }

  /** The branch ended in something no breaker may absorb. */
  ghost predicate Structural(out: Outcome)
  {
    out.Panicked? || (out.Failed? && BypassesBreaker(out.error))
  }

  lemma FanOutFails(w: World, g: Frame, s: Step, outs: seq<Outcome>)
    requires s.Parallel? && |outs| == |s.branches| && forall i :: 0 <= i < |outs| ==> !Structural(outs[i])
    requires exists i :: 0 <= i < |outs| && outs[i].Failed?
    ensures var reason := w.text(BranchesFailed(s.id, |s.branches|, Failures(w, s.branches, outs)));
            Harvest(w, g, s, outs) == Before([Event(g.path, Raised(KBranchesFailed))], OnFailure(w, g, s, reason))
  {
    hide OnFailure, Harvest, PanicLog, Failures, Recover, JoinOf, Traces, Before, Outputs, ConflictError;
    NotRecovered(s, outs);
    SomeListed(w, s.branches, outs);
    NonePanicked(g, outs, 0);
    HarvestShape(w, g, s, outs);
    var reason := w.text(BranchesFailed(s.id, |s.branches|, Failures(w, s.branches, outs)));
    SilentBefore(Before([Event(g.path, Raised(KBranchesFailed))], OnFailure(w, g, s, reason)));
  }

  lemma NotRecovered(s: Step, outs: seq<Outcome>)
    requires s.Parallel? && |outs| == |s.branches| && forall i :: 0 <= i < |outs| ==> !Structural(outs[i])
    ensures Recover(s, outs) == outs && FirstBypass(outs, 0) == |outs|
    ensures forall i :: 0 <= i < |outs| ==> !outs[i].Panicked?
  {
    assert forall i :: 0 <= i < |outs| ==> !Structural(outs[i]) && Recovered(s, i, outs[i]) == outs[i];
  }

  /** A fan-out with failing branches, none of them failing structurally and none panicking, fails for all of them
      together, listed in declaration order. */
  lemma ParallelFails(w: World, f: Frame, s: Step) returns (failing: seq<nat>, failures: seq<BranchFailure>)
    requires ComesTo(w, f, s) && s.Parallel? && s.branches != []
    requires forall i :: 0 <= i < |s.branches| ==> !Structural(BranchOuts(w, f, s)[i])
    requires exists i :: 0 <= i < |s.branches| && BranchOuts(w, f, s)[i].Failed?
    ensures AreFailing(BranchOuts(w, f, s), failing) && Names(w, s.branches, BranchOuts(w, f, s), failing, failures)
    ensures Fails(w, f, s, w.text(BranchesFailed(s.id, |s.branches|, failures)),
                  Fanning(w, f, s) + [Event(f.path, Raised(KBranchesFailed))])
  {
    hide Loop, RunOf, OnFailure, Fails, Harvest, Names, AreFailing, Failures, Fanning, BranchOuts, Then;
    var g, outs := Counted(f, s), BranchOuts(w, f, s);
    FanOutTurn(w, f, s);
    failing := FailuresAreListed(w, s.branches, outs);
    failures := Failures(w, s.branches, outs);
    FanOutFails(w, g, s, outs);
    FailsAfter(w, f, s, w.text(BranchesFailed(s.id, |s.branches|, failures)), [Event(f.path, Raised(KBranchesFailed))],
               Fanning(w, f, s), Harvest(w, g, s, outs));
  }

  lemma {:induction false} SomeListed(w: World, branches: seq<string>, outs: seq<Outcome>)
    requires |branches| == |outs| && exists i :: 0 <= i < |outs| && outs[i].Failed?
    ensures Failures(w, branches, outs) != []
  {
    var i :| 0 <= i < |outs| && outs[i].Failed?;
    if i > 0 {
      assert outs[1..][i - 1].Failed?;
      SomeListed(w, branches[1..], outs[1..]);
    }
  }

  /** The panics on record, each under its branch. */
  ghost predicate PanicsOnRecord(f: Frame, outs: seq<Outcome>, panics: Log)
  {
    forall e :: e in panics <==>
        exists i: nat :: PanicAt(f, outs, i, e)
  }

  ghost predicate PanicAt(f: Frame, outs: seq<Outcome>, i: nat, e: Event)
  {
    i < |outs| && outs[i].Panicked? && e == Event(f.path + [f.steps + 1, i], Raised(KPanicked))
  }

  lemma {:induction false} PanicsRecorded(f: Frame, g: Frame, outs: seq<Outcome>, i: nat, e: Event)
    requires i <= |outs| && g.path == f.path && g.steps == f.steps + 1
    ensures e in PanicLog(g, outs, i) <==> exists j: nat :: i <= j && PanicAt(f, outs, j, e)
    decreases |outs| - i
  {
    if i < |outs| {
      PanicsRecorded(f, g, outs, i + 1, e);
      assert (f.path + [f.steps + 1]) + [i] == f.path + [f.steps + 1, i];
      if e in PanicLog(g, outs, i) && !PanicAt(f, outs, i, e) {
        assert e in PanicLog(g, outs, i + 1);
      }
    }
  }

  /** If some branch fails structurally or panics, the run ends with the error of the first such branch in declaration
      order, a panic being reported under the branch it happened in; every panic is on record. */
  lemma ParallelBypasses(w: World, f: Frame, s: Step, i: nat) returns (panics: Log)
    requires ComesTo(w, f, s) && s.Parallel? && i < |s.branches| && Structural(BranchOuts(w, f, s)[i])
    requires forall j :: 0 <= j < i ==> !Structural(BranchOuts(w, f, s)[j])
    ensures PanicsOnRecord(f, BranchOuts(w, f, s), panics)
    ensures var out := BranchOuts(w, f, s)[i];
            Ends(w, f, Fanning(w, f, s) + panics,
                 if out.Panicked? then Failed(BranchPanicked(s.id, s.branches[i], out.value)) else out)
  {
    hide Loop, RunOf, Harvest, Fanning, BranchOuts, PanicLog, OnFailure, Failures;
    var g, outs := Counted(f, s), BranchOuts(w, f, s);
    FanOutTurn(w, f, s);
    var rs := Recover(s, outs);
    assert rs[i].Failed? && BypassesBreaker(rs[i].error);
    forall j | 0 <= j < i ensures !(rs[j].Failed? && BypassesBreaker(rs[j].error)) {
      assert rs[j] == outs[j];
    }
    assert FirstBypass(rs, 0) == i;
    HarvestShape(w, g, s, outs);
    panics := PanicLog(g, outs, 0);
    forall e ensures e in panics <==> exists j: nat :: PanicAt(f, outs, j, e) {
      PanicsRecorded(f, g, outs, 0, e);
    }
  }

  // ----- Compensation runs without probes -----

  /** Unwinding never asks the sandbox anything. */
  lemma {:induction false} CompensationIgnoresProbes(w: World, sandbox: Option<Prober>, u: Unwinding)
    ensures UnwindAll(w.(sandbox := sandbox), u) == UnwindAll(w, u)
    decreases |u.left|
  {
    if UnwindOne(w, u).Unwind? {
      CompensationIgnoresProbes(w, sandbox, UnwindOne(w, u).unwinding);
    }
  }
}
