/** The engine itself: its tables, its loop, its fan-out and its suspension protocol, each proved against
    the function it computes. */
module Engine {
  import opened Basics
  import opened Values
  import opened Join
  import opened Workflows
  import opened BigStep
  import opened Interleaving
  import opened Stores
  import opened Resuming
  import opened Suspension

  const DEFAULT_MAX_STEPS := 10_000
  const DEFAULT_MAX_DEPTH := 64

  /** `got` is one of the runs the log and outcome of `r` stand for: events may come in another order. */
  ghost predicate Realizes(r: Run, out: Outcome, log: Log)
  {
    Agrees(r.out, out) && multiset(r.log) == multiset(log)
  }

  /** `log` has happened and `rest` is still to come. */
  ghost predicate Splits(r: Run, log: Log, rest: Run)
  {
    Agrees(r.out, rest.out) && multiset(r.log) == multiset(log) + multiset(rest.log)
  }

  /** The pointer is pending, its workflow still has the suspended leaf, and this identity may resume it. */
  ghost predicate MayResume(w: World, authorizer: Option<Authorizer>, states: map<string, State>, pointer: string,
                            identity: string)
  {
    Resumable(w, states, pointer) && Authorised(authorizer, states[pointer], identity)
  }

  /** A refusal, and why. */
  ghost predicate Refuses(w: World, authorizer: Option<Authorizer>, states: map<string, State>, pointer: string,
                          identity: string, reply: Reply)
  {
    && reply.Reply? && reply.err.Some? && reply == Reply(map[], "", [], reply.err)
    && TellsWhy(w, authorizer, states, pointer, identity, reply.err.value)
  }

  /** `out` and `log` are a run of the suspended workflow from the leaf's next step, on the saved context and what the
      resolution and the identity add. */
  ghost predicate RunsOn(w: World, state: State, resolution: Context, identity: string, out: Outcome, log: Log)
    requires state.workflow in w.workflows && state.step in w.workflows[state.workflow].steps
    requires w.workflows[state.workflow].steps[state.step].Leaf?
  {
    var next := w.workflows[state.workflow].steps[state.step].onSuccess;
    exists ctx :: StartsFrom(state, resolution, identity, ctx)
                  && Realizes(RunOf(w, Launch(state.workflow, next, ctx, 0, [])), out, log)
  }

  class Engine {
    var sandbox: Option<Prober>
    var workflows: map<string, Workflow>
    var policies: map<string, Policy>
    var store: MemoryStore?
    var authorizer: Option<Authorizer>
    var maxSteps: nat
    var maxDepth: nat
    const text: Error -> string

    /** Tables are keyed by the ids of what they hold, and the limits cannot be switched off. */
    ghost predicate Valid()
      reads this
    {
      && maxSteps > 0 && maxDepth > 0
      && (forall k :: k in workflows ==> workflows[k].id == k)
      && (forall k :: k in policies ==> policies[k].id == k)
    }

    function Tables(): World
      reads this
    {
      World(workflows, policies, sandbox, store != null, maxSteps, maxDepth, text)
    }

    constructor (sandbox: Option<Prober>, text: Error -> string)
      ensures Valid()
      ensures Tables() == World(map[], map[], sandbox, false, 10_000, 64, text)
      ensures authorizer == None
    {
      this.sandbox := sandbox;
      this.text := text;
      workflows, policies := map[], map[];
      store, authorizer := null, None;
      maxSteps, maxDepth := DEFAULT_MAX_STEPS, DEFAULT_MAX_DEPTH;
    }

    method SetStore(s: MemoryStore?)
      requires Valid()
      modifies this`store
      ensures Valid() && store == s
    {
      store := s;
    }

    method SetAuthorizer(a: Option<Authorizer>)
      requires Valid()
      modifies this`authorizer
      ensures Valid() && authorizer == a
    {
      authorizer := a;
    }

    method SetLimits(steps: int, depth: int)
      requires Valid()
      modifies this`maxSteps, this`maxDepth
      ensures Valid()
      ensures maxSteps == if steps > 0 then steps else old(maxSteps)
      ensures maxDepth == if depth > 0 then depth else old(maxDepth)
    {
      if steps > 0 {
        maxSteps := steps;
      }
      if depth > 0 {
        maxDepth := depth;
      }
    }

    method RegisterWorkflow(wf: Workflow)
      requires Valid()
      modifies this`workflows
      ensures Valid() && workflows == old(workflows)[wf.id := wf]
    {
      workflows := workflows[wf.id := wf];
    }

    method RegisterPolicy(p: Policy)
      requires Valid()
      modifies this`policies
      ensures Valid() && policies == old(policies)[p.id := p]
    {
      policies := policies[p.id := p];
    }

    /** The compensation log, last entry first; a panic in a compensation ends the unwinding. */
    method Abandon(w: World, f: Frame, step: string, reason: string) returns (out: Outcome, log: Log)
      requires w == Tables()
      ensures var r := UnwindAll(w, Unwinding(f, step, reason, f.done, f.ctx, [], []));
              out == r.out && log == r.log
    {
      var undone: seq<string>, failures: seq<UndoFailure>, ctx := [], [], f.ctx;
      log := [];
      var i := |f.done|;
      ghost var all := UnwindAll(w, Unwinding(f, step, reason, f.done, f.ctx, [], []));
      assert f.done[..i] == f.done;
      while i > 0
        invariant 0 <= i <= |f.done|
        invariant SplitsExactly(all, log, UnwindAll(w, Unwinding(f, step, reason, f.done[..i], ctx, undone, failures)))
      {
        ghost var u := Unwinding(f, step, reason, f.done[..i], ctx, undone, failures);
        i := i - 1;
        var entry := f.done[i];
        assert u.left[|u.left| - 1] == entry && u.left[..|u.left| - 1] == f.done[..i];
        UnwindOnce(w, u, all, log);
        log := log + CompensateLog(f, entry.via, ctx);
        match Compensate(f.wf, entry.via, ctx) {
          case Undone(next) =>
            ctx, undone := next, undone + [entry.step];
          case NotUndone(why) =>
            failures := failures + [UndoFailure(entry.step, entry.via, why)];
          case Blown(value) =>
            return Panicked(value), log;
        }
      }
      UnwindOnce(w, Unwinding(f, step, reason, [], ctx, undone, failures), all, log);
      out := Failed(CircuitBreakerTripped(step, reason, undone, failures));
      log := log + [Say(f, Raised(KTripped))];
    }

    /** The branches end in any order; each reports into its own slot. */
    method RunBranches(w: World, f: Frame, s: Step) returns (outs: seq<Outcome>, log: Log)
      requires w == Tables() && f.depth <= maxDepth && s.Parallel?
      ensures var runs := BranchRuns(w, f, s);
              AllAgree(Outs(runs), outs) && multiset(log) == multiset(Concat(Logs(runs)))
      decreases maxDepth + 1 - f.depth, 0, 0
    {
      ghost var runs := BranchRuns(w, f, s);
      outs, log := seq(|s.branches|, _ => Panicked("")), [];
      ghost var logs: seq<Log> := seq(|s.branches|, _ => []);
      ConcatOfEmpty(logs);
      var running: set<nat> := {};
      for i := 0 to |s.branches|
        invariant forall j: nat :: j in running <==> j < i
      {
        running := running + {i};
      }
      while running != {}
        invariant Reported(runs, outs, logs, running)
        invariant multiset(log) == multiset(Concat(logs))
      {
        var i :| i in running;
        var l := BranchLaunch(f, s, i);
        var out, m := RunFrom(w, l.ref, l.start, l.ctx, l.depth, l.path);
        Report(runs, outs, logs, running, i, out, m);
        outs, log, logs := outs[i := out], log + m, logs[i := m];
        running := running - {i};
      }
      AllReported(runs, outs, logs);
    }

    /** Fan-out and fan-in of one parallel step: the joined context and the branches' trace, or the error. */
    method RunParallel(w: World, f: Frame, s: Step) returns (next: Next, log: Log)
      requires w == Tables() && f.depth <= maxDepth && s.Parallel? && s.branches != []
      ensures var runs := BranchRuns(w, f, s);
              NextAgrees(Harvest(w, f, s, Outs(runs)), next) && multiset(log) == multiset(Concat(Logs(runs)))
      decreases maxDepth + 1 - f.depth, 0, 1
    {
      ghost var runs := BranchRuns(w, f, s);
      var outs;
      outs, log := RunBranches(w, f, s);
      HarvestAgrees(w, f, s, Outs(runs), outs);
      next := JoinBranchOutcomes(w, f, s, outs);
    }

    /** The failures in declaration order, unless a bypassing error comes up first. */
    method CollectFailures(w: World, s: Step, rs: seq<Outcome>) returns (bypass: nat, failures: seq<BranchFailure>)
      requires w == Tables() && s.Parallel? && |rs| == |s.branches|
      ensures bypass == FirstBypass(rs, 0)
      ensures bypass == |rs| ==> failures == Failures(w, s.branches, rs)
    {
      hide Failures;
      failures := [];
      for i := 0 to |rs|
        invariant FirstBypass(rs, 0) == FirstBypass(rs, i)
        invariant Failures(w, s.branches, rs) == failures + Failures(w, s.branches[i..], rs[i..])
      {
        FailuresFrom(w, s.branches, rs, i);
        if rs[i].Failed? {
          if BypassesBreaker(rs[i].error) {
            return i, failures;
          }
          failures := failures + [BranchFailure(s.branches[i], text(rs[i].error))];
        }
      }
      assert Failures(w, s.branches[|rs|..], rs[|rs|..]) == [] by { NoFailures(w); }
      bypass := |rs|;
    }

    /** Bypassing errors in declaration order, then all failures together, then the join. */
    method JoinBranchOutcomes(w: World, f: Frame, s: Step, outs: seq<Outcome>) returns (next: Next)
      requires w == Tables() && s.Parallel? && |outs| == |s.branches|
      ensures NextAgrees(Harvest(w, f, s, outs), next)
    {
      hide Harvest, OnFailure, PanicLog, Under, JoinOf, Reports, AfterJoin;
      var rs := Recover(s, outs);
      var panics := PanicLog(f, outs, 0);
      var bypass, failures := CollectFailures(w, s, rs);
      if bypass < |rs| {
        BypassHarvest(w, f, s, outs);
        next := Stop(rs[bypass], panics);
      } else if failures != [] {
        FailedHarvest(w, f, s, outs);
        var reason := text(BranchesFailed(s.id, |s.branches|, failures));
        next := Before(panics, Before([Say(f, Raised(KBranchesFailed))], OnFailure(w, f, s, reason)));
      } else {
        var report := JoinBranches(f.ctx, s.branches, Outputs(rs));
        assert Reports(JoinOf(f, s, outs), report) by { JoinIs(f, s, outs); }
        JoinHarvest(w, f, s, outs, report);
        next := Before(panics, AfterJoin(f, s, rs, report));
      }
    }

    /** One iteration of the loop, down to the edge it takes or the exit it leaves by. */
    method Turn(w: World, top: Frame) returns (next: Next, log: Log)
      requires w == Tables() && top.depth <= maxDepth && top.at != ""
      ensures next.Go? ==> next.frame.depth == top.depth && next.frame.steps == top.steps + 1 <= maxSteps
      ensures next.Unwind? ==> var u := next.unwinding;
              u == Unwinding(u.frame, u.step, u.reason, u.frame.done, u.frame.ctx, [], [])
      ensures Splits(Loop(w, top), log, Then(w, next, top.depth, top.steps + 1))
      decreases maxDepth + 1 - top.depth, 0, 2
    {
      hide Loop, RunOf, Then, Harvest, BranchRuns, Gated, Act, AfterSub;
      var f := top.(steps := top.steps + 1);
      if f.steps > maxSteps {
        next, log := Raise(f, StepLimitExceeded(f.ref, maxSteps, Tail(f.trace, 10))), [];
        RefusedTurn(w, top);
        return;
      }
      if f.at !in f.wf.steps {
        next, log := Raise(f, NoStep(f.ref, f.at)), [];
        RefusedTurn(w, top);
        return;
      }
      var s := f.wf.steps[f.at];
      f := f.(trace := f.trace + [s.id]);
      log := Seen(top, s);
      match s
      case Composite(_, _, _, _) =>
        var l := SubLaunch(f, s);
        var sub, m := RunFrom(w, l.ref, l.start, l.ctx, l.depth, l.path);
        CompositeTurn(w, top, f, s, sub, m);
        next, log := AfterSub(w, f, s, sub), log + m;
      case Parallel(_, _, _, _) =>
        if s.branches == [] {
          next := Raise(f, NoBranches(f.wf.id, s.id));
          UnrunnableTurn(w, top, f, s);
        } else {
          var m;
          next, m := RunParallel(w, f, s);
          ParallelTurn(w, top, f, s, next, m);
          log := log + m;
        }
      case Leaf(_, _, _, _, _, _) =>
        LeafTurn(w, top, f, s);
        var gate := Gated(w, f, s);
        if gate.Shut? {
          next := gate.next;
        } else {
          next, log := Act(w, f, s), log + gate.log;
        }
      case Foreign(_, _) =>
        next := Raise(f, UnknownStepType(f.at));
        UnrunnableTurn(w, top, f, s);
    }

    /** The loop: success edges, fallback edges, and the exits. */
    method RunFrom(w: World, ref: string, start: string, ctx: Context, depth: nat, path: Path)
      returns (out: Outcome, log: Log)
      requires w == Tables()
      ensures Realizes(RunOf(w, Launch(ref, start, ctx, depth, path)), out, log)
      decreases maxDepth + 1 - depth, 1, 0
    {
      hide Loop, Then, Top, UnwindAll, RunOf, Realizes, Splits;
      RunStarts(w, Launch(ref, start, ctx, depth, path));
      if depth > maxDepth {
        return Failed(DepthLimitExceeded(ref, maxDepth)), [Event(path, Raised(KDepthLimit))];
      }
      if ref !in workflows {
        return Failed(NoWorkflow(ref)), [Event(path, Raised(KNoWorkflow))];
      }
      var wf := workflows[ref];
      var f := Frame(path, ref, wf, depth, if start == "" then wf.entry else start, ctx, [], [], 0);
      ghost var all := Loop(w, f);
      log := [];
      while f.at != ""
        invariant f.depth == depth
        invariant Splits(all, log, Loop(w, f))
        decreases maxSteps + 1 - f.steps
      {
        var next, l := Turn(w, f);
        TurnTaken(w, all, log, f, next, l);
        log := log + l + next.log;
        match next {
          case Stop(o, _) =>
            RunEnds(all, log, BigStep.Run(o, [], 0));
            assert log + [] == log;
            return o, log;
          case Unwind(u, _) =>
            var o, l' := Abandon(w, u.frame, u.step, u.reason);
            RunEnds(all, log, UnwindAll(w, u));
            return o, log + l';
          case Go(g, _) =>
            f := g;
        }
      }
      ThroughTurn(w, f);
      RunEnds(all, log, Loop(w, f));
      assert log + [] == log;
      out := Finished(f.ctx, f.trace);
    }

    /** Runs a workflow; a suspension at its top level is saved under a fresh pointer. */
    method Run(ref: string, ctx: Context, drawn: string) returns (reply: Reply, ghost out: Outcome, log: Log)
      requires Valid() && (store != null ==> drawn !in store.states)
      modifies if store == null then {} else {store}
      ensures Realizes(RunOf(Tables(), Launch(ref, "", ctx, 0, [])), out, log)
      ensures Answers(out, [], drawn, reply)
      ensures store != null ==> Saves(out, drawn, old(store.states), store.states)
      ensures out.Parked? ==> store != null
    {
      var o;
      o, log := RunFrom(Tables(), ref, "", ctx, 0, []);
      out := o;
      if o.Parked? {
        ParkedHasStore(Tables(), Launch(ref, "", ctx, 0, []), o, log);
        store.Save(StateOf(o, drawn));
      }
      Answering(o, [], drawn);
      reply := ReplyOf(o, drawn);
    }

    /** Takes a suspended run up again: looked up, checked and authorised before its pointer is claimed, so that an
        attempt that is refused leaves the pointer as it was. */
    method ResumeAs(pointer: string, identity: string, resolution: Context, drawn: string)
      returns (reply: Reply, ghost out: Outcome, log: Log)
      requires Valid() && (store != null ==> drawn !in store.states && drawn != pointer)
      modifies if store == null then {} else {store}
      ensures store != null ==>
                (pointer in old(store.states) && pointer !in store.states
                 <==> MayResume(Tables(), authorizer, old(store.states), pointer, identity))
      ensures store == null || !MayResume(Tables(), authorizer, old(store.states), pointer, identity) ==>
                && (store != null ==> store.states == old(store.states)) && log == []
                && Refuses(Tables(), authorizer, if store == null then map[] else old(store.states), pointer, identity,
                           reply)
      ensures store != null && MayResume(Tables(), authorizer, old(store.states), pointer, identity) ==>
                && RunsOn(Tables(), old(store.states)[pointer], resolution, identity, out, log)
                && Answers(out, old(store.states)[pointer].trace, drawn, reply)
                && Saves(out, drawn, old(store.states) - {pointer}, store.states)
    {
      out, log := Panicked(""), [];
      if store == null {
        return Reply(map[], "", [], Some(NoStoreConfigured)), out, log;
      }
      var loaded := store.Load(pointer);
      if loaded.None? {
        return Reply(map[], "", [], Some(UnknownPointer(pointer))), out, log;
      }
      var state := loaded.value;
      if state.workflow !in workflows {
        return Reply(map[], "", [], Some(WorkflowGone(state.workflow))), out, log;
      }
      var wf := workflows[state.workflow];
      if state.step !in wf.steps {
        return Reply(map[], "", [], Some(StepGone(state.workflow, state.step))), out, log;
      }
      var leaf := wf.steps[state.step];
      if !leaf.Leaf? {
        return Reply(map[], "", [], Some(StepNoLongerLeaf(state.step))), out, log;
      }
      var denial := Denial(authorizer, state, identity);
      if denial.Some? {
        return Reply(map[], "", [], Some(denial.value)), out, log;
      }
      var claimed := store.Consume(pointer);
      var l := ResumeLaunch(claimed.value, leaf, resolution, identity);
      ResumesFrom(claimed.value, leaf, resolution, identity);
      var o;
      o, log := RunFrom(Tables(), l.ref, l.start, l.ctx, 0, []);
      out := o;
      if o.Parked? {
        ParkedHasStore(Tables(), l, o, log);
        store.Save(StateOf(o, drawn));
      }
      if !o.Panicked? {
        store.Release(pointer);
      }
      Answering(o, claimed.value.trace, drawn);
      reply := WithPast(claimed.value.trace, ReplyOf(o, drawn));
    }

    method Resume(pointer: string, resolution: Context, drawn: string)
      returns (reply: Reply, ghost out: Outcome, log: Log)
      requires Valid() && (store != null ==> drawn !in store.states && drawn != pointer)
      modifies if store == null then {} else {store}
      ensures store != null ==>
                (pointer in old(store.states) && pointer !in store.states
                 <==> MayResume(Tables(), authorizer, old(store.states), pointer, ""))
      ensures store == null || !MayResume(Tables(), authorizer, old(store.states), pointer, "") ==>
                && (store != null ==> store.states == old(store.states)) && log == []
                && Refuses(Tables(), authorizer, if store == null then map[] else old(store.states), pointer, "", reply)
      ensures store != null && MayResume(Tables(), authorizer, old(store.states), pointer, "") ==>
                && RunsOn(Tables(), old(store.states)[pointer], resolution, "", out, log)
                && Answers(out, old(store.states)[pointer].trace, drawn, reply)
                && Saves(out, drawn, old(store.states) - {pointer}, store.states)
    {
      reply, out, log := ResumeAs(pointer, "", resolution, drawn);
    }
  }

  lemma ParkedHasStore(w: World, l: Launch, out: Outcome, log: Log)
    requires Realizes(RunOf(w, l), out, log) && out.Parked?
    ensures w.hasStore && out == RunOf(w, l).out
  {
    hide Loop;
    var f, s := LoopParks(w, Start(w, l).frame);
  }

  // ----- What each kind of turn leaves to be done -----

  lemma RunStarts(w: World, l: Launch)
    ensures var r := Start(w, l);
            && (r.Rejected? ==> Realizes(RunOf(w, l), Failed(r.error), [Event(l.path, Raised(KindOf(r.error)))]))
            && (r.Begun? ==> Splits(Loop(w, r.frame), [], Loop(w, r.frame))
                             && forall out, log :: Realizes(Loop(w, r.frame), out, log) ==>
                                 Realizes(RunOf(w, l), out, log))
  {
    hide Loop;
  }

  lemma RunEnds(all: Run, log: Log, rest: Run)
    requires Splits(all, log, rest)
    ensures Realizes(all, rest.out, log + rest.log)
  {
  }

  lemma ThroughTurn(w: World, f: Frame)
    requires f.depth <= w.maxDepth && f.at == ""
    ensures Loop(w, f) == Run(Finished(f.ctx, f.trace), [], 1)
  {
  }

  lemma RefusedTurn(w: World, top: Frame)
    requires top.depth <= w.maxDepth && Top(w, top).Refusing?
    ensures Splits(Loop(w, top), [], Then(w, Raise(top, Top(w, top).error), top.depth, top.steps + 1))
  {
  }

  lemma UnrunnableTurn(w: World, top: Frame, f: Frame, s: Step)
    requires top.depth <= w.maxDepth && Top(w, top) == Visit(f, s) && Unrunnable(s)
    ensures Splits(Loop(w, top), Seen(top, s), Then(w, Refuse(f, s), top.depth, top.steps + 1))
  {
    LoopAtUnrunnable(w, top, f, s);
  }

  lemma LeafTurn(w: World, top: Frame, f: Frame, s: Step)
    requires top.depth <= w.maxDepth && Top(w, top) == Visit(f, s) && s.Leaf?
    ensures var gate := Gated(w, f, s);
            if gate.Shut? then Splits(Loop(w, top), Seen(top, s), Then(w, gate.next, top.depth, top.steps + 1))
            else Splits(Loop(w, top), Seen(top, s) + gate.log, Then(w, Act(w, f, s), top.depth, top.steps + 1))
  {
    LoopAtLeaf(w, top, f, s);
  }

  lemma CompositeTurn(w: World, top: Frame, f: Frame, s: Step, out: Outcome, log: Log)
    requires top.depth <= w.maxDepth && Top(w, top) == Visit(f, s) && s.Composite?
    requires Realizes(RunOf(w, SubLaunch(f, s)), out, log)
    ensures Splits(Loop(w, top), Seen(top, s) + log, Then(w, AfterSub(w, f, s, out), top.depth, top.steps + 1))
  {
    hide Loop, Then, AfterSub, RunOf;
    LoopAtComposite(w, top, f, s);
    var sub := RunOf(w, SubLaunch(f, s));
    AfterSubAgrees(w, f, s, sub.out, out);
    ThenAgrees(w, AfterSub(w, f, s, sub.out), AfterSub(w, f, s, out), f.depth, f.steps);
  }

  lemma ParallelTurn(w: World, top: Frame, f: Frame, s: Step, next: Next, log: Log)
    requires top.depth <= w.maxDepth && Top(w, top) == Visit(f, s) && s.Parallel? && s.branches != []
    requires NextAgrees(Harvest(w, f, s, Outs(BranchRuns(w, f, s))), next)
    requires multiset(log) == multiset(Concat(Logs(BranchRuns(w, f, s))))
    ensures Splits(Loop(w, top), Seen(top, s) + log, Then(w, next, top.depth, top.steps + 1))
  {
    LoopAtParallel(w, top, f, s);
    ThenAgrees(w, Harvest(w, f, s, Outs(BranchRuns(w, f, s))), next, f.depth, f.steps);
  }

  lemma SplitsAgain(all: Run, log: Log, mid: Run, l: Log, step: Log, rest: Run)
    requires Splits(all, log, mid)
    requires Splits(mid, l, After(step, 0, rest))
    ensures Splits(all, log + l + step, rest)
  {
    assert multiset(After(step, 0, rest).log) == multiset(step) + multiset(rest.log);
  }

  lemma TurnTaken(w: World, all: Run, log: Log, f: Frame, next: Next, l: Log)
    requires f.depth <= w.maxDepth
    requires next.Go? ==> next.frame.depth == f.depth && next.frame.steps == f.steps + 1
    requires Splits(all, log, Loop(w, f))
    requires Splits(Loop(w, f), l, Then(w, next, f.depth, f.steps + 1))
    ensures next.Go? ==> Splits(all, log + l + next.log, Loop(w, next.frame))
    ensures next.Stop? ==> Splits(all, log + l + next.log, Run(next.out, [], 0))
    ensures next.Unwind? ==> Splits(all, log + l + next.log, UnwindAll(w, next.unwinding))
  {
    var rest := match next
      case Go(g, _) => Loop(w, g)
      case Stop(out, _) => Run(out, [], 0)
      case Unwind(u, _) => UnwindAll(w, u);
    assert Splits(Loop(w, f), l, After(next.log, 0, rest));
    SplitsAgain(all, log, Loop(w, f), l, next.log, rest);
  }

  function AfterJoin(f: Frame, s: Step, rs: seq<Outcome>, report: JoinReport): Next
    requires s.Parallel? && (report.Conflicting? ==> report.second < |s.branches| && report.field in report.rivals)
  {
    match report
    case Merged(ctx) => Go(f.(ctx := ctx, trace := f.trace + Traces(rs), at := s.onSuccess), [])
    case Conflicting(i, rivals, field) => Raise(f, ConflictingBranchWrites(Dispute(s.id, s.branches[i], rivals, field)))
  }

  lemma BypassHarvest(w: World, f: Frame, s: Step, outs: seq<Outcome>)
    requires s.Parallel? && |outs| == |s.branches|
    requires FirstBypass(Recover(s, outs), 0) < |outs|
    ensures Harvest(w, f, s, outs) == Stop(Recover(s, outs)[FirstBypass(Recover(s, outs), 0)], PanicLog(f, outs, 0))
  {
    BypassedBranches(w, f, s, outs, SomeField(f, s, outs));
  }

  lemma FailuresFrom(w: World, branches: seq<string>, rs: seq<Outcome>, i: nat)
    requires |branches| == |rs| && i < |rs|
    ensures Failures(w, branches[i..], rs[i..])
         == (if rs[i].Failed? then [BranchFailure(branches[i], w.text(rs[i].error))] else [])
           + Failures(w, branches[i + 1..], rs[i + 1..])
    ensures branches[0..] == branches && rs[0..] == rs
  {
    assert rs[i..][1..] == rs[i + 1..] && branches[i..][1..] == branches[i + 1..];
  }

  lemma NoFailures(w: World)
    ensures Failures(w, [], []) == []
  {
  }

  lemma JoinIs(f: Frame, s: Step, outs: seq<Outcome>)
    requires s.Parallel? && |outs| == |s.branches|
    ensures JoinOf(f, s, outs) == JoinAll(f.ctx, s.branches, Outputs(Recover(s, outs)))
  {
  }

  lemma FailedHarvest(w: World, f: Frame, s: Step, outs: seq<Outcome>)
    requires s.Parallel? && |outs| == |s.branches|
    requires var rs := Recover(s, outs); FirstBypass(rs, 0) == |rs| && Failures(w, s.branches, rs) != []
    ensures var reason := w.text(BranchesFailed(s.id, |s.branches|, Failures(w, s.branches, Recover(s, outs))));
            Harvest(w, f, s, outs) == Before(PanicLog(f, outs, 0),
                                             Before([Say(f, Raised(KBranchesFailed))], OnFailure(w, f, s, reason)))
  {
  }

  lemma JoinHarvest(w: World, f: Frame, s: Step, outs: seq<Outcome>, report: JoinReport)
    requires s.Parallel? && |outs| == |s.branches|
    requires var rs := Recover(s, outs); FirstBypass(rs, 0) == |rs| && Failures(w, s.branches, rs) == []
    requires Reports(JoinOf(f, s, outs), report)
    ensures report.Conflicting? ==> report.second < |s.branches| && report.field in report.rivals
    ensures NextAgrees(Harvest(w, f, s, outs), Before(PanicLog(f, outs, 0), AfterJoin(f, s, Recover(s, outs), report)))
  {
    ClashInRange(f.ctx, s.branches, Deltas(f.ctx, Outputs(Recover(s, outs))), 0, map[]);
    if report.Conflicting? {
      FieldIsFree(w, f, s, outs, report.field);
    }
  }

  ghost predicate SplitsExactly(r: Run, log: Log, rest: Run)
  {
    r.out == rest.out && r.log == log + rest.log
  }

  /** One entry further along an unwinding. */
  lemma UnwindOnce(w: World, u: Unwinding, all: Run, log: Log)
    requires SplitsExactly(all, log, UnwindAll(w, u))
    ensures var n := UnwindOne(w, u);
            if n.Unwind? then SplitsExactly(all, log + n.log, UnwindAll(w, n.unwinding))
            else all.out == n.out && all.log == log + n.log
  {
  }

  /** The branches no longer running have reported, each into its slot; the others' slots are untouched. */
  ghost predicate Reported(runs: seq<Run>, outs: seq<Outcome>, logs: seq<Log>, running: set<nat>)
  {
    && |outs| == |logs| == |runs|
    && (forall i :: i in running ==> i < |runs|)
    && forall i :: 0 <= i < |runs| ==>
         if i in running then logs[i] == []
         else Agrees(runs[i].out, outs[i]) && multiset(logs[i]) == multiset(runs[i].log)
  }

  lemma Report(runs: seq<Run>, outs: seq<Outcome>, logs: seq<Log>, running: set<nat>, i: nat, out: Outcome, l: Log)
    requires Reported(runs, outs, logs, running) && i in running
    requires Realizes(runs[i], out, l)
    ensures Reported(runs, outs[i := out], logs[i := l], running - {i})
    ensures multiset(Concat(logs[i := l])) == multiset(l) + multiset(Concat(logs))
  {
    hide Agrees, Concat;
    assert logs[i := l][i := []] == logs;
    ConcatUpdate(logs[i := l], i, [], l);
  }

  lemma AllReported(runs: seq<Run>, outs: seq<Outcome>, logs: seq<Log>)
    requires Reported(runs, outs, logs, {})
    ensures AllAgree(Outs(runs), outs)
    ensures multiset(Concat(logs)) == multiset(Concat(Logs(runs)))
  {
    ConcatSame(logs, Logs(runs));
  }

  lemma {:induction false} ConcatOfEmpty<T>(parts: seq<seq<T>>)
    requires forall i :: 0 <= i < |parts| ==> parts[i] == []
    ensures Concat(parts) == []
  {
    if parts != [] {
      ConcatOfEmpty(parts[1..]);
    }
  }

  lemma {:induction false} ConcatSame<T>(a: seq<seq<T>>, b: seq<seq<T>>)
    requires |a| == |b| && forall i :: 0 <= i < |a| ==> multiset(a[i]) == multiset(b[i])
    ensures multiset(Concat(a)) == multiset(Concat(b))
  {
    if a != [] {
      assert multiset(a[0]) == multiset(b[0]);
      assert forall i :: 0 <= i < |a[1..]| ==> a[1..][i] == a[i + 1] && b[1..][i] == b[i + 1];
      ConcatSame(a[1..], b[1..]);
    }
  }
}
