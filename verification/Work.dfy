/** Every run is finite, and its size is bounded by the two budgets whatever the tables hold. */
module Work {
  import opened Basics
  import opened Values
  import opened Join
  import opened Workflows
  import opened BigStep
  import opened Machine
  import opened Interleaving
  import opened Observers

  predicate Compensated(e: Event) { e.what.Compensating? }

  ghost predicate AtMostBranches(w: World, b: nat)
  {
    forall ref, key :: ref in w.workflows && key in w.workflows[ref].steps ==>
      var s := w.workflows[ref].steps[key]; s.Parallel? ==> |s.branches| <= b
  }

  function Max(a: nat, b: nat): nat
  {
    if a > b then a else b
  }

  /** Forward actions one visit can cost at this depth: its own, or those of up to `b` runs one level down. */
  function PerVisit(w: World, b: nat, depth: nat): nat
    requires depth <= w.maxDepth
    decreases w.maxDepth + 1 - depth, 0
  {
    Max(1, b * PerRun(w, b, depth + 1))
  }

  function PerRun(w: World, b: nat, depth: nat): nat
    decreases w.maxDepth + 1 - depth, 1
  {
    if depth > w.maxDepth then 0 else w.maxSteps * PerVisit(w, b, depth)
  }

  function Pow(x: nat, n: nat): nat
  {
    if n == 0 then 1 else x * Pow(x, n - 1)
  }

  /** The recursive bound in closed form. */
  lemma {:induction false} PerRunClosed(w: World, b: nat, depth: nat)
    requires depth <= w.maxDepth && b >= 1
    ensures PerRun(w, b, depth) == w.maxSteps * Pow(b * w.maxSteps, w.maxDepth - depth)
    decreases w.maxDepth - depth
  {
    if depth < w.maxDepth {
      PerRunClosed(w, b, depth + 1);
      var p := Pow(b * w.maxSteps, w.maxDepth - depth - 1);
      Associate(b, w.maxSteps, p);
      if w.maxSteps > 0 {
        Positive(b, w.maxSteps);
        PowPositive(b * w.maxSteps, w.maxDepth - depth - 1);
        Positive(b * w.maxSteps, p);
      } else {
        assert w.maxSteps * Pow(b * w.maxSteps, w.maxDepth - depth) == 0;
      }
    } else {
      assert PerRun(w, b, depth + 1) == 0;
    }
  }

  lemma Associate(a: nat, b: nat, c: nat)
    ensures a * (b * c) == (a * b) * c
  {
  }

  lemma Positive(a: nat, b: nat)
    requires a > 0 && b > 0
    ensures a * b > 0
  {
  }

  lemma {:induction false} PowPositive(x: nat, n: nat)
    requires x > 0
    ensures Pow(x, n) > 0
  {
    if n > 0 {
      PowPositive(x, n - 1);
    }
  }

  // ----- How many actions a log holds -----

  function Acts(log: Log): nat
  {
    Count(log, ActionRun)
  }

  function Undos(log: Log): nat
  {
    Count(log, Compensated)
  }

  lemma CountsConcat(a: Log, b: Log)
    ensures Acts(a + b) == Acts(a) + Acts(b) && Undos(a + b) == Undos(a) + Undos(b)
  {
    CountConcat(a, b, ActionRun);
    CountConcat(a, b, Compensated);
  }

  lemma CountsOne(e: Event)
    ensures Acts([e]) == (if ActionRun(e) then 1 else 0) && Undos([e]) == (if Compensated(e) then 1 else 0)
    ensures Acts([]) == 0 && Undos([]) == 0
  {
    var one, none: Log := [e], [];
    assert one[0] == e && one[1..] == none;
    assert Count(none, ActionRun) == 0 && Count(none, Compensated) == 0;
    assert Count(one, ActionRun) == (if ActionRun(one[0]) then 1 else 0) + Count(one[1..], ActionRun);
    assert Count(one, Compensated) == (if Compensated(one[0]) then 1 else 0) + Count(one[1..], Compensated);
  }

  lemma {:induction false} ActsOfMany(logs: seq<Log>, each: nat)
    requires forall i :: 0 <= i < |logs| ==> Acts(logs[i]) <= each && Undos(logs[i]) <= Acts(logs[i])
    ensures Acts(Concat(logs)) <= |logs| * each && Undos(Concat(logs)) <= Acts(Concat(logs))
  {
    if logs != [] {
      CountsConcat(logs[0], Concat(logs[1..]));
      assert forall i :: 0 <= i < |logs[1..]| ==> logs[1..][i] == logs[i + 1];
      ActsOfMany(logs[1..], each);
      assert |logs| * each == each + (|logs| - 1) * each;
    }
  }

  lemma {:induction false} UnwindCosts(w: World, u: Unwinding)
    ensures Acts(UnwindAll(w, u).log) == 0 && Undos(UnwindAll(w, u).log) <= |u.left|
    decreases |u.left|
  {
    hide Acts, Undos;
    var n := UnwindOne(w, u);
    if u.left == [] {
      CountsOne(Say(u.frame, Raised(KTripped)));
    } else {
      CompensationCosts(u);
      if n.Unwind? {
        UnwindCosts(w, n.unwinding);
        CountsConcat(n.log, UnwindAll(w, n.unwinding).log);
      }
    }
  }

  lemma CompensationCosts(u: Unwinding)
    requires u.left != []
    ensures var log := CompensateLog(u.frame, u.left[|u.left| - 1].via, u.ctx); Acts(log) == 0 && Undos(log) <= 1
  {
    var a, b := Say(u.frame, Compensating(u.left[|u.left| - 1].via)), Say(u.frame, ActionPanicked);
    CountsOne(a);
    CountsOne(b);
    CountsConcat([a], [b]);
    assert [a] + [b] == [a, b];
  }

  // ----- One turn -----

  /** A turn runs at most one action itself, and gains a compensation only by a successful one. */
  ghost predicate Costs(n: Next, f: Frame, acts: nat)
  {
    && Acts(n.log) == acts && Undos(n.log) == 0
    && (n.Go? ==> |n.frame.done| <= |f.done| + acts)
  }

  lemma FailureCosts(w: World, f: Frame, s: Step, reason: string)
    ensures Costs(OnFailure(w, f, s, reason), f, 0)
  {
    var log := OnFailure(w, f, s, reason).log;
    CountsOne(log[0]);
    CountsOne(log[1]);
    CountsConcat([log[0]], [log[1]]);
    assert log == [log[0]] + [log[1]];
  }

  lemma RaiseCosts(f: Frame, e: Error)
    ensures Costs(Raise(f, e), f, 0)
  {
    CountsOne(Say(f, Raised(KindOf(e))));
  }

  lemma BeforeCosts(log: Log, n: Next, f: Frame, acts: nat)
    requires Costs(n, f, 0) && Acts(log) == acts && Undos(log) == 0
    ensures Costs(Before(log, n), f, acts)
  {
    CountsConcat(log, n.log);
  }

  lemma GateCosts(w: World, f: Frame, s: Step)
    requires s.Leaf?
    ensures var g := Gated(w, f, s); if g.Shut? then Costs(g.next, f, 0) else Acts(g.log) == 0 && Undos(g.log) == 0
  {
    hide Costs, OnFailure, Raise;
    RaiseCosts(f, NoSandbox(s.id, s.probeRef));
    if s.probeRef != "" && w.sandbox.Some? {
      var v := w.sandbox.value(Point(f), s.probeRef, f.wf.domain, f.ctx);
      var refusal := Refusal(v);
      var a, b, c := Say(f, ProbeObserved(s.id)), Say(f, ProbeAsked(s.probeRef, v)),
        Say(f, ProbeOutcome(s.id, refusal.None?));
      CountsOne(a);
      CountsOne(b);
      CountsOne(c);
      CountsConcat([a], [b]);
      CountsConcat([a] + [b], [c]);
      assert [a] + [b] + [c] == [a, b, c];
      if refusal.Some? {
        FailureCosts(w, f, s, refusal.value);
        BeforeCosts([a, b, c], OnFailure(w, f, s, refusal.value), f, 0);
      }
    }
  }

  lemma ActCosts(w: World, f: Frame, s: Step)
    requires s.Leaf?
    ensures Costs(Act(w, f, s), f, 1)
  {
    var e := Say(f, StepObserved(s.id));
    CountsOne(e);
    match s.run(f.ctx)
    case Output(fields) =>
      CountsOne(Did(f, s, fields));
      CountsConcat([e], [Did(f, s, fields)]);
    case Panic(_) =>
      CountsOne(Say(f, ActionPanicked));
      CountsConcat([e], [Say(f, ActionPanicked)]);
    case Failure(reason) =>
      FailureCosts(w, f, s, reason);
      BeforeCosts([e], OnFailure(w, f, s, reason), f, 1);
    case Suspended(_, _) =>
      var n := Act(w, f, s);
      CountsOne(n.log[1]);
      CountsConcat([e], [n.log[1]]);
      assert n.log == [e] + [n.log[1]];
  }

  lemma SubCosts(w: World, f: Frame, s: Step, out: Outcome)
    requires s.Composite?
    ensures Costs(AfterSub(w, f, s, out), f, 0)
  {
    if out.Failed? {
      FailureCosts(w, f, s, w.text(out.error));
    }
  }

  lemma {:induction false} PanicLogCosts(f: Frame, outs: seq<Outcome>, i: nat)
    requires i <= |outs|
    ensures Acts(PanicLog(f, outs, i)) == 0 && Undos(PanicLog(f, outs, i)) == 0
    decreases |outs| - i
  {
    if i < |outs| {
      PanicLogCosts(f, outs, i + 1);
      var head := if outs[i].Panicked? then [Event(Point(f) + [i], Raised(KPanicked))] else [];
      CountsOne(Event(Point(f) + [i], Raised(KPanicked)));
      CountsConcat(head, PanicLog(f, outs, i + 1));
    }
  }

  lemma ResolveCosts(w: World, f: Frame, s: Step, outs: seq<Outcome>, k: string)
    requires s.Parallel? && |outs| == |s.branches| && MayName(JoinOf(f, s, outs), k)
    ensures Costs(Resolve(w, f, s, outs, k), f, 0)
  {
    hide OnFailure;
    ClashInRange(f.ctx, s.branches, Deltas(f.ctx, Outputs(Recover(s, outs))), 0, map[]);
    var failures := Failures(w, s.branches, Recover(s, outs));
    if failures != [] {
      var e, reason := Say(f, Raised(KBranchesFailed)), w.text(BranchesFailed(s.id, |s.branches|, failures));
      CountsOne(e);
      FailureCosts(w, f, s, reason);
      BeforeCosts([e], OnFailure(w, f, s, reason), f, 0);
    } else if JoinOf(f, s, outs).Clash? {
      RaiseCosts(f, ConflictError(s, JoinOf(f, s, outs), k));
    }
  }

  lemma JoinCosts(w: World, f: Frame, s: Step, outs: seq<Outcome>, k: string)
    requires s.Parallel? && |outs| == |s.branches| && MayName(JoinOf(f, s, outs), k)
    ensures Costs(AfterBranches(w, f, s, outs, k), f, 0)
  {
    hide PanicLog, Resolve, Before, Costs;
    ResolveCosts(w, f, s, outs, k);
    PanicLogCosts(f, outs, 0);
    BeforeCosts(PanicLog(f, outs, 0), Resolve(w, f, s, outs, k), f, 0);
  }

  lemma HarvestCosts(w: World, f: Frame, s: Step, outs: seq<Outcome>)
    requires s.Parallel? && |outs| == |s.branches|
    ensures Costs(Harvest(w, f, s, outs), f, 0)
  {
    hide AfterBranches, Costs;
    JoinCosts(w, f, s, outs, SomeField(f, s, outs));
  }

  // ----- Whole runs -----

  lemma {:induction false} RunCosts(w: World, b: nat, l: Launch)
    requires AtMostBranches(w, b) && b >= 1
    ensures var log := RunOf(w, l).log; Acts(log) <= PerRun(w, b, l.depth) && Undos(log) <= Acts(log)
    decreases w.maxDepth + 1 - l.depth, w.maxSteps + 2, 0
  {
    hide Loop, Acts, Undos;
    match Start(w, l)
    case Rejected(e) => CountsOne(Event(l.path, Raised(KindOf(e))));
    case Begun(f) =>
      LoopCosts(w, b, f);
      assert RunOf(w, l).log == Loop(w, f).log;
  }

  /** The frame's remaining visits times what a visit may cost; compensations never outnumber successful actions. */
  lemma {:induction false} LoopCosts(w: World, b: nat, f: Frame)
    requires AtMostBranches(w, b) && b >= 1 && f.depth <= w.maxDepth && f.steps <= w.maxSteps
    requires f.ref in w.workflows && f.wf == w.workflows[f.ref]
    ensures var log := Loop(w, f).log;
            Acts(log) <= (w.maxSteps - f.steps) * PerVisit(w, b, f.depth) && Undos(log) <= |f.done| + Acts(log)
    decreases w.maxDepth + 1 - f.depth, w.maxSteps + 1 - f.steps, 0
  {
    hide Acts, Undos;
    match Top(w, f)
    case Through(_) => assert Acts([]) == 0 && Undos([]) == 0 by { CountsOne(Say(f, ActionPanicked)); }
    case Refusing(e) => CountsOne(Say(f, Raised(KindOf(e))));
    case Visit(g, s) => VisitCosts(w, b, f, g, s);
  }

  lemma {:induction false} TurnCosts(w: World, b: nat, f: Frame, g: Frame, s: Step, inner: Log, ticks: nat, n: Next,
                                     acts: nat)
    requires AtMostBranches(w, b) && b >= 1 && f.depth <= w.maxDepth && f.steps <= w.maxSteps
    requires f.ref in w.workflows && f.wf == w.workflows[f.ref]
    requires Top(w, f) == Visit(g, s) && Continues(n, g) && Costs(n, g, acts)
    requires Loop(w, f) == After(Seen(f, s) + inner, ticks, Then(w, n, g.depth, g.steps))
    requires Acts(inner) + acts <= PerVisit(w, b, f.depth) && Undos(inner) <= Acts(inner)
    ensures var log := Loop(w, f).log;
            Acts(log) <= (w.maxSteps - f.steps) * PerVisit(w, b, f.depth) && Undos(log) <= |f.done| + Acts(log)
    decreases w.maxDepth + 1 - f.depth, w.maxSteps + 1 - g.steps, 2
  {
    hide Loop, Then, Acts, Undos, PerVisit, UnwindAll;
    var rest := Then(w, n, g.depth, g.steps).log;
    CountsConcat(Seen(f, s) + inner, rest);
    CountsConcat(Seen(f, s), inner);
    CountsOne(Seen(f, s)[0]);
    ThenLog(w, n, g);
    assert Undos([]) == 0 && Acts([]) == 0 by { CountsOne(Say(f, ActionPanicked)); }
    match n {
      case Go(h, log) =>
        CountsConcat(log, Loop(w, h).log);
        LoopCosts(w, b, h);
      case Stop(_, log) =>
        CountsConcat(log, []);
      case Unwind(u, log) =>
        CountsConcat(log, UnwindAll(w, u).log);
        UnwindCosts(w, u);
    }
    Distribute(w.maxSteps - f.steps, PerVisit(w, b, f.depth));
  }

  lemma Distribute(n: int, x: int)
    requires n >= 1 && x >= 0
    ensures n * x == x + (n - 1) * x && (n - 1) * x >= 0
  {
  }

  lemma ThenLog(w: World, n: Next, f: Frame)
    requires f.depth <= w.maxDepth && Continues(n, f)
    ensures n.Go? ==> Then(w, n, f.depth, f.steps).log == n.log + Loop(w, n.frame).log
    ensures n.Stop? ==> Then(w, n, f.depth, f.steps).log == n.log + []
    ensures n.Unwind? ==> Then(w, n, f.depth, f.steps).log == n.log + UnwindAll(w, n.unwinding).log
  {
  }

  lemma {:induction false} VisitCosts(w: World, b: nat, f: Frame, g: Frame, s: Step)
    requires AtMostBranches(w, b) && b >= 1 && f.depth <= w.maxDepth && f.steps <= w.maxSteps
    requires f.ref in w.workflows && f.wf == w.workflows[f.ref]
    requires Top(w, f) == Visit(g, s)
    ensures var log := Loop(w, f).log;
            Acts(log) <= (w.maxSteps - f.steps) * PerVisit(w, b, f.depth) && Undos(log) <= |f.done| + Acts(log)
    decreases w.maxDepth + 1 - f.depth, w.maxSteps + 1 - g.steps, 3
  {
    hide Loop, RunOf, BranchRuns, Harvest, Then, Act, Gated, AfterSub, Costs, Acts, Undos, PerRun;
    assert Seen(f, s) + [] == Seen(f, s);
    assert Acts([]) == 0 && Undos([]) == 0 by { CountsOne(Say(f, ActionPanicked)); }
    if s.Leaf? {
      LoopAtLeaf(w, f, g, s);
      GateCosts(w, g, s);
      ActCosts(w, g, s);
      var gate := Gated(w, g, s);
      if gate.Shut? {
        TurnCosts(w, b, f, g, s, [], 1, gate.next, 0);
      } else {
        TurnCosts(w, b, f, g, s, gate.log, 2, Act(w, g, s), 1);
      }
    } else if s.Composite? {
      LoopAtComposite(w, f, g, s);
      var sub := RunOf(w, SubLaunch(g, s));
      RunCosts(w, b, SubLaunch(g, s));
      SubCosts(w, g, s, sub.out);
      Fits(1, b, PerRun(w, b, f.depth + 1));
      TurnCosts(w, b, f, g, s, sub.log, 2 + sub.ticks, AfterSub(w, g, s, sub.out), 0);
    } else if Unrunnable(s) {
      LoopAtUnrunnable(w, f, g, s);
      RaiseCosts(g, if s.Foreign? then UnknownStepType(g.at) else NoBranches(g.wf.id, s.id));
      TurnCosts(w, b, f, g, s, [], 1, Refuse(g, s), 0);
    } else {
      LoopAtParallel(w, f, g, s);
      var runs := BranchRuns(w, g, s);
      var each := PerRun(w, b, f.depth + 1);
      forall i | 0 <= i < |runs| ensures Acts(Logs(runs)[i]) <= each && Undos(Logs(runs)[i]) <= Acts(Logs(runs)[i]) {
        RunCosts(w, b, BranchLaunch(g, s, i));
      }
      ActsOfMany(Logs(runs), each);
      HarvestCosts(w, g, s, Outs(runs));
      Fits(|s.branches|, b, each);
      TurnCosts(w, b, f, g, s, Concat(Logs(runs)), 2 + Ticks(runs), Harvest(w, g, s, Outs(runs)), 0);
    }
  }

  lemma Fits(n: nat, b: nat, each: nat)
    requires n <= b
    ensures n * each <= b * each
  {
  }

  // ----- Compensations never run ahead -----

  function Total(ns: seq<nat>): nat
  {
    if ns == [] then 0 else ns[0] + Total(ns[1..])
  }

  lemma {:induction false} TotalUpdate(ns: seq<nat>, i: nat, n: nat)
    requires i < |ns|
    ensures Total(ns[i := n]) + ns[i] == Total(ns) + n
  {
    if i > 0 {
      assert ns[i := n][1..] == ns[1..][i - 1 := n];
      TotalUpdate(ns[1..], i - 1, n);
    } else {
      assert ns[i := n][1..] == ns[1..];
    }
  }

  lemma {:induction false} TotalZero(ns: seq<nat>)
    requires forall i :: 0 <= i < |ns| ==> ns[i] == 0
    ensures Total(ns) == 0
  {
    if ns != [] {
      TotalZero(ns[1..]);
    }
  }

  /** The compensations a machine may still run for what its frames have completed. */
  ghost function Credit(m: Machine): nat
  {
    match m
    case Starting(_) => 0
    case Running(f) => |f.done|
    case Acting(f, _) => |f.done|
    case Waiting(f, _, sub) => |f.done| + Credit(sub)
    case Fanned(f, _, bs) => |f.done| + Total(seq(|bs|, i requires 0 <= i < |bs| => Credit(bs[i])))
    case Undoing(u) => |u.left|
    case Halted(_) => 0
  }

  ghost function Credits(ms: seq<Machine>): (ns: seq<nat>)
    ensures |ns| == |ms|
  {
    seq(|ms|, i requires 0 <= i < |ms| => Credit(ms[i]))
  }

  lemma FannedCredit(f: Frame, s: Step, bs: seq<Machine>)
    ensures Credit(Fanned(f, s, bs)) == |f.done| + Total(Credits(bs))
  {
    assert seq(|bs|, i requires 0 <= i < |bs| => Credit(bs[i])) == Credits(bs);
  }

  /** A step runs no more compensations than its actions and the credit it uses up. */
  ghost predicate Pays(m: Machine, t: Stepped)
  {
    Undos(t.log) + Credit(t.machine) <= Acts(t.log) + Credit(m)
  }

  lemma SettlePays(n: Next, f: Frame, acts: nat)
    requires Continues(n, f) && Costs(n, f, acts)
    ensures Undos(n.log) + Credit(Settle(n).machine) <= Acts(n.log) + |f.done|
  {
  }

  lemma RunningPays(w: World, f: Frame, c: Choice)
    requires f.depth <= w.maxDepth
    ensures Pays(Running(f), StepBy(w, Running(f), c))
  {
    hide Acts, Undos, Gated, Costs;
    CountsOne(Say(f, ActionPanicked));
    match Top(w, f)
    case Through(_) =>
    case Refusing(e) => CountsOne(Say(f, Raised(KindOf(e))));
    case Visit(g, s) => VisitPays(w, f, g, s);
  }

  lemma VisitPays(w: World, f: Frame, g: Frame, s: Step)
    requires g.done == f.done
    ensures Pays(Running(f), VisitStep(w, f, g, s))
  {
    hide Acts, Undos, Gated, Costs;
    CountsOne(Seen(f, s)[0]);
    if Unrunnable(s) {
      RaiseCosts(g, if s.Foreign? then UnknownStepType(g.at) else NoBranches(g.wf.id, s.id));
      SettlePays(Refuse(g, s), g, 0);
      CountsConcat(Seen(f, s), Refuse(g, s).log);
    } else if s.Leaf? {
      GateCosts(w, g, s);
      var gate := Gated(w, g, s);
      if gate.Shut? {
        SettlePays(gate.next, g, 0);
        CountsConcat(Seen(f, s), gate.next.log);
      } else {
        CountsConcat(Seen(f, s), gate.log);
      }
    } else if s.Composite? {
      assert Credit(Starting(SubLaunch(g, s))) == 0;
    } else {
      FannedCredit(g, s, StartAll(g, s));
      TotalZero(Credits(StartAll(g, s)));
    }
  }

  lemma UndoingPays(w: World, u: Unwinding)
    ensures Pays(Undoing(u), Settle(UnwindOne(w, u)))
  {
    hide Acts, Undos;
    CountsOne(Say(u.frame, Raised(KTripped)));
    if u.left != [] {
      CompensationCosts(u);
    }
  }

  lemma {:induction false} StepPays(w: World, m: Machine, c: Choice)
    requires WellFormed(w, m) && Enabled(w, m, c)
    ensures Pays(m, StepBy(w, m, c))
    decreases m
  {
    hide Acts, Undos, Act, AfterSub, AfterBranches, Costs, VisitStep, UnwindOne;
    match m
    case Starting(l) =>
      CountsOne(Event(l.path, ActionPanicked));
      if Start(w, l).Rejected? {
        CountsOne(Event(l.path, Raised(KindOf(Start(w, l).error))));
      }
    case Running(f) => RunningPays(w, f, c);
    case Acting(f, s) =>
      ActCosts(w, f, s);
      SettlePays(Act(w, f, s), f, 1);
    case Waiting(f, s, sub) =>
      if sub.Halted? {
        SubCosts(w, f, s, sub.out);
        SettlePays(AfterSub(w, f, s, sub.out), f, 0);
      } else {
        StepPays(w, sub, c);
      }
    case Fanned(f, s, bs) =>
      FannedCredit(f, s, bs);
      if AllHalted(bs) {
        JoinCosts(w, f, s, Results(bs), c.field);
        SettlePays(AfterBranches(w, f, s, Results(bs), c.field), f, 0);
      } else {
        var i := c.route[0];
        StepPays(w, bs[i], Down(c));
        BranchPays(f, s, bs, i, StepBy(w, bs[i], Down(c)));
      }
    case Undoing(u) => UndoingPays(w, u);
  }

  lemma BranchPays(f: Frame, s: Step, bs: seq<Machine>, i: nat, t: Stepped)
    requires i < |bs| && Pays(bs[i], t)
    ensures Pays(Fanned(f, s, bs), Stepped(Fanned(f, s, bs[i := t.machine]), t.log))
  {
    hide Acts, Undos;
    FannedCredit(f, s, bs);
    FannedCredit(f, s, bs[i := t.machine]);
    assert Credits(bs[i := t.machine]) == Credits(bs)[i := Credit(t.machine)];
    TotalUpdate(Credits(bs), i, Credit(t.machine));
  }

  lemma {:induction false} ExecutionPays(w: World, m: Machine, cs: seq<Choice>)
    requires WellFormed(w, m) && Follows(w, m, cs)
    ensures Pays(m, Execute(w, m, cs))
    decreases |cs|
  {
    hide Acts, Undos, Credit, StepBy, Enabled, WellFormed;
    if cs == [] {
      CountsOne(Event([], ActionPanicked));
    } else {
      var t := StepBy(w, m, cs[0]);
      StepPays(w, m, cs[0]);
      ExecutionPays(w, t.machine, cs[1..]);
      CountsConcat(t.log, Execute(w, t.machine, cs[1..]).log);
    }
  }

  /** For every table, cyclic ones included, and every schedule: at most maxSteps * (B * maxSteps) ^ maxDepth
      forward actions, where B bounds the branches of a parallel step, and at no moment more compensations than
      forward actions so far. */
  lemma TotalWork(w: World, b: nat, ref: string, start: string, ctx: Context, cs: seq<Choice>)
    requires AtMostBranches(w, b) && b >= 1
    requires var l := Launch(ref, start, ctx, 0, []); Follows(w, Starting(l), cs)
    ensures var log := Execute(w, Starting(Launch(ref, start, ctx, 0, [])), cs).log;
            Acts(log) <= w.maxSteps * Pow(b * w.maxSteps, w.maxDepth) && Undos(log) <= Acts(log)
  {
    hide Execute, Follows, RunOf, Enabled, Agrees, PerRun, Pow, Denote;
    var l := Launch(ref, start, ctx, 0, []);
    RunCosts(w, b, l);
    PerRunClosed(w, b, 0);
    PrefixCosts(w, l, cs);
    ExecutionPays(w, Starting(l), cs);
  }

  /** What has happened so far is part of the whole run. */
  lemma PrefixCosts(w: World, l: Launch, cs: seq<Choice>)
    requires Follows(w, Starting(l), cs)
    ensures Acts(Execute(w, Starting(l), cs).log) <= Acts(RunOf(w, l).log)
  {
    hide Execute, RunOf;
    ExecutionLeaves(w, Starting(l), cs);
    var t := Execute(w, Starting(l), cs);
    var rest := Denote(w, t.machine).log;
    assert Denote(w, Starting(l)) == RunOf(w, l);
    CountOrderFree(RunOf(w, l).log, t.log + rest, ActionRun);
    CountConcat(t.log, rest, ActionRun);
  }
}
