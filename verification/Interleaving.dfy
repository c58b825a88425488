/** Scheduling never changes the answer: every schedule of small steps ends, and ends in the result of
    running the branches one after another in declaration order. */
module Interleaving {
  import opened Basics
  import opened Join
  import opened Workflows
  import opened BigStep
  import opened Machine

  ghost predicate NextAgrees(a: Next, b: Next)
  {
    a == b || (a.Stop? && b.Stop? && Agrees(a.out, b.out) && a.log == b.log)
  }

  /** `b` is what is left of `a` once `log` has happened, in one turn. */
  ghost predicate Leaves(a: Run, log: Log, b: Run)
  {
    && Agrees(a.out, b.out)
    && a.ticks == b.ticks + 1
    && multiset(a.log) == multiset(log) + multiset(b.log)
  }

  // ----- A step of one frame -----

  lemma SettleDenotes(w: World, n: Next, depth: nat, steps: nat)
    requires depth <= w.maxDepth
    requires n.Go? ==> n.frame.depth == depth && n.frame.steps == steps
    ensures WellFormed(w, Settle(n).machine)
    ensures After(Settle(n).log, 0, Denote(w, Settle(n).machine)) == Then(w, n, depth, steps)
  {
    var d := Denote(w, Settle(n).machine);
    if n.Stop? {
      assert n.log + d.log == n.log;
    }
  }

  lemma BeforeThen(w: World, log: Log, n: Next, depth: nat, steps: nat)
    requires depth <= w.maxDepth
    requires n.Go? ==> n.frame.depth == depth && n.frame.steps == steps
    ensures Then(w, Before(log, n), depth, steps) == After(log, 0, Then(w, n, depth, steps))
  {
    var r := Then(w, n, depth, steps);
    match n
    case Go(f, l) => assert (log + l) + Loop(w, f).log == log + (l + Loop(w, f).log);
    case Stop(_, _) =>
    case Unwind(u, l) => assert (log + l) + UnwindAll(w, u).log == log + (l + UnwindAll(w, u).log);
  }

  ghost predicate VisitIsStep(w: World, f: Frame, g: Frame, s: Step)
    requires f.depth <= w.maxDepth && Top(w, f) == Visit(g, s)
  {
    var t := VisitStep(w, f, g, s);
    WellFormed(w, t.machine) && Loop(w, f) == After(t.log, 1, Denote(w, t.machine))
  }

  lemma ShutVisit(w: World, f: Frame, g: Frame, s: Step, next: Next)
    requires f.depth <= w.maxDepth && Top(w, f) == Visit(g, s)
    requires VisitStep(w, f, g, s) == Settle(Before(Seen(f, s), next))
    requires next.Go? ==> next.frame.depth == g.depth && next.frame.steps == g.steps
    requires Loop(w, f) == After(Seen(f, s), 1, Then(w, next, g.depth, g.steps))
    ensures VisitIsStep(w, f, g, s)
  {
    BeforeThen(w, Seen(f, s), next, g.depth, g.steps);
    SettleDenotes(w, Before(Seen(f, s), next), g.depth, g.steps);
  }

  lemma LeafVisit(w: World, f: Frame, g: Frame, s: Step)
    requires f.depth <= w.maxDepth && Top(w, f) == Visit(g, s) && s.Leaf?
    ensures VisitIsStep(w, f, g, s)
  {
    hide Loop, RunOf, BranchRuns, Harvest, Act;
    LoopAtLeaf(w, f, g, s);
    if Gated(w, g, s).Shut? {
      ShutVisit(w, f, g, s, Gated(w, g, s).next);
    } else {
      var rest := Then(w, Act(w, g, s), g.depth, g.steps);
      assert [] + rest.log == rest.log;
    }
  }

  lemma CompositeDenotes(w: World, g: Frame, s: Step)
    requires g.depth <= w.maxDepth && s.Composite?
    ensures var sub := RunOf(w, SubLaunch(g, s));
            Denote(w, Waiting(g, s, Starting(SubLaunch(g, s))))
              == After(sub.log, sub.ticks + 1, Then(w, AfterSub(w, g, s, sub.out), g.depth, g.steps))
  {
    hide RunOf, Then, AfterSub, Loop;
    assert Denote(w, Starting(SubLaunch(g, s))) == RunOf(w, SubLaunch(g, s));
  }

  lemma AfterTwice(a: Log, b: Log, i: nat, j: nat, r: Run)
    ensures After(a + b, i + j, r) == After(a, i, After(b, j, r))
  {
    assert (a + b) + r.log == a + (b + r.log);
  }

  lemma CompositeVisit(w: World, f: Frame, g: Frame, s: Step)
    requires f.depth <= w.maxDepth && Top(w, f) == Visit(g, s) && s.Composite?
    ensures VisitIsStep(w, f, g, s)
  {
    hide RunOf, Then, AfterSub, Denote, After;
    LoopAtComposite(w, f, g, s);
    CompositeDenotes(w, g, s);
    var sub := RunOf(w, SubLaunch(g, s));
    AfterTwice(Seen(f, s), sub.log, 1, sub.ticks + 1, Then(w, AfterSub(w, g, s, sub.out), g.depth, g.steps));
    var t := VisitStep(w, f, g, s);
    assert t == Stepped(Waiting(g, s, Starting(SubLaunch(g, s))), Seen(f, s));
    assert WellFormed(w, Starting(SubLaunch(g, s)));
    assert WellFormed(w, t.machine);
    assert Loop(w, f) == After(t.log, 1, Denote(w, t.machine));
  }

  lemma FanOutVisit(w: World, f: Frame, g: Frame, s: Step)
    requires f.depth <= w.maxDepth && Top(w, f) == Visit(g, s) && s.Parallel? && s.branches != []
    ensures VisitIsStep(w, f, g, s)
  {
    hide Loop, RunOf, BranchRuns, Then, Harvest;
    LoopAtParallel(w, f, g, s);
    var bs := VisitStep(w, f, g, s).machine.branches;
    var runs := BranchRuns(w, g, s);
    DenoteFanned(w, g, s, bs);
    assert DenoteAll(w, bs) == runs;
    var rest := Then(w, Harvest(w, g, s, Outs(runs)), g.depth, g.steps);
    assert (Seen(f, s) + Concat(Logs(runs))) + rest.log == Seen(f, s) + (Concat(Logs(runs)) + rest.log);
  }

  lemma VisitDenotes(w: World, f: Frame, g: Frame, s: Step)
    requires f.depth <= w.maxDepth && Top(w, f) == Visit(g, s)
    ensures VisitIsStep(w, f, g, s)
  {
    if s.Leaf? {
      LeafVisit(w, f, g, s);
    } else if s.Composite? {
      CompositeVisit(w, f, g, s);
    } else if Unrunnable(s) {
      LoopAtUnrunnable(w, f, g, s);
      ShutVisit(w, f, g, s, Refuse(g, s));
    } else {
      FanOutVisit(w, f, g, s);
    }
  }

  // ----- A step inside a branch -----

  lemma BypassSame(rs: seq<Outcome>, rs': seq<Outcome>)
    requires |rs| == |rs'|
    requires forall i :: 0 <= i < |rs| ==>
      (rs[i].Failed? && BypassesBreaker(rs[i].error) <==> rs'[i].Failed? && BypassesBreaker(rs'[i].error))
    ensures FirstBypass(rs, 0) == FirstBypass(rs', 0)
  {
  }

  lemma {:induction false} PanicLogSame(f: Frame, outs: seq<Outcome>, outs': seq<Outcome>, i: nat)
    requires |outs| == |outs'| && i <= |outs|
    requires forall j :: 0 <= j < |outs| ==> outs[j].Panicked? == outs'[j].Panicked?
    ensures PanicLog(f, outs, i) == PanicLog(f, outs', i)
    decreases |outs| - i
  {
    if i < |outs| {
      PanicLogSame(f, outs, outs', i + 1);
    }
  }

  /** The collected failures depend on the world only through the texts of errors. */
  lemma {:induction false} FailuresSame(w: World, w': World, branches: seq<string>, rs: seq<Outcome>)
    requires |branches| == |rs| && w'.text == w.text
    ensures Failures(w', branches, rs) == Failures(w, branches, rs)
  {
    if rs != [] {
      FailuresSame(w, w', branches[1..], rs[1..]);
    }
  }

  /** Branch by branch agreement: outcomes that differ are join conflicts, and those bypass everything. */
  ghost predicate AllAgree(outs: seq<Outcome>, outs': seq<Outcome>)
  {
    |outs| == |outs'| && forall i :: 0 <= i < |outs| ==> Agrees(outs[i], outs'[i])
  }

  lemma BypassedBranches(w: World, f: Frame, s: Step, outs: seq<Outcome>, k: string)
    requires s.Parallel? && |outs| == |s.branches| && MayName(JoinOf(f, s, outs), k)
    requires FirstBypass(Recover(s, outs), 0) < |outs|
    ensures AfterBranches(w, f, s, outs, k)
            == Stop(Recover(s, outs)[FirstBypass(Recover(s, outs), 0)], PanicLog(f, outs, 0))
  {
    hide OnFailure;
    assert PanicLog(f, outs, 0) + [] == PanicLog(f, outs, 0);
  }

  /** Without a bypassing error only the name of the field in conflict is open. */
  lemma OnlyFieldIsOpen(w: World, f: Frame, s: Step, outs: seq<Outcome>, k: string, k': string)
    requires s.Parallel? && |outs| == |s.branches|
    requires MayName(JoinOf(f, s, outs), k) && MayName(JoinOf(f, s, outs), k')
    ensures NextAgrees(AfterBranches(w, f, s, outs, k), AfterBranches(w, f, s, outs, k'))
  {
    hide OnFailure, PanicLog;
    ClashInRange(f.ctx, s.branches, Deltas(f.ctx, Outputs(Recover(s, outs))), 0, map[]);
  }

  lemma AfterBranchesAgrees(w: World, f: Frame, s: Step, outs: seq<Outcome>, outs': seq<Outcome>, k: string, k': string)
    requires s.Parallel? && |outs| == |s.branches| && AllAgree(outs, outs')
    requires MayName(JoinOf(f, s, outs), k) && MayName(JoinOf(f, s, outs'), k')
    ensures NextAgrees(AfterBranches(w, f, s, outs, k), AfterBranches(w, f, s, outs', k'))
  {
    hide AfterBranches, PanicLog;
    if outs == outs' {
      OnlyFieldIsOpen(w, f, s, outs, k, k');
    } else {
      var rs, rs' := Recover(s, outs), Recover(s, outs');
      var i :| 0 <= i < |outs| && outs[i] != outs'[i];
      assert rs[i] == outs[i];
      BypassSame(rs, rs');
      PanicLogSame(f, outs, outs', 0);
      BypassedBranches(w, f, s, outs, k);
      BypassedBranches(w, f, s, outs', k');
    }
  }

  lemma HarvestAgrees(w: World, f: Frame, s: Step, outs: seq<Outcome>, outs': seq<Outcome>)
    requires s.Parallel? && |outs| == |s.branches| && AllAgree(outs, outs')
    ensures NextAgrees(Harvest(w, f, s, outs), Harvest(w, f, s, outs'))
  {
    AfterBranchesAgrees(w, f, s, outs, outs', SomeField(f, s, outs), SomeField(f, s, outs'));
  }

  lemma {:induction false} TicksUpdate(runs: seq<Run>, i: nat, r: Run)
    requires i < |runs| && runs[i].ticks == r.ticks + 1
    ensures Ticks(runs) == Ticks(runs[i := r]) + 1
  {
    if i > 0 {
      assert runs[i := r][1..] == runs[1..][i - 1 := r];
      TicksUpdate(runs[1..], i - 1, r);
    } else {
      assert runs[i := r][1..] == runs[1..];
    }
  }

  lemma ThenAgrees(w: World, a: Next, b: Next, depth: nat, steps: nat)
    requires NextAgrees(a, b) && depth <= w.maxDepth
    requires a.Go? ==> a.frame.depth == depth && a.frame.steps == steps
    ensures var x, y := Then(w, a, depth, steps), Then(w, b, depth, steps);
            Agrees(x.out, y.out) && x.log == y.log && x.ticks == y.ticks
  {
  }

  lemma BranchLeaves(w: World, f: Frame, s: Step, runs: seq<Run>, i: nat, r: Run, log: Log)
    requires f.depth <= w.maxDepth && s.Parallel? && |runs| == |s.branches| && i < |runs|
    requires Leaves(runs[i], log, r)
    ensures Leaves(AfterRuns(w, f, s, runs), log, AfterRuns(w, f, s, runs[i := r]))
  {
    var runs' := runs[i := r];
    assert Outs(runs') == Outs(runs)[i := r.out];
    assert Logs(runs') == Logs(runs)[i := r.log];
    HarvestAgrees(w, f, s, Outs(runs), Outs(runs'));
    ThenAgrees(w, Harvest(w, f, s, Outs(runs)), Harvest(w, f, s, Outs(runs')), f.depth, f.steps);
    TicksUpdate(runs, i, r);
    ConcatUpdate(Logs(runs), i, r.log, log);
  }

  lemma AfterSubAgrees(w: World, f: Frame, s: Step, out: Outcome, out': Outcome)
    requires s.Composite? && Agrees(out, out')
    ensures NextAgrees(AfterSub(w, f, s, out), AfterSub(w, f, s, out'))
  {
  }

  lemma SubLeaves(w: World, f: Frame, s: Step, a: Run, log: Log, b: Run)
    requires f.depth <= w.maxDepth && s.Composite? && Leaves(a, log, b)
    ensures Leaves(After(a.log, a.ticks + 1, Then(w, AfterSub(w, f, s, a.out), f.depth, f.steps)), log,
                   After(b.log, b.ticks + 1, Then(w, AfterSub(w, f, s, b.out), f.depth, f.steps)))
  {
    hide Then, AfterSub;
    AfterSubAgrees(w, f, s, a.out, b.out);
    ThenAgrees(w, AfterSub(w, f, s, a.out), AfterSub(w, f, s, b.out), f.depth, f.steps);
  }

  // ----- Any step of any machine -----

  lemma ExactLeaves(a: Run, log: Log, b: Run)
    requires a == After(log, 1, b)
    ensures Leaves(a, log, b)
  {
  }

  lemma SettleLeaves(w: World, n: Next, depth: nat, steps: nat)
    requires depth <= w.maxDepth
    requires n.Go? ==> n.frame.depth == depth && n.frame.steps == steps
    ensures WellFormed(w, Settle(n).machine)
    ensures Leaves(After([], 1, Then(w, n, depth, steps)), Settle(n).log, Denote(w, Settle(n).machine))
  {
    SettleDenotes(w, n, depth, steps);
    var d := Denote(w, Settle(n).machine);
    assert After([], 1, Then(w, n, depth, steps)).log == Settle(n).log + d.log;
  }

  lemma FieldIsFree(w: World, f: Frame, s: Step, outs: seq<Outcome>, k: string)
    requires s.Parallel? && |outs| == |s.branches| && MayName(JoinOf(f, s, outs), k)
    ensures NextAgrees(Harvest(w, f, s, outs), AfterBranches(w, f, s, outs, k))
  {
    AfterBranchesAgrees(w, f, s, outs, outs, SomeField(f, s, outs), k);
  }

  /** The last branch has ended: whatever field the join names, it agrees with the denotation. */
  lemma FanInLeaves(w: World, m: Machine, c: Choice)
    requires WellFormed(w, m) && m.Fanned? && AllHalted(m.branches) && Enabled(w, m, c)
    ensures var t := StepBy(w, m, c);
            WellFormed(w, t.machine) && Leaves(Denote(w, m), t.log, Denote(w, t.machine))
  {
    var f, s, bs := m.frame, m.step, m.branches;
    DenoteFanned(w, f, s, bs);
    var runs := DenoteAll(w, bs);
    assert Outs(runs) == Results(bs);
    HaltedRuns(runs);
    FieldIsFree(w, f, s, Results(bs), c.field);
    var n, n' := Harvest(w, f, s, Results(bs)), AfterBranches(w, f, s, Results(bs), c.field);
    ThenAgrees(w, n, n', f.depth, f.steps);
    SettleLeaves(w, n', f.depth, f.steps);
    assert StepBy(w, m, c) == Settle(n');
  }

  lemma {:induction false} HaltedRuns(runs: seq<Run>)
    requires forall i :: 0 <= i < |runs| ==> runs[i].log == [] && runs[i].ticks == 0
    ensures Concat(Logs(runs)) == [] && Ticks(runs) == 0
  {
    if runs != [] {
      assert Logs(runs)[1..] == Logs(runs[1..]);
      HaltedRuns(runs[1..]);
    }
  }

  lemma RunningLeaves(w: World, f: Frame, c: Choice)
    requires f.depth <= w.maxDepth
    ensures var t := StepBy(w, Running(f), c);
            WellFormed(w, t.machine) && Leaves(Loop(w, f), t.log, Denote(w, t.machine))
  {
    match Top(w, f)
    case Through(out) =>
    case Refusing(e) =>
    case Visit(g, s) =>
      VisitDenotes(w, f, g, s);
  }

  lemma WaitingLeaves(w: World, m: Machine, c: Choice)
    requires WellFormed(w, m) && m.Waiting? && !m.sub.Halted? && Enabled(w, m, c)
    requires var t := StepBy(w, m.sub, c);
             WellFormed(w, t.machine) && Leaves(Denote(w, m.sub), t.log, Denote(w, t.machine))
    ensures var t := StepBy(w, m, c);
            WellFormed(w, t.machine) && Leaves(Denote(w, m), t.log, Denote(w, t.machine))
  {
    var t := StepBy(w, m.sub, c);
    SubLeaves(w, m.frame, m.step, Denote(w, m.sub), t.log, Denote(w, t.machine));
  }

  lemma FannedLeaves(w: World, m: Machine, c: Choice)
    requires WellFormed(w, m) && m.Fanned? && !AllHalted(m.branches) && Enabled(w, m, c)
    requires var t := StepBy(w, m.branches[c.route[0]], Down(c));
             WellFormed(w, t.machine) && Leaves(Denote(w, m.branches[c.route[0]]), t.log, Denote(w, t.machine))
    ensures var t := StepBy(w, m, c);
            WellFormed(w, t.machine) && Leaves(Denote(w, m), t.log, Denote(w, t.machine))
  {
    hide Leaves, AfterRuns, Denote;
    var i, f, s, bs := c.route[0], m.frame, m.step, m.branches;
    var t := StepBy(w, bs[i], Down(c));
    var bs' := bs[i := t.machine];
    assert m == Fanned(f, s, bs) && StepBy(w, m, c) == Stepped(Fanned(f, s, bs'), t.log);
    assert WellFormed(w, Fanned(f, s, bs'));
    DenoteFanned(w, f, s, bs);
    DenoteFanned(w, f, s, bs');
    assert DenoteAll(w, bs') == DenoteAll(w, bs)[i := Denote(w, t.machine)];
    BranchLeaves(w, f, s, DenoteAll(w, bs), i, Denote(w, t.machine), t.log);
  }

  /** The heart of the argument: no small step, of whichever branch, changes what the machine computes. */
  lemma {:induction false} StepLeaves(w: World, m: Machine, c: Choice)
    requires WellFormed(w, m) && Enabled(w, m, c)
    ensures var t := StepBy(w, m, c);
            WellFormed(w, t.machine) && Leaves(Denote(w, m), t.log, Denote(w, t.machine))
    decreases m
  {
    match m
    case Starting(l) =>
      ExactLeaves(Denote(w, m), StepBy(w, m, c).log, Denote(w, StepBy(w, m, c).machine));
    case Running(f) => RunningLeaves(w, f, c);
    case Acting(f, s) => SettleLeaves(w, Act(w, f, s), f.depth, f.steps);
    case Waiting(f, s, sub) =>
      if sub.Halted? {
        SettleLeaves(w, AfterSub(w, f, s, sub.out), f.depth, f.steps);
      } else {
        StepLeaves(w, sub, c);
        WaitingLeaves(w, m, c);
      }
    case Fanned(f, s, bs) =>
      if AllHalted(bs) {
        FanInLeaves(w, m, c);
      } else {
        StepLeaves(w, bs[c.route[0]], Down(c));
        FannedLeaves(w, m, c);
      }
    case Undoing(u) => UndoingLeaves(w, u);
  }

  lemma UndoingLeaves(w: World, u: Unwinding)
    ensures Leaves(UnwindAll(w, u), Settle(UnwindOne(w, u)).log, Denote(w, Settle(UnwindOne(w, u)).machine))
  {
    hide UnwindOne, Agrees, Loop, RunOf;
    var n := UnwindOne(w, u);
    Same(UnwindAll(w, u).out);
    if n.Stop? {
      assert n.log + [] == n.log;
    }
  }

  /** A machine that has not ended can always move. */
  lemma {:induction false} NotStuck(w: World, m: Machine) returns (c: Choice)
    requires WellFormed(w, m) && !m.Halted?
    ensures Enabled(w, m, c)
    decreases m
  {
    c := Choice([], "");
    match m
    case Waiting(f, s, sub) =>
      if !sub.Halted? {
        c := NotStuck(w, sub);
      }
    case Fanned(f, s, bs) =>
      if AllHalted(bs) {
        c := Choice([], SomeField(f, s, Results(bs)));
      } else {
        var i :| 0 <= i < |bs| && !bs[i].Halted?;
        var d := NotStuck(w, bs[i]);
        c := Choice([i] + d.route, d.field);
        assert Down(c) == d;
      }
    case _ =>
  }

  /** For every schedule, at every point of it: what has happened plus what is left is the sequential run. */
  lemma {:induction false} ExecutionLeaves(w: World, m: Machine, cs: seq<Choice>)
    requires WellFormed(w, m) && Follows(w, m, cs)
    ensures var t := Execute(w, m, cs);
            && WellFormed(w, t.machine)
            && Agrees(Denote(w, m).out, Denote(w, t.machine).out)
            && Denote(w, m).ticks == Denote(w, t.machine).ticks + |cs|
            && multiset(Denote(w, m).log) == multiset(t.log) + multiset(Denote(w, t.machine).log)
    decreases |cs|
  {
    hide StepBy, Enabled, Denote, Agrees, WellFormed;
    if cs == [] {
      Same(Denote(w, m).out);
    } else {
      StepLeaves(w, m, cs[0]);
      var t := StepBy(w, m, cs[0]);
      var rest := Execute(w, t.machine, cs[1..]);
      ExecutionLeaves(w, t.machine, cs[1..]);
      AgreesThrough(Denote(w, m).out, Denote(w, t.machine).out, Denote(w, rest.machine).out);
      assert multiset(t.log + rest.log) == multiset(t.log) + multiset(rest.log);
    }
  }

  lemma Same(a: Outcome)
    ensures Agrees(a, a)
  {
  }

  lemma AgreesThrough(a: Outcome, b: Outcome, c: Outcome)
    requires Agrees(a, b) && Agrees(b, c)
    ensures Agrees(a, c)
  {
  }

  /** Whatever the scheduler does, a run ends after the same number of steps, and ends with the sequential run's output,
      trace, error, failure list and events. Only in a conflict over several fields the one it stops at may vary; the
      step, the second branch and every field's two writers and values are the same even then. */
  lemma SchedulingIsInvisible(w: World, l: Launch, cs: seq<Choice>)
    requires Follows(w, Starting(l), cs)
    ensures var t, r := Execute(w, Starting(l), cs), RunOf(w, l);
            && |cs| <= r.ticks
            && (t.machine.Halted? <==> |cs| == r.ticks)
            && (t.machine.Halted? ==> Agrees(r.out, t.machine.out) && multiset(r.log) == multiset(t.log))
            && (t.machine.Halted? && !ManyFields(r.out) ==> t.machine.out == r.out)
            && (!t.machine.Halted? ==> WellFormed(w, t.machine) && exists c :: Enabled(w, t.machine, c))
  {
    ExecutionLeaves(w, Starting(l), cs);
    var t, r := Execute(w, Starting(l), cs), RunOf(w, l);
    if !t.machine.Halted? {
      var c := NotStuck(w, t.machine);
      StepLeaves(w, t.machine, c);
    } else if !ManyFields(r.out) {
      OneFieldAgrees(r.out, t.machine.out);
    }
  }
}
