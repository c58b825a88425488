/** What the observers are told adds up, in every run and under every schedule. */
module Observers {
  import opened Basics
  import opened Join
  import opened Workflows
  import opened BigStep
  import opened Machine
  import opened Interleaving

  /** A conservation law: every event counts for it, against it, or not at all. */
  datatype Law = LeafVisits | Probes | Trips

  function Weight(law: Law, what: What): int
  {
    match law
    case LeafVisits =>
      if what.Visited? && what.leaf then 1
      else if what.StepObserved? || (what.ProbeOutcome? && !what.healthy) || what == Raised(KNoSandbox) then -1 else 0
    case Probes => if what.ProbeObserved? then 1 else if what.ProbeOutcome? then -1 else 0
    case Trips => if what.BreakerObserved? then 1 else if what.Diverted? || what.Abandoned? then -1 else 0
  }

  function Balance(law: Law, log: Log): int
  {
    if log == [] then 0 else Weight(law, log[0].what) + Balance(law, log[1..])
  }

  lemma {:induction false} BalanceConcat(law: Law, a: Log, b: Log)
    ensures Balance(law, a + b) == Balance(law, a) + Balance(law, b)
  {
    if a == [] {
      assert a + b == b;
    } else {
      assert (a + b)[1..] == a[1..] + b;
      BalanceConcat(law, a[1..], b);
    }
  }

  lemma {:induction false} BalanceAll(law: Law, logs: seq<Log>)
    requires forall i :: 0 <= i < |logs| ==> Balance(law, logs[i]) == 0
    ensures Balance(law, Concat(logs)) == 0
  {
    if logs != [] {
      BalanceConcat(law, logs[0], Concat(logs[1..]));
      assert forall i :: 0 <= i < |logs[1..]| ==> logs[1..][i] == logs[i + 1];
      BalanceAll(law, logs[1..]);
    }
  }

  /** What a turn puts on the scale. */
  ghost predicate NextBalanced(law: Law, n: Next, weight: int)
  {
    Balance(law, n.log) == weight
  }

  lemma BalanceFew(law: Law, a: Event, b: Event, c: Event)
    ensures Balance(law, [a]) == Weight(law, a.what)
    ensures Balance(law, [a, b]) == Weight(law, a.what) + Weight(law, b.what)
    ensures Balance(law, [a, b, c]) == Weight(law, a.what) + Weight(law, b.what) + Weight(law, c.what)
  {
    assert forall e :: Balance(law, [e]) == Weight(law, e.what);
    assert [a] + [b] == [a, b] && [a, b] + [c] == [a, b, c];
    BalanceConcat(law, [a], [b]);
    BalanceConcat(law, [a, b], [c]);
  }

  lemma BalanceBefore(law: Law, log: Log, n: Next)
    ensures Balance(law, Before(log, n).log) == Balance(law, log) + Balance(law, n.log)
  {
    BalanceConcat(law, log, n.log);
  }

  lemma {:induction false} UnwindBalanced(law: Law, w: World, u: Unwinding)
    ensures Balance(law, UnwindAll(w, u).log) == 0
    decreases |u.left|
  {
    hide Balance;
    var n := UnwindOne(w, u);
    if u.left == [] {
      BalanceFew(law, n.log[0], n.log[0], n.log[0]);
    } else {
      CompensationBalanced(law, u);
      if n.Unwind? {
        UnwindBalanced(law, w, n.unwinding);
        BalanceConcat(law, n.log, UnwindAll(w, n.unwinding).log);
      }
    }
  }

  lemma CompensationBalanced(law: Law, u: Unwinding)
    requires u.left != []
    ensures Balance(law, CompensateLog(u.frame, u.left[|u.left| - 1].via, u.ctx)) == 0
  {
    var e := Say(u.frame, Compensating(u.left[|u.left| - 1].via));
    BalanceFew(law, e, Say(u.frame, ActionPanicked), e);
  }

  lemma FailureBalanced(law: Law, w: World, f: Frame, s: Step, reason: string)
    ensures NextBalanced(law, OnFailure(w, f, s, reason), 0)
  {
    var log := OnFailure(w, f, s, reason).log;
    assert log == [log[0], log[1]];
    BalanceFew(law, log[0], log[1], log[0]);
  }

  lemma RaiseBalanced(law: Law, f: Frame, e: Error)
    ensures NextBalanced(law, Raise(f, e), if law.LeafVisits? && e.NoSandbox? then -1 else 0)
  {
    var log := Raise(f, e).log;
    BalanceFew(law, log[0], log[0], log[0]);
  }

  lemma GateBalanced(law: Law, w: World, f: Frame, s: Step)
    requires s.Leaf?
    ensures var g := Gated(w, f, s);
            if g.Shut? then NextBalanced(law, g.next, if law.LeafVisits? then -1 else 0) else Balance(law, g.log) == 0
  {
    RaiseBalanced(law, f, NoSandbox(s.id, s.probeRef));
    if s.probeRef != "" && w.sandbox.Some? {
      var v := w.sandbox.value(Point(f), s.probeRef, f.wf.domain, f.ctx);
      var refusal := Refusal(v);
      var a, b, c := Say(f, ProbeObserved(s.id)), Say(f, ProbeAsked(s.probeRef, v)),
        Say(f, ProbeOutcome(s.id, refusal.None?));
      BalanceFew(law, a, b, c);
      if refusal.Some? {
        FailureBalanced(law, w, f, s, refusal.value);
        BalanceBefore(law, [a, b, c], OnFailure(w, f, s, refusal.value));
      }
    }
  }

  lemma ActBalanced(law: Law, w: World, f: Frame, s: Step)
    requires s.Leaf?
    ensures NextBalanced(law, Act(w, f, s), if law.LeafVisits? then -1 else 0)
  {
    hide OnFailure, Balance, Under;
    var e := Say(f, StepObserved(s.id));
    BalanceFew(law, e, e, e);
    match s.run(f.ctx)
    case Output(fields) =>
      BalanceFew(law, e, Did(f, s, fields), e);
      assert Act(w, f, s).log == [e, Did(f, s, fields)];
    case Panic(_) =>
      BalanceFew(law, e, Say(f, ActionPanicked), e);
      assert Act(w, f, s).log == [e, Say(f, ActionPanicked)];
    case Failure(reason) =>
      FailureBalanced(law, w, f, s, reason);
      BalanceBefore(law, [e], OnFailure(w, f, s, reason));
    case Suspended(_, _) =>
      var last := Act(w, f, s).log[1];
      BalanceFew(law, e, last, e);
      assert Act(w, f, s).log == [e, last];
  }

  lemma {:induction false} PanicLogBalanced(law: Law, f: Frame, outs: seq<Outcome>, i: nat)
    requires i <= |outs|
    ensures Balance(law, PanicLog(f, outs, i)) == 0
    decreases |outs| - i
  {
    if i < |outs| {
      PanicLogBalanced(law, f, outs, i + 1);
      var e := Event(Point(f) + [i], Raised(KPanicked));
      BalanceFew(law, e, e, e);
      BalanceConcat(law, [e], PanicLog(f, outs, i + 1));
      BalanceConcat(law, [], PanicLog(f, outs, i + 1));
    }
  }

  lemma ResolveBalanced(law: Law, w: World, f: Frame, s: Step, outs: seq<Outcome>, k: string)
    requires s.Parallel? && |outs| == |s.branches| && MayName(JoinOf(f, s, outs), k)
    ensures NextBalanced(law, Resolve(w, f, s, outs, k), 0)
  {
    hide OnFailure;
    ClashInRange(f.ctx, s.branches, Deltas(f.ctx, Outputs(Recover(s, outs))), 0, map[]);
    var failures := Failures(w, s.branches, Recover(s, outs));
    if failures != [] {
      var e, reason := Say(f, Raised(KBranchesFailed)), w.text(BranchesFailed(s.id, |s.branches|, failures));
      BalanceFew(law, e, e, e);
      FailureBalanced(law, w, f, s, reason);
      BalanceBefore(law, [e], OnFailure(w, f, s, reason));
    } else if JoinOf(f, s, outs).Clash? {
      RaiseBalanced(law, f, ConflictError(s, JoinOf(f, s, outs), k));
    }
  }

  lemma HarvestBalanced(law: Law, w: World, f: Frame, s: Step, outs: seq<Outcome>)
    requires s.Parallel? && |outs| == |s.branches|
    ensures NextBalanced(law, Harvest(w, f, s, outs), 0)
  {
    hide PanicLog, Resolve, Before;
    var k := SomeField(f, s, outs);
    ResolveBalanced(law, w, f, s, outs, k);
    PanicLogBalanced(law, f, outs, 0);
    BalanceBefore(law, PanicLog(f, outs, 0), Resolve(w, f, s, outs, k));
  }

  lemma ThenBalanced(law: Law, w: World, n: Next, f: Frame, weight: int)
    requires f.depth <= w.maxDepth && Continues(n, f) && NextBalanced(law, n, weight)
    requires n.Go? ==> Balance(law, Loop(w, n.frame).log) == 0
    ensures Balance(law, Then(w, n, f.depth, f.steps).log) == weight
  {
    hide Loop, UnwindAll;
    match n
    case Go(g, log) => BalanceConcat(law, log, Loop(w, g).log);
    case Stop(_, _) =>
    case Unwind(u, log) =>
      BalanceConcat(law, log, UnwindAll(w, u).log);
      UnwindBalanced(law, w, u);
  }

  lemma {:induction false} RunBalanced(law: Law, w: World, l: Launch)
    ensures Balance(law, RunOf(w, l).log) == 0
    decreases w.maxDepth + 1 - l.depth, w.maxSteps + 2, 0
  {
    hide Loop, Balance;
    if Start(w, l).Begun? {
      assert RunOf(w, l).log == Loop(w, Start(w, l).frame).log;
      LoopBalanced(law, w, Start(w, l).frame);
    } else {
      BalanceFew(law, RunOf(w, l).log[0], RunOf(w, l).log[0], RunOf(w, l).log[0]);
    }
  }

  lemma {:induction false} LoopBalanced(law: Law, w: World, f: Frame)
    requires f.depth <= w.maxDepth
    ensures Balance(law, Loop(w, f).log) == 0
    decreases w.maxDepth + 1 - f.depth, w.maxSteps + 1 - f.steps, 0
  {
    NothingBalances(law);
    if Top(w, f).Refusing? {
      BalanceFew(law, Loop(w, f).log[0], Loop(w, f).log[0], Loop(w, f).log[0]);
    }
    if Top(w, f).Visit? {
      VisitBalanced(law, w, f, Top(w, f).frame, Top(w, f).step);
    }
  }

  /** A visit: the step seen, whatever ran inside it, and the turn it led to. */
  lemma {:induction false} TurnBalanced(law: Law, w: World, f: Frame, g: Frame, s: Step, inner: Log, ticks: nat,
                                        n: Next)
    requires f.depth <= w.maxDepth && Top(w, f) == Visit(g, s)
    requires Continues(n, g) && Loop(w, f) == After(Seen(f, s) + inner, ticks, Then(w, n, g.depth, g.steps))
    requires NextBalanced(law, n, if s.Leaf? && law.LeafVisits? then -1 else 0)
    requires Balance(law, inner) == 0
    ensures Balance(law, Loop(w, f).log) == 0
    decreases w.maxDepth + 1 - f.depth, w.maxSteps + 1 - g.steps, 2
  {
    hide Loop, Then, NextBalanced;
    var rest := Then(w, n, g.depth, g.steps).log;
    if n.Go? {
      LoopBalanced(law, w, n.frame);
    }
    ThenBalanced(law, w, n, g, if s.Leaf? && law.LeafVisits? then -1 else 0);
    BalanceConcat(law, Seen(f, s) + inner, rest);
    BalanceConcat(law, Seen(f, s), inner);
    BalanceFew(law, Seen(f, s)[0], Seen(f, s)[0], Seen(f, s)[0]);
  }

  lemma {:induction false} VisitBalanced(law: Law, w: World, f: Frame, g: Frame, s: Step)
    requires f.depth <= w.maxDepth && Top(w, f) == Visit(g, s)
    ensures Balance(law, Loop(w, f).log) == 0
    decreases w.maxDepth + 1 - f.depth, w.maxSteps + 1 - g.steps, 3
  {
    NothingBalances(law);
    hide Loop, RunOf, BranchRuns, Harvest, Then, Act, Gated, AfterSub, NextBalanced, Balance, Seen, Top;
    assert Seen(f, s) + [] == Seen(f, s);
    if s.Leaf? {
      LoopAtLeaf(w, f, g, s);
      GateBalanced(law, w, g, s);
      var gate := Gated(w, g, s);
      ActBalanced(law, w, g, s);
      TurnBalanced(law, w, f, g, s, if gate.Shut? then [] else gate.log, if gate.Shut? then 1 else 2,
                   if gate.Shut? then gate.next else Act(w, g, s));
    } else if s.Composite? {
      LoopAtComposite(w, f, g, s);
      var sub := RunOf(w, SubLaunch(g, s));
      RunBalanced(law, w, SubLaunch(g, s));
      SubBalanced(law, w, g, s, sub.out);
      TurnBalanced(law, w, f, g, s, sub.log, 2 + sub.ticks, AfterSub(w, g, s, sub.out));
    } else if Unrunnable(s) {
      LoopAtUnrunnable(w, f, g, s);
      RaiseBalanced(law, g, if s.Foreign? then UnknownStepType(g.at) else NoBranches(g.wf.id, s.id));
      TurnBalanced(law, w, f, g, s, [], 1, Refuse(g, s));
    } else {
      LoopAtParallel(w, f, g, s);
      var runs := BranchRuns(w, g, s);
      forall i | 0 <= i < |runs| ensures Balance(law, Logs(runs)[i]) == 0 {
        RunBalanced(law, w, BranchLaunch(g, s, i));
      }
      BalanceAll(law, Logs(runs));
      HarvestBalanced(law, w, g, s, Outs(runs));
      TurnBalanced(law, w, f, g, s, Concat(Logs(runs)), 2 + Ticks(runs), Harvest(w, g, s, Outs(runs)));
    }
  }

  lemma NothingBalances(law: Law)
    ensures Balance(law, []) == 0
  {
  }

  lemma SubBalanced(law: Law, w: World, f: Frame, s: Step, out: Outcome)
    requires s.Composite?
    ensures NextBalanced(law, AfterSub(w, f, s, out), 0)
  {
    if out.Failed? {
      FailureBalanced(law, w, f, s, w.text(out.error));
    }
  }

  // ----- The laws in terms of counts, under any schedule -----

  predicate LeafVisited(e: Event) { e.what.Visited? && e.what.leaf }
  predicate ActionRun(e: Event) { e.what.StepObserved? }
  predicate ProbeRefused(e: Event) { e.what.ProbeOutcome? && !e.what.healthy }
  predicate SandboxMissing(e: Event) { e.what == Raised(KNoSandbox) }
  predicate Probed(e: Event) { e.what.ProbeObserved? }
  predicate OutcomeKnown(e: Event) { e.what.ProbeOutcome? }
  predicate Tripped(e: Event) { e.what.BreakerObserved? }
  predicate TookFallback(e: Event) { e.what.Diverted? }
  predicate GaveUp(e: Event) { e.what.Abandoned? }

  lemma {:induction false} BalanceCounts(log: Log)
    ensures Balance(LeafVisits, log)
         == Count(log, LeafVisited) - Count(log, ActionRun) - Count(log, ProbeRefused) - Count(log, SandboxMissing)
    ensures Balance(Probes, log) == Count(log, Probed) - Count(log, OutcomeKnown)
    ensures Balance(Trips, log) == Count(log, Tripped) - Count(log, TookFallback) - Count(log, GaveUp)
  {
    if log != [] {
      BalanceCounts(log[1..]);
    }
  }

  /** In every finished run, in whatever order branches ran and whatever panicked: each visit of a leaf is an
      observed step, a refused probe or a probe without a sandbox; each observed probe has one observed outcome; and
      each observed breaker trip is one fallback taken or one frame abandoned. */
  lemma ObserversAddUp(w: World, l: Launch, cs: seq<Choice>)
    requires Follows(w, Starting(l), cs) && Execute(w, Starting(l), cs).machine.Halted?
    ensures var log := Execute(w, Starting(l), cs).log;
            && Count(log, LeafVisited) == Count(log, ActionRun) + Count(log, ProbeRefused) + Count(log, SandboxMissing)
            && Count(log, Probed) == Count(log, OutcomeKnown)
            && Count(log, Tripped) == Count(log, TookFallback) + Count(log, GaveUp)
  {
    hide Execute, Follows, RunOf, Enabled, Agrees;
    var log, log' := Execute(w, Starting(l), cs).log, RunOf(w, l).log;
    SchedulingIsInvisible(w, l, cs);
    RunBalanced(LeafVisits, w, l);
    RunBalanced(Probes, w, l);
    RunBalanced(Trips, w, l);
    BalanceCounts(log');
    CountsSame(log, log');
  }

  lemma CountsSame(a: Log, b: Log)
    requires multiset(a) == multiset(b)
    ensures Count(a, LeafVisited) == Count(b, LeafVisited) && Count(a, ActionRun) == Count(b, ActionRun)
    ensures Count(a, ProbeRefused) == Count(b, ProbeRefused) && Count(a, Probed) == Count(b, Probed)
    ensures Count(a, OutcomeKnown) == Count(b, OutcomeKnown) && Count(a, Tripped) == Count(b, Tripped)
    ensures Count(a, TookFallback) == Count(b, TookFallback) && Count(a, GaveUp) == Count(b, GaveUp)
    ensures Count(a, SandboxMissing) == Count(b, SandboxMissing)
  {
    CountOrderFree(a, b, LeafVisited);
    CountOrderFree(a, b, ActionRun);
    CountOrderFree(a, b, ProbeRefused);
    CountOrderFree(a, b, SandboxMissing);
    CountOrderFree(a, b, Probed);
    CountOrderFree(a, b, OutcomeKnown);
    CountOrderFree(a, b, Tripped);
    CountOrderFree(a, b, TookFallback);
    CountOrderFree(a, b, GaveUp);
  }
}
