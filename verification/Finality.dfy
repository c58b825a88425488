/** After a bypassing error nothing more is done by the frame that raised it or by any frame around it,
    in whatever order the branches run. */
module Finality {
  import opened Basics
  import opened Join
  import opened Workflows
  import opened BigStep
  import opened Machine
  import opened Interleaving
  import opened Structural
  import opened Paths

  /** No event of the log belongs to the frame at `path` or to one enclosing it. */
  ghost predicate Silent(log: Log, path: Path)
  {
    forall e :: e in log ==> !(e.at <= path)
  }

  /** Every bypassing error is the last thing its frame and the frames around it do. */
  ghost predicate FinalWithin(log: Log)
  {
    forall i, j :: 0 <= i < j < |log| && BypassRaised(log[i]) ==> !(log[j].at <= log[i].at)
  }

  ghost predicate FinalIn(w: World, t: Stepped)
    requires WellFormed(w, t.machine)
  {
    && FinalWithin(t.log)
    && (Raises(t.log) ==> IsBypass(Denote(w, t.machine).out))
    && (forall e :: e in t.log && BypassRaised(e) ==> Silent(Denote(w, t.machine).log, e.at))
  }

  lemma FinalNone()
    ensures FinalWithin([])
  {
  }

  lemma FinalCons(e: Event, rest: Log)
    requires FinalWithin(rest) && Silent(rest, e.at)
    ensures FinalWithin([e] + rest)
  {
    var log := [e] + rest;
    forall i, j | 0 <= i < j < |log| && BypassRaised(log[i]) ensures !(log[j].at <= log[i].at) {
      assert log[j] == rest[j - 1];
      if i > 0 {
        assert log[i] == rest[i - 1];
      }
    }
  }

  /** Two branches of one fan-out are nowhere around each other. */
  lemma BranchesApart(point: Path, i: nat, j: nat, p: Path, q: Path)
    requires i != j && point + [i] <= p && point + [j] <= q
    ensures !(p <= q)
  {
    assert p[|point|] == i && q[|point|] == j;
  }

  lemma {:induction false} PanicLogApart(f: Frame, outs: seq<Outcome>, i: nat)
    requires i <= |outs|
    ensures FinalWithin(PanicLog(f, outs, i))
    decreases |outs| - i
  {
    hide FinalWithin;
    FinalNone();
    if i < |outs| {
      PanicLogApart(f, outs, i + 1);
      if outs[i].Panicked? {
        var rest := PanicLog(f, outs, i + 1);
        PanicLogRaises(f, outs, i + 1);
        forall e | e in rest ensures !(e.at <= Point(f) + [i]) {
          var j: nat :| i + 1 <= j < |outs| && outs[j].Panicked? && e.at == Point(f) + [j];
          BranchesApart(Point(f), j, i, e.at, Point(f) + [i]);
        }
        FinalCons(Event(Point(f) + [i], Raised(KPanicked)), rest);
      } else {
        assert PanicLog(f, outs, i) == PanicLog(f, outs, i + 1);
      }
    }
  }

  /** Nothing bypassing before the last event. */
  ghost predicate OnlyLast(log: Log)
  {
    forall i :: 0 <= i < |log| && BypassRaised(log[i]) ==> i == |log| - 1
  }

  lemma SettleFinal(w: World, n: Next, f: Frame, earlier: bool)
    requires f.depth <= w.maxDepth && Continues(n, f) && FinalWithin(n.log) && Passes(n, earlier)
    ensures WellFormed(w, Settle(n).machine) && FinalIn(w, Settle(n))
  {
  }

  lemma AfterBranchesFinal(w: World, f: Frame, s: Step, outs: seq<Outcome>, k: string)
    requires s.Parallel? && |outs| == |s.branches| && MayName(JoinOf(f, s, outs), k)
    ensures FinalWithin(AfterBranches(w, f, s, outs, k).log)
    ensures exists earlier :: Passes(AfterBranches(w, f, s, outs, k), earlier)
  {
    hide AfterBranches, OnFailure;
    PanicLogRaises(f, outs, 0);
    if FirstBypass(Recover(s, outs), 0) < |outs| {
      BypassedBranches(w, f, s, outs, k);
      PanicLogApart(f, outs, 0);
      assert Passes(AfterBranches(w, f, s, outs, k), true);
    } else {
      forall i | 0 <= i < |outs| ensures !outs[i].Panicked? {
        assert !IsBypass(Recover(s, outs)[i]);
      }
      NoPanics(f, outs, 0);
      UnbypassedPass(w, f, s, outs, k);
      UnbypassedLast(w, f, s, outs, k);
    }
  }

  lemma {:induction false} NoPanics(f: Frame, outs: seq<Outcome>, i: nat)
    requires i <= |outs| && forall j :: i <= j < |outs| ==> !outs[j].Panicked?
    ensures PanicLog(f, outs, i) == []
    decreases |outs| - i
  {
    if i < |outs| {
      NoPanics(f, outs, i + 1);
    }
  }

  lemma UnbypassedLast(w: World, f: Frame, s: Step, outs: seq<Outcome>, k: string)
    requires s.Parallel? && |outs| == |s.branches| && MayName(JoinOf(f, s, outs), k)
    requires FirstBypass(Recover(s, outs), 0) == |outs| && PanicLog(f, outs, 0) == []
    ensures OnlyLast(AfterBranches(w, f, s, outs, k).log)
  {
    hide PanicLog, Failures, OnFailure, OnlyLast;
    ClashInRange(f.ctx, s.branches, Deltas(f.ctx, Outputs(Recover(s, outs))), 0, map[]);
    var n := Resolve(w, f, s, outs, k);
    assert [] + n.log == n.log;
    var failures := Failures(w, s.branches, Recover(s, outs));
    FailureLast(w, f, s, w.text(BranchesFailed(s.id, |s.branches|, failures)));
    OneLast(f);
  }

  lemma FailureLast(w: World, f: Frame, s: Step, reason: string)
    ensures OnlyLast([Say(f, Raised(KBranchesFailed))] + OnFailure(w, f, s, reason).log)
  {
  }

  lemma OneLast(f: Frame)
    ensures OnlyLast([]) && forall k :: OnlyLast([Say(f, Raised(k))])
  {
  }

  lemma VisitFinal(w: World, f: Frame, g: Frame, s: Step)
    requires f.depth <= w.maxDepth && Top(w, f) == Visit(g, s)
    ensures var t := VisitStep(w, f, g, s);
            && WellFormed(w, t.machine) && FinalWithin(t.log)
            && (Raises(t.log) ==> t.machine.Halted? && IsBypass(t.machine.out))
  {
    hide Gated;
    if s.Leaf? {
      LeafPasses(w, g, s);
      var gate := Gated(w, g, s);
      RaisesOne(Seen(f, s)[0]);
      RaisesSplit(Seen(f, s), if gate.Open? then gate.log else gate.next.log);
      if gate.Shut? {
        ShutQuiet(w, g, s);
      }
    }
  }

  /** A missing sandbox and a refusing probe are not structural. */
  lemma ShutQuiet(w: World, f: Frame, s: Step)
    requires s.Leaf? && Gated(w, f, s).Shut?
    ensures !Raises(Gated(w, f, s).next.log)
  {
  }

  lemma WaitingFinal(w: World, f: Frame, s: Step, t: Stepped)
    requires f.depth <= w.maxDepth && s.Composite? && WellFormed(w, t.machine) && FinalIn(w, t)
    ensures FinalIn(w, Stepped(Waiting(f, s, t.machine), t.log))
  {
  }

  lemma FannedFinal(w: World, f: Frame, s: Step, bs: seq<Machine>, i: nat, log: Log)
    requires WellFormed(w, Fanned(f, s, bs)) && Placed(Fanned(f, s, bs), f.path) && i < |bs|
    requires FinalIn(w, Stepped(bs[i], log)) && Under(Point(f) + [i], log)
    ensures FinalIn(w, Stepped(Fanned(f, s, bs), log))
  {
    hide Denote, Harvest;
    DenoteFanned(w, f, s, bs);
    var runs := DenoteAll(w, bs);
    if Raises(log) {
      var outs := Outs(runs);
      assert IsBypass(Recover(s, outs)[i]);
      BypassedBranches(w, f, s, outs, SomeField(f, s, outs));
      HarvestIs(w, f, s, outs);
      PanicLogRaises(f, outs, 0);
      forall e, e' | e in log && BypassRaised(e) && e' in Denote(w, Fanned(f, s, bs)).log ensures !(e'.at <= e.at) {
        ConcatMember(Logs(runs), e');
        if e' in PanicLog(f, outs, 0) {
          var j: nat :| 0 <= j < |outs| && outs[j].Panicked? && e'.at == Point(f) + [j];
          BranchesApart(Point(f), j, i, e'.at, e.at);
        } else {
          var j: nat :| 0 <= j < |runs| && e' in Logs(runs)[j];
          DenoteUnder(w, bs[j], Point(f) + [j]);
          if j != i {
            BranchesApart(Point(f), j, i, e'.at, e.at);
          }
        }
      }
    }
  }

  lemma HarvestIs(w: World, f: Frame, s: Step, outs: seq<Outcome>)
    requires f.depth <= w.maxDepth && s.Parallel? && |outs| == |s.branches|
    requires AfterBranches(w, f, s, outs, SomeField(f, s, outs)).Stop?
    ensures var n := AfterBranches(w, f, s, outs, SomeField(f, s, outs));
            Then(w, Harvest(w, f, s, outs), f.depth, f.steps) == Run(n.out, n.log, 0)
  {
  }

  lemma TurnFinal(w: World, m: Machine, c: Choice)
    requires WellFormed(w, m) && Enabled(w, m, c) && (m.Starting? || m.Running? || m.Undoing?)
    ensures var t := StepBy(w, m, c); WellFormed(w, t.machine) && FinalIn(w, t)
  {
    hide VisitStep, UnwindOne, Loop, UnwindAll, RunOf;
    match m
    case Starting(l) =>
    case Running(f) =>
      if Top(w, f).Visit? {
        VisitFinal(w, f, Top(w, f).frame, Top(w, f).step);
      }
    case Undoing(u) => UnwindOneQuiet(w, u);
  }

  lemma FanInFinal(w: World, f: Frame, s: Step, bs: seq<Machine>, c: Choice)
    requires var m := Fanned(f, s, bs); WellFormed(w, m) && AllHalted(bs) && Enabled(w, m, c)
    ensures var t := StepBy(w, Fanned(f, s, bs), c); WellFormed(w, t.machine) && FinalIn(w, t)
  {
    hide AfterBranches, FinalIn, Denote;
    AfterBranchesFinal(w, f, s, Results(bs), c.field);
    var n := AfterBranches(w, f, s, Results(bs), c.field);
    var earlier :| Passes(n, earlier);
    SettleFinal(w, n, f, earlier);
    assert StepBy(w, Fanned(f, s, bs), c) == Settle(n);
  }

  lemma {:induction false} StepFinal(w: World, m: Machine, c: Choice, path: Path)
    requires WellFormed(w, m) && Enabled(w, m, c) && Placed(m, path)
    ensures var t := StepBy(w, m, c); WellFormed(w, t.machine) && FinalIn(w, t)
    decreases m
  {
    hide FinalIn, Act, AfterSub, AfterBranches, Denote, FinalWithin, Settle;
    match m
    case Acting(f, s) =>
      LeafPasses(w, f, s);
      ActLast(w, f, s);
      SettleFinal(w, Act(w, f, s), f, false);
    case Waiting(f, s, sub) =>
      if sub.Halted? {
        SubPasses(w, f, s, sub.out, IsBypass(sub.out));
        SubLast(w, f, s, sub.out);
        SettleFinal(w, AfterSub(w, f, s, sub.out), f, IsBypass(sub.out));
      } else {
        StepFinal(w, sub, c, Point(f) + [0]);
        WaitingFinal(w, f, s, StepBy(w, sub, c));
      }
    case Fanned(f, s, bs) =>
      if AllHalted(bs) {
        FanInFinal(w, f, s, bs, c);
      } else {
        var i := c.route[0];
        StepFinal(w, bs[i], Down(c), Point(f) + [i]);
        StepPlaced(w, bs[i], Down(c), Point(f) + [i]);
        var t := StepBy(w, bs[i], Down(c));
        FannedFinal(w, f, s, bs[i := t.machine], i, t.log);
      }
    case _ => TurnFinal(w, m, c);
  }

  lemma ActLast(w: World, f: Frame, s: Step)
    requires s.Leaf?
    ensures OnlyLast(Act(w, f, s).log) && FinalWithin(Act(w, f, s).log)
  {
  }

  lemma SubLast(w: World, f: Frame, s: Step, out: Outcome)
    requires s.Composite?
    ensures OnlyLast(AfterSub(w, f, s, out).log) && FinalWithin(AfterSub(w, f, s, out).log)
  {
  }

  lemma UnwindOneQuiet(w: World, u: Unwinding)
    ensures !Raises(UnwindOne(w, u).log)
  {
  }

  // ----- Over every schedule -----

  lemma FinalAppend(a: Log, b: Log)
    requires FinalWithin(a) && FinalWithin(b)
    requires forall e :: e in a && BypassRaised(e) ==> Silent(b, e.at)
    ensures FinalWithin(a + b)
  {
    var log := a + b;
    forall i, j | 0 <= i < j < |log| && BypassRaised(log[i]) ensures !(log[j].at <= log[i].at) {
      if i < |a| {
        assert log[i] == a[i];
        if j >= |a| {
          assert log[j] == b[j - |a|];
        }
      } else {
        assert log[i] == b[i - |a|] && log[j] == b[j - |a|];
      }
    }
  }

  lemma {:induction false} ExecutionFinal(w: World, m: Machine, cs: seq<Choice>, path: Path)
    requires WellFormed(w, m) && Placed(m, path) && Follows(w, m, cs)
    ensures FinalWithin(Execute(w, m, cs).log)
    decreases |cs|
  {
    if cs != [] {
      var t := StepBy(w, m, cs[0]);
      StepPlaced(w, m, cs[0], path);
      StepFinal(w, m, cs[0], path);
      ExecutionFinal(w, t.machine, cs[1..], path);
      ExecutionLeaves(w, t.machine, cs[1..]);
      var rest := Execute(w, t.machine, cs[1..]);
      assert forall e :: e in rest.log ==> e in multiset(Denote(w, t.machine).log);
      FinalAppend(t.log, rest.log);
    }
  }

  /** Whatever the schedule: after a bypassing error neither its frame nor any frame around it does anything
      more, and the run ends in a bypassing error exactly when one was raised somewhere in it. */
  lemma StructuralErrorsAreFinal(w: World, l: Launch, cs: seq<Choice>)
    requires Follows(w, Starting(l), cs)
    ensures var t := Execute(w, Starting(l), cs);
            FinalWithin(t.log) && (t.machine.Halted? ==> (Raises(t.log) <==> IsBypass(t.machine.out)))
  {
    hide Execute, Follows, RunOf, FinalWithin, Raises, IsBypass, Agrees, Enabled;
    ExecutionFinal(w, Starting(l), cs, l.path);
    SchedulingIsInvisible(w, l, cs);
    RunExact(w, l);
    var t, r := Execute(w, Starting(l), cs), RunOf(w, l);
    if t.machine.Halted? {
      RaisesSame(r.log, t.log);
      AgreesOnBypass(r.out, t.machine.out);
    }
  }

  lemma AgreesOnBypass(a: Outcome, b: Outcome)
    requires Agrees(a, b)
    ensures IsBypass(a) <==> IsBypass(b)
  {
  }

  lemma RaisesSame(a: Log, b: Log)
    requires multiset(a) == multiset(b)
    ensures Raises(a) <==> Raises(b)
  {
    assert forall e :: e in a <==> e in multiset(a);
    assert forall e :: e in b <==> e in multiset(b);
  }
}
