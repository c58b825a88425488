/** Every reported join conflict is one: the error's fields, writers and values are those of branches that really ran.
    */
module Conflicts {
  import opened Basics
  import opened Values
  import opened Join
  import opened Workflows
  import opened BigStep
  import opened Machine
  import opened Interleaving

  /** The run with this log, started at `path` and `depth`, came to the parallel step `s` in the frame `f`. */
  ghost predicate CameTo(w: World, log: Log, path: Path, depth: nat, f: Frame, s: Step)
  {
    && f.ref in w.workflows && f.wf == w.workflows[f.ref]
    && f.at in f.wf.steps && s == f.wf.steps[f.at] && s.Parallel?
    && f.depth <= w.maxDepth && |f.path| - 2 * f.depth == |path| - 2 * depth
    && Say(f, Visited(f.ref, f.at, f.steps, f.ctx, false)) in log
  }

  /** There every branch completed, the one the conflict calls second is the earliest to disagree with a predecessor,
      and the conflict holds exactly the fields on which it does, with both writers and values. */
  ghost predicate Clashed(w: World, f: Frame, s: Step, c: Conflict)
    requires f.depth <= w.maxDepth && s.Parallel?
  {
    var outs := Outs(BranchRuns(w, f, s));
    && (forall o :: o in outs ==> o.Finished? || o.Parked?)
    && c.step == s.id && exists second :: ClashesAt(s.branches, Deltas(f.ctx, Outputs(outs)), second, c)
  }

  ghost predicate ClashesAt(branches: seq<string>, deltas: seq<Context>, second: nat, c: Conflict)
    requires |branches| == |deltas|
  {
    && second < |deltas| && c.second == branches[second]
    && Agreeing(deltas[..second]) && AreRivals(branches, deltas, second, c.rivals)
  }

  ghost predicate Explained(w: World, log: Log, path: Path, depth: nat, out: Outcome)
  {
    InConflict(out) ==> exists f, s :: CameTo(w, log, path, depth, f, s) && Clashed(w, f, s, out.error.conflict)
  }

  lemma ExplainedInMore(w: World, log: Log, more: Log, path: Path, path': Path, depth: nat, depth': nat, out: Outcome)
    requires Explained(w, log, path, depth, out) && forall e :: e in log ==> e in more
    requires |path| - 2 * depth == |path'| - 2 * depth'
    ensures Explained(w, more, path', depth', out)
  {
    hide Clashed;
    if InConflict(out) {
      var f, s :| CameTo(w, log, path, depth, f, s) && Clashed(w, f, s, out.error.conflict);
      assert CameTo(w, more, path', depth', f, s);
    }
  }

  lemma {:induction false} NoneFailed(w: World, branches: seq<string>, rs: seq<Outcome>)
    requires |branches| == |rs| && Failures(w, branches, rs) == []
    ensures forall i :: 0 <= i < |rs| ==> !rs[i].Failed?
  {
    if rs != [] {
      NoneFailed(w, branches[1..], rs[1..]);
      assert forall i :: 1 <= i < |rs| ==> rs[i] == rs[1..][i - 1];
    }
  }

  /** A conflict the turn after a fan-out ends in is a branch's, or that of its own join. */
  lemma HarvestConflict(w: World, f: Frame, s: Step)
    requires f.depth <= w.maxDepth && s.Parallel?
    ensures var outs := Outs(BranchRuns(w, f, s));
            var n := Harvest(w, f, s, outs);
            n.Stop? && InConflict(n.out) ==>
              (exists i :: 0 <= i < |outs| && n.out == outs[i]) || Clashed(w, f, s, n.out.error.conflict)
  {
    hide OnFailure, PanicLog, BranchRuns, Failures, Harvest, JoinOf, Agreeing, AreRivals, RivalsOf, Deltas, IsJoin;
    var outs := Outs(BranchRuns(w, f, s));
    var n, rs := Harvest(w, f, s, outs), Recover(s, outs);
    HarvestShape(w, f, s, outs);
    var b := FirstBypass(rs, 0);
    if b == |rs| && Failures(w, s.branches, rs) == [] {
      NoneFailed(w, s.branches, rs);
      assert forall i :: 0 <= i < |outs| ==> rs[i] == outs[i] && (outs[i].Finished? || outs[i].Parked?);
      assert rs == outs;
      JoinOfOuts(f, s, outs);
      JoinReported(f.ctx, s.branches, Outputs(outs));
      if n.Stop? && InConflict(n.out) {
        assert ClashesAt(s.branches, Deltas(f.ctx, Outputs(outs)), JoinOf(f, s, outs).second, n.out.error.conflict);
      }
    }
  }

  lemma JoinOfOuts(f: Frame, s: Step, outs: seq<Outcome>)
    requires s.Parallel? && |outs| == |s.branches| && Recover(s, outs) == outs
    ensures JoinOf(f, s, outs) == JoinAll(f.ctx, s.branches, Outputs(outs))
  {
  }

  lemma NoConflictUnwinding(w: World, u: Unwinding)
    ensures !InConflict(UnwindAll(w, u).out)
    decreases |u.left|
  {
    if UnwindOne(w, u).Unwind? {
      NoConflictUnwinding(w, UnwindOne(w, u).unwinding);
    }
  }

  // ----- Whole runs -----

  lemma {:induction false} RunConflict(w: World, l: Launch)
    ensures Explained(w, RunOf(w, l).log, l.path, l.depth, RunOf(w, l).out)
    decreases w.maxDepth + 1 - l.depth, w.maxSteps + 2, 0
  {
    hide Loop, CameTo, Clashed;
    if Start(w, l).Begun? {
      var f := Start(w, l).frame;
      LoopConflict(w, f);
      assert [] + Loop(w, f).log == Loop(w, f).log;
    }
  }

  lemma {:induction false} LoopConflict(w: World, f: Frame)
    requires f.depth <= w.maxDepth && f.ref in w.workflows && f.wf == w.workflows[f.ref]
    ensures Explained(w, Loop(w, f).log, f.path, f.depth, Loop(w, f).out)
    decreases w.maxDepth + 1 - f.depth, w.maxSteps + 1 - f.steps, 0
  {
    hide CameTo, Clashed;
    if Top(w, f).Visit? {
      VisitConflict(w, f, Top(w, f).frame, Top(w, f).step);
    }
  }

  /** The turn's own end is explained by what happened before it, or the frame goes on. */
  lemma {:induction false} ThenConflict(w: World, n: Next, f: Frame, log: Log)
    requires f.depth <= w.maxDepth && f.ref in w.workflows && f.wf == w.workflows[f.ref] && Continues(n, f)
    requires n.Stop? ==> Explained(w, log, f.path, f.depth, n.out)
    ensures var r := Then(w, n, f.depth, f.steps); Explained(w, log + r.log, f.path, f.depth, r.out)
    decreases w.maxDepth + 1 - f.depth, w.maxSteps + 1 - f.steps, 1
  {
    hide Loop, Explained, UnwindAll;
    match n
    case Go(g, l) =>
      LoopConflict(w, g);
      ExplainedInMore(w, Loop(w, g).log, log + (l + Loop(w, g).log), f.path, f.path, f.depth, f.depth, Loop(w, g).out);
    case Stop(out, l) => ExplainedInMore(w, log, log + l, f.path, f.path, f.depth, f.depth, out);
    case Unwind(u, l) =>
      NoConflictUnwinding(w, u);
      NoConflict(w, log + (l + UnwindAll(w, u).log), f.path, f.depth, UnwindAll(w, u).out);
  }

  lemma NoConflict(w: World, log: Log, path: Path, depth: nat, out: Outcome)
    requires !InConflict(out)
    ensures Explained(w, log, path, depth, out)
  {
  }

  lemma LeafNoConflict(w: World, f: Frame, s: Step)
    requires s.Leaf?
    ensures var n := Act(w, f, s); n.Stop? ==> !InConflict(n.out)
    ensures var g := Gated(w, f, s); g.Shut? && g.next.Stop? ==> !InConflict(g.next.out)
  {
    hide OnFailure;
  }

  lemma {:induction false} VisitConflict(w: World, f: Frame, g: Frame, s: Step)
    requires f.depth <= w.maxDepth && f.ref in w.workflows && f.wf == w.workflows[f.ref] && Top(w, f) == Visit(g, s)
    ensures Explained(w, Loop(w, f).log, f.path, f.depth, Loop(w, f).out)
    decreases w.maxDepth + 1 - f.depth, w.maxSteps + 1 - g.steps, 3
  {
    hide Loop, RunOf, BranchRuns, Harvest, Then, Act, Gated, AfterSub, Explained;
    if s.Leaf? {
      LoopAtLeaf(w, f, g, s);
      LeafNoConflict(w, g, s);
      var gate := Gated(w, g, s);
      var n := if gate.Shut? then gate.next else Act(w, g, s);
      var log := Seen(f, s) + if gate.Shut? then [] else gate.log;
      assert Seen(f, s) + [] == Seen(f, s);
      if n.Stop? {
        NoConflict(w, log, f.path, f.depth, n.out);
      }
      ThenConflict(w, n, g, log);
    } else if s.Composite? {
      LoopAtComposite(w, f, g, s);
      var l := SubLaunch(g, s);
      var sub := RunOf(w, l);
      RunConflict(w, l);
      ExplainedInMore(w, sub.log, Seen(f, s) + sub.log, l.path, f.path, l.depth, f.depth, sub.out);
      SubStops(w, g, s, sub.out);
      ThenConflict(w, AfterSub(w, g, s, sub.out), g, Seen(f, s) + sub.log);
    } else if Unrunnable(s) {
      LoopAtUnrunnable(w, f, g, s);
      NoConflict(w, Seen(f, s), f.path, f.depth, Refuse(g, s).out);
      ThenConflict(w, Refuse(g, s), g, Seen(f, s));
    } else {
      FanOutConflict(w, f, g, s);
    }
  }

  lemma SubStops(w: World, f: Frame, s: Step, out: Outcome)
    requires s.Composite?
    ensures var n := AfterSub(w, f, s, out); n.Stop? ==> n.out == out
  {
    hide OnFailure;
  }

  lemma {:induction false} FanOutConflict(w: World, f: Frame, g: Frame, s: Step)
    requires f.depth <= w.maxDepth && f.ref in w.workflows && f.wf == w.workflows[f.ref] && Top(w, f) == Visit(g, s)
    requires s.Parallel? && s.branches != []
    ensures Explained(w, Loop(w, f).log, f.path, f.depth, Loop(w, f).out)
    decreases w.maxDepth + 1 - f.depth, w.maxSteps + 1 - g.steps, 2
  {
    hide Loop, RunOf, BranchRuns, Harvest, Then, Clashed;
    LoopAtParallel(w, f, g, s);
    var runs := BranchRuns(w, g, s);
    var n, log := Harvest(w, g, s, Outs(runs)), Seen(f, s) + Concat(Logs(runs));
    if n.Stop? && InConflict(n.out) {
      HarvestConflict(w, g, s);
      if i :| 0 <= i < |runs| && n.out == Outs(runs)[i] {
        var l := BranchLaunch(g, s, i);
        RunConflict(w, l);
        forall e | e in runs[i].log ensures e in log {
          ConcatMember(Logs(runs), e);
          assert e in Logs(runs)[i];
        }
        ExplainedInMore(w, runs[i].log, log, l.path, f.path, l.depth, f.depth, runs[i].out);
      } else {
        assert Seen(f, s)[0] in log;
        assert CameTo(w, log, f.path, f.depth, g, s);
      }
    }
    ThenConflict(w, n, g, log);
  }

  /** A run that ends in a join conflict, under whatever schedule, came to a parallel step all of whose branches
      completed; the error names that step and the earliest branch that disagrees with a predecessor, and the field it
      shows is one of the fields, all of them on record, on which that branch really does. */
  lemma ConflictsAreReal(w: World, l: Launch, cs: seq<Choice>)
    requires Follows(w, Starting(l), cs) && Execute(w, Starting(l), cs).machine.Halted?
    ensures var t := Execute(w, Starting(l), cs); Explained(w, t.log, l.path, l.depth, t.machine.out)
  {
    hide Execute, Follows, RunOf, Explained, Enabled, Agrees;
    var t, r := Execute(w, Starting(l), cs), RunOf(w, l);
    SchedulingIsInvisible(w, l, cs);
    RunConflict(w, l);
    ExplainedAlike(w, r.log, t.log, l.path, l.depth, r.out, t.machine.out);
  }

  lemma SameRivals(branches: seq<string>, deltas: seq<Context>, second: nat, c: Conflict, d: Conflict)
    requires |branches| == |deltas| && ClashesAt(branches, deltas, second, c) && c.(field := d.field) == d
    ensures ClashesAt(branches, deltas, second, d)
  {
  }

  lemma ExplainedAlike(w: World, a: Log, b: Log, path: Path, depth: nat, out: Outcome, out': Outcome)
    requires Explained(w, a, path, depth, out) && Agrees(out, out') && multiset(a) == multiset(b)
    ensures Explained(w, b, path, depth, out')
  {
    hide BranchRuns, ClashesAt;
    assert forall e :: e in a ==> e in multiset(b);
    ExplainedInMore(w, a, b, path, path, depth, depth, out);
    if InConflict(out') {
      var f, s :| CameTo(w, b, path, depth, f, s) && Clashed(w, f, s, out.error.conflict);
      var second :| ClashesAt(s.branches, Deltas(f.ctx, Outputs(Outs(BranchRuns(w, f, s)))), second,
                              out.error.conflict);
      SameRivals(s.branches, Deltas(f.ctx, Outputs(Outs(BranchRuns(w, f, s)))), second, out.error.conflict,
                 out'.error.conflict);
      assert Clashed(w, f, s, out'.error.conflict);
    }
  }
}
