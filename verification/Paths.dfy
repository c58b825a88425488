/** Events carry the position of the frame that made them; positions tell nested and concurrent frames apart. */
module Paths {
  import opened Basics
  import opened Workflows
  import opened BigStep
  import opened Machine

  lemma UnderConcat(path: Path, logs: seq<Log>)
    requires forall i :: 0 <= i < |logs| ==> Under(path, logs[i])
    ensures Under(path, Concat(logs))
  {
    forall e | e in Concat(logs) ensures path <= e.at {
      ConcatMember(logs, e);
      var i :| 0 <= i < |logs| && e in logs[i];
    }
  }

  lemma {:induction false} UnwindUnder(w: World, u: Unwinding)
    ensures Under(u.frame.path, UnwindAll(w, u).log)
    decreases |u.left|
  {
    if UnwindOne(w, u).Unwind? {
      UnwindUnder(w, UnwindOne(w, u).unwinding);
    }
  }

  lemma {:induction false} RunUnder(w: World, l: Launch)
    ensures Under(l.path, RunOf(w, l).log)
    decreases w.maxDepth + 1 - l.depth, w.maxSteps + 2, 0
  {
    if Start(w, l).Begun? {
      LoopUnder(w, Start(w, l).frame);
    }
  }

  lemma {:induction false} ThenUnder(w: World, n: Next, f: Frame)
    requires f.depth <= w.maxDepth && Continues(n, f)
    ensures Under(f.path, Then(w, n, f.depth, f.steps).log)
    decreases w.maxDepth + 1 - f.depth, w.maxSteps + 1 - f.steps, 1
  {
    match n
    case Go(g, _) => LoopUnder(w, g);
    case Stop(_, _) =>
    case Unwind(u, _) => UnwindUnder(w, u);
  }

  /** A run's events happen at its own position or below it. */
  lemma {:induction false} LoopUnder(w: World, f: Frame)
    requires f.depth <= w.maxDepth
    ensures Under(f.path, Loop(w, f).log)
    decreases w.maxDepth + 1 - f.depth, w.maxSteps + 1 - f.steps, 0
  {
    if Top(w, f).Visit? {
      VisitUnder(w, f, Top(w, f).frame, Top(w, f).step);
    }
  }

  lemma {:induction false} VisitUnder(w: World, f: Frame, g: Frame, s: Step)
    requires f.depth <= w.maxDepth && Top(w, f) == Visit(g, s)
    ensures Under(f.path, Loop(w, f).log)
    decreases w.maxDepth + 1 - f.depth, w.maxSteps + 1 - g.steps, 2
  {
    hide Loop, RunOf, BranchRuns, Harvest, AfterSub, Act, Gated, Then;
    if s.Leaf? {
      LoopAtLeaf(w, f, g, s);
      var gate := Gated(w, g, s);
      ThenUnder(w, if gate.Shut? then gate.next else Act(w, g, s), g);
    } else if s.Composite? {
      LoopAtComposite(w, f, g, s);
      RunUnder(w, SubLaunch(g, s));
      ThenUnder(w, AfterSub(w, g, s, RunOf(w, SubLaunch(g, s)).out), g);
    } else if Unrunnable(s) {
      LoopAtUnrunnable(w, f, g, s);
      ThenUnder(w, Refuse(g, s), g);
    } else {
      LoopAtParallel(w, f, g, s);
      var runs := BranchRuns(w, g, s);
      forall i | 0 <= i < |runs| ensures Under(f.path, Logs(runs)[i]) {
        RunUnder(w, BranchLaunch(g, s, i));
      }
      UnderConcat(f.path, Logs(runs));
      ThenUnder(w, Harvest(w, g, s, Outs(runs)), g);
    }
  }

  // ----- Machines in their place -----

  /** Every frame of the machine is where its parent put it. */
  ghost predicate Placed(m: Machine, path: Path)
  {
    match m
    case Starting(l) => l.path == path
    case Running(f) => f.path == path
    case Acting(f, s) => f.path == path
    case Waiting(f, s, sub) => f.path == path && Placed(sub, Point(f) + [0])
    case Fanned(f, s, bs) => f.path == path && forall i :: 0 <= i < |bs| ==> Placed(bs[i], Point(f) + [i])
    case Undoing(u) => u.frame.path == path
    case Halted(_) => true
  }

  lemma {:induction false} DenoteUnder(w: World, m: Machine, path: Path)
    requires WellFormed(w, m) && Placed(m, path)
    ensures Under(path, Denote(w, m).log)
    decreases m
  {
    match m
    case Starting(l) => RunUnder(w, l);
    case Running(f) => LoopUnder(w, f);
    case Acting(f, s) => ThenUnder(w, Act(w, f, s), f);
    case Waiting(f, s, sub) =>
      DenoteUnder(w, sub, Point(f) + [0]);
      ThenUnder(w, AfterSub(w, f, s, Denote(w, sub).out), f);
    case Fanned(f, s, bs) =>
      DenoteFanned(w, f, s, bs);
      var runs := DenoteAll(w, bs);
      forall i | 0 <= i < |bs| ensures Under(path, Logs(runs)[i]) {
        DenoteUnder(w, bs[i], Point(f) + [i]);
      }
      UnderConcat(path, Logs(runs));
      ThenUnder(w, Harvest(w, f, s, Outs(runs)), f);
    case Undoing(u) => UnwindUnder(w, u);
    case Halted(_) =>
  }

  lemma SettlePlaced(n: Next, f: Frame)
    requires Continues(n, f)
    ensures Placed(Settle(n).machine, f.path) && Under(f.path, Settle(n).log)
  {
  }

  lemma VisitPlaced(w: World, f: Frame, g: Frame, s: Step)
    requires Top(w, f) == Visit(g, s)
    ensures var t := VisitStep(w, f, g, s); Placed(t.machine, f.path) && Under(f.path, t.log)
  {
    hide Gated;
  }

  lemma {:induction false} StepPlaced(w: World, m: Machine, c: Choice, path: Path)
    requires WellFormed(w, m) && Enabled(w, m, c) && Placed(m, path)
    ensures var t := StepBy(w, m, c); Placed(t.machine, path) && Under(path, t.log)
    decreases m
  {
    hide Settle, VisitStep, Act, AfterSub, AfterBranches, UnwindOne, Under;
    match m
    case Starting(l) => RejectedUnder(w, l);
    case Running(f) =>
      RefusingUnder(w, f);
      if Top(w, f).Visit? {
        VisitPlaced(w, f, Top(w, f).frame, Top(w, f).step);
      }
    case Acting(f, s) => SettlePlaced(Act(w, f, s), f);
    case Waiting(f, s, sub) =>
      if sub.Halted? {
        SettlePlaced(AfterSub(w, f, s, sub.out), f);
      } else {
        StepPlaced(w, sub, c, Point(f) + [0]);
        UnderBelow(path, Point(f) + [0], StepBy(w, sub, c).log);
      }
    case Fanned(f, s, bs) =>
      if AllHalted(bs) {
        SettlePlaced(AfterBranches(w, f, s, Results(bs), c.field), f);
      } else {
        var i := c.route[0];
        StepPlaced(w, bs[i], Down(c), Point(f) + [i]);
        UnderBelow(path, Point(f) + [i], StepBy(w, bs[i], Down(c)).log);
      }
    case Undoing(u) => UnwindPlaced(w, u);
  }

  lemma RejectedUnder(w: World, l: Launch)
    ensures Start(w, l).Rejected? ==> Under(l.path, [Event(l.path, Raised(KindOf(Start(w, l).error)))])
    ensures Under(l.path, [])
  {
  }

  lemma RefusingUnder(w: World, f: Frame)
    ensures Top(w, f).Refusing? ==> Under(f.path, [Say(f, Raised(KindOf(Top(w, f).error)))])
    ensures Under(f.path, [])
  {
  }

  lemma UnderBelow(path: Path, below: Path, log: Log)
    requires path <= below && Under(below, log)
    ensures Under(path, log)
  {
  }

  lemma UnwindPlaced(w: World, u: Unwinding)
    ensures Placed(Settle(UnwindOne(w, u)).machine, u.frame.path) && Under(u.frame.path, Settle(UnwindOne(w, u)).log)
  {
  }
}
