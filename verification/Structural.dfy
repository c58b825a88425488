/** Structural errors are never absorbed: a bypassing error ends the whole run, whatever surrounds it. */
module Structural {
  import opened Basics
  import opened Join
  import opened Workflows
  import opened BigStep
  import opened Interleaving

  predicate BypassRaised(e: Event)
  {
    e.what.Raised? && Bypassing(e.what.kind)
  }

  ghost predicate Raises(log: Log)
  {
    exists e :: e in log && BypassRaised(e)
  }

  predicate IsBypass(out: Outcome)
  {
    out.Failed? && BypassesBreaker(out.error)
  }

  lemma RaisesOne(e: Event)
    ensures Raises([e]) <==> BypassRaised(e)
  {
    assert e in [e];
  }

  lemma RaisesConcat(logs: seq<Log>)
    ensures Raises(Concat(logs)) <==> exists i :: 0 <= i < |logs| && Raises(logs[i])
  {
    if Raises(Concat(logs)) {
      var e :| e in Concat(logs) && BypassRaised(e);
      ConcatMember(logs, e);
      var i :| 0 <= i < |logs| && e in logs[i];
      assert Raises(logs[i]);
    }
    if i :| 0 <= i < |logs| && Raises(logs[i]) {
      var e :| e in logs[i] && BypassRaised(e);
      ConcatMember(logs, e);
    }
  }

  lemma {:induction false} PanicLogRaises(f: Frame, outs: seq<Outcome>, i: nat)
    requires i <= |outs|
    ensures Raises(PanicLog(f, outs, i)) <==> exists j :: i <= j < |outs| && outs[j].Panicked?
    ensures forall e :: e in PanicLog(f, outs, i) ==>
              BypassRaised(e) && exists j :: i <= j < |outs| && outs[j].Panicked? && e.at == Point(f) + [j]
    decreases |outs| - i
  {
    if i < |outs| {
      PanicLogRaises(f, outs, i + 1);
      if outs[i].Panicked? {
        assert BypassRaised(PanicLog(f, outs, i)[0]);
      }
    }
  }

  // ----- A run ends in a bypassing error exactly when one was raised anywhere in it -----

  lemma {:induction false} UnwindQuiet(w: World, u: Unwinding)
    ensures var r := UnwindAll(w, u); !Raises(r.log) && !IsBypass(r.out) && Under(u.frame.path, r.log)
    decreases |u.left|
  {
    if u.left != [] && UnwindOne(w, u).Unwind? {
      UnwindQuiet(w, UnwindOne(w, u).unwinding);
    }
  }

  /** What a turn raises it also returns, given that `earlier` was raised by the runs it consists of. */
  ghost predicate Passes(n: Next, earlier: bool)
  {
    if n.Stop? then earlier || Raises(n.log) <==> IsBypass(n.out) else !earlier && !Raises(n.log)
  }

  lemma FailurePasses(w: World, f: Frame, s: Step, reason: string)
    ensures Passes(OnFailure(w, f, s, reason), false)
  {
  }

  lemma RaisePasses(f: Frame, e: Error)
    ensures Passes(Raise(f, e), false)
  {
    RaisesOne(Say(f, Raised(KindOf(e))));
  }

  lemma BeforePasses(log: Log, n: Next, earlier: bool)
    requires Passes(n, earlier) && !Raises(log)
    ensures Passes(Before(log, n), earlier)
  {
    forall e | e in n.log ensures e in Before(log, n).log {
    }
  }

  lemma LeafPasses(w: World, f: Frame, s: Step)
    requires s.Leaf?
    ensures var g := Gated(w, f, s); if g.Shut? then Passes(g.next, false) else !Raises(g.log)
    ensures Passes(Act(w, f, s), false)
  {
    hide OnFailure, Under;
    RaisePasses(f, NoSandbox(s.id, s.probeRef));
    RaisePasses(f, NestedSuspensionUnsupported(f.wf.id, s.id));
    RaisePasses(f, NoSuspensionSupport(f.wf.id, s.id));
    var g := Gated(w, f, s);
    if g.Shut? && w.sandbox.Some? {
      var v := w.sandbox.value(Point(f), s.probeRef, f.wf.domain, f.ctx);
      FailurePasses(w, f, s, Refusal(v).value);
      BeforePasses([Say(f, ProbeObserved(s.id)), Say(f, ProbeAsked(s.probeRef, v)), Say(f, ProbeOutcome(s.id, false))],
                   OnFailure(w, f, s, Refusal(v).value), false);
    }
    var log := [Say(f, StepObserved(s.id))];
    match s.run(f.ctx)
    case Output(_) =>
    case Panic(_) =>
    case Failure(reason) =>
      FailurePasses(w, f, s, reason);
      BeforePasses(log, OnFailure(w, f, s, reason), false);
    case Suspended(_, _) =>
      BeforePasses(log, Raise(f, NestedSuspensionUnsupported(f.wf.id, s.id)), false);
      BeforePasses(log, Raise(f, NoSuspensionSupport(f.wf.id, s.id)), false);
  }

  lemma SubPasses(w: World, f: Frame, s: Step, out: Outcome, raised: bool)
    requires s.Composite? && (raised <==> IsBypass(out))
    ensures Passes(AfterSub(w, f, s, out), raised)
  {
    if out.Failed? && !raised {
      FailurePasses(w, f, s, w.text(out.error));
    }
  }

  lemma BranchesPass(w: World, f: Frame, s: Step, outs: seq<Outcome>, raised: bool)
    requires s.Parallel? && |outs| == |s.branches|
    requires raised <==> exists i :: 0 <= i < |outs| && IsBypass(outs[i])
    ensures Passes(Harvest(w, f, s, outs), raised)
  {
    var rs, k := Recover(s, outs), SomeField(f, s, outs);
    PanicLogRaises(f, outs, 0);
    var b := FirstBypass(rs, 0);
    if b < |rs| {
      BypassedBranches(w, f, s, outs, k);
      assert IsBypass(outs[b]) || outs[b].Panicked?;
    } else {
      forall i | 0 <= i < |outs| ensures !IsBypass(outs[i]) && !outs[i].Panicked? {
        assert !IsBypass(rs[i]);
      }
      assert !raised && !Raises(PanicLog(f, outs, 0));
      UnbypassedPass(w, f, s, outs, k);
    }
  }

  lemma UnbypassedPass(w: World, f: Frame, s: Step, outs: seq<Outcome>, k: string)
    requires s.Parallel? && |outs| == |s.branches| && MayName(JoinOf(f, s, outs), k)
    requires FirstBypass(Recover(s, outs), 0) == |outs| && !Raises(PanicLog(f, outs, 0))
    ensures Passes(AfterBranches(w, f, s, outs, k), false)
  {
    var rs := Recover(s, outs);
    var failures := Failures(w, s.branches, rs);
    var panics := PanicLog(f, outs, 0);
    ClashInRange(f.ctx, s.branches, Deltas(f.ctx, Outputs(rs)), 0, map[]);
    if failures != [] {
      var reason := w.text(BranchesFailed(s.id, |s.branches|, failures));
      FailurePasses(w, f, s, reason);
      BeforePasses([Say(f, Raised(KBranchesFailed))], OnFailure(w, f, s, reason), false);
      BeforePasses(panics, Before([Say(f, Raised(KBranchesFailed))], OnFailure(w, f, s, reason)), false);
    } else if JoinOf(f, s, outs).Clash? {
      var e := ConflictError(s, JoinOf(f, s, outs), k);
      RaisePasses(f, e);
      BeforePasses(panics, Raise(f, e), false);
    }
  }

  lemma ThenExact(w: World, n: Next, depth: nat, steps: nat, earlier: bool)
    requires depth <= w.maxDepth && Passes(n, earlier)
    requires n.Go? ==> n.frame.depth == depth && n.frame.steps == steps
    requires n.Go? ==> (Raises(Loop(w, n.frame).log) <==> IsBypass(Loop(w, n.frame).out))
    ensures var r := Then(w, n, depth, steps); earlier || Raises(r.log) <==> IsBypass(r.out)
  {
    match n
    case Go(g, log) =>
      assert forall e :: e in Loop(w, g).log ==> e in Then(w, n, depth, steps).log;
    case Stop(_, _) =>
    case Unwind(u, log) => UnwindQuiet(w, u);
  }

  lemma {:induction false} RunExact(w: World, l: Launch)
    ensures var r := RunOf(w, l); Raises(r.log) <==> IsBypass(r.out)
    decreases w.maxDepth + 1 - l.depth, w.maxSteps + 2, 0
  {
    var r := RunOf(w, l);
    match Start(w, l)
    case Rejected(e) => RaisesOne(Event(l.path, Raised(KindOf(e))));
    case Begun(f) =>
      LoopExact(w, f);
      assert r.log == Loop(w, f).log;
  }

  lemma {:induction false} LoopExact(w: World, f: Frame)
    requires f.depth <= w.maxDepth
    ensures var r := Loop(w, f); Raises(r.log) <==> IsBypass(r.out)
    decreases w.maxDepth + 1 - f.depth, w.maxSteps + 1 - f.steps, 0
  {
    match Top(w, f)
    case Through(_) =>
    case Refusing(e) => RaisesOne(Say(f, Raised(KindOf(e))));
    case Visit(g, s) => VisitExact(w, f, g, s);
  }

  lemma {:induction false} VisitExact(w: World, f: Frame, g: Frame, s: Step)
    requires f.depth <= w.maxDepth && Top(w, f) == Visit(g, s)
    ensures var r := Loop(w, f); Raises(r.log) <==> IsBypass(r.out)
    decreases w.maxDepth + 1 - f.depth, w.maxSteps + 1 - g.steps, 2
  {
    hide Loop, RunOf, BranchRuns, Harvest, AfterSub, Act, Gated, Then;
    var earlier, inner, n := false, [], Raise(g, NoBranches(g.wf.id, s.id));
    if s.Leaf? {
      LoopAtLeaf(w, f, g, s);
      LeafPasses(w, g, s);
      var gate := Gated(w, g, s);
      inner, n := if gate.Shut? then [] else gate.log, if gate.Shut? then gate.next else Act(w, g, s);
    } else if s.Composite? {
      LoopAtComposite(w, f, g, s);
      RunExact(w, SubLaunch(g, s));
      var sub := RunOf(w, SubLaunch(g, s));
      inner, earlier, n := sub.log, Raises(sub.log), AfterSub(w, g, s, sub.out);
      SubPasses(w, g, s, sub.out, earlier);
    } else if Unrunnable(s) {
      LoopAtUnrunnable(w, f, g, s);
      n := Refuse(g, s);
      RaisePasses(g, if s.Foreign? then UnknownStepType(g.at) else NoBranches(g.wf.id, s.id));
    } else {
      LoopAtParallel(w, f, g, s);
      var runs := BranchRuns(w, g, s);
      forall i | 0 <= i < |runs| ensures Raises(Logs(runs)[i]) <==> IsBypass(Outs(runs)[i]) {
        RunExact(w, BranchLaunch(g, s, i));
      }
      RaisesConcat(Logs(runs));
      inner, earlier, n := Concat(Logs(runs)), Raises(Concat(Logs(runs))), Harvest(w, g, s, Outs(runs));
      BranchesPass(w, g, s, Outs(runs), earlier);
    }
    if n.Go? {
      LoopExact(w, n.frame);
    }
    ThenExact(w, n, g.depth, g.steps, earlier);
    RaisesSplit(Seen(f, s) + inner, Then(w, n, g.depth, g.steps).log);
    RaisesSplit(Seen(f, s), inner);
  }

  lemma RaisesSplit(a: Log, b: Log)
    ensures Raises(a + b) <==> Raises(a) || Raises(b)
  {
    assert forall e :: e in a + b <==> e in a || e in b;
    if Raises(a) {
      var e :| e in a && BypassRaised(e);
      assert e in a + b;
    }
    if Raises(b) {
      var e :| e in b && BypassRaised(e);
      assert e in a + b;
    }
  }
}
