/** No run loses the mark on extracted fields, so no run gets past a guard on one. */
module Carrying {
  import opened Values
  import opened Join
  import opened Workflows
  import opened BigStep
  import opened Machine
  import opened Panics
  import opened Resuming
  import M = Manifest
  import P = Provenance
  import V = Validated
  import Std = StdLib

  ghost predicate Carries(ctx: Context, mark: Value)
  {
    MODEL_DERIVED_KEY in ctx && ctx[MODEL_DERIVED_KEY] == mark
  }

  /** No output in the log touches the mark. */
  ghost predicate Untouched(log: Log)
  {
    forall e :: e in log && e.what.Succeeded? ==> MODEL_DERIVED_KEY !in e.what.fields
  }

  /** No output the step's action can have touches the mark. */
  ghost predicate LeavesMark(s: Step)
  {
    s.Leaf? ==> forall ctx :: s.run(ctx).Output? ==> MODEL_DERIVED_KEY !in s.run(ctx).fields
  }

  ghost predicate MarkIsSafe(w: World)
  {
    forall ref, key :: ref in w.workflows && key in w.workflows[ref].steps ==> LeavesMark(w.workflows[ref].steps[key])
  }

  /** The step's action never succeeds on a context with this mark. */
  ghost predicate Guarding(s: Step, mark: Value)
  {
    s.Leaf? && forall ctx :: Carries(ctx, mark) ==> !s.run(ctx).Output?
  }

  /** That step of that workflow is a guard against the mark. */
  ghost predicate Guarded(w: World, ref: string, key: string, mark: Value)
  {
    ref in w.workflows && key in w.workflows[ref].steps && Guarding(w.workflows[ref].steps[key], mark)
  }

  /** No guard's success edge was taken. */
  ghost predicate NonePassed(w: World, mark: Value, log: Log)
  {
    forall e :: e in log && e.what.Succeeded? ==> !Guarded(w, e.what.ref, e.what.key, mark)
  }

  ghost predicate CarriesOut(out: Outcome, mark: Value)
  {
    out.Finished? || out.Parked? ==> Carries(OutputOf(out), mark)
  }

  ghost predicate CarriesOn(w: World, mark: Value, n: Next)
  {
    && NonePassed(w, mark, n.log)
    && match n
       case Go(g, _) => Carries(g.ctx, mark)
       case Stop(out, _) => CarriesOut(out, mark)
       case Unwind(_, _) => true
  }

  // ----- One turn -----

  lemma FailureCarries(w: World, mark: Value, f: Frame, s: Step, reason: string)
    requires Carries(f.ctx, mark)
    ensures CarriesOn(w, mark, OnFailure(w, f, s, reason))
  {
    hide Guarded;
  }

  lemma BeforeCarries(w: World, mark: Value, log: Log, n: Next)
    requires CarriesOn(w, mark, n) && NonePassed(w, mark, log)
    ensures CarriesOn(w, mark, Before(log, n))
  {
    hide Guarded;
  }

  lemma GateCarries(w: World, mark: Value, f: Frame, s: Step)
    requires s.Leaf? && Carries(f.ctx, mark)
    ensures var g := Gated(w, f, s); if g.Shut? then CarriesOn(w, mark, g.next) else NonePassed(w, mark, g.log)
  {
    hide Guarded;
    if s.probeRef != "" && w.sandbox.Some? {
      var v := w.sandbox.value(Point(f), s.probeRef, f.wf.domain, f.ctx);
      if Refusal(v).Some? {
        FailureCarries(w, mark, f, s, Refusal(v).value);
        BeforeCarries(w, mark, [Say(f, ProbeObserved(s.id)), Say(f, ProbeAsked(s.probeRef, v)),
                                Say(f, ProbeOutcome(s.id, false))],
                      OnFailure(w, f, s, Refusal(v).value));
      }
    }
  }

  /** The frame is at this step of the world's tables. */
  ghost predicate IsAt(w: World, f: Frame, s: Step)
  {
    f.ref in w.workflows && f.at in w.workflows[f.ref].steps && w.workflows[f.ref].steps[f.at] == s
  }

  lemma ActCarries(w: World, mark: Value, f: Frame, s: Step)
    requires s.Leaf? && Carries(f.ctx, mark) && IsAt(w, f, s) && Untouched(Act(w, f, s).log)
    ensures CarriesOn(w, mark, Act(w, f, s))
  {
    hide OnFailure, Guarded;
    var r := s.run(f.ctx);
    if r.Failure? {
      FailureCarries(w, mark, f, s, r.reason);
      BeforeCarries(w, mark, [Say(f, StepObserved(s.id))], OnFailure(w, f, s, r.reason));
    } else if r.Output? {
      SuccessIsNoGuard(w, mark, f, s);
      assert Did(f, s, r.fields) in Act(w, f, s).log;
    }
  }

  lemma SuccessIsNoGuard(w: World, mark: Value, f: Frame, s: Step)
    requires s.Leaf? && Carries(f.ctx, mark) && IsAt(w, f, s) && s.run(f.ctx).Output?
    ensures !Guarded(w, f.ref, f.at, mark)
  {
  }

  lemma SubCarries(w: World, mark: Value, f: Frame, s: Step, out: Outcome)
    requires s.Composite? && Carries(f.ctx, mark) && CarriesOut(out, mark)
    ensures CarriesOn(w, mark, AfterSub(w, f, s, out))
  {
    hide OnFailure, Guarded;
    if out.Failed? {
      FailureCarries(w, mark, f, s, w.text(out.error));
    }
  }

  lemma {:induction false} JoinCarries(before: Context, branches: seq<string>, deltas: seq<Context>, i: nat,
                                       ledger: Ledger, mark: Value)
    requires |branches| == |deltas| && i <= |deltas| && Carries(before, mark) && MODEL_DERIVED_KEY !in ledger
    requires forall j :: 0 <= j < |deltas| ==> MODEL_DERIVED_KEY !in deltas[j]
    ensures var r := JoinFrom(before, branches, deltas, i, ledger); r.Joined? ==> Carries(r.ctx, mark)
    decreases |deltas| - i
  {
    if i < |deltas| && Clashes(ledger, deltas[i]) == {} {
      JoinCarries(before, branches, deltas, i + 1, Enter(ledger, branches[i], deltas[i]), mark);
    }
  }

  lemma {:induction false} PanicLogCarries(w: World, mark: Value, f: Frame, outs: seq<Outcome>, i: nat)
    requires i <= |outs|
    ensures NonePassed(w, mark, PanicLog(f, outs, i))
    decreases |outs| - i
  {
    hide Guarded;
    if i < |outs| {
      PanicLogCarries(w, mark, f, outs, i + 1);
    }
  }

  lemma ResolveCarries(w: World, mark: Value, f: Frame, s: Step, outs: seq<Outcome>, k: string)
    requires s.Parallel? && |outs| == |s.branches| && MayName(JoinOf(f, s, outs), k)
    requires Carries(f.ctx, mark) && forall i :: 0 <= i < |outs| ==> CarriesOut(outs[i], mark)
    ensures CarriesOn(w, mark, Resolve(w, f, s, outs, k))
  {
    hide OnFailure, Guarded;
    ClashInRange(f.ctx, s.branches, Deltas(f.ctx, Outputs(Recover(s, outs))), 0, map[]);
    var rs := Recover(s, outs);
    var failures := Failures(w, s.branches, rs);
    if FirstBypass(rs, 0) < |rs| {
    } else if failures != [] {
      var reason := w.text(BranchesFailed(s.id, |s.branches|, failures));
      FailureCarries(w, mark, f, s, reason);
      BeforeCarries(w, mark, [Say(f, Raised(KBranchesFailed))], OnFailure(w, f, s, reason));
    } else {
      NoFailureCompletes(w, s.branches, rs);
      var deltas := Deltas(f.ctx, Outputs(rs));
      forall j | 0 <= j < |deltas| ensures MODEL_DERIVED_KEY !in deltas[j] {
        assert !rs[j].Failed?;
        assert Carries(OutputOf(rs[j]), mark);
      }
      JoinCarries(f.ctx, s.branches, deltas, 0, map[], mark);
    }
  }

  lemma {:induction false} NoFailureCompletes(w: World, branches: seq<string>, rs: seq<Outcome>)
    requires |branches| == |rs| && Failures(w, branches, rs) == []
    ensures forall i :: 0 <= i < |rs| ==> !rs[i].Failed?
  {
    if rs != [] {
      NoFailureCompletes(w, branches[1..], rs[1..]);
      assert forall i :: 1 <= i < |rs| ==> rs[i] == rs[1..][i - 1];
    }
  }

  lemma FanInCarries(w: World, mark: Value, f: Frame, s: Step, outs: seq<Outcome>, k: string)
    requires s.Parallel? && |outs| == |s.branches| && MayName(JoinOf(f, s, outs), k)
    requires Carries(f.ctx, mark) && forall i :: 0 <= i < |outs| ==> CarriesOut(outs[i], mark)
    ensures CarriesOn(w, mark, AfterBranches(w, f, s, outs, k))
  {
    hide PanicLog, Resolve, CarriesOn;
    ResolveCarries(w, mark, f, s, outs, k);
    PanicLogCarries(w, mark, f, outs, 0);
    BeforeCarries(w, mark, PanicLog(f, outs, 0), Resolve(w, f, s, outs, k));
  }

  // ----- Whole machines -----

  /** Every frame works on the tables, and an action about to run is the one its frame stands at. */
  ghost predicate AtHome(w: World, m: Machine)
  {
    match m
    case Running(f) => FromTable(w, f)
    case Acting(f, s) => FromTable(w, f) && IsAt(w, f, s)
    case Waiting(f, _, sub) => FromTable(w, f) && AtHome(w, sub)
    case Fanned(f, _, bs) => FromTable(w, f) && forall i :: 0 <= i < |bs| ==> AtHome(w, bs[i])
    case _ => true
  }

  /** Every context in the machine has the mark. */
  ghost predicate CarriesAll(m: Machine, mark: Value)
  {
    match m
    case Starting(l) => Carries(l.ctx, mark)
    case Running(f) => Carries(f.ctx, mark)
    case Acting(f, _) => Carries(f.ctx, mark)
    case Waiting(f, _, sub) => Carries(f.ctx, mark) && CarriesAll(sub, mark)
    case Fanned(f, _, bs) => Carries(f.ctx, mark) && forall i :: 0 <= i < |bs| ==> CarriesAll(bs[i], mark)
    case Undoing(_) => true
    case Halted(out) => CarriesOut(out, mark)
  }

  lemma SettleAtHome(w: World, n: Next, f: Frame)
    requires Continues(n, f) && FromTable(w, f)
    ensures AtHome(w, Settle(n).machine)
  {
  }

  lemma SettleCarries(w: World, mark: Value, n: Next)
    requires CarriesOn(w, mark, n)
    ensures CarriesAll(Settle(n).machine, mark) && NonePassed(w, mark, Settle(n).log)
  {
    hide NonePassed, Carries;
  }

  lemma VisitAtHome(w: World, f: Frame, g: Frame, s: Step)
    requires Top(w, f) == Visit(g, s) && FromTable(w, f)
    ensures IsAt(w, g, s) && FromTable(w, g) && AtHome(w, VisitStep(w, f, g, s).machine)
  {
    hide Gated, Continues;
    if s.Leaf? && Gated(w, g, s).Shut? {
      GateContinues(w, g, s);
      BeforeAtHome(w, Seen(f, s), Gated(w, g, s).next, g);
    }
  }

  lemma GateContinues(w: World, f: Frame, s: Step)
    requires s.Leaf?
    ensures Gated(w, f, s).Shut? ==> Continues(Gated(w, f, s).next, f)
  {
    hide Gated;
  }

  lemma BeforeAtHome(w: World, log: Log, n: Next, f: Frame)
    requires Continues(n, f) && FromTable(w, f)
    ensures AtHome(w, Settle(Before(log, n)).machine)
  {
  }

  lemma {:induction false} StepAtHome(w: World, m: Machine, c: Choice)
    requires WellFormed(w, m) && Enabled(w, m, c) && AtHome(w, m)
    ensures AtHome(w, StepBy(w, m, c).machine)
    decreases m
  {
    hide FromTable, IsAt, VisitStep, Act, AfterSub, AfterBranches, Settle, UnwindOne, Continues, Carries;
    match m
    case Starting(l) => StartAtHome(w, l);
    case Running(f) =>
      if Top(w, f).Visit? {
        VisitAtHome(w, f, Top(w, f).frame, Top(w, f).step);
      }
    case Acting(f, s) => SettleAtHome(w, Act(w, f, s), f);
    case Waiting(f, s, sub) =>
      if sub.Halted? {
        SettleAtHome(w, AfterSub(w, f, s, sub.out), f);
      } else {
        StepAtHome(w, sub, c);
      }
    case Fanned(f, s, bs) =>
      if AllHalted(bs) {
        SettleAtHome(w, AfterBranches(w, f, s, Results(bs), c.field), f);
      } else {
        StepAtHome(w, bs[c.route[0]], Down(c));
      }
    case Undoing(u) => UndoingEnds(w, u);
  }

  lemma StartAtHome(w: World, l: Launch)
    ensures Start(w, l).Begun? ==> FromTable(w, Start(w, l).frame) && Start(w, l).frame.ctx == l.ctx
  {
  }

  lemma UndoingEnds(w: World, u: Unwinding)
    ensures var t := Settle(UnwindOne(w, u));
            && (t.machine.Undoing? || (t.machine.Halted? && !t.machine.out.Finished? && !t.machine.out.Parked?))
            && forall e :: e in t.log ==> !e.what.Succeeded?
  {
  }

  lemma VisitCarries(w: World, mark: Value, f: Frame, g: Frame, s: Step)
    requires Top(w, f) == Visit(g, s) && Carries(f.ctx, mark)
    ensures var t := VisitStep(w, f, g, s); CarriesAll(t.machine, mark) && NonePassed(w, mark, t.log)
  {
    hide Guarded, Gated, CarriesOn, Carries;
    if s.Leaf? {
      GateCarries(w, mark, g, s);
      if Gated(w, g, s).Shut? {
        BeforeCarries(w, mark, Seen(f, s), Gated(w, g, s).next);
        SettleCarries(w, mark, Before(Seen(f, s), Gated(w, g, s).next));
      }
    } else if Unrunnable(s) {
      RefuseCarries(w, mark, g, s);
      BeforeCarries(w, mark, Seen(f, s), Refuse(g, s));
      SettleCarries(w, mark, Before(Seen(f, s), Refuse(g, s)));
    }
  }

  lemma RefuseCarries(w: World, mark: Value, f: Frame, s: Step)
    requires Unrunnable(s)
    ensures CarriesOn(w, mark, Refuse(f, s))
  {
  }

  /** No step whose outputs leave the mark alone loses it, or takes a guard's success edge. */
  lemma {:induction false} StepCarries(w: World, mark: Value, m: Machine, c: Choice)
    requires WellFormed(w, m) && Enabled(w, m, c) && AtHome(w, m) && CarriesAll(m, mark)
    requires Untouched(StepBy(w, m, c).log)
    ensures var t := StepBy(w, m, c); CarriesAll(t.machine, mark) && NonePassed(w, mark, t.log)
    decreases m
  {
    hide FromTable, IsAt, VisitStep, Act, AfterSub, AfterBranches, UnwindOne, Continues, CarriesOn, Carries, Guarded,
         NonePassed, MayName, JoinOf;
    match m
    case Starting(l) =>
      StartAtHome(w, l);
      NothingPassed(w, mark, StepBy(w, m, c).log);
    case Running(f) =>
      if Top(w, f).Visit? {
        VisitCarries(w, mark, f, Top(w, f).frame, Top(w, f).step);
      } else {
        EndCarries(w, mark, f);
      }
    case Acting(f, s) =>
      assert StepBy(w, m, c).log == Act(w, f, s).log;
      ActCarries(w, mark, f, s);
      SettleCarries(w, mark, Act(w, f, s));
    case Waiting(f, s, sub) =>
      if sub.Halted? {
        SubCarries(w, mark, f, s, sub.out);
        SettleCarries(w, mark, AfterSub(w, f, s, sub.out));
      } else {
        StepCarries(w, mark, sub, c);
      }
    case Fanned(f, s, bs) =>
      if AllHalted(bs) {
        forall i | 0 <= i < |bs| ensures CarriesOut(Results(bs)[i], mark) {
          assert CarriesAll(bs[i], mark);
        }
        FanInCarries(w, mark, f, s, Results(bs), c.field);
        SettleCarries(w, mark, AfterBranches(w, f, s, Results(bs), c.field));
      } else {
        StepCarries(w, mark, bs[c.route[0]], Down(c));
      }
    case Undoing(u) =>
      UndoingEnds(w, u);
      NothingPassed(w, mark, Settle(UnwindOne(w, u)).log);
  }

  lemma NothingPassed(w: World, mark: Value, log: Log)
    requires forall e :: e in log ==> !e.what.Succeeded?
    ensures NonePassed(w, mark, log)
  {
  }

  lemma EndCarries(w: World, mark: Value, f: Frame)
    requires f.depth <= w.maxDepth && Carries(f.ctx, mark) && !Top(w, f).Visit?
    ensures var t := StepBy(w, Running(f), Choice([], "")); CarriesAll(t.machine, mark) && NonePassed(w, mark, t.log)
    ensures forall c :: StepBy(w, Running(f), c) == StepBy(w, Running(f), Choice([], ""))
  {
  }

  lemma {:induction false} ExecutionCarries(w: World, mark: Value, m: Machine, cs: seq<Choice>)
    requires WellFormed(w, m) && Follows(w, m, cs) && AtHome(w, m) && CarriesAll(m, mark)
    requires Untouched(Execute(w, m, cs).log)
    ensures var t := Execute(w, m, cs); CarriesAll(t.machine, mark) && NonePassed(w, mark, t.log)
    decreases |cs|
  {
    hide StepBy, Enabled, WellFormed, AtHome, CarriesAll, Guarded;
    if cs != [] {
      var t := StepBy(w, m, cs[0]);
      assert Execute(w, m, cs).log == t.log + Execute(w, t.machine, cs[1..]).log;
      StepAtHome(w, m, cs[0]);
      StepCarries(w, mark, m, cs[0]);
      ExecutionCarries(w, mark, t.machine, cs[1..]);
    }
  }

  // ----- The promise -----

  /** That step of that workflow is a guard, and the field is one it checks. */
  ghost predicate GuardsField(w: World, ref: string, key: string, field: string)
  {
    ref in w.workflows && key in w.workflows[ref].steps && ChecksField(w.workflows[ref].steps[key], field)
  }

  ghost predicate ChecksField(s: Step, field: string)
  {
    s.Leaf? && exists fields: seq<string> :: field in fields && s.run == P.RequireVerified(fields)
  }

  lemma CheckIsGuard(s: Step, field: string, ctx: Context)
    requires ChecksField(s, field) && MODEL_DERIVED_KEY in ctx && P.Marked(ctx, field)
    ensures Guarding(s, ctx[MODEL_DERIVED_KEY])
  {
    var fields: seq<string> :| field in fields && s.run == P.RequireVerified(fields);
    forall other | Carries(other, ctx[MODEL_DERIVED_KEY]) ensures !s.run(other).Output? {
      P.GuardExactly(fields, other);
      assert P.Marked(other, field);
    }
  }

  ghost predicate NeverSucceeds(log: Log, ref: string, key: string)
  {
    forall e :: e in log && e.what.Succeeded? ==> !(e.what.ref == ref && e.what.key == key)
  }

  /** A guard on a marked field never takes its success edge, in any frame of any run under any schedule, as long as no
      output in the run writes the mark; and what the run hands back is marked still. */
  lemma MarkedFieldsStayGuarded(w: World, l: Launch, cs: seq<Choice>, ref: string, key: string, field: string)
    requires P.Marked(l.ctx, field) && GuardsField(w, ref, key, field) && Follows(w, Starting(l), cs)
    requires Untouched(Execute(w, Starting(l), cs).log)
    ensures var t := Execute(w, Starting(l), cs);
            && NeverSucceeds(t.log, ref, key)
            && (t.machine.Halted? && (t.machine.out.Finished? || t.machine.out.Parked?) ==>
                  P.Marked(OutputOf(t.machine.out), field))
  {
    hide Execute, Follows, Enabled, Guarding, ChecksField, Untouched;
    var mark := l.ctx[MODEL_DERIVED_KEY];
    CheckIsGuard(w.workflows[ref].steps[key], field, l.ctx);
    ExecutionCarries(w, mark, Starting(l), cs);
    assert Guarded(w, ref, key, mark);
  }

  /** So is what a resumed run starts from, as long as the resolution does not write the mark. */
  lemma ResumingKeepsTheMark(out: Outcome, pointer: string, leaf: Step, resolution: Context, identity: string,
                             field: string)
    requires out.Parked? && leaf.Leaf? && P.Marked(OutputOf(out), field) && MODEL_DERIVED_KEY !in resolution
    ensures P.Marked(ResumeLaunch(StateOf(out, pointer), leaf, resolution, identity).ctx, field)
  {
  }

  /** From extraction to the guard: a field the model extracted is never acted on by a step behind a guard on it. */
  lemma ExtractedFieldsStayGuarded(w: World, base: Context, result: P.ExtractionResult, l: Launch, cs: seq<Choice>,
                                   ref: string, key: string, field: string)
    requires l.ctx == P.WithMark(Merge(base, result.payload), P.MarkedIn(base) + result.modelDerived)
    requires field in result.modelDerived || P.Marked(base, field)
    requires GuardsField(w, ref, key, field) && Follows(w, Starting(l), cs)
    requires Untouched(Execute(w, Starting(l), cs).log)
    ensures NeverSucceeds(Execute(w, Starting(l), cs).log, ref, key)
  {
    hide Execute, Follows, P.WithMark, Untouched, GuardsField, NeverSucceeds;
    P.MarksAddUp(base, result);
    MarkedFieldsStayGuarded(w, l, cs, ref, key, field);
  }

  // ----- Across suspensions -----

  /** One run of a chain, scheduled as `cs` says, and how the one after it was resumed from it. */
  datatype Link = Link(world: World, cs: seq<Choice>, pointer: string, leaf: Step, resolution: Context,
                       identity: string)

  /** Each run but the last is parked, and the next one takes it up, possibly over tables that changed meanwhile. */
  ghost predicate IsChain(l: Launch, links: seq<Link>)
    decreases |links|
  {
    links != [] ==>
      var k := links[0];
      && Follows(k.world, Starting(l), k.cs)
      && (|links| > 1 ==>
            var m := Execute(k.world, Starting(l), k.cs).machine;
            && m.Halted? && m.out.Parked? && k.leaf.Leaf?
            && IsChain(ResumeLaunch(StateOf(m.out, k.pointer), k.leaf, k.resolution, k.identity), links[1..]))
  }

  ghost function LogsOf(l: Launch, links: seq<Link>): (logs: seq<Log>)
    requires IsChain(l, links)
    decreases |links|
  {
    if links == [] then []
    else
      var k := links[0];
      var t := Execute(k.world, Starting(l), k.cs);
      [t.log] + if |links| == 1 then []
                else LogsOf(ResumeLaunch(StateOf(t.machine.out, k.pointer), k.leaf, k.resolution, k.identity),
                            links[1..])
  }

  /** However often a run is suspended and resumed, whoever resumes it and whatever the schedules: a guard on a field
      that was marked at the start never takes its success edge in any of the runs. */
  lemma {:induction false} ChainsStayGuarded(l: Launch, links: seq<Link>, ref: string, key: string, field: string)
    requires IsChain(l, links) && P.Marked(l.ctx, field)
    requires forall k :: k in links ==> GuardsField(k.world, ref, key, field) && MODEL_DERIVED_KEY !in k.resolution
    requires forall log :: log in LogsOf(l, links) ==> Untouched(log)
    ensures forall log :: log in LogsOf(l, links) ==> NeverSucceeds(log, ref, key)
    decreases |links|
  {
    hide Execute, Follows, Untouched, GuardsField, NeverSucceeds, P.Marked, ResumeLaunch;
    if links != [] {
      var k := links[0];
      assert k in links;
      assert LogsOf(l, links)[0] == Execute(k.world, Starting(l), k.cs).log;
      MarkedFieldsStayGuarded(k.world, l, k.cs, ref, key, field);
      if |links| > 1 {
        var out := Execute(k.world, Starting(l), k.cs).machine.out;
        ResumingKeepsTheMark(out, k.pointer, k.leaf, k.resolution, k.identity, field);
        assert LogsOf(l, links)[1..]
            == LogsOf(ResumeLaunch(StateOf(out, k.pointer), k.leaf, k.resolution, k.identity), links[1..]);
        ChainsStayGuarded(ResumeLaunch(StateOf(out, k.pointer), k.leaf, k.resolution, k.identity), links[1..], ref, key,
                          field);
      }
    }
  }

  // ----- Conditions on the tables and on the manifest -----

  lemma ActUntouched(w: World, f: Frame, s: Step)
    requires s.Leaf? && MarkIsSafe(w) && IsAt(w, f, s)
    ensures Untouched(Act(w, f, s).log)
  {
    assert LeavesMark(w.workflows[f.ref].steps[f.at]);
  }

  lemma FailureUntouched(w: World, f: Frame, s: Step, reason: string)
    ensures Untouched(OnFailure(w, f, s, reason).log)
  {
  }

  lemma VisitUntouched(w: World, f: Frame, g: Frame, s: Step)
    ensures Untouched(VisitStep(w, f, g, s).log)
  {
    hide OnFailure, Under, Continues;
    if s.Leaf? && s.probeRef != "" && w.sandbox.Some? {
      var v := w.sandbox.value(Point(g), s.probeRef, g.wf.domain, g.ctx);
      if Refusal(v).Some? {
        FailureUntouched(w, g, s, Refusal(v).value);
      }
    }
  }

  lemma {:induction false} PanicLogUntouched(f: Frame, outs: seq<Outcome>, i: nat)
    requires i <= |outs|
    ensures Untouched(PanicLog(f, outs, i))
    decreases |outs| - i
  {
    if i < |outs| {
      PanicLogUntouched(f, outs, i + 1);
    }
  }

  lemma FanInUntouched(w: World, f: Frame, s: Step, outs: seq<Outcome>, k: string)
    requires s.Parallel? && |outs| == |s.branches| && MayName(JoinOf(f, s, outs), k)
    ensures Untouched(AfterBranches(w, f, s, outs, k).log)
  {
    hide PanicLog, Resolve, JoinOf, Failures, Traces, RivalsOf;
    ResolveShape(w, f, s, outs, k);
    PanicLogUntouched(f, outs, 0);
  }

  lemma {:induction false} StepUntouched(w: World, m: Machine, c: Choice)
    requires WellFormed(w, m) && Enabled(w, m, c) && AtHome(w, m) && MarkIsSafe(w)
    ensures Untouched(StepBy(w, m, c).log)
    decreases m
  {
    hide FromTable, IsAt, VisitStep, Act, AfterBranches, UnwindOne, Continues, MarkIsSafe;
    match m
    case Starting(l) =>
    case Running(f) =>
      if Top(w, f).Visit? {
        VisitUntouched(w, f, Top(w, f).frame, Top(w, f).step);
      }
    case Acting(f, s) => ActUntouched(w, f, s);
    case Waiting(f, s, sub) =>
      if !sub.Halted? {
        StepUntouched(w, sub, c);
      }
    case Fanned(f, s, bs) =>
      if AllHalted(bs) {
        FanInUntouched(w, f, s, Results(bs), c.field);
      } else {
        StepUntouched(w, bs[c.route[0]], Down(c));
      }
    case Undoing(u) => UndoingEnds(w, u);
  }

  /** Over tables in which no action can write the mark no run does. */
  lemma {:induction false} SafeTablesLeaveTheMark(w: World, m: Machine, cs: seq<Choice>)
    requires WellFormed(w, m) && Follows(w, m, cs) && AtHome(w, m) && MarkIsSafe(w)
    ensures Untouched(Execute(w, m, cs).log)
    decreases |cs|
  {
    hide StepBy, Enabled, WellFormed, AtHome, MarkIsSafe;
    if cs != [] {
      StepAtHome(w, m, cs[0]);
      StepUntouched(w, m, cs[0]);
      SafeTablesLeaveTheMark(w, StepBy(w, m, cs[0]).machine, cs[1..]);
    }
  }

  /** No step of the file names the mark among what a standard action writes. */
  ghost predicate SpecsLeaveMark(file: M.File)
  {
    forall wf, s :: wf in file.workflows && s in wf.steps ==> !Std.WritesMark(s.actionRef, s.params)
  }

  lemma BuiltLeavesMark(s: M.StepSpec, step: Step)
    requires M.IsBuilt(s, step, map[], Std.Default()) && !Std.WritesMark(s.actionRef, s.params)
    ensures LeavesMark(step)
  {
    hide Std.Default, Std.WritesMark;
    if step.Leaf? {
      Std.StandardActionsTouchTheMarkExactly(s.actionRef, s.params);
    }
  }

  /** No output in any run of a manifest of standard actions, none of which is told to write the mark, does. */
  lemma StandardManifestsKeepTheMark(file: M.File, d: M.Domain, w: World, l: Launch, cs: seq<Choice>)
    requires M.LoadOf(file, map[], Std.Default()) == M.Ok(d) && V.RegisteredAlone(w, d) && SpecsLeaveMark(file)
    requires Follows(w, Starting(l), cs)
    ensures MarkIsSafe(w) && Untouched(Execute(w, Starting(l), cs).log)
  {
    hide Execute, Follows, Untouched, Std.Default, M.LoadOf, V.RegisteredAlone, SpecsLeaveMark;
    StandardManifestsAreSafe(file, d, w);
    SafeTablesLeaveTheMark(w, Starting(l), cs);
  }

  lemma StandardManifestsAreSafe(file: M.File, d: M.Domain, w: World)
    requires M.LoadOf(file, map[], Std.Default()) == M.Ok(d) && V.RegisteredAlone(w, d) && SpecsLeaveMark(file)
    ensures MarkIsSafe(w)
  {
    hide Std.Default, M.LoadOf, M.IsBuilt, LeavesMark, Std.WritesMark, V.RegisteredAlone, SpecsLeaveMark;
    forall ref, key | ref in w.workflows && key in w.workflows[ref].steps
      ensures LeavesMark(w.workflows[ref].steps[key]) {
      var spec, wf, j := V.SpecBehind(file, map[], Std.Default(), d, w, ref, key);
      assert spec.steps[j] in spec.steps;
      SpecLeavesMark(file, spec, spec.steps[j]);
      BuiltLeavesMark(spec.steps[j], wf.steps[key]);
    }
  }

  lemma SpecLeavesMark(file: M.File, wf: M.WorkflowSpec, s: M.StepSpec)
    requires SpecsLeaveMark(file) && wf in file.workflows && s in wf.steps
    ensures !Std.WritesMark(s.actionRef, s.params)
  {
    hide Std.WritesMark;
  }
}
