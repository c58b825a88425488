/** What a run computes: the engine's loop as a function of its frame, branches taken one after another. */
module BigStep {
  import opened Basics
  import opened Values
  import opened Join
  import opened Workflows

  /** A successful step that declared a compensation. */
  datatype Undoable = Undoable(step: string, via: string)

  /** The local state of one call of the engine's loop. */
  datatype Frame = Frame(
    path: Path, ref: string, wf: Workflow, depth: nat,
    at: string, ctx: Context, done: seq<Undoable>, trace: seq<string>, steps: nat)

  /** A frame being abandoned: `left` is still to be compensated, last entry first. */
  datatype Unwinding = Unwinding(
    frame: Frame, step: string, reason: string,
    left: seq<Undoable>, ctx: Context, undone: seq<string>, failures: seq<UndoFailure>)

  datatype Launch = Launch(ref: string, start: string, ctx: Context, depth: nat, path: Path)

  /** What one turn of a frame leads to. */
  datatype Next =
    | Go(frame: Frame, log: Log)
    | Stop(out: Outcome, log: Log)
    | Unwind(unwinding: Unwinding, log: Log)

  /** The result of a run, its log, and the number of turns it took. */
  datatype Run = Run(out: Outcome, log: Log, ticks: nat)

  // ----- One turn at a time -----

  datatype Started = Rejected(error: Error) | Begun(frame: Frame)

  function Start(w: World, l: Launch): (r: Started)
    ensures r.Begun? ==> r.frame.depth == l.depth <= w.maxDepth && r.frame.steps == 0 && r.frame.path == l.path
  {
    if l.depth > w.maxDepth then Rejected(DepthLimitExceeded(l.ref, w.maxDepth))
    else if l.ref !in w.workflows then Rejected(NoWorkflow(l.ref))
    else
      var wf := w.workflows[l.ref];
      Begun(Frame(l.path, l.ref, wf, l.depth, if l.start == "" then wf.entry else l.start, l.ctx, [], [], 0))
  }

  function Tail(s: seq<string>, n: nat): seq<string>
  {
    if |s| <= n then s else s[|s| - n..]
  }

  /** The top of the loop: the frame is through, is refused, or visits a step. */
  datatype Head = Through(out: Outcome) | Refusing(error: Error) | Visit(frame: Frame, step: Step)

  function Top(w: World, f: Frame): (h: Head)
    ensures h.Visit? ==>
              h.frame.path == f.path && h.frame.depth == f.depth && h.frame.steps == f.steps + 1 <= w.maxSteps
    ensures h.Visit? ==> h.frame.wf == f.wf && h.frame.ctx == f.ctx && h.frame.done == f.done && h.frame.at == f.at
    ensures h.Visit? ==> f.at in f.wf.steps && h.step == f.wf.steps[f.at]
  {
    if f.at == "" then Through(Finished(f.ctx, f.trace))
    else if f.steps + 1 > w.maxSteps then Refusing(StepLimitExceeded(f.ref, w.maxSteps, Tail(f.trace, 10)))
    else if f.at !in f.wf.steps then Refusing(NoStep(f.ref, f.at))
    else
      var s := f.wf.steps[f.at];
      Visit(f.(steps := f.steps + 1, trace := f.trace + [s.id]), s)
  }

  /** The frame turns to a step. */
  function Seen(f: Frame, s: Step): Log
  {
    [Say(f, Visited(f.ref, f.at, f.steps + 1, f.ctx, s.Leaf?))]
  }

  function Say(f: Frame, what: What): Event
  {
    Event(f.path, what)
  }

  function Raise(f: Frame, e: Error): (n: Next)
  {
    Stop(Failed(e), [Say(f, Raised(KindOf(e)))])
  }

  /** Everything in the log was done by the frame at `path` or by frames it started. */
  predicate Under(path: Path, log: Log)
  {
    forall e :: e in log ==> path <= e.at
  }

  /** Turns keep the frame's identity, and abandoning it hands over its whole compensation log. */
  ghost predicate Continues(n: Next, f: Frame)
  {
    Under(f.path, n.log) &&
    match n
    case Go(g, _) => g.path == f.path && g.ref == f.ref && g.wf == f.wf && g.depth == f.depth && g.steps == f.steps
    case Stop(_, _) => true
    case Unwind(u, _) => u == Unwinding(f, u.step, u.reason, f.done, f.ctx, [], [])
  }

  function Before(log: Log, n: Next): (r: Next)
  {
    match n
    case Go(f, l) => Go(f, log + l)
    case Stop(out, l) => Stop(out, log + l)
    case Unwind(u, l) => Unwind(u, log + l)
  }

  /** The failing step's policy diverts the frame if it names a fallback; otherwise the frame is abandoned. */
  function OnFailure(w: World, f: Frame, s: Step, reason: string): (n: Next)
    ensures Continues(n, f) && !n.Stop?
  {
    var log := [Say(f, BreakerObserved(f.ref, f.at))];
    if s.policyRef != "" && s.policyRef in w.policies && w.policies[s.policyRef].fallback != "" then
      var fallback := w.policies[s.policyRef].fallback;
      var ctx := Merge(f.ctx, map[FAILURE_REASON_KEY := Text(reason), FAILED_STEP_KEY := Text(s.id)]);
      Go(f.(at := fallback, ctx := ctx), log + [Say(f, Diverted(fallback))])
    else
      Unwind(Unwinding(f, s.id, reason, f.done, f.ctx, [], []), log + [Say(f, Abandoned(f.ctx))])
  }

  /** The probe in front of a leaf: `None` lets the action run. */
  datatype Gate = Open(log: Log) | Shut(next: Next)

  function Point(f: Frame): Path
  {
    f.path + [f.steps]
  }

  function Gated(w: World, f: Frame, s: Step): (g: Gate)
    requires s.Leaf?
    ensures g.Shut? ==> Continues(g.next, f)
    ensures g.Open? ==> Under(f.path, g.log)
  {
    if s.probeRef == "" then Open([])
    else if w.sandbox.None? then Shut(Raise(f, NoSandbox(s.id, s.probeRef)))
    else
      var v := w.sandbox.value(Point(f), s.probeRef, f.wf.domain, f.ctx);
      var refusal := Refusal(v);
      var log := [Say(f, ProbeObserved(s.id)), Say(f, ProbeAsked(s.probeRef, v)),
                  Say(f, ProbeOutcome(s.id, refusal.None?))];
      if refusal.Some? then Shut(Before(log, OnFailure(w, f, s, refusal.value))) else Open(log)
  }

  /** A leaf's action succeeded with this output. */
  function Did(f: Frame, s: Step, fields: Context): Event
    requires s.Leaf?
  {
    Say(f, Succeeded(f.ref, f.at, s.id, s.compensateRef, fields))
  }

  function Act(w: World, f: Frame, s: Step): (n: Next)
    requires s.Leaf?
    ensures Continues(n, f)
  {
    var log := [Say(f, StepObserved(s.id))];
    match s.run(f.ctx)
    case Output(fields) =>
      var done := if s.compensateRef != "" then f.done + [Undoable(s.id, s.compensateRef)] else f.done;
      Go(f.(ctx := Merge(f.ctx, fields), done := done, at := s.onSuccess), log + [Did(f, s, fields)])
    case Suspended(reason, audience) =>
      Before(log,
             if f.depth > 0 then Raise(f, NestedSuspensionUnsupported(f.wf.id, s.id))
             else if !w.hasStore then Raise(f, NoSuspensionSupport(f.wf.id, s.id))
             else Stop(Parked(f.wf.id, s.id, reason, audience, f.ctx, f.trace), [Say(f, SuspensionReached(s.id))]))
    case Failure(reason) => Before(log, OnFailure(w, f, s, reason))
    case Panic(value) => Stop(Panicked(value), log + [Say(f, ActionPanicked)])
  }

  /** What a nested run hands back; a parked one would count as its context so far. */
  function OutputOf(out: Outcome): Context
  {
    match out
    case Finished(output, _) => output
    case Parked(_, _, _, _, ctx, _) => ctx
    case _ => map[]
  }

  function TraceOf(out: Outcome): seq<string>
  {
    match out
    case Finished(_, trace) => trace
    case Parked(_, _, _, _, _, trace) => trace
    case _ => []
  }

  function SubLaunch(f: Frame, s: Step): Launch
    requires s.Composite?
  {
    Launch(s.subRef, "", f.ctx, f.depth + 1, Point(f) + [0])
  }

  function AfterSub(w: World, f: Frame, s: Step, out: Outcome): (n: Next)
    requires s.Composite?
    ensures Continues(n, f)
  {
    match out
    case Failed(e) => if BypassesBreaker(e) then Stop(out, []) else OnFailure(w, f, s, w.text(e))
    case Panicked(_) => Stop(out, [])
    case _ => Go(f.(ctx := Merge(f.ctx, OutputOf(out)), trace := f.trace + TraceOf(out), at := s.onSuccess), [])
  }

  function BranchLaunch(f: Frame, s: Step, i: nat): Launch
    requires s.Parallel? && i < |s.branches|
  {
    Launch(s.branches[i], "", f.ctx, f.depth + 1, Point(f) + [i])
  }

  function BranchLaunches(f: Frame, s: Step): (ls: seq<Launch>)
    requires s.Parallel?
    ensures |ls| == |s.branches|
  {
    seq(|s.branches|, i requires 0 <= i < |s.branches| => BranchLaunch(f, s, i))
  }

  /** A branch's goroutine recovers its panic into an error. */
  function Recovered(s: Step, i: nat, out: Outcome): Outcome
    requires s.Parallel? && i < |s.branches|
  {
    if out.Panicked? then Failed(BranchPanicked(s.id, s.branches[i], out.value)) else out
  }

  function Recover(s: Step, outs: seq<Outcome>): (rs: seq<Outcome>)
    requires s.Parallel? && |outs| == |s.branches|
    ensures |rs| == |outs|
  {
    seq(|outs|, i requires 0 <= i < |outs| => Recovered(s, i, outs[i]))
  }

  /** The first outcome from `i` on that fails with a bypassing error. */
  function FirstBypass(outs: seq<Outcome>, i: nat): (b: nat)
    requires i <= |outs|
    ensures i <= b <= |outs|
    ensures b < |outs| ==> outs[b].Failed? && BypassesBreaker(outs[b].error)
    ensures forall j :: i <= j < b ==> !(outs[j].Failed? && BypassesBreaker(outs[j].error))
    decreases |outs| - i
  {
    if i == |outs| then i
    else if outs[i].Failed? && BypassesBreaker(outs[i].error) then i
    else FirstBypass(outs, i + 1)
  }

  function Failures(w: World, branches: seq<string>, outs: seq<Outcome>): (fs: seq<BranchFailure>)
    requires |branches| == |outs|
  {
    if outs == [] then []
    else (if outs[0].Failed? then [BranchFailure(branches[0], w.text(outs[0].error))] else [])
         + Failures(w, branches[1..], outs[1..])
  }

  function Traces(outs: seq<Outcome>): seq<string>
  {
    if outs == [] then [] else TraceOf(outs[0]) + Traces(outs[1..])
  }

  function Outputs(outs: seq<Outcome>): (cs: seq<Context>)
    ensures |cs| == |outs|
  {
    seq(|outs|, i requires 0 <= i < |outs| => OutputOf(outs[i]))
  }

  /** The panics recovered from branch `i` on, each on record under its branch. */
  function PanicLog(f: Frame, outs: seq<Outcome>, i: nat): (log: Log)
    requires i <= |outs|
    ensures Under(f.path, log)
    decreases |outs| - i
  {
    if i == |outs| then []
    else (if outs[i].Panicked? then [Event(Point(f) + [i], Raised(KPanicked))] else []) + PanicLog(f, outs, i + 1)
  }

  ghost predicate MayName(r: JoinResult, field: string)
  {
    r.Clash? ==> field in Clashes(r.ledger, r.delta)
  }

  function JoinOf(f: Frame, s: Step, outs: seq<Outcome>): JoinResult
    requires s.Parallel? && |outs| == |s.branches|
  {
    JoinAll(f.ctx, s.branches, Outputs(Recover(s, outs)))
  }

  function ConflictError(s: Step, r: JoinResult, field: string): Error
    requires s.Parallel? && r.Clash? && r.second < |s.branches| && field in Clashes(r.ledger, r.delta)
  {
    ConflictingBranchWrites(Dispute(s.id, s.branches[r.second], RivalsOf(r.ledger, r.delta), field))
  }

  lemma {:induction false} ClashInRange(before: Context, branches: seq<string>, deltas: seq<Context>, i: nat,
                                        ledger: Ledger)
    requires |branches| == |deltas| && i <= |deltas|
    ensures var r := JoinFrom(before, branches, deltas, i, ledger);
            r.Clash? ==> r.second < |branches| && Clashes(r.ledger, r.delta) != {}
    decreases |deltas| - i
  {
    if i < |deltas| && Clashes(ledger, deltas[i]) == {} {
      ClashInRange(before, branches, deltas, i + 1, Enter(ledger, branches[i], deltas[i]));
    }
  }

  /** Some field of the clash; the engine takes whichever its map yields first. */
  ghost function AnyField(r: JoinResult): (k: string)
    requires r.Clash? ==> Clashes(r.ledger, r.delta) != {}
    ensures MayName(r, k)
  {
    if r.Clash? then
      var k :| k in Clashes(r.ledger, r.delta); k
    else ""
  }

  ghost function SomeField(f: Frame, s: Step, outs: seq<Outcome>): (k: string)
    requires s.Parallel? && |outs| == |s.branches|
    ensures MayName(JoinOf(f, s, outs), k)
  {
    ClashInRange(f.ctx, s.branches, Deltas(f.ctx, Outputs(Recover(s, outs))), 0, map[]);
    AnyField(JoinOf(f, s, outs))
  }

  /** After every branch ended: bypassing errors first, then collected failures, then the join. */
  function Resolve(w: World, f: Frame, s: Step, outs: seq<Outcome>, field: string): (n: Next)
    requires s.Parallel? && |outs| == |s.branches|
    requires MayName(JoinOf(f, s, outs), field)
    ensures Continues(n, f)
  {
    var rs := Recover(s, outs);
    var b := FirstBypass(rs, 0);
    var failures := Failures(w, s.branches, rs);
    if b < |rs| then Stop(rs[b], [])
    else if failures != [] then
      Before([Say(f, Raised(KBranchesFailed))],
             OnFailure(w, f, s, w.text(BranchesFailed(s.id, |s.branches|, failures))))
    else
      match JoinOf(f, s, outs)
      case Joined(ctx) => Go(f.(ctx := ctx, trace := f.trace + Traces(rs), at := s.onSuccess), [])
      case Clash(i, ledger, delta) =>
        ClashInRange(f.ctx, s.branches, Deltas(f.ctx, Outputs(rs)), 0, map[]);
        Raise(f, ConflictError(s, Clash(i, ledger, delta), field))
  }

  /** The branches' panics go on record, then the step is resolved. */
  function AfterBranches(w: World, f: Frame, s: Step, outs: seq<Outcome>, field: string): (n: Next)
    requires s.Parallel? && |outs| == |s.branches|
    requires MayName(JoinOf(f, s, outs), field)
    ensures Continues(n, f)
  {
    Before(PanicLog(f, outs, 0), Resolve(w, f, s, outs, field))
  }

  /** The join with one of the possible reports. */
  ghost function Harvest(w: World, f: Frame, s: Step, outs: seq<Outcome>): (n: Next)
    requires s.Parallel? && |outs| == |s.branches|
    ensures Continues(n, f)
  {
    AfterBranches(w, f, s, outs, SomeField(f, s, outs))
  }

  /** How a fan-out is resolved, case by case. */
  lemma ResolveShape(w: World, f: Frame, s: Step, outs: seq<Outcome>, field: string)
    requires s.Parallel? && |outs| == |s.branches| && MayName(JoinOf(f, s, outs), field)
    ensures var n, rs, r := Resolve(w, f, s, outs, field), Recover(s, outs), JoinOf(f, s, outs);
            var failures := Failures(w, s.branches, rs);
            if FirstBypass(rs, 0) < |rs| then n == Stop(rs[FirstBypass(rs, 0)], [])
            else if failures != [] then
              n == Before([Say(f, Raised(KBranchesFailed))],
                          OnFailure(w, f, s, w.text(BranchesFailed(s.id, |s.branches|, failures))))
            else if r.Joined? then
              n == Go(f.(ctx := r.ctx, trace := f.trace + Traces(rs), at := s.onSuccess), [])
            else
              r.second < |s.branches| && n == Raise(f, ConflictError(s, r, field))
  {
    hide OnFailure, Failures, Traces, Under, RivalsOf;
    ClashInRange(f.ctx, s.branches, Deltas(f.ctx, Outputs(Recover(s, outs))), 0, map[]);
  }

  /** The turn after a fan-out. */
  lemma HarvestShape(w: World, f: Frame, s: Step, outs: seq<Outcome>)
    requires s.Parallel? && |outs| == |s.branches|
    ensures var n, rs, panics := Harvest(w, f, s, outs), Recover(s, outs), PanicLog(f, outs, 0);
            var failures, r := Failures(w, s.branches, rs), JoinOf(f, s, outs);
            if FirstBypass(rs, 0) < |rs| then n == Stop(rs[FirstBypass(rs, 0)], panics)
            else if failures != [] then
              n == Before(panics, Before([Say(f, Raised(KBranchesFailed))],
                                         OnFailure(w, f, s, w.text(BranchesFailed(s.id, |s.branches|, failures)))))
            else if r.Joined? then
              n == Before(panics, Go(f.(ctx := r.ctx, trace := f.trace + Traces(rs), at := s.onSuccess), []))
            else
              r.second < |s.branches| && n == Before(panics, Raise(f, ConflictError(s, r, SomeField(f, s, outs))))
  {
    hide PanicLog, OnFailure, Failures, Traces, Under, RivalsOf, Resolve, JoinOf;
    ResolveShape(w, f, s, outs, SomeField(f, s, outs));
    assert PanicLog(f, outs, 0) + [] == PanicLog(f, outs, 0);
  }

  function ErrorText(r: ActionResult): string
    requires r.Failure? || r.Suspended?
  {
    if r.Failure? then r.reason else "workflow suspended: " + r.reason
  }

  datatype Attempt = Undone(ctx: Context) | NotUndone(why: UndoProblem) | Blown(value: string)

  /** Running one compensation; its probe, if it declares one, is not consulted. */
  function Compensate(wf: Workflow, via: string, ctx: Context): Attempt
  {
    if via !in wf.steps then NotUndone(MissingStep(wf.id, via))
    else if !wf.steps[via].Leaf? then NotUndone(NotALeaf)
    else
      match wf.steps[via].run(ctx)
      case Output(fields) => Undone(Merge(ctx, fields))
      case Panic(value) => Blown(value)
      case r => NotUndone(Refused(ErrorText(r)))
  }

  /** A compensation shows in the log when its action ran. */
  function CompensateLog(f: Frame, via: string, ctx: Context): Log
  {
    match Compensate(f.wf, via, ctx)
    case Undone(_) => [Say(f, Compensating(via))]
    case NotUndone(why) => if why.Refused? then [Say(f, Compensating(via))] else []
    case Blown(_) => [Say(f, Compensating(via)), Say(f, ActionPanicked)]
  }

  /** One entry of the compensation log, or the report once it is empty. */
  function UnwindOne(w: World, u: Unwinding): (n: Next)
    ensures n.Unwind? ==> u.left != [] && n.unwinding.left == u.left[..|u.left| - 1] && n.unwinding.frame == u.frame
    ensures !n.Go?
  {
    if u.left == [] then
      Stop(Failed(CircuitBreakerTripped(u.step, u.reason, u.undone, u.failures)), [Say(u.frame, Raised(KTripped))])
    else
      var entry := u.left[|u.left| - 1];
      var rest := u.(left := u.left[..|u.left| - 1]);
      var log := CompensateLog(u.frame, entry.via, u.ctx);
      match Compensate(u.frame.wf, entry.via, u.ctx)
      case Undone(ctx) => Unwind(rest.(ctx := ctx, undone := u.undone + [entry.step]), log)
      case NotUndone(why) => Unwind(rest.(failures := u.failures + [UndoFailure(entry.step, entry.via, why)]), log)
      case Blown(value) => Stop(Panicked(value), log)
  }

  // ----- Whole runs -----

  function After(log: Log, ticks: nat, r: Run): Run
  {
    Run(r.out, log + r.log, ticks + r.ticks)
  }

  function UnwindAll(w: World, u: Unwinding): (r: Run)
    decreases |u.left|
  {
    match UnwindOne(w, u)
    case Stop(out, log) => Run(out, log, 1)
    case Unwind(u', log) => After(log, 1, UnwindAll(w, u'))
  }

  function Outs(runs: seq<Run>): (outs: seq<Outcome>)
    ensures |outs| == |runs|
  {
    seq(|runs|, i requires 0 <= i < |runs| => runs[i].out)
  }

  function Logs(runs: seq<Run>): (logs: seq<Log>)
    ensures |logs| == |runs|
  {
    seq(|runs|, i requires 0 <= i < |runs| => runs[i].log)
  }

  function Ticks(runs: seq<Run>): nat
  {
    if runs == [] then 0 else runs[0].ticks + Ticks(runs[1..])
  }

  ghost function RunOf(w: World, l: Launch): (r: Run)
    decreases w.maxDepth + 1 - l.depth, w.maxSteps + 2, 0
  {
    match Start(w, l)
    case Rejected(e) => Run(Failed(e), [Event(l.path, Raised(KindOf(e)))], 1)
    case Begun(f) => After([], 1, Loop(w, f))
  }

  ghost function RunAll(w: World, ls: seq<Launch>, depth: nat): (rs: seq<Run>)
    requires depth <= w.maxDepth + 1
    requires forall l :: l in ls ==> l.depth == depth
    ensures |rs| == |ls|
    ensures forall i :: 0 <= i < |ls| ==> rs[i] == RunOf(w, ls[i])
    decreases w.maxDepth + 1 - depth, w.maxSteps + 3, |ls|
  {
    if ls == [] then [] else [RunOf(w, ls[0])] + RunAll(w, ls[1..], depth)
  }

  ghost function BranchRuns(w: World, f: Frame, s: Step): (runs: seq<Run>)
    requires f.depth <= w.maxDepth && s.Parallel?
    ensures |runs| == |s.branches|
    ensures forall i :: 0 <= i < |runs| ==> runs[i] == RunOf(w, BranchLaunch(f, s, i))
    decreases w.maxDepth + 1 - f.depth, w.maxSteps + 1 - f.steps, 1
  {
    RunAll(w, BranchLaunches(f, s), f.depth + 1)
  }

  ghost function Then(w: World, n: Next, depth: nat, steps: nat): (r: Run)
    requires depth <= w.maxDepth
    requires n.Go? ==> n.frame.depth == depth && n.frame.steps == steps
    decreases w.maxDepth + 1 - depth, w.maxSteps + 1 - steps, 1
  {
    match n
    case Go(f, log) => After(log, 0, Loop(w, f))
    case Stop(out, log) => Run(out, log, 0)
    case Unwind(u, log) => After(log, 0, UnwindAll(w, u))
  }

  ghost function Loop(w: World, f: Frame): (r: Run)
    requires f.depth <= w.maxDepth
    decreases w.maxDepth + 1 - f.depth, w.maxSteps + 1 - f.steps, 0
  {
    match Top(w, f)
    case Through(out) => Run(out, [], 1)
    case Refusing(e) => Run(Failed(e), [Say(f, Raised(KindOf(e)))], 1)
    case Visit(g, s) =>
      var seen := Seen(f, s);
      match s
      case Leaf(_, _, _, _, _, _) =>
        (match Gated(w, g, s)
         case Shut(next) => After(seen, 1, Then(w, next, g.depth, g.steps))
         case Open(log) => After(seen + log, 2, Then(w, Act(w, g, s), g.depth, g.steps)))
      case Composite(_, _, _, _) =>
        var sub := RunOf(w, SubLaunch(g, s));
        After(seen + sub.log, 2 + sub.ticks, Then(w, AfterSub(w, g, s, sub.out), g.depth, g.steps))
      case Parallel(_, _, _, _) =>
        if s.branches == [] then
          After(seen, 1, Then(w, Raise(g, NoBranches(g.wf.id, s.id)), g.depth, g.steps))
        else
          var runs := BranchRuns(w, g, s);
          After(seen + Concat(Logs(runs)), 2 + Ticks(runs), Then(w, Harvest(w, g, s, Outs(runs)), g.depth, g.steps))
      case Foreign(_, _) =>
        After(seen, 1, Then(w, Raise(g, UnknownStepType(f.at)), g.depth, g.steps))
  }

  // ----- The loop, one kind of step at a time -----

  lemma LoopAtLeaf(w: World, f: Frame, g: Frame, s: Step)
    requires f.depth <= w.maxDepth && Top(w, f) == Visit(g, s) && s.Leaf?
    ensures var gate := Gated(w, g, s);
            Loop(w, f) == if gate.Shut? then After(Seen(f, s), 1, Then(w, gate.next, g.depth, g.steps))
                          else After(Seen(f, s) + gate.log, 2, Then(w, Act(w, g, s), g.depth, g.steps))
  {
    hide RunOf, Then, Harvest, BranchRuns, Top, Act, Gated;
  }

  lemma LoopAtComposite(w: World, f: Frame, g: Frame, s: Step)
    requires f.depth <= w.maxDepth && Top(w, f) == Visit(g, s) && s.Composite?
    ensures var sub := RunOf(w, SubLaunch(g, s));
            Loop(w, f) == After(Seen(f, s) + sub.log, 2 + sub.ticks,
                                Then(w, AfterSub(w, g, s, sub.out), g.depth, g.steps))
  {
    hide RunOf, Then, Harvest, BranchRuns, Top, AfterSub;
  }

  lemma LoopAtParallel(w: World, f: Frame, g: Frame, s: Step)
    requires f.depth <= w.maxDepth && Top(w, f) == Visit(g, s) && s.Parallel? && s.branches != []
    ensures var runs := BranchRuns(w, g, s);
            Loop(w, f) == After(Seen(f, s) + Concat(Logs(runs)), 2 + Ticks(runs),
                                Then(w, Harvest(w, g, s, Outs(runs)), g.depth, g.steps))
  {
    hide RunAll, RunOf, Then, Harvest, BranchRuns, Top;
  }

  /** A step the engine refuses as soon as it sees it. */
  predicate Unrunnable(s: Step)
  {
    s.Foreign? || (s.Parallel? && s.branches == [])
  }

  function Refuse(f: Frame, s: Step): Next
    requires Unrunnable(s)
  {
    if s.Foreign? then Raise(f, UnknownStepType(f.at)) else Raise(f, NoBranches(f.wf.id, s.id))
  }

  lemma LoopAtUnrunnable(w: World, f: Frame, g: Frame, s: Step)
    requires f.depth <= w.maxDepth && Top(w, f) == Visit(g, s) && Unrunnable(s)
    ensures Loop(w, f) == After(Seen(f, s), 1, Then(w, Refuse(g, s), g.depth, g.steps))
  {
  }
}
