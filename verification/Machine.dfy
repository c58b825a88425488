/** The engine as a machine that takes one small step at a time: each branch of a parallel step is a machine
    of its own, and a schedule says which of them moves next. */
module Machine {
  import opened Basics
  import opened Workflows
  import opened BigStep

  datatype Machine =
    | Starting(launch: Launch)
    | Running(frame: Frame)
    | Acting(frame: Frame, step: Step)
    | Waiting(frame: Frame, step: Step, sub: Machine)
    | Fanned(frame: Frame, step: Step, branches: seq<Machine>)
    | Undoing(unwinding: Unwinding)
    | Halted(out: Outcome)

  /** One decision of the scheduler: the branch to move at each fan-out on the way down, and the field a
      join in conflict happens to name. */
  datatype Choice = Choice(route: seq<nat>, field: string)

  datatype Stepped = Stepped(machine: Machine, log: Log)

  ghost predicate WellFormed(w: World, m: Machine)
  {
    match m
    case Starting(l) => true
    case Running(f) => f.depth <= w.maxDepth
    case Acting(f, s) => f.depth <= w.maxDepth && s.Leaf?
    case Waiting(f, s, sub) => f.depth <= w.maxDepth && s.Composite? && WellFormed(w, sub)
    case Fanned(f, s, bs) =>
      f.depth <= w.maxDepth && s.Parallel? && |bs| == |s.branches| &&
      forall i :: 0 <= i < |bs| ==> WellFormed(w, bs[i])
    case Undoing(_) => true
    case Halted(_) => true
  }

  ghost predicate AllWellFormed(w: World, ms: seq<Machine>)
  {
    forall i :: 0 <= i < |ms| ==> WellFormed(w, ms[i])
  }

  predicate AllHalted(ms: seq<Machine>)
  {
    forall i :: 0 <= i < |ms| ==> ms[i].Halted?
  }

  function Results(ms: seq<Machine>): (outs: seq<Outcome>)
    requires AllHalted(ms)
    ensures |outs| == |ms|
  {
    seq(|ms|, i requires 0 <= i < |ms| => ms[i].out)
  }

  function Down(c: Choice): Choice
    requires c.route != []
  {
    Choice(c.route[1..], c.field)
  }

  ghost predicate Enabled(w: World, m: Machine, c: Choice)
    requires WellFormed(w, m)
  {
    match m
    case Halted(_) => false
    case Waiting(f, s, sub) => sub.Halted? || Enabled(w, sub, c)
    case Fanned(f, s, bs) =>
      if AllHalted(bs) then MayName(JoinOf(f, s, Results(bs)), c.field)
      else c.route != [] && c.route[0] < |bs| && Enabled(w, bs[c.route[0]], Down(c))
    case _ => true
  }

  function Settle(n: Next): Stepped
  {
    match n
    case Go(f, log) => Stepped(Running(f), log)
    case Stop(out, log) => Stepped(Halted(out), log)
    case Unwind(u, log) => Stepped(Undoing(u), log)
  }

  function StartAll(f: Frame, s: Step): (ms: seq<Machine>)
    requires s.Parallel?
    ensures |ms| == |s.branches|
  {
    seq(|s.branches|, i requires 0 <= i < |s.branches| => Starting(BranchLaunch(f, s, i)))
  }

  /** The visit of a step: refuse it, act on it, or start the runs it consists of. */
  function VisitStep(w: World, f: Frame, g: Frame, s: Step): Stepped
  {
    if Unrunnable(s) then Settle(Before(Seen(f, s), Refuse(g, s)))
    else match s
      case Leaf(_, _, _, _, _, _) =>
        (match Gated(w, g, s)
         case Shut(next) => Settle(Before(Seen(f, s), next))
         case Open(log) => Stepped(Acting(g, s), Seen(f, s) + log))
      case Composite(_, _, _, _) => Stepped(Waiting(g, s, Starting(SubLaunch(g, s))), Seen(f, s))
      case Parallel(_, _, _, _) => Stepped(Fanned(g, s, StartAll(g, s)), Seen(f, s))
  }

  ghost function StepBy(w: World, m: Machine, c: Choice): Stepped
    requires WellFormed(w, m) && Enabled(w, m, c)
  {
    match m
    case Starting(l) =>
      (match Start(w, l)
       case Rejected(e) => Stepped(Halted(Failed(e)), [Event(l.path, Raised(KindOf(e)))])
       case Begun(f) => Stepped(Running(f), []))
    case Running(f) =>
      (match Top(w, f)
       case Through(out) => Stepped(Halted(out), [])
       case Refusing(e) => Stepped(Halted(Failed(e)), [Say(f, Raised(KindOf(e)))])
       case Visit(g, s) => VisitStep(w, f, g, s))
    case Acting(f, s) => Settle(Act(w, f, s))
    case Waiting(f, s, sub) =>
      if sub.Halted? then Settle(AfterSub(w, f, s, sub.out))
      else
        var t := StepBy(w, sub, c);
        Stepped(Waiting(f, s, t.machine), t.log)
    case Fanned(f, s, bs) =>
      if AllHalted(bs) then Settle(AfterBranches(w, f, s, Results(bs), c.field))
      else
        var t := StepBy(w, bs[c.route[0]], Down(c));
        Stepped(Fanned(f, s, bs[c.route[0] := t.machine]), t.log)
    case Undoing(u) => Settle(UnwindOne(w, u))
  }

  // ----- What a machine has left to compute -----

  ghost function Denote(w: World, m: Machine): Run
    requires WellFormed(w, m)
  {
    match m
    case Starting(l) => RunOf(w, l)
    case Running(f) => Loop(w, f)
    case Acting(f, s) => After([], 1, Then(w, Act(w, f, s), f.depth, f.steps))
    case Waiting(f, s, sub) =>
      var r := Denote(w, sub);
      After(r.log, r.ticks + 1, Then(w, AfterSub(w, f, s, r.out), f.depth, f.steps))
    case Fanned(f, s, bs) => AfterRuns(w, f, s, seq(|bs|, i requires 0 <= i < |bs| => Denote(w, bs[i])))
    case Undoing(u) => UnwindAll(w, u)
    case Halted(out) => Run(out, [], 0)
  }

  ghost function AfterRuns(w: World, f: Frame, s: Step, runs: seq<Run>): Run
    requires f.depth <= w.maxDepth && s.Parallel? && |runs| == |s.branches|
  {
    After(Concat(Logs(runs)), Ticks(runs) + 1, Then(w, Harvest(w, f, s, Outs(runs)), f.depth, f.steps))
  }

  // Every machine of a fan-out, run to its end.
  ghost function DenoteAll(w: World, ms: seq<Machine>): (runs: seq<Run>)
    requires AllWellFormed(w, ms)
    ensures |runs| == |ms|
  {
    seq(|ms|, i requires 0 <= i < |ms| => Denote(w, ms[i]))
  }

  lemma DenoteFanned(w: World, f: Frame, s: Step, bs: seq<Machine>)
    requires WellFormed(w, Fanned(f, s, bs))
    ensures AllWellFormed(w, bs)
    ensures Denote(w, Fanned(f, s, bs)) == AfterRuns(w, f, s, DenoteAll(w, bs))
  {
    assert seq(|bs|, i requires 0 <= i < |bs| => Denote(w, bs[i])) == DenoteAll(w, bs);
  }

  // ----- Schedules -----

  ghost predicate Follows(w: World, m: Machine, cs: seq<Choice>)
    requires WellFormed(w, m)
    decreases |cs|
  {
    cs == [] || (Enabled(w, m, cs[0]) && WellFormed(w, StepBy(w, m, cs[0]).machine)
                 && Follows(w, StepBy(w, m, cs[0]).machine, cs[1..]))
  }

  /** The machine and the log after the whole schedule. */
  ghost function Execute(w: World, m: Machine, cs: seq<Choice>): Stepped
    requires WellFormed(w, m) && Follows(w, m, cs)
    decreases |cs|
  {
    if cs == [] then Stepped(m, [])
    else
      var t := StepBy(w, m, cs[0]);
      var rest := Execute(w, t.machine, cs[1..]);
      Stepped(rest.machine, t.log + rest.log)
  }
}
