/** The two budgets against the shape of the tables: when they cannot run out, and what it takes to run far. */
module Budgets {
  import opened Basics
  import opened Join
  import opened Graphs
  import opened Workflows
  import opened BigStep
  import opened Machine
  import opened Paths
  import opened Projections

  // ----- The edges a frame can take -----

  function FallbackOf(w: World, s: Step): string
  {
    if s.policyRef != "" && s.policyRef in w.policies then w.policies[s.policyRef].fallback else ""
  }

  function SuccessOf(s: Step): string
  {
    if s.Foreign? then "" else s.onSuccess
  }

  /** `g` has every success edge of the workflow, and every fallback edge too when `fallbacks` is set. */
  ghost predicate Covers(g: Graph, w: World, wf: Workflow, fallbacks: bool)
  {
    forall key :: key in wf.steps ==>
      var s := wf.steps[key];
      && (SuccessOf(s) != "" ==> Edge(g, key, SuccessOf(s)))
      && (fallbacks && FallbackOf(w, s) != "" ==> Edge(g, key, FallbackOf(w, s)))
  }

  /** Where a turn can lead: on the success edge, or on the fallback edge with the diversion on record. */
  ghost predicate TakesEdge(w: World, f: Frame, s: Step, n: Next)
  {
    n.Go? ==>
      || (n.frame.at == SuccessOf(s) && OwnDiversions(f.path, n.log) == 0)
      || (n.frame.at == FallbackOf(w, s) != "" && OwnDiversions(f.path, n.log) == 1)
  }

  // ----- The frame's own record -----

  predicate OwnVisit(path: Path, e: Event)
  {
    e.at == path && e.what.Visited?
  }

  predicate OwnDiversion(path: Path, e: Event)
  {
    e.at == path && e.what.Diverted?
  }

  /** The steps the frame at `path` visited, in order. */
  function OwnVisits(path: Path, log: Log): seq<string>
  {
    if log == [] then [] else (if OwnVisit(path, log[0]) then [log[0].what.key] else []) + OwnVisits(path, log[1..])
  }

  function OwnDiversions(path: Path, log: Log): nat
  {
    if log == [] then 0 else (if OwnDiversion(path, log[0]) then 1 else 0) + OwnDiversions(path, log[1..])
  }

  lemma {:induction false} OwnConcat(path: Path, a: Log, b: Log)
    ensures OwnVisits(path, a + b) == OwnVisits(path, a) + OwnVisits(path, b)
    ensures OwnDiversions(path, a + b) == OwnDiversions(path, a) + OwnDiversions(path, b)
  {
    if a == [] {
      assert a + b == b;
    } else {
      assert (a + b)[1..] == a[1..] + b;
      OwnConcat(path, a[1..], b);
    }
  }

  lemma {:induction false} OwnNothing(path: Path, log: Log)
    ensures (forall e :: e in log ==> !OwnVisit(path, e)) ==> OwnVisits(path, log) == []
    ensures (forall e :: e in log ==> !OwnDiversion(path, e)) ==> OwnDiversions(path, log) == 0
  {
    if log != [] {
      OwnNothing(path, log[1..]);
    }
  }

  /** What runs below a frame is not its own. */
  lemma BelowIsNotOwn(path: Path, below: Path, log: Log)
    requires path < below && Under(below, log)
    ensures OwnVisits(path, log) == [] && OwnDiversions(path, log) == 0
  {
    OwnNothing(path, log);
  }

  // ----- One turn -----

  /** A turn visits nothing itself and takes an edge of its step. */
  ghost predicate Turns(w: World, f: Frame, s: Step, n: Next)
  {
    && TakesEdge(w, f, s, n)
    && (forall e :: e in n.log ==> !OwnVisit(f.path, e))
  }

  lemma FailureTurns(w: World, f: Frame, s: Step, reason: string)
    ensures Turns(w, f, s, OnFailure(w, f, s, reason))
  {
    var n := OnFailure(w, f, s, reason);
    if n.Go? {
      OwnConcat(f.path, [n.log[0]], [n.log[1]]);
      assert n.log == [n.log[0]] + [n.log[1]];
      assert OwnDiversions(f.path, [n.log[1]]) == 1 + OwnDiversions(f.path, []);
      assert OwnDiversions(f.path, [n.log[0]]) == 0 + OwnDiversions(f.path, []);
    }
  }

  lemma BeforeTurns(w: World, f: Frame, s: Step, log: Log, n: Next)
    requires Turns(w, f, s, n)
    requires forall e :: e in log ==> !OwnVisit(f.path, e) && !OwnDiversion(f.path, e)
    ensures Turns(w, f, s, Before(log, n))
  {
    OwnNothing(f.path, log);
    OwnConcat(f.path, log, n.log);
  }

  lemma GateTurns(w: World, f: Frame, s: Step)
    requires s.Leaf?
    ensures var g := Gated(w, f, s);
            if g.Shut? then Turns(w, f, s, g.next)
            else forall e :: e in g.log ==> !OwnVisit(f.path, e) && !OwnDiversion(f.path, e)
  {
    if s.probeRef != "" && w.sandbox.Some? {
      var v := w.sandbox.value(Point(f), s.probeRef, f.wf.domain, f.ctx);
      if Refusal(v).Some? {
        FailureTurns(w, f, s, Refusal(v).value);
        BeforeTurns(w, f, s, [Say(f, ProbeObserved(s.id)), Say(f, ProbeAsked(s.probeRef, v)),
                              Say(f, ProbeOutcome(s.id, false))],
                    OnFailure(w, f, s, Refusal(v).value));
      }
    }
  }

  lemma ActTurns(w: World, f: Frame, s: Step)
    requires s.Leaf?
    ensures Turns(w, f, s, Act(w, f, s))
  {
    hide OnFailure, Under;
    var r := s.run(f.ctx);
    if r.Failure? {
      FailureTurns(w, f, s, r.reason);
      BeforeTurns(w, f, s, [Say(f, StepObserved(s.id))], OnFailure(w, f, s, r.reason));
    } else {
      OwnNothing(f.path, Act(w, f, s).log);
    }
  }

  lemma SubTurns(w: World, f: Frame, s: Step, out: Outcome)
    requires s.Composite?
    ensures Turns(w, f, s, AfterSub(w, f, s, out))
  {
    if out.Failed? {
      FailureTurns(w, f, s, w.text(out.error));
    }
  }

  lemma {:induction false} PanicLogQuiet(f: Frame, outs: seq<Outcome>, i: nat)
    requires i <= |outs|
    ensures forall e :: e in PanicLog(f, outs, i) ==>
              !OwnVisit(f.path, e) && !OwnDiversion(f.path, e)
    decreases |outs| - i
  {
    if i < |outs| {
      PanicLogQuiet(f, outs, i + 1);
    }
  }

  lemma ResolveTurns(w: World, f: Frame, s: Step, outs: seq<Outcome>, k: string)
    requires s.Parallel? && |outs| == |s.branches| && MayName(JoinOf(f, s, outs), k)
    ensures Turns(w, f, s, Resolve(w, f, s, outs, k))
  {
    hide OnFailure;
    ClashInRange(f.ctx, s.branches, Deltas(f.ctx, Outputs(Recover(s, outs))), 0, map[]);
    var failures := Failures(w, s.branches, Recover(s, outs));
    if failures != [] {
      var reason := w.text(BranchesFailed(s.id, |s.branches|, failures));
      FailureTurns(w, f, s, reason);
      BeforeTurns(w, f, s, [Say(f, Raised(KBranchesFailed))], OnFailure(w, f, s, reason));
    }
  }

  lemma HarvestTurns(w: World, f: Frame, s: Step, outs: seq<Outcome>)
    requires s.Parallel? && |outs| == |s.branches|
    ensures Turns(w, f, s, Harvest(w, f, s, outs))
  {
    hide PanicLog, Resolve, Turns;
    var k := SomeField(f, s, outs);
    ResolveTurns(w, f, s, outs, k);
    PanicLogQuiet(f, outs, 0);
    BeforeTurns(w, f, s, PanicLog(f, outs, 0), Resolve(w, f, s, outs, k));
  }

  lemma {:induction false} UnwindQuiet(w: World, u: Unwinding)
    ensures var log := UnwindAll(w, u).log;
            && OwnVisits(u.frame.path, log) == [] && OwnDiversions(u.frame.path, log) == 0
    decreases |u.left|
  {
    var n := UnwindOne(w, u);
    OwnNothing(u.frame.path, n.log);
    if n.Unwind? {
      UnwindQuiet(w, n.unwinding);
      OwnConcat(u.frame.path, n.log, UnwindAll(w, n.unwinding).log);
    }
  }

  // ----- One visit of the loop -----

  /** How a visit splits the frame's record: the visit itself, and what follows the edge it takes. */
  lemma VisitSplits(w: World, f: Frame, g: Frame, s: Step) returns (n: Next, inner: Log)
    requires f.depth <= w.maxDepth && Top(w, f) == Visit(g, s)
    ensures Continues(n, g) && Turns(w, g, s, n)
    ensures OwnVisits(f.path, inner) == [] && OwnDiversions(f.path, inner) == 0
    ensures Loop(w, f).log == (Seen(f, s) + inner) + Then(w, n, g.depth, g.steps).log
  {
    hide Loop, RunOf, BranchRuns, Harvest, Then, Act, Gated, AfterSub, OwnVisits, OwnDiversions, Turns;
    inner := [];
    OwnNothing(f.path, inner);
    assert Seen(f, s) + [] == Seen(f, s);
    if s.Leaf? {
      LoopAtLeaf(w, f, g, s);
      GateTurns(w, g, s);
      ActTurns(w, g, s);
      var gate := Gated(w, g, s);
      n := if gate.Shut? then gate.next else Act(w, g, s);
      if gate.Open? {
        inner := gate.log;
        OwnNothing(f.path, inner);
      }
    } else if s.Composite? {
      LoopAtComposite(w, f, g, s);
      n, inner := AfterSub(w, g, s, RunOf(w, SubLaunch(g, s)).out), RunOf(w, SubLaunch(g, s)).log;
      RunUnder(w, SubLaunch(g, s));
      BelowIsNotOwn(f.path, Point(g) + [0], inner);
      SubTurns(w, g, s, RunOf(w, SubLaunch(g, s)).out);
    } else if Unrunnable(s) {
      LoopAtUnrunnable(w, f, g, s);
      n := Refuse(g, s);
      RefuseTurns(w, g, s);
    } else {
      LoopAtParallel(w, f, g, s);
      var runs := BranchRuns(w, g, s);
      n, inner := Harvest(w, g, s, Outs(runs)), Concat(Logs(runs));
      forall i | 0 <= i < |runs| ensures Under(Point(g), Logs(runs)[i]) {
        RunUnder(w, BranchLaunch(g, s, i));
      }
      UnderConcat(Point(g), Logs(runs));
      BelowIsNotOwn(f.path, Point(g), inner);
      HarvestTurns(w, g, s, Outs(runs));
    }
  }

  lemma RefuseTurns(w: World, f: Frame, s: Step)
    requires Unrunnable(s)
    ensures Turns(w, f, s, Refuse(f, s))
  {
  }

  lemma ThenLog(w: World, n: Next, f: Frame)
    requires f.depth <= w.maxDepth && Continues(n, f)
    ensures n.Go? ==> Then(w, n, f.depth, f.steps).log == n.log + Loop(w, n.frame).log
    ensures n.Stop? ==> Then(w, n, f.depth, f.steps).log == n.log
    ensures n.Unwind? ==> Then(w, n, f.depth, f.steps).log == n.log + UnwindAll(w, n.unwinding).log
  {
  }

  /** What a frame leaves on its own record after a turn. */
  lemma LaterRecord(w: World, f: Frame, s: Step, n: Next)
    requires f.depth <= w.maxDepth && Continues(n, f) && Turns(w, f, s, n)
    ensures var log := Then(w, n, f.depth, f.steps).log;
            var rest := if n.Go? then Loop(w, n.frame).log else [];
            && OwnVisits(f.path, log) == OwnVisits(f.path, rest)
            && OwnDiversions(f.path, log) == OwnDiversions(f.path, n.log) + OwnDiversions(f.path, rest)
  {
    ThenLog(w, n, f);
    TurnsQuiet(w, f, s, n);
    hide Loop, Then, UnwindAll, Turns, Continues;
    match n
    case Go(h, log) => OwnConcat(f.path, log, Loop(w, h).log);
    case Stop(_, _) =>
    case Unwind(u, log) =>
      OwnConcat(f.path, log, UnwindAll(w, u).log);
      assert u.frame == f by { assert Continues(n, f); UnwindFrame(n, f); }
      UnwindQuiet(w, u);
  }

  lemma UnwindFrame(n: Next, f: Frame)
    requires Continues(n, f) && n.Unwind?
    ensures n.unwinding.frame == f
  {
  }

  /** The record of a frame that visits a step: that step, then the record of the frame it goes on as. */
  lemma VisitRecord(w: World, f: Frame, g: Frame, s: Step) returns (n: Next)
    requires f.depth <= w.maxDepth && Top(w, f) == Visit(g, s)
    ensures Continues(n, g) && Turns(w, g, s, n)
    ensures n.Go? ==> OwnVisits(f.path, Loop(w, f).log) == [f.at] + OwnVisits(f.path, Loop(w, n.frame).log)
    ensures !n.Go? ==> OwnVisits(f.path, Loop(w, f).log) == [f.at]
    ensures OwnDiversions(f.path, Loop(w, f).log)
            == OwnDiversions(f.path, n.log) + if n.Go? then OwnDiversions(f.path, Loop(w, n.frame).log) else 0
  {
    var inner;
    n, inner := VisitSplits(w, f, g, s);
    LaterRecord(w, g, s, n);
    OwnSeen(f, s);
    hide Loop, Then, UnwindAll, Turns, Continues, OwnVisits, OwnDiversions, Seen;
    OwnConcat(f.path, Seen(f, s) + inner, Then(w, n, g.depth, g.steps).log);
    OwnConcat(f.path, Seen(f, s), inner);
    OwnNothing(f.path, []);
  }

  lemma OwnSeen(f: Frame, s: Step)
    ensures OwnVisits(f.path, Seen(f, s)) == [f.at] && OwnDiversions(f.path, Seen(f, s)) == 0
  {
    assert Seen(f, s)[1..] == [];
  }

  lemma TurnsQuiet(w: World, f: Frame, s: Step, n: Next)
    requires Turns(w, f, s, n)
    ensures OwnVisits(f.path, n.log) == []
  {
    OwnNothing(f.path, n.log);
  }

  // ----- Visits against the shape of the graph -----

  /** `visits` is a walk of steps of the frame's workflow that an edge of `g` continues to where the frame stands. */
  ghost predicate LeadsTo(g: Graph, visits: seq<string>, f: Frame)
  {
    && Walk(g, visits)
    && (forall n :: n in visits ==> n in f.wf.steps)
    && (visits != [] && f.at != "" ==> Edge(g, visits[|visits| - 1], f.at))
  }

  lemma LeadsOn(g: Graph, visits: seq<string>, f: Frame, h: Frame)
    requires LeadsTo(g, visits, f) && f.at != "" && f.at in f.wf.steps && h.wf == f.wf
    requires h.at != "" ==> Edge(g, f.at, h.at)
    ensures LeadsTo(g, visits + [f.at], h)
  {
    WalkExtends(g, visits, f.at);
  }

  /** An undiverted turn takes a success edge, a diverted one a fallback edge. */
  lemma TurnFollows(w: World, f: Frame, g: Graph, fallbacks: bool, s: Step, n: Next)
    requires Covers(g, w, f.wf, fallbacks) && f.at in f.wf.steps && s == f.wf.steps[f.at]
    requires n.Go? && n.frame.at != "" && TakesEdge(w, f, s, n)
    requires fallbacks || OwnDiversions(f.path, n.log) == 0
    ensures Edge(g, f.at, n.frame.at)
  {
    hide Edge, OwnDiversions, SuccessOf, FallbackOf;
  }

  lemma Onward(w: World, f: Frame, s: Step, n: Next)
    requires Continues(n, f) && n.Go? && TakesEdge(w, f, s, n)
    ensures OwnDiversions(f.path, n.log) <= 1
    ensures n.frame.path == f.path && n.frame.wf == f.wf && n.frame.depth == f.depth && n.frame.steps == f.steps
  {
  }

  lemma TopVisits(w: World, f: Frame)
    requires f.depth <= w.maxDepth
    ensures Top(w, f).Visit? ==> f.at != "" && f.at in f.wf.steps && Top(w, f).step == f.wf.steps[f.at]
    ensures !Top(w, f).Visit? ==> OwnVisits(f.path, Loop(w, f).log) == [] && OwnDiversions(f.path, Loop(w, f).log) == 0
  {
    if !Top(w, f).Visit? {
      OwnNothing(f.path, Loop(w, f).log);
    }
  }

  lemma {:induction false} LoopWalks(w: World, f: Frame, g: Graph, visits: seq<string>)
    requires f.depth <= w.maxDepth && Covers(g, w, f.wf, true) && LeadsTo(g, visits, f)
    ensures Walk(g, visits + OwnVisits(f.path, Loop(w, f).log))
    decreases w.maxSteps + 1 - f.steps
  {
    hide Loop, Covers, Top, OwnVisits, OwnDiversions, TakesEdge, Edge, Continues;
    TopVisits(w, f);
    if Top(w, f).Visit? {
      var v, s := Top(w, f).frame, Top(w, f).step;
      var n := VisitRecord(w, f, v, s);
      LeadsOn(g, visits, f, f.(at := ""));
      if n.Go? {
        Onward(w, v, s, n);
        if n.frame.at != "" {
          TurnFollows(w, v, g, true, s, n);
        }
        LeadsOn(g, visits, f, n.frame);
        LoopWalks(w, n.frame, g, visits + [f.at]);
        assert (visits + [f.at]) + OwnVisits(f.path, Loop(w, n.frame).log) == visits
               + OwnVisits(f.path, Loop(w, f).log);
      } else {
        assert visits + OwnVisits(f.path, Loop(w, f).log) == visits + [f.at];
      }
    } else {
      assert visits + [] == visits;
    }
  }

  lemma RunWalks(w: World, l: Launch, g: Graph)
    requires l.ref in w.workflows && Covers(g, w, w.workflows[l.ref], true)
    ensures Walk(g, OwnVisits(l.path, RunOf(w, l).log))
  {
    hide Loop;
    if Start(w, l).Begun? {
      var f := Start(w, l).frame;
      LoopWalks(w, f, g, []);
      assert [] + Loop(w, f).log == Loop(w, f).log;
      assert [] + OwnVisits(l.path, Loop(w, f).log) == OwnVisits(l.path, RunOf(w, l).log);
    } else {
      OwnNothing(l.path, RunOf(w, l).log);
    }
  }

  // ----- The same under every schedule -----

  /** The frame's record is all in its own events. */
  lemma {:induction false} OwnKept(path: Path, log: Log)
    ensures OwnVisits(path, Select(log, AtFrame(path))) == OwnVisits(path, log)
    ensures OwnDiversions(path, Select(log, AtFrame(path))) == OwnDiversions(path, log)
  {
    if log != [] {
      OwnKept(path, log[1..]);
      var kept, later := Select(log, AtFrame(path)), Select(log[1..], AtFrame(path));
      if log[0].at == path {
        assert kept == [log[0]] + later && kept[1..] == later;
      } else {
        assert kept == [] + later == later;
      }
    }
  }

  /** At every moment of every schedule the frame's record is that of a prefix of the sequential run. */
  lemma RecordsArePrefixes(w: World, l: Launch, cs: seq<Choice>) returns (k: nat)
    requires Follows(w, Starting(l), cs)
    ensures var t, r := Execute(w, Starting(l), cs), RunOf(w, l);
            && k <= |r.log|
            && OwnVisits(l.path, t.log) == OwnVisits(l.path, r.log[..k])
            && OwnDiversions(l.path, t.log) == OwnDiversions(l.path, r.log[..k])
  {
    hide Execute, Follows, Enabled, RunOf, OwnVisits, OwnDiversions, Select;
    k := FramesKeepTheirOrder(w, l, cs, l.path);
    OwnKept(l.path, Execute(w, Starting(l), cs).log);
    OwnKept(l.path, RunOf(w, l).log[..k]);
  }

  /** Where no walk over success and fallback edges closes, a frame never visits a step twice. */
  lemma NoStepTwice(w: World, l: Launch, g: Graph, cs: seq<Choice>)
    requires l.ref in w.workflows && Covers(g, w, w.workflows[l.ref], true) && Acyclic(g)
    requires Follows(w, Starting(l), cs)
    ensures var visits := OwnVisits(l.path, Execute(w, Starting(l), cs).log); Walk(g, visits) && Distinct(visits)
  {
    hide Execute, Follows, Enabled, RunOf, OwnVisits, Covers, Acyclic;
    var k := RecordsArePrefixes(w, l, cs);
    var log := RunOf(w, l).log;
    RunWalks(w, l, g);
    assert log == log[..k] + log[k..];
    OwnConcat(l.path, log[..k], log[k..]);
    var visits := OwnVisits(l.path, log[..k]);
    WalkBegins(g, visits, OwnVisits(l.path, log[k..]));
    WalksAreSimple(g, visits);
  }

  lemma WalkBegins(g: Graph, p: seq<string>, q: seq<string>)
    requires Walk(g, p + q)
    ensures Walk(g, p)
  {
    forall i | 0 <= i < |p| - 1 ensures Edge(g, p[i], p[i + 1]) {
      assert Edge(g, (p + q)[i], (p + q)[i + 1]);
    }
  }

  // ----- Paying for every round -----

  /** At every point of the log: with `v` visits before it, there are no more visits than `c` and `size` for each
      diversion allow. */
  ghost predicate Paid(path: Path, log: Log, v: nat, c: nat, size: nat)
  {
    forall k: nat :: k <= |log| ==> PaidAt(path, log[..k], v, c, size)
  }

  ghost predicate PaidAt(path: Path, log: Log, v: nat, c: nat, size: nat)
  {
    v + |OwnVisits(path, log)| <= c + size * OwnDiversions(path, log)
  }

  lemma PaidConcat(path: Path, a: Log, b: Log, v: nat, c: nat, size: nat)
    requires Paid(path, a, v, c, size)
    requires Paid(path, b, v + |OwnVisits(path, a)|, c + size * OwnDiversions(path, a), size)
    ensures Paid(path, a + b, v, c, size)
  {
    hide OwnVisits, OwnDiversions;
    forall k: nat | k <= |a + b| ensures PaidAt(path, (a + b)[..k], v, c, size) {
      if k <= |a| {
        assert (a + b)[..k] == a[..k];
        assert PaidAt(path, a[..k], v, c, size);
      } else {
        var later := b[..k - |a|];
        assert (a + b)[..k] == a + later;
        assert PaidAt(path, later, v + |OwnVisits(path, a)|, c + size * OwnDiversions(path, a), size);
        OwnConcat(path, a, later);
        Distributes(size, OwnDiversions(path, a), OwnDiversions(path, later));
      }
    }
  }

  lemma Distributes(size: nat, a: nat, b: nat)
    ensures size * (a + b) == size * a + size * b
  {
  }

  /** A stretch with few visits is paid for by what is there at its start. */
  lemma FewVisits(path: Path, log: Log, v: nat, c: nat, size: nat)
    requires v + |OwnVisits(path, log)| <= c
    ensures Paid(path, log, v, c, size)
  {
    hide OwnVisits, OwnDiversions;
    forall k: nat | k <= |log| ensures PaidAt(path, log[..k], v, c, size) {
      assert log == log[..k] + log[k..];
      OwnConcat(path, log[..k], log[k..]);
      Distributes(size, OwnDiversions(path, log[..k]), 0);
    }
  }

  lemma PaidMore(path: Path, log: Log, v: nat, c: nat, v': nat, c': nat, size: nat)
    requires Paid(path, log, v, c, size) && v' - v <= c' - c
    ensures Paid(path, log, v', c', size)
  {
    hide OwnVisits, OwnDiversions;
    forall k: nat | k <= |log| ensures PaidAt(path, log[..k], v', c', size) {
      assert PaidAt(path, log[..k], v, c, size);
    }
  }

  /** `visits` are those since the last diversion. */
  lemma {:induction false} LoopPays(w: World, f: Frame, g: Graph, visits: seq<string>)
    requires f.depth <= w.maxDepth && Covers(g, w, f.wf, false) && Acyclic(g) && LeadsTo(g, visits, f)
    ensures Paid(f.path, Loop(w, f).log, |visits|, |f.wf.steps|, |f.wf.steps|)
    decreases w.maxSteps + 1 - f.steps, 0
  {
    hide Loop, Covers, Top, OwnVisits, OwnDiversions, TakesEdge, Edge, Paid, Then, Acyclic, Turns;
    TopVisits(w, f);
    var size := |f.wf.steps|;
    if Top(w, f).Visit? {
      var v, s := Top(w, f).frame, Top(w, f).step;
      var n, inner := VisitSplits(w, f, v, s);
      LeadsOn(g, visits, f, f.(at := ""));
      WalksAreShort(g, visits + [f.at], f.wf.steps.Keys);
      OwnSeen(f, s);
      OwnConcat(f.path, Seen(f, s), inner);
      var head, rest := Seen(f, s) + inner, Then(w, n, v.depth, v.steps).log;
      FewVisits(f.path, head, |visits|, size, size);
      TurnPays(w, f, v, g, visits, s, n);
      Distributes(size, OwnDiversions(f.path, Seen(f, s)), OwnDiversions(f.path, inner));
      PaidConcat(f.path, head, rest, |visits|, size, size);
    } else {
      WalksAreShort(g, visits, f.wf.steps.Keys);
      FewVisits(f.path, Loop(w, f).log, |visits|, size, size);
    }
  }

  /** After the visit: an undiverted turn goes on with the same walk, a diverted one pays for a new one. */
  lemma {:induction false} TurnPays(w: World, f: Frame, v: Frame, g: Graph, visits: seq<string>, s: Step, n: Next)
    requires f.depth <= w.maxDepth && Covers(g, w, f.wf, false) && Acyclic(g) && LeadsTo(g, visits, f)
    requires Top(w, f) == Visit(v, s) && f.at != "" && f.at in f.wf.steps && s == f.wf.steps[f.at]
    requires Continues(n, v) && Turns(w, v, s, n) && |visits| + 1 <= |f.wf.steps|
    ensures Paid(f.path, Then(w, n, v.depth, v.steps).log, |visits| + 1, |f.wf.steps|, |f.wf.steps|)
    decreases w.maxSteps + 1 - v.steps, 1
  {
    hide Loop, Covers, OwnVisits, OwnDiversions, Edge, Paid, Then, UnwindAll, Acyclic;
    var size := |f.wf.steps|;
    ThenLog(w, n, v);
    TurnsQuiet(w, v, s, n);
    if n.Go? {
      Onward(w, v, s, n);
      var h := n.frame;
      if OwnDiversions(f.path, n.log) == 0 {
        if h.at != "" {
          TurnFollows(w, v, g, false, s, n);
        }
        LeadsOn(g, visits, f, h);
        LoopPays(w, h, g, visits + [f.at]);
      } else {
        LoopPays(w, h, g, []);
        PaidMore(f.path, Loop(w, h).log, 0, size, |visits| + 1, size + size, size);
      }
      FewVisits(f.path, n.log, |visits| + 1, size, size);
      PaidConcat(f.path, n.log, Loop(w, h).log, |visits| + 1, size, size);
    } else if n.Unwind? {
      UnwindQuiet(w, n.unwinding);
      OwnConcat(f.path, n.log, UnwindAll(w, n.unwinding).log);
      FewVisits(f.path, Then(w, n, v.depth, v.steps).log, |visits| + 1, size, size);
    } else {
      FewVisits(f.path, n.log, |visits| + 1, size, size);
    }
  }

  lemma RunPays(w: World, l: Launch, g: Graph)
    requires l.ref in w.workflows && Covers(g, w, w.workflows[l.ref], false) && Acyclic(g)
    ensures var size := |w.workflows[l.ref].steps|; Paid(l.path, RunOf(w, l).log, 0, size, size)
  {
    hide Loop, Paid;
    var size := |w.workflows[l.ref].steps|;
    if Start(w, l).Begun? {
      var f := Start(w, l).frame;
      LoopPays(w, f, g, []);
      assert [] + Loop(w, f).log == Loop(w, f).log;
    } else {
      OwnNothing(l.path, RunOf(w, l).log);
      FewVisits(l.path, RunOf(w, l).log, 0, size, size);
    }
  }

  /** Where only the success edges are without closed walks, a frame over n steps that has made k visits has been
      diverted to a fallback at least k/n - 1 times, at every moment of every schedule. */
  lemma LongRunsAreDiverted(w: World, l: Launch, g: Graph, cs: seq<Choice>)
    requires l.ref in w.workflows && Covers(g, w, w.workflows[l.ref], false) && Acyclic(g)
    requires Follows(w, Starting(l), cs)
    ensures var log := Execute(w, Starting(l), cs).log;
            |OwnVisits(l.path, log)| <= |w.workflows[l.ref].steps| * (OwnDiversions(l.path, log) + 1)
  {
    hide Execute, Follows, Enabled, RunOf, OwnVisits, OwnDiversions, Covers, Acyclic;
    var k := RecordsArePrefixes(w, l, cs);
    RunPays(w, l, g);
    var size := |w.workflows[l.ref].steps|;
    assert PaidAt(l.path, RunOf(w, l).log[..k], 0, size, size);
    Distributes(size, OwnDiversions(l.path, RunOf(w, l).log[..k]), 1);
  }
}
