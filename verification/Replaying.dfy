/** Running a recorded run again from its recording: the same run, whatever the two schedules. */
module Replaying {
  import opened Basics
  import opened Values
  import opened Join
  import opened Workflows
  import opened BigStep
  import opened Machine
  import opened Interleaving
  import opened Paths
  import opened Queues
  import opened Replay
  import C = Compare

  /** A run in progress, and the player that answers its probes. */
  datatype Playing = Playing(machine: Machine, byRef: QueueTable, unmatched: seq<string>)

  /** How the player would answer right now. */
  function AnswerNow(byRef: QueueTable): Prober
  {
    (at: Path, ref: string, domain: string, ctx: Context) => AnswerOf(byRef, ref)
  }

  function WorldNow(w: World, byRef: QueueTable): World
  {
    w.(sandbox := Some(AnswerNow(byRef)))
  }

  /** The queues after the questions of a log. */
  function PopAll(byRef: QueueTable, log: Log): QueueTable
  {
    if log == [] then byRef
    else PopAll(if log[0].what.ProbeAsked? then Pop(byRef, log[0].what.ref) else byRef, log[1..])
  }

  /** The questions the queues had no answer for. */
  function NotFound(byRef: QueueTable, log: Log): seq<string>
  {
    if log == [] then []
    else
      (if log[0].what.ProbeAsked? && Held(byRef, log[0].what.ref) == [] then [log[0].what.ref] else [])
      + NotFound(byRef, log[1..])
  }

  ghost predicate CanPlay(w: World, p: Playing, c: Choice)
  {
    WellFormed(WorldNow(w, p.byRef), p.machine) && Enabled(WorldNow(w, p.byRef), p.machine, c)
  }

  ghost function PlayStep(w: World, p: Playing, c: Choice): Playing
    requires CanPlay(w, p, c)
  {
    var t := StepBy(WorldNow(w, p.byRef), p.machine, c);
    Playing(t.machine, PopAll(p.byRef, t.log), p.unmatched + NotFound(p.byRef, t.log))
  }

  ghost predicate Plays(w: World, p: Playing, cs: seq<Choice>)
    decreases |cs|
  {
    cs == [] || (CanPlay(w, p, cs[0]) && Plays(w, PlayStep(w, p, cs[0]), cs[1..]))
  }

  ghost function PlayAll(w: World, p: Playing, cs: seq<Choice>): Playing
    requires Plays(w, p, cs)
    decreases |cs|
  {
    if cs == [] then p else PlayAll(w, PlayStep(w, p, cs[0]), cs[1..])
  }

  // ----- The sandbox is only consulted at a probe -----

  /** Both worlds hold the same tables. */
  ghost predicate SameTables(w: World, w': World)
  {
    && w.workflows == w'.workflows && w.policies == w'.policies && w.hasStore == w'.hasStore
    && w.maxSteps == w'.maxSteps && w.maxDepth == w'.maxDepth && w.text == w'.text
  }

  lemma {:induction false} WellFormedSame(w: World, w': World, m: Machine)
    requires w.maxDepth == w'.maxDepth
    ensures WellFormed(w, m) == WellFormed(w', m)
    decreases m
  {
    match m
    case Waiting(_, _, sub) => WellFormedSame(w, w', sub);
    case Fanned(_, _, bs) =>
      forall i | 0 <= i < |bs| ensures WellFormed(w, bs[i]) == WellFormed(w', bs[i]) {
        WellFormedSame(w, w', bs[i]);
      }
    case _ =>
  }

  lemma {:induction false} EnabledSame(w: World, w': World, m: Machine, c: Choice)
    requires w.maxDepth == w'.maxDepth && WellFormed(w, m) && WellFormed(w', m)
    ensures Enabled(w, m, c) == Enabled(w', m, c)
    decreases m
  {
    match m
    case Waiting(_, _, sub) => EnabledSame(w, w', sub, c);
    case Fanned(_, _, bs) =>
      if !AllHalted(bs) && c.route != [] && c.route[0] < |bs| {
        EnabledSame(w, w', bs[c.route[0]], Down(c));
      }
    case _ =>
  }

  lemma JoinTurnSame(w: World, w': World, f: Frame, s: Step, outs: seq<Outcome>, k: string)
    requires SameTables(w, w') && s.Parallel? && |outs| == |s.branches| && MayName(JoinOf(f, s, outs), k)
    ensures AfterBranches(w, f, s, outs, k) == AfterBranches(w', f, s, outs, k)
  {
    FailuresSame(w, w', s.branches, Recover(s, outs));
    hide Failures, PanicLog;
  }

  lemma TurnsSame(w: World, w': World, f: Frame, s: Step, out: Outcome, u: Unwinding)
    requires SameTables(w, w')
    ensures s.Leaf? ==> Act(w, f, s) == Act(w', f, s)
    ensures s.Composite? ==> AfterSub(w, f, s, out) == AfterSub(w', f, s, out)
    ensures UnwindOne(w, u) == UnwindOne(w', u)
  {
  }

  /** The gate is the same if the question it asks, if any, gets the same answer. */
  lemma GateSame(w: World, w': World, f: Frame, s: Step)
    requires SameTables(w, w') && s.Leaf? && (s.probeRef == "" || (w.sandbox.Some? && w'.sandbox.Some?))
    requires s.probeRef != "" ==>
               w.sandbox.value(Point(f), s.probeRef, f.wf.domain, f.ctx)
                 == w'.sandbox.value(Point(f), s.probeRef, f.wf.domain, f.ctx)
    ensures Gated(w, f, s) == Gated(w', f, s)
  {
  }

  /** Every question of the log would now be answered as it was. */
  ghost predicate AnswersAs(byRef: QueueTable, log: Log)
  {
    forall e :: e in log && e.what.ProbeAsked? ==> AnswerOf(byRef, e.what.ref) == e.what.verdict
  }

  lemma VisitSame(w: World, byRef: QueueTable, f: Frame, g: Frame, s: Step)
    requires w.sandbox.Some? && Top(w, f) == Visit(g, s) && AnswersAs(byRef, VisitStep(w, f, g, s).log)
    ensures VisitStep(w, f, g, s) == VisitStep(WorldNow(w, byRef), f, g, s)
  {
    var w' := WorldNow(w, byRef);
    if s.Leaf? && s.probeRef != "" {
      var v := w.sandbox.value(Point(g), s.probeRef, g.wf.domain, g.ctx);
      var log := VisitStep(w, f, g, s).log;
      AskIsLogged(w, f, g, s);
      assert AnswerOf(byRef, s.probeRef) == v;
      GateSame(w, w', g, s);
    }
  }

  lemma AskIsLogged(w: World, f: Frame, g: Frame, s: Step)
    requires w.sandbox.Some? && s.Leaf? && s.probeRef != ""
    ensures var v := w.sandbox.value(Point(g), s.probeRef, g.wf.domain, g.ctx);
            Say(g, ProbeAsked(s.probeRef, v)) in VisitStep(w, f, g, s).log
  {
    hide OnFailure;
    var v := w.sandbox.value(Point(g), s.probeRef, g.wf.domain, g.ctx);
    var log := [Say(g, ProbeObserved(s.id)), Say(g, ProbeAsked(s.probeRef, v)),
                Say(g, ProbeOutcome(s.id, Refusal(v).None?))];
    assert log[1] in log;
  }

  /** A player that would answer this step's question as it was answered takes the same step. */
  lemma {:induction false} StepSame(w: World, byRef: QueueTable, m: Machine, c: Choice)
    requires w.sandbox.Some? && WellFormed(w, m) && Enabled(w, m, c) && AnswersAs(byRef, StepBy(w, m, c).log)
    ensures var w' := WorldNow(w, byRef);
            WellFormed(w', m) && Enabled(w', m, c) && StepBy(w', m, c) == StepBy(w, m, c)
    decreases m
  {
    hide Act, AfterSub, AfterBranches, UnwindOne, VisitStep;
    var w' := WorldNow(w, byRef);
    WellFormedSame(w, w', m);
    EnabledSame(w, w', m, c);
    match m
    case Starting(_) =>
    case Running(f) =>
      assert Top(w', f) == Top(w, f);
      if Top(w, f).Visit? {
        VisitSame(w, byRef, f, Top(w, f).frame, Top(w, f).step);
      }
    case Acting(f, s) => TurnsSame(w, w', f, s, Panicked(""), Unwinding(f, "", "", [], map[], [], []));
    case Waiting(f, s, sub) =>
      if sub.Halted? {
        TurnsSame(w, w', f, s, sub.out, Unwinding(f, "", "", [], map[], [], []));
      } else {
        StepSame(w, byRef, sub, c);
      }
    case Fanned(f, s, bs) =>
      if AllHalted(bs) {
        JoinTurnSame(w, w', f, s, Results(bs), c.field);
      } else {
        StepSame(w, byRef, bs[c.route[0]], Down(c));
      }
    case Undoing(u) => TurnsSame(w, w', u.frame, Foreign("", ""), Panicked(""), u);
  }

  // ----- A step asks at most one question -----

  ghost predicate AsksNothing(log: Log)
  {
    forall e :: e in log ==> !e.what.ProbeAsked?
  }

  /** The only question of the log is the one at `i`. */
  ghost predicate AsksAt(log: Log, i: nat)
  {
    i < |log| && log[i].what.ProbeAsked? && forall j :: 0 <= j < |log| && j != i ==> !log[j].what.ProbeAsked?
  }

  ghost predicate AsksOnce(log: Log)
  {
    AsksNothing(log) || exists i: nat :: AsksAt(log, i)
  }

  lemma FailureAsksNothing(w: World, f: Frame, s: Step, reason: string)
    ensures AsksNothing(OnFailure(w, f, s, reason).log)
  {
  }

  lemma LeafAsksOnce(w: World, f: Frame, g: Frame, s: Step)
    requires s.Leaf?
    ensures AsksOnce(VisitStep(w, f, g, s).log)
  {
    hide OnFailure;
    var log := VisitStep(w, f, g, s).log;
    if s.probeRef != "" && w.sandbox.Some? {
      var v := w.sandbox.value(Point(g), s.probeRef, g.wf.domain, g.ctx);
      if Refusal(v).Some? {
        var tail := OnFailure(w, g, s, Refusal(v).value).log;
        FailureAsksNothing(w, g, s, Refusal(v).value);
        assert forall j :: 4 <= j < |log| ==> log[j] == tail[j - 4];
      }
      assert AsksAt(log, 2);
    } else {
      assert AsksNothing(log);
    }
  }

  lemma {:induction false} PanicLogAsksNothing(f: Frame, outs: seq<Outcome>, i: nat)
    requires i <= |outs|
    ensures AsksNothing(PanicLog(f, outs, i))
    decreases |outs| - i
  {
    if i < |outs| {
      PanicLogAsksNothing(f, outs, i + 1);
    }
  }

  lemma JoinAsksNothing(w: World, f: Frame, s: Step, outs: seq<Outcome>, k: string)
    requires s.Parallel? && |outs| == |s.branches| && MayName(JoinOf(f, s, outs), k)
    ensures AsksNothing(AfterBranches(w, f, s, outs, k).log)
  {
    hide PanicLog, Resolve, JoinOf, Failures, Traces, RivalsOf;
    PanicLogAsksNothing(f, outs, 0);
    ResolveShape(w, f, s, outs, k);
  }

  lemma TurnsAskNothing(w: World, f: Frame, s: Step, out: Outcome, u: Unwinding)
    ensures s.Leaf? ==> AsksNothing(Act(w, f, s).log)
    ensures s.Composite? ==> AsksNothing(AfterSub(w, f, s, out).log)
    ensures AsksNothing(UnwindOne(w, u).log)
  {
  }

  lemma {:induction false} StepAsksOnce(w: World, m: Machine, c: Choice)
    requires WellFormed(w, m) && Enabled(w, m, c)
    ensures AsksOnce(StepBy(w, m, c).log)
    decreases m
  {
    hide Act, AfterSub, AfterBranches, UnwindOne, VisitStep;
    match m
    case Starting(_) =>
    case Running(f) =>
      if Top(w, f).Visit? {
        VisitAsksOnce(w, f, Top(w, f).frame, Top(w, f).step);
      }
    case Acting(f, s) => TurnsAskNothing(w, f, s, Panicked(""), Unwinding(f, "", "", [], map[], [], []));
    case Waiting(f, s, sub) =>
      if sub.Halted? {
        TurnsAskNothing(w, f, s, sub.out, Unwinding(f, "", "", [], map[], [], []));
      } else {
        StepAsksOnce(w, sub, c);
      }
    case Fanned(f, s, bs) =>
      if AllHalted(bs) {
        JoinAsksNothing(w, f, s, Results(bs), c.field);
      } else {
        StepAsksOnce(w, bs[c.route[0]], Down(c));
      }
    case Undoing(u) => TurnsAskNothing(w, u.frame, Foreign("", ""), Panicked(""), u);
  }

  lemma VisitAsksOnce(w: World, f: Frame, g: Frame, s: Step)
    ensures AsksOnce(VisitStep(w, f, g, s).log)
  {
    if s.Leaf? {
      LeafAsksOnce(w, f, g, s);
    }
  }

  lemma {:induction false} NothingAsked(byRef: QueueTable, log: Log, r: string)
    requires AsksNothing(log)
    ensures PopAll(byRef, log) == byRef && NotFound(byRef, log) == [] && Asked(log, r) == []
  {
    if log != [] {
      NothingAsked(byRef, log[1..], r);
    }
  }

  lemma {:induction false} OneAsked(byRef: QueueTable, log: Log, i: nat, r: string)
    requires AsksAt(log, i)
    ensures PopAll(byRef, log) == Pop(byRef, log[i].what.ref)
    ensures NotFound(byRef, log) == if Held(byRef, log[i].what.ref) == [] then [log[i].what.ref] else []
    ensures Asked(log, r) == if r == log[i].what.ref then [log[i].what.verdict] else []
    decreases i
  {
    var rest := log[1..];
    assert forall j :: 0 <= j < |rest| ==> rest[j] == log[j + 1];
    if i == 0 {
      NothingAsked(Pop(byRef, log[0].what.ref), rest, r);
      NothingAsked(byRef, rest, r);
    } else {
      assert !log[0].what.ProbeAsked?;
      OneAsked(byRef, rest, i - 1, r);
    }
  }

  // ----- Recordings of a run -----

  /** The recording holds the log's answers, one entry each, in order. */
  predicate Records(recs: seq<Recorded>, log: Log)
  {
    if log == [] then recs == []
    else if log[0].what.ProbeAsked? then
      recs != [] && recs[0] == RecordOf(log[0].what.ref, recs[0].domain, log[0].what.verdict)
        && Records(recs[1..], log[1..])
    else Records(recs, log[1..])
  }

  /** A recorder that keeps each answer as it comes keeps up with the run. */
  lemma {:induction false} RecorderKeepsUp(recs: seq<Replay.Recorded>, log: Log, e: Event, domain: string)
    requires Records(recs, log)
    ensures Records(if e.what.ProbeAsked? then recs + [RecordOf(e.what.ref, domain, e.what.verdict)] else recs,
                    log + [e])
  {
    if log == [] {
      assert log + [e] == [e] && [e][1..] == [];
    } else {
      assert (log + [e])[1..] == log[1..] + [e];
      if log[0].what.ProbeAsked? {
        RecorderKeepsUp(recs[1..], log[1..], e, domain);
        assert e.what.ProbeAsked? ==>
          (recs + [RecordOf(e.what.ref, domain, e.what.verdict)])[1..] == recs[1..]
            + [RecordOf(e.what.ref, domain, e.what.verdict)];
      } else {
        RecorderKeepsUp(recs, log[1..], e, domain);
      }
    }
  }

  /** Every error a probe answered with has a text. */
  ghost predicate ErrorsHaveText(log: Log)
  {
    forall e :: e in log && e.what.ProbeAsked? ==> e.what.verdict.err != Some("")
  }

  function Verdicts(recs: seq<Recorded>): (vs: seq<ProbeVerdict>)
    ensures |vs| == |recs|
  {
    seq(|recs|, i requires 0 <= i < |recs| => PlayedBack(recs[i]))
  }

  /** What was recorded on a reference plays back as what the run was answered. */
  lemma {:induction false} RecordsPlayBack(recs: seq<Recorded>, log: Log, r: string)
    requires Records(recs, log) && ErrorsHaveText(log)
    ensures Verdicts(On(recs, r)) == Asked(log, r)
    decreases |log|
  {
    if log != [] {
      if log[0].what.ProbeAsked? {
        RecordedFaithfully(log[0].what.ref, recs[0].domain, log[0].what.verdict);
        RecordsPlayBack(recs[1..], log[1..], r);
        assert recs == [recs[0]] + recs[1..];
        var later := On(recs[1..], r);
        assert On(recs, r) == (if recs[0].ref == r then [recs[0]] else []) + later;
        assert Verdicts([recs[0]] + later) == [PlayedBack(recs[0])] + Verdicts(later);
      } else {
        RecordsPlayBack(recs, log[1..], r);
      }
    }
  }

  // ----- In step -----

  /** On each reference the answers still to come are the last ones recorded, and the queue starts with them. */
  ghost predicate QueueReady(all: seq<Recorded>, rest: seq<ProbeVerdict>, queue: seq<Recorded>)
  {
    && |rest| <= |all| && Verdicts(all[|all| - |rest|..]) == rest
    && queue == Left(all, |all| - |rest|)
  }

  /** The replay is where the recorded run would be under the same schedule, with the right answers ahead of it. */
  ghost predicate InStep(w: World, recs: seq<Recorded>, m: Machine, p: Playing)
    requires WellFormed(w, m)
  {
    && p.machine == m && p.unmatched == []
    && forall r :: QueueReady(On(recs, r), Asked(Denote(w, m).log, r), Held(p.byRef, r))
  }

  lemma NextAnswer(all: seq<Recorded>, v: ProbeVerdict, rest: seq<ProbeVerdict>, byRef: QueueTable, r: string)
    requires QueueReady(all, [v] + rest, Held(byRef, r))
    ensures Held(byRef, r) != [] && AnswerOf(byRef, r) == v
    ensures QueueReady(all, rest, Held(Pop(byRef, r), r))
  {
    var k := |all| - |rest| - 1;
    assert Verdicts(all[k..]) == [v] + rest;
    assert all[k..][0] == all[k] && all[k..][1..] == all[k + 1..];
    assert Verdicts(all[k..])[0] == PlayedBack(all[k]);
    assert Verdicts(all[k + 1..]) == Verdicts(all[k..])[1..] == rest;
    PopLeft(byRef, r, all, k, r);
  }

  lemma StepInStep(w: World, recs: seq<Recorded>, m: Machine, p: Playing, c: Choice, path: Path)
    requires w.sandbox.Some? && WellFormed(w, m) && Placed(m, path) && |path| % 2 == 0
    requires AllSequential(Denote(w, m).log) && InStep(w, recs, m, p) && CanPlay(w, p, c)
    ensures Enabled(w, m, c)
    ensures var t := StepBy(w, m, c); WellFormed(w, t.machine) && InStep(w, recs, t.machine, PlayStep(w, p, c))
  {
    hide Denote, StepBy, Asked, AnswerOf, QueueReady, Placed, PopAll, NotFound, Pop, Held, On;
    WellFormedSame(w, WorldNow(w, p.byRef), m);
    EnabledSame(w, WorldNow(w, p.byRef), m, c);
    var t := StepBy(w, m, c);
    StepAsksOnce(w, m, c);
    StepLeaves(w, m, c);
    forall r ensures Asked(Denote(w, m).log, r) == Asked(t.log, r) + Asked(Denote(w, t.machine).log, r) {
      StepSplitsAsked(w, m, c, path, r);
    }
    if AsksNothing(t.log) {
      StepSame(w, p.byRef, m, c);
      NothingAsked(p.byRef, t.log, "");
      forall r ensures PopAll(p.byRef, t.log) == p.byRef && NotFound(p.byRef, t.log) == [] && Asked(t.log, r) == [] {
        NothingAsked(p.byRef, t.log, r);
      }
      forall r ensures QueueReady(On(recs, r), Asked(Denote(w, t.machine).log, r), Held(p.byRef, r)) {
        assert [] + Asked(Denote(w, t.machine).log, r) == Asked(Denote(w, t.machine).log, r);
      }
    } else {
      var i: nat :| AsksAt(t.log, i);
      AskInStep(w, recs, m, p, c, i);
    }
  }

  /** The one question of a step gets the answer it got. */
  lemma AskInStep(w: World, recs: seq<Recorded>, m: Machine, p: Playing, c: Choice, i: nat)
    requires w.sandbox.Some? && WellFormed(w, m) && Enabled(w, m, c) && InStep(w, recs, m, p) && CanPlay(w, p, c)
    requires AsksAt(StepBy(w, m, c).log, i) && WellFormed(w, StepBy(w, m, c).machine)
    requires var t := StepBy(w, m, c);
             forall r :: Asked(Denote(w, m).log, r) == Asked(t.log, r) + Asked(Denote(w, t.machine).log, r)
    ensures InStep(w, recs, StepBy(w, m, c).machine, PlayStep(w, p, c))
  {
    hide Denote, StepBy, Asked, AnswerOf, QueueReady, PopAll, NotFound, Pop, Held, On;
    var t := StepBy(w, m, c);
    var ref, v := t.log[i].what.ref, t.log[i].what.verdict;
    forall r ensures PopAll(p.byRef, t.log) == Pop(p.byRef, ref) && Asked(t.log, r) == (if r == ref then [v] else [])
                     && NotFound(p.byRef, t.log) == (if Held(p.byRef, ref) == [] then [ref] else []) {
      OneAsked(p.byRef, t.log, i, r);
    }
    NextAnswer(On(recs, ref), v, Asked(Denote(w, t.machine).log, ref), p.byRef, ref);
    assert AnswersAs(p.byRef, t.log);
    StepSame(w, p.byRef, m, c);
    forall r ensures QueueReady(On(recs, r), Asked(Denote(w, t.machine).log, r), Held(Pop(p.byRef, ref), r)) {
      if r != ref {
        OtherQueue(p.byRef, ref, r);
        assert [] + Asked(Denote(w, t.machine).log, r) == Asked(Denote(w, t.machine).log, r);
      }
    }
  }

  lemma OtherQueue(byRef: QueueTable, ref: string, other: string)
    requires other != ref
    ensures Held(Pop(byRef, ref), other) == Held(byRef, other)
  {
  }

  lemma {:induction false} PlayInStep(w: World, recs: seq<Recorded>, m: Machine, p: Playing, cs: seq<Choice>,
                                      path: Path)
    requires w.sandbox.Some? && WellFormed(w, m) && Placed(m, path) && |path| % 2 == 0
    requires AllSequential(Denote(w, m).log) && InStep(w, recs, m, p) && Plays(w, p, cs)
    ensures Follows(w, m, cs)
    ensures var t := Execute(w, m, cs); WellFormed(w, t.machine) && InStep(w, recs, t.machine, PlayAll(w, p, cs))
    decreases |cs|
  {
    hide Denote, StepBy, InStep, Placed, CanPlay, PlayStep, AllSequential, Under;
    if cs != [] {
      StepInStep(w, recs, m, p, cs[0], path);
      AllStaySequential(w, m, cs[0]);
      StepPlaced(w, m, cs[0], path);
      PlayInStep(w, recs, StepBy(w, m, cs[0]).machine, PlayStep(w, p, cs[0]), cs[1..], path);
    }
  }

  /** A finished run that was recorded, in whatever order its branches ran. */
  ghost predicate Recorded(w: World, l: Launch, cs: seq<Choice>, recs: seq<Recorded>)
  {
    && w.sandbox.Some? && |l.path| % 2 == 0 && Follows(w, Starting(l), cs)
    && var t := Execute(w, Starting(l), cs);
       t.machine.Halted? && Records(recs, t.log) && ErrorsHaveText(t.log) && AllSequential(t.log)
  }

  /** Record a run whose concurrent branches share no probe reference, and play it back under any schedule: the replay
      takes as many steps, finds an answer for every question, has on every queue exactly what the questions asked so
      far leave of the recording, and ends the same way, except that after a conflict over several fields it may name
      another one of them. */
  lemma RecordReplayIdentity(w: World, l: Launch, cs: seq<Choice>, recs: seq<Recorded>, byRef: QueueTable,
                             cs': seq<Choice>)
    requires Recorded(w, l, cs, recs) && QueuesOf(recs, byRef)
    requires Plays(w, Playing(Starting(l), byRef, []), cs')
    ensures Follows(w, Starting(l), cs')
    ensures var t, p := Execute(w, Starting(l), cs), PlayAll(w, Playing(Starting(l), byRef, []), cs');
            && p.unmatched == []
            && |cs'| <= |cs| && (p.machine.Halted? <==> |cs'| == |cs|)
            && (p.machine.Halted? ==> Agrees(t.machine.out, p.machine.out))
            && (p.machine.Halted? && !ManyFields(t.machine.out) ==> p.machine.out == t.machine.out)
            && (forall r :: Held(p.byRef, r) == Left(On(recs, r), |Asked(Execute(w, Starting(l), cs').log, r)|))
  {
    hide Execute, Follows, Plays, PlayAll, RunOf, Denote, Asked, AllSequential, Records, ErrorsHaveText, QueuesOf, On,
         Held, Left, Agrees, Enabled;
    var t, p := Execute(w, Starting(l), cs), Playing(Starting(l), byRef, []);
    SchedulingIsInvisible(w, l, cs);
    StartsInStep(w, l, cs, recs, byRef);
    PlayInStep(w, recs, Starting(l), p, cs', l.path);
    SchedulingIsInvisible(w, l, cs');
    var q := PlayAll(w, p, cs');
    var t' := Execute(w, Starting(l), cs');
    forall r ensures Held(q.byRef, r) == Left(On(recs, r), |Asked(t'.log, r)|) {
      SchedulesAskInOrder(w, Starting(l), cs', l.path, r);
      var rest := Asked(Denote(w, t'.machine).log, r);
      assert |On(recs, r)| == |Asked(Denote(w, Starting(l)).log, r)| == |Asked(t'.log, r) + rest|;
    }
    if q.machine.Halted? {
      AgreesBoth(RunOf(w, l).out, t.machine.out, t'.machine.out);
    }
  }

  lemma AgreesBoth(a: Outcome, b: Outcome, c: Outcome)
    requires Agrees(a, b) && Agrees(a, c)
    ensures Agrees(b, c) && (!ManyFields(b) ==> b == c)
  {
    if !ManyFields(b) {
      OneFieldAgrees(b, c);
    }
  }

  lemma StartsInStep(w: World, l: Launch, cs: seq<Choice>, recs: seq<Recorded>, byRef: QueueTable)
    requires Recorded(w, l, cs, recs) && QueuesOf(recs, byRef)
    ensures WellFormed(w, Starting(l)) && Placed(Starting(l), l.path) && AllSequential(Denote(w, Starting(l)).log)
    ensures InStep(w, recs, Starting(l), Playing(Starting(l), byRef, []))
    ensures forall r :: |Asked(Denote(w, Starting(l)).log, r)| == |On(recs, r)|
  {
    hide Execute, Follows, RunOf, Asked, AllSequential, Records, ErrorsHaveText, On, Agrees, Enabled;
    var t := Execute(w, Starting(l), cs);
    SchedulingIsInvisible(w, l, cs);
    assert forall e :: e in RunOf(w, l).log ==> e in multiset(t.log);
    AllSequentialPart(t.log, RunOf(w, l).log);
    forall r ensures QueueReady(On(recs, r), Asked(RunOf(w, l).log, r), Held(byRef, r))
                     && |Asked(RunOf(w, l).log, r)| == |On(recs, r)| {
      SchedulesAskInOrder(w, Starting(l), cs, l.path, r);
      NothingLeft(w, t.machine, r);
      RecordsPlayBack(recs, t.log, r);
      assert Asked(t.log, r) + [] == Asked(t.log, r);
      var all := On(recs, r);
      assert all[0..] == all;
    }
  }

  lemma NothingLeft(w: World, m: Machine, r: string)
    requires m.Halted?
    ensures Asked(Denote(w, m).log, r) == []
  {
  }

  /** So comparing the replay with its recording shows nothing. */
  lemma ReplayShowsNothing(w: World, l: Launch, cs: seq<Choice>, recs: seq<Replay.Recorded>, byRef: QueueTable,
                           cs': seq<Choice>,
                           pointer: string, pointer': string, diffs: seq<C.Difference>)
    requires Recorded(w, l, cs, recs) && QueuesOf(recs, byRef) && Plays(w, Playing(Starting(l), byRef, []), cs')
    requires pointer != "" && pointer' != ""
    requires var t, p := Execute(w, Starting(l), cs), PlayAll(w, Playing(Starting(l), byRef, []), cs');
             && p.machine.Halted? && !ManyFields(t.machine.out) && !t.machine.out.Panicked? && !p.machine.out.Panicked?
             && C.IsDiff(RecordingFrom(l.ref, l.ctx, recs, ResultWith(t.machine.out, pointer, w.text)),
                         ResultWith(p.machine.out, pointer', w.text), diffs)
    ensures diffs == []
  {
    hide Execute, Follows, Plays, PlayAll, QueuesOf, C.IsDiff, Records, ErrorsHaveText, AllSequential;
    RecordReplayIdentity(w, l, cs, recs, byRef, cs');
    var out := Execute(w, Starting(l), cs).machine.out;
    C.AgreeingShowNothing(RecordingFrom(l.ref, l.ctx, recs, ResultWith(out, pointer, w.text)),
                          ResultWith(out, pointer', w.text), diffs);
  }
}
