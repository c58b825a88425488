/** A composite step and a parallel step with that one branch mean the same exactly in the runs in which the step's
    sub-run never panics and never fails with an error the step's breaker absorbs. */
module OneBranch {
  import opened Basics
  import opened Values
  import opened Join
  import opened Workflows
  import opened BigStep
  import opened Interleaving
  import opened Growth
  import opened Panics
  import opened Paths

  function Widened(s: Step): Step
    requires s.Composite?
  {
    Parallel(s.id, [s.subRef], s.policyRef, s.onSuccess)
  }

  ghost predicate IsComposite(w: World, ref: string, key: string)
  {
    ref in w.workflows && key in w.workflows[ref].steps && w.workflows[ref].steps[key].Composite?
  }

  /** The tables with one composite step respelled. */
  ghost function Respelled(w: World, ref: string, key: string): World
    requires IsComposite(w, ref, key)
  {
    var wf := w.workflows[ref];
    w.(workflows := w.workflows[ref := wf.(steps := wf.steps[key := Widened(wf.steps[key])])])
  }

  /** The sub-run ended so that either spelling hands it on alike: completed, or with an error no breaker absorbs. */
  predicate HandsOn(out: Outcome)
  {
    !out.Panicked? && (out.Failed? ==> BypassesBreaker(out.error))
  }

  /** How far a frame's position is ahead of its depth; the same for all frames of a run. */
  function Offset(path: Path, depth: nat): int
  {
    |path| - 2 * depth
  }

  /** The run with this log came to the step with this frame. */
  ghost predicate Came(w: World, log: Log, offset: int, ref: string, key: string, f: Frame)
  {
    && f.ref == ref && f.at == key && FromTable(w, f) && f.depth <= w.maxDepth && Offset(f.path, f.depth) == offset
    && Say(f, Visited(ref, key, f.steps, f.ctx, false)) in log
  }

  /** Each time the run came to the step, the step's sub-run handed on. */
  ghost predicate AllHandOn(w: World, log: Log, offset: int, ref: string, key: string)
    requires IsComposite(w, ref, key)
  {
    forall f :: Came(w, log, offset, ref, key, f) ==> HandsOn(RunOf(w, SubLaunch(f, w.workflows[ref].steps[key])).out)
  }

  ghost function Twin(w': World, f: Frame): Frame
    requires f.ref in w'.workflows
  {
    f.(wf := w'.workflows[f.ref])
  }

  ghost function TwinNext(w': World, n: Next): Next
    requires n.Go? ==> n.frame.ref in w'.workflows
    requires n.Unwind? ==> n.unwinding.frame.ref in w'.workflows
  {
    match n
    case Go(f, log) => Go(Twin(w', f), log)
    case Stop(_, _) => n
    case Unwind(u, log) => Unwind(u.(frame := Twin(w', u.frame)), log)
  }

  // ----- Turns do not look at the table beyond the step they take -----

  lemma {:induction false} UnwindTwin(w: World, ref: string, key: string, u: Unwinding)
    requires IsComposite(w, ref, key) && FromTable(w, u.frame)
    ensures var w' := Respelled(w, ref, key); UnwindAll(w', u.(frame := Twin(w', u.frame))) == UnwindAll(w, u)
    decreases |u.left|
  {
    var w' := Respelled(w, ref, key);
    var u' := u.(frame := Twin(w', u.frame));
    if u.left != [] {
      var via := u.left[|u.left| - 1].via;
      assert Compensate(u'.frame.wf, via, u.ctx) == Compensate(u.frame.wf, via, u.ctx);
      if UnwindOne(w, u).Unwind? {
        UnwindTwin(w, ref, key, UnwindOne(w, u).unwinding);
      }
    }
  }

  lemma LeafTwin(w: World, ref: string, key: string, f: Frame, s: Step)
    requires IsComposite(w, ref, key) && FromTable(w, f) && s.Leaf?
    ensures var w' := Respelled(w, ref, key); var f' := Twin(w', f);
            && Act(w', f', s) == TwinNext(w', Act(w, f, s))
            && (var g := Gated(w, f, s); Gated(w', f', s) == if g.Shut? then Shut(TwinNext(w', g.next)) else g)
  {
    hide Under;
  }

  lemma SubTwin(w: World, ref: string, key: string, f: Frame, s: Step, out: Outcome)
    requires IsComposite(w, ref, key) && FromTable(w, f) && s.Composite?
    ensures var w' := Respelled(w, ref, key);
            && AfterSub(w', Twin(w', f), s, out) == TwinNext(w', AfterSub(w, f, s, out))
            && SubLaunch(Twin(w', f), s) == SubLaunch(f, s)
  {
  }

  lemma BranchesTwin(w: World, ref: string, key: string, f: Frame, s: Step, outs: seq<Outcome>)
    requires IsComposite(w, ref, key) && FromTable(w, f) && s.Parallel? && |outs| == |s.branches|
    ensures var w' := Respelled(w, ref, key);
            Harvest(w', Twin(w', f), s, outs) == TwinNext(w', Harvest(w, f, s, outs))
  {
    var w' := Respelled(w, ref, key);
    var f', rs := Twin(w', f), Recover(s, outs);
    hide Harvest, PanicLog, OnFailure, Failures, Traces, Respelled, JoinOf;
    PanicLogTwin(f, f', outs, 0);
    HarvestShape(w, f, s, outs);
    HarvestShape(w', f', s, outs);
    FailuresSame(w, w', s.branches, rs);
    SameJoin(f, f', s, outs);
    FailureTwin(w, ref, key, f, s, w.text(BranchesFailed(s.id, |s.branches|, Failures(w, s.branches, rs))));
  }

  lemma SameJoin(f: Frame, f': Frame, s: Step, outs: seq<Outcome>)
    requires s.Parallel? && |outs| == |s.branches| && f'.ctx == f.ctx
    ensures JoinOf(f', s, outs) == JoinOf(f, s, outs) && SomeField(f', s, outs) == SomeField(f, s, outs)
  {
  }

  lemma FailureTwin(w: World, ref: string, key: string, f: Frame, s: Step, reason: string)
    requires IsComposite(w, ref, key) && FromTable(w, f)
    ensures var w' := Respelled(w, ref, key);
            OnFailure(w', Twin(w', f), s, reason) == TwinNext(w', OnFailure(w, f, s, reason))
  {
  }

  lemma {:induction false} PanicLogTwin(f: Frame, f': Frame, outs: seq<Outcome>, i: nat)
    requires i <= |outs| && Point(f) == Point(f')
    ensures PanicLog(f, outs, i) == PanicLog(f', outs, i)
    decreases |outs| - i
  {
    if i < |outs| {
      PanicLogTwin(f, f', outs, i + 1);
    }
  }

  // ----- The respelled step itself -----

  lemma OneOutcome(w: World, f: Frame, s: Step, out: Outcome)
    requires s.Composite?
    ensures var rs, panics := Recover(Widened(s), [out]), PanicLog(f, [out], 0);
            && rs == [Recovered(Widened(s), 0, out)]
            && panics == (if out.Panicked? then [Event(Point(f) + [0], Raised(KPanicked))] else [])
            && Traces(rs) == TraceOf(rs[0]) && Outputs(rs) == [OutputOf(rs[0])]
            && (Failures(w, [s.subRef], rs) == [] <==> !rs[0].Failed?)
  {
    var rs := Recover(Widened(s), [out]);
    assert PanicLog(f, [out], 1) == [] && rs[1..] == [] && Traces([]) == [];
    assert Failures(w, [s.subRef][1..], rs[1..]) == [];
  }

  /** With the sub-run's end in hand, both spellings take the same turn exactly unless the sub-run panicked or failed
      with an error the breaker absorbs. */
  lemma RespelledTurn(w: World, ref: string, key: string, f: Frame, s: Step, out: Outcome)
    requires IsComposite(w, ref, key) && FromTable(w, f) && s.Composite?
    requires !out.Failed? && !out.Panicked? ==> f.ctx.Keys <= OutputOf(out).Keys
    ensures var w' := Respelled(w, ref, key);
            Harvest(w', Twin(w', f), Widened(s), [out]) == TwinNext(w', AfterSub(w, f, s, out)) <==> HandsOn(out)
  {
    hide Harvest, OnFailure, PanicLog, Failures, Traces, JoinOf;
    var w' := Respelled(w, ref, key);
    var f', p, ctx := Twin(w', f), Widened(s), OutputOf(out);
    HarvestShape(w', f', p, [out]);
    OneOutcome(w', f', s, out);
    if out.Failed? && !HandsOn(out) {
      FailureSays(w, f, s, w.text(out.error));
    } else if HandsOn(out) && !out.Failed? {
      OneDelta(f.ctx, p.branches, ctx);
      JoinIs(f', p, [out]);
      MergeOverKept(f.ctx, ctx);
    }
  }

  lemma JoinIs(f: Frame, s: Step, outs: seq<Outcome>)
    requires s.Parallel? && |outs| == |s.branches|
    ensures JoinOf(f, s, outs) == JoinAll(f.ctx, s.branches, Outputs(Recover(s, outs)))
  {
  }

  lemma FailureSays(w: World, f: Frame, s: Step, reason: string)
    ensures OnFailure(w, f, s, reason).log != [] && OnFailure(w, f, s, reason).log[0].what.BreakerObserved?
  {
  }

  lemma MergeOverKept(before: Context, after: Context)
    requires before.Keys <= after.Keys
    ensures Merge(before, after) == after
  {
  }

  lemma OneDelta(before: Context, branches: seq<string>, out: Context)
    requires |branches| == 1 && before.Keys <= out.Keys
    ensures JoinAll(before, branches, [out]) == Joined(out)
  {
    var delta := Delta(before, out);
    var ledger := Enter(map[], branches[0], delta);
    assert Deltas(before, [out]) == [delta];
    assert Clashes(map[], delta) == {};
    assert Written(ledger) == delta;
    MergeOfDelta(before, out);
    assert JoinFrom(before, branches, [delta], 1, ledger) == Joined(Merge(before, Written(ledger)));
  }

  // ----- Where the sub-run hands on, and where it does not -----

  lemma HandOnParts(w: World, a: Log, b: Log, offset: int, ref: string, key: string)
    requires IsComposite(w, ref, key)
    ensures AllHandOn(w, a + b, offset, ref, key)
       <==> AllHandOn(w, a, offset, ref, key) && AllHandOn(w, b, offset, ref, key)
  {
    hide RunOf, HandsOn;
    forall f ensures Came(w, a + b, offset, ref, key, f)
                     <==> Came(w, a, offset, ref, key, f) || Came(w, b, offset, ref, key, f) {
    }
  }

  lemma {:induction false} HandOnConcat(w: World, logs: seq<Log>, offset: int, ref: string, key: string)
    requires IsComposite(w, ref, key)
    ensures AllHandOn(w, Concat(logs), offset, ref, key)
       <==> forall i :: 0 <= i < |logs| ==> AllHandOn(w, logs[i], offset, ref, key)
  {
    hide AllHandOn;
    if logs == [] {
      SilentHandsOn(w, [], offset, ref, key);
    } else {
      HandOnConcat(w, logs[1..], offset, ref, key);
      HandOnParts(w, logs[0], Concat(logs[1..]), offset, ref, key);
      assert forall i :: 0 <= i < |logs[1..]| ==> logs[1..][i] == logs[i + 1];
      assert forall i :: 1 <= i < |logs| ==> logs[i] == logs[1..][i - 1];
    }
  }

  predicate Silent(log: Log)
  {
    forall e :: e in log ==> !e.what.Visited?
  }

  lemma SilentHandsOn(w: World, log: Log, offset: int, ref: string, key: string)
    requires IsComposite(w, ref, key) && Silent(log)
    ensures AllHandOn(w, log, offset, ref, key)
  {
    hide RunOf, HandsOn;
  }

  lemma {:induction false} UnwindSilent(w: World, u: Unwinding)
    ensures Silent(UnwindAll(w, u).log)
    decreases |u.left|
  {
    if UnwindOne(w, u).Unwind? {
      UnwindSilent(w, UnwindOne(w, u).unwinding);
    }
  }

  lemma LeafSilent(w: World, f: Frame, s: Step)
    requires s.Leaf?
    ensures Silent(Act(w, f, s).log)
    ensures var g := Gated(w, f, s); if g.Shut? then Silent(g.next.log) else Silent(g.log)
  {
    hide Under;
  }

  lemma SubSilent(w: World, f: Frame, s: Step, out: Outcome)
    requires s.Composite?
    ensures Silent(AfterSub(w, f, s, out).log)
  {
  }

  lemma {:induction false} PanicLogSilent(f: Frame, outs: seq<Outcome>, i: nat)
    requires i <= |outs|
    ensures forall e :: e in PanicLog(f, outs, i) ==> !e.what.Visited? && |e.at| == |Point(f)| + 1
    ensures (exists j :: i <= j < |outs| && outs[j].Panicked?) ==> PanicLog(f, outs, i) != []
    decreases |outs| - i
  {
    if i < |outs| {
      PanicLogSilent(f, outs, i + 1);
    }
  }

  lemma HarvestSilent(w: World, f: Frame, s: Step, outs: seq<Outcome>)
    requires s.Parallel? && |outs| == |s.branches|
    ensures Silent(Harvest(w, f, s, outs).log)
  {
    hide PanicLog, Harvest, Failures, Traces, JoinOf, RivalsOf, Under;
    HarvestShape(w, f, s, outs);
    PanicLogSilent(f, outs, 0);
  }

  /** Coming to a step is coming to the respelled one only in its own workflow and under its own key. */
  lemma SeenHandsOn(w: World, ref: string, key: string, f: Frame, g: Frame, s: Step)
    requires IsComposite(w, ref, key) && FromTable(w, f) && f.depth <= w.maxDepth && Top(w, f) == Visit(g, s)
    ensures AllHandOn(w, Seen(f, s), Offset(f.path, f.depth), ref, key)
       <==> f.ref == ref && f.at == key ==> HandsOn(RunOf(w, SubLaunch(g, s)).out)
  {
    hide RunOf, HandsOn;
    var log, offset := Seen(f, s), Offset(f.path, f.depth);
    forall h | Came(w, log, offset, ref, key, h)
      ensures f.ref == ref && f.at == key && SubLaunch(h, w.workflows[ref].steps[key]) == SubLaunch(g, s)
    {
    }
    if f.ref == ref && f.at == key {
      assert Came(w, log, offset, ref, key, g);
    }
  }

  // ----- How two runs come apart -----

  /** The logs agree up to a point where the respelled run does something, under `path`, that the other does not do
      next; if the other does nothing more at all, it has panicked. */
  ghost predicate Diverges(a: Run, b: Run, path: Path)
  {
    exists before, e, rest, rest' :: DivergesAt(a, b, path, before, e, rest, rest')
  }

  ghost predicate DivergesAt(a: Run, b: Run, path: Path, before: Log, e: Event, rest: Log, rest': Log)
  {
    && a.log == before + rest && b.log == before + ([e] + rest') && path <= e.at
    && (if rest == [] then path < e.at && a.out.Panicked? else rest[0] != e)
  }

  lemma DivergingDiffers(a: Run, b: Run, path: Path)
    requires Diverges(a, b, path)
    ensures a.log != b.log
  {
    var before, e, rest, rest' :| DivergesAt(a, b, path, before, e, rest, rest');
    assert a.log[|before|..] == rest && b.log[|before|..] == [e] + rest';
  }

  /** Parts of two longer runs come apart, so these do, unless what follows a panic could be what the other does. */
  lemma DivergesAround(a: Run, b: Run, inner: Path, x: Log, y: Log, y': Log, a': Run, b': Run, path: Path)
    requires Diverges(a, b, inner) && path <= inner
    requires a'.log == x + (a.log + y) && b'.log == x + (b.log + y')
    requires a.out.Panicked? ==> if y == [] then a'.out.Panicked? else !(inner < y[0].at)
    ensures Diverges(a', b', path)
  {
    var before, e, rest, rest' :| DivergesAt(a, b, inner, before, e, rest, rest');
    assert x + ((before + rest) + y) == (x + before) + (rest + y);
    assert x + ((before + ([e] + rest')) + y') == (x + before) + ([e] + (rest' + y'));
    assert DivergesAt(a', b', path, x + before, e, rest + y, rest' + y');
  }

  /** The respelled run is the same, or comes apart, depending on whether the sub-run always hands on. */
  ghost predicate Told(w: World, ref: string, key: string, path: Path, depth: nat, a: Run, b: Run)
    requires IsComposite(w, ref, key)
  {
    if AllHandOn(w, a.log, Offset(path, depth), ref, key) then b == a else Diverges(a, b, path)
  }

  /** What happened before was the same and handed on, so what follows decides. */
  lemma TurnTold(w: World, ref: string, key: string, path: Path, depth: nat, log: Log, ticks: nat, a: Run, b: Run)
    requires IsComposite(w, ref, key) && AllHandOn(w, log, Offset(path, depth), ref, key)
    requires Told(w, ref, key, path, depth, a, b)
    ensures Told(w, ref, key, path, depth, After(log, ticks, a), After(log, ticks, b))
  {
    hide AllHandOn, Diverges;
    HandOnParts(w, log, a.log, Offset(path, depth), ref, key);
    if !AllHandOn(w, a.log, Offset(path, depth), ref, key) {
      assert a.log + [] == a.log && b.log + [] == b.log;
      DivergesAround(a, b, path, log, [], [], After(log, ticks, a), After(log, ticks, b), path);
    }
  }

  /** A part that did not hand on decides for the whole. */
  lemma PartTold(w: World, ref: string, key: string, path: Path, depth: nat, x: Log, part: Log, y: Log, a: Run, b: Run)
    requires IsComposite(w, ref, key) && !AllHandOn(w, part, Offset(path, depth), ref, key)
    requires a.log == x + (part + y) && Diverges(a, b, path)
    ensures Told(w, ref, key, path, depth, a, b)
  {
    hide AllHandOn, Diverges;
    HandOnParts(w, part, y, Offset(path, depth), ref, key);
    HandOnParts(w, x, part + y, Offset(path, depth), ref, key);
  }

  /** So does a part that came apart. */
  lemma PartDiverges(w: World, ref: string, key: string, path: Path, depth: nat, inner: Path, x: Log, y: Log, y': Log,
                     part: Run, part': Run, a: Run, b: Run)
    requires IsComposite(w, ref, key) && !AllHandOn(w, part.log, Offset(path, depth), ref, key)
    requires Diverges(part, part', inner) && path <= inner
    requires a.log == x + (part.log + y) && b.log == x + (part'.log + y')
    requires part.out.Panicked? ==> if y == [] then a.out.Panicked? else !(inner < y[0].at)
    ensures Told(w, ref, key, path, depth, a, b)
  {
    hide AllHandOn, Diverges, Told;
    DivergesAround(part, part', inner, x, y, y', a, b, path);
    PartTold(w, ref, key, path, depth, x, part.log, y, a, b);
  }

  // ----- Whole runs -----

  lemma {:induction false} RunTwin(w: World, ref: string, key: string, l: Launch)
    requires IsComposite(w, ref, key)
    ensures Told(w, ref, key, l.path, l.depth, RunOf(w, l), RunOf(Respelled(w, ref, key), l))
    decreases w.maxDepth + 1 - l.depth, w.maxSteps + 2, 0
  {
    hide Loop, AllHandOn, Diverges, Told;
    var w' := Respelled(w, ref, key);
    match Start(w, l)
    case Rejected(e) =>
      assert RunOf(w', l) == RunOf(w, l);
      SilentHandsOn(w, RunOf(w, l).log, Offset(l.path, l.depth), ref, key);
      SameTold(w, ref, key, l.path, l.depth, RunOf(w, l));
    case Begun(f) =>
      LoopTwin(w, ref, key, f);
      assert Start(w', l) == Begun(Twin(w', f));
      SilentHandsOn(w, [], Offset(l.path, l.depth), ref, key);
      TurnTold(w, ref, key, l.path, l.depth, [], 1, Loop(w, f), Loop(w', Twin(w', f)));
  }

  lemma SameTold(w: World, ref: string, key: string, path: Path, depth: nat, a: Run)
    requires IsComposite(w, ref, key) && AllHandOn(w, a.log, Offset(path, depth), ref, key)
    ensures Told(w, ref, key, path, depth, a, a)
  {
  }

  lemma {:induction false} LoopTwin(w: World, ref: string, key: string, f: Frame)
    requires IsComposite(w, ref, key) && FromTable(w, f) && f.depth <= w.maxDepth
    ensures var w' := Respelled(w, ref, key);
            Told(w, ref, key, f.path, f.depth, Loop(w, f), Loop(w', Twin(w', f)))
    decreases w.maxDepth + 1 - f.depth, w.maxSteps + 1 - f.steps, 0
  {
    hide AllHandOn, Diverges, Told, RunOf, Then, Harvest, BranchRuns;
    var w' := Respelled(w, ref, key);
    var f' := Twin(w', f);
    if Top(w, f).Visit? {
      var g, s := Top(w, f).frame, Top(w, f).step;
      if f.ref == ref && f.at == key {
        assert Top(w', f') == Visit(Twin(w', g), Widened(s));
        RespelledVisitTwin(w, ref, key, f, g, s);
      } else {
        assert Top(w', f') == Visit(Twin(w', g), s);
        VisitTwin(w, ref, key, f, g, s);
      }
    } else {
      SilentHandsOn(w, Loop(w, f).log, Offset(f.path, f.depth), ref, key);
      SameTold(w, ref, key, f.path, f.depth, Loop(w, f));
    }
  }

  lemma {:induction false} ThenTwin(w: World, ref: string, key: string, n: Next, f: Frame)
    requires IsComposite(w, ref, key) && FromTable(w, f) && f.depth <= w.maxDepth && Continues(n, f) && Silent(n.log)
    ensures var w' := Respelled(w, ref, key);
            Told(w, ref, key, f.path, f.depth, Then(w, n, f.depth, f.steps),
                 Then(w', TwinNext(w', n), f.depth, f.steps))
    decreases w.maxDepth + 1 - f.depth, w.maxSteps + 1 - f.steps, 1
  {
    hide Loop, UnwindAll, AllHandOn, Diverges, Told;
    var w' := Respelled(w, ref, key);
    SilentHandsOn(w, n.log, Offset(f.path, f.depth), ref, key);
    match n
    case Go(g, log) =>
      LoopTwin(w, ref, key, g);
      TurnTold(w, ref, key, f.path, f.depth, log, 0, Loop(w, g), Loop(w', Twin(w', g)));
    case Stop(_, log) => SameTold(w, ref, key, f.path, f.depth, Then(w, n, f.depth, f.steps));
    case Unwind(u, log) =>
      UnwindTwin(w, ref, key, u);
      UnwindSilent(w, u);
      SilentHandsOn(w, log + UnwindAll(w, u).log, Offset(f.path, f.depth), ref, key);
      SameTold(w, ref, key, f.path, f.depth, Then(w, n, f.depth, f.steps));
  }

  /** A visit in which everything up to the turn was the same. */
  lemma {:induction false} SameVisitTwin(w: World, ref: string, key: string, f: Frame, g: Frame, s: Step, log: Log,
                                         ticks: nat, n: Next)
    requires IsComposite(w, ref, key) && FromTable(w, f) && f.depth <= w.maxDepth && Top(w, f) == Visit(g, s)
    requires AllHandOn(w, log, Offset(f.path, f.depth), ref, key) && Continues(n, g) && Silent(n.log)
    requires Loop(w, f) == After(log, ticks, Then(w, n, g.depth, g.steps))
    requires var w' := Respelled(w, ref, key);
             Loop(w', Twin(w', f)) == After(log, ticks, Then(w', TwinNext(w', n), g.depth, g.steps))
    ensures var w' := Respelled(w, ref, key);
            Told(w, ref, key, f.path, f.depth, Loop(w, f), Loop(w', Twin(w', f)))
    decreases w.maxDepth + 1 - f.depth, w.maxSteps + 1 - g.steps, 2
  {
    hide Loop, Then, AllHandOn, Diverges, Told;
    var w' := Respelled(w, ref, key);
    ThenTwin(w, ref, key, n, g);
    TurnTold(w, ref, key, f.path, f.depth, log, ticks, Then(w, n, g.depth, g.steps),
             Then(w', TwinNext(w', n), g.depth, g.steps));
  }

  lemma {:induction false} RespelledVisitTwin(w: World, ref: string, key: string, f: Frame, g: Frame, s: Step)
    requires IsComposite(w, ref, key) && FromTable(w, f) && f.depth <= w.maxDepth
    requires Top(w, f) == Visit(g, s) && f.ref == ref && f.at == key
    requires var w' := Respelled(w, ref, key); Top(w', Twin(w', f)) == Visit(Twin(w', g), Widened(s))
    ensures var w' := Respelled(w, ref, key);
            Told(w, ref, key, f.path, f.depth, Loop(w, f), Loop(w', Twin(w', f)))
    decreases w.maxDepth + 1 - f.depth, w.maxSteps + 1 - g.steps, 3
  {
    hide Loop, RunOf, BranchRuns, Harvest, Then, AfterSub, AllHandOn, HandsOn, Diverges, Told;
    var w' := Respelled(w, ref, key);
    var f', g', p, l := Twin(w', f), Twin(w', g), Widened(s), SubLaunch(g, s);
    LoopAtComposite(w, f, g, s);
    LoopAtParallel(w', f', g', p);
    RunTwin(w, ref, key, l);
    var sub, sub' := RunOf(w, l), RunOf(w', l);
    assert BranchLaunch(g', p, 0) == l;
    assert BranchRuns(w', g', p) == [sub'];
    OneRun(sub');
    var n, n' := AfterSub(w, g, s, sub.out), Harvest(w', g', p, [sub'.out]);
    var log, rest, rest' := Seen(f, s) + sub.log, Then(w, n, g.depth, g.steps), Then(w', n', g.depth, g.steps);
    SubSilent(w, g, s, sub.out);
    SeenHandsOn(w, ref, key, f, g, s);
    HandOnParts(w, Seen(f, s), sub.log, Offset(f.path, f.depth), ref, key);
    if !AllHandOn(w, sub.log, Offset(l.path, l.depth), ref, key) {
      SubDiverges(w, ref, key, f, g, s, sub, sub', rest'.log, Loop(w, f), Loop(w', f'));
    } else {
      assert sub' == sub by { ToldSame(w, ref, key, l.path, l.depth, sub, sub'); }
      RunKeeps(w, l);
      RespelledTurn(w, ref, key, g, s, sub.out);
      if HandsOn(sub.out) {
        SameVisitTwin(w, ref, key, f, g, s, log, 2 + sub.ticks, n);
      } else {
        RespelledSays(w', g', s, sub.out);
        ThenStarts(w', n', g.depth, g.steps);
        TurnDiverges(w, g, s, sub.out, log, rest'.log, Loop(w, f), Loop(w', f'));
        assert Loop(w, f).log == [] + (log + rest.log);
        PartTold(w, ref, key, f.path, f.depth, [], log, rest.log, Loop(w, f), Loop(w', f'));
      }
    }
  }

  lemma ToldSame(w: World, ref: string, key: string, path: Path, depth: nat, a: Run, b: Run)
    requires IsComposite(w, ref, key) && Told(w, ref, key, path, depth, a, b)
    ensures if AllHandOn(w, a.log, Offset(path, depth), ref, key) then b == a else Diverges(a, b, path)
  {
  }

  lemma OneRun(r: Run)
    ensures Outs([r]) == [r.out] && Concat(Logs([r])) == r.log && Ticks([r]) == r.ticks
  {
    assert Logs([r]) == [r.log];
    assert Concat([r.log]) == r.log + Concat([]) == r.log;
    assert Ticks([r]) == r.ticks + Ticks([]) == r.ticks;
  }

  /** A sub-run that came apart takes its frame with it: if it panicked, so did the frame. */
  lemma SubDiverges(w: World, ref: string, key: string, f: Frame, g: Frame, s: Step, sub: Run, sub': Run, tail: Log,
                    a: Run, b: Run)
    requires IsComposite(w, ref, key) && g.depth <= w.maxDepth && s.Composite?
    requires g.path == f.path && g.depth == f.depth
    requires !AllHandOn(w, sub.log, Offset(SubLaunch(g, s).path, SubLaunch(g, s).depth), ref, key)
    requires Told(w, ref, key, SubLaunch(g, s).path, SubLaunch(g, s).depth, sub, sub')
    requires a == After(Seen(f, s) + sub.log, 2 + sub.ticks, Then(w, AfterSub(w, g, s, sub.out), g.depth, g.steps))
    requires b.log == Seen(f, s) + sub'.log + tail
    ensures Told(w, ref, key, f.path, f.depth, a, b)
  {
    hide Loop, UnwindAll, AllHandOn, Diverges;
    var l, rest := SubLaunch(g, s), Then(w, AfterSub(w, g, s, sub.out), g.depth, g.steps);
    assert Offset(l.path, l.depth) == Offset(f.path, f.depth);
    assert a.log == Seen(f, s) + (sub.log + rest.log);
    assert b.log == Seen(f, s) + (sub'.log + tail);
    PartDiverges(w, ref, key, f.path, f.depth, l.path, Seen(f, s), rest.log, tail, sub, sub', a, b);
  }

  lemma ThenStarts(w: World, n: Next, depth: nat, steps: nat)
    requires depth <= w.maxDepth
    requires n.Go? ==> n.frame.depth == depth && n.frame.steps == steps
    ensures n.log <= Then(w, n, depth, steps).log
    ensures n.Stop? ==> Then(w, n, depth, steps) == Run(n.out, n.log, 0)
  {
    hide Loop, UnwindAll;
  }

  /** What the respelled step does first where the sub-run does not hand on: report the panic, or the failed branches.
      */
  function SaidFirst(f: Frame, out: Outcome): Event
  {
    if out.Panicked? then Event(Point(f) + [0], Raised(KPanicked)) else Say(f, Raised(KBranchesFailed))
  }

  lemma RespelledSays(w: World, f: Frame, s: Step, out: Outcome)
    requires s.Composite? && !HandsOn(out)
    ensures var log := Harvest(w, f, Widened(s), [out]).log; log != [] && log[0] == SaidFirst(f, out)
  {
    hide Harvest, OnFailure, PanicLog, Failures, Traces, JoinOf;
    HarvestShape(w, f, Widened(s), [out]);
    OneOutcome(w, f, s, out);
  }

  /** The turn itself comes apart where the sub-run does not hand on. */
  lemma TurnDiverges(w: World, f: Frame, s: Step, out: Outcome, log: Log, rest': Log, a: Run, b: Run)
    requires f.depth <= w.maxDepth && s.Composite? && !HandsOn(out)
    requires var rest := Then(w, AfterSub(w, f, s, out), f.depth, f.steps);
             a.out == rest.out && a.log == log + rest.log
    requires b.log == log + rest' && rest' != [] && rest'[0] == SaidFirst(f, out)
    ensures Diverges(a, b, f.path)
  {
    hide Then, OnFailure;
    var n, rest := AfterSub(w, f, s, out), Then(w, AfterSub(w, f, s, out), f.depth, f.steps).log;
    ThenStarts(w, n, f.depth, f.steps);
    if out.Failed? {
      FailureSays(w, f, s, w.text(out.error));
    }
    assert rest' == [rest'[0]] + rest'[1..];
    assert DivergesAt(a, b, f.path, log, rest'[0], rest, rest'[1..]);
  }

  lemma {:induction false} VisitTwin(w: World, ref: string, key: string, f: Frame, g: Frame, s: Step)
    requires IsComposite(w, ref, key) && FromTable(w, f) && f.depth <= w.maxDepth
    requires Top(w, f) == Visit(g, s) && !(f.ref == ref && f.at == key)
    requires var w' := Respelled(w, ref, key); Top(w', Twin(w', f)) == Visit(Twin(w', g), s)
    ensures var w' := Respelled(w, ref, key);
            Told(w, ref, key, f.path, f.depth, Loop(w, f), Loop(w', Twin(w', f)))
    decreases w.maxDepth + 1 - f.depth, w.maxSteps + 1 - g.steps, 4
  {
    hide Loop, RunOf, BranchRuns, Harvest, Then, AfterSub, Act, Gated, AllHandOn, HandsOn, Diverges, Told;
    var w' := Respelled(w, ref, key);
    var f', g', offset := Twin(w', f), Twin(w', g), Offset(f.path, f.depth);
    SeenHandsOn(w, ref, key, f, g, s);
    if s.Leaf? {
      LoopAtLeaf(w, f, g, s);
      LoopAtLeaf(w', f', g', s);
      LeafTwin(w, ref, key, g, s);
      LeafSilent(w, g, s);
      var gate := Gated(w, g, s);
      if gate.Shut? {
        SameVisitTwin(w, ref, key, f, g, s, Seen(f, s), 1, gate.next);
      } else {
        SilentHandsOn(w, gate.log, offset, ref, key);
        HandOnParts(w, Seen(f, s), gate.log, offset, ref, key);
        SameVisitTwin(w, ref, key, f, g, s, Seen(f, s) + gate.log, 2, Act(w, g, s));
      }
    } else if s.Composite? {
      LoopAtComposite(w, f, g, s);
      LoopAtComposite(w', f', g', s);
      var l := SubLaunch(g, s);
      var sub, sub' := RunOf(w, l), RunOf(w', l);
      RunTwin(w, ref, key, l);
      SubSilent(w, g, s, sub.out);
      HandOnParts(w, Seen(f, s), sub.log, offset, ref, key);
      SubTwin(w, ref, key, g, s, sub.out);
      if AllHandOn(w, sub.log, Offset(l.path, l.depth), ref, key) {
        ToldSame(w, ref, key, l.path, l.depth, sub, sub');
        SameVisitTwin(w, ref, key, f, g, s, Seen(f, s) + sub.log, 2 + sub.ticks, AfterSub(w, g, s, sub.out));
      } else {
        SubTwin(w, ref, key, g, s, sub'.out);
        var tail := Then(w', AfterSub(w', g', s, sub'.out), g.depth, g.steps).log;
        SubDiverges(w, ref, key, f, g, s, sub, sub', tail, Loop(w, f), Loop(w', f'));
      }
    } else if Unrunnable(s) {
      LoopAtUnrunnable(w, f, g, s);
      LoopAtUnrunnable(w', f', g', s);
      SameVisitTwin(w, ref, key, f, g, s, Seen(f, s), 1, Refuse(g, s));
    } else {
      FanOutTwin(w, ref, key, f, g, s);
    }
  }

  lemma {:induction false} FanOutTwin(w: World, ref: string, key: string, f: Frame, g: Frame, s: Step)
    requires IsComposite(w, ref, key) && FromTable(w, f) && f.depth <= w.maxDepth
    requires Top(w, f) == Visit(g, s) && s.Parallel? && s.branches != []
    requires var w' := Respelled(w, ref, key); Top(w', Twin(w', f)) == Visit(Twin(w', g), s)
    requires AllHandOn(w, Seen(f, s), Offset(f.path, f.depth), ref, key)
    ensures var w' := Respelled(w, ref, key);
            Told(w, ref, key, f.path, f.depth, Loop(w, f), Loop(w', Twin(w', f)))
    decreases w.maxDepth + 1 - f.depth, w.maxSteps + 1 - g.steps, 3
  {
    hide Loop, RunOf, BranchRuns, Harvest, Then, AllHandOn, HandsOn, Diverges, Told, Concat, Under;
    var w' := Respelled(w, ref, key);
    var f', g', offset := Twin(w', f), Twin(w', g), Offset(f.path, f.depth);
    LoopAtParallel(w, f, g, s);
    LoopAtParallel(w', f', g', s);
    var runs, runs' := BranchRuns(w, g, s), BranchRuns(w', g', s);
    forall i | 0 <= i < |runs| ensures BranchTold(w, ref, key, g, s, runs[i], runs'[i], i) {
      assert BranchLaunch(g', s, i) == BranchLaunch(g, s, i);
      RunTwin(w, ref, key, BranchLaunch(g, s, i));
      BranchToldBy(w, ref, key, g, s, runs[i], runs'[i], i);
    }
    var k := FirstApart(w, ref, key, offset, runs);
    if k == |runs| {
      assert forall i :: 0 <= i < |runs| ==> BranchTold(w, ref, key, g, s, runs[i], runs'[i], i) && runs'[i] == runs[i];
      assert runs' == runs;
      HandOnConcat(w, Logs(runs), offset, ref, key);
      HandOnParts(w, Seen(f, s), Concat(Logs(runs)), offset, ref, key);
      HarvestSilent(w, g, s, Outs(runs));
      BranchesTwin(w, ref, key, g, s, Outs(runs));
      SameVisitTwin(w, ref, key, f, g, s, Seen(f, s) + Concat(Logs(runs)), 2 + Ticks(runs),
                    Harvest(w, g, s, Outs(runs)));
    } else {
      forall i | 0 <= i < k ensures runs'[i] == runs[i] {
        assert BranchTold(w, ref, key, g, s, runs[i], runs'[i], i);
      }
      assert BranchTold(w, ref, key, g, s, runs[k], runs'[k], k);
      assert Logs(runs')[..k] == Logs(runs)[..k];
      var tail := Then(w', Harvest(w', g', s, Outs(runs')), g.depth, g.steps).log;
      BranchDiverges(w, ref, key, f, g, s, runs, runs', k, tail, Loop(w, f), Loop(w', f'));
    }
  }

  ghost predicate BranchTold(w: World, ref: string, key: string, f: Frame, s: Step, a: Run, b: Run, i: nat)
    requires IsComposite(w, ref, key)
  {
    if AllHandOn(w, a.log, Offset(f.path, f.depth), ref, key) then b == a else Diverges(a, b, Point(f) + [i])
  }

  lemma BranchToldBy(w: World, ref: string, key: string, f: Frame, s: Step, a: Run, b: Run, i: nat)
    requires IsComposite(w, ref, key) && s.Parallel? && i < |s.branches|
    requires var l := BranchLaunch(f, s, i); Told(w, ref, key, l.path, l.depth, a, b)
    ensures BranchTold(w, ref, key, f, s, a, b, i)
  {
    hide AllHandOn, Diverges;
    var l := BranchLaunch(f, s, i);
    assert Offset(l.path, l.depth) == Offset(f.path, f.depth);
  }

  /** The first branch in which some sub-run of the step did not hand on. */
  lemma FirstApart(w: World, ref: string, key: string, offset: int, runs: seq<Run>) returns (k: nat)
    requires IsComposite(w, ref, key)
    ensures k <= |runs| && (forall i :: 0 <= i < k ==> AllHandOn(w, runs[i].log, offset, ref, key))
    ensures k < |runs| ==> !AllHandOn(w, runs[k].log, offset, ref, key)
    decreases |runs|
  {
    hide AllHandOn;
    if runs == [] || !AllHandOn(w, runs[0].log, offset, ref, key) {
      k := 0;
    } else {
      var j := FirstApart(w, ref, key, offset, runs[1..]);
      k := j + 1;
      assert forall i :: 1 <= i < |runs| ==> runs[i] == runs[1..][i - 1];
    }
  }

  lemma {:induction false} ConcatAround(logs: seq<Log>, k: nat)
    requires k < |logs|
    ensures Concat(logs) == Concat(logs[..k]) + (logs[k] + Concat(logs[k + 1..]))
  {
    if k > 0 {
      ConcatAround(logs[1..], k - 1);
      assert logs[..k][1..] == logs[1..][..k - 1] && logs[k + 1..] == logs[1..][k..];
      assert logs[0] + (Concat(logs[1..][..k - 1]) + (logs[k] + Concat(logs[k + 1..])))
          == (logs[0] + Concat(logs[1..][..k - 1])) + (logs[k] + Concat(logs[k + 1..]));
    }
  }

  lemma LogsAround(seen: Log, logs: seq<Log>, k: nat, rest: Log)
    requires k < |logs|
    ensures seen + Concat(logs) + rest == (seen + Concat(logs[..k])) + (logs[k] + (Concat(logs[k + 1..]) + rest))
  {
    hide Concat;
    ConcatAround(logs, k);
  }

  /** After a branch that panicked the fan-out still has that to report, and nothing it does then is inside the branch.
      */
  lemma AfterPanickedBranch(w: World, f: Frame, s: Step, runs: seq<Run>, k: nat)
    requires f.depth <= w.maxDepth && s.Parallel? && runs == BranchRuns(w, f, s) && k < |runs| && runs[k].out.Panicked?
    ensures var y := Concat(Logs(runs)[k + 1..]) + Then(w, Harvest(w, f, s, Outs(runs)), f.depth, f.steps).log;
            y != [] && forall e :: e in y ==> !(Point(f) + [k] < e.at)
  {
    hide Loop, RunOf, BranchRuns, Harvest, Then, PanicLog;
    var outs, later: seq<Log> := Outs(runs), Logs(runs)[k + 1..];
    var n := Harvest(w, f, s, outs);
    assert Recover(s, outs)[k] == Failed(BranchPanicked(s.id, s.branches[k], outs[k].value));
    BypassedBranches(w, f, s, outs, SomeField(f, s, outs));
    HarvestShape(w, f, s, outs);
    ThenStarts(w, n, f.depth, f.steps);
    assert outs[k].Panicked?;
    PanicLogSilent(f, outs, 0);
    forall e: Event | e in Concat(later) ensures !(Point(f) + [k] < e.at) {
      ConcatMember(later, e);
      var j :| 0 <= j < |later| && e in later[j];
      assert later[j] == runs[k + 1 + j].log;
      RunUnder(w, BranchLaunch(f, s, k + 1 + j));
      assert Point(f) + [k + 1 + j] <= e.at;
      assert (Point(f) + [k])[|Point(f)|] == k && e.at[|Point(f)|] == k + 1 + j;
    }
  }

  lemma BranchDiverges(w: World, ref: string, key: string, f: Frame, g: Frame, s: Step, runs: seq<Run>, runs': seq<Run>,
                       k: nat, tail: Log, a: Run, b: Run)
    requires IsComposite(w, ref, key) && g.depth <= w.maxDepth && g.path == f.path && g.depth == f.depth && s.Parallel?
    requires runs == BranchRuns(w, g, s) && |runs'| == |runs| && k < |runs| && Logs(runs')[..k] == Logs(runs)[..k]
    requires !AllHandOn(w, runs[k].log, Offset(f.path, f.depth), ref, key)
    requires Diverges(runs[k], runs'[k], Point(g) + [k])
    requires a == After(Seen(f, s) + Concat(Logs(runs)), 2 + Ticks(runs),
                        Then(w, Harvest(w, g, s, Outs(runs)), g.depth, g.steps))
    requires b.log == Seen(f, s) + Concat(Logs(runs')) + tail
    ensures Told(w, ref, key, f.path, f.depth, a, b)
  {
    hide Loop, RunOf, BranchRuns, Harvest, Then, AllHandOn, Diverges, Told, Concat, Outs, Seen, Under;
    var logs, logs' := Logs(runs), Logs(runs');
    var rest := Then(w, Harvest(w, g, s, Outs(runs)), g.depth, g.steps).log;
    var x, y, y' := Seen(f, s) + Concat(logs[..k]), Concat(logs[k + 1..]) + rest, Concat(logs'[k + 1..]) + tail;
    LogsAround(Seen(f, s), logs, k, rest);
    LogsAround(Seen(f, s), logs', k, tail);
    if runs[k].out.Panicked? {
      AfterPanickedBranch(w, g, s, runs, k);
      assert y[0] in y;
    }
    PartDiverges(w, ref, key, f.path, f.depth, Point(g) + [k], x, y, y', runs[k], runs'[k], a, b);
  }

  /** Spelling one composite step of one workflow as a parallel step with that one branch changes nothing about a run
      (same outcome, same events, same number of turns) exactly when, each time the run comes to that step, the step's
      sub-run neither panics nor fails with an error the step's breaker absorbs; otherwise even the events differ. */
  lemma OneBranchIsComposite(w: World, ref: string, key: string, l: Launch)
    requires IsComposite(w, ref, key)
    ensures var a, b := RunOf(w, l), RunOf(Respelled(w, ref, key), l);
            && (b == a <==> AllHandOn(w, a.log, Offset(l.path, l.depth), ref, key))
            && (b != a ==> b.log != a.log)
  {
    hide RunOf, AllHandOn, Diverges;
    var a, b := RunOf(w, l), RunOf(Respelled(w, ref, key), l);
    RunTwin(w, ref, key, l);
    if !AllHandOn(w, a.log, Offset(l.path, l.depth), ref, key) {
      DivergingDiffers(a, b, l.path);
    }
  }
}
