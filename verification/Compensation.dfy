/** Compensation conservation: an abandoned frame handles each of its successful compensable steps once, in
    reverse, and says of each whether it was undone; any other frame unwinds nothing. */
module Compensation {
  import opened Basics
  import opened Values
  import opened Join
  import opened Workflows
  import opened BigStep
  import opened Machine
  import opened Interleaving
  import opened Paths
  import opened Projections

  /** One entry of the compensation log handled: the context its compensation was given and how that went. */
  datatype Handling = Handling(entry: Undoable, given: Context, attempt: Attempt)

  function LeftBy(h: Handling): Context
  {
    if h.attempt.Undone? then h.attempt.ctx else h.given
  }

  /** The unwinding was cut short: its last compensation panicked. */
  predicate Blew(hs: seq<Handling>)
  {
    hs != [] && hs[|hs| - 1].attempt.Blown?
  }

  /** What becomes of one entry. Its target is run if it is a leaf of the workflow, on the context it is given: an
      output undoes the step and is laid over that context, a failure is the reason it was not undone, a suspension
      counts as one, and a panic is passed on. A target that is missing or no leaf is not run. */
  ghost predicate Handled(wf: Workflow, h: Handling)
  {
    if h.entry.via !in wf.steps then h.attempt == NotUndone(MissingStep(wf.id, h.entry.via))
    else if !wf.steps[h.entry.via].Leaf? then h.attempt == NotUndone(NotALeaf)
    else
      match wf.steps[h.entry.via].run(h.given)
      case Output(fields) => h.attempt.Undone? && Overlaid(h.given, fields, h.attempt.ctx)
      case Failure(reason) => h.attempt == NotUndone(Refused(reason))
      case Suspended(reason, _) => h.attempt == NotUndone(Refused("workflow suspended: " + reason))
      case Panic(value) => h.attempt == Blown(value)
  }

  lemma CompensateHandles(wf: Workflow, entry: Undoable, given: Context)
    ensures Handled(wf, Handling(entry, given, Compensate(wf, entry.via, given)))
  {
  }

  /** Every entry once, last first, each compensation given the context the one before it left; only a panic in the
      last one handled leaves entries out. */
  ghost predicate IsUnwinding(wf: Workflow, done: seq<Undoable>, ctx: Context, hs: seq<Handling>)
  {
    && |hs| <= |done| && (|hs| < |done| ==> Blew(hs))
    && (forall i :: 0 <= i < |hs| ==>
          && hs[i].entry == done[|done| - 1 - i]
          && Handled(wf, hs[i]))
    && (forall i :: 0 <= i < |hs| - 1 ==> !hs[i].attempt.Blown?)
    && (hs != [] ==> hs[0].given == ctx)
    && (forall i :: 0 < i < |hs| ==> hs[i].given == LeftBy(hs[i - 1]))
  }

  function UndoneBy(h: Handling): seq<string>
  {
    if h.attempt.Undone? then [h.entry.step] else []
  }

  function NotUndoneBy(h: Handling): seq<UndoFailure>
  {
    if h.attempt.NotUndone? then [UndoFailure(h.entry.step, h.entry.via, h.attempt.why)] else []
  }

  function UndoneIn(hs: seq<Handling>): seq<string>
  {
    if hs == [] then [] else UndoneBy(hs[0]) + UndoneIn(hs[1..])
  }

  function NotUndoneIn(hs: seq<Handling>): seq<UndoFailure>
  {
    if hs == [] then [] else NotUndoneBy(hs[0]) + NotUndoneIn(hs[1..])
  }

  /** The compensations among these whose action ran. */
  function RanBy(h: Handling): seq<string>
  {
    if h.attempt.NotUndone? && !h.attempt.why.Refused? then [] else [h.entry.via]
  }

  function RanIn(hs: seq<Handling>): seq<string>
  {
    if hs == [] then [] else RanBy(hs[0]) + RanIn(hs[1..])
  }

  /** The error tells of every entry exactly once: `compensated` and `failures` are the two halves of `hs`, in order. */
  ghost predicate Tells(e: Error, hs: seq<Handling>)
  {
    e.CircuitBreakerTripped? && e.compensated == UndoneIn(hs) && e.failures == NotUndoneIn(hs)
  }

  /** Nothing handled is left out of the report or reported twice. */
  lemma {:induction false} ReportIsComplete(hs: seq<Handling>)
    requires forall i :: 0 <= i < |hs| ==> !hs[i].attempt.Blown?
    ensures |UndoneIn(hs)| + |NotUndoneIn(hs)| == |hs|
  {
    if hs != [] {
      ReportIsComplete(hs[1..]);
    }
  }

  lemma HandleFirst(wf: Workflow, done: seq<Undoable>, ctx: Context, h: Handling, rest: seq<Handling>)
    requires done != [] && h.entry == done[|done| - 1] && h.given == ctx && Handled(wf, h)
    requires if h.attempt.Blown? then rest == [] else IsUnwinding(wf, done[..|done| - 1], LeftBy(h), rest)
    ensures IsUnwinding(wf, done, ctx, [h] + rest)
  {
    hide Handled;
    var hs := [h] + rest;
    forall i | 0 <= i < |hs|
      ensures hs[i].entry == done[|done| - 1 - i] && Handled(wf, hs[i])
      ensures i < |hs| - 1 ==> !hs[i].attempt.Blown?
    {
      assert if i == 0 then hs[i] == h else hs[i] == rest[i - 1];
    }
    forall i | 0 < i < |hs| ensures hs[i].given == LeftBy(hs[i - 1]) {
      assert hs[i] == rest[i - 1];
      assert if i == 1 then hs[i - 1] == h else hs[i - 1] == rest[i - 2];
      assert i > 1 ==> rest[i - 1].given == LeftBy(rest[i - 2]);
    }
  }

  /** The entries as the engine comes to them, up to a panic. */
  function Handlings(wf: Workflow, left: seq<Undoable>, ctx: Context): (hs: seq<Handling>)
    decreases |left|
  {
    if left == [] then []
    else
      var entry := left[|left| - 1];
      var h := Handling(entry, ctx, Compensate(wf, entry.via, ctx));
      [h] + if h.attempt.Blown? then [] else Handlings(wf, left[..|left| - 1], LeftBy(h))
  }

  lemma {:induction false} HandlingsUnwind(wf: Workflow, left: seq<Undoable>, ctx: Context)
    ensures IsUnwinding(wf, left, ctx, Handlings(wf, left, ctx))
    decreases |left|
  {
    if left != [] {
      hide IsUnwinding, Compensate, Handled;
      var h := Handlings(wf, left, ctx)[0];
      CompensateHandles(wf, h.entry, ctx);
      var rest := if h.attempt.Blown? then [] else Handlings(wf, left[..|left| - 1], LeftBy(h));
      if !h.attempt.Blown? {
        HandlingsUnwind(wf, left[..|left| - 1], LeftBy(h));
      }
      HandleFirst(wf, left, ctx, h, rest);
    } else {
      assert IsUnwinding(wf, [], ctx, []);
    }
  }

  lemma OneTells(w: World, u: Unwinding, h: Handling)
    requires u.left != []
    requires h == Handling(u.left[|u.left| - 1], u.ctx, Compensate(u.frame.wf, u.left[|u.left| - 1].via, u.ctx))
    ensures var n := UnwindOne(w, u);
            if h.attempt.Blown? then n.Stop? && n.out.Panicked?
            else
              && n.Unwind?
              && n.unwinding == Unwinding(u.frame, u.step, u.reason, u.left[..|u.left| - 1], LeftBy(h),
                                          u.undone + UndoneBy(h), u.failures + NotUndoneBy(h))
  {
    assert u.undone + [] == u.undone && u.failures + [] == u.failures;
  }

  /** The outcome the handlings add up to. */
  ghost function Ending(step: string, reason: string, undone: seq<string>, failures: seq<UndoFailure>,
                        hs: seq<Handling>): Outcome
    decreases |hs|
  {
    if hs == [] then Failed(CircuitBreakerTripped(step, reason, undone, failures))
    else if hs[0].attempt.Blown? then Panicked(hs[0].attempt.value)
    else Ending(step, reason, undone + UndoneBy(hs[0]), failures + NotUndoneBy(hs[0]), hs[1..])
  }

  lemma {:induction false} UnwindEnds(w: World, u: Unwinding)
    ensures UnwindAll(w, u).out == Ending(u.step, u.reason, u.undone, u.failures, Handlings(u.frame.wf, u.left, u.ctx))
    decreases |u.left|
  {
    if u.left != [] {
      hide Compensate;
      var n, hs := UnwindOne(w, u), Handlings(u.frame.wf, u.left, u.ctx);
      OneTells(w, u, hs[0]);
      if n.Unwind? {
        UnwindEnds(w, n.unwinding);
        assert hs[1..] == Handlings(u.frame.wf, n.unwinding.left, n.unwinding.ctx);
      } else {
        assert n.out == Panicked(hs[0].attempt.value) by { BlownTells(w, u); }
      }
    }
  }

  lemma BlownTells(w: World, u: Unwinding)
    requires u.left != [] && UnwindOne(w, u).Stop?
    ensures UnwindOne(w, u).out == Panicked(Compensate(u.frame.wf, u.left[|u.left| - 1].via, u.ctx).value)
  {
  }

  /** A panic passed on as it is, or the report. */
  ghost predicate EndsAs(out: Outcome, step: string, reason: string, hs: seq<Handling>)
  {
    if Blew(hs) then out == Panicked(hs[|hs| - 1].attempt.value)
    else out.Failed? && Tells(out.error, hs) && out.error.step == step && out.error.reason == reason
  }

  lemma {:induction false} EndingTells(step: string, reason: string, undone: seq<string>, failures: seq<UndoFailure>,
                                       hs: seq<Handling>)
    requires forall i :: 0 <= i < |hs| - 1 ==> !hs[i].attempt.Blown?
    ensures var out := Ending(step, reason, undone, failures, hs);
            if Blew(hs) then out == Panicked(hs[|hs| - 1].attempt.value)
            else out == Failed(CircuitBreakerTripped(step, reason, undone + UndoneIn(hs), failures + NotUndoneIn(hs)))
    decreases |hs|
  {
    if hs == [] {
      assert undone + [] == undone && failures + [] == failures;
    } else if hs[0].attempt.Blown? {
      assert |hs| == 1;
    } else {
      var h, rest := hs[0], hs[1..];
      EndingTells(step, reason, undone + UndoneBy(h), failures + NotUndoneBy(h), rest);
      assert (undone + UndoneBy(h)) + UndoneIn(rest) == undone + (UndoneBy(h) + UndoneIn(rest));
      assert (failures + NotUndoneBy(h)) + NotUndoneIn(rest) == failures + (NotUndoneBy(h) + NotUndoneIn(rest));
    }
  }

  // ----- What a frame did, as its own log tells it -----

  /** What the frame's own events hold of one kind, in order. */
  function Own<T>(path: Path, log: Log, pick: What -> seq<T>): seq<T>
  {
    if log == [] then [] else (if log[0].at == path then pick(log[0].what) else []) + Own(path, log[1..], pick)
  }

  function Completion(what: What): seq<Undoable>
  {
    if what.Succeeded? && what.via != "" then [Undoable(what.step, what.via)] else []
  }

  function Undid(what: What): seq<string>
  {
    if what.Compensating? then [what.via] else []
  }

  function GivingUp(what: What): seq<Context>
  {
    if what.Abandoned? then [what.ctx] else []
  }

  /** The compensable steps the frame completed. */
  function OwnDone(path: Path, log: Log): seq<Undoable>
  {
    Own(path, log, Completion)
  }

  /** The frame's own compensations that ran. */
  function OwnUndos(path: Path, log: Log): seq<string>
  {
    Own(path, log, Undid)
  }

  /** The context the frame had when it was abandoned, if it was. */
  function OwnGivenUp(path: Path, log: Log): seq<Context>
  {
    Own(path, log, GivingUp)
  }

  lemma {:induction false} OwnConcat<T>(path: Path, a: Log, b: Log, pick: What -> seq<T>)
    ensures Own(path, a + b, pick) == Own(path, a, pick) + Own(path, b, pick)
  {
    if a == [] {
      assert a + b == b;
    } else {
      assert (a + b)[1..] == a[1..] + b && (a + b)[0] == a[0];
      OwnConcat(path, a[1..], b, pick);
    }
  }

  lemma OwnsConcat(path: Path, a: Log, b: Log)
    ensures OwnDone(path, a + b) == OwnDone(path, a) + OwnDone(path, b)
    ensures OwnUndos(path, a + b) == OwnUndos(path, a) + OwnUndos(path, b)
    ensures OwnGivenUp(path, a + b) == OwnGivenUp(path, a) + OwnGivenUp(path, b)
  {
    OwnConcat(path, a, b, Completion);
    OwnConcat(path, a, b, Undid);
    OwnConcat(path, a, b, GivingUp);
  }

  lemma OwnOne<T>(e: Event, pick: What -> seq<T>)
    ensures Own(e.at, [e], pick) == pick(e.what)
  {
    assert Own(e.at, [e][1..], pick) == [];
  }

  lemma OwnsOne(e: Event)
    ensures OwnDone(e.at, [e]) == Completion(e.what)
    ensures OwnUndos(e.at, [e]) == Undid(e.what)
    ensures OwnGivenUp(e.at, [e]) == GivingUp(e.what)
  {
    OwnOne(e, Completion);
    OwnOne(e, Undid);
    OwnOne(e, GivingUp);
  }

  /** Nothing in the log concerns the frame's compensation log. */
  ghost predicate Foreign(path: Path, log: Log)
  {
    forall e :: e in log ==> e.at != path || !(e.what.Succeeded? || e.what.Compensating? || e.what.Abandoned?)
  }

  lemma {:induction false} ForeignOwns(path: Path, log: Log)
    requires Foreign(path, log)
    ensures OwnDone(path, log) == [] && OwnUndos(path, log) == [] && OwnGivenUp(path, log) == []
  {
    if log != [] {
      ForeignOwns(path, log[1..]);
    }
  }

  lemma BelowIsForeign(path: Path, below: Path, log: Log)
    requires path < below && Under(below, log)
    ensures Foreign(path, log)
  {
  }

  // ----- One turn -----

  predicate Tripped(out: Outcome)
  {
    out.Failed? && out.error.CircuitBreakerTripped?
  }

  /** The turn's log and the frame it leads to agree on what has been completed, and a frame is abandoned with the
      context it has. */
  ghost predicate Records(n: Next, f: Frame)
  {
    && OwnUndos(f.path, n.log) == []
    && OwnGivenUp(f.path, n.log) == (if n.Unwind? then [f.ctx] else [])
    && (n.Go? ==> n.frame.done == f.done + OwnDone(f.path, n.log))
    && (!n.Go? ==> OwnDone(f.path, n.log) == [])
    && (n.Stop? ==> !Tripped(n.out))
  }

  /** The turn completes nothing, and if it abandons the frame it says so last. */
  ghost predicate Quiet(n: Next, f: Frame)
  {
    && (n.Go? ==> n.frame.done == f.done)
    && (n.Stop? ==> !Tripped(n.out))
    && (!n.Unwind? ==> Foreign(f.path, n.log))
    && (n.Unwind? ==>
          n.log != [] && n.log[|n.log| - 1] == Say(f, Abandoned(f.ctx)) && Foreign(f.path, n.log[..|n.log| - 1]))
  }

  lemma QuietRecords(n: Next, f: Frame)
    requires Quiet(n, f)
    ensures Records(n, f)
  {
    hide OwnDone, OwnUndos, OwnGivenUp;
    if n.Unwind? {
      var before, last := n.log[..|n.log| - 1], n.log[|n.log| - 1];
      assert n.log == before + [last];
      ForeignOwns(f.path, before);
      OwnsOne(last);
      OwnsConcat(f.path, before, [last]);
    } else {
      ForeignOwns(f.path, n.log);
    }
  }

  lemma FailureQuiet(w: World, f: Frame, s: Step, reason: string)
    ensures Quiet(OnFailure(w, f, s, reason), f)
  {
    var n := OnFailure(w, f, s, reason);
    if n.Unwind? {
      assert n.log[..|n.log| - 1] == [Say(f, BreakerObserved(f.ref, f.at))];
    }
  }

  lemma BeforeQuiet(log: Log, n: Next, f: Frame)
    requires Foreign(f.path, log) && Quiet(n, f)
    ensures Quiet(Before(log, n), f)
  {
    var n' := Before(log, n);
    if n.Unwind? {
      assert n'.log[..|n'.log| - 1] == log + n.log[..|n.log| - 1];
    }
  }

  lemma GateRecords(w: World, f: Frame, s: Step)
    requires s.Leaf?
    ensures var g := Gated(w, f, s); if g.Shut? then Quiet(g.next, f) else Foreign(f.path, g.log)
  {
    hide OnFailure;
    if s.probeRef != "" && w.sandbox.Some? {
      var v := w.sandbox.value(Point(f), s.probeRef, f.wf.domain, f.ctx);
      var log := [Say(f, ProbeObserved(s.id)), Say(f, ProbeAsked(s.probeRef, v)),
                  Say(f, ProbeOutcome(s.id, Refusal(v).None?))];
      if Refusal(v).Some? {
        FailureQuiet(w, f, s, Refusal(v).value);
        BeforeQuiet(log, OnFailure(w, f, s, Refusal(v).value), f);
      }
    }
  }

  lemma ActRecords(w: World, f: Frame, s: Step)
    requires s.Leaf?
    ensures Records(Act(w, f, s), f)
  {
    hide OnFailure, OwnDone, OwnUndos, OwnGivenUp;
    var n, e := Act(w, f, s), Say(f, StepObserved(s.id));
    match s.run(f.ctx)
    case Output(fields) =>
      OwnsOne(e);
      OwnsOne(Did(f, s, fields));
      OwnsConcat(f.path, [e], [Did(f, s, fields)]);
    case Failure(reason) =>
      FailureQuiet(w, f, s, reason);
      BeforeQuiet([e], OnFailure(w, f, s, reason), f);
      QuietRecords(n, f);
    case _ => QuietRecords(n, f);
  }

  lemma SubRecords(w: World, f: Frame, s: Step, out: Outcome)
    requires s.Composite?
    ensures Records(AfterSub(w, f, s, out), f)
  {
    hide OnFailure;
    if out.Failed? {
      FailureQuiet(w, f, s, w.text(out.error));
    }
    QuietRecords(AfterSub(w, f, s, out), f);
  }

  lemma {:induction false} PanicLogForeign(f: Frame, outs: seq<Outcome>, i: nat)
    requires i <= |outs|
    ensures Foreign(f.path, PanicLog(f, outs, i))
    decreases |outs| - i
  {
    if i < |outs| {
      PanicLogForeign(f, outs, i + 1);
    }
  }

  lemma ResolveQuiet(w: World, f: Frame, s: Step, outs: seq<Outcome>, k: string)
    requires s.Parallel? && |outs| == |s.branches| && MayName(JoinOf(f, s, outs), k)
    ensures Quiet(Resolve(w, f, s, outs, k), f)
  {
    hide OnFailure, Quiet;
    ClashInRange(f.ctx, s.branches, Deltas(f.ctx, Outputs(Recover(s, outs))), 0, map[]);
    var rs := Recover(s, outs);
    var failures := Failures(w, s.branches, rs);
    if FirstBypass(rs, 0) == |rs| && failures != [] {
      var e, reason := Say(f, Raised(KBranchesFailed)), w.text(BranchesFailed(s.id, |s.branches|, failures));
      FailureQuiet(w, f, s, reason);
      BeforeQuiet([e], OnFailure(w, f, s, reason), f);
    } else {
      NoFailureQuiet(Resolve(w, f, s, outs, k), f);
    }
  }

  lemma NoFailureQuiet(n: Next, f: Frame)
    requires !n.Unwind? && Foreign(f.path, n.log)
    requires n.Go? ==> n.frame.done == f.done
    requires n.Stop? ==> !Tripped(n.out)
    ensures Quiet(n, f)
  {
  }

  lemma HarvestRecords(w: World, f: Frame, s: Step, outs: seq<Outcome>)
    requires s.Parallel? && |outs| == |s.branches|
    ensures Records(Harvest(w, f, s, outs), f)
  {
    hide PanicLog, Resolve, Quiet, Records;
    var k := SomeField(f, s, outs);
    ResolveQuiet(w, f, s, outs, k);
    PanicLogForeign(f, outs, 0);
    BeforeQuiet(PanicLog(f, outs, 0), Resolve(w, f, s, outs, k), f);
    QuietRecords(Harvest(w, f, s, outs), f);
  }

  // ----- Whole frames -----

  /** The frame with these entries was abandoned with `given`: this is what it ran and how it ended. */
  ghost predicate Unwound(wf: Workflow, done: seq<Undoable>, given: Context, ran: seq<string>, out: Outcome)
  {
    exists hs, step, reason :: IsUnwinding(wf, done, given, hs) && ran == RanIn(hs) && EndsAs(out, step, reason, hs)
  }

  /** How a frame that started with `done` ended, by its own account. */
  ghost predicate Accounts(f: Frame, r: Run)
  {
    var given, ran := OwnGivenUp(f.path, r.log), OwnUndos(f.path, r.log);
    || (given == [] && ran == [] && !Tripped(r.out))
    || (|given| == 1 && Unwound(f.wf, f.done + OwnDone(f.path, r.log), given[0], ran, r.out))
  }

  lemma OneRuns(u: Unwinding)
    requires u.left != []
    ensures var h := Handlings(u.frame.wf, u.left, u.ctx)[0];
            var log := CompensateLog(u.frame, h.entry.via, u.ctx);
            OwnDone(u.frame.path, log) == [] && OwnUndos(u.frame.path, log) == RanBy(h)
              && OwnGivenUp(u.frame.path, log) == []
  {
    hide OwnDone, OwnUndos, OwnGivenUp;
    var via := u.left[|u.left| - 1].via;
    var a, b := Say(u.frame, Compensating(via)), Say(u.frame, ActionPanicked);
    OwnsOne(a);
    OwnsOne(b);
    OwnsConcat(u.frame.path, [a], [b]);
    assert [a] + [b] == [a, b];
    ForeignOwns(u.frame.path, []);
  }

  /** An unwinding runs the compensations it handles, each once and in that order. */
  lemma {:induction false} UnwindRuns(w: World, u: Unwinding)
    ensures var log := UnwindAll(w, u).log;
            && OwnDone(u.frame.path, log) == [] && OwnGivenUp(u.frame.path, log) == []
            && OwnUndos(u.frame.path, log) == RanIn(Handlings(u.frame.wf, u.left, u.ctx))
    decreases |u.left|
  {
    hide OwnDone, OwnUndos, OwnGivenUp, Compensate;
    var n, hs := UnwindOne(w, u), Handlings(u.frame.wf, u.left, u.ctx);
    if u.left == [] {
      ForeignOwns(u.frame.path, n.log);
    } else {
      OneRuns(u);
      OneTells(w, u, hs[0]);
      if n.Unwind? {
        UnwindRuns(w, n.unwinding);
        assert hs[1..] == Handlings(u.frame.wf, n.unwinding.left, n.unwinding.ctx);
        OwnsConcat(u.frame.path, n.log, UnwindAll(w, n.unwinding).log);
      } else {
        assert hs[1..] == [];
      }
    }
  }

  /** An abandoned frame's unwinding handles its entries in order, and ends as they add up. */
  lemma UnwindingEnds(w: World, u: Unwinding, f: Frame)
    requires u == Unwinding(f, u.step, u.reason, f.done, f.ctx, [], [])
    ensures var hs := Handlings(f.wf, f.done, f.ctx);
            IsUnwinding(f.wf, f.done, f.ctx, hs) && EndsAs(UnwindAll(w, u).out, u.step, u.reason, hs)
  {
    hide UnwindAll, IsUnwinding, Handlings;
    var hs := Handlings(f.wf, f.done, f.ctx);
    HandlingsUnwind(f.wf, f.done, f.ctx);
    Unbroken(f.wf, f.done, f.ctx, hs);
    UnwindEnds(w, u);
    EndingTells(u.step, u.reason, [], [], hs);
    assert [] + UndoneIn(hs) == UndoneIn(hs) && [] + NotUndoneIn(hs) == NotUndoneIn(hs);
  }

  lemma UnwindAccounts(w: World, u: Unwinding, f: Frame, before: Log)
    requires u == Unwinding(f, u.step, u.reason, f.done, f.ctx, [], [])
    requires OwnUndos(f.path, before) == [] && OwnDone(f.path, before) == [] && OwnGivenUp(f.path, before) == [f.ctx]
    ensures Accounts(f, After(before, 0, UnwindAll(w, u)))
  {
    hide UnwindAll, IsUnwinding, Handlings, OwnDone, OwnUndos, OwnGivenUp, EndsAs;
    var r, hs := UnwindAll(w, u), Handlings(f.wf, f.done, f.ctx);
    UnwindingEnds(w, u, f);
    UnwindRuns(w, u);
    OwnsConcat(f.path, before, r.log);
    assert f.done + [] == f.done && [] + RanIn(hs) == RanIn(hs) && [f.ctx] + [] == [f.ctx];
    assert Unwound(f.wf, f.done, f.ctx, RanIn(hs), r.out);
  }

  lemma Unbroken(wf: Workflow, done: seq<Undoable>, ctx: Context, hs: seq<Handling>)
    requires IsUnwinding(wf, done, ctx, hs)
    ensures forall i :: 0 <= i < |hs| - 1 ==> !hs[i].attempt.Blown?
  {
  }

  /** A frame accounts for itself if what it does next does, given what it did so far. */
  lemma AccountsAfter(f: Frame, g: Frame, log: Log, ticks: nat, r: Run)
    requires g.path == f.path && g.wf == f.wf && Accounts(g, r)
    requires OwnUndos(f.path, log) == [] && OwnGivenUp(f.path, log) == [] && g.done == f.done + OwnDone(f.path, log)
    ensures Accounts(f, After(log, ticks, r))
  {
    hide OwnDone, OwnUndos, OwnGivenUp, Unwound;
    OwnsConcat(f.path, log, r.log);
    assert f.done + (OwnDone(f.path, log) + OwnDone(f.path, r.log)) == g.done + OwnDone(f.path, r.log);
    assert [] + OwnUndos(f.path, r.log) == OwnUndos(f.path, r.log);
    assert [] + OwnGivenUp(f.path, r.log) == OwnGivenUp(f.path, r.log);
  }

  lemma {:induction false} LoopAccounts(w: World, f: Frame)
    requires f.depth <= w.maxDepth
    ensures Accounts(f, Loop(w, f))
    decreases w.maxDepth + 1 - f.depth, w.maxSteps + 1 - f.steps, 0
  {
    match Top(w, f)
    case Through(out) =>
      ForeignOwns(f.path, []);
      StopAccounts(f, out, [], 1);
    case Refusing(e) =>
      ForeignOwns(f.path, Loop(w, f).log);
      StopAccounts(f, Failed(e), Loop(w, f).log, 1);
    case Visit(g, s) => VisitAccounts(w, f, g, s);
  }

  lemma {:induction false} ThenAccounts(w: World, n: Next, f: Frame)
    requires f.depth <= w.maxDepth && Continues(n, f) && Records(n, f)
    ensures Accounts(f, Then(w, n, f.depth, f.steps))
    decreases w.maxDepth + 1 - f.depth, w.maxSteps + 1 - f.steps, 1
  {
    hide Loop, UnwindAll, Accounts, OwnDone, OwnUndos, OwnGivenUp;
    match n
    case Go(g, log) =>
      LoopAccounts(w, g);
      AccountsAfter(f, g, log, 0, Loop(w, g));
    case Stop(out, log) =>
      StopAccounts(f, out, log, 0);
    case Unwind(u, log) =>
      UnwindAccounts(w, u, f, log);
  }

  lemma StopAccounts(f: Frame, out: Outcome, log: Log, ticks: nat)
    requires OwnUndos(f.path, log) == [] && OwnGivenUp(f.path, log) == [] && !Tripped(out)
    ensures Accounts(f, Run(out, log, ticks))
  {
  }

  lemma {:induction false} VisitAccounts(w: World, f: Frame, g: Frame, s: Step)
    requires f.depth <= w.maxDepth && Top(w, f) == Visit(g, s)
    ensures Accounts(f, Loop(w, f))
    decreases w.maxDepth + 1 - f.depth, w.maxSteps + 1 - g.steps, 3
  {
    hide Loop, RunOf, BranchRuns, Harvest, Then, Act, Gated, AfterSub, Accounts, Records;
    if s.Leaf? {
      LoopAtLeaf(w, f, g, s);
      GateRecords(w, g, s);
      ActRecords(w, g, s);
      var gate := Gated(w, g, s);
      if gate.Shut? {
        QuietRecords(gate.next, g);
      }
      TurnAccounts(w, f, g, s, if gate.Shut? then [] else gate.log, if gate.Shut? then 1 else 2,
                   if gate.Shut? then gate.next else Act(w, g, s));
    } else if s.Composite? {
      LoopAtComposite(w, f, g, s);
      var sub := RunOf(w, SubLaunch(g, s));
      RunUnder(w, SubLaunch(g, s));
      BelowIsForeign(f.path, Point(g) + [0], sub.log);
      SubRecords(w, g, s, sub.out);
      TurnAccounts(w, f, g, s, sub.log, 2 + sub.ticks, AfterSub(w, g, s, sub.out));
    } else if Unrunnable(s) {
      LoopAtUnrunnable(w, f, g, s);
      NoFailureQuiet(Refuse(g, s), g);
      QuietRecords(Refuse(g, s), g);
      TurnAccounts(w, f, g, s, [], 1, Refuse(g, s));
    } else {
      LoopAtParallel(w, f, g, s);
      var runs := BranchRuns(w, g, s);
      forall i | 0 <= i < |runs| ensures Under(Point(g), Logs(runs)[i]) {
        RunUnder(w, BranchLaunch(g, s, i));
      }
      UnderConcat(Point(g), Logs(runs));
      BelowIsForeign(f.path, Point(g), Concat(Logs(runs)));
      HarvestRecords(w, g, s, Outs(runs));
      TurnAccounts(w, f, g, s, Concat(Logs(runs)), 2 + Ticks(runs), Harvest(w, g, s, Outs(runs)));
    }
  }

  lemma {:induction false} TurnAccounts(w: World, f: Frame, g: Frame, s: Step, inner: Log, ticks: nat, n: Next)
    requires f.depth <= w.maxDepth && Top(w, f) == Visit(g, s) && Continues(n, g) && Records(n, g)
    requires Foreign(f.path, inner)
    requires Loop(w, f) == After(Seen(f, s) + inner, ticks, Then(w, n, g.depth, g.steps))
           || (inner == [] && Loop(w, f) == After(Seen(f, s), ticks, Then(w, n, g.depth, g.steps)))
    ensures Accounts(f, Loop(w, f))
    decreases w.maxDepth + 1 - f.depth, w.maxSteps + 1 - g.steps, 2
  {
    hide Loop, Then, Accounts, Records, OwnDone, OwnUndos, OwnGivenUp;
    assert Seen(f, s) + [] == Seen(f, s);
    var log := Seen(f, s) + inner;
    assert Foreign(f.path, log);
    ForeignOwns(f.path, log);
    ThenAccounts(w, n, g);
    assert g.done == f.done + [];
    AccountsAfter(f, g, log, ticks, Then(w, n, g.depth, g.steps));
  }

  // ----- Compensations that cannot run -----

  /** What is wrong with a compensation target before anything runs. */
  function Unusable(wf: Workflow, via: string): Option<UndoProblem>
  {
    if via !in wf.steps then Some(MissingStep(wf.id, via))
    else if !wf.steps[via].Leaf? then Some(NotALeaf)
    else None
  }

  predicate Hopeless(f: UndoFailure)
  {
    !f.why.Refused?
  }

  /** The entries no compensation can be run for, last first, each with its problem. */
  function HopelessOf(wf: Workflow, done: seq<Undoable>): (fs: seq<UndoFailure>)
  {
    if done == [] then []
    else
      var last := done[|done| - 1];
      var problem := Unusable(wf, last.via);
      (if problem.Some? then [UndoFailure(last.step, last.via, problem.value)] else [])
        + HopelessOf(wf, done[..|done| - 1])
  }

  lemma {:induction false} HopelessMembers(wf: Workflow, done: seq<Undoable>, x: UndoFailure)
    ensures x in HopelessOf(wf, done) <==> Undoable(x.step, x.via) in done && Unusable(wf, x.via) == Some(x.why)
    decreases |done|
  {
    if done != [] {
      var init, last := done[..|done| - 1], done[|done| - 1];
      assert done == init + [last];
      HopelessMembers(wf, init, x);
    }
  }

  lemma {:induction false} HopelessAreListed(wf: Workflow, done: seq<Undoable>, hs: seq<Handling>)
    requires |hs| == |done|
    requires forall i :: 0 <= i < |hs| ==> hs[i].entry == done[|done| - 1 - i] && Handled(wf, hs[i])
    ensures Select(NotUndoneIn(hs), Hopeless) == HopelessOf(wf, done)
    decreases |hs|
  {
    if hs != [] {
      hide Handled, Select, Unusable;
      SelectConcat(NotUndoneBy(hs[0]), NotUndoneIn(hs[1..]), Hopeless);
      HopelessAreListed(wf, done[..|done| - 1], hs[1..]);
      OneIsListed(wf, hs[0]);
    }
  }

  lemma OneIsListed(wf: Workflow, h: Handling)
    requires Handled(wf, h)
    ensures var problem := Unusable(wf, h.entry.via);
            Select(NotUndoneBy(h), Hopeless)
            == if problem.Some? then [UndoFailure(h.entry.step, h.entry.via, problem.value)] else []
  {
    assert Select([], Hopeless) == [];
  }

  // ----- Whole runs -----

  lemma UnwoundReports(wf: Workflow, done: seq<Undoable>, given: Context, ran: seq<string>, out: Outcome)
    requires Unwound(wf, done, given, ran, out)
    ensures Tripped(out) <==> !out.Panicked?
    ensures Tripped(out) ==> |out.error.compensated| + |out.error.failures| == |done|
    ensures Tripped(out) ==> Select(out.error.failures, Hopeless) == HopelessOf(wf, done)
  {
    var hs, step, reason :| IsUnwinding(wf, done, given, hs) && ran == RanIn(hs) && EndsAs(out, step, reason, hs);
    if Tripped(out) {
      ReportIsComplete(hs);
      HopelessAreListed(wf, done, hs);
    }
  }

  /** What a frame's own record says of its compensations, and how that fits the way it ended. A frame that was not
      abandoned ran none of them and does not end in a tripped breaker. One that was abandoned was so once, and from the
      context it then had it handled exactly the steps it had completed with a compensation, each once, in reverse,
      each given the context the previous compensation left; the compensations whose action ran are those of the
      handled entries, once each and in that order. It then ends in a tripped breaker whose two reports list each
      entry either as undone or as not, unless a compensation panicked: then that one was the last, and the frame
      ends in its panic. */
  ghost predicate Conserved(wf: Workflow, path: Path, log: Log, out: Outcome)
  {
    var done, ran, given := OwnDone(path, log), OwnUndos(path, log), OwnGivenUp(path, log);
    if given == [] then ran == [] && !Tripped(out)
    else
      && |given| == 1 && Unwound(wf, done, given[0], ran, out)
      && (Tripped(out) <==> !out.Panicked?)
      && (Tripped(out) ==> |out.error.compensated| + |out.error.failures| == |done|)
      && (Tripped(out) ==> Select(out.error.failures, Hopeless) == HopelessOf(wf, done))
  }

  lemma RunConserves(w: World, l: Launch)
    requires l.depth <= w.maxDepth && l.ref in w.workflows
    ensures Conserved(w.workflows[l.ref], l.path, RunOf(w, l).log, RunOf(w, l).out)
  {
    hide Loop, OwnDone, OwnUndos, OwnGivenUp, IsUnwinding, Unwound;
    var f := Start(w, l).frame;
    var r := RunOf(w, l);
    LoopAccounts(w, f);
    assert r.log == Loop(w, f).log && r.out == Loop(w, f).out;
    assert [] + OwnDone(l.path, r.log) == OwnDone(l.path, r.log);
    var given := OwnGivenUp(l.path, r.log);
    if given != [] {
      UnwoundReports(f.wf, OwnDone(l.path, r.log), given[0], OwnUndos(l.path, r.log), r.out);
    }
  }

  // ----- Under every schedule -----

  lemma {:induction false} OwnKept<T>(path: Path, log: Log, pick: What -> seq<T>)
    ensures Own(path, Select(log, AtFrame(path)), pick) == Own(path, log, pick)
  {
    if log != [] {
      OwnKept(path, log[1..], pick);
      var kept, later := Select(log, AtFrame(path)), Select(log[1..], AtFrame(path));
      if log[0].at == path {
        assert kept == [log[0]] + later && kept[1..] == later;
      } else {
        assert kept == [] + later == later;
      }
    }
  }

  /** The frame's record is all in its own events. */
  lemma OwnsAlike(path: Path, a: Log, b: Log)
    requires Select(a, AtFrame(path)) == Select(b, AtFrame(path))
    ensures OwnDone(path, a) == OwnDone(path, b) && OwnUndos(path, a) == OwnUndos(path, b)
    ensures OwnGivenUp(path, a) == OwnGivenUp(path, b)
  {
    hide Own;
    OwnKept(path, a, Completion);
    OwnKept(path, b, Completion);
    OwnKept(path, a, Undid);
    OwnKept(path, b, Undid);
    OwnKept(path, a, GivingUp);
    OwnKept(path, b, GivingUp);
  }

  lemma ConservedAlike(wf: Workflow, path: Path, a: Log, b: Log, out: Outcome, out': Outcome)
    requires Conserved(wf, path, a, out) && Select(a, AtFrame(path)) == Select(b, AtFrame(path)) && Agrees(out, out')
    ensures Conserved(wf, path, b, out')
  {
    hide OwnDone, OwnUndos, OwnGivenUp, Unwound;
    OwnsAlike(path, a, b);
    if out != out' {
      assert InConflict(out) && InConflict(out');
    }
  }

  /** Compensation is conserved under every schedule of the run's branches, at any depth. */
  lemma CompensationConserved(w: World, l: Launch, cs: seq<Choice>)
    requires l.depth <= w.maxDepth && l.ref in w.workflows
    requires Follows(w, Starting(l), cs) && Execute(w, Starting(l), cs).machine.Halted?
    ensures var t := Execute(w, Starting(l), cs); Conserved(w.workflows[l.ref], l.path, t.log, t.machine.out)
  {
    hide Execute, Follows, Enabled, RunOf, Conserved, Agrees;
    var t, r := Execute(w, Starting(l), cs), RunOf(w, l);
    RunConserves(w, l);
    SchedulingIsInvisible(w, l, cs);
    var k := FramesKeepTheirOrder(w, l, cs, l.path);
    assert r.log[..k] == r.log;
    ConservedAlike(w.workflows[l.ref], l.path, r.log, t.log, r.out, t.machine.out);
  }

  /** Of a run that ends in a tripped breaker, the report lists as impossible precisely the completed compensable
      steps whose target the workflow lacks, or has as a step that is no leaf. */
  lemma ImpossibleExactly(w: World, l: Launch, cs: seq<Choice>)
    requires l.depth <= w.maxDepth && l.ref in w.workflows
    requires Follows(w, Starting(l), cs) && Execute(w, Starting(l), cs).machine.Halted?
    ensures var t := Execute(w, Starting(l), cs);
            var wf, done, out := w.workflows[l.ref], OwnDone(l.path, t.log), t.machine.out;
            Tripped(out) ==>
              && Select(out.error.failures, Hopeless) == HopelessOf(wf, done)
              && forall x :: x in out.error.failures && x.why.NotALeaf? <==>
                               x.why.NotALeaf? && Undoable(x.step, x.via) in done && x.via in wf.steps
                                 && !wf.steps[x.via].Leaf?
  {
    hide Execute, Follows, Enabled, OwnDone, OwnUndos, OwnGivenUp, Unwound;
    CompensationConserved(w, l, cs);
    var t := Execute(w, Starting(l), cs);
    var wf, done, out := w.workflows[l.ref], OwnDone(l.path, t.log), t.machine.out;
    if Tripped(out) {
      forall x: UndoFailure | x.why.NotALeaf?
        ensures x in out.error.failures <==>
                  Undoable(x.step, x.via) in done && x.via in wf.steps && !wf.steps[x.via].Leaf?
      {
        SelectHas(out.error.failures, Hopeless, x);
        HopelessMembers(wf, done, x);
      }
    }
  }
}
