/** What scheduling cannot reorder: the events of one kind, unless two concurrent branches have events of that kind. So
    each frame does what it does in the order in which it would do it alone. */
module Projections {
  import opened Basics
  import opened Workflows
  import opened BigStep
  import opened Machine
  import opened Interleaving
  import opened Paths

  /** Two positions lie in different branches of the same visit of a parallel step of a run started at a position of
      this length. */
  ghost predicate Concurrent(base: nat, p: Path, q: Path)
  {
    exists n: nat :: n < |p| && n < |q| && n % 2 != base % 2 && p[..n] == q[..n] && p[n] != q[n]
  }

  /** No two concurrent branches do something of this kind. */
  ghost predicate Sequential(base: nat, log: Log, keep: Event -> bool)
  {
    forall d, e :: d in log && e in log && keep(d) && keep(e) ==> !Concurrent(base, d.at, e.at)
  }

  lemma {:induction false} SelectSome(log: Log, keep: Event -> bool)
    ensures Select(log, keep) != [] <==> exists e :: e in log && keep(e)
  {
    if log != [] {
      SelectSome(log[1..], keep);
      assert log == [log[0]] + log[1..];
    }
  }

  /** Of the kept events `now` has happened and those in `rest` are still to come. */
  ghost predicate Splits(all: Log, now: Log, rest: Log, keep: Event -> bool)
  {
    Select(all, keep) == Select(now, keep) + Select(rest, keep)
  }

  lemma ExactSplits(all: Log, now: Log, rest: Log, keep: Event -> bool)
    requires all == now + rest
    ensures Splits(all, now, rest, keep)
  {
    SelectConcat(now, rest, keep);
  }

  lemma SplitsWithTail(all: Log, now: Log, rest: Log, tail: Log, keep: Event -> bool)
    requires Splits(all, now, rest, keep)
    ensures Splits(all + tail, now, rest + tail, keep)
  {
    SelectConcat(all, tail, keep);
    SelectConcat(rest, tail, keep);
  }

  /** One part moves on; no other part has events of the kind it just had. */
  lemma {:induction false} PartSplits(parts: seq<Log>, i: nat, now: Log, rest: Log, keep: Event -> bool)
    requires i < |parts| && Splits(parts[i], now, rest, keep)
    requires Select(now, keep) != [] ==> forall j :: 0 <= j < |parts| && j != i ==> Select(parts[j], keep) == []
    ensures Splits(Concat(parts), now, Concat(parts[i := rest]), keep)
  {
    hide Select;
    var after, later := parts[i := rest], parts[1..];
    SelectConcat(parts[0], Concat(later), keep);
    SelectConcat(after[0], Concat(after[1..]), keep);
    if i == 0 {
      assert after[1..] == later;
    } else {
      assert after[1..] == later[i - 1 := rest];
      assert forall j :: 0 <= j < |later| ==> later[j] == parts[j + 1];
      PartSplits(later, i - 1, now, rest, keep);
      if Select(now, keep) == [] {
        assert Select(Concat(later), keep) == Select(Concat(after[1..]), keep);
      } else {
        assert Select(parts[0], keep) == [];
      }
    }
  }

  lemma SequentialPart(base: nat, all: Log, part: Log, keep: Event -> bool)
    requires Sequential(base, all, keep) && forall e :: e in part ==> e in all
    ensures Sequential(base, part, keep)
  {
  }

  // ----- One small step -----

  lemma SettleSplits(w: World, n: Next, depth: nat, steps: nat, keep: Event -> bool)
    requires depth <= w.maxDepth
    requires n.Go? ==> n.frame.depth == depth && n.frame.steps == steps
    ensures WellFormed(w, Settle(n).machine)
    ensures Splits(Then(w, n, depth, steps).log, Settle(n).log, Denote(w, Settle(n).machine).log, keep)
  {
    SettleDenotes(w, n, depth, steps);
    ExactSplits(Then(w, n, depth, steps).log, Settle(n).log, Denote(w, Settle(n).machine).log, keep);
  }

  lemma RunningSplits(w: World, f: Frame, c: Choice, keep: Event -> bool)
    requires f.depth <= w.maxDepth
    ensures var t := StepBy(w, Running(f), c);
            WellFormed(w, t.machine) && Splits(Denote(w, Running(f)).log, t.log, Denote(w, t.machine).log, keep)
  {
    hide Select;
    var t := StepBy(w, Running(f), c);
    if Top(w, f).Visit? {
      VisitDenotes(w, f, Top(w, f).frame, Top(w, f).step);
    }
    ExactSplits(Loop(w, f).log, t.log, Denote(w, t.machine).log, keep);
  }

  lemma WaitingSplits(w: World, f: Frame, s: Step, sub: Machine, c: Choice, keep: Event -> bool)
    requires WellFormed(w, Waiting(f, s, sub)) && !sub.Halted? && Enabled(w, sub, c)
    requires var t := StepBy(w, sub, c);
             WellFormed(w, t.machine) && Splits(Denote(w, sub).log, t.log, Denote(w, t.machine).log, keep)
    ensures var t := StepBy(w, Waiting(f, s, sub), c);
            WellFormed(w, t.machine) && Splits(Denote(w, Waiting(f, s, sub)).log, t.log, Denote(w, t.machine).log,
                                                    keep)
  {
    hide Select, Then, AfterSub, Splits;
    var t := StepBy(w, sub, c);
    StepLeaves(w, sub, c);
    var a, b := Denote(w, sub), Denote(w, t.machine);
    AfterSubAgrees(w, f, s, a.out, b.out);
    ThenAgrees(w, AfterSub(w, f, s, a.out), AfterSub(w, f, s, b.out), f.depth, f.steps);
    SplitsWithTail(a.log, t.log, b.log, Then(w, AfterSub(w, f, s, a.out), f.depth, f.steps).log, keep);
  }

  lemma FanInSplits(w: World, f: Frame, s: Step, bs: seq<Machine>, c: Choice, keep: Event -> bool)
    requires WellFormed(w, Fanned(f, s, bs)) && AllHalted(bs) && Enabled(w, Fanned(f, s, bs), c)
    ensures var t := StepBy(w, Fanned(f, s, bs), c);
            WellFormed(w, t.machine) && Splits(Denote(w, Fanned(f, s, bs)).log, t.log, Denote(w, t.machine).log, keep)
  {
    hide Select, Then, Harvest, AfterBranches, Splits;
    DenoteFanned(w, f, s, bs);
    var runs := DenoteAll(w, bs);
    assert Outs(runs) == Results(bs);
    HaltedRuns(runs);
    FieldIsFree(w, f, s, Results(bs), c.field);
    var n, n' := Harvest(w, f, s, Results(bs)), AfterBranches(w, f, s, Results(bs), c.field);
    ThenAgrees(w, n, n', f.depth, f.steps);
    SettleSplits(w, n', f.depth, f.steps, keep);
    var tail := Then(w, n, f.depth, f.steps).log;
    assert [] + tail == tail;
  }

  /** Two branches of one visit are concurrent. */
  lemma BranchesAreConcurrent(base: nat, point: Path, i: nat, j: nat, p: Path, q: Path)
    requires |point| % 2 != base % 2 && i != j && point + [i] <= p && point + [j] <= q
    ensures Concurrent(base, p, q)
  {
    var n := |point|;
    assert p[..n] == (point + [i])[..n] == point && q[..n] == (point + [j])[..n] == point;
    assert p[n] == (point + [i])[n] && q[n] == (point + [j])[n];
  }

  /** If branch `i` just had an event of this kind, no other branch has any left. */
  lemma OthersDoNot(base: nat, w: World, f: Frame, s: Step, bs: seq<Machine>, i: nat, c: Choice, j: nat, path: Path,
                    keep: Event -> bool)
    requires WellFormed(w, Fanned(f, s, bs)) && Placed(Fanned(f, s, bs), path) && |path| % 2 == base % 2
    requires i < |bs| && j < |bs| && i != j && Enabled(w, bs[i], c)
    requires Sequential(base, Concat(Logs(DenoteAll(w, bs))), keep) && Select(StepBy(w, bs[i], c).log, keep) != []
    ensures Select(Denote(w, bs[j]).log, keep) == []
  {
    hide Denote, StepBy, Select, Placed, Under;
    var t := StepBy(w, bs[i], c);
    SelectSome(t.log, keep);
    SelectSome(Denote(w, bs[j]).log, keep);
    var e :| e in t.log && keep(e);
    StepLeaves(w, bs[i], c);
    assert e in multiset(Denote(w, bs[i]).log);
    BranchPlaced(f, s, bs, path, i);
    BranchPlaced(f, s, bs, path, j);
    StepPlaced(w, bs[i], c, Point(f) + [i]);
    DenoteUnder(w, bs[j], Point(f) + [j]);
    var logs := Logs(DenoteAll(w, bs));
    assert logs[i] == Denote(w, bs[i]).log && logs[j] == Denote(w, bs[j]).log;
    ConcatMember(logs, e);
    forall d | d in Denote(w, bs[j]).log ensures !keep(d) {
      ConcatMember(logs, d);
      if keep(d) {
        UnderAt(Point(f) + [i], t.log, e);
        UnderAt(Point(f) + [j], Denote(w, bs[j]).log, d);
        BranchesAreConcurrent(base, Point(f), i, j, e.at, d.at);
        assert false;
      }
    }
  }

  lemma BranchPlaced(f: Frame, s: Step, bs: seq<Machine>, path: Path, i: nat)
    requires Placed(Fanned(f, s, bs), path) && i < |bs|
    ensures Placed(bs[i], Point(f) + [i]) && f.path == path
  {
  }

  lemma UnderAt(path: Path, log: Log, e: Event)
    requires Under(path, log) && e in log
    ensures path <= e.at
  {
  }

  lemma BranchSplits(base: nat, w: World, f: Frame, s: Step, bs: seq<Machine>, i: nat, c: Choice, path: Path,
                     keep: Event -> bool)
    requires WellFormed(w, Fanned(f, s, bs)) && Placed(Fanned(f, s, bs), path) && |path| % 2 == base % 2
    requires i < |bs| && Enabled(w, bs[i], c) && Sequential(base, Concat(Logs(DenoteAll(w, bs))), keep)
    requires var t := StepBy(w, bs[i], c);
             WellFormed(w, t.machine) && Splits(Denote(w, bs[i]).log, t.log, Denote(w, t.machine).log, keep)
    ensures var t := StepBy(w, bs[i], c);
            var after := Fanned(f, s, bs[i := t.machine]);
            && WellFormed(w, after)
            && Splits(Denote(w, Fanned(f, s, bs)).log, t.log, Denote(w, after).log, keep)
  {
    hide Select, Splits, Denote, StepBy, AfterRuns, Placed, Sequential;
    var t := StepBy(w, bs[i], c);
    var bs' := bs[i := t.machine];
    var runs, runs' := DenoteAll(w, bs), DenoteAll(w, bs[i := t.machine]);
    assert runs' == runs[i := Denote(w, t.machine)];
    DenoteFanned(w, f, s, bs);
    DenoteFanned(w, f, s, bs');
    StepLeaves(w, bs[i], c);
    assert Logs(runs') == Logs(runs)[i := Denote(w, t.machine).log] && Logs(runs)[i] == Denote(w, bs[i]).log;
    if Select(t.log, keep) != [] {
      forall j: nat | j < |bs| && j != i ensures Select(Logs(runs)[j], keep) == [] {
        OthersDoNot(base, w, f, s, bs, i, c, j, path, keep);
      }
    }
    PartSplits(Logs(runs), i, t.log, Denote(w, t.machine).log, keep);
    BranchTails(w, f, s, runs, i, Denote(w, t.machine));
    var tail := Then(w, Harvest(w, f, s, Outs(runs)), f.depth, f.steps).log;
    SplitsWithTail(Concat(Logs(runs)), t.log, Concat(Logs(runs')), tail, keep);
  }

  /** A branch that only moved on does not change what follows the fan-out. */
  lemma BranchTails(w: World, f: Frame, s: Step, runs: seq<Run>, i: nat, run: Run)
    requires f.depth <= w.maxDepth && s.Parallel? && |runs| == |s.branches| && i < |runs|
             && Agrees(runs[i].out, run.out)
    ensures var runs' := runs[i := run];
            && AfterRuns(w, f, s, runs).log == Concat(Logs(runs))
              + Then(w, Harvest(w, f, s, Outs(runs)), f.depth, f.steps).log
            && AfterRuns(w, f, s, runs').log == Concat(Logs(runs'))
              + Then(w, Harvest(w, f, s, Outs(runs)), f.depth, f.steps).log
  {
    var runs' := runs[i := run];
    assert Outs(runs') == Outs(runs)[i := run.out];
    HarvestAgrees(w, f, s, Outs(runs), Outs(runs'));
    ThenAgrees(w, Harvest(w, f, s, Outs(runs)), Harvest(w, f, s, Outs(runs')), f.depth, f.steps);
  }

  /** No small step reorders events of a kind that no two concurrent branches have. */
  lemma {:induction false} StepSplits(base: nat, w: World, m: Machine, c: Choice, path: Path, keep: Event -> bool)
    requires WellFormed(w, m) && Enabled(w, m, c) && Placed(m, path) && |path| % 2 == base % 2
    requires Sequential(base, Denote(w, m).log, keep)
    ensures var t := StepBy(w, m, c);
            WellFormed(w, t.machine) && Splits(Denote(w, m).log, t.log, Denote(w, t.machine).log, keep)
    decreases m
  {
    hide Splits, Sequential, Select, Denote, StepBy, Under;
    match m
    case Starting(l) => StartingSplits(w, l, c, keep);
    case Running(f) => RunningSplits(w, f, c, keep);
    case Acting(f, s) => ActingSplits(w, f, s, c, keep);
    case Waiting(f, s, sub) =>
      if sub.Halted? {
        SubEndSplits(w, f, s, sub, c, keep);
      } else {
        SubIsPart(base, w, f, s, sub, keep);
        StepSplits(base, w, sub, c, Point(f) + [0], keep);
        WaitingSplits(w, f, s, sub, c, keep);
      }
    case Fanned(f, s, bs) =>
      if AllHalted(bs) {
        FanInSplits(w, f, s, bs, c, keep);
      } else {
        var i := c.route[0];
        BranchIsPart(base, w, f, s, bs, i, keep);
        StepSplits(base, w, bs[i], Down(c), Point(f) + [i], keep);
        BranchSplits(base, w, f, s, bs, i, Down(c), path, keep);
        BranchStep(w, f, s, bs, c);
      }
    case Undoing(u) => UndoingSplits(w, u, c, keep);
  }

  lemma BranchStep(w: World, f: Frame, s: Step, bs: seq<Machine>, c: Choice)
    requires WellFormed(w, Fanned(f, s, bs)) && !AllHalted(bs) && Enabled(w, Fanned(f, s, bs), c)
    ensures var t := StepBy(w, bs[c.route[0]], Down(c));
            StepBy(w, Fanned(f, s, bs), c) == Stepped(Fanned(f, s, bs[c.route[0] := t.machine]), t.log)
  {
  }

  lemma SubIsPart(base: nat, w: World, f: Frame, s: Step, sub: Machine, keep: Event -> bool)
    requires WellFormed(w, Waiting(f, s, sub)) && Sequential(base, Denote(w, Waiting(f, s, sub)).log, keep)
    ensures Sequential(base, Denote(w, sub).log, keep)
  {
    hide Sequential, AfterSub, Then;
    SequentialPart(base, Denote(w, Waiting(f, s, sub)).log, Denote(w, sub).log, keep);
  }

  lemma BranchIsPart(base: nat, w: World, f: Frame, s: Step, bs: seq<Machine>, i: nat, keep: Event -> bool)
    requires WellFormed(w, Fanned(f, s, bs)) && Sequential(base, Denote(w, Fanned(f, s, bs)).log, keep) && i < |bs|
    ensures Sequential(base, Concat(Logs(DenoteAll(w, bs))), keep) && Sequential(base, Denote(w, bs[i]).log, keep)
  {
    hide Sequential, Harvest, Then, Denote;
    DenoteFanned(w, f, s, bs);
    var logs := Logs(DenoteAll(w, bs));
    SequentialPart(base, Denote(w, Fanned(f, s, bs)).log, Concat(logs), keep);
    forall e | e in Denote(w, bs[i]).log ensures e in Concat(logs) {
      assert e in logs[i];
      ConcatMember(logs, e);
    }
    SequentialPart(base, Concat(logs), Denote(w, bs[i]).log, keep);
  }

  lemma ActingSplits(w: World, f: Frame, s: Step, c: Choice, keep: Event -> bool)
    requires WellFormed(w, Acting(f, s))
    ensures var t := StepBy(w, Acting(f, s), c);
            WellFormed(w, t.machine) && Splits(Denote(w, Acting(f, s)).log, t.log, Denote(w, t.machine).log, keep)
  {
    hide Splits, Act, Then;
    SettleSplits(w, Act(w, f, s), f.depth, f.steps, keep);
    var tail := Then(w, Act(w, f, s), f.depth, f.steps).log;
    assert [] + tail == tail;
  }

  lemma SubEndSplits(w: World, f: Frame, s: Step, sub: Machine, c: Choice, keep: Event -> bool)
    requires WellFormed(w, Waiting(f, s, sub)) && sub.Halted?
    ensures var t := StepBy(w, Waiting(f, s, sub), c);
            WellFormed(w, t.machine) && Splits(Denote(w, Waiting(f, s, sub)).log, t.log, Denote(w, t.machine).log,
                                                    keep)
  {
    hide Splits, AfterSub, Then;
    SettleSplits(w, AfterSub(w, f, s, sub.out), f.depth, f.steps, keep);
    var tail := Then(w, AfterSub(w, f, s, sub.out), f.depth, f.steps).log;
    assert [] + tail == tail;
  }

  lemma StartingSplits(w: World, l: Launch, c: Choice, keep: Event -> bool)
    ensures var t := StepBy(w, Starting(l), c);
            WellFormed(w, t.machine) && Splits(Denote(w, Starting(l)).log, t.log, Denote(w, t.machine).log, keep)
  {
    hide Select, Loop;
    var t := StepBy(w, Starting(l), c);
    ExactSplits(RunOf(w, l).log, t.log, Denote(w, t.machine).log, keep);
  }

  lemma UndoingSplits(w: World, u: Unwinding, c: Choice, keep: Event -> bool)
    ensures var t := StepBy(w, Undoing(u), c);
            WellFormed(w, t.machine) && Splits(Denote(w, Undoing(u)).log, t.log, Denote(w, t.machine).log, keep)
  {
    hide Select;
    var t := StepBy(w, Undoing(u), c);
    ExactSplits(UnwindAll(w, u).log, t.log, Denote(w, t.machine).log, keep);
  }

  // ----- Whole schedules -----

  lemma RestIsSequential(base: nat, w: World, m: Machine, c: Choice, keep: Event -> bool)
    requires WellFormed(w, m) && Enabled(w, m, c) && Sequential(base, Denote(w, m).log, keep)
    ensures var t := StepBy(w, m, c); WellFormed(w, t.machine) && Sequential(base, Denote(w, t.machine).log, keep)
  {
    hide Denote, StepBy, Sequential;
    StepLeaves(w, m, c);
    var rest := Denote(w, StepBy(w, m, c).machine).log;
    assert forall e :: e in rest ==> e in multiset(Denote(w, m).log);
    SequentialPart(base, Denote(w, m).log, rest, keep);
  }

  lemma SplitsTwice(all: Log, first: Log, mid: Log, second: Log, rest: Log, keep: Event -> bool)
    requires Splits(all, first, mid, keep) && Splits(mid, second, rest, keep)
    ensures Splits(all, first + second, rest, keep)
  {
    SelectConcat(first, second, keep);
  }

  /** Every schedule, at every point of it, has had a prefix of the sequential run's events of this kind. */
  lemma {:induction false} SchedulesKeepOrder(base: nat, w: World, m: Machine, cs: seq<Choice>, path: Path,
                                              keep: Event -> bool)
    requires WellFormed(w, m) && Follows(w, m, cs) && Placed(m, path) && |path| % 2 == base % 2
             && Sequential(base, Denote(w, m).log, keep)
    ensures var t := Execute(w, m, cs);
            WellFormed(w, t.machine) && Splits(Denote(w, m).log, t.log, Denote(w, t.machine).log, keep)
    decreases |cs|
  {
    hide Denote, StepBy, Select, Placed, Sequential, Splits, Under;
    ExecutionLeaves(w, m, cs);
    assert Sequential(base, Denote(w, m).log, keep);
    if cs == [] {
      assert [] + Denote(w, m).log == Denote(w, m).log;
      ExactSplits(Denote(w, m).log, [], Denote(w, m).log, keep);
    } else {
      var t := StepBy(w, m, cs[0]);
      StepSplits(base, w, m, cs[0], path, keep);
      RestIsSequential(base, w, m, cs[0], keep);
      StepPlaced(w, m, cs[0], path);
      SchedulesKeepOrder(base, w, t.machine, cs[1..], path, keep);
      var rest := Execute(w, t.machine, cs[1..]);
      SplitsTwice(Denote(w, m).log, t.log, Denote(w, t.machine).log, rest.log, Denote(w, rest.machine).log, keep);
    }
  }

  // ----- One frame -----

  function AtFrame(path: Path): Event -> bool
  {
    (e: Event) => e.at == path
  }

  lemma FrameIsSequential(base: nat, log: Log, path: Path)
    ensures Sequential(base, log, AtFrame(path))
  {
  }

  /** What has been selected so far is what a prefix of the whole holds. */
  lemma {:induction false} SelectedPrefix(log: Log, keep: Event -> bool, now: Log) returns (k: nat)
    requires now <= Select(log, keep)
    ensures k <= |log| && Select(log[..k], keep) == now
  {
    if now == [] {
      k := 0;
      assert log[..0] == [];
    } else {
      var head := if keep(log[0]) then [log[0]] else [];
      assert Select(log, keep) == head + Select(log[1..], keep);
      var j := SelectedPrefix(log[1..], keep, now[|head|..]);
      k := j + 1;
      assert log[..k][0] == log[0] && log[..k][1..] == log[1..][..j];
    }
  }

  /** Under every schedule each frame, at every moment, has done exactly what it does first in the sequential run, in
      that order; and all of it once the run has ended. */
  lemma FramesKeepTheirOrder(w: World, l: Launch, cs: seq<Choice>, path: Path) returns (k: nat)
    requires Follows(w, Starting(l), cs)
    ensures var t, r := Execute(w, Starting(l), cs), RunOf(w, l);
            && k <= |r.log| && Select(t.log, AtFrame(path)) == Select(r.log[..k], AtFrame(path))
            && (t.machine.Halted? ==> k == |r.log|)
  {
    hide Execute, Follows, Enabled, Denote, RunOf, Select, AtFrame;
    var t, r := Execute(w, Starting(l), cs), RunOf(w, l);
    assert Denote(w, Starting(l)) == r by { StartDenotes(w, l); }
    FrameIsSequential(|l.path|, r.log, path);
    SchedulesKeepOrder(|l.path|, w, Starting(l), cs, l.path, AtFrame(path));
    if t.machine.Halted? {
      k := |r.log|;
      NothingToCome(w, t.machine, AtFrame(path));
      assert r.log[..k] == r.log;
    } else {
      k := SelectedPrefix(r.log, AtFrame(path), Select(t.log, AtFrame(path)));
    }
  }

  lemma StartDenotes(w: World, l: Launch)
    ensures WellFormed(w, Starting(l)) && Denote(w, Starting(l)) == RunOf(w, l)
  {
  }

  lemma NothingToCome(w: World, m: Machine, keep: Event -> bool)
    requires m.Halted?
    ensures Select(Denote(w, m).log, keep) == []
  {
  }
}
