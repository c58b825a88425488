/** The answers a run gets for one probe reference, in order: scheduling cannot reorder them unless two
    concurrent branches share the reference. */
module Queues {
  import opened Basics
  import opened Workflows
  import opened BigStep
  import opened Machine
  import opened Interleaving
  import opened Paths
  import opened Projections

  function Asking(r: string): Event -> bool
  {
    (e: Event) => e.what.ProbeAsked? && e.what.ref == r
  }

  /** The verdicts on one reference, in the order of the log. */
  function Asked(log: Log, r: string): (vs: seq<ProbeVerdict>)
  {
    if log == [] then [] else (if Asking(r)(log[0]) then [log[0].what.verdict] else []) + Asked(log[1..], r)
  }

  lemma {:induction false} AskedConcat(a: Log, b: Log, r: string)
    ensures Asked(a + b, r) == Asked(a, r) + Asked(b, r)
  {
    if a == [] {
      assert a + b == b;
    } else {
      assert (a + b)[1..] == a[1..] + b;
      AskedConcat(a[1..], b, r);
    }
  }

  /** The answers on a reference are those of the questions on it. */
  lemma {:induction false} AskedIsSelected(log: Log, r: string)
    ensures Asked(Select(log, Asking(r)), r) == Asked(log, r)
  {
    if log != [] {
      AskedIsSelected(log[1..], r);
      var head := if Asking(r)(log[0]) then [log[0]] else [];
      assert Select(log, Asking(r)) == head + Select(log[1..], Asking(r));
      AskedConcat(head, Select(log[1..], Asking(r)), r);
      assert head != [] ==> head[1..] == [];
    }
  }

  ghost predicate SplitsAsked(all: Log, now: Log, rest: Log, r: string)
  {
    Asked(all, r) == Asked(now, r) + Asked(rest, r)
  }

  lemma SelectedSplits(all: Log, now: Log, rest: Log, r: string)
    requires Splits(all, now, rest, Asking(r))
    ensures SplitsAsked(all, now, rest, r)
  {
    hide Asked, Select;
    AskedIsSelected(all, r);
    AskedIsSelected(now, r);
    AskedIsSelected(rest, r);
    AskedConcat(Select(now, Asking(r)), Select(rest, Asking(r)), r);
  }

  /** No two concurrent branches of a run from the top ask the same reference. */
  ghost predicate AllSequential(log: Log)
  {
    forall r :: Sequential(0, log, Asking(r))
  }

  lemma AllSequentialPart(all: Log, part: Log)
    requires AllSequential(all) && forall e :: e in part ==> e in all
    ensures AllSequential(part)
  {
    forall r ensures Sequential(0, part, Asking(r)) {
      SequentialPart(0, all, part, Asking(r));
    }
  }

  lemma AllStaySequential(w: World, m: Machine, c: Choice)
    requires WellFormed(w, m) && Enabled(w, m, c) && AllSequential(Denote(w, m).log)
    ensures var t := StepBy(w, m, c); WellFormed(w, t.machine) && AllSequential(Denote(w, t.machine).log)
  {
    hide Denote, StepBy, AllSequential;
    StepLeaves(w, m, c);
    var rest := Denote(w, StepBy(w, m, c).machine).log;
    assert forall e :: e in rest ==> e in multiset(Denote(w, m).log);
    AllSequentialPart(Denote(w, m).log, rest);
  }

  /** No small step reorders the answers on a reference that no two concurrent branches share. */
  lemma StepSplitsAsked(w: World, m: Machine, c: Choice, path: Path, r: string)
    requires WellFormed(w, m) && Enabled(w, m, c) && Placed(m, path) && |path| % 2 == 0
    requires Sequential(0, Denote(w, m).log, Asking(r))
    ensures var t := StepBy(w, m, c);
            WellFormed(w, t.machine) && SplitsAsked(Denote(w, m).log, t.log, Denote(w, t.machine).log, r)
  {
    hide Denote, StepBy, Asked, Placed, Sequential, Splits, SplitsAsked, Under, Asking;
    StepSplits(0, w, m, c, path, Asking(r));
    var t := StepBy(w, m, c);
    SelectedSplits(Denote(w, m).log, t.log, Denote(w, t.machine).log, r);
  }

  /** Every schedule, at every point of it, has been answered a prefix of what the sequential run is answered. */
  lemma SchedulesAskInOrder(w: World, m: Machine, cs: seq<Choice>, path: Path, r: string)
    requires WellFormed(w, m) && Follows(w, m, cs) && Placed(m, path) && |path| % 2 == 0
             && AllSequential(Denote(w, m).log)
    ensures var t := Execute(w, m, cs);
            WellFormed(w, t.machine) && SplitsAsked(Denote(w, m).log, t.log, Denote(w, t.machine).log, r)
  {
    assert Sequential(0, Denote(w, m).log, Asking(r));
    hide Denote, StepBy, Execute, Follows, Asked, Placed, Sequential, Splits, SplitsAsked, Under, Asking, AllSequential;
    SchedulesKeepOrder(0, w, m, cs, path, Asking(r));
    var t := Execute(w, m, cs);
    SelectedSplits(Denote(w, m).log, t.log, Denote(w, t.machine).log, r);
  }
}
