/** Which past decisions a changed manifest would make differently. */
module PolicyDiff {
  import opened Basics
  import opened Values
  import opened Workflows
  import opened BigStep
  import opened Manifest
  import opened Engine
  import opened Registry
  import opened Replay
  import opened Resuming
  import C = Compare

  datatype Classification = Same | ExplanationChanged | OutcomeChanged

  const BOOKKEEPING := "cee."
  const OUTPUT_BOOKKEEPING := "output.cee."

  /** A difference in how a decision was reached, not in the decision. */
  predicate Explains(field: string)
  {
    field == "trace" || OUTPUT_BOOKKEEPING <= field
  }

  /** The first difference that is about the decision settles it. */
  method Classify(diffs: seq<C.Difference>) returns (kind: Classification)
    ensures kind == if forall d :: d in diffs ==> Explains(d.field) then ExplanationChanged else OutcomeChanged
  {
    for i := 0 to |diffs|
      invariant forall j :: 0 <= j < i ==> Explains(diffs[j].field)
    {
      if !Explains(diffs[i].field) {
        return OutcomeChanged;
      }
    }
    kind := ExplanationChanged;
  }

  /** Failure, error text, suspension or an output field that is not the engine's own differs. */
  ghost predicate DecisionDiffers(rec: Recording, result: RunResult)
  {
    || rec.suspended != (result.pointer != "")
    || rec.failed != result.err.Some?
    || (rec.failed && result.err.Some? && rec.error != result.err.value)
    || exists k :: !(BOOKKEEPING <= k) && C.Differs(rec.output, result.output, k)
  }

  function ClassOf(diffs: seq<C.Difference>): Classification
  {
    if diffs == [] then Same
    else if forall d :: d in diffs ==> Explains(d.field) then ExplanationChanged
    else OutcomeChanged
  }

  lemma OutputField(key: string)
    ensures Explains(C.OUTPUT + key) <==> BOOKKEEPING <= key
  {
    var field := C.OUTPUT + key;
    assert OUTPUT_BOOKKEEPING == C.OUTPUT + BOOKKEEPING;
    assert field[0] == 'o';
    if BOOKKEEPING <= key {
      assert key == BOOKKEEPING + key[|BOOKKEEPING|..];
      assert field == OUTPUT_BOOKKEEPING + key[|BOOKKEEPING|..];
    }
    if OUTPUT_BOOKKEEPING <= field {
      assert key == field[|C.OUTPUT|..];
      assert forall i :: 0 <= i < |BOOKKEEPING| ==>
               key[i] == field[i + |C.OUTPUT|] == OUTPUT_BOOKKEEPING[i + |C.OUTPUT|] == BOOKKEEPING[i];
    }
  }

  /** A head difference other than the trace is about the decision. */
  lemma HeadFields(rec: Recording, result: RunResult)
    ensures (forall d :: d in C.HeadDiffs(rec, result) ==> Explains(d.field))
            <==> !(rec.suspended != (result.pointer != "") || rec.failed != result.err.Some?
                   || (rec.failed && result.err.Some? && rec.error != result.err.value))
  {
    var a, b := C.JoinTrace(rec.trace), C.JoinTrace(result.trace);
    assert !Explains("suspended") && !Explains("failed") && !Explains("error") && Explains("trace");
    var head := C.HeadDiffs(rec, result);
    if rec.suspended != (result.pointer != "") {
      assert C.Difference("suspended", C.Flag(rec.suspended), C.Flag(result.pointer != "")) in head;
    }
    if rec.failed != result.err.Some? {
      assert head[|head| - 1].field == "failed";
    } else if result.err.Some? && rec.error != result.err.value {
      assert head[|head| - 1].field == "error";
    }
  }

  /** The headline is exact: an event counts as an outcome change precisely when the decision differs, and as an
      explanation change when something else does. */
  lemma OutcomeExactly(rec: Recording, result: RunResult, diffs: seq<C.Difference>)
    requires C.IsDiff(rec, result, diffs)
    ensures ClassOf(diffs).OutcomeChanged? <==> DecisionDiffers(rec, result)
  {
    hide C.HeadDiffs, C.Differs, Explains;
    var keys :| C.DifferingKeys(rec.output, result.output, keys)
                && diffs == C.HeadDiffs(rec, result) + C.KeyDiffs(rec.output, result.output, keys);
    HeadFields(rec, result);
    var outputs := C.KeyDiffs(rec.output, result.output, keys);
    assert forall d :: d in diffs <==> d in C.HeadDiffs(rec, result) || d in outputs;
    forall i | 0 <= i < |keys| ensures Explains(outputs[i].field) <==> BOOKKEEPING <= keys[i] {
      OutputField(keys[i]);
    }
    if k :| !(BOOKKEEPING <= k) && C.Differs(rec.output, result.output, k) {
      assert k in keys;
      var i :| 0 <= i < |keys| && keys[i] == k;
      assert outputs[i] in diffs;
    }
    if d :| d in outputs && !Explains(d.field) {
      var i :| 0 <= i < |outputs| && outputs[i] == d;
      assert C.Differs(rec.output, result.output, keys[i]);
    }
  }

  // ----- Two manifests over one suite of past inputs -----

  datatype SuiteEvent = SuiteEvent(workflow: string, ctx: Context)

  datatype Change = Change(index: nat, workflow: string, ctx: Context, kind: Classification,
                           differences: seq<C.Difference>)

  datatype Report = Report(events: nat, outcomes: seq<Change>, explanations: seq<Change>, beforeErrors: nat,
                           afterErrors: nat)
  {
    predicate Clean()
    {
      outcomes == [] && explanations == []
    }
  }

  datatype DiffResult =
    | Compared(report: Report)
    | BeforeFails(error: LoadError)
    | AfterFails(error: LoadError)
    | RunPanicked(value: string)

  /** What a caller of `Run` holds afterwards. */
  function ResultOf(out: Outcome, text: Error -> string): RunResult
    requires !out.Panicked? && !out.Parked?
  {
    ResultWith(out, "", text)
  }

  function RecordingOf(e: SuiteEvent, before: RunResult): Recording
  {
    RecordingFrom(e.workflow, e.ctx, [], before)
  }

  /** The changes of one class, in the order of their events. */
  function Picked(suite: seq<SuiteEvent>, diffs: seq<seq<C.Difference>>, kind: Classification): (cs: seq<Change>)
    requires |suite| == |diffs|
  {
    if suite == [] then []
    else
      var n := |suite| - 1;
      Picked(suite[..n], diffs[..n], kind)
      + if ClassOf(diffs[n]) == kind then [Change(n, suite[n].workflow, suite[n].ctx, kind, diffs[n])] else []
  }

  function Errors(results: seq<RunResult>): nat
  {
    if results == [] then 0
    else Errors(results[..|results| - 1]) + if results[|results| - 1].err.Some? then 1 else 0
  }

  function ReportOf(suite: seq<SuiteEvent>, diffs: seq<seq<C.Difference>>, before: seq<RunResult>,
                    after: seq<RunResult>): Report
    requires |suite| == |diffs|
  {
    Report(|suite|, Picked(suite, diffs, OutcomeChanged), Picked(suite, diffs, ExplanationChanged), Errors(before),
           Errors(after))
  }

  /** The list holds the events of this class, each once with its differences, in their order, and no other event. */
  ghost predicate Lists(suite: seq<SuiteEvent>, diffs: seq<seq<C.Difference>>, kind: Classification, cs: seq<Change>)
    requires |suite| == |diffs|
  {
    && (forall i :: 0 <= i < |suite| && ClassOf(diffs[i]) == kind ==>
          Change(i, suite[i].workflow, suite[i].ctx, kind, diffs[i]) in cs)
    && (forall c :: c in cs ==>
          && c.index < |suite| && ClassOf(diffs[c.index]) == kind
          && c == Change(c.index, suite[c.index].workflow, suite[c.index].ctx, kind, diffs[c.index]))
    && (forall j, k :: 0 <= j < k < |cs| ==> cs[j].index < cs[k].index)
  }

  /** Every event is in exactly one class: listed once under it, with its differences, and under no other. */
  lemma {:induction false} PickedExactly(suite: seq<SuiteEvent>, diffs: seq<seq<C.Difference>>, kind: Classification)
    requires |suite| == |diffs|
    ensures Lists(suite, diffs, kind, Picked(suite, diffs, kind))
  {
    hide ClassOf, Lists;
    if suite == [] {
      NothingListed(diffs, kind);
    } else {
      var n := |suite| - 1;
      PickedExactly(suite[..n], diffs[..n], kind);
      ListsOneMore(suite, diffs, kind, Picked(suite[..n], diffs[..n], kind));
    }
  }

  lemma NothingListed(diffs: seq<seq<C.Difference>>, kind: Classification)
    requires diffs == []
    ensures Lists([], diffs, kind, [])
  {
  }

  lemma ListsOneMore(suite: seq<SuiteEvent>, diffs: seq<seq<C.Difference>>, kind: Classification, init: seq<Change>)
    requires |suite| == |diffs| > 0
    requires var n := |suite| - 1; Lists(suite[..n], diffs[..n], kind, init)
    ensures var n := |suite| - 1;
            Lists(suite, diffs, kind, init + if ClassOf(diffs[n]) == kind
                                             then [Change(n, suite[n].workflow, suite[n].ctx, kind, diffs[n])] else [])
  {
    hide ClassOf;
    var n := |suite| - 1;
    var last := Change(n, suite[n].workflow, suite[n].ctx, kind, diffs[n]);
    var cs := init + if ClassOf(diffs[n]) == kind then [last] else [];
    forall i | 0 <= i < |suite| && ClassOf(diffs[i]) == kind
      ensures Change(i, suite[i].workflow, suite[i].ctx, kind, diffs[i]) in cs
    {
      assert i < n ==> suite[..n][i] == suite[i] && diffs[..n][i] == diffs[i];
    }
    forall c | c in cs
      ensures c.index < |suite| && ClassOf(diffs[c.index]) == kind
      ensures c == Change(c.index, suite[c.index].workflow, suite[c.index].ctx, kind, diffs[c.index])
    {
      assert c in init || c == last;
    }
    forall j, k | 0 <= j < k < |cs| ensures cs[j].index < cs[k].index {
      assert cs[j] == init[j] && init[j] in init;
    }
  }

  /** The world a manifest without hooks makes for itself. */
  function WorldOf(d: Domain, text: Error -> string): World
  {
    World(WithWorkflows(map[], d.name, d.workflows), WithPolicies(map[], d.policies), None, false,
          DEFAULT_MAX_STEPS, DEFAULT_MAX_DEPTH, text)
  }

  method Build(file: File, std: Library, text: Error -> string) returns (engine: Engine?, error: Option<LoadError>)
    ensures var r := LoadOf(file, map[], std);
            && (r.Err? ==> error == Some(r.error))
            && (r.Ok? ==>
                  && error == None && engine != null && fresh(engine) && engine.Valid() && engine.store == null
                  && engine.Tables() == WorldOf(r.value, text))
  {
    var loaded := Load(file, map[], std);
    match loaded {
      case Err(e) => return null, Some(e);
      case Ok(d) =>
        var e := new Engine(None, text);
        var registry := new Registry(e);
        registry.RegisterDomain(d);
        return e, None;
    }
  }

  /** A run of the world on the event ends this way. */
  ghost predicate EndsWith(w: World, e: SuiteEvent, out: Outcome)
  {
    Agrees(RunOf(w, Launch(e.workflow, "", e.ctx, 0, [])).out, out)
  }

  /** Some event's run in one of the two worlds ends in this panic. */
  ghost predicate SomePanics(a: World, b: World, suite: seq<SuiteEvent>, value: string)
  {
    exists e :: e in suite && (EndsWith(a, e, Panicked(value)) || EndsWith(b, e, Panicked(value)))
  }

  /** Both worlds' runs, one pair for each of the events. */
  ghost predicate RunsOf(a: World, b: World, suite: seq<SuiteEvent>, before: seq<Outcome>, after: seq<Outcome>)
  {
    |before| == |after| == |suite| && forall i :: 0 <= i < |suite| ==>
        EndsWith(a, suite[i], before[i]) && EndsWith(b, suite[i], after[i])
  }

  method RunOne(engine: Engine, e: SuiteEvent) returns (out: Outcome)
    requires engine.Valid() && engine.store == null
    ensures EndsWith(engine.Tables(), e, out) && !out.Parked?
  {
    var log;
    out, log := engine.RunFrom(engine.Tables(), e.workflow, "", e.ctx, 0, []);
    if out.Parked? {
      ParkedHasStore(engine.Tables(), Launch(e.workflow, "", e.ctx, 0, []), out, log);
      assert false;
    }
  }

  /** One event's place in the report. */
  method Tally(report: Report, suite: seq<SuiteEvent>, i: nat, before: RunResult, after: RunResult,
               ds: seq<C.Difference>) returns (next: Report)
    requires i < |suite|
    ensures next.events == report.events
    ensures next.beforeErrors == report.beforeErrors + (if before.err.Some? then 1 else 0)
    ensures next.afterErrors == report.afterErrors + (if after.err.Some? then 1 else 0)
    ensures next.outcomes == report.outcomes + Listed(suite, i, ds, OutcomeChanged)
    ensures next.explanations == report.explanations + Listed(suite, i, ds, ExplanationChanged)
  {
    next := report;
    if before.err.Some? {
      next := next.(beforeErrors := next.beforeErrors + 1);
    }
    if after.err.Some? {
      next := next.(afterErrors := next.afterErrors + 1);
    }
    if |ds| == 0 {
      return;
    }
    var kind := Classify(ds);
    var change := Change(i, suite[i].workflow, suite[i].ctx, kind, ds);
    if kind == OutcomeChanged {
      next := next.(outcomes := next.outcomes + [change]);
    } else {
      next := next.(explanations := next.explanations + [change]);
    }
  }

  /** Runs every event through both manifests and sorts the events by what changed; a run that panics ends it all. */
  method Compare(before: File, after: File, suite: seq<SuiteEvent>, std: Library, text: Error -> string)
    returns (r: DiffResult)
    ensures var a, b := LoadOf(before, map[], std), LoadOf(after, map[], std);
            && (a.Err? <==> r.BeforeFails?) && (a.Ok? && b.Err? <==> r.AfterFails?)
            && (a.Err? ==> r.error == a.error) && (a.Ok? && b.Err? ==> r.error == b.error)
            && (r.Compared? ==> IsReport(WorldOf(a.value, text), WorldOf(b.value, text), suite, text, r.report))
            && (r.RunPanicked? ==> SomePanics(WorldOf(a.value, text), WorldOf(b.value, text), suite, r.value))
  {
    hide RunsOf, Compares, C.IsDiff, WorldOf, LoadOf, EndsWith;
    ghost var befores: seq<Outcome>, afters: seq<Outcome>, diffs: seq<seq<C.Difference>> := [], [], [];
    var a, error := Build(before, std, text);
    if error.Some? {
      return BeforeFails(error.value);
    }
    var b, error' := Build(after, std, text);
    if error'.Some? {
      return AfterFails(error'.value);
    }
    var report := Report(|suite|, [], [], 0, 0);
    NothingCompared(a.Tables(), b.Tables(), text);
    for i := 0 to |suite|
      invariant a.Valid() && b.Valid() && a.store == null && b.store == null
      invariant a.Tables() == WorldOf(LoadOf(before, map[], std).value, text)
                && b.Tables() == WorldOf(LoadOf(after, map[], std).value, text)
      invariant RunsOf(a.Tables(), b.Tables(), suite[..i], befores, afters)
      invariant Compares(suite[..i], befores, afters, diffs, text, report.(events := i))
      invariant report.events == |suite|
    {
      var e := suite[i];
      assert e in suite;
      var out := RunOne(a, e);
      if out.Panicked? {
        return RunPanicked(out.value);
      }
      var out' := RunOne(b, e);
      if out'.Panicked? {
        return RunPanicked(out'.value);
      }
      var ds := C.Compare(RecordingOf(e, ResultOf(out, text)), ResultOf(out', text));
      ghost var tallied := report;
      report := Tally(report, suite, i, ResultOf(out, text), ResultOf(out', text), ds);
      OneMoreCompared(a.Tables(), b.Tables(), suite, i, befores, afters, diffs, text, tallied, report, out, out', ds);
      befores, afters, diffs := befores + [out], afters + [out'], diffs + [ds];
    }
    assert suite[..|suite|] == suite;
    r := Compared(report);
    assert IsReport(a.Tables(), b.Tables(), suite, text, report);
  }

  /** The report is the one that runs of the two worlds on these events call for. */
  ghost predicate IsReport(a: World, b: World, suite: seq<SuiteEvent>, text: Error -> string, report: Report)
  {
    exists befores, afters, diffs ::
        RunsOf(a, b, suite, befores, afters) && Compares(suite, befores, afters, diffs, text, report)
  }

  /** The report is the one these runs call for. */
  ghost predicate Compares(suite: seq<SuiteEvent>, befores: seq<Outcome>, afters: seq<Outcome>,
                           diffs: seq<seq<C.Difference>>, text: Error -> string, report: Report)
  {
    && |befores| == |afters| == |diffs| == |suite|
    && (forall i :: 0 <= i < |suite| ==>
          !befores[i].Panicked? && !afters[i].Panicked? && !befores[i].Parked? && !afters[i].Parked?)
    && (forall i :: 0 <= i < |suite| ==>
          C.IsDiff(RecordingOf(suite[i], ResultOf(befores[i], text)), ResultOf(afters[i], text), diffs[i]))
    && report == ReportOf(suite, diffs, Results(befores, text), Results(afters, text))
  }

  function Results(outs: seq<Outcome>, text: Error -> string): (rs: seq<RunResult>)
    requires forall i :: 0 <= i < |outs| ==> !outs[i].Panicked? && !outs[i].Parked?
    ensures |rs| == |outs|
  {
    seq(|outs|, i requires 0 <= i < |outs| => ResultOf(outs[i], text))
  }

  lemma NothingCompared(a: World, b: World, text: Error -> string)
    ensures RunsOf(a, b, [], [], []) && Compares([], [], [], [], text, Report(0, [], [], 0, 0))
  {
  }

  lemma OneMoreCompared(a: World, b: World, suite: seq<SuiteEvent>, i: nat, befores: seq<Outcome>, afters: seq<Outcome>,
                        diffs: seq<seq<C.Difference>>, text: Error -> string, tallied: Report, report: Report,
                          out: Outcome, out': Outcome,
                        ds: seq<C.Difference>)
    requires i < |suite| && RunsOf(a, b, suite[..i], befores, afters)
             && Compares(suite[..i], befores, afters, diffs, text, tallied.(events := i))
    requires EndsWith(a, suite[i], out) && EndsWith(b, suite[i], out')
    requires !out.Panicked? && !out'.Panicked? && !out.Parked? && !out'.Parked?
    requires C.IsDiff(RecordingOf(suite[i], ResultOf(out, text)), ResultOf(out', text), ds)
    requires report.beforeErrors == tallied.beforeErrors + (if ResultOf(out, text).err.Some? then 1 else 0)
    requires report.afterErrors == tallied.afterErrors + (if ResultOf(out', text).err.Some? then 1 else 0)
    requires report.outcomes == tallied.outcomes + Listed(suite, i, ds, OutcomeChanged)
    requires report.explanations == tallied.explanations + Listed(suite, i, ds, ExplanationChanged)
    ensures RunsOf(a, b, suite[..i + 1], befores + [out], afters + [out'])
    ensures Compares(suite[..i + 1], befores + [out], afters + [out'], diffs + [ds], text, report.(events := i + 1))
  {
    hide EndsWith, C.IsDiff, ClassOf, Picked, Errors, Listed;
    assert suite[..i + 1] == suite[..i] + [suite[i]];
    OneMorePicked(suite, i, diffs, ds, OutcomeChanged);
    OneMorePicked(suite, i, diffs, ds, ExplanationChanged);
    assert Results(befores + [out], text) == Results(befores, text) + [ResultOf(out, text)];
    assert Results(afters + [out'], text) == Results(afters, text) + [ResultOf(out', text)];
    OneMoreError(Results(befores, text), ResultOf(out, text));
    OneMoreError(Results(afters, text), ResultOf(out', text));
  }

  /** The entry an event gets under a class, if any. */
  function Listed(suite: seq<SuiteEvent>, i: nat, ds: seq<C.Difference>, kind: Classification): seq<Change>
    requires i < |suite|
  {
    if ClassOf(ds) == kind then [Change(i, suite[i].workflow, suite[i].ctx, kind, ds)] else []
  }

  lemma OneMorePicked(suite: seq<SuiteEvent>, i: nat, diffs: seq<seq<C.Difference>>, ds: seq<C.Difference>,
                      kind: Classification)
    requires i < |suite| && |diffs| == i
    ensures Picked(suite[..i + 1], diffs + [ds], kind) == Picked(suite[..i], diffs, kind) + Listed(suite, i, ds, kind)
  {
    hide ClassOf;
    assert suite[..i + 1][..i] == suite[..i] && (diffs + [ds])[..i] == diffs;
  }

  lemma OneMoreError(results: seq<RunResult>, result: RunResult)
    ensures Errors(results + [result]) == Errors(results) + if result.err.Some? then 1 else 0
  {
    assert (results + [result])[..|results|] == results;
  }

  // ----- What the report means -----

  lemma {:induction false} NothingPicked(suite: seq<SuiteEvent>, diffs: seq<seq<C.Difference>>, kind: Classification)
    requires |suite| == |diffs| && kind != Same
    ensures Picked(suite, diffs, kind) == [] <==> forall i :: 0 <= i < |suite| ==> ClassOf(diffs[i]) != kind
  {
    PickedExactly(suite, diffs, kind);
    var cs := Picked(suite, diffs, kind);
    assert cs != [] ==> cs[0] in cs;
  }

  /** The two runs decide otherwise: one fails and the other does not, they fail with different texts, or they complete
      with outputs that differ on a field not the engine's own. */
  ghost predicate DecidesOtherwise(a: Outcome, b: Outcome, text: Error -> string)
  {
    if a.Finished? && b.Finished? then exists k :: !("cee." <= k) && C.Differs(a.output, b.output, k)
    else if a.Failed? && b.Failed? then text(a.error) != text(b.error)
    else true
  }

  /** Both complete, by traces with different texts or with outputs that differ on a field of the engine's own. */
  ghost predicate ToldOtherwise(a: Outcome, b: Outcome)
  {
    && a.Finished? && b.Finished?
    && (C.JoinTrace(a.trace) != C.JoinTrace(b.trace) || exists k :: "cee." <= k && C.Differs(a.output, b.output, k))
  }

  ghost predicate Ended(out: Outcome)
  {
    out.Finished? || out.Failed?
  }

  /** What a caller holds after a run is what the engine tells it, with the text of an error in place of the error. */
  lemma ResultIsReply(out: Outcome, pointer: string, text: Error -> string, reply: Reply)
    requires Answers(out, [], pointer, reply) && !out.Panicked?
    ensures var r := ResultWith(out, pointer, text);
            && reply.Reply? && r.output == reply.output && r.pointer == reply.pointer && r.trace == reply.trace
            && (r.err.Some? <==> reply.err.Some?)
            && (reply.err.Some? ==> reply.err.value.RunFailed? && r.err.value == text(reply.err.value.error))
  {
    match out
    case Finished(_, trace) => assert [] + trace == trace;
    case Parked(_, _, _, _, _, trace) => assert [] + trace == trace;
    case _ =>
  }

  /** What the comparison makes of one event is what its two runs say. */
  lemma EventExactly(e: SuiteEvent, a: Outcome, b: Outcome, text: Error -> string, diffs: seq<C.Difference>)
    requires Ended(a) && Ended(b) && C.IsDiff(RecordingOf(e, ResultOf(a, text)), ResultOf(b, text), diffs)
    ensures ClassOf(diffs).OutcomeChanged? <==> DecidesOtherwise(a, b, text)
    ensures diffs == [] <==> !DecidesOtherwise(a, b, text) && !ToldOtherwise(a, b)
  {
    hide C.Differs, C.JoinTrace, C.IsDiff, C.IsDifference;
    var rec, result := RecordingOf(e, ResultOf(a, text)), ResultOf(b, text);
    OutcomeExactly(rec, result, diffs);
    assert DecisionDiffers(rec, result) <==> DecidesOtherwise(a, b, text) by {
      assert forall k :: !C.Differs(map[], map[], k) by { NothingDiffers(); }
    }
    NoDiffsExactly(rec, result, diffs);
    assert forall k :: !C.Differs(map[], map[], k) by { NothingDiffers(); }
  }

  lemma NothingDiffers()
    ensures forall k :: !C.Differs(map[], map[], k)
  {
  }

  lemma NoDiffsExactly(rec: Recording, result: RunResult, diffs: seq<C.Difference>)
    requires C.IsDiff(rec, result, diffs)
    ensures diffs == [] <==>
              && !DecisionDiffers(rec, result) && C.JoinTrace(rec.trace) == C.JoinTrace(result.trace)
              && forall k :: BOOKKEEPING <= k ==> !C.Differs(rec.output, result.output, k)
  {
    hide C.Differs, C.JoinTrace;
    var keys :| C.DifferingKeys(rec.output, result.output, keys)
                && diffs == C.HeadDiffs(rec, result) + C.KeyDiffs(rec.output, result.output, keys);
    if diffs == [] {
      forall k ensures !C.Differs(rec.output, result.output, k) {
        assert k !in keys;
      }
    }
    if keys != [] {
      assert keys[0] in keys;
    }
  }

  lemma {:induction false} ErrorsCounted(results: seq<RunResult>)
    ensures Errors(results) == |set i | 0 <= i < |results| && results[i].err.Some?|
  {
    var all := set i | 0 <= i < |results| && results[i].err.Some?;
    if results == [] {
      assert all == {};
    } else {
      var n := |results| - 1;
      var init := set i | 0 <= i < n && results[..n][i].err.Some?;
      ErrorsCounted(results[..n]);
      assert all == init + if results[n].err.Some? then {n} else {};
    }
  }

  lemma FailuresCounted(outs: seq<Outcome>, text: Error -> string)
    requires forall i :: 0 <= i < |outs| ==> !outs[i].Panicked? && !outs[i].Parked?
    ensures Errors(Results(outs, text)) == |set i | 0 <= i < |outs| && outs[i].Failed?|
  {
    var rs := Results(outs, text);
    ErrorsCounted(rs);
    assert (set i | 0 <= i < |rs| && rs[i].err.Some?) == set i | 0 <= i < |outs| && outs[i].Failed?;
  }

  lemma EventTells(suite: seq<SuiteEvent>, befores: seq<Outcome>, afters: seq<Outcome>, diffs: seq<seq<C.Difference>>,
                   text: Error -> string, report: Report, i: nat)
    requires Compares(suite, befores, afters, diffs, text, report) && i < |suite|
    ensures ClassOf(diffs[i]).OutcomeChanged? <==> DecidesOtherwise(befores[i], afters[i], text)
    ensures diffs[i] == [] <==> !DecidesOtherwise(befores[i], afters[i], text) && !ToldOtherwise(befores[i], afters[i])
  {
    hide DecidesOtherwise, ToldOtherwise, C.IsDiff, ReportOf;
    EventExactly(suite[i], befores[i], afters[i], text, diffs[i]);
  }

  lemma ErrorsTell(suite: seq<SuiteEvent>, befores: seq<Outcome>, afters: seq<Outcome>, diffs: seq<seq<C.Difference>>,
                   text: Error -> string, report: Report)
    requires Compares(suite, befores, afters, diffs, text, report)
    ensures |befores| == |afters| == |diffs| == |suite| == report.events
    ensures report.beforeErrors == |set i | 0 <= i < |befores| && befores[i].Failed?|
    ensures report.afterErrors == |set i | 0 <= i < |afters| && afters[i].Failed?|
  {
    hide C.IsDiff, Errors, Results, Picked;
    FailuresCounted(befores, text);
    FailuresCounted(afters, text);
  }

  /** The report as the runs themselves call for it: an event is under the outcomes exactly when its two runs decide
      otherwise, under the explanations exactly when they only tell it otherwise, and the errors are the failed runs. */
  lemma ReportTells(suite: seq<SuiteEvent>, befores: seq<Outcome>, afters: seq<Outcome>,
                    diffs: seq<seq<C.Difference>>, text: Error -> string, report: Report)
    requires Compares(suite, befores, afters, diffs, text, report)
    ensures report.events == |suite|
    ensures forall i :: 0 <= i < |suite| ==>
              ((exists c :: c in report.outcomes && c.index == i) <==> DecidesOtherwise(befores[i], afters[i], text))
    ensures forall i :: 0 <= i < |suite| ==>
              ((exists c :: c in report.explanations && c.index == i)
               <==> !DecidesOtherwise(befores[i], afters[i], text) && ToldOtherwise(befores[i], afters[i]))
    ensures report.beforeErrors == |set i | 0 <= i < |befores| && befores[i].Failed?|
    ensures report.afterErrors == |set i | 0 <= i < |afters| && afters[i].Failed?|
  {
    hide DecidesOtherwise, ToldOtherwise, Compares, Lists;
    ErrorsTell(suite, befores, afters, diffs, text, report);
    ReportLists(suite, befores, afters, diffs, text, report);
    forall i | 0 <= i < |suite|
      ensures (exists c :: c in report.outcomes && c.index == i) <==> DecidesOtherwise(befores[i], afters[i], text)
      ensures (exists c :: c in report.explanations && c.index == i)
              <==> !DecidesOtherwise(befores[i], afters[i], text) && ToldOtherwise(befores[i], afters[i])
    {
      EventTells(suite, befores, afters, diffs, text, report, i);
      ListsHas(suite, diffs, OutcomeChanged, report.outcomes, i);
      ListsHas(suite, diffs, ExplanationChanged, report.explanations, i);
    }
  }

  lemma ReportLists(suite: seq<SuiteEvent>, befores: seq<Outcome>, afters: seq<Outcome>,
                    diffs: seq<seq<C.Difference>>, text: Error -> string, report: Report)
    requires Compares(suite, befores, afters, diffs, text, report)
    ensures |diffs| == |suite| && Lists(suite, diffs, OutcomeChanged, report.outcomes)
    ensures Lists(suite, diffs, ExplanationChanged, report.explanations)
  {
    hide C.IsDiff, Errors, Results, Picked, Lists;
    PickedExactly(suite, diffs, OutcomeChanged);
    PickedExactly(suite, diffs, ExplanationChanged);
  }

  lemma ListsHas(suite: seq<SuiteEvent>, diffs: seq<seq<C.Difference>>, kind: Classification, cs: seq<Change>, i: nat)
    requires |suite| == |diffs| && i < |suite| && Lists(suite, diffs, kind, cs)
    ensures (exists c :: c in cs && c.index == i) <==> ClassOf(diffs[i]) == kind
  {
    hide ClassOf;
    if ClassOf(diffs[i]) == kind {
      assert Change(i, suite[i].workflow, suite[i].ctx, kind, diffs[i]) in cs;
    }
  }

  /** An event is under the outcomes exactly when its decision came out differently, and the report is clean exactly
      when no event shows any difference. */
  lemma ReportIsExact(suite: seq<SuiteEvent>, befores: seq<Outcome>, afters: seq<Outcome>,
                      diffs: seq<seq<C.Difference>>, text: Error -> string, report: Report)
    requires Compares(suite, befores, afters, diffs, text, report)
    ensures forall i :: 0 <= i < |suite| ==>
              ((exists c :: c in report.outcomes && c.index == i)
               <==> DecisionDiffers(RecordingOf(suite[i], ResultOf(befores[i], text)), ResultOf(afters[i], text)))
    ensures forall i :: 0 <= i < |suite| ==>
              ((exists c :: c in report.explanations && c.index == i) <==> ClassOf(diffs[i]) == ExplanationChanged)
    ensures report.Clean() <==> forall i :: 0 <= i < |suite| ==> diffs[i] == []
  {
    hide DecisionDiffers, C.IsDiff, Picked;
    PickedExactly(suite, diffs, OutcomeChanged);
    PickedExactly(suite, diffs, ExplanationChanged);
    NothingPicked(suite, diffs, OutcomeChanged);
    NothingPicked(suite, diffs, ExplanationChanged);
    forall i | 0 <= i < |suite|
      ensures ClassOf(diffs[i]) == OutcomeChanged
              <==> DecisionDiffers(RecordingOf(suite[i], ResultOf(befores[i], text)), ResultOf(afters[i], text))
    {
      OutcomeExactly(RecordingOf(suite[i], ResultOf(befores[i], text)), ResultOf(afters[i], text), diffs[i]);
    }
  }

  lemma SameResultNoDiff(e: SuiteEvent, result: RunResult, diffs: seq<C.Difference>)
    requires C.IsDiff(RecordingOf(e, result), result, diffs)
    ensures diffs == []
  {
    C.AgreeingShowNothing(RecordingOf(e, result), result, diffs);
  }

  /** Comparing a manifest with itself shows nothing, unless a run ends in a join conflict over several fields, where
      two runs may name two of them. */
  lemma SelfDiffIsClean(w: World, suite: seq<SuiteEvent>, text: Error -> string, report: Report)
    requires IsReport(w, w, suite, text, report)
    requires forall e :: e in suite ==> !ManyFields(RunOf(w, Launch(e.workflow, "", e.ctx, 0, [])).out)
    ensures report.Clean() && report.beforeErrors == report.afterErrors && report.events == |suite|
  {
    hide RunOf, C.IsDiff, Picked, Agrees;
    var befores, afters, diffs :| RunsOf(w, w, suite, befores, afters)
      && Compares(suite, befores, afters, diffs, text, report);
    forall i | 0 <= i < |suite| ensures befores[i] == afters[i] {
      var out := RunOf(w, Launch(suite[i].workflow, "", suite[i].ctx, 0, [])).out;
      assert EndsWith(w, suite[i], befores[i]) && EndsWith(w, suite[i], afters[i]);
      OneFieldAgrees(out, befores[i]);
      OneFieldAgrees(out, afters[i]);
    }
    SameRunsNoChange(suite, befores, afters, diffs, text, report);
  }

  lemma SameRunsNoChange(suite: seq<SuiteEvent>, befores: seq<Outcome>, afters: seq<Outcome>,
                         diffs: seq<seq<C.Difference>>,
                         text: Error -> string, report: Report)
    requires Compares(suite, befores, afters, diffs, text, report)
    requires forall i :: 0 <= i < |suite| ==> befores[i] == afters[i]
    ensures report.Clean() && report.beforeErrors == report.afterErrors
  {
    hide C.IsDiff, Picked;
    forall i | 0 <= i < |suite| ensures diffs[i] == [] {
      SameResultNoDiff(suite[i], ResultOf(befores[i], text), diffs[i]);
    }
    ReportIsExact(suite, befores, afters, diffs, text, report);
    assert befores == afters;
  }

  /** The text of a conflict tells which field it stopped at. */
  ghost predicate TellsTheField(text: Error -> string)
  {
    forall c: Conflict, d: Conflict :: c.(field := d.field) == d && c != d ==>
      text(ConflictingBranchWrites(c)) != text(ConflictingBranchWrites(d))
  }

  /** The same conflict, stopped at another field. */
  lemma OtherField(out: Outcome) returns (other: Outcome)
    requires ManyFields(out)
    ensures Agrees(out, other) && InConflict(other) && other.error.conflict != out.error.conflict
  {
    var c := out.error.conflict;
    assert |c.rivals.Keys - {c.field}| == |c.rivals.Keys| - 1 && |c.rivals.Keys| == |c.rivals|;
    var k :| k in c.rivals.Keys - {c.field};
    other := Failed(ConflictingBranchWrites(c.(field := k)));
  }

  ghost function EndOf(w: World, e: SuiteEvent): Outcome
  {
    RunOf(w, Launch(e.workflow, "", e.ctx, 0, [])).out
  }

  /** The differences between two ends with the same output, event by event. */
  ghost function Heads(suite: seq<SuiteEvent>, befores: seq<Outcome>, afters: seq<Outcome>,
                       text: Error -> string): (diffs: seq<seq<C.Difference>>)
    requires |befores| == |afters| == |suite| && NoneParksOrPanics(befores) && NoneParksOrPanics(afters)
    ensures |diffs| == |suite|
  {
    seq(|suite|, i requires 0 <= i < |suite| =>
      C.HeadDiffs(RecordingOf(suite[i], ResultOf(befores[i], text)), ResultOf(afters[i], text)))
  }

  ghost predicate NoneParksOrPanics(outs: seq<Outcome>)
  {
    forall i :: 0 <= i < |outs| ==> !outs[i].Panicked? && !outs[i].Parked?
  }

  lemma HeadsCompare(suite: seq<SuiteEvent>, befores: seq<Outcome>, afters: seq<Outcome>, j: nat, text: Error -> string)
    requires |befores| == |afters| == |suite| && NoneParksOrPanics(befores) && NoneParksOrPanics(afters) && j < |suite|
    requires forall i :: 0 <= i < |suite| && i != j ==> befores[i] == afters[i]
    requires befores[j].Failed? && afters[j].Failed?
    ensures var diffs := Heads(suite, befores, afters, text);
            Compares(suite, befores, afters, diffs, text,
                     ReportOf(suite, diffs, Results(befores, text), Results(afters, text)))
  {
    hide C.IsDiff, C.HeadDiffs, ReportOf;
    forall i | 0 <= i < |suite|
      ensures C.IsDiff(RecordingOf(suite[i], ResultOf(befores[i], text)), ResultOf(afters[i], text),
                       Heads(suite, befores, afters, text)[i])
    {
      C.SameOutputsHeadOnly(RecordingOf(suite[i], ResultOf(befores[i], text)), ResultOf(afters[i], text));
    }
  }

  /** Two runs of an event in a conflict over several fields may name two of them, and then the comparison shows it. */
  lemma SelfDiffMayShow(w: World, suite: seq<SuiteEvent>, j: nat, text: Error -> string) returns (report: Report)
    requires forall e :: e in suite ==> !EndOf(w, e).Panicked? && !EndOf(w, e).Parked?
    requires TellsTheField(text) && j < |suite| && ManyFields(EndOf(w, suite[j]))
    ensures IsReport(w, w, suite, text, report) && !report.Clean()
  {
    hide RunOf, C.IsDiff, Picked, ReportOf, Compares, ManyFields, DecisionDiffers, ClassOf;
    var befores := seq(|suite|, i requires 0 <= i < |suite| => EndOf(w, suite[i]));
    var other := OtherField(befores[j]);
    var afters := befores[j := other];
    var diffs := Heads(suite, befores, afters, text);
    report := ReportOf(suite, diffs, Results(befores, text), Results(afters, text));
    HeadsCompare(suite, befores, afters, j, text);
    assert RunsOf(w, w, suite, befores, afters);
    ReportIsExact(suite, befores, afters, diffs, text, report);
    assert text(befores[j].error) != text(other.error);
    assert diffs[j] != [];
  }

  /** Comparing a manifest with itself is sure to show nothing exactly when no run ends in a conflict over several
      fields, given a text that names the field; runs that panic or park get no report. */
  lemma SelfDiffExactly(w: World, suite: seq<SuiteEvent>, text: Error -> string)
    requires forall e :: e in suite ==> !EndOf(w, e).Panicked? && !EndOf(w, e).Parked?
    requires TellsTheField(text)
    ensures (forall report :: IsReport(w, w, suite, text, report) ==> report.Clean())
            <==> forall e :: e in suite ==> !ManyFields(EndOf(w, e))
  {
    hide RunOf, IsReport, TellsTheField;
    if forall e :: e in suite ==> !ManyFields(EndOf(w, e)) {
      forall report | IsReport(w, w, suite, text, report) ensures report.Clean() {
        SelfDiffIsClean(w, suite, text, report);
      }
    } else {
      var j :| 0 <= j < |suite| && ManyFields(EndOf(w, suite[j]));
      var report := SelfDiffMayShow(w, suite, j, text);
    }
  }
}
