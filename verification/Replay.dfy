/** Recording a run's probe answers and playing them back. */
module Replay {
  import opened Basics
  import opened Values
  import opened Workflows

  /** One probe answer as a recording keeps it; an error without text looks like no error. */
  datatype Recorded = Recorded(ref: string, domain: string, healthy: bool, mode: string, err: string)

  function RecordOf(ref: string, domain: string, v: ProbeVerdict): Recorded
  {
    Recorded(ref, domain, v.healthy, v.mode, if v.err.Some? then v.err.value else "")
  }

  function PlayedBack(rec: Recorded): ProbeVerdict
  {
    ProbeVerdict(rec.healthy, rec.mode, if rec.err != "" then Some(rec.err) else None)
  }

  /** A recording gives back exactly the answers whose errors have a text. */
  lemma RecordedFaithfully(ref: string, domain: string, v: ProbeVerdict)
    ensures PlayedBack(RecordOf(ref, domain, v)) == v <==> v.err != Some("")
    ensures v.err == Some("") ==> (Refusal(PlayedBack(RecordOf(ref, domain, v))).Some? <==> !v.healthy)
  {
  }

  // ----- Recording -----

  /** How a run ended, as `Finish` is handed it: the error text if it failed. */
  datatype RunResult = RunResult(output: Context, pointer: string, trace: seq<string>, err: Option<string>)

  /** What a caller of the engine holds after a run that ended this way; `pointer` is the one a suspension was saved
      under. */
  function ResultWith(out: Outcome, pointer: string, text: Error -> string): RunResult
    requires !out.Panicked?
  {
    match out
    case Finished(output, trace) => RunResult(output, "", trace, None)
    case Parked(_, _, _, _, ctx, trace) => RunResult(ctx, pointer, trace, None)
    case Failed(e) => RunResult(map[], "", [], Some(text(e)))
  }

  datatype Recording = Recording(
    workflow: string, input: Context, probes: seq<Recorded>, trace: seq<string>, output: Context,
    suspended: bool, failed: bool, error: string)

  /** A finished recording: the answers kept, and how the run ended. */
  function RecordingFrom(workflow: string, input: Context, probes: seq<Recorded>, result: RunResult): Recording
  {
    Recording(workflow, input, probes, result.trace, result.output, result.pointer != "",
              result.err.Some?, if result.err.Some? then result.err.value else "")
  }

  class Recorder {
    const inner: Option<Prober>
    var verdicts: seq<Recorded>

    constructor (inner: Option<Prober>)
      ensures this.inner == inner && verdicts == []
    {
      this.inner := inner;
      verdicts := [];
    }

    /** Passes the question on and keeps the answer; without an inner prober it answers with an error and keeps nothing.
        */
    method Probe(at: Path, ref: string, domain: string, ctx: Context) returns (v: ProbeVerdict)
      modifies this
      ensures inner.Some? ==>
                && v == inner.value(at, ref, domain, ctx)
                && verdicts == old(verdicts) + [Recorded(ref, domain, v.healthy, v.mode,
                                                         if v.err.Some? then v.err.value else "")]
      ensures inner.None? ==> v.err.Some? && verdicts == old(verdicts)
    {
      if inner.None? {
        return ProbeVerdict(false, "", Some("replay: no sandbox configured, but " + ref + " was probed"));
      }
      v := inner.value(at, ref, domain, ctx);
      verdicts := verdicts + [RecordOf(ref, domain, v)];
    }

    method Finish(workflow: string, input: Context, result: RunResult) returns (rec: Recording)
      ensures rec == RecordingFrom(workflow, input, verdicts, result)
      ensures rec.workflow == workflow && rec.input == input && rec.probes == verdicts && rec.trace == result.trace
      ensures rec.output == result.output && (rec.suspended <==> result.pointer != "")
      ensures (rec.failed <==> result.err.Some?) && (result.err.Some? ==> rec.error == result.err.value)
    {
      rec := Recording(workflow, input, verdicts, result.trace, result.output, result.pointer != "", false, "");
      if result.err.Some? {
        rec := rec.(failed := true, error := result.err.value);
      }
    }
  }

  // ----- Playing back -----

  type QueueTable = map<string, seq<Recorded>>

  /** What was recorded for one reference, in order. */
  function On(recs: seq<Recorded>, ref: string): (q: seq<Recorded>)
  {
    Select(recs, (rec: Recorded) => rec.ref == ref)
  }

  /** The recording sorted into one queue for each reference it mentions. */
  ghost predicate QueuesOf(recs: seq<Recorded>, queues: QueueTable)
  {
    && (forall ref :: ref in queues <==> On(recs, ref) != [])
    && (forall ref :: ref in queues ==> queues[ref] == On(recs, ref))
  }

  function Held(queues: QueueTable, ref: string): seq<Recorded>
  {
    if ref in queues then queues[ref] else []
  }

  /** The next answer is taken off its queue, except that the last one stays for good. */
  function Pop(queues: QueueTable, ref: string): QueueTable
  {
    if |Held(queues, ref)| > 1 then queues[ref := Held(queues, ref)[1..]] else queues
  }

  function NothingRecorded(ref: string): ProbeVerdict
  {
    ProbeVerdict(false, "replay: the recording holds no verdict for probe " + ref, None)
  }

  function AnswerOf(queues: QueueTable, ref: string): ProbeVerdict
  {
    if Held(queues, ref) != [] then PlayedBack(Held(queues, ref)[0]) else NothingRecorded(ref)
  }

  /** The recorded answer as it was given, an error without text being none. */
  ghost predicate Replays(rec: Recorded, v: ProbeVerdict)
  {
    && v.healthy == rec.healthy && v.mode == rec.mode
    && (rec.err == "" ==> v.err.None?) && (rec.err != "" ==> v.err == Some(rec.err))
  }

  /** The queue of `ref` has lost its first answer, unless that was its last; the other queues are as they were. */
  ghost predicate MovesOn(before: QueueTable, after: QueueTable, ref: string)
    requires Held(before, ref) != []
  {
    && after.Keys == before.Keys && (forall other :: other in before && other != ref ==> after[other] == before[other])
    && after[ref] == if |before[ref]| == 1 then before[ref] else before[ref][1..]
  }

  lemma NoQueues()
    ensures QueuesOf([], map[])
  {
  }

  lemma OneMoreOn(recs: seq<Recorded>, i: nat, ref: string)
    requires i < |recs|
    ensures On(recs[..i + 1], ref) == On(recs[..i], ref) + if recs[i].ref == ref then [recs[i]] else []
  {
    assert recs[..i + 1] == recs[..i] + [recs[i]];
    SelectConcat(recs[..i], [recs[i]], (rec: Recorded) => rec.ref == ref);
  }

  lemma QueuesGrow(recs: seq<Recorded>, i: nat, queues: QueueTable)
    requires i < |recs| && QueuesOf(recs[..i], queues)
    ensures QueuesOf(recs[..i + 1], queues[recs[i].ref := Held(queues, recs[i].ref) + [recs[i]]])
  {
    hide On;
    forall ref ensures On(recs[..i + 1], ref) == On(recs[..i], ref) + if recs[i].ref == ref then [recs[i]] else [] {
      OneMoreOn(recs, i, ref);
    }
  }

  class Player {
    var byRef: QueueTable
    var unmatched: seq<string>
    var fallback: Option<Prober>

    constructor (rec: Recording)
      ensures QueuesOf(rec.probes, byRef) && unmatched == [] && fallback == None
    {
      hide QueuesOf;
      var queues: QueueTable := map[];
      NoQueues();
      for i := 0 to |rec.probes|
        invariant QueuesOf(rec.probes[..i], queues)
      {
        var v := rec.probes[i];
        QueuesGrow(rec.probes, i, queues);
        queues := queues[v.ref := Held(queues, v.ref) + [v]];
      }
      assert rec.probes[..|rec.probes|] == rec.probes;
      byRef, unmatched, fallback := queues, [], None;
    }

    /** The next recorded answer on the reference; a reference the recording never saw is noted, and goes to the
        fallback if there is one. */
    method Probe(at: Path, ref: string, domain: string, ctx: Context) returns (v: ProbeVerdict)
      modifies this
      ensures fallback == old(fallback) && byRef == Pop(old(byRef), ref)
      ensures Held(old(byRef), ref) != [] ==>
                && unmatched == old(unmatched) && v == AnswerOf(old(byRef), ref)
                && Replays(Held(old(byRef), ref)[0], v) && MovesOn(old(byRef), byRef, ref)
      ensures Held(old(byRef), ref) == [] ==>
                && unmatched == old(unmatched) + [ref] && byRef == old(byRef)
                && if fallback.Some? then v == fallback.value(at, ref, domain, ctx)
                   else v == NothingRecorded(ref) && !v.healthy && v.err.None?
    {
      var queued := if ref in byRef then byRef[ref] else [];
      if |queued| > 0 {
        if |queued| > 1 {
          byRef := byRef[ref := queued[1..]];
        }
        return PlayedBack(queued[0]);
      }
      unmatched := unmatched + [ref];
      if fallback.Some? {
        return fallback.value(at, ref, domain, ctx);
      }
      v := NothingRecorded(ref);
    }
  }

  // ----- A queue over time -----

  /** The queue after `k` answers: what is left of the recording, and its last answer once all are used. */
  function Left(all: seq<Recorded>, k: nat): (q: seq<Recorded>)
    ensures all != [] ==> q != []
    ensures k < |all| ==> q == all[k..]
  {
    if all == [] then [] else if k < |all| then all[k..] else all[|all| - 1..]
  }

  lemma PopLeft(queues: QueueTable, ref: string, all: seq<Recorded>, k: nat, other: string)
    requires Held(queues, ref) == Left(all, k)
    ensures Held(Pop(queues, ref), ref) == Left(all, k + 1)
    ensures other != ref ==> Held(Pop(queues, ref), other) == Held(queues, other)
  {
  }
}
