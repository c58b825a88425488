/** The data the engine works on: step tables, errors, and what a run leaves behind. */
module Workflows {
  import opened Basics
  import opened Values

  // ----- Steps and tables -----

  /** An action reads the context it is given and leaves it alone; `Suspended` is the error that parks a run. */
  datatype ActionResult =
    | Output(fields: Context)
    | Failure(reason: string)
    | Suspended(reason: string, audience: string)
    | Panic(value: string)

  type Action = Context -> ActionResult

  /** A `Foreign` step is any implementation of the Step interface that is none of the engine's three. */
  datatype Step =
    | Leaf(id: string, run: Action, probeRef: string, policyRef: string, onSuccess: string, compensateRef: string)
    | Composite(id: string, subRef: string, policyRef: string, onSuccess: string)
    | Parallel(id: string, branches: seq<string>, policyRef: string, onSuccess: string)
    | Foreign(id: string, policyRef: string)

  datatype Workflow = Workflow(id: string, domain: string, entry: string, steps: map<string, Step>)

  datatype Policy = Policy(id: string, fallback: string)

  // ----- Probes -----

  datatype ProbeVerdict = ProbeVerdict(healthy: bool, mode: string, err: Option<string>)

  /** Where in a run something happens: the frame's position, two numbers for each frame below the top one
      (the visit of the enclosing frame that started it, and which branch it is). */
  type Path = seq<nat>

  /** A prober may answer every probe point of a run as it likes, which covers a stateful one. */
  type Prober = (Path, string, string, Context) -> ProbeVerdict

  /** Why the verdict stops the step, if it does. */
  function Refusal(v: ProbeVerdict): Option<string>
  {
    if v.err.Some? then v.err else if !v.healthy then Some(v.mode) else None
  }

  // ----- Errors -----

  datatype UndoProblem = MissingStep(workflow: string, step: string) | NotALeaf | Refused(reason: string)

  datatype UndoFailure = UndoFailure(step: string, via: string, why: UndoProblem)

  datatype BranchFailure = BranchFailure(branch: string, reason: string)

  /** What a join in conflict is about: the step, the branch that came second, and every field on which it disagrees
      with an earlier branch. The engine stops at one of these fields, `field`, and its error shows `rivals[field]`. */
  datatype Dispute = Dispute(step: string, second: string, rivals: map<string, Rivals>, field: string)

  type Conflict = d: Dispute | d.field in d.rivals
    witness Dispute("", "", map["" := Rivals("", Null, Null)], "")

  datatype Error =
    | CircuitBreakerTripped(step: string, reason: string, compensated: seq<string>, failures: seq<UndoFailure>)
    | StepLimitExceeded(workflow: string, limit: nat, recent: seq<string>)
    | DepthLimitExceeded(workflow: string, limit: nat)
    | NoWorkflow(ref: string)
    | NoStep(workflow: string, step: string)
    | UnknownStepType(step: string)
    | NoSandbox(step: string, probe: string)
    | NestedSuspensionUnsupported(workflow: string, step: string)
    | NoSuspensionSupport(workflow: string, step: string)
    | NoBranches(workflow: string, step: string)
    | ConflictingBranchWrites(conflict: Conflict)
    | BranchPanicked(step: string, branch: string, value: string)
    | BranchesFailed(step: string, total: nat, branchFailures: seq<BranchFailure>)

  /** An error without its details. */
  datatype Kind =
    | KTripped | KStepLimit | KDepthLimit | KNoWorkflow | KNoStep | KUnknownType | KNoSandbox
    | KNested | KNoStore | KNoBranches | KConflict | KPanicked | KBranchesFailed

  function KindOf(e: Error): Kind
  {
    match e
    case CircuitBreakerTripped(_, _, _, _) => KTripped
    case StepLimitExceeded(_, _, _) => KStepLimit
    case DepthLimitExceeded(_, _) => KDepthLimit
    case NoWorkflow(_) => KNoWorkflow
    case NoStep(_, _) => KNoStep
    case UnknownStepType(_) => KUnknownType
    case NoSandbox(_, _) => KNoSandbox
    case NestedSuspensionUnsupported(_, _) => KNested
    case NoSuspensionSupport(_, _) => KNoStore
    case NoBranches(_, _) => KNoBranches
    case ConflictingBranchWrites(_) => KConflict
    case BranchPanicked(_, _, _) => KPanicked
    case BranchesFailed(_, _, _) => KBranchesFailed
  }

  /** The kinds no circuit breaker may absorb. */
  predicate Bypassing(k: Kind)
  {
    k in {KStepLimit, KDepthLimit, KNested, KNoStore, KNoBranches, KConflict, KPanicked}
  }

  predicate BypassesBreaker(e: Error): (yes: bool)
    ensures yes <==> e.StepLimitExceeded? || e.DepthLimitExceeded? || e.NestedSuspensionUnsupported?
                     || e.NoSuspensionSupport? || e.NoBranches? || e.ConflictingBranchWrites? || e.BranchPanicked?
  {
    Bypassing(KindOf(e))
  }

  // ----- What a run leaves behind -----

  datatype What =
    | Visited(ref: string, key: string, visit: nat, ctx: Context, leaf: bool)
    | ProbeObserved(step: string)
    | ProbeAsked(ref: string, verdict: ProbeVerdict)
    | ProbeOutcome(step: string, healthy: bool)
    | StepObserved(step: string)
    | Succeeded(ref: string, key: string, step: string, via: string, fields: Context)
    | BreakerObserved(ref: string, key: string)
    | Diverted(fallback: string)
    | Compensating(via: string)
    | Abandoned(ctx: Context)
    | ActionPanicked
    | SuspensionReached(step: string)
    | Raised(kind: Kind)

  /** Something a frame did: its calls to observers and probers, and the turns it took. A step is named by the
      workflow it belongs to and its key there, since ids are unique within one workflow only. */
  datatype Event = Event(at: Path, what: What)

  type Log = seq<Event>

  /** How a frame ends. `Parked` is a suspension before its pointer is drawn; `Panicked` is a panic nobody recovered
      yet. */
  datatype Outcome =
    | Finished(output: Context, trace: seq<string>)
    | Parked(workflow: string, step: string, reason: string, audience: string, ctx: Context, trace: seq<string>)
    | Failed(error: Error)
    | Panicked(value: string)

  predicate InConflict(out: Outcome)
  {
    out.Failed? && out.error.ConflictingBranchWrites?
  }

  /** Which of the fields in a many-field conflict gets named is up to map iteration order; everything else is
      determined, down to the writers and values of every field in conflict. */
  ghost predicate Agrees(a: Outcome, b: Outcome)
  {
    || a == b
    || (&& InConflict(a) && InConflict(b)
        && a.error.conflict.(field := b.error.conflict.field) == b.error.conflict)
  }

  /** A conflict over more than one field. */
  predicate ManyFields(out: Outcome)
  {
    InConflict(out) && |out.error.conflict.rivals| > 1
  }

  lemma OneFieldOnly(c: Conflict, field: string)
    requires |c.rivals| <= 1 && field in c.rivals
    ensures field == c.field
  {
    var others := c.rivals.Keys - {c.field};
    assert |others| == |c.rivals.Keys| - 1 && |c.rivals.Keys| == |c.rivals|;
    assert field in others <==> field != c.field;
  }

  /** A conflict over one field is determined like every other outcome. */
  lemma OneFieldAgrees(a: Outcome, b: Outcome)
    requires Agrees(a, b) && !ManyFields(a)
    ensures a == b
  {
    if a != b {
      OneFieldOnly(a.error.conflict, b.error.conflict.field);
    }
  }

  // ----- The engine's tables, fixed during a run -----

  datatype World = World(
    workflows: map<string, Workflow>,
    policies: map<string, Policy>,
    sandbox: Option<Prober>,
    hasStore: bool,
    maxSteps: nat,
    maxDepth: nat,
    text: Error -> string)

  const FAILURE_REASON_KEY := "cee.failure_reason"
  const FAILED_STEP_KEY := "cee.failed_step"
  const RESUMED_BY_KEY := "cee.resumed_by"
  const MODEL_DERIVED_KEY := "cee.model_derived"
}
