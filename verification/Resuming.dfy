/** Who may resume a suspended run, from where it goes on, and what the caller is told. */
module Resuming {
  import opened Basics
  import opened Values
  import opened Workflows
  import opened BigStep
  import opened Stores
  import opened Suspension

  datatype ResumeAttempt = ResumeAttempt(audience: string, identity: string, workflow: string, step: string,
                                         reason: string)

  datatype Decision = Allowed | Denied(reason: string) | CheckFailed(reason: string)

  type Authorizer = ResumeAttempt -> Decision

  datatype ApiError =
    | RunFailed(error: Error)
    | NoStoreConfigured
    | UnknownPointer(pointer: string)
    | WorkflowGone(workflow: string)
    | StepGone(workflow: string, step: string)
    | StepNoLongerLeaf(step: string)
    | NotAuthorized(audience: string, identity: string, workflow: string, reason: string)

  /** What a caller of the engine gets back; a top-level panic gets back to the caller too. */
  datatype Reply =
    | Reply(output: Context, pointer: string, trace: seq<string>, err: Option<ApiError>)
    | Crashed(value: string)

  /** Anyone may resume a suspension without an audience; one with an audience only whom an authorizer, asked about
      exactly this suspension and this identity, allows. */
  ghost predicate Authorised(authorizer: Option<Authorizer>, state: State, identity: string)
  {
    state.audience != "" ==> authorizer.Some? && Verdict(authorizer.value, state, identity) == Allowed
  }

  ghost function Verdict(authorizer: Authorizer, state: State, identity: string): Decision
  {
    authorizer(ResumeAttempt(state.audience, identity, state.workflow, state.step, state.reason))
  }

  /** The refusal names who was refused what, and carries the authorizer's reason; a check that fails refuses too. */
  ghost predicate RefusesWith(authorizer: Option<Authorizer>, state: State, identity: string, err: ApiError)
  {
    && err.NotAuthorized? && err.audience == state.audience && err.identity == identity
    && err.workflow == state.workflow
    && (authorizer.None? ==> err.reason == "this suspension declares an audience but no Authorizer is configured; "
                                           + "call Engine.SetAuthorizer")
    && (authorizer.Some? ==>
          match Verdict(authorizer.value, state, identity)
          case Allowed => false
          case Denied(reason) => err.reason == reason
          case CheckFailed(reason) => err.reason == "authorization check failed: " + reason)
  }

  /** Why this identity may not resume, if it may not. */
  function Denial(authorizer: Option<Authorizer>, state: State, identity: string): (err: Option<ApiError>)
    ensures err.None? <==> Authorised(authorizer, state, identity)
    ensures err.Some? ==> RefusesWith(authorizer, state, identity, err.value)
  {
    if state.audience == "" then None
    else if authorizer.None? then
      Some(NotAuthorized(state.audience, identity, state.workflow,
                         "this suspension declares an audience but no Authorizer is configured; "
                         + "call Engine.SetAuthorizer"))
    else
      match authorizer.value(ResumeAttempt(state.audience, identity, state.workflow, state.step, state.reason))
      case Allowed => None
      case Denied(reason) => Some(NotAuthorized(state.audience, identity, state.workflow, reason))
      case CheckFailed(reason) =>
        Some(NotAuthorized(state.audience, identity, state.workflow, "authorization check failed: " + reason))
  }

  /** The pointer is pending, and its workflow still has the suspended step, as a leaf. */
  ghost predicate Resumable(w: World, states: map<string, State>, pointer: string)
  {
    && w.hasStore && pointer in states && states[pointer].workflow in w.workflows
    && states[pointer].step in w.workflows[states[pointer].workflow].steps
    && w.workflows[states[pointer].workflow].steps[states[pointer].step].Leaf?
  }

  /** What the caller of a refused attempt is told: the first of these things that is wrong. */
  ghost predicate TellsWhy(w: World, authorizer: Option<Authorizer>, states: map<string, State>, pointer: string,
                           identity: string, err: ApiError)
  {
    if !w.hasStore then err == NoStoreConfigured
    else if pointer !in states then err == UnknownPointer(pointer)
    else
      var state := states[pointer];
      if state.workflow !in w.workflows then err == WorkflowGone(state.workflow)
      else if state.step !in w.workflows[state.workflow].steps then err == StepGone(state.workflow, state.step)
      else if !w.workflows[state.workflow].steps[state.step].Leaf? then err == StepNoLongerLeaf(state.step)
      else RefusesWith(authorizer, state, identity, err)
  }

  /** The resolution, with the identity on record when there is one. */
  function Given(resolution: Context, identity: string): Context
  {
    if identity == "" then resolution else resolution[RESUMED_BY_KEY := Text(identity)]
  }

  /** A resumed run starts at the suspended leaf's next step, on the saved context and what the resolution adds. */
  function ResumeLaunch(state: State, leaf: Step, resolution: Context, identity: string): Launch
    requires leaf.Leaf?
  {
    var ctx := Merge(state.ctx, resolution);
    Launch(state.workflow, leaf.onSuccess, if identity == "" then ctx else ctx[RESUMED_BY_KEY := Text(identity)], 0, [])
  }

  /** The context a resumed run starts from: the saved one, overlaid with the resolution and, when there is one, the
      identity of whoever resumed it. */
  ghost predicate StartsFrom(state: State, resolution: Context, identity: string, ctx: Context)
  {
    Overlaid(state.ctx, if identity == "" then resolution else resolution["cee.resumed_by" := Text(identity)], ctx)
  }

  lemma ResumesFrom(state: State, leaf: Step, resolution: Context, identity: string)
    requires leaf.Leaf?
    ensures var l := ResumeLaunch(state, leaf, resolution, identity);
            && l.ctx == Merge(state.ctx, Given(resolution, identity)) && StartsFrom(state, resolution, identity, l.ctx)
            && l == Launch(state.workflow, leaf.onSuccess, l.ctx, 0, [])
  {
    if identity != "" {
      MergeUpdate(state.ctx, resolution, RESUMED_BY_KEY, Text(identity));
    }
  }

  lemma MergeUpdate(base: Context, overlay: Context, key: string, value: Value)
    ensures Merge(base, overlay)[key := value] == Merge(base, overlay[key := value])
  {
  }

  function StateOf(out: Outcome, pointer: string): State
    requires out.Parked?
  {
    State(pointer, out.workflow, out.step, out.reason, out.audience, out.ctx, out.trace)
  }

  function ReplyOf(out: Outcome, pointer: string): Reply
  {
    match out
    case Finished(output, trace) => Reply(output, "", trace, None)
    case Parked(_, _, _, _, ctx, trace) => Reply(ctx, pointer, trace, None)
    case Failed(e) => Reply(map[], "", [], Some(RunFailed(e)))
    case Panicked(value) => Crashed(value)
  }

  /** The trace before the suspension goes in front of the trace since. */
  function WithPast(trace: seq<string>, reply: Reply): Reply
  {
    if reply.Crashed? then reply else reply.(trace := trace + reply.trace)
  }

  /** What a caller is told of a run that ended this way, when `past` is the trace before its last suspension: a parked
      run hands back its pointer, a failed one its error, and a panic gets back to the caller as it is. */
  ghost predicate Answers(out: Outcome, past: seq<string>, pointer: string, reply: Reply)
  {
    match out
    case Finished(output, trace) => reply == Reply(output, "", past + trace, None)
    case Parked(_, _, _, _, ctx, trace) => reply == Reply(ctx, pointer, past + trace, None)
    case Failed(e) => reply == Reply(map[], "", past, Some(RunFailed(e)))
    case Panicked(value) => reply == Crashed(value)
  }

  /** The saved states afterwards: a parked run is saved whole under its pointer, and nothing else changes. */
  ghost predicate Saves(out: Outcome, pointer: string, before: map<string, State>, after: map<string, State>)
  {
    match out
    case Parked(workflow, step, reason, audience, ctx, trace) =>
      after == before[pointer := State(pointer, workflow, step, reason, audience, ctx, trace)]
    case _ => after == before
  }

  lemma Answering(out: Outcome, past: seq<string>, pointer: string)
    ensures Answers(out, past, pointer, WithPast(past, ReplyOf(out, pointer)))
    ensures past == [] ==> Answers(out, past, pointer, ReplyOf(out, pointer))
  {
    assert past + [] == past;
    if past == [] {
      assert forall trace: seq<string> :: past + trace == trace;
    }
  }

  /** Suspension is transparent: if the frame, given the resolution as its leaf's output, goes on to complete, then
      suspending there and resuming completes too, and the caller sees the same output and the same whole trace. */
  lemma SuspensionIsTransparent(w: World, l: Launch, pointer: string, resolution: Context, identity: string)
      returns (f: Frame, s: Step)
    requires PureProbes(w) && RunOf(w, l).out.Parked?
    requires l.ref in w.workflows ==> w.workflows[l.ref].id == l.ref
    requires l.ref in w.workflows ==> forall key :: key in w.workflows[l.ref].steps ==>
               w.workflows[l.ref].steps[key].id == key
    ensures ParksAt(w, f, s, RunOf(w, l).out)
    ensures var state := StateOf(RunOf(w, l).out, pointer);
            var straight, resumed := Loop(w, GoesOn(f, s, Given(resolution, identity))).out,
              RunOf(w, ResumeLaunch(state, s, resolution, identity)).out;
            && Resumable(w, map[pointer := state], pointer) && s == w.workflows[state.workflow].steps[state.step]
            && (straight.Finished? && s.onSuccess != "" ==>
                  WithPast(state.trace, ReplyOf(resumed, pointer)) == ReplyOf(straight, pointer))
  {
    hide Loop, PureProbes;
    f, s := ResumingIsGoingOn(w, l, Given(resolution, identity));
    ResumesFrom(StateOf(RunOf(w, l).out, pointer), s, resolution, identity);
  }
}
