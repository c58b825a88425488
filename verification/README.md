# A verified model of the workflow engine

This project models the deterministic workflow engine and the three parts that make promises about it: the manifest
validator, the store protocol for suspended runs, and record/replay with the two comparisons built on it. It proves
those promises for every workflow table, every action, every probe answer and every schedule.

How the model is laid out:

- `Workflows`, `Values`, `Join` and `BigStep` are the data and the meaning of a run: `BigStep.RunOf` and `BigStep.Loop`
  say what a run computes when branches are taken one after another. Every run also yields a log of what each frame
  did (visits, probes, observer calls, fallbacks, compensations, raised errors), which the counting theorems talk about.
- `Machine` is the same engine one small step at a time: a stack of frames, and a vector of machines for the branches of
  a parallel step. A schedule is any sequence of choices. `Interleaving` proves that no schedule changes the answer,
  `Projections` that none changes what a single frame does, or in which order.
- `Engine` is the engine as it is written: a class with tables, setters and a loop, each method proved against
  `BigStep`. `Turns` tells case by case, without the functions of `BigStep` that compute it, what every turn of the loop
  does: where the frame goes on or how it ends, with what context and trace, and which events come in between.
- `Structural`, `Paths`, `Finality`, `Growth`, `Panics`, `Conflicts`, `OneBranch`, `Observers`, `Work`, `Compensation`,
  `Budgets`, `Suspension`, `Resuming` and `Carrying` hold one theorem each about whole runs, with the lemmas it needs.
- `Graphs`, `CycleSearch`, `Manifest`, `Validate`, `Registry`, `Soundness` and `Validated` go from a manifest file to the
  statement that a validated manifest cannot go wrong.
- `Names`, `Stores`, `FileStore` and `Protocol` are the stores: naming, the two implementations over one abstract map,
  and the protocol of many processes over one directory, any of which may stop at any step.
- `Queues`, `Replay`, `Replaying`, `Compare` and `PolicyDiff` are recording, playing back and comparing.
- `StdLib`, `Standard` and `Provenance` are the standard actions, what manifests of them alone can do, and the mark on
  extracted fields.

An action is a function from a context to an output, a failure, a request to suspend, or a panic. A prober may answer
every probe point of a run as it likes, which covers a prober with state; a value has decidable equality. The text of an
error is an arbitrary function of the error. Some behaviour of the code sets the limits of the theorems and is modelled
as it is:

- Resuming a leaf without a success edge starts the workflow over (`Suspension.ResumingIsGoingOn` states exactly when
  resuming is transparent, `Suspension.ResumingMayStartOver` is a workflow for which it is not).
- A resumed frame has an empty compensation log, and a second suspension saves only the trace since the last resume
  (the same lemma covers both).
- The engine stops a join at the first field in conflict it comes to, so in a conflict over several fields the one its
  error names depends on map iteration. The model's error keeps the whole clash beside that field (`Workflows.Dispute`);
  `Workflows.Agrees` is equality up to the named field, and equality outright when one field is in conflict.
- A one-branch parallel step is not quite a composite step: it turns a panic into an error and rewords a failure
  (`OneBranch.OneBranchIsComposite` says exactly which runs it leaves alone).
- The standard comparison panics on two maps or two lists, and neither validation nor loading rules such parameters out
  (`Standard.OneStepPanicsExactly`, with `Standard.EqualObjectsPanic` as an input; `Standard.StandardRunsNeverPanic`
  holds without them).
- The validator accepts a compensation target that is not a leaf (`Validated.CompensationsNeedNotBeLeaves`); what a run
  then reports is exact (`Compensation.ImpossibleExactly`).

## Model

| member | source | states |
|---|---|---|
| Join.JoinBranches | execution/parallel.go:128-154 | the join loop, in any order the maps yield their fields, gives the agreed context exactly when the branches agree, or reports the earliest branch that disagrees, with exactly the fields on which it does, the latest earlier writer of each and both values, naming one of them |
| Join.EnterBranch | execution/parallel.go:137-151 | entering one branch either enters all its changes or stops at a field on which it disagrees with an earlier branch |
| Join.JoinCorrect | execution/parallel.go:128-165 | the join succeeds exactly when all branches that changed a field agree on it; the result is then the agreed or the incoming value of every field; otherwise the second branch named is the earliest that disagrees |
| Join.JoinOrderFree | execution/parallel.go:128-154 | permuting the branches changes neither success nor the result |
| Values.MergeOfDelta | execution/parallel.go:157-165 | merging a delta back gives the later context exactly when no field was dropped |
| Interleaving.SchedulingIsInvisible | execution/parallel.go:95-154 | every schedule of every run, nested fan-outs and panics included, ends after the same number of steps with the sequential output, trace, error, failure list and events; after a conflict over several fields only the one named may vary, not the step, the branches, the fields or the values in conflict; until then it can always move |
| Interleaving.StepLeaves | execution/parallel.go:95-126 | no single step of any branch changes what the whole run still computes |
| Interleaving.HarvestAgrees | execution/parallel.go:114-154 | the turn after a fan-out depends on the branches' outcomes only up to the field a conflict names |
| Projections.FramesKeepTheirOrder | execution/parallel.go:95-112 | under every schedule each frame, at every moment, has done exactly what it does first in the sequential run, in that order, and all of it at the end |
| Conflicts.ConflictsAreReal | execution/parallel.go:128-151 | a run that ends in a join conflict, under whatever schedule, came to a fan-out all of whose branches completed; the error names that step and the earliest branch that disagrees with a predecessor, and holds exactly the fields on which it does, each with the latest earlier writer and both values |
| Engine.Engine.constructor | execution/engine.go:134-142 | a new engine has empty tables, no store and no authorizer, and the default limits of 10000 steps and depth 64 |
| Engine.Engine.SetLimits | execution/engine.go:144-153 | limits change only to positive values |
| Engine.Engine.RegisterWorkflow | execution/engine.go:161-165 | registration replaces what was under that id and nothing else |
| Engine.Engine.RegisterPolicy | execution/engine.go:167-171 | the same for policies |
| Engine.Engine.RunFrom | execution/engine.go:213-355 | the loop computes the run: same outcome and same events as the sequential meaning |
| Engine.Engine.Turn | execution/engine.go:233-351 | one iteration takes the edge or exit the meaning says |
| Engine.Engine.RunParallel | execution/parallel.go:88-155 | fan-out and fan-in give what the branches' runs give in declaration order |
| Engine.Engine.RunBranches | execution/parallel.go:95-112 | branches ending in any order leave every outcome in its own slot |
| Engine.Engine.CollectFailures | execution/parallel.go:114-126 | the first structural error in declaration order, or else all failures in that order |
| Engine.Engine.JoinBranchOutcomes | execution/parallel.go:114-154 | structural errors first, then collected failures, then the join |
| Engine.Engine.Abandon | execution/compensate.go:24-63 | the backwards loop over the compensation log yields exactly the unwinding's outcome |
| Engine.Engine.Run | execution/engine.go:205-207 | a run and what its caller is told of each way it can end; a parked one is saved whole, audience included, under a fresh pointer, and nothing else is |
| Engine.Engine.ResumeAs | execution/engine.go:402-449 | the pointer is consumed exactly when its state is there, its workflow still has the suspended leaf, and the state has no audience or the authorizer, asked about exactly this suspension and identity, allows it; then the run goes on from the leaf's next step and the saved trace comes first; otherwise nothing changes and the caller is told the first of these things that is wrong |
| Engine.Engine.Resume | execution/engine.go:398-400 | the same for a caller without an identity |
| Resuming.Denial | execution/authorize.go:55-92 | who may resume a state with an audience, and which refusal everybody else gets: missing authorizer, its reason, or its failure |
| Resuming.ResumesFrom | execution/engine.go:437-442 | a resumed run starts at the leaf's success edge on the saved context, overlaid with the resolution and the identity of whoever resumed it |
| Turns.RunMeans | execution/engine.go:213-231 | a run beyond the depth limit or of an unknown workflow fails; any other is its frame's run from the named step or else the entry |
| Turns.FrameStops | execution/engine.go:233-247 | without a next step the run is through; a spent budget ends it with the last ten steps, a missing step with its name |
| Turns.StepStops | execution/engine.go:290-297 | a leaf that names a probe where no sandbox is configured ends the run before anything is run, probed or observed; so do a step of an unknown kind and a parallel step without branches |
| Turns.LeafSucceeds | execution/engine.go:326-347 | a successful leaf overlays its fields, logs its compensation and goes on at its success edge; the probe and the step are observed in that order |
| Turns.LeafFails | execution/engine.go:328-341 | a failed leaf fails for its action's reason |
| Turns.LeafStops | execution/engine.go:328-396 | a suspending leaf never reaches the breaker: it parks the run with its reason, audience, context and trace, or, nested or without a store, ends it in that error; a panic ends the run |
| Turns.ProbeRefuses | execution/engine.go:290-324 | a refusing probe fails the leaf, for the probe's error or else the detected mode, without running its action |
| Turns.FailureMeans | execution/engine.go:466-476 | the breaker is observed, and exactly where the policy names a fallback the run goes on there with only the two failure fields changed; otherwise its compensations are handled from the context it has and it ends as they add up, naming step and reason |
| Turns.CompositeSucceeds | execution/engine.go:250-268 | a composite step runs its workflow from the entry, one level down, on the frame's context, and goes on with exactly its output and its trace appended |
| Turns.CompositeFails | execution/engine.go:250-265 | a sub-run never parks; a panic or an error that bypasses the breaker ends the run as it is, any other error is the step's failure |
| Turns.ParallelSucceeds | execution/parallel.go:88-154 | each branch runs its own workflow on the frame's context; where they agree the run goes on with the join and the traces in declaration order |
| Turns.ParallelConflicts | execution/parallel.go:137-151 | completed branches that disagree end the run in a conflict with the step, the earliest disagreeing branch, and exactly the fields in conflict, each with the latest earlier writer and both values |
| Turns.ParallelFails | execution/parallel.go:114-126 | failing branches: one failure that lists exactly them, in declaration order, with their texts |
| Turns.ParallelBypasses | execution/parallel.go:101-120 | the lowest-indexed structural error or panic ends the run; every panic is on record under its branch |
| Turns.CompensationIgnoresProbes | execution/compensate.go:50 | compensation leaves run without their probe |
| Structural.RunExact | execution/engine.go:478-493 | a run ends in a bypassing error exactly when one was raised anywhere in it |
| Finality.StructuralErrorsAreFinal | execution/engine.go:251-275 | under every schedule, after a bypassing error neither its frame nor any enclosing one does anything more, and the run ends in one |
| Growth.RunKeeps | execution/engine.go:502-511 | every completed run's output has every key of its input |
| Growth.SubRunIsWhole | execution/engine.go:266-268 | a composite's context afterwards is its sub-run's output, and merging the delta back loses nothing |
| OneBranch.OneBranchIsComposite | manifest/validate.go:202-204 | one composite step of one workflow respelled as a one-branch parallel step gives the same run (outcome, events, number of turns) exactly when, each time the run comes to that step, its sub-run neither panics nor fails with an error the breaker absorbs; otherwise even the events differ |
| OneBranch.RespelledTurn | execution/parallel.go:97-126 | the two spellings take the same turn exactly unless the sub-run panicked or failed with an error the breaker absorbs |
| Panics.RunPanic | execution/parallel.go:101-107 | a run ends in a panic only if an action of its tables panics with that value, and then the log says an action did |
| Observers.ObserversAddUp | execution/engine.go:257-341 | leaf visits = observed steps + refused probes + probes without a sandbox; observed probes = probe outcomes; breaker trips = fallbacks + abandoned frames; in every finished run, panics included, under any schedule |
| Work.TotalWork | execution/engine.go:213-241 | at most maxSteps * (B * maxSteps) ^ maxDepth forward actions under every schedule of every table, and at no moment more compensations than forward actions so far |
| Work.RunCosts | execution/parallel.go:97-112 | the same bound for a run at any depth |
| Compensation.CompensationConserved | execution/compensate.go:24-92 | under every schedule, an abandoned frame, from the context it then had, handles each of its successful compensable steps once, in reverse order: a leaf target is run on the context left so far, its output laid over that context for the next one, its failure or suspension the reason the step was not undone; the compensations that ran are those, once each in that order; its two reports interleave to exactly that list, unless a compensation panics, which ends it there; any other frame unwinds nothing |
| Compensation.ImpossibleExactly | execution/compensate.go:31-48 | the failures other than refusals are precisely the completed compensable steps whose target the workflow lacks or has as a step that is no leaf, last first |
| Compensation.ReportIsComplete | execution/compensate.go:24-63 | undone steps and failures together are as many as the handled steps |
| Budgets.NoStepTwice | execution/engine.go:233-247 | with no cycle over success and fallback edges a frame never visits a step twice, at any moment of any schedule |
| Budgets.LongRunsAreDiverted | manifest/validate.go:210-235 | with only success edges acyclic, k visits over n steps took at least k/n - 1 diversions, at any moment of any schedule |
| Suspension.LoopAlike | execution/engine.go:233-355 | a frame with a past and a fresh one at the same place end alike: same output, trace since, error, and report of what was done since; the fresh step budget can only help |
| Suspension.ResumingIsGoingOn | execution/engine.go:357-449 | resuming ends as if the leaf had handed out the resolution and the run had gone on, exactly when the leaf names a next step or the workflow has no entry step |
| Suspension.ResumingMayStartOver | execution/engine.go:224-227 | a one-step workflow whose run would complete if it went on, but asks again when resumed |
| Suspension.LoopParks | execution/engine.go:330-396 | a run is parked only by a leaf of its top frame, with the frame's context and trace |
| Resuming.SuspensionIsTransparent | execution/engine.go:432-448 | the caller of resume sees the same output and whole trace as if the run had never been suspended |
| CycleSearch.Search.FindCycle | manifest/validate.go:286-328 | nothing is returned exactly when no closed walk is reachable from the nodes; otherwise a closed walk without other repeats, reachable from a node |
| CycleSearch.Search.Visit | manifest/validate.go:296-317 | colours and path stay in step, and a finished node has no cycle below it |
| CycleSearch.ReachableFrom | manifest/validate.go:237-248 | exactly the nodes a walk from the entry reaches |
| CycleSearch.Position | manifest/validate.go:303-307 | the first position of the node on the path |
| Graphs.WalksAreSimple | manifest/validate.go:286-328 | without closed walks no walk repeats a node |
| Manifest.Load | manifest/manifest.go:70-120 | loading succeeds exactly when the file is named, no intent contradicts itself and every step can be built; it then yields what the file says, and otherwise the first thing wrong, in the order of the file |
| Manifest.BuildStep | manifest/manifest.go:122-206 | one step that says field by field what its spec says, with the standard action made from its parameters or else the hook; or exactly what is wrong with it |
| Manifest.CheckBranches | manifest/manifest.go:157-173 | nothing exactly when every branch has a name of its own; otherwise the first empty or repeated branch |
| Manifest.LoadExactly | manifest/manifest.go:70-206 | the same of the function the loop computes; each table holds under each id what the last step of that id says |
| Validate.Validate | manifest/validate.go:45-105 | no error is reported exactly when the manifest is sound; the report holds exactly the findings that are so, each as the error or warning it is, and of each step graph with a cycle one that is there |
| Validate.ValidateWorkflow | manifest/validate.go:107-135 | the findings about ids, entry, step graph and steps, and no error exactly when all of them are sound |
| Validate.CollectStepIds | manifest/validate.go:112-122 | exactly the missing and the repeated ids are reported |
| Validate.ValidateStep | manifest/validate.go:137-208 | exactly the findings about its references and its kind, and no error exactly when every reference resolves and the kind is well formed |
| Validate.ValidateReferences | manifest/validate.go:140-164 | exactly the unresolved success edge, compensation and fallback are reported, and the compensation that cannot be one |
| Validate.ValidateKind | manifest/validate.go:166-207 | exactly the findings of each kind of step |
| Validate.ValidateBranches | manifest/validate.go:190-204 | exactly the empty, unknown and repeated branches are reported, and a single one warned about |
| Validate.ValidateStepGraph | manifest/validate.go:210-255 | an error exactly when success edges close a walk, showing one; a warning for exactly the steps that cannot be reached, and for a loop that only fallbacks close |
| Validate.ValidateSubWorkflowAcyclic | manifest/validate.go:257-284 | one error, showing such a walk, exactly when a workflow calls itself, directly or through others |
| Validate.ValidatePolicies | manifest/validate.go:57-67 | the fallback table, and exactly the policies without id or fallback |
| Validate.ValidateIntent | manifest/validate.go:80-102 | exactly the findings about the intent's name, its two fields and where they lead |
| Validate.Report.OK | manifest/validate.go:28-35 | whether no error was reported |
| Validate.StepEdgesExactly | manifest/validate.go:215-227 | the step graph has exactly the success and fallback edges between known steps |
| Validate.WorkflowEdgesExactly | manifest/validate.go:258-278 | the call graph has exactly the calls between known workflows |
| Registry.Registry.RegisterDomain | registry/registry.go:26-39 | workflows, stamped with the domain, and policies enter the engine in order |
| Registry.LastWorkflowWins | registry/registry.go:30-34 | the last workflow of an id is the one registered |
| Soundness.ClosedWorldsCannotGoWrong | execution/engine.go:213-248 | over tables in which every reference resolves no run, under any schedule, raises a missing workflow, step, step type or branch, lacks a compensation target, or exhausts a budget that suffices for the tables' shape |
| Validated.SoundManifestsLoad | manifest/manifest.go:70-206 | a sound manifest whose leaf actions are standard or hooked loads |
| Validated.ValidatedManifestsCannotGoWrong | manifest/validate.go:45-208 | a manifest without errors, loaded and registered alone, never raises those errors, from the entry or, as a resumed run, from any step; the depth limit is out of reach with at most maxDepth + 1 workflows, the step limit without fallback loops |
| Validated.ShopLoads | manifest/manifest.go:70-120 | the example of the next row loads |
| Validated.CompensationsNeedNotBeLeaves | manifest/validate.go:144-155 | a sound manifest whose compensation is a composite step: compensating fails |
| Stores.MemoryStore.Save | execution/suspend.go:63-68 | the map gains or replaces the state under its pointer |
| Stores.MemoryStore.Load | execution/suspend.go:70-78 | the stored state, or none |
| Stores.MemoryStore.Delete | execution/suspend.go:80-88 | the pointer is gone, and whether it was there |
| Stores.MemoryStore.Consume | execution/suspend.go:90-99 | the state goes to one caller and the pointer is gone |
| Stores.MemoryStore.Pending | execution/suspend.go:103-111 | every stored state, once |
| Names.CheckPointer | filestore/filestore.go:248-263 | accepts exactly pointers of 1 to 128 letters, digits, dashes and underscores |
| Names.PointerOfClaim | filestore/filestore.go:201-207 | reading a claim's name gives back its pointer |
| Names.ClaimsDiffer | filestore/filestore.go:126 | equal claim names are the same claim on the same pointer |
| Names.GlobIsExact | filestore/filestore.go:154-163 | a pointer's glob picks up exactly its claims, no other pointer's, no pending and no temporary file |
| Names.NamesAreDisjoint | filestore/filestore.go:46-68 | pending, claim and temporary names never coincide |
| Names.EnginePointersPass | execution/suspend.go:137-143 | pointers the engine draws are accepted |
| FileStore.Store.Save | filestore/filestore.go:34-72 | refines the abstract save, leaving no temporary file; a bad pointer changes nothing |
| FileStore.Store.Load | filestore/filestore.go:74-94 | refines the abstract load, telling a missing from an unreadable state |
| FileStore.Store.Delete | filestore/filestore.go:96-111 | refines the abstract delete |
| FileStore.Store.Consume | filestore/filestore.go:113-144 | refines the abstract consume; the file becomes the claim, readable or not |
| FileStore.Store.Release | filestore/filestore.go:146-164 | exactly this pointer's claims are gone and no saved state is |
| FileStore.Store.Pending | filestore/filestore.go:217-242 | exactly the readable saved and unclaimed states, each once |
| FileStore.ClaimsAreFound | filestore/filestore.go:192-197 | a claim made by consuming is listed under the pointer it was made for |
| FileStore.Store.Orphaned | filestore/filestore.go:172-199 | one entry for each claim in the directory not written after the cutoff, under its pointer and with its time |
| Protocol.PointersAreSafe | filestore/filestore.go:113-164 | over every interleaving of any number of attempts and crashes, with authorizers that may change their answers, each saved pointer is pending, held by one claim of an attempt in flight or dead, or released, and only one of these; what is saved is what somebody set out to save; at most one attempt gets past a pointer's claim; the state that runs is the one that was saved, and on which the attempt was let through |
| Protocol.NobodyGetsPast | execution/authorize.go:55-92 | whatever the interleaving, an attempt gets past a claim only if it arrived with that pointer and identity, the leaf was still there, and, for a state with an audience, an authorizer was asked about exactly that suspension and identity and allowed it |
| Protocol.AttemptsCanFinish | execution/engine.go:402-449 | from every reachable state an authorised attempt on a pending pointer can go through to its end: it runs on the saved state, releases the pointer, and changes nothing else |
| Protocol.RefusalsChangeNothing | execution/engine.go:402-435 | whatever the interleaving, an attempt that never gets past its claim (turned away for any reason, or stopped before) might as well not have been made: the other events are possible without its own and reach the same directory, saved states and other attempts |
| Protocol.ClaimedForGood | filestore/filestore.go:126-133 | a claimed pointer never becomes pending again |
| Protocol.ReadFine | filestore/filestore.go:135-143 | a claim just made can always be read back |
| Queues.StepSplitsAsked | replay/replay.go:127-156 | no step of any schedule reorders the answers on a reference that no two concurrent branches share |
| Queues.SchedulesAskInOrder | replay/replay.go:115-156 | every schedule has been answered a prefix of what the sequential run is answered on the reference |
| Replay.Recorder.Probe | replay/replay.go:62-83 | the question is passed on and its answer kept; without an inner prober the answer is an error and nothing is kept |
| Replay.Player.constructor | replay/replay.go:115-125 | one queue for each reference, in recorded order |
| Replay.Player.Probe | replay/replay.go:127-156 | the next recorded answer, the last one kept for good; an unknown reference is noted and goes to the fallback |
| Replay.RecordedFaithfully | replay/replay.go:68-76 | an answer survives recording exactly when its error, if any, has a text |
| Replaying.RecordReplayIdentity | replay/replay.go:62-156 | a recorded run played back under any schedule takes as many steps, finds every answer, has on every queue exactly what the questions asked so far leave of the recording, and ends the same way, up to the field named in a conflict over several |
| Replaying.RecorderKeepsUp | replay/replay.go:66-80 | keeping each answer as it comes keeps the recording in step with the run's log |
| Compare.RecordingKeepsTheResult | replay/replay.go:85-104 | a finished recording shows no difference to another run exactly when the recorded run and the other ended alike, for plain step ids |
| Replaying.ReplayShowsNothing | replay/replay.go:174-217 | comparing such a replay with its recording shows no difference |
| Compare.Compare | replay/replay.go:174-217 | how the runs ended first, then every differing output key once in increasing order; exactly the differences there are, the recorded side first |
| Compare.DifferencesExactly | replay/replay.go:174-217 | each difference there can be, what it is called and what it shows of either side |
| Compare.SameValueExactly | replay/replay.go:219-226 | two values compare the same exactly when they are equal up to lists of strings being lists of texts, at any depth |
| Compare.LessMeans | replay/replay.go:202 | keys come in lexicographic order |
| Compare.JoinedTrace | replay/replay.go:228-240 | the trace as text |
| Compare.DiffIsCanonical | replay/replay.go:191-215 | one right answer, whatever order maps yield their keys in |
| Compare.NoDifferenceExactly | replay/replay.go:174-226 | nothing is reported exactly when the runs ended alike, for plain step ids |
| Compare.TracesDiffer | replay/replay.go:228-240 | traces of non-empty ids without spaces, none of them "(empty)", differ as text when they differ |
| Compare.OtherTracesCollide | replay/replay.go:228-240 | each of those conditions is needed |
| PolicyDiff.Classify | policydiff/policydiff.go:141-155 | an explanation exactly when every difference is the trace or a field of the engine's own |
| PolicyDiff.OutcomeExactly | policydiff/policydiff.go:119-155 | outcome means precisely that failure, error text, suspension or a field not the engine's own differs |
| PolicyDiff.Compare | policydiff/policydiff.go:85-137 | runs every event through both manifests and reports on those runs; it ends in a panic only if the run of some event in one of the two does |
| PolicyDiff.Tally | policydiff/policydiff.go:100-133 | one event's place in the report |
| PolicyDiff.ResultIsReply | replay/replay.go:85-104 | what is recorded and compared of a run is what the engine tells its caller |
| PolicyDiff.EventExactly | policydiff/policydiff.go:95-133 | an event is an outcome change exactly when one run fails and the other does not, both fail with different texts, or both complete and a field not the engine's own differs; it shows nothing exactly when trace text and outputs agree too |
| PolicyDiff.Build | policydiff/policydiff.go:157-165 | a fresh engine holding the manifest's domain alone |
| PolicyDiff.PickedExactly | policydiff/policydiff.go:120-133 | each event is listed once under its class and under no other |
| PolicyDiff.ReportIsExact | policydiff/policydiff.go:75-78 | an event is an outcome exactly when its decision differs; the report is clean exactly when nothing differs |
| PolicyDiff.ReportTells | policydiff/policydiff.go:75-133 | the report lists under outcomes and explanations exactly the events whose runs call for it, and counts the runs that failed |
| PolicyDiff.SelfDiffIsClean | policydiff/policydiff.go:85-137 | a manifest compared with itself shows nothing, unless a run ends in a join conflict over several fields |
| PolicyDiff.SelfDiffExactly | policydiff/policydiff.go:85-137 | where the error text names the field, self comparison is sure to show nothing exactly when no run ends in such a conflict |
| Provenance.Injector.Extract | llminjector/injector.go:61-120 | succeeds exactly when every schema field is there with its type; hands on exactly those and names each as derived; otherwise complains about exactly the fields that are missing or of another type |
| Provenance.Injector.RegisterSchema | llminjector/injector.go:48-50 | registration by reference, last wins |
| Provenance.ContextFrom | llminjector/injector.go:122-149 | the extracted fields over the base, marked with the union of old and new names |
| Provenance.ProvenanceOf | stdlib/stdlib.go:218-232 | reading the mark in either of its two shapes |
| Provenance.MarkedExactly | stdlib/stdlib.go:218-232 | a field is marked exactly when the mark, as a list of strings or as a decoded list, holds its name |
| Provenance.MarksAddUp | llminjector/injector.go:122-149 | the mark is the sorted, duplicate-free union; repeated extraction loses nothing |
| Provenance.GuardExactly | stdlib/stdlib.go:198-215 | the guard passes, adding nothing, exactly when none of its fields is in the mark; otherwise it names those that are |
| Provenance.ParseFields | stdlib/stdlib.go:189-196 | the guard's parameters are all non-empty strings, or refused |
| Carrying.MarkedFieldsStayGuarded | stdlib/stdlib.go:180-216 | in every run under every schedule, at every moment of which no output so far has written the mark, a step that guards a marked field has not succeeded, and a run's output is marked still |
| Carrying.ExtractedFieldsStayGuarded | llminjector/injector.go:97-165 | the same from extraction on |
| Carrying.ChainsStayGuarded | execution/engine.go:402-449 | nor does it in any run of a chain of suspensions and resumptions, whoever resumes, as long as no output and no resolution writes the mark |
| Carrying.ResumingKeepsTheMark | execution/engine.go:437-441 | a resumed run starts with the mark unless the resolution writes it |
| Carrying.StandardManifestsKeepTheMark | stdlib/stdlib.go:15-23 | no run of a manifest of standard actions told not to write the mark does |
| StdLib.RequireDecides | stdlib/stdlib.go:63-78 | `std.require` is made exactly from a field, one of the seven operations and a value; it passes, adding nothing, exactly when the field, null if absent, stands in that relation to the value; it panics on two maps or two lists and fails otherwise |
| StdLib.RuleCheckDecides | stdlib/stdlib.go:80-96 | `std.rule_check` writes exactly that truth to the one field it names, and fails or panics where there is none |
| StdLib.SetAndSuspendDecide | stdlib/stdlib.go:25-61 | `std.set` outputs exactly its fields; `std.suspend` asks with its reason and audience |
| StdLib.RequireVerifiedDecides | stdlib/stdlib.go:180-216 | `std.require_verified` is made exactly from a non-empty list of non-empty strings, and passes exactly when the mark lists none of them |
| StdLib.StandardActionsTouchTheMarkExactly | stdlib/stdlib.go:41-96 | a standard action can write the mark exactly when its parameters say so |
| StdLib.Compare | stdlib/stdlib.go:118-163 | the comparison as it is made, loop included, with the panic on two maps or two lists |
| StdLib.AmongMeans | stdlib/stdlib.go:124-134 | looking a value up in a list panics exactly when the list holds a map or list of the value's own type, and otherwise is membership |
| StdLib.StandardActionsPanicExactly | stdlib/stdlib.go:63-96 | a configured standard action panics on some context exactly when it is `std.require` or `std.rule_check` with `eq` or `neq` and a map or a list, or with `in` and a list that holds one |
| Standard.OneStepPanicsExactly | stdlib/stdlib.go:118-163 | the one-step manifest of a configured standard action is sound, loads, and some event makes its run panic exactly under that condition |
| Standard.EqualObjectsPanic | stdlib/stdlib.go:156-163 | requiring a field to equal an empty object, on an event in which it does: the run panics |
| Standard.StandardRunsNeverPanic | policydiff/policydiff.go:85-137 | no run of a manifest of standard actions without such parameters panics, so comparing two of them always yields its report |

## Left out

- Goroutines sharing memory: each locked section is atomic, tables and limits are fixed during a run, and an action leaves its context alone.
- Error texts: an error's text is an arbitrary function of it; only fixed reasons that reach a context or a caller are written out.
- The wording and the order of the validator's findings, and which of several cycles of one graph it shows.
- A prober or an authorizer that panics, and an observer that does anything: their calls are events of the log.
- Failures of pointer generation, of saving and of releasing: the protocol covers crashes instead, and a fresh pointer and claim suffix are assumed fresh.
- The clock: the cutoff and the time each file was written are given to `FileStore.Store.Orphaned`, not derived.
- Permissions, flushing, sub-directories, and pattern characters in the directory's own name.
- JSON: files, states and recordings start out decoded, and a suspended context comes back as it was saved.
- Engine.Engine.ResumeAs: is stated over the in-memory store; the file store refines the same map and the protocol covers many processes.
- Recording and replaying extractions, the time of a recording, and a player's fallback inside `Replaying` (a missing answer is the built-in one there).
- Compare.NoDifferenceExactly: compares values by their encoding up to the list form, not escaping, number formatting or invalid text.
- Numbers that compare unequal to themselves, which the value type rules out.
- The intent router, HTTP and model clients, drafts, the command line, benchmarks, scorecards, diagnostics and report rendering: plumbing, or members that would add nothing hard.
