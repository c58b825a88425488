/** The static checks a manifest goes through, and what a report without errors promises about it. */
module Validate {
  import opened Basics
  import opened Graphs
  import opened CycleSearch
  import opened Manifest

  datatype Severity = Erroneous | Warning

  datatype Finding =
    | MissingDomainName
    | PolicyWithoutId
    | PolicyWithoutFallback(policy: string)
    | WorkflowWithoutId
    | StepWithoutId(workflow: string)
    | DuplicateStep(workflow: string, step: string)
    | NoEntry(workflow: string)
    | EntryUnknown(workflow: string, entry: string)
    | SuccessCycle(workflow: string, cycle: seq<string>)
    | FallbackLoop(workflow: string, cycle: seq<string>)
    | Unreachable(workflow: string, step: string)
    | OnSuccessUnknown(workflow: string, step: string)
    | CompensationUnknown(workflow: string, step: string)
    | CompensatesItself(workflow: string, step: string)
    | CompensationOnNonLeaf(workflow: string, step: string)
    | PolicyUnknown(workflow: string, step: string)
    | FallbackUnknown(workflow: string, step: string)
    | LeafWithoutAction(workflow: string, step: string)
    | ActionMisconfigured(workflow: string, step: string, reason: string)
    | NotAStandardAction(workflow: string, step: string)
    | CompositeWithoutSub(workflow: string, step: string)
    | SubUnknown(workflow: string, step: string)
    | ParallelWithoutBranches(workflow: string, step: string)
    | BranchEmpty(workflow: string, step: string)
    | BranchUnknown(workflow: string, step: string, branch: string)
    | BranchListedTwice(workflow: string, step: string, branch: string)
    | OneBranchOnly(workflow: string, step: string)
    | KindUnknown(workflow: string, step: string)
    | SubWorkflowCycle(cycle: seq<string>)
    | IntentWithoutId
    | IntentWithoutPrefix(intent: string)
    | IntentConflicts(intent: string)
    | IntentDeprecated(intent: string)
    | IntentWithoutEntry(intent: string)
    | IntentEntryUnknown(intent: string, entry: string)

  datatype Issue = Issue(severity: Severity, finding: Finding)

  ghost predicate Fine(issues: seq<Issue>)
  {
    forall i :: i in issues ==> i.severity != Erroneous
  }

  // ----- What each finding says of the manifest -----

  /** Six findings are warnings, all others errors. */
  ghost function Grade(f: Finding): Severity
  {
    if f.NotAStandardAction? || f.OneBranchOnly? || f.FallbackLoop? || f.Unreachable? || f.IntentWithoutPrefix?
       || f.IntentDeprecated? then Warning else Erroneous
  }

  /** The issue reports that finding as what it is. */
  ghost predicate Graded(i: Issue)
  {
    i.severity == Grade(i.finding)
  }

  /** Which closed walk is reported of a graph that has some is left to the search. */
  ghost predicate OfCycle(f: Finding)
  {
    f.SuccessCycle? || f.FallbackLoop? || f.SubWorkflowCycle?
  }

  ghost predicate CompensationSays(wf: string, s: StepSpec, stepIds: set<string>, f: Finding)
  {
    match f
    case CompensationUnknown(w, t) => w == wf && t == s.id && s.compensateWith != "" && s.compensateWith !in stepIds
    case CompensatesItself(w, t) => w == wf && t == s.id && s.compensateWith == s.id != ""
    case CompensationOnNonLeaf(w, t) =>
      w == wf && t == s.id && s.compensateWith != "" && (s.kind == "composite" || s.kind == "parallel")
    case _ => false
  }

  ghost predicate ReferenceSays(wf: string, s: StepSpec, stepIds: set<string>, fallbacks: map<string, string>,
                                f: Finding)
  {
    match f
    case OnSuccessUnknown(w, t) => w == wf && t == s.id && s.onSuccess != "" && s.onSuccess !in stepIds
    case PolicyUnknown(w, t) => w == wf && t == s.id && s.policyRef != "" && s.policyRef !in fallbacks
    case FallbackUnknown(w, t) =>
      && w == wf && t == s.id && s.policyRef != "" && s.policyRef in fallbacks && fallbacks[s.policyRef] != ""
      && fallbacks[s.policyRef] !in stepIds
    case _ => CompensationSays(wf, s, stepIds, f)
  }

  ghost predicate LeafSays(wf: string, s: StepSpec, std: Library, f: Finding)
  {
    match f
    case LeafWithoutAction(w, t) => w == wf && t == s.id && s.actionRef == ""
    case ActionMisconfigured(w, t, reason) =>
      && w == wf && t == s.id && s.actionRef != "" && s.actionRef in std
      && std[s.actionRef](s.params) == Misconfigured(reason)
    case NotAStandardAction(w, t) => w == wf && t == s.id && s.actionRef != "" && s.actionRef !in std
    case _ => false
  }

  ghost predicate KindSays(wf: string, s: StepSpec, ids: set<string>, std: Library, f: Finding)
  {
    if s.kind == "leaf" then LeafSays(wf, s, std, f)
    else if s.kind == "composite" then
      if s.subRef == "" then f == CompositeWithoutSub(wf, s.id) else s.subRef !in ids && f == SubUnknown(wf, s.id)
    else if s.kind == "parallel" then
      if s.branches == [] then f == ParallelWithoutBranches(wf, s.id) else BranchesSay(wf, s, ids, |s.branches|, f)
    else f == KindUnknown(wf, s.id)
  }

  /** Said of the first `n` branches; a branch that is unknown is not also called a repetition. */
  ghost predicate BranchesSay(wf: string, s: StepSpec, ids: set<string>, n: nat, f: Finding)
    requires n <= |s.branches|
  {
    match f
    case BranchEmpty(w, t) => w == wf && t == s.id && "" in s.branches[..n]
    case BranchUnknown(w, t, b) => w == wf && t == s.id && b in s.branches[..n] && b != "" && b !in ids
    case BranchListedTwice(w, t, b) =>
      w == wf && t == s.id && b != "" && b in ids && exists j, k ::
          0 <= j < k < n && s.branches[j] == s.branches[k] == b
    case OneBranchOnly(w, t) => w == wf && t == s.id && |s.branches| == 1
    case _ => false
  }

  ghost predicate StepSays(wf: string, s: StepSpec, stepIds: set<string>, ids: set<string>,
                           fallbacks: map<string, string>, std: Library, f: Finding)
  {
    ReferenceSays(wf, s, stepIds, fallbacks, f) || KindSays(wf, s, ids, std, f)
  }

  /** Said of the ids of the first `n` steps. */
  ghost predicate IdsSay(wf: WorkflowSpec, n: nat, f: Finding)
    requires n <= |wf.steps|
  {
    match f
    case StepWithoutId(w) => w == wf.id && exists k :: 0 <= k < n && wf.steps[k].id == ""
    case DuplicateStep(w, id) =>
      w == wf.id && id != "" && exists j, k :: 0 <= j < k < n && wf.steps[j].id == wf.steps[k].id == id
    case _ => false
  }

  class Report {
    var issues: seq<Issue>

    /** No error so far. */
    ghost predicate Clean()
      reads this
    {
      Fine(issues)
    }

    constructor ()
      ensures issues == [] && Clean()
    {
      issues := [];
    }

    method Errf(finding: Finding)
      modifies this
      ensures issues == old(issues) + [Issue(Erroneous, finding)] && !Clean()
      ensures forall i :: i in issues <==> i in old(issues) || i == Issue(Erroneous, finding)
    {
      issues := issues + [Issue(Erroneous, finding)];
      assert issues[|issues| - 1].severity == Erroneous;
    }

    method Warnf(finding: Finding)
      modifies this
      ensures issues == old(issues) + [Issue(Warning, finding)] && Clean() == old(Clean())
      ensures forall i :: i in issues <==> i in old(issues) || i == Issue(Warning, finding)
    {
      assert forall i :: i in issues + [Issue(Warning, finding)] <==> i in issues || i == Issue(Warning, finding);
      issues := issues + [Issue(Warning, finding)];
    }

    method OK() returns (ok: bool)
      ensures ok <==> Clean()
    {
      for i := 0 to |issues|
        invariant Fine(issues[..i])
      {
        if issues[i].severity == Erroneous {
          return false;
        }
      }
      assert issues[..|issues|] == issues;
      return true;
    }
  }

  // ----- What a manifest without errors satisfies -----

  /** The fallback each policy names; a later policy replaces an earlier one, and one without an id is skipped. */
  function Fallbacks(policies: seq<PolicySpec>): (table: map<string, string>)
  {
    if policies == [] then map[]
    else
      var p := policies[|policies| - 1];
      var table := Fallbacks(policies[..|policies| - 1]);
      if p.id == "" then table else table[p.id := p.fallback]
  }

  function StepIds(wf: WorkflowSpec): (ids: set<string>)
  {
    set s | s in wf.steps && s.id != "" :: s.id
  }

  function WorkflowIds(workflows: seq<WorkflowSpec>): (ids: set<string>)
  {
    set wf | wf in workflows :: wf.id
  }

  function Connect(g: Graph, a: string, b: string): Graph
  {
    g[a := Succ(g, a) + [b]]
  }

  function ConnectAll(g: Graph, a: string, bs: seq<string>): Graph
  {
    if bs == [] then g else Connect(ConnectAll(g, a, bs[..|bs| - 1]), a, bs[|bs| - 1])
  }

  lemma {:induction false} ConnectAllAdds(g: Graph, a: string, bs: seq<string>)
    ensures forall x, y :: Edge(ConnectAll(g, a, bs), x, y) <==> Edge(g, x, y) || (x == a && y in bs)
  {
    if bs != [] {
      var init := bs[..|bs| - 1];
      ConnectAllAdds(g, a, init);
      ConnectAdds(ConnectAll(g, a, init), a, bs[|bs| - 1]);
      assert bs == init + [bs[|bs| - 1]];
      hide Edge, Connect;
    }
  }

  lemma {:induction false} ConnectAllTwice(g: Graph, a: string, bs: seq<string>, cs: seq<string>)
    ensures ConnectAll(g, a, bs + cs) == ConnectAll(ConnectAll(g, a, bs), a, cs)
  {
    if cs == [] {
      assert bs + cs == bs;
    } else {
      var init := cs[..|cs| - 1];
      ConnectAllTwice(g, a, bs, init);
      assert (bs + cs)[..|bs + cs| - 1] == bs + init;
    }
  }

  lemma ConnectAdds(g: Graph, a: string, b: string)
    ensures forall x, y :: Edge(Connect(g, a, b), x, y) <==> Edge(g, x, y) || (x == a && y == b)
  {
    forall x, y ensures Edge(Connect(g, a, b), x, y) <==> Edge(g, x, y) || (x == a && y == b) {
      if x == a {
        assert Succ(Connect(g, a, b), x) == Succ(g, a) + [b];
        assert y in Succ(g, a) + [b] <==> y in Succ(g, a) || y in [b];
      }
    }
  }

  /** The success edges between known steps, and the fallback edges too when `all` is set. */
  function StepEdges(steps: seq<StepSpec>, ids: set<string>, fallbacks: map<string, string>, all: bool): (g: Graph)
  {
    if steps == [] then map[]
    else
      var s := steps[|steps| - 1];
      var g := StepEdges(steps[..|steps| - 1], ids, fallbacks, all);
      if s.id == "" then g
      else
        var g' := if s.onSuccess != "" && s.onSuccess in ids then Connect(g, s.id, s.onSuccess) else g;
        if all && s.policyRef in fallbacks
          && fallbacks[s.policyRef] in ids then Connect(g', s.id, fallbacks[s.policyRef]) else g'
  }

  predicate Known(b: string, known: set<string>)
  {
    b != "" && b in known
  }

  /** The workflows a step calls, in order. */
  function Calls(s: StepSpec, known: set<string>): (refs: seq<string>)
  {
    if s.kind == "composite" && s.subRef != "" && s.subRef in known then [s.subRef]
    else if s.kind == "parallel" then Select(s.branches, b => Known(b, known))
    else []
  }

  function CallsOfSteps(steps: seq<StepSpec>, known: set<string>): (refs: seq<string>)
  {
    if steps == [] then [] else CallsOfSteps(steps[..|steps| - 1], known) + Calls(steps[|steps| - 1], known)
  }

  /** Which workflow calls which. */
  function WorkflowEdges(workflows: seq<WorkflowSpec>, known: set<string>): (g: Graph)
  {
    if workflows == [] then map[]
    else
      var wf := workflows[|workflows| - 1];
      var g := WorkflowEdges(workflows[..|workflows| - 1], known);
      ConnectAll(g, wf.id, CallsOfSteps(wf.steps, known))
  }

  ghost predicate SoundBranches(s: StepSpec, workflowIds: set<string>)
  {
    && s.branches != []
    && (forall i :: 0 <= i < |s.branches| ==> s.branches[i] != "" && s.branches[i] in workflowIds)
    && (forall i, j :: 0 <= i < j < |s.branches| ==> s.branches[i] != s.branches[j])
  }

  ghost predicate SoundKind(s: StepSpec, workflowIds: set<string>, std: Library)
  {
    if s.kind == "leaf" then s.actionRef != "" && (s.actionRef in std ==> std[s.actionRef](s.params).Made?)
    else if s.kind == "composite" then s.subRef != "" && s.subRef in workflowIds
    else s.kind == "parallel" && SoundBranches(s, workflowIds)
  }

  /** Success edge, compensation and fallback lead to steps of the workflow. */
  ghost predicate SoundCompensation(s: StepSpec, stepIds: set<string>)
  {
    s.compensateWith != "" ==>
        s.compensateWith in stepIds && s.compensateWith != s.id && s.kind != "composite" && s.kind != "parallel"
  }

  ghost predicate SoundReferences(s: StepSpec, stepIds: set<string>, fallbacks: map<string, string>)
  {
    && (s.onSuccess != "" ==> s.onSuccess in stepIds)
    && SoundCompensation(s, stepIds)
    && (s.policyRef != "" ==>
          s.policyRef in fallbacks && (fallbacks[s.policyRef] != "" ==> fallbacks[s.policyRef] in stepIds))
  }

  ghost predicate SoundStep(s: StepSpec, stepIds: set<string>, workflowIds: set<string>, fallbacks: map<string, string>,
                            std: Library)
  {
    SoundReferences(s, stepIds, fallbacks) && SoundKind(s, workflowIds, std)
  }

  ghost predicate SoundIds(wf: WorkflowSpec)
  {
    && (forall s :: s in wf.steps ==> s.id != "")
    && (forall i, j :: 0 <= i < j < |wf.steps| ==> wf.steps[i].id != wf.steps[j].id)
  }

  ghost predicate SoundEntry(wf: WorkflowSpec, fallbacks: map<string, string>)
  {
    && wf.entry != "" && wf.entry in StepIds(wf)
    && Acyclic(StepEdges(wf.steps, StepIds(wf), fallbacks, false))
  }

  ghost predicate SoundWorkflow(wf: WorkflowSpec, workflowIds: set<string>, fallbacks: map<string, string>,
                                std: Library)
  {
    && wf.id != "" && SoundIds(wf) && SoundEntry(wf, fallbacks)
    && (forall s :: s in wf.steps ==> SoundStep(s, StepIds(wf), workflowIds, fallbacks, std))
  }

  predicate SoundPolicy(p: PolicySpec)
  {
    p.id != "" && p.fallback != ""
  }

  ghost predicate SoundIntent(i: IntentSpec, workflowIds: set<string>)
  {
    i.nodeId != "" && !i.ConflictingEntry() && i.EntryWorkflow() != "" && i.EntryWorkflow() in workflowIds
  }

  /** Every reference resolves, every id is given once, no success edge closes a circle, and no workflow calls itself,
      not even through others. */
  ghost predicate Sound(file: File, std: Library)
  {
    var ids, fallbacks := WorkflowIds(file.workflows), Fallbacks(file.policies);
    && file.name != ""
    && (forall k :: 0 <= k < |file.policies| ==> SoundPolicy(file.policies[k]))
    && (forall wf :: wf in file.workflows ==> SoundWorkflow(wf, ids, fallbacks, std))
    && Acyclic(WorkflowEdges(file.workflows, ids))
    && (forall i :: i in file.intents ==> SoundIntent(i, ids))
  }

  // ----- The checks -----

  /** Whether the string holds a dot. */
  predicate HasPrefix(id: string)
  {
    '.' in id
  }

  /** A report stays clean as long as only warnings are added. */
  lemma FineAfter(before: seq<Issue>, after: seq<Issue>, says: Finding -> bool)
    requires forall i :: i in after <==> i in before || (Graded(i) && says(i.finding))
    ensures Fine(after) <==> Fine(before) && forall f :: says(f) ==> Grade(f) == Warning
  {
    if Fine(after) {
      forall f | says(f) ensures Grade(f) == Warning {
        assert Issue(Grade(f), f) in after;
      }
      assert forall i :: i in before ==> i in after;
    }
  }

  lemma ReferencesSound(wf: string, s: StepSpec, stepIds: set<string>, fallbacks: map<string, string>)
    ensures SoundReferences(s, stepIds, fallbacks)
            <==> forall f :: ReferenceSays(wf, s, stepIds, fallbacks, f) ==> Grade(f) == Warning
  {
    hide SoundCompensation, CompensationSays;
    CompensationIsApart(wf, s, stepIds);
    CompensationSound(wf, s, stepIds);
    if forall f :: ReferenceSays(wf, s, stepIds, fallbacks, f) ==> Grade(f) == Warning {
      assert !ReferenceSays(wf, s, stepIds, fallbacks, OnSuccessUnknown(wf, s.id));
      assert !ReferenceSays(wf, s, stepIds, fallbacks, PolicyUnknown(wf, s.id));
      assert !ReferenceSays(wf, s, stepIds, fallbacks, FallbackUnknown(wf, s.id));
      forall f ensures !CompensationSays(wf, s, stepIds, f) {
        assert CompensationSays(wf, s, stepIds, f) ==> ReferenceSays(wf, s, stepIds, fallbacks, f);
      }
    }
  }

  lemma CompensationSound(wf: string, s: StepSpec, stepIds: set<string>)
    ensures SoundCompensation(s, stepIds) <==> forall f :: !CompensationSays(wf, s, stepIds, f)
  {
    if forall f :: !CompensationSays(wf, s, stepIds, f) {
      assert !CompensationSays(wf, s, stepIds, CompensationUnknown(wf, s.id));
      assert !CompensationSays(wf, s, stepIds, CompensatesItself(wf, s.id));
      assert !CompensationSays(wf, s, stepIds, CompensationOnNonLeaf(wf, s.id));
    }
  }

  lemma CompensationIsApart(wf: string, s: StepSpec, stepIds: set<string>)
    ensures forall f :: CompensationSays(wf, s, stepIds, f) ==>
              && !f.OnSuccessUnknown? && !f.PolicyUnknown? && !f.FallbackUnknown? && !OfCycle(f)
              && Grade(f) == Erroneous
  {
  }

  lemma KindSound(wf: string, s: StepSpec, ids: set<string>, std: Library)
    ensures SoundKind(s, ids, std) <==> forall f :: KindSays(wf, s, ids, std, f) ==> Grade(f) == Warning
  {
    hide BranchesSay, SoundBranches, LeafSays;
    if s.kind == "leaf" {
      LeafSound(wf, s, std);
      assert forall f :: KindSays(wf, s, ids, std, f) <==> LeafSays(wf, s, std, f);
    } else if s.kind == "parallel" && s.branches != [] {
      BranchesSound(wf, s, ids);
      assert forall f :: KindSays(wf, s, ids, std, f) <==> BranchesSay(wf, s, ids, |s.branches|, f);
    } else {
      BranchesSound(wf, s, ids);
      OneErrorSaid(wf, s, ids, std);
    }
  }

  lemma OneErrorSaid(wf: string, s: StepSpec, ids: set<string>, std: Library)
    requires s.kind != "leaf" && !(s.kind == "parallel" && s.branches != [])
    ensures (forall f :: KindSays(wf, s, ids, std, f) ==> Grade(f) == Warning)
            <==> s.kind == "composite" && s.subRef != "" && s.subRef in ids
  {
    var f := if s.kind == "composite" then
        if s.subRef == "" then CompositeWithoutSub(wf, s.id) else SubUnknown(wf, s.id)
      else if s.kind == "parallel" then ParallelWithoutBranches(wf, s.id)
      else KindUnknown(wf, s.id);
    assert Grade(f) == Erroneous;
    assert KindSays(wf, s, ids, std, f) <==> !(s.kind == "composite" && s.subRef != "" && s.subRef in ids);
  }

  lemma LeafSound(wf: string, s: StepSpec, std: Library)
    ensures (s.actionRef != "" && (s.actionRef in std ==> std[s.actionRef](s.params).Made?))
            <==> forall f :: LeafSays(wf, s, std, f) ==> Grade(f) == Warning
  {
    if forall f :: LeafSays(wf, s, std, f) ==> Grade(f) == Warning {
      assert !LeafSays(wf, s, std, LeafWithoutAction(wf, s.id));
      if s.actionRef in std && std[s.actionRef](s.params).Misconfigured? {
        assert LeafSays(wf, s, std, ActionMisconfigured(wf, s.id, std[s.actionRef](s.params).reason));
      }
    }
  }

  /** Only branches are spoken of, and nothing bad is said exactly when they are sound. */
  lemma BranchesSound(wf: string, s: StepSpec, ids: set<string>)
    ensures forall f :: BranchesSay(wf, s, ids, |s.branches|, f) ==>
              f.BranchEmpty? || f.BranchUnknown? || f.BranchListedTwice? || f.OneBranchOnly?
    ensures SoundBranches(s, ids) <==>
              s.branches != [] && forall f :: BranchesSay(wf, s, ids, |s.branches|, f) ==> Grade(f) == Warning
  {
    assert s.branches[..|s.branches|] == s.branches;
    if s.branches != [] && forall f :: BranchesSay(wf, s, ids, |s.branches|, f) ==> Grade(f) == Warning {
      assert !BranchesSay(wf, s, ids, |s.branches|, BranchEmpty(wf, s.id));
      forall i | 0 <= i < |s.branches| ensures s.branches[i] != "" && s.branches[i] in ids {
        assert s.branches[i] in s.branches;
        assert !BranchesSay(wf, s, ids, |s.branches|, BranchUnknown(wf, s.id, s.branches[i]));
      }
      forall i, j | 0 <= i < j < |s.branches| ensures s.branches[i] != s.branches[j] {
        assert !BranchesSay(wf, s, ids, |s.branches|, BranchListedTwice(wf, s.id, s.branches[i]));
      }
    }
  }

  /** What the next branch adds. */
  ghost predicate BranchSays(wf: string, s: StepSpec, ids: set<string>, k: nat, f: Finding)
    requires k < |s.branches|
  {
    var b := s.branches[k];
    if b == "" then f == BranchEmpty(wf, s.id)
    else if b !in ids then f == BranchUnknown(wf, s.id, b)
    else b in s.branches[..k] && f == BranchListedTwice(wf, s.id, b)
  }

  lemma OneMoreBranchSaid(wf: string, s: StepSpec, ids: set<string>, k: nat)
    requires k < |s.branches|
    ensures forall f: Finding :: !f.OneBranchOnly? ==>
              (BranchesSay(wf, s, ids, k + 1, f)
               <==> BranchesSay(wf, s, ids, k, f) || BranchSays(wf, s, ids, k, f))
  {
    assert s.branches[..k + 1] == s.branches[..k] + [s.branches[k]];
    forall b ensures b in s.branches[..k] <==> exists j :: 0 <= j < k && s.branches[j] == b {
    }
  }

  lemma NoBranchSaid(wf: string, s: StepSpec, ids: set<string>)
    ensures forall f: Finding :: BranchesSay(wf, s, ids, 0, f) ==> f.OneBranchOnly?
    ensures forall f: Finding :: f.OneBranchOnly? ==>
              (BranchesSay(wf, s, ids, |s.branches|, f) <==> f == OneBranchOnly(wf, s.id) && |s.branches| == 1)
  {
  }

  method ValidateBranches(report: Report, wf: WorkflowSpec, s: StepSpec, workflowIds: set<string>)
    requires s.branches != []
    modifies report
    ensures report.Clean() == (old(report.Clean()) && SoundBranches(s, workflowIds))
    ensures old(report.issues) <= report.issues
    ensures forall i :: i in report.issues <==>
              i in old(report.issues) || (Graded(i) && BranchesSay(wf.id, s, workflowIds, |s.branches|, i.finding))
  {
    hide Fine, BranchesSay;
    NoBranchSaid(wf.id, s, workflowIds);
    var seen: set<string> := {};
    for i := 0 to |s.branches|
      invariant forall b :: b in seen <==> b in s.branches[..i]
      invariant report.Clean() == (
                && old(report.Clean())
                && (forall k :: 0 <= k < i ==> s.branches[k] != "" && s.branches[k] in workflowIds)
                && (forall j, k :: 0 <= j < k < i ==> s.branches[j] != s.branches[k]))
      invariant old(report.issues) <= report.issues
      invariant forall e :: e in report.issues <==>
                  e in old(report.issues)
                  || (Graded(e) && !e.finding.OneBranchOnly? && BranchesSay(wf.id, s, workflowIds, i, e.finding))
    {
      var branch := s.branches[i];
      OneMoreBranchSaid(wf.id, s, workflowIds, i);
      assert branch in seen <==> exists j :: 0 <= j < i && s.branches[j] == branch;
      if branch == "" {
        report.Errf(BranchEmpty(wf.id, s.id));
      } else if branch !in workflowIds {
        report.Errf(BranchUnknown(wf.id, s.id, branch));
      } else if branch in seen {
        report.Errf(BranchListedTwice(wf.id, s.id, branch));
      }
      seen := seen + {branch};
    }
    if |s.branches| == 1 {
      report.Warnf(OneBranchOnly(wf.id, s.id));
    }
  }

  method ValidateLeaf(report: Report, wf: WorkflowSpec, s: StepSpec, std: Library)
    modifies report
    ensures old(report.issues) <= report.issues
    ensures forall i :: i in report.issues <==>
              i in old(report.issues) || (Graded(i) && LeafSays(wf.id, s, std, i.finding))
  {
    hide Fine;
    if s.actionRef == "" {
      report.Errf(LeafWithoutAction(wf.id, s.id));
    } else if s.actionRef in std {
      var made := std[s.actionRef](s.params);
      if made.Misconfigured? {
        report.Errf(ActionMisconfigured(wf.id, s.id, made.reason));
      }
    } else {
      report.Warnf(NotAStandardAction(wf.id, s.id));
    }
  }

  method ValidateKind(report: Report, wf: WorkflowSpec, s: StepSpec, workflowIds: set<string>, std: Library)
    modifies report
    ensures report.Clean() == (old(report.Clean()) && SoundKind(s, workflowIds, std))
    ensures old(report.issues) <= report.issues
    ensures forall i :: i in report.issues <==>
              i in old(report.issues) || (Graded(i) && KindSays(wf.id, s, workflowIds, std, i.finding))
  {
    hide Fine, SoundKind, SoundBranches, BranchesSay, LeafSays;
    match s.kind {
      case "leaf" =>
        ValidateLeaf(report, wf, s, std);
      case "composite" =>
        if s.subRef == "" {
          report.Errf(CompositeWithoutSub(wf.id, s.id));
        } else if s.subRef !in workflowIds {
          report.Errf(SubUnknown(wf.id, s.id));
        }
      case "parallel" =>
        if |s.branches| == 0 {
          report.Errf(ParallelWithoutBranches(wf.id, s.id));
        } else {
          ValidateBranches(report, wf, s, workflowIds);
        }
      case _ =>
        report.Errf(KindUnknown(wf.id, s.id));
    }
    KindSound(wf.id, s, workflowIds, std);
    FineAfter(old(report.issues), report.issues, f => KindSays(wf.id, s, workflowIds, std, f));
  }

  method ValidateCompensation(report: Report, wf: WorkflowSpec, s: StepSpec, stepIds: set<string>)
    modifies report
    ensures old(report.issues) <= report.issues
    ensures forall i :: i in report.issues <==>
              i in old(report.issues) || (Graded(i) && CompensationSays(wf.id, s, stepIds, i.finding))
  {
    hide Fine;
    if s.compensateWith == "" {
      return;
    }
    if s.compensateWith !in stepIds {
      report.Errf(CompensationUnknown(wf.id, s.id));
    }
    if s.compensateWith == s.id {
      report.Errf(CompensatesItself(wf.id, s.id));
    }
    if s.kind == "composite" || s.kind == "parallel" {
      report.Errf(CompensationOnNonLeaf(wf.id, s.id));
    }
  }

  method ValidateReferences(report: Report, wf: WorkflowSpec, s: StepSpec, stepIds: set<string>,
                            fallbacks: map<string, string>)
    modifies report
    ensures report.Clean() == (old(report.Clean()) && SoundReferences(s, stepIds, fallbacks))
    ensures old(report.issues) <= report.issues
    ensures forall i :: i in report.issues <==>
              i in old(report.issues) || (Graded(i) && ReferenceSays(wf.id, s, stepIds, fallbacks, i.finding))
  {
    hide Fine, SoundReferences, CompensationSays;
    if s.onSuccess != "" && s.onSuccess !in stepIds {
      report.Errf(OnSuccessUnknown(wf.id, s.id));
    }
    ValidateCompensation(report, wf, s, stepIds);
    if s.policyRef != "" {
      if s.policyRef !in fallbacks {
        report.Errf(PolicyUnknown(wf.id, s.id));
      } else if fallbacks[s.policyRef] != "" && fallbacks[s.policyRef] !in stepIds {
        report.Errf(FallbackUnknown(wf.id, s.id));
      }
    }
    CompensationIsApart(wf.id, s, stepIds);
    ReferencesSound(wf.id, s, stepIds, fallbacks);
    FineAfter(old(report.issues), report.issues, f => ReferenceSays(wf.id, s, stepIds, fallbacks, f));
  }

  method ValidateStep(report: Report, wf: WorkflowSpec, s: StepSpec, stepIds: set<string>, workflowIds: set<string>,
                      fallbacks: map<string, string>, std: Library)
    modifies report
    ensures report.Clean() == (old(report.Clean()) && SoundStep(s, stepIds, workflowIds, fallbacks, std))
    ensures old(report.issues) <= report.issues
    ensures forall i :: i in report.issues <==>
              || i in old(report.issues)
              || (Graded(i) && StepSays(wf.id, s, stepIds, workflowIds, fallbacks, std, i.finding))
  {
    hide Fine, SoundKind, SoundReferences, ReferenceSays, KindSays, Graded;
    ValidateReferences(report, wf, s, stepIds, fallbacks);
    ValidateKind(report, wf, s, workflowIds, std);
  }

  // ----- Graph checks -----

  /** What `FindCycle` says of a graph whose edges all start at the given nodes. */
  lemma CyclesFromNodes(g: Graph, nodes: seq<string>)
    requires forall a, b :: Edge(g, a, b) ==> a in nodes
    ensures (forall n, c :: n in nodes && ClosedWalk(g, c) ==> !Reaches(g, n, c[0])) <==> Acyclic(g)
  {
    if c :| ClosedWalk(g, c) {
      assert Edge(g, c[0], c[1]);
      ReachesSelf(g, c[0]);
    }
  }

  method CycleIn(g: Graph, nodes: seq<string>) returns (cycle: seq<string>)
    requires forall a, b :: Edge(g, a, b) ==> a in nodes
    ensures cycle == [] <==> Acyclic(g)
    ensures cycle != [] ==> SimpleCycle(g, cycle)
  {
    var search := new Search(g, nodes);
    cycle := search.FindCycle(nodes);
    CyclesFromNodes(g, nodes);
  }

  ghost predicate SpecLeads(s: StepSpec, ids: set<string>, fallbacks: map<string, string>, all: bool, b: string)
  {
    || (s.onSuccess == b != "" && b in ids)
    || (all && s.policyRef in fallbacks && fallbacks[s.policyRef] == b && b in ids)
  }

  /** The step graph has exactly the edges its name says. */
  lemma {:induction false} StepEdgesExactly(steps: seq<StepSpec>, ids: set<string>, fallbacks: map<string, string>,
                                            all: bool)
    ensures forall a, b :: Edge(StepEdges(steps, ids, fallbacks, all), a, b) <==>
              exists s :: s in steps && s.id == a != "" && SpecLeads(s, ids, fallbacks, all, b)
  {
    if steps != [] {
      var init, s := steps[..|steps| - 1], steps[|steps| - 1];
      StepEdgesExactly(init, ids, fallbacks, all);
      assert steps == init + [s];
      OneMoreStep(init, s, ids, fallbacks, all);
      hide StepEdges, Edge, SpecLeads;
      assert forall t :: t in steps <==> t in init || t == s;
    }
  }

  lemma OneMoreStep(init: seq<StepSpec>, s: StepSpec, ids: set<string>, fallbacks: map<string, string>, all: bool)
    ensures var g, g' := StepEdges(init, ids, fallbacks, all), StepEdges(init + [s], ids, fallbacks, all);
            forall a, b :: Edge(g', a, b) <==>
                Edge(g, a, b) || (s.id == a != "" && SpecLeads(s, ids, fallbacks, all, b))
  {
    assert (init + [s])[..|init|] == init;
    hide Connect, Edge;
    var g := StepEdges(init, ids, fallbacks, all);
    ConnectAdds(g, s.id, s.onSuccess);
    var g1 := if s.onSuccess != "" && s.onSuccess in ids then Connect(g, s.id, s.onSuccess) else g;
    if s.policyRef in fallbacks {
      ConnectAdds(g1, s.id, fallbacks[s.policyRef]);
    }
  }

  method StepGraphs(wf: WorkflowSpec, stepIds: set<string>, fallbacks: map<string, string>)
    returns (success: Graph, all: Graph, order: seq<string>)
    ensures success == StepEdges(wf.steps, stepIds, fallbacks, false)
    ensures all == StepEdges(wf.steps, stepIds, fallbacks, true)
    ensures forall id :: id in order <==> exists s :: s in wf.steps && s.id == id != ""
  {
    hide Connect;
    success, all, order := map[], map[], [];
    for i := 0 to |wf.steps|
      invariant success == StepEdges(wf.steps[..i], stepIds, fallbacks, false)
      invariant all == StepEdges(wf.steps[..i], stepIds, fallbacks, true)
      invariant forall id :: id in order <==> exists s :: s in wf.steps[..i] && s.id == id != ""
    {
      var s := wf.steps[i];
      assert wf.steps[..i + 1] == wf.steps[..i] + [s] && wf.steps[..i + 1][..i] == wf.steps[..i];
      if s.id != "" {
        order := order + [s.id];
        if s.onSuccess != "" && s.onSuccess in stepIds {
          success := Connect(success, s.id, s.onSuccess);
          all := Connect(all, s.id, s.onSuccess);
        }
        if s.policyRef in fallbacks && fallbacks[s.policyRef] in stepIds {
          all := Connect(all, s.id, fallbacks[s.policyRef]);
        }
      }
    }
    assert wf.steps[..|wf.steps|] == wf.steps;
  }

  /** The step cannot be reached from the entry of its workflow. */
  ghost predicate ReachSays(wf: WorkflowSpec, all: Graph, f: Finding)
  {
    match f
    case Unreachable(w, id) => w == wf.id && id != "" && id in StepIds(wf) && !Reaches(all, wf.entry, id)
    case _ => false
  }

  method WarnUnreachable(report: Report, wf: WorkflowSpec, all: Graph, order: seq<string>)
    requires forall id :: id in order <==> id in StepIds(wf)
    modifies report
    ensures report.Clean() == old(report.Clean()) && old(report.issues) <= report.issues
    ensures forall i :: i in report.issues <==>
              i in old(report.issues) || (Graded(i) && ReachSays(wf, all, i.finding))
  {
    hide Fine, Reaches;
    var reached := ReachableFrom(all, wf.entry);
    for i := 0 to |order|
      invariant report.Clean() == old(report.Clean()) && old(report.issues) <= report.issues
      invariant forall e :: e in report.issues <==>
                  e in old(report.issues) || (Graded(e) && e.finding.Unreachable? && e.finding.workflow == wf.id
                                              && e.finding.step in order[..i] && e.finding.step !in reached)
    {
      assert order[..i + 1] == order[..i] + [order[i]];
      if order[i] !in reached {
        report.Warnf(Unreachable(wf.id, order[i]));
      }
    }
    assert order[..|order|] == order;
  }

  lemma EdgesFromSteps(wf: WorkflowSpec, stepIds: set<string>, fallbacks: map<string, string>, all: bool,
                       order: seq<string>)
    requires forall id :: id in order <==> exists s :: s in wf.steps && s.id == id != ""
    ensures forall a, b :: Edge(StepEdges(wf.steps, stepIds, fallbacks, all), a, b) ==> a in order
  {
    StepEdgesExactly(wf.steps, stepIds, fallbacks, all);
  }

  /** The cycle that is reported is one: of success edges, or, where those close none, of success and fallback edges. */
  ghost predicate CycleSays(wf: WorkflowSpec, success: Graph, all: Graph, f: Finding)
  {
    match f
    case SuccessCycle(w, c) => w == wf.id && SimpleCycle(success, c)
    case FallbackLoop(w, c) => w == wf.id && Acyclic(success) && SimpleCycle(all, c)
    case _ => false
  }

  /** If success edges close a walk, one is reported, and otherwise, if fallback edges do, one of theirs. */
  ghost predicate CycleReported(wf: WorkflowSpec, success: Graph, all: Graph, issues: seq<Issue>)
  {
    && (!Acyclic(success) ==> exists c :: Issue(Erroneous, SuccessCycle(wf.id, c)) in issues)
    && (Acyclic(success) && !Acyclic(all) ==> exists c :: Issue(Warning, FallbackLoop(wf.id, c)) in issues)
  }

  /** Cycles over success edges are errors; over fallback edges too, and unreachable steps, only warnings. */
  method ValidateStepGraph(report: Report, wf: WorkflowSpec, stepIds: set<string>, fallbacks: map<string, string>)
    requires stepIds == StepIds(wf)
    modifies report
    ensures var success, all := StepEdges(wf.steps, stepIds, fallbacks, false),
            StepEdges(wf.steps, stepIds, fallbacks, true);
            && report.Clean() == (old(report.Clean()) && Acyclic(success))
            && (forall i: Issue :: !OfCycle(i.finding) ==>
                  (i in report.issues <==>
                   i in old(report.issues) || (Graded(i) && ReachSays(wf, all, i.finding))))
            && (forall i: Issue :: OfCycle(i.finding) && i in report.issues ==>
                  i in old(report.issues) || (Graded(i) && CycleSays(wf, success, all, i.finding)))
            && CycleReported(wf, success, all, report.issues)
    ensures old(report.issues) <= report.issues
  {
    hide Fine, Acyclic, Reaches, SimpleCycle, StepEdges, ReachSays;
    var success, all, order := StepGraphs(wf, stepIds, fallbacks);
    EdgesFromSteps(wf, stepIds, fallbacks, false, order);
    EdgesFromSteps(wf, stepIds, fallbacks, true, order);
    var cycle := CycleIn(success, order);
    if cycle != [] {
      report.Errf(SuccessCycle(wf.id, cycle));
    } else {
      cycle := CycleIn(all, order);
      if cycle != [] {
        report.Warnf(FallbackLoop(wf.id, cycle));
      }
    }
    ReachIsApart(wf, all);
    WarnUnreachable(report, wf, all, order);
  }

  lemma ReachIsApart(wf: WorkflowSpec, all: Graph)
    ensures forall f :: ReachSays(wf, all, f) ==> !OfCycle(f) && Grade(f) == Warning
  {
  }

  // ----- One workflow -----

  /** The ids, in order of appearance; a missing or repeated one is an error. */
  method CollectStepIds(report: Report, wf: WorkflowSpec) returns (stepIds: set<string>)
    modifies report
    ensures stepIds == StepIds(wf)
    ensures report.Clean() == (old(report.Clean()) && SoundIds(wf)) && old(report.issues) <= report.issues
    ensures forall i :: i in report.issues <==>
              i in old(report.issues) || (Graded(i) && IdsSay(wf, |wf.steps|, i.finding))
  {
    hide Fine;
    stepIds := {};
    for i := 0 to |wf.steps|
      invariant stepIds == set k | 0 <= k < i && wf.steps[k].id != "" :: wf.steps[k].id
      invariant old(report.issues) <= report.issues
      invariant forall e :: e in report.issues <==>
                  e in old(report.issues) || (Graded(e) && IdsSay(wf, i, e.finding))
      invariant report.Clean() == (
                && old(report.Clean())
                && (forall k :: 0 <= k < i ==> wf.steps[k].id != "")
                && (forall j, k :: 0 <= j < k < i ==> wf.steps[j].id != wf.steps[k].id))
    {
      var id := wf.steps[i].id;
      if id == "" {
        report.Errf(StepWithoutId(wf.id));
      } else {
        if id in stepIds {
          report.Errf(DuplicateStep(wf.id, id));
        }
        stepIds := stepIds + {id};
      }
    }
  }

  ghost predicate EntryKnown(wf: WorkflowSpec)
  {
    wf.entry != "" && wf.entry in StepIds(wf)
  }

  ghost predicate EntrySays(wf: WorkflowSpec, f: Finding)
  {
    match f
    case NoEntry(w) => w == wf.id && wf.entry == ""
    case EntryUnknown(w, e) => w == wf.id && e == wf.entry != "" && e !in StepIds(wf)
    case _ => false
  }

  /** Said of the workflow as a whole; reachability is only asked where the entry is known. */
  ghost predicate HeadSays(wf: WorkflowSpec, fallbacks: map<string, string>, f: Finding)
  {
    || (wf.id == "" && f == WorkflowWithoutId) || IdsSay(wf, |wf.steps|, f) || EntrySays(wf, f)
    || (EntryKnown(wf) && ReachSays(wf, StepEdges(wf.steps, StepIds(wf), fallbacks, true), f))
  }

  ghost predicate StepsSay(wf: WorkflowSpec, n: nat, ids: set<string>, fallbacks: map<string, string>, std: Library,
                           f: Finding)
    requires n <= |wf.steps|
  {
    exists k :: 0 <= k < n && StepSays(wf.id, wf.steps[k], StepIds(wf), ids, fallbacks, std, f)
  }

  ghost predicate WorkflowSays(wf: WorkflowSpec, ids: set<string>, fallbacks: map<string, string>, std: Library,
                               f: Finding)
  {
    HeadSays(wf, fallbacks, f) || StepsSay(wf, |wf.steps|, ids, fallbacks, std, f)
  }

  ghost predicate WorkflowCycleSays(wf: WorkflowSpec, fallbacks: map<string, string>, f: Finding)
  {
    EntryKnown(wf) && CycleSays(wf, StepEdges(wf.steps, StepIds(wf), fallbacks, false),
                                StepEdges(wf.steps, StepIds(wf), fallbacks, true), f)
  }

  ghost predicate WorkflowCycleReported(wf: WorkflowSpec, fallbacks: map<string, string>, issues: seq<Issue>)
  {
    EntryKnown(wf) ==> CycleReported(wf, StepEdges(wf.steps, StepIds(wf), fallbacks, false),
                                     StepEdges(wf.steps, StepIds(wf), fallbacks, true), issues)
  }

  lemma StepsAreApart(wf: string, s: StepSpec, stepIds: set<string>, ids: set<string>, fallbacks: map<string, string>,
                      std: Library)
    ensures forall f :: StepSays(wf, s, stepIds, ids, fallbacks, std, f) ==> !OfCycle(f)
  {
    hide BranchesSay, CompensationSays;
    BranchesSound(wf, s, ids);
    CompensationIsApart(wf, s, stepIds);
  }

  lemma OneMoreStepSaid(wf: WorkflowSpec, n: nat, ids: set<string>, fallbacks: map<string, string>, std: Library)
    requires n < |wf.steps|
    ensures forall f :: StepsSay(wf, n + 1, ids, fallbacks, std, f)
                        <==> StepsSay(wf, n, ids, fallbacks, std, f)
                             || StepSays(wf.id, wf.steps[n], StepIds(wf), ids, fallbacks, std, f)
  {
    hide StepSays;
  }

  /** The ids, the entry and the step graph. */
  method ValidateHead(report: Report, wf: WorkflowSpec, fallbacks: map<string, string>) returns (stepIds: set<string>)
    modifies report
    ensures stepIds == StepIds(wf)
    ensures report.Clean() == (old(report.Clean()) && wf.id != "" && SoundIds(wf) && SoundEntry(wf, fallbacks))
    ensures old(report.issues) <= report.issues
    ensures forall i: Issue :: !OfCycle(i.finding) ==>
              (i in report.issues <==>
               i in old(report.issues) || (Graded(i) && HeadSays(wf, fallbacks, i.finding)))
    ensures forall i: Issue :: OfCycle(i.finding) && i in report.issues ==>
              i in old(report.issues) || (Graded(i) && WorkflowCycleSays(wf, fallbacks, i.finding))
    ensures WorkflowCycleReported(wf, fallbacks, report.issues)
  {
    hide Fine, SoundIds, StepIds, StepEdges, Acyclic, IdsSay, ReachSays, CycleSays, CycleReported;
    if wf.id == "" {
      report.Errf(WorkflowWithoutId);
    }
    stepIds := CollectStepIds(report, wf);
    IdsAreApart(wf);
    ReachIsApart(wf, StepEdges(wf.steps, StepIds(wf), fallbacks, true));
    if wf.entry == "" {
      report.Errf(NoEntry(wf.id));
    } else if wf.entry !in stepIds {
      report.Errf(EntryUnknown(wf.id, wf.entry));
    } else {
      ValidateStepGraph(report, wf, stepIds, fallbacks);
    }
  }

  lemma IdsAreApart(wf: WorkflowSpec)
    ensures forall f :: IdsSay(wf, |wf.steps|, f) ==> f.StepWithoutId? || f.DuplicateStep?
  {
  }

  method ValidateWorkflow(report: Report, wf: WorkflowSpec, workflowIds: set<string>, fallbacks: map<string, string>,
                          std: Library)
    modifies report
    ensures report.Clean() == (old(report.Clean()) && SoundWorkflow(wf, workflowIds, fallbacks, std))
    ensures old(report.issues) <= report.issues
    ensures forall i: Issue :: !OfCycle(i.finding) ==>
              (i in report.issues <==>
               i in old(report.issues) || (Graded(i) && WorkflowSays(wf, workflowIds, fallbacks, std, i.finding)))
    ensures forall i: Issue :: OfCycle(i.finding) && i in report.issues ==>
              i in old(report.issues) || (Graded(i) && WorkflowCycleSays(wf, fallbacks, i.finding))
    ensures WorkflowCycleReported(wf, fallbacks, report.issues)
  {
    hide Fine, SoundIds, SoundStep, SoundEntry, StepIds, StepEdges, HeadSays, StepSays, StepsSay, WorkflowCycleSays,
         WorkflowCycleReported, Graded;
    var stepIds := ValidateHead(report, wf, fallbacks);
    ghost var graph, clean := report.issues, report.Clean();
    NoStepSaid(wf, workflowIds, fallbacks, std);
    for i := 0 to |wf.steps|
      invariant graph <= report.issues
      invariant report.Clean() == (clean && forall k :: 0 <= k < i ==>
                                     SoundStep(wf.steps[k], stepIds, workflowIds, fallbacks, std))
      invariant forall e :: e in report.issues <==>
                  e in graph || (Graded(e) && StepsSay(wf, i, workflowIds, fallbacks, std, e.finding))
    {
      OneMoreStepSaid(wf, i, workflowIds, fallbacks, std);
      ValidateStep(report, wf, wf.steps[i], stepIds, workflowIds, fallbacks, std);
    }
    StepsSayNoCycle(wf, workflowIds, fallbacks, std);
    CycleStaysReported(wf, fallbacks, graph, report.issues);
  }

  lemma NoStepSaid(wf: WorkflowSpec, ids: set<string>, fallbacks: map<string, string>, std: Library)
    ensures forall f :: !StepsSay(wf, 0, ids, fallbacks, std, f)
  {
  }

  lemma StepsSayNoCycle(wf: WorkflowSpec, ids: set<string>, fallbacks: map<string, string>, std: Library)
    ensures forall f :: StepsSay(wf, |wf.steps|, ids, fallbacks, std, f) ==> !OfCycle(f)
  {
    hide StepSays;
    forall f | StepsSay(wf, |wf.steps|, ids, fallbacks, std, f) ensures !OfCycle(f) {
      var k :| 0 <= k < |wf.steps| && StepSays(wf.id, wf.steps[k], StepIds(wf), ids, fallbacks, std, f);
      StepsAreApart(wf.id, wf.steps[k], StepIds(wf), ids, fallbacks, std);
    }
  }

  lemma CycleStaysReported(wf: WorkflowSpec, fallbacks: map<string, string>, before: seq<Issue>, now: seq<Issue>)
    requires WorkflowCycleReported(wf, fallbacks, before) && before <= now
    ensures WorkflowCycleReported(wf, fallbacks, now)
  {
    hide Acyclic, StepEdges, EntryKnown;
    assert forall i :: i in before ==> i in now;
  }

  // ----- Workflows calling workflows -----

  lemma {:induction false} CallsExactly(steps: seq<StepSpec>, known: set<string>, b: string)
    ensures b in CallsOfSteps(steps, known) <==> exists s :: s in steps && SpecCalls(s, known, b)
  {
    if steps != [] {
      hide Calls, SpecCalls;
      CallsExactly(steps[..|steps| - 1], known, b);
      CallsAreSpecCalls(steps[|steps| - 1], known, b);
      assert steps == steps[..|steps| - 1] + [steps[|steps| - 1]];
    }
  }

  /** The step runs that workflow: as the sub-workflow of a composite step, or as a branch of a parallel one. */
  ghost predicate SpecCalls(s: StepSpec, known: set<string>, b: string)
  {
    b != "" && b in known && ((s.kind == "composite" && s.subRef == b) || (s.kind == "parallel" && b in s.branches))
  }

  lemma CallsAreSpecCalls(s: StepSpec, known: set<string>, b: string)
    ensures b in Calls(s, known) <==> SpecCalls(s, known, b)
  {
    SelectHas(s.branches, b => Known(b, known), b);
  }

  /** The call graph has exactly the calls between known workflows. */
  lemma {:induction false} WorkflowEdgesExactly(workflows: seq<WorkflowSpec>, known: set<string>)
    ensures forall a, b :: Edge(WorkflowEdges(workflows, known), a, b) <==>
              exists wf, s :: wf in workflows && wf.id == a && s in wf.steps && SpecCalls(s, known, b)
  {
    if workflows != [] {
      var init, last := workflows[..|workflows| - 1], workflows[|workflows| - 1];
      WorkflowEdgesExactly(init, known);
      assert workflows == init + [last];
      ConnectAllAdds(WorkflowEdges(init, known), last.id, CallsOfSteps(last.steps, known));
      forall b
        ensures b in CallsOfSteps(last.steps, known) <==> exists s :: s in last.steps && SpecCalls(s, known, b)
      {
        CallsExactly(last.steps, known, b);
      }
      hide WorkflowEdges, Edge, SpecCalls, CallsOfSteps;
    }
  }

  lemma OneMoreCall(g: Graph, a: string, bs: seq<string>, b: string)
    ensures ConnectAll(g, a, bs + [b]) == Connect(ConnectAll(g, a, bs), a, b)
    ensures ConnectAll(g, a, []) == g
  {
    assert (bs + [b])[..|bs|] == bs;
  }

  lemma OneMoreBranch(branches: seq<string>, k: nat, known: set<string>)
    requires k < |branches|
    ensures Select(branches[..k + 1], b => Known(b, known))
         == Select(branches[..k], b => Known(b, known)) + if Known(branches[k], known) then [branches[k]] else []
  {
    assert branches[..k + 1] == branches[..k] + [branches[k]];
    SelectConcat(branches[..k], [branches[k]], b => Known(b, known));
  }

  lemma NoBranchYet(branches: seq<string>, known: set<string>)
    ensures Select(branches[..0], b => Known(b, known)) == []
  {
  }

  method ConnectBranches(edges0: Graph, id: string, s: StepSpec, known: set<string>) returns (edges: Graph)
    requires s.kind == "parallel"
    ensures edges == ConnectAll(edges0, id, Calls(s, known))
  {
    hide Connect, ConnectAll, Select;
    edges := edges0;
    OneMoreCall(edges0, id, [], "");
    NoBranchYet(s.branches, known);
    for k := 0 to |s.branches|
      invariant edges == ConnectAll(edges0, id, Select(s.branches[..k], b => Known(b, known)))
    {
      var branch := s.branches[k];
      ghost var so_far := Select(s.branches[..k], b => Known(b, known));
      OneMoreBranch(s.branches, k, known);
      OneMoreCall(edges0, id, so_far, branch);
      assert so_far + [] == so_far;
      if branch != "" && branch in known {
        edges := Connect(edges, id, branch);
      }
    }
    assert s.branches[..|s.branches|] == s.branches;
  }

  lemma OneMoreCaller(g: Graph, id: string, steps: seq<StepSpec>, i: nat, known: set<string>)
    requires i < |steps|
    ensures ConnectAll(g, id, CallsOfSteps(steps[..i + 1], known))
         == ConnectAll(ConnectAll(g, id, CallsOfSteps(steps[..i], known)), id, Calls(steps[i], known))
  {
    assert steps[..i + 1][..i] == steps[..i];
    ConnectAllTwice(g, id, CallsOfSteps(steps[..i], known), Calls(steps[i], known));
  }

  method ConnectCalls(edges0: Graph, wf: WorkflowSpec, known: set<string>) returns (edges: Graph)
    ensures edges == ConnectAll(edges0, wf.id, CallsOfSteps(wf.steps, known))
  {
    hide Connect, ConnectAll;
    edges := edges0;
    OneMoreCall(edges0, wf.id, [], "");
    for i := 0 to |wf.steps|
      invariant edges == ConnectAll(edges0, wf.id, CallsOfSteps(wf.steps[..i], known))
    {
      var s := wf.steps[i];
      OneMoreCaller(edges0, wf.id, wf.steps, i, known);
      OneMoreCall(edges, wf.id, [], s.subRef);
      assert [] + [s.subRef] == [s.subRef];
      if s.kind == "composite" && s.subRef != "" && s.subRef in known {
        edges := Connect(edges, wf.id, s.subRef);
      }
      if s.kind == "parallel" {
        edges := ConnectBranches(edges, wf.id, s, known);
      }
    }
    assert wf.steps[..|wf.steps|] == wf.steps;
  }

  method ValidateSubWorkflowAcyclic(report: Report, workflows: seq<WorkflowSpec>)
    modifies report
    ensures var calls := WorkflowEdges(workflows, WorkflowIds(workflows));
            && report.Clean() == (old(report.Clean()) && Acyclic(calls))
            && (Acyclic(calls) ==> report.issues == old(report.issues))
            && (!Acyclic(calls) ==>
                  exists c :: SimpleCycle(calls, c)
                              && report.issues == old(report.issues) + [Issue(Erroneous, SubWorkflowCycle(c))])
    ensures old(report.issues) <= report.issues
  {
    hide Fine, Acyclic, SimpleCycle, ConnectAll, CallsOfSteps;
    var known := CollectWorkflowIds(workflows);
    var edges: Graph, order: seq<string> := map[], [];
    for i := 0 to |workflows|
      invariant edges == WorkflowEdges(workflows[..i], known)
      invariant forall wf :: wf in workflows[..i] ==> wf.id in order
      invariant report.issues == old(report.issues)
    {
      order := order + [workflows[i].id];
      assert workflows[..i + 1] == workflows[..i] + [workflows[i]] && workflows[..i + 1][..i] == workflows[..i];
      edges := ConnectCalls(edges, workflows[i], known);
    }
    assert workflows[..|workflows|] == workflows;
    WorkflowEdgesExactly(workflows, known);
    var cycle := CycleIn(edges, order);
    if cycle != [] {
      report.Errf(SubWorkflowCycle(cycle));
    }
  }

  method CollectWorkflowIds(workflows: seq<WorkflowSpec>) returns (ids: set<string>)
    ensures ids == WorkflowIds(workflows)
  {
    ids := {};
    for i := 0 to |workflows|
      invariant ids == set k | 0 <= k < i :: workflows[k].id
    {
      ids := ids + {workflows[i].id};
    }
  }

  /** Said of the first `n` policies. */
  ghost predicate PoliciesSay(policies: seq<PolicySpec>, n: nat, f: Finding)
    requires n <= |policies|
  {
    match f
    case PolicyWithoutId => exists k :: 0 <= k < n && policies[k].id == ""
    case PolicyWithoutFallback(p) => p != "" && exists k ::
        0 <= k < n && policies[k].id == p && policies[k].fallback == ""
    case _ => false
  }

  ghost predicate IntentEntrySays(intent: IntentSpec, ids: set<string>, f: Finding)
  {
    match f
    case IntentWithoutEntry(n) =>
      n == intent.nodeId && intent.entryWorkflowRef == "" && intent.deprecatedEntryStepRef == ""
    case IntentEntryUnknown(n, e) =>
      && n == intent.nodeId && e != "" && e !in ids
      && e == if intent.entryWorkflowRef != "" then intent.entryWorkflowRef else intent.deprecatedEntryStepRef
    case _ => false
  }

  ghost predicate IntentIdSays(intent: IntentSpec, f: Finding)
  {
    match f
    case IntentWithoutId => intent.nodeId == ""
    case IntentWithoutPrefix(n) => n == intent.nodeId != "" && '.' !in n
    case _ => false
  }

  ghost predicate IntentSays(intent: IntentSpec, ids: set<string>, f: Finding)
  {
    match f
    case IntentConflicts(n) => n == intent.nodeId && Contradicts(intent)
    case IntentDeprecated(n) => n == intent.nodeId && !Contradicts(intent) && intent.deprecatedEntryStepRef != ""
    case _ => IntentIdSays(intent, f) || IntentEntrySays(intent, ids, f)
  }

  method ValidatePolicies(report: Report, policies: seq<PolicySpec>) returns (fallbacks: map<string, string>)
    modifies report
    ensures fallbacks == Fallbacks(policies)
    ensures report.Clean() == (old(report.Clean()) && forall k :: 0 <= k < |policies| ==> SoundPolicy(policies[k]))
    ensures old(report.issues) <= report.issues
    ensures forall i :: i in report.issues <==>
              i in old(report.issues) || (Graded(i) && PoliciesSay(policies, |policies|, i.finding))
  {
    hide Fine;
    fallbacks := map[];
    for i := 0 to |policies|
      invariant fallbacks == Fallbacks(policies[..i])
      invariant old(report.issues) <= report.issues
      invariant forall e :: e in report.issues <==>
                  e in old(report.issues) || (Graded(e) && PoliciesSay(policies, i, e.finding))
      invariant report.Clean() == (old(report.Clean()) && forall k :: 0 <= k < i ==> SoundPolicy(policies[k]))
    {
      var p := policies[i];
      assert policies[..i + 1][..i] == policies[..i];
      if p.id == "" {
        report.Errf(PolicyWithoutId);
        continue;
      }
      if p.fallback == "" {
        report.Errf(PolicyWithoutFallback(p.id));
      }
      fallbacks := fallbacks[p.id := p.fallback];
    }
    assert policies[..|policies|] == policies;
  }

  method ValidateIntentEntry(report: Report, intent: IntentSpec, workflowIds: set<string>)
    modifies report
    ensures old(report.issues) <= report.issues
    ensures forall i :: i in report.issues <==>
              i in old(report.issues) || (Graded(i) && IntentEntrySays(intent, workflowIds, i.finding))
  {
    hide Fine;
    var entry := intent.EntryWorkflow();
    if entry == "" {
      report.Errf(IntentWithoutEntry(intent.nodeId));
    } else if entry !in workflowIds {
      report.Errf(IntentEntryUnknown(intent.nodeId, entry));
    }
  }

  method ValidateIntentId(report: Report, intent: IntentSpec)
    modifies report
    ensures old(report.issues) <= report.issues
    ensures forall i :: i in report.issues <==>
              i in old(report.issues) || (Graded(i) && IntentIdSays(intent, i.finding))
  {
    hide Fine;
    if intent.nodeId == "" {
      report.Errf(IntentWithoutId);
    } else if !HasPrefix(intent.nodeId) {
      report.Warnf(IntentWithoutPrefix(intent.nodeId));
    }
  }

  lemma EntryIsApart(intent: IntentSpec, ids: set<string>)
    ensures forall f :: IntentEntrySays(intent, ids, f) ==> f.IntentWithoutEntry? || f.IntentEntryUnknown?
    ensures forall f :: IntentIdSays(intent, f) ==> f.IntentWithoutId? || f.IntentWithoutPrefix?
  {
  }

  method ValidateIntent(report: Report, intent: IntentSpec, workflowIds: set<string>)
    modifies report
    ensures report.Clean() == (old(report.Clean()) && SoundIntent(intent, workflowIds))
    ensures old(report.issues) <= report.issues
    ensures forall i :: i in report.issues <==>
              i in old(report.issues) || (Graded(i) && IntentSays(intent, workflowIds, i.finding))
  {
    hide Fine, SoundIntent, IntentEntrySays, IntentIdSays;
    EntryIsApart(intent, workflowIds);
    ValidateIntentId(report, intent);
    if intent.ConflictingEntry() {
      report.Errf(IntentConflicts(intent.nodeId));
    } else if intent.deprecatedEntryStepRef != "" {
      report.Warnf(IntentDeprecated(intent.nodeId));
    }
    ValidateIntentEntry(report, intent, workflowIds);
    IntentSound(intent, workflowIds);
    FineAfter(old(report.issues), report.issues, f => IntentSays(intent, workflowIds, f));
  }

  lemma IntentSound(intent: IntentSpec, ids: set<string>)
    ensures SoundIntent(intent, ids) <==> forall f :: IntentSays(intent, ids, f) ==> Grade(f) == Warning
  {
    if forall f :: IntentSays(intent, ids, f) ==> Grade(f) == Warning {
      assert !IntentSays(intent, ids, IntentWithoutId);
      assert !IntentSays(intent, ids, IntentConflicts(intent.nodeId));
      assert !IntentSays(intent, ids, IntentWithoutEntry(intent.nodeId));
      assert !IntentSays(intent, ids, IntentEntryUnknown(intent.nodeId, intent.EntryWorkflow()));
    }
  }

  /** What a finding, other than a cycle, says of the manifest. */
  ghost predicate Says(file: File, std: Library, f: Finding)
  {
    var ids, fallbacks := WorkflowIds(file.workflows), Fallbacks(file.policies);
    || (f.MissingDomainName? && file.name == "") || PoliciesSay(file.policies, |file.policies|, f)
    || WorkflowsSay(file.workflows, |file.workflows|, ids, fallbacks, std, f)
    || IntentsSay(file.intents, |file.intents|, ids, f)
  }

  ghost predicate WorkflowsSay(wfs: seq<WorkflowSpec>, n: nat, ids: set<string>, fallbacks: map<string, string>,
                               std: Library, f: Finding)
    requires n <= |wfs|
  {
    exists k :: 0 <= k < n && WorkflowSays(wfs[k], ids, fallbacks, std, f)
  }

  ghost predicate IntentsSay(intents: seq<IntentSpec>, n: nat, ids: set<string>, f: Finding)
    requires n <= |intents|
  {
    exists k :: 0 <= k < n && IntentSays(intents[k], ids, f)
  }

  /** What a finding about a cycle says: there is that closed walk in the step graph of a workflow, or in the graph of
      workflows calling workflows. */
  ghost predicate SaysCycle(file: File, f: Finding)
  {
    || (f.SubWorkflowCycle? && SimpleCycle(WorkflowEdges(file.workflows, WorkflowIds(file.workflows)), f.cycle))
    || WorkflowsSayCycle(file.workflows, |file.workflows|, Fallbacks(file.policies), f)
  }

  ghost predicate WorkflowsSayCycle(wfs: seq<WorkflowSpec>, n: nat, fallbacks: map<string, string>, f: Finding)
    requires n <= |wfs|
  {
    exists k :: 0 <= k < n && WorkflowCycleSays(wfs[k], fallbacks, f)
  }

  ghost predicate CyclesReported(wfs: seq<WorkflowSpec>, n: nat, fallbacks: map<string, string>, issues: seq<Issue>)
    requires n <= |wfs|
  {
    forall k :: 0 <= k < n ==> WorkflowCycleReported(wfs[k], fallbacks, issues)
  }

  lemma OneMoreWorkflowSaid(wfs: seq<WorkflowSpec>, n: nat, ids: set<string>, fallbacks: map<string, string>,
                            std: Library)
    requires n < |wfs|
    ensures forall f :: WorkflowsSay(wfs, n + 1, ids, fallbacks, std, f)
                        <==> WorkflowsSay(wfs, n, ids, fallbacks, std, f)
                             || WorkflowSays(wfs[n], ids, fallbacks, std, f)
    ensures forall f :: WorkflowsSayCycle(wfs, n + 1, fallbacks, f)
                        <==> WorkflowsSayCycle(wfs, n, fallbacks, f) || WorkflowCycleSays(wfs[n], fallbacks, f)
  {
    hide WorkflowSays, WorkflowCycleSays;
  }

  lemma NoWorkflowSaid(wfs: seq<WorkflowSpec>, ids: set<string>, fallbacks: map<string, string>, std: Library)
    ensures forall f :: !WorkflowsSay(wfs, 0, ids, fallbacks, std, f) && !WorkflowsSayCycle(wfs, 0, fallbacks, f)
    ensures forall issues :: CyclesReported(wfs, 0, fallbacks, issues)
  {
  }

  lemma OneMoreIntentSaid(intents: seq<IntentSpec>, n: nat, ids: set<string>)
    requires n < |intents|
    ensures forall f :: IntentsSay(intents, n + 1, ids, f)
                        <==> IntentsSay(intents, n, ids, f) || IntentSays(intents[n], ids, f)
  {
    hide IntentSays;
  }

  lemma IntentsAreApart(intents: seq<IntentSpec>, ids: set<string>)
    ensures forall f :: !IntentsSay(intents, 0, ids, f)
    ensures forall f :: IntentsSay(intents, |intents|, ids, f) ==> !OfCycle(f)
  {
  }

  lemma PoliciesAreApart(policies: seq<PolicySpec>)
    ensures forall f :: PoliciesSay(policies, |policies|, f) ==> !OfCycle(f)
  {
  }

  lemma OneMoreReported(wfs: seq<WorkflowSpec>, n: nat, fallbacks: map<string, string>, before: seq<Issue>,
                        now: seq<Issue>)
    requires n < |wfs| && before <= now && CyclesReported(wfs, n, fallbacks, before)
    requires WorkflowCycleReported(wfs[n], fallbacks, now)
    ensures CyclesReported(wfs, n + 1, fallbacks, now)
  {
    hide WorkflowCycleReported;
    CyclesStayReported(wfs, n, fallbacks, before, now);
  }

  lemma CyclesStayReported(wfs: seq<WorkflowSpec>, n: nat, fallbacks: map<string, string>, before: seq<Issue>,
                           now: seq<Issue>)
    requires n <= |wfs| && before <= now && CyclesReported(wfs, n, fallbacks, before)
    ensures CyclesReported(wfs, n, fallbacks, now)
  {
    hide WorkflowCycleReported;
    forall k | 0 <= k < n ensures WorkflowCycleReported(wfs[k], fallbacks, now) {
      CycleStaysReported(wfs[k], fallbacks, before, now);
    }
  }

  method ValidateWorkflows(report: Report, workflows: seq<WorkflowSpec>, ids: set<string>,
                           fallbacks: map<string, string>, std: Library)
    modifies report
    ensures report.Clean() == (old(report.Clean()) && forall k :: 0 <= k < |workflows| ==>
                                 SoundWorkflow(workflows[k], ids, fallbacks, std))
    ensures old(report.issues) <= report.issues
    ensures forall i: Issue :: !OfCycle(i.finding) ==>
              (i in report.issues <==>
               || i in old(report.issues)
               || (Graded(i) && WorkflowsSay(workflows, |workflows|, ids, fallbacks, std, i.finding)))
    ensures forall i: Issue :: OfCycle(i.finding) && i in report.issues ==>
              || i in old(report.issues)
              || (Graded(i) && WorkflowsSayCycle(workflows, |workflows|, fallbacks, i.finding))
    ensures CyclesReported(workflows, |workflows|, fallbacks, report.issues)
  {
    hide Fine, SoundWorkflow, WorkflowSays, WorkflowCycleSays, WorkflowsSay, WorkflowsSayCycle, CyclesReported,
         WorkflowCycleReported, Graded, OfCycle;
    NoWorkflowSaid(workflows, ids, fallbacks, std);
    for n := 0 to |workflows|
      invariant old(report.issues) <= report.issues
      invariant report.Clean() == (old(report.Clean()) && forall k :: 0 <= k < n ==>
                                     SoundWorkflow(workflows[k], ids, fallbacks, std))
      invariant forall i: Issue :: !OfCycle(i.finding) ==>
                  (i in report.issues <==>
                   || i in old(report.issues)
                   || (Graded(i) && WorkflowsSay(workflows, n, ids, fallbacks, std, i.finding)))
      invariant forall i: Issue :: OfCycle(i.finding) && i in report.issues ==>
                  || i in old(report.issues)
                  || (Graded(i) && WorkflowsSayCycle(workflows, n, fallbacks, i.finding))
      invariant CyclesReported(workflows, n, fallbacks, report.issues)
    {
      ghost var before := report.issues;
      OneMoreWorkflowSaid(workflows, n, ids, fallbacks, std);
      ValidateWorkflow(report, workflows[n], ids, fallbacks, std);
      OneMoreReported(workflows, n, fallbacks, before, report.issues);
    }
  }

  method ValidateIntents(report: Report, intents: seq<IntentSpec>, ids: set<string>)
    modifies report
    ensures report.Clean() == (old(report.Clean()) && forall k :: 0 <= k < |intents| ==> SoundIntent(intents[k], ids))
    ensures old(report.issues) <= report.issues
    ensures forall i :: i in report.issues <==>
              i in old(report.issues) || (Graded(i) && IntentsSay(intents, |intents|, ids, i.finding))
  {
    hide Fine, SoundIntent, IntentSays, IntentsSay, Graded;
    IntentsAreApart(intents, ids);
    for n := 0 to |intents|
      invariant old(report.issues) <= report.issues
      invariant report.Clean() == (old(report.Clean()) && forall k :: 0 <= k < n ==> SoundIntent(intents[k], ids))
      invariant forall i :: i in report.issues <==>
                  i in old(report.issues) || (Graded(i) && IntentsSay(intents, n, ids, i.finding))
    {
      OneMoreIntentSaid(intents, n, ids);
      ValidateIntent(report, intents[n], ids);
    }
  }

  /** The report is free of errors exactly when the manifest is sound. It holds exactly the findings that are so, each
      as the error or the warning it is; of a graph with closed walks it shows one. */
  method Validate(file: File, std: Library) returns (report: Report)
    ensures fresh(report)
    ensures report.Clean() <==> Sound(file, std)
    ensures forall i: Issue :: !OfCycle(i.finding) ==>
              (i in report.issues <==> Graded(i) && Says(file, std, i.finding))
    ensures forall i: Issue :: OfCycle(i.finding) && i in report.issues ==> Graded(i) && SaysCycle(file, i.finding)
    ensures CyclesReported(file.workflows, |file.workflows|, Fallbacks(file.policies), report.issues)
    ensures !Acyclic(WorkflowEdges(file.workflows, WorkflowIds(file.workflows))) ==>
              exists c :: Issue(Erroneous, SubWorkflowCycle(c)) in report.issues
  {
    hide Fine, SoundWorkflow, SoundIntent, SoundPolicy, Acyclic, WorkflowEdges, Fallbacks, WorkflowIds, PoliciesSay,
         WorkflowsSay, WorkflowsSayCycle, IntentsSay, CyclesReported, SimpleCycle;
    report := new Report();
    if file.name == "" {
      report.Errf(MissingDomainName);
    }
    PoliciesAreApart(file.policies);
    var fallbacks := ValidatePolicies(report, file.policies);
    var ids := CollectWorkflowIds(file.workflows);
    IntentsAreApart(file.intents, ids);
    ValidateWorkflows(report, file.workflows, ids, fallbacks, std);
    ghost var before := report.issues;
    ValidateSubWorkflowAcyclic(report, file.workflows);
    ValidateIntents(report, file.intents, ids);
    CyclesStayReported(file.workflows, |file.workflows|, fallbacks, before, report.issues);
  }
}
