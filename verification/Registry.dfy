/** Registering a domain with the engine. */
module Registry {
  import opened Workflows
  import opened Manifest
  import opened Engine

  /** The workflow table after the first `n` workflows of the domain are in it, each under its id and stamped with the
      domain. */
  function WithWorkflows(table: map<string, Workflow>, name: string,
                         workflows: seq<Workflow>): (after: map<string, Workflow>)
  {
    if workflows == [] then table
    else
      var wf := workflows[|workflows| - 1];
      WithWorkflows(table, name, workflows[..|workflows| - 1])[wf.id := wf.(domain := name)]
  }

  function WithPolicies(table: map<string, Policy>, policies: seq<Policy>): (after: map<string, Policy>)
  {
    if policies == [] then table
    else
      var p := policies[|policies| - 1];
      WithPolicies(table, policies[..|policies| - 1])[p.id := p]
  }

  predicate IsLast(workflows: seq<Workflow>, k: nat)
    requires k < |workflows|
  {
    forall j :: k < j < |workflows| ==> workflows[j].id != workflows[k].id
  }

  /** The last of the workflows with an id wins. */
  lemma {:induction false} LastWorkflowWins(table: map<string, Workflow>, name: string, workflows: seq<Workflow>,
                                            id: string)
    ensures var after := WithWorkflows(table, name, workflows);
            && (id in after <==> id in table || exists k :: 0 <= k < |workflows| && workflows[k].id == id)
            && (forall k :: 0 <= k < |workflows| && workflows[k].id == id && IsLast(workflows, k) ==>
                  after[id] == workflows[k].(domain := name))
            && ((forall k :: 0 <= k < |workflows| ==> workflows[k].id != id) && id in table ==> after[id] == table[id])
  {
    if workflows != [] {
      LastWorkflowWins(table, name, workflows[..|workflows| - 1], id);
      OneMoreWorkflow(table, name, workflows, id);
    }
  }

  lemma OneMoreWorkflow(table: map<string, Workflow>, name: string, workflows: seq<Workflow>, id: string)
    requires workflows != []
    ensures var n := |workflows| - 1;
            var before, after := WithWorkflows(table, name, workflows[..n]), WithWorkflows(table, name, workflows);
            && (id in after <==> id in before || workflows[n].id == id)
            && (id in after ==>
                  after[id] == if workflows[n].id == id then workflows[n].(domain := name) else before[id])
            && (forall k :: 0 <= k < |workflows| && workflows[k].id == id <==>
                  (0 <= k < n && workflows[..n][k].id == id) || (k == n && workflows[n].id == id))
  {
  }

  class Registry {
    const engine: Engine
    var domains: map<string, Domain>

    constructor (engine: Engine)
      ensures this.engine == engine && domains == map[]
    {
      this.engine := engine;
      domains := map[];
    }

    /** Workflows and policies go into the engine's tables in order, so the last of an id stays. */
    method RegisterDomain(domain: Domain)
      requires engine.Valid()
      modifies this`domains, engine`workflows, engine`policies
      ensures engine.Valid()
      ensures domains == old(domains)[domain.name := domain]
      ensures engine.workflows == WithWorkflows(old(engine.workflows), domain.name, domain.workflows)
      ensures engine.policies == WithPolicies(old(engine.policies), domain.policies)
    {
      for i := 0 to |domain.workflows|
        invariant engine.Valid() && domains == old(domains) && engine.policies == old(engine.policies)
        invariant engine.workflows == WithWorkflows(old(engine.workflows), domain.name, domain.workflows[..i])
      {
        assert domain.workflows[..i + 1][..i] == domain.workflows[..i];
        engine.RegisterWorkflow(domain.workflows[i].(domain := domain.name));
      }
      assert domain.workflows[..|domain.workflows|] == domain.workflows;
      for i := 0 to |domain.policies|
        invariant engine.Valid() && domains == old(domains)
        invariant engine.workflows == WithWorkflows(old(engine.workflows), domain.name, domain.workflows)
        invariant engine.policies == WithPolicies(old(engine.policies), domain.policies[..i])
      {
        assert domain.policies[..i + 1][..i] == domain.policies[..i];
        engine.RegisterPolicy(domain.policies[i]);
      }
      assert domain.policies[..|domain.policies|] == domain.policies;
      domains := domains[domain.name := domain];
    }
  }
}
