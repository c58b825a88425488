/** The three-colour depth-first search behind the manifest validator, and its reachability walk. */
module CycleSearch {
  import opened Graphs

  datatype Color = OnStack | Done

  class Search {
    const edges: Graph
    /** Nodes without an entry are unvisited. */
    var state: map<string, Color>
    var path: seq<string>
    /** The nodes already done, in the order they were done. */
    ghost var order: seq<string>
    /** All nodes the search can meet. */
    ghost const universe: set<string>

    /** On the stack means on the path; and the successors of a done node were done before it. */
    ghost predicate Valid()
      reads this
    {
      && (forall n, m :: n in universe && Edge(edges, n, m) ==> m in universe)
      && state.Keys <= universe
      && Coloured(edges, state, path, order)
    }

    constructor (edges: Graph, nodes: seq<string>)
      ensures Valid() && this.edges == edges && state == map[] && path == [] && order == []
      ensures forall n :: n in nodes ==> n in universe
    {
      this.edges := edges;
      state, path := map[], [];
      order := [];
      universe := Everything(edges, nodes);
      new;
      EverythingIsClosed(edges, nodes);
    }

    /** Explores everything below `node`: either finds a cycle or leaves the path as it was. */
    method Visit(node: string) returns (cycle: seq<string>)
      requires Valid() && node in universe && node !in state
      requires path != [] ==> Edge(edges, path[|path| - 1], node)
      modifies this
      ensures cycle == [] ==> Valid() && path == old(path) && node in order
      ensures cycle == [] ==> old(order) <= order && state.Keys >= old(state).Keys
      ensures cycle != [] ==> SimpleCycle(edges, cycle) && Reaches(edges, (old(path) + [node])[0], cycle[0])
      decreases universe - state.Keys
    {
      hide Coloured, Walk, Distinct, ClosedWalk, SimpleCycle, Reaches, Topological;
      ghost var entry := path;
      Enter(edges, state, path, order, node);
      state := state[node := OnStack];
      path := path + [node];
      var successors := Succ(edges, node);
      for i := 0 to |successors|
        invariant Valid() && path == entry + [node]
        invariant forall j :: 0 <= j < i ==> successors[j] in order
        invariant old(order) <= order && old(state).Keys + {node} <= state.Keys
      {
        var next := successors[i];
        assert Edge(edges, node, next);
        if next in state && state[next] == OnStack {
          OnPath(edges, state, path, order, next);
          var k := Position(path, next);
          CycleClosed(edges, path, k, next);
          return path[k..] + [next];
        } else if next !in state {
          cycle := Visit(next);
          if cycle != [] {
            return;
          }
        } else {
          IsDone(edges, state, path, order, next);
        }
      }
      Leave(edges, state, entry, order, node);
      path := path[..|path| - 1];
      assert path == entry;
      state := state[node := Done];
      order := order + [node];
      cycle := [];
    }

    /** Tries every node in order; the answer is empty exactly when no closed walk can be reached from them. */
    method FindCycle(nodes: seq<string>) returns (cycle: seq<string>)
      requires Valid() && state == map[] && path == []
      requires forall n :: n in nodes ==> n in universe
      modifies this
      ensures cycle != [] ==> SimpleCycle(edges, cycle) && exists n :: n in nodes && Reaches(edges, n, cycle[0])
      ensures cycle == [] <==> forall n, c :: n in nodes && ClosedWalk(edges, c) ==> !Reaches(edges, n, c[0])
    {
      for i := 0 to |nodes|
        invariant Valid() && path == []
        invariant forall j :: 0 <= j < i ==> nodes[j] in order
      {
        if nodes[i] !in state {
          path := [];
          cycle := Visit(nodes[i]);
          if cycle != [] {
            assert nodes[i] in nodes && Reaches(edges, nodes[i], cycle[0]);
            return;
          }
        }
      }
      cycle := [];
      forall n, c | n in nodes && ClosedWalk(edges, c) ensures !Reaches(edges, n, c[0]) {
        if Reaches(edges, n, c[0]) {
          var p :| PathTo(edges, n, p, c[0]);
          TopologicalWalk(edges, order, p);
          TopologicalWalk(edges, order, c);
        }
      }
    }
  }

  /** On the stack is on the path, a walk without repeats; done is in the finishing order. */
  ghost predicate Coloured(edges: Graph, state: map<string, Color>, path: seq<string>, order: seq<string>)
  {
    && (forall n :: n in path <==> n in state && state[n] == OnStack)
    && (forall n :: n in order <==> n in state && state[n] == Done)
    && Walk(edges, path) && Distinct(path) && Distinct(order)
    && Topological(edges, order)
  }

  method Position(path: seq<string>, n: string) returns (k: nat)
    requires n in path
    ensures k < |path| && path[k] == n && n !in path[..k]
  {
    k := 0;
    while path[k] != n
      invariant k < |path| && n !in path[..k]
      decreases |path| - k
    {
      k := k + 1;
    }
  }

  lemma Enter(edges: Graph, state: map<string, Color>, path: seq<string>, order: seq<string>, node: string)
    requires Coloured(edges, state, path, order) && node !in state
    requires path != [] ==> Edge(edges, path[|path| - 1], node)
    ensures Coloured(edges, state[node := OnStack], path + [node], order)
  {
    WalkExtends(edges, path, node);
  }

  lemma OnPath(edges: Graph, state: map<string, Color>, path: seq<string>, order: seq<string>, n: string)
    requires Coloured(edges, state, path, order) && n in state && state[n] == OnStack
    ensures n in path && Walk(edges, path) && Distinct(path)
  {
  }

  lemma IsDone(edges: Graph, state: map<string, Color>, path: seq<string>, order: seq<string>, n: string)
    requires Coloured(edges, state, path, order) && n in state && state[n] != OnStack
    ensures n in order
  {
  }

  lemma Leave(edges: Graph, state: map<string, Color>, path: seq<string>, order: seq<string>, node: string)
    requires Coloured(edges, state, path + [node], order)
    requires forall m :: Edge(edges, node, m) ==> m in order
    ensures Coloured(edges, state[node := Done], path, order + [node])
  {
    var longer, longer' := path + [node], order + [node];
    assert node in longer;
    assert forall n :: n in longer <==> n in path || n == node;
    assert forall n :: n in longer' <==> n in order || n == node;
    assert longer[|path|] == node && forall i :: 0 <= i < |path| ==> longer[i] == path[i];
    assert Walk(edges, path) by {
      forall i | 0 <= i < |path| - 1 ensures Edge(edges, path[i], path[i + 1]) {
        assert Edge(edges, longer[i], longer[i + 1]);
      }
    }
    forall i, m | 0 <= i < |longer'| && Edge(edges, longer'[i], m) ensures m in longer'[..i] {
      assert longer'[..i] == order[..i];
    }
  }

  // ----- The universe of a search -----

  function Everything(edges: Graph, nodes: seq<string>): set<string>
  {
    (set n | n in nodes) + edges.Keys + (set n, m | n in edges && m in edges[n] :: m)
  }

  lemma EverythingIsClosed(edges: Graph, nodes: seq<string>)
    ensures forall n, m :: Edge(edges, n, m) ==> m in Everything(edges, nodes)
  {
  }

  // ----- Finishing order -----

  ghost predicate Topological(edges: Graph, order: seq<string>)
  {
    forall i, m :: 0 <= i < |order| && Edge(edges, order[i], m) ==> m in order[..i]
  }

  /** Everything below a done node is done, and is another node. */
  lemma {:induction false} TopologicalWalk(edges: Graph, order: seq<string>, p: seq<string>)
    requires Topological(edges, order) && Distinct(order) && Walk(edges, p) && p != [] && p[0] in order
    ensures p[|p| - 1] in order
    ensures |p| >= 2 ==> p[|p| - 1] != p[0]
  {
    if |p| >= 2 {
      var i :| 0 <= i < |order| && order[i] == p[0];
      assert Edge(edges, order[i], p[1]);
      WalkRest(edges, p);
      TopologicalPrefix(edges, order, i);
      TopologicalWalk(edges, order[..i], p[1..]);
    }
  }

  lemma TopologicalPrefix(edges: Graph, order: seq<string>, i: nat)
    requires Topological(edges, order) && i <= |order|
    ensures Topological(edges, order[..i])
  {
    forall a, m | 0 <= a < i && Edge(edges, order[..i][a], m) ensures m in order[..i][..a] {
      assert Edge(edges, order[a], m) && order[..i][..a] == order[..a];
    }
  }

  lemma CycleClosed(edges: Graph, path: seq<string>, k: nat, next: string)
    requires Walk(edges, path) && Distinct(path) && k < |path| && path[k] == next
    requires Edge(edges, path[|path| - 1], next)
    ensures SimpleCycle(edges, path[k..] + [next])
    ensures Reaches(edges, path[0], next)
  {
    var c := path[k..] + [next];
    assert Walk(edges, path[k..]) by {
      assert forall i :: 0 <= i < |path[k..]| ==> path[k..][i] == path[k + i];
    }
    WalkExtends(edges, path[k..], next);
    assert c[..|c| - 1] == path[k..];
    assert PathTo(edges, path[0], path[..k + 1], next);
  }

  // ----- The reachability walk -----

  /** Marks `id` and everything below it; what was marked before is complete except for the nodes still being marked. */
  method WalkFrom(edges: Graph, id: string, reached0: set<string>, ghost open: set<string>, ghost universe: set<string>)
    returns (reached: set<string>)
    requires id in universe && reached0 <= universe && forall n, m :: n in universe && Edge(edges, n, m) ==>
               m in universe
    requires forall n, m :: n in reached0 - open && Edge(edges, n, m) ==> m in reached0
    ensures reached0 + {id} <= reached <= universe
    ensures forall n, m :: n in reached - open && Edge(edges, n, m) ==> m in reached
    ensures forall n :: n in reached - reached0 ==> Reaches(edges, id, n)
    decreases universe - reached0
  {
    if id in reached0 {
      return reached0;
    }
    reached := reached0 + {id};
    ReachesSelf(edges, id);
    var successors := Succ(edges, id);
    for i := 0 to |successors|
      invariant reached0 + {id} <= reached <= universe
      invariant forall j :: 0 <= j < i ==> successors[j] in reached
      invariant forall n, m :: n in reached - (open + {id}) && Edge(edges, n, m) ==> m in reached
      invariant forall n :: n in reached - reached0 ==> Reaches(edges, id, n)
    {
      ghost var before := reached;
      assert Edge(edges, id, successors[i]);
      reached := WalkFrom(edges, successors[i], reached, open + {id}, universe);
      forall n | n in reached - reached0 ensures Reaches(edges, id, n) {
        if n !in before {
          ReachesThrough(edges, id, successors[i], n);
        }
      }
    }
  }

  lemma ReachesThrough(edges: Graph, a: string, b: string, c: string)
    requires Edge(edges, a, b) && Reaches(edges, b, c)
    ensures Reaches(edges, a, c)
  {
    var p :| PathTo(edges, b, p, c);
    var q := [a] + p;
    assert Walk(edges, q) by {
      forall i | 0 <= i < |q| - 1 ensures Edge(edges, q[i], q[i + 1]) {
        assert i > 0 ==> q[i] == p[i - 1] && q[i + 1] == p[i];
      }
    }
    assert PathTo(edges, a, q, c);
  }

  /** Exactly what a walk can reach from the entry. */
  method ReachableFrom(edges: Graph, entry: string) returns (reached: set<string>)
    ensures forall n :: n in reached <==> Reaches(edges, entry, n)
  {
    EverythingIsClosed(edges, [entry]);
    reached := WalkFrom(edges, entry, {}, {}, Everything(edges, [entry]));
    forall n | Reaches(edges, entry, n) ensures n in reached {
      var p :| PathTo(edges, entry, p, n);
      ClosedUnderWalks(edges, reached, p);
    }
  }

  lemma {:induction false} ClosedUnderWalks(edges: Graph, s: set<string>, p: seq<string>)
    requires forall n, m :: n in s && Edge(edges, n, m) ==> m in s
    requires p != [] && p[0] in s && Walk(edges, p)
    ensures p[|p| - 1] in s
  {
    if |p| > 1 {
      var q := p[1..];
      assert Edge(edges, p[0], p[1]);
      WalkRest(edges, p);
      ClosedUnderWalks(edges, s, q);
    }
  }
}
