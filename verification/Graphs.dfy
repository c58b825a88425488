/** Walks in a finite graph. */
module Graphs {
  import opened Basics

  type Graph = map<string, seq<string>>

  function Succ(g: Graph, n: string): seq<string>
  {
    if n in g then g[n] else []
  }

  predicate Edge(g: Graph, a: string, b: string)
  {
    b in Succ(g, a)
  }

  ghost predicate Walk(g: Graph, p: seq<string>)
  {
    forall i :: 0 <= i < |p| - 1 ==> Edge(g, p[i], p[i + 1])
  }

  ghost predicate Distinct(p: seq<string>)
  {
    forall i, j :: 0 <= i < j < |p| ==> p[i] != p[j]
  }

  ghost predicate ClosedWalk(g: Graph, c: seq<string>)
  {
    |c| >= 2 && Walk(g, c) && c[0] == c[|c| - 1]
  }

  /** A closed walk whose only repetition is that it ends where it starts. */
  ghost predicate SimpleCycle(g: Graph, c: seq<string>)
  {
    ClosedWalk(g, c) && Distinct(c[..|c| - 1])
  }

  ghost predicate PathTo(g: Graph, from: string, p: seq<string>, to: string)
  {
    p != [] && Walk(g, p) && p[0] == from && p[|p| - 1] == to
  }

  ghost predicate Reaches(g: Graph, from: string, to: string)
  {
    exists p :: PathTo(g, from, p, to)
  }

  ghost predicate Acyclic(g: Graph)
  {
    forall c :: !ClosedWalk(g, c)
  }

  lemma WalkExtends(g: Graph, p: seq<string>, n: string)
    requires Walk(g, p) && (p != [] ==> Edge(g, p[|p| - 1], n))
    ensures Walk(g, p + [n])
  {
  }

  lemma WalkRest(g: Graph, p: seq<string>)
    requires Walk(g, p) && p != []
    ensures Walk(g, p[1..])
  {
    forall i | 0 <= i < |p[1..]| - 1 ensures Edge(g, p[1..][i], p[1..][i + 1]) {
      assert Edge(g, p[i + 1], p[i + 2]);
    }
  }

  lemma ReachesSelf(g: Graph, n: string)
    ensures Reaches(g, n, n)
  {
    assert PathTo(g, n, [n], n);
  }

  /** In a graph without closed walks no walk comes back to a node. */
  lemma WalksAreSimple(g: Graph, p: seq<string>)
    requires Acyclic(g) && Walk(g, p)
    ensures Distinct(p)
  {
    forall i, j | 0 <= i < j < |p| ensures p[i] != p[j] {
      var c := p[i..j + 1];
      assert forall k :: 0 <= k < |c| ==> c[k] == p[i + k];
      assert Walk(g, c);
      assert !ClosedWalk(g, c);
    }
  }

  /** So a walk through nodes of a finite set is no longer than the set. */
  lemma WalksAreShort(g: Graph, p: seq<string>, universe: set<string>)
    requires Acyclic(g) && Walk(g, p) && forall n :: n in p ==> n in universe
    ensures |p| <= |universe|
  {
    WalksAreSimple(g, p);
    Pigeonhole(p, universe);
  }

  lemma {:induction false} RanksGrow(g: Graph, rank: map<string, nat>, p: seq<string>)
    requires forall a, b :: Edge(g, a, b) ==> a in rank && b in rank && rank[a] < rank[b]
    requires Walk(g, p) && |p| >= 2
    ensures p[0] in rank && p[|p| - 1] in rank && rank[p[0]] < rank[p[|p| - 1]]
  {
    assert Edge(g, p[0], p[1]);
    if |p| > 2 {
      WalkRest(g, p);
      RanksGrow(g, rank, p[1..]);
    }
  }

  /** Edges that only go up close no walk. */
  lemma RankedIsAcyclic(g: Graph, rank: map<string, nat>)
    requires forall a, b :: Edge(g, a, b) ==> a in rank && b in rank && rank[a] < rank[b]
    ensures Acyclic(g)
  {
    forall c ensures !ClosedWalk(g, c) {
      if ClosedWalk(g, c) {
        RanksGrow(g, rank, c);
      }
    }
  }
}
