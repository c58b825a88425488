/** Fan-in of a parallel step: what the branches wrote, merged only where they agree. */
module Join {
  import opened Values

  /** Who last wrote a field during the join, and what. */
  datatype Write = Write(branch: string, value: Value)

  type Ledger = map<string, Write>

  datatype JoinResult =
    | Joined(ctx: Context)
    | Clash(second: nat, ledger: Ledger, delta: Context)

  /** What each branch changed relative to the context all of them started from. */
  function Deltas(before: Context, outs: seq<Context>): (deltas: seq<Context>)
    ensures |deltas| == |outs|
  {
    seq(|outs|, i requires 0 <= i < |outs| => Delta(before, outs[i]))
  }

  /** The fields on which this branch disagrees with what earlier branches wrote. */
  function Clashes(ledger: Ledger, delta: Context): (fields: set<string>)
  {
    set k | k in delta && k in ledger && ledger[k].value != delta[k]
  }

  /** Every field in conflict, with its two writers and what they wrote. */
  function RivalsOf(ledger: Ledger, delta: Context): (rivals: map<string, Rivals>)
    ensures rivals.Keys == Clashes(ledger, delta)
  {
    map k | k in Clashes(ledger, delta) :: Rivals(ledger[k].branch, ledger[k].value, delta[k])
  }

  function Enter(ledger: Ledger, branch: string, delta: Context): Ledger
  {
    ledger + (map k | k in delta :: Write(branch, delta[k]))
  }

  function Written(ledger: Ledger): Context
  {
    map k | k in ledger :: ledger[k].value
  }

  /** The join from branch `i` on, given what the branches before it wrote. */
  function JoinFrom(before: Context, branches: seq<string>, deltas: seq<Context>, i: nat,
                    ledger: Ledger): (r: JoinResult)
    requires |branches| == |deltas| && i <= |deltas|
    decreases |deltas| - i
  {
    if i == |deltas| then Joined(Merge(before, Written(ledger)))
    else if Clashes(ledger, deltas[i]) != {} then Clash(i, ledger, deltas[i])
    else JoinFrom(before, branches, deltas, i + 1, Enter(ledger, branches[i], deltas[i]))
  }

  function JoinAll(before: Context, branches: seq<string>, outs: seq<Context>): JoinResult
    requires |branches| == |outs|
  {
    JoinFrom(before, branches, Deltas(before, outs), 0, map[])
  }

  // ----- What the join means, without its order of work -----

  ghost predicate SomeWrote(deltas: seq<Context>, k: string)
  {
    exists d :: d in deltas && k in d
  }

  /** Every two branches that changed a field gave it the same value. */
  ghost predicate Agreeing(deltas: seq<Context>)
  {
    forall a, b, k :: a in deltas && b in deltas && k in a && k in b ==> a[k] == b[k]
  }

  /** `ctx` holds the agreed value of each changed field and the incoming value of every other. */
  ghost predicate IsJoin(before: Context, deltas: seq<Context>, ctx: Context)
  {
    && (forall k :: k in ctx <==> k in before || SomeWrote(deltas, k))
    && (forall d, k :: d in deltas && k in d ==> k in ctx && ctx[k] == d[k])
    && (forall k :: k in before && !SomeWrote(deltas, k) ==> k in ctx && ctx[k] == before[k])
  }

  /** Branch `j` is the latest of the first `n` that changed `k`. */
  ghost predicate LastWriter(deltas: seq<Context>, n: nat, k: string, j: nat)
    requires n <= |deltas|
  {
    j < n && k in deltas[j] && forall l :: j < l < n ==> k !in deltas[l]
  }

  /** The ledger after the first `n` branches: the latest writer of each field, and the value all writers agreed on. */
  ghost predicate LedgerOf(branches: seq<string>, deltas: seq<Context>, n: nat, ledger: Ledger)
    requires |branches| == |deltas| && n <= |deltas|
  {
    && (forall k :: k in ledger ==> exists j: nat :: LastWriter(deltas, n, k, j) && ledger[k].branch == branches[j])
    && (forall j, k :: 0 <= j < n && k in deltas[j] ==> k in ledger && ledger[k].value == deltas[j][k])
  }

  lemma LedgerGrows(branches: seq<string>, deltas: seq<Context>, n: nat, ledger: Ledger)
    requires |branches| == |deltas| && n < |deltas|
    requires LedgerOf(branches, deltas, n, ledger)
    requires Clashes(ledger, deltas[n]) == {}
    ensures LedgerOf(branches, deltas, n + 1, Enter(ledger, branches[n], deltas[n]))
  {
    hide Enter, Clashes;
    var delta := deltas[n];
    var next := Enter(ledger, branches[n], delta);
    forall k | k in next
      ensures exists j: nat :: LastWriter(deltas, n + 1, k, j) && next[k].branch == branches[j]
    {
      EnteredValue(ledger, branches[n], delta, k);
      if k in delta {
        assert LastWriter(deltas, n + 1, k, n);
      } else {
        var j: nat :| LastWriter(deltas, n, k, j) && ledger[k].branch == branches[j];
        assert LastWriter(deltas, n + 1, k, j);
      }
    }
    forall j, k | 0 <= j < n + 1 && k in deltas[j]
      ensures k in next && next[k].value == deltas[j][k]
    {
      EnteredValue(ledger, branches[n], delta, k);
    }
  }

  lemma EnteredValue(ledger: Ledger, branch: string, delta: Context, k: string)
    requires Clashes(ledger, delta) == {}
    ensures var next := Enter(ledger, branch, delta);
            && (k in next <==> k in ledger || k in delta)
            && (k in delta ==> next[k] == Write(branch, delta[k]))
            && (k in ledger ==> next[k].value == ledger[k].value)
            && (k !in delta && k in ledger ==> next[k] == ledger[k])
  {
    assert k !in Clashes(ledger, delta);
  }

  /** What a clash says: this is the earliest branch that disagrees with a predecessor, and every field in
      `Clashes` is one on which it does; the ledger names the latest earlier writer of the field. */
  ghost predicate IsEarliestClash(branches: seq<string>, deltas: seq<Context>, r: JoinResult)
    requires |branches| == |deltas| && r.Clash?
  {
    && r.second < |deltas|
    && Agreeing(deltas[..r.second])
    && LedgerOf(branches, deltas, r.second, r.ledger)
    && r.delta == deltas[r.second]
    && Clashes(r.ledger, r.delta) != {}
  }

  /** One of the first `n` branches changed the field to something else. */
  ghost predicate Wrote(deltas: seq<Context>, n: nat, k: string, other: Value)
    requires n <= |deltas|
  {
    exists j :: 0 <= j < n && k in deltas[j] && deltas[j][k] != other
  }

  lemma ClashesWith(branches: seq<string>, deltas: seq<Context>, n: nat, ledger: Ledger, delta: Context, k: string)
    requires |branches| == |deltas| && n <= |deltas| && LedgerOf(branches, deltas, n, ledger)
    ensures k in Clashes(ledger, delta) <==> k in delta && Wrote(deltas, n, k, delta[k])
  {
    if k in ledger {
      var j: nat :| LastWriter(deltas, n, k, j) && ledger[k].branch == branches[j];
      assert ledger[k].value == deltas[j][k];
    }
  }

  /** The fields on which branch `second` disagrees with an earlier one, each with the latest earlier writer, what that
      one wrote and what `second` wrote. */
  ghost predicate AreRivals(branches: seq<string>, deltas: seq<Context>, second: nat, rivals: map<string, Rivals>)
    requires |branches| == |deltas| && second < |deltas|
  {
    && (forall k :: k in rivals <==>
          k in deltas[second] && Wrote(deltas, second, k, deltas[second][k]))
    && (forall k :: k in rivals ==>
          exists j: nat :: LastWriter(deltas, second, k, j)
                           && rivals[k] == Rivals(branches[j], deltas[j][k], deltas[second][k]))
  }

  lemma ClashNamesRivals(branches: seq<string>, deltas: seq<Context>, r: JoinResult)
    requires |branches| == |deltas| && r.Clash? && IsEarliestClash(branches, deltas, r)
    ensures AreRivals(branches, deltas, r.second, RivalsOf(r.ledger, r.delta))
  {
    hide Agreeing;
    var rivals := RivalsOf(r.ledger, r.delta);
    forall k ensures k in rivals <==> k in r.delta && Wrote(deltas, r.second, k, r.delta[k]) {
      ClashesWith(branches, deltas, r.second, r.ledger, r.delta, k);
    }
    forall k | k in rivals
      ensures exists j: nat :: LastWriter(deltas, r.second, k, j)
                               && rivals[k] == Rivals(branches[j], deltas[j][k], deltas[r.second][k])
    {
      var j: nat :| LastWriter(deltas, r.second, k, j) && r.ledger[k].branch == branches[j];
      assert r.ledger[k].value == deltas[j][k];
    }
  }

  lemma LedgerAgrees(branches: seq<string>, deltas: seq<Context>, n: nat, ledger: Ledger)
    requires |branches| == |deltas| && n <= |deltas|
    requires LedgerOf(branches, deltas, n, ledger)
    ensures Agreeing(deltas[..n])
  {
    forall a, b, k | a in deltas[..n] && b in deltas[..n] && k in a && k in b
      ensures a[k] == b[k]
    {
      var i :| 0 <= i < n && deltas[i] == a;
      var j :| 0 <= j < n && deltas[j] == b;
      assert ledger[k].value == deltas[i][k] && ledger[k].value == deltas[j][k];
    }
  }

  lemma LedgerJoins(before: Context, branches: seq<string>, deltas: seq<Context>, ledger: Ledger)
    requires |branches| == |deltas|
    requires LedgerOf(branches, deltas, |deltas|, ledger)
    ensures IsJoin(before, deltas, Merge(before, Written(ledger)))
  {
    var ctx := Merge(before, Written(ledger));
    forall d, k | d in deltas && k in d ensures k in ctx && ctx[k] == d[k] {
      var j :| 0 <= j < |deltas| && deltas[j] == d;
      assert k in deltas[j] && k in Written(ledger);
    }
    forall k | k in ledger ensures SomeWrote(deltas, k) {
      var j: nat :| LastWriter(deltas, |deltas|, k, j) && ledger[k].branch == branches[j];
      assert deltas[j] in deltas;
    }
  }

  lemma {:induction false} JoinFromMeaning(before: Context, branches: seq<string>, deltas: seq<Context>, i: nat,
                                           ledger: Ledger)
    requires |branches| == |deltas| && i <= |deltas|
    requires LedgerOf(branches, deltas, i, ledger)
    ensures var r := JoinFrom(before, branches, deltas, i, ledger);
            if r.Joined? then Agreeing(deltas) && IsJoin(before, deltas, r.ctx)
            else IsEarliestClash(branches, deltas, r)
    decreases |deltas| - i
  {
    LedgerAgrees(branches, deltas, i, ledger);
    if i == |deltas| {
      assert deltas[..i] == deltas;
      LedgerJoins(before, branches, deltas, ledger);
    } else if Clashes(ledger, deltas[i]) == {} {
      LedgerGrows(branches, deltas, i, ledger);
      JoinFromMeaning(before, branches, deltas, i + 1, Enter(ledger, branches[i], deltas[i]));
    }
  }

  lemma ClashDisagrees(branches: seq<string>, deltas: seq<Context>, r: JoinResult)
    requires |branches| == |deltas| && r.Clash? && IsEarliestClash(branches, deltas, r)
    ensures !Agreeing(deltas)
  {
    var k :| k in Clashes(r.ledger, r.delta);
    var j: nat :| LastWriter(deltas, r.second, k, j) && r.ledger[k].branch == branches[j];
    var a, b := deltas[j], deltas[r.second];
    assert a in deltas && b in deltas && k in a && k in b && a[k] != b[k];
  }

  /** The join succeeds exactly when, field by field, all branches that changed it agree; then it is the
      agreed value, or the incoming one. Otherwise the branch reported second is the earliest that
      disagrees with a predecessor. */
  lemma JoinCorrect(before: Context, branches: seq<string>, outs: seq<Context>)
    requires |branches| == |outs|
    ensures var r, deltas := JoinAll(before, branches, outs), Deltas(before, outs);
            && (r.Joined? <==> Agreeing(deltas))
            && (r.Joined? ==> IsJoin(before, deltas, r.ctx))
            && (r.Clash? ==> IsEarliestClash(branches, deltas, r))
  {
    JoinFromMeaning(before, branches, Deltas(before, outs), 0, map[]);
    var r := JoinAll(before, branches, outs);
    if r.Clash? {
      ClashDisagrees(branches, Deltas(before, outs), r);
    }
  }

  lemma JoinUniqueAt(before: Context, deltas: seq<Context>, a: Context, b: Context, k: string)
    requires IsJoin(before, deltas, a) && IsJoin(before, deltas, b)
    ensures k in a ==> k in b && a[k] == b[k]
  {
    if k in a && SomeWrote(deltas, k) {
      var d :| d in deltas && k in d;
    }
  }

  lemma JoinUnique(before: Context, deltas: seq<Context>, a: Context, b: Context)
    requires IsJoin(before, deltas, a) && IsJoin(before, deltas, b)
    ensures a == b
  {
    forall k: string ensures (k in a ==> k in b && a[k] == b[k]) && (k in b ==> k in a) {
      JoinUniqueAt(before, deltas, a, b, k);
      JoinUniqueAt(before, deltas, b, a, k);
    }
  }

  /** Reordering the branches (or running one of them twice) changes neither whether the join succeeds nor its result.
      */
  lemma JoinOrderFree(before: Context, branches: seq<string>, outs: seq<Context>, branches': seq<string>,
                      outs': seq<Context>)
    requires |branches| == |outs| && |branches'| == |outs'|
    requires forall o :: o in outs <==> o in outs'
    ensures var r, r' := JoinAll(before, branches, outs), JoinAll(before, branches', outs');
            && r.Joined? == r'.Joined?
            && (r.Joined? ==> r.ctx == r'.ctx)
  {
    var deltas, deltas' := Deltas(before, outs), Deltas(before, outs');
    DeltasMembers(before, outs, outs');
    DeltasMembers(before, outs', outs);
    JoinCorrect(before, branches, outs);
    JoinCorrect(before, branches', outs');
    assert Agreeing(deltas) == Agreeing(deltas');
    var r, r' := JoinAll(before, branches, outs), JoinAll(before, branches', outs');
    if r.Joined? {
      assert forall k :: SomeWrote(deltas, k) == SomeWrote(deltas', k);
      assert IsJoin(before, deltas', r.ctx);
      JoinUnique(before, deltas', r.ctx, r'.ctx);
    }
  }

  lemma DeltasMembers(before: Context, outs: seq<Context>, outs': seq<Context>)
    requires forall o :: o in outs ==> o in outs'
    ensures forall d :: d in Deltas(before, outs) ==> d in Deltas(before, outs')
  {
    forall d | d in Deltas(before, outs) ensures d in Deltas(before, outs') {
      var i :| 0 <= i < |outs| && Delta(before, outs[i]) == d;
      assert outs[i] in outs;
      var j :| 0 <= j < |outs'| && outs'[j] == outs[i];
      assert Deltas(before, outs')[j] == d;
    }
  }

  // ----- The join as the engine performs it -----

  datatype JoinReport =
    | Merged(ctx: Context)
    | Conflicting(second: nat, rivals: map<string, Rivals>, field: string)

  /** The report names a field of this clash; the model keeps the rest of the clash beside it. */
  ghost predicate Reports(r: JoinResult, report: JoinReport)
  {
    match r
    case Joined(ctx) => report == Merged(ctx)
    case Clash(i, ledger, delta) =>
      && report.Conflicting?
      && report.field in Clashes(ledger, delta)
      && report == Conflicting(i, RivalsOf(ledger, delta), report.field)
  }

  /** One branch's changes, in whatever order the map yields them: all entered, or stopped at a field in conflict. */
  method EnterBranch(ledger0: Ledger, branch: string, delta: Context) returns (ledger: Ledger, conflict: set<string>)
    ensures conflict == {} ==> Clashes(ledger0, delta) == {} && ledger == Enter(ledger0, branch, delta)
    ensures conflict != {} ==> exists k :: conflict == {k} && k in Clashes(ledger0, delta)
  {
    ledger := ledger0;
    var pending := delta.Keys;
    while pending != {}
      invariant pending <= delta.Keys
      invariant Clashes(ledger0, delta) <= pending
      invariant ledger.Keys == ledger0.Keys + (delta.Keys - pending)
      invariant forall k :: k in delta.Keys - pending ==> ledger[k] == Write(branch, delta[k])
      invariant forall k :: k in ledger && (k in pending || k !in delta) ==> ledger[k] == ledger0[k]
    {
      var k :| k in pending;
      if k in ledger && ledger[k].value != delta[k] {
        return ledger0, {k};
      }
      ledger := ledger[k := Write(branch, delta[k])];
      pending := pending - {k};
    }
    conflict := {};
  }

  lemma JoinGoesOn(before: Context, branches: seq<string>, deltas: seq<Context>, i: nat, ledger: Ledger)
    requires |branches| == |deltas| && i < |deltas| && Clashes(ledger, deltas[i]) == {}
    ensures JoinFrom(before, branches, deltas, i, ledger)
         == JoinFrom(before, branches, deltas, i + 1, Enter(ledger, branches[i], deltas[i]))
  {
  }

  lemma JoinStops(before: Context, branches: seq<string>, deltas: seq<Context>, i: nat, ledger: Ledger, field: string)
    requires |branches| == |deltas| && i < |deltas| && field in Clashes(ledger, deltas[i])
    ensures Reports(JoinFrom(before, branches, deltas, i, ledger),
                    Conflicting(i, RivalsOf(ledger, deltas[i]), field))
  {
  }

  /** What every report of the join means. */
  lemma JoinReported(before: Context, branches: seq<string>, outs: seq<Context>)
    requires |branches| == |outs|
    ensures var r, deltas := JoinAll(before, branches, outs), Deltas(before, outs);
            && (r.Joined? <==> Agreeing(deltas))
            && (r.Joined? ==> IsJoin(before, deltas, r.ctx))
            && (r.Clash? ==>
                  && r.second < |deltas| && Agreeing(deltas[..r.second])
                  && AreRivals(branches, deltas, r.second, RivalsOf(r.ledger, r.delta)))
  {
    hide Agreeing, IsJoin, AreRivals, JoinAll, Deltas;
    var r, deltas := JoinAll(before, branches, outs), Deltas(before, outs);
    JoinCorrect(before, branches, outs);
    if r.Clash? {
      ClashNamesRivals(branches, deltas, r);
    }
  }

  /** Branches in declaration order. */
  method JoinBranches(before: Context, branches: seq<string>, outs: seq<Context>) returns (report: JoinReport)
    requires |branches| == |outs|
    ensures Reports(JoinAll(before, branches, outs), report)
    ensures var deltas := Deltas(before, outs);
            && (report.Merged? <==> Agreeing(deltas))
            && (report.Merged? ==> IsJoin(before, deltas, report.ctx))
            && (report.Conflicting? ==>
                  && report.second < |deltas| && Agreeing(deltas[..report.second])
                  && AreRivals(branches, deltas, report.second, report.rivals) && report.field in report.rivals)
  {
    hide Clashes, Enter, RivalsOf, Delta, Agreeing, IsJoin, AreRivals;
    JoinReported(before, branches, outs);
    var ledger: Ledger := map[];
    for i := 0 to |outs|
      invariant JoinAll(before, branches, outs) == JoinFrom(before, branches, Deltas(before, outs), i, ledger)
    {
      hide JoinFrom, JoinAll, Reports;
      var delta := Delta(before, outs[i]);
      assert Deltas(before, outs)[i] == delta;
      var next, conflict := EnterBranch(ledger, branches[i], delta);
      if conflict != {} {
        var k :| k in conflict;
        JoinStops(before, branches, Deltas(before, outs), i, ledger, k);
        return Conflicting(i, RivalsOf(ledger, delta), k);
      }
      JoinGoesOn(before, branches, Deltas(before, outs), i, ledger);
      ledger := next;
    }
    return Merged(Merge(before, Written(ledger)));
  }
}
