/** The difference between a recorded run and another one, field by field, in one fixed order. */
module Compare {
  import opened Values
  import opened Replay

  // ----- Strings in order -----

  /** Lexicographic order. */
  predicate Less(a: string, b: string)
  {
    if b == "" then false
    else if a == "" then true
    else a[0] < b[0] || (a[0] == b[0] && Less(a[1..], b[1..]))
  }

  lemma {:induction false} LessIsTotal(a: string, b: string)
    ensures Less(a, b) || a == b || Less(b, a)
    ensures !(Less(a, b) && Less(b, a)) && (a == b ==> !Less(a, b))
  {
    if a != "" && b != "" && a[0] == b[0] {
      LessIsTotal(a[1..], b[1..]);
      assert a == [a[0]] + a[1..] && b == [b[0]] + b[1..];
    }
  }

  lemma {:induction false} LessIsTransitive(a: string, b: string, c: string)
    requires Less(a, b) && Less(b, c)
    ensures Less(a, c)
  {
    if a != "" && a[0] == b[0] && b[0] == c[0] {
      LessIsTransitive(a[1..], b[1..], c[1..]);
    }
  }

  /** One string comes before another: it is cut short where the other goes on, or has the smaller character where the
      two first differ. */
  ghost predicate ComesBefore(a: string, b: string, n: nat)
  {
    && n <= |a| && n < |b| && a[..n] == b[..n] && (n == |a| || a[n] < b[n])
  }

  lemma {:induction false} LessMeans(a: string, b: string)
    ensures Less(a, b) <==> exists n: nat :: ComesBefore(a, b, n)
  {
    if a == "" || b == "" || a[0] != b[0] {
      assert forall n: nat :: ComesBefore(a, b, n) && n > 0 ==> a[..n][0] == b[..n][0];
      assert Less(a, b) <==> ComesBefore(a, b, 0);
    } else {
      LessMeans(a[1..], b[1..]);
      if n: nat :| ComesBefore(a, b, n) {
        assert a[1..][..n - 1] == a[..n][1..] && b[1..][..n - 1] == b[..n][1..];
        assert ComesBefore(a[1..], b[1..], n - 1);
      }
      if n: nat :| ComesBefore(a[1..], b[1..], n) {
        assert a[..n + 1] == [a[0]] + a[1..][..n] && b[..n + 1] == [b[0]] + b[1..][..n];
        assert ComesBefore(a, b, n + 1);
      }
    }
  }

  ghost predicate Increasing(keys: seq<string>)
  {
    forall i, j :: 0 <= i < j < |keys| ==> Less(keys[i], keys[j])
  }

  /** A set has one increasing list. */
  lemma {:induction false} IncreasingIsUnique(a: seq<string>, b: seq<string>)
    requires Increasing(a) && Increasing(b) && forall k :: k in a <==> k in b
    ensures a == b
  {
    assert b != [] ==> b[0] in b;
    if a != [] {
      assert a[0] in b && (b != [] ==> b[0] in a);
      SameLeast(a, b);
      SameLeast(b, a);
      LessIsTotal(a[0], b[0]);
      RestSame(a, b);
      RestSame(b, a);
      IncreasingIsUnique(a[1..], b[1..]);
    }
  }

  lemma SameLeast(a: seq<string>, b: seq<string>)
    requires Increasing(a) && Increasing(b) && a != [] && b != [] && b[0] in a
    ensures a[0] == b[0] || Less(a[0], b[0])
  {
    var i :| 0 <= i < |a| && a[i] == b[0];
  }

  lemma RestSame(a: seq<string>, b: seq<string>)
    requires Increasing(a) && Increasing(b) && a != [] && b != [] && a[0] == b[0] && forall k :: k in a ==> k in b
    ensures forall k :: k in a[1..] ==> k in b[1..]
  {
    forall k | k in a[1..] ensures k in b[1..] {
      var i :| 0 <= i < |a[1..]| && a[1..][i] == k;
      assert Less(a[0], a[i + 1]);
      LessIsTotal(a[0], k);
      assert k in a;
      var j :| 0 <= j < |b| && b[j] == k;
      assert b[1..][j - 1] == k;
    }
  }

  method LeastOf(keys: set<string>) returns (least: string)
    requires keys != {}
    ensures least in keys && forall k :: k in keys && k != least ==> Less(least, k)
  {
    least :| least in keys;
    var left := keys - {least};
    while left != {}
      invariant least in keys && left <= keys && least !in left
      invariant forall k :: k in keys - left && k != least ==> Less(least, k)
    {
      var k :| k in left;
      LessIsTotal(k, least);
      if Less(k, least) {
        forall other | other in keys - left && other != least ensures Less(k, other) {
          LessIsTransitive(k, least, other);
        }
        least := k;
      }
      left := left - {k};
    }
  }

  method SortedKeys(keys: set<string>) returns (sorted: seq<string>)
    ensures Increasing(sorted) && forall k :: k in sorted <==> k in keys
  {
    sorted := [];
    var left := keys;
    while left != {}
      invariant left <= keys && Increasing(sorted)
      invariant forall k :: k in sorted <==> k in keys - left
      invariant forall a, b :: a in sorted && b in left ==> Less(a, b)
    {
      var least := LeastOf(left);
      sorted := sorted + [least];
      left := left - {least};
    }
  }

  // ----- Traces as text -----

  const ARROW := " -> "
  const NO_TRACE := "(empty)"

  function Arrows(steps: seq<string>): (out: string)
  {
    if steps == [] then ""
    else if |steps| == 1 then steps[0]
    else Arrows(steps[..|steps| - 1]) + ARROW + steps[|steps| - 1]
  }

  function JoinTrace(steps: seq<string>): string
  {
    if Arrows(steps) == "" then NO_TRACE else Arrows(steps)
  }

  method JoinedTrace(steps: seq<string>) returns (out: string)
    ensures out == JoinTrace(steps)
  {
    out := "";
    for i := 0 to |steps|
      invariant out == Arrows(steps[..i])
    {
      assert steps[..i + 1][..i] == steps[..i];
      if i > 0 {
        out := out + ARROW;
      }
      out := out + steps[i];
    }
    assert steps[..|steps|] == steps;
    if out == "" {
      out := NO_TRACE;
    }
  }

  /** Ids the text of a trace keeps apart. */
  ghost predicate Plain(steps: seq<string>)
  {
    forall s :: s in steps ==> s != "" && ' ' !in s && s != NO_TRACE
  }

  lemma EndsSame(a: string, x: string, b: string, y: string)
    requires ' ' !in x && ' ' !in y && a + ARROW + x == b + ARROW + y
    ensures a == b && x == y
  {
    var s := a + ARROW + x;
    LastSpace(a, x);
    LastSpace(b, y);
    assert |x| == |y| by {
      var i, j := |s| - |x| - 1, |s| - |y| - 1;
      assert s[i] == ' ' && s[j] == ' ';
    }
    assert x == s[|s| - |x|..] == y;
    assert a == s[..|a|] && b == (b + ARROW + y)[..|b|];
  }

  lemma LastSpace(a: string, x: string)
    requires ' ' !in x
    ensures var s := a + ARROW + x;
            s[|s| - |x| - 1] == ' ' && forall i :: |s| - |x| <= i < |s| ==> s[i] != ' '
  {
    var s := a + ARROW + x;
    forall i | |s| - |x| <= i < |s| ensures s[i] != ' ' {
      assert s[i] == x[i - (|s| - |x|)];
    }
  }

  lemma ArrowHasSpace(a: string, x: string)
    ensures ' ' in a + ARROW + x && |a + ARROW + x| > 0
  {
    assert (a + ARROW + x)[|a|] == ' ';
  }

  lemma {:induction false} ArrowsDiffer(a: seq<string>, b: seq<string>)
    requires Plain(a) && Plain(b) && Arrows(a) == Arrows(b)
    ensures a == b
    decreases |a|
  {
    if |a| >= 2 && |b| >= 2 {
      var i, j := a[..|a| - 1], b[..|b| - 1];
      EndsSame(Arrows(i), a[|a| - 1], Arrows(j), b[|b| - 1]);
      assert forall s :: s in i ==> s in a;
      assert forall s :: s in j ==> s in b;
      ArrowsDiffer(i, j);
      assert a == i + [a[|a| - 1]] && b == j + [b[|b| - 1]];
    } else {
      if |a| >= 2 {
        ArrowHasSpace(Arrows(a[..|a| - 1]), a[|a| - 1]);
      }
      if |b| >= 2 {
        ArrowHasSpace(Arrows(b[..|b| - 1]), b[|b| - 1]);
      }
      assert |a| == 1 ==> a[0] in a;
      assert |b| == 1 ==> b[0] in b;
    }
  }

  /** Traces over non-empty ids without spaces, none of them "(empty)", are told apart by their text. */
  lemma TracesDiffer(a: seq<string>, b: seq<string>)
    requires Plain(a) && Plain(b) && JoinTrace(a) == JoinTrace(b)
    ensures a == b
  {
    NoTraceIsNoStep(a);
    NoTraceIsNoStep(b);
    ArrowsDiffer(a, b);
  }

  lemma NoTraceIsNoStep(a: seq<string>)
    requires Plain(a)
    ensures Arrows(a) != NO_TRACE
  {
    if |a| == 1 {
      assert a[0] in a;
    } else if |a| >= 2 {
      ArrowHasSpace(Arrows(a[..|a| - 1]), a[|a| - 1]);
    }
  }

  /** Each of the three conditions is needed. */
  lemma OtherTracesCollide()
    ensures JoinTrace(["a", "b"]) == JoinTrace(["a -> b"])
    ensures JoinTrace([""]) == JoinTrace([])
    ensures JoinTrace(["(empty)"]) == JoinTrace([])
  {
    assert ["a", "b"][..1] == ["a"];
    assert Arrows(["a", "b"]) == "a" + ARROW + "b" == "a -> b";
  }

  // ----- Values as their encoding shows them -----

  /** A list of strings is encoded like any list, so the two look the same after encoding. */
  function Encoded(v: Value): (e: Value)
    decreases v
  {
    match v
    case Texts(ss) => List(seq(|ss|, i requires 0 <= i < |ss| => Text(ss[i])))
    case List(items) => List(seq(|items|, i requires 0 <= i < |items| => Encoded(items[i])))
    case Object(fields) => Object(map k | k in fields :: Encoded(fields[k]))
    case _ => v
  }

  predicate SameValue(a: Value, b: Value)
  {
    Encoded(a) == Encoded(b)
  }

  /** Two values no encoding tells apart: they are equal, except that a list of strings is a list of texts, at any
      depth. */
  ghost predicate Alike(a: Value, b: Value)
    decreases a
  {
    match a
    case Texts(ss) => (b.Texts? && b.ss == ss) || (b.List? && AreTexts(b.items, ss))
    case List(items) =>
      || (b.Texts? && AreTexts(items, b.ss))
      || (b.List? && |b.items| == |items| && forall i :: 0 <= i < |items| ==> Alike(items[i], b.items[i]))
    case Object(fields) =>
      b.Object? && b.fields.Keys == fields.Keys && forall k :: k in fields ==> Alike(fields[k], b.fields[k])
    case _ => a == b
  }

  ghost predicate AreTexts(items: seq<Value>, ss: seq<string>)
  {
    |items| == |ss| && forall i :: 0 <= i < |ss| ==> items[i] == Text(ss[i])
  }

  lemma {:induction false} TextsEncoded(items: seq<Value>, ss: seq<string>)
    ensures Encoded(List(items)) == Encoded(Texts(ss)) <==> AreTexts(items, ss)
  {
    var es, ts := Encoded(List(items)).items, Encoded(Texts(ss)).items;
    if es == ts {
      forall i | 0 <= i < |ss| ensures items[i] == Text(ss[i]) {
        assert es[i] == Encoded(items[i]) && ts[i] == Text(ss[i]);
      }
    }
    if AreTexts(items, ss) {
      forall i | 0 <= i < |ss| ensures es[i] == ts[i] {
        assert es[i] == Encoded(items[i]) == Encoded(Text(ss[i]));
      }
    }
  }

  /** The comparison's equality is that one. */
  lemma {:induction false} SameValueExactly(a: Value, b: Value)
    ensures SameValue(a, b) <==> Alike(a, b)
    decreases a
  {
    match a
    case Texts(ss) =>
      if b.List? {
        TextsEncoded(b.items, ss);
      } else if b.Texts? {
        TextsApart(ss, b.ss);
      }
    case List(items) =>
      if b.Texts? {
        TextsEncoded(items, b.ss);
      } else if b.List? {
        var es, fs := Encoded(a).items, Encoded(b).items;
        forall i | 0 <= i < |items| && i < |b.items| ensures es[i] == fs[i] <==> Alike(items[i], b.items[i]) {
          SameValueExactly(items[i], b.items[i]);
        }
      }
    case Object(fields) =>
      if b.Object? {
        var es, fs := Encoded(a).fields, Encoded(b).fields;
        assert es.Keys == fields.Keys && fs.Keys == b.fields.Keys;
        forall k | k in fields && k in b.fields ensures es[k] == fs[k] <==> Alike(fields[k], b.fields[k]) {
          SameValueExactly(fields[k], b.fields[k]);
        }
        assert es == fs <==> es.Keys == fs.Keys && forall k :: k in es ==> es[k] == fs[k];
      }
    case _ =>
  }

  lemma TextsApart(ss: seq<string>, ts: seq<string>)
    ensures Encoded(Texts(ss)) == Encoded(Texts(ts)) <==> ss == ts
  {
    var es, fs := Encoded(Texts(ss)).items, Encoded(Texts(ts)).items;
    if es == fs {
      assert forall i :: 0 <= i < |ss| ==> es[i] == Text(ss[i]) && fs[i] == Text(ts[i]);
    }
  }

  // ----- The comparison -----

  /** What a difference shows of one side. */
  datatype Side = Absent | Note(text: string) | Flag(on: bool) | Field(value: Value)

  datatype Difference = Difference(field: string, before: Side, after: Side)

  const OUTPUT := "output."

  /** The differences in how the runs ended, in a fixed order. */
  function HeadDiffs(rec: Recording, result: RunResult): (diffs: seq<Difference>)
  {
    var a, b := JoinTrace(rec.trace), JoinTrace(result.trace);
    (if a != b then [Difference("trace", Note(a), Note(b))] else [])
    + (if rec.suspended != (result.pointer != "")
       then [Difference("suspended", Flag(rec.suspended), Flag(result.pointer != ""))] else [])
    + (if rec.failed != result.err.Some? then [Difference("failed", Flag(rec.failed), Flag(result.err.Some?))]
       else if result.err.Some? && rec.error != result.err.value then
         [Difference("error", Note(rec.error), Note(result.err.value))]
       else [])
  }

  /** Whether the two outputs differ on this key. */
  predicate Differs(before: Context, after: Context, key: string)
  {
    (key in before) != (key in after) || (key in before && key in after && !SameValue(before[key], after[key]))
  }

  function KeyDiff(before: Context, after: Context, key: string): Difference
  {
    Difference(OUTPUT + key, if key in before then Field(before[key]) else Absent,
               if key in after then Field(after[key]) else Absent)
  }

  function KeyDiffs(before: Context, after: Context, keys: seq<string>): (diffs: seq<Difference>)
    ensures |diffs| == |keys|
  {
    seq(|keys|, i requires 0 <= i < |keys| => KeyDiff(before, after, keys[i]))
  }

  /** `keys` lists exactly the output keys that differ, each once, in increasing order. */
  ghost predicate DifferingKeys(before: Context, after: Context, keys: seq<string>)
  {
    Increasing(keys) && forall k :: k in keys <==> Differs(before, after, k)
  }

  /** First how the runs ended, then every differing output key once, in increasing order. */
  ghost predicate IsDiff(rec: Recording, result: RunResult, diffs: seq<Difference>)
  {
    exists keys :: DifferingKeys(rec.output, result.output, keys)
                   && diffs == HeadDiffs(rec, result) + KeyDiffs(rec.output, result.output, keys)
  }

  /** Every differing output key once, in increasing order. */
  ghost predicate IsOutputDiff(before: Context, after: Context, diffs: seq<Difference>)
  {
    exists keys :: DifferingKeys(before, after, keys) && diffs == KeyDiffs(before, after, keys)
  }

  /** What an output shows under a key. */
  ghost predicate Shows(output: Context, key: string, side: Side)
  {
    if key in output then side == Field(output[key]) else side == Absent
  }

  /** The difference is one of these: the traces as text, whether the run is suspended, whether it failed, the texts of
      two errors, or an output field on which the two sides differ; each with the recorded side first. */
  ghost predicate IsDifference(rec: Recording, result: RunResult, d: Difference)
  {
    || (d.field == "trace" && JoinTrace(rec.trace) != JoinTrace(result.trace)
        && d.before == Note(JoinTrace(rec.trace)) && d.after == Note(JoinTrace(result.trace)))
    || (d.field == "suspended" && rec.suspended != (result.pointer != "")
        && d.before == Flag(rec.suspended) && d.after == Flag(!rec.suspended))
    || (d.field == "failed" && rec.failed != result.err.Some?
        && d.before == Flag(rec.failed) && d.after == Flag(!rec.failed))
    || (d.field == "error" && rec.failed && result.err.Some? && rec.error != result.err.value
        && d.before == Note(rec.error) && d.after == Note(result.err.value))
    || exists key :: OutputDiffers(rec.output, result.output, key, d)
  }

  ghost predicate OutputDiffers(before: Context, after: Context, key: string, d: Difference)
  {
    && d.field == "output." + key && Shows(before, key, d.before) && Shows(after, key, d.after)
    && (key in before || key in after)
    && (key in before && key in after ==> !Alike(before[key], after[key]))
  }

  lemma OutputsDiffer(before: Context, after: Context, keys: seq<string>, d: Difference)
    requires DifferingKeys(before, after, keys)
    ensures d in KeyDiffs(before, after, keys) <==> exists key :: OutputDiffers(before, after, key, d)
  {
    hide Alike, SameValue;
    forall key ensures Differs(before, after, key) && d == KeyDiff(before, after, key)
                       <==> OutputDiffers(before, after, key, d) {
      if key in before && key in after {
        SameValueExactly(before[key], after[key]);
      }
    }
    if key :| OutputDiffers(before, after, key, d) {
      assert key in keys;
      var i :| 0 <= i < |keys| && keys[i] == key;
      assert KeyDiffs(before, after, keys)[i] == d;
    }
    if d in KeyDiffs(before, after, keys) {
      var i :| 0 <= i < |keys| && KeyDiffs(before, after, keys)[i] == d;
      assert keys[i] in keys;
      assert OutputDiffers(before, after, keys[i], d);
    }
  }

  /** The report holds exactly these differences. */
  lemma DifferencesExactly(rec: Recording, result: RunResult, diffs: seq<Difference>, d: Difference)
    requires IsDiff(rec, result, diffs)
    ensures d in diffs <==> IsDifference(rec, result, d)
  {
    hide Differs, Shows, Alike, OutputDiffers;
    var keys :| DifferingKeys(rec.output, result.output, keys)
      && diffs == HeadDiffs(rec, result) + KeyDiffs(rec.output, result.output, keys);
    OutputsDiffer(rec.output, result.output, keys, d);
  }

  method OutputDiffs(before: Context, after: Context) returns (diffs: seq<Difference>)
    ensures IsOutputDiff(before, after, diffs)
  {
    var fields := SortedKeys(before.Keys + after.Keys);
    diffs := [];
    ghost var keys: seq<string> := [];
    for i := 0 to |fields|
      invariant forall k :: k in keys <==> k in fields[..i] && Differs(before, after, k)
      invariant Increasing(keys)
      invariant diffs == KeyDiffs(before, after, keys)
    {
      var key := fields[i];
      forall k | k in keys ensures Less(k, key) {
        var j :| 0 <= j < i && fields[j] == k;
      }
      if Differs(before, after, key) {
        diffs := diffs + [KeyDiff(before, after, key)];
        keys := keys + [key];
      }
    }
    forall k | Differs(before, after, k) ensures k in fields[..|fields|] {
      assert k in fields;
    }
    assert DifferingKeys(before, after, keys);
  }

  method Compare(rec: Recording, result: RunResult) returns (diffs: seq<Difference>)
    ensures IsDiff(rec, result, diffs)
    ensures forall d :: d in diffs <==> IsDifference(rec, result, d)
  {
    hide IsDiff, Encoded, IsDifference;
    diffs := [];
    var before := JoinedTrace(rec.trace);
    var after := JoinedTrace(result.trace);
    if before != after {
      diffs := diffs + [Difference("trace", Note(before), Note(after))];
    }
    var suspended := result.pointer != "";
    if rec.suspended != suspended {
      diffs := diffs + [Difference("suspended", Flag(rec.suspended), Flag(suspended))];
    }
    if rec.failed != result.err.Some? {
      diffs := diffs + [Difference("failed", Flag(rec.failed), Flag(result.err.Some?))];
    } else if result.err.Some? && rec.error != result.err.value {
      diffs := diffs + [Difference("error", Note(rec.error), Note(result.err.value))];
    }
    assert diffs == HeadDiffs(rec, result);
    var outputs := OutputDiffs(rec.output, result.output);
    diffs := diffs + outputs;
    DiffFrom(rec, result, outputs);
    forall d ensures d in diffs <==> IsDifference(rec, result, d) {
      DifferencesExactly(rec, result, diffs, d);
    }
  }

  lemma DiffFrom(rec: Recording, result: RunResult, outputs: seq<Difference>)
    requires IsOutputDiff(rec.output, result.output, outputs)
    ensures IsDiff(rec, result, HeadDiffs(rec, result) + outputs)
  {
  }

  /** There is one right answer, whatever order the maps yield their keys in. */
  lemma DiffIsCanonical(rec: Recording, result: RunResult, a: seq<Difference>, b: seq<Difference>)
    requires IsDiff(rec, result, a) && IsDiff(rec, result, b)
    ensures a == b
  {
    hide HeadDiffs;
    var ks :| DifferingKeys(rec.output, result.output, ks)
      && a == HeadDiffs(rec, result) + KeyDiffs(rec.output, result.output, ks);
    var ls :| DifferingKeys(rec.output, result.output, ls)
      && b == HeadDiffs(rec, result) + KeyDiffs(rec.output, result.output, ls);
    IncreasingIsUnique(ks, ls);
  }

  ghost predicate SameOutputs(before: Context, after: Context)
  {
    before.Keys == after.Keys && forall k :: k in before ==> SameValue(before[k], after[k])
  }

  /** The recorded run and the other one ended alike. */
  ghost predicate ResultsAgree(rec: Recording, result: RunResult)
  {
    && rec.trace == result.trace && rec.suspended == (result.pointer != "") && rec.failed == result.err.Some?
    && (rec.failed && result.err.Some? ==> rec.error == result.err.value)
    && SameOutputs(rec.output, result.output)
  }

  /** No difference is reported exactly when the runs ended alike, as long as the traces' ids are plain. */
  lemma NoDifferenceExactly(rec: Recording, result: RunResult, diffs: seq<Difference>)
    requires IsDiff(rec, result, diffs) && Plain(rec.trace) && Plain(result.trace)
    ensures diffs == [] <==> ResultsAgree(rec, result)
  {
    hide Encoded, SameValue;
    var keys :| DifferingKeys(rec.output, result.output, keys)
      && diffs == HeadDiffs(rec, result) + KeyDiffs(rec.output, result.output, keys);
    if diffs == [] {
      TracesDiffer(rec.trace, result.trace);
      forall k ensures !Differs(rec.output, result.output, k) {
        assert k !in keys;
      }
      forall k ensures k in rec.output <==> k in result.output {
        assert !Differs(rec.output, result.output, k);
      }
      assert rec.output.Keys == result.output.Keys;
      forall k | k in rec.output ensures SameValue(rec.output[k], result.output[k]) {
        assert !Differs(rec.output, result.output, k);
      }
      assert HeadDiffs(rec, result) == [];
    }
    if ResultsAgree(rec, result) {
      AgreeingShowNothing(rec, result, diffs);
    }
  }

  /** Runs that ended alike show no difference, whatever their ids. */
  lemma AgreeingShowNothing(rec: Recording, result: RunResult, diffs: seq<Difference>)
    requires IsDiff(rec, result, diffs) && ResultsAgree(rec, result)
    ensures diffs == []
  {
    hide Encoded, SameValue;
    var keys :| DifferingKeys(rec.output, result.output, keys)
      && diffs == HeadDiffs(rec, result) + KeyDiffs(rec.output, result.output, keys);
    NoneDiffer(rec.output, result.output, keys);
  }

  /** A recording loses nothing a comparison looks at: it shows no difference to another run exactly when the recorded
      run and the other one ended alike. */
  lemma RecordingKeepsTheResult(workflow: string, input: Context, probes: seq<Recorded>, result: RunResult,
                                other: RunResult,
                                diffs: seq<Difference>)
    requires IsDiff(RecordingFrom(workflow, input, probes, result), other, diffs)
    requires Plain(result.trace) && Plain(other.trace)
    ensures diffs == [] <==>
              && result.trace == other.trace && (result.pointer == "") == (other.pointer == "")
              && result.err == other.err && SameOutputs(result.output, other.output)
  {
    hide IsDiff, Plain, SameOutputs;
    NoDifferenceExactly(RecordingFrom(workflow, input, probes, result), other, diffs);
  }

  /** With the same outputs on both sides only the head can differ. */
  lemma SameOutputsHeadOnly(rec: Recording, result: RunResult)
    requires SameOutputs(rec.output, result.output)
    ensures IsDiff(rec, result, HeadDiffs(rec, result))
  {
    hide SameValue, HeadDiffs;
    forall k ensures !Differs(rec.output, result.output, k) {
      assert k in rec.output.Keys <==> k in result.output.Keys;
    }
    var none: seq<string> := [];
    assert DifferingKeys(rec.output, result.output, none);
    assert HeadDiffs(rec, result) + KeyDiffs(rec.output, result.output, none) == HeadDiffs(rec, result);
  }

  lemma NoneDiffer(before: Context, after: Context, keys: seq<string>)
    requires SameOutputs(before, after) && DifferingKeys(before, after, keys)
    ensures keys == []
  {
    hide SameValue;
    forall k ensures !Differs(before, after, k) {
      assert k in before.Keys <==> k in after.Keys;
    }
    NoneListed(keys);
  }

  lemma NoneListed(keys: seq<string>)
    ensures (forall k :: k !in keys) ==> keys == []
  {
    assert keys != [] ==> keys[0] in keys;
  }
}
