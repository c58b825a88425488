/** Small shared types, and the facts about sequences the other modules lean on. */
module Basics {

  datatype Option<+T> = None | Some(value: T)

  /** Every part in order, one after another. */
  function Concat<T>(parts: seq<seq<T>>): (all: seq<T>)
  {
    if parts == [] then [] else parts[0] + Concat(parts[1..])
  }

  /** The elements that satisfy `keep`, in order. */
  function Select<T>(s: seq<T>, keep: T -> bool): (r: seq<T>)
    ensures forall x :: x in r ==> x in s && keep(x)
  {
    if s == [] then [] else (if keep(s[0]) then [s[0]] else []) + Select(s[1..], keep)
  }

  /** How many elements satisfy `keep`. */
  function Count<T>(s: seq<T>, keep: T -> bool): (n: nat)
  {
    if s == [] then 0 else (if keep(s[0]) then 1 else 0) + Count(s[1..], keep)
  }

  lemma {:induction false} SelectConcat<T>(a: seq<T>, b: seq<T>, keep: T -> bool)
    ensures Select(a + b, keep) == Select(a, keep) + Select(b, keep)
  {
    if a == [] {
      assert a + b == b;
    } else {
      assert (a + b)[1..] == a[1..] + b;
      SelectConcat(a[1..], b, keep);
    }
  }

  lemma {:induction false} CountConcat<T>(a: seq<T>, b: seq<T>, keep: T -> bool)
    ensures Count(a + b, keep) == Count(a, keep) + Count(b, keep)
  {
    if a == [] {
      assert a + b == b;
    } else {
      assert (a + b)[1..] == a[1..] + b;
      CountConcat(a[1..], b, keep);
    }
  }

  lemma {:induction false} SelectHas<T>(s: seq<T>, keep: T -> bool, x: T)
    ensures x in Select(s, keep) <==> x in s && keep(x)
  {
    if s != [] {
      SelectHas(s[1..], keep, x);
      assert s == [s[0]] + s[1..];
    }
  }

  lemma {:induction false} CountIsZero<T>(s: seq<T>, keep: T -> bool)
    requires forall x :: x in s ==> !keep(x)
    ensures Count(s, keep) == 0 && Select(s, keep) == []
  {
    if s != [] {
      CountIsZero(s[1..], keep);
    }
  }

  lemma {:induction false} ConcatMember<T>(parts: seq<seq<T>>, x: T)
    ensures x in Concat(parts) <==> exists i :: 0 <= i < |parts| && x in parts[i]
  {
    if parts != [] {
      ConcatMember(parts[1..], x);
      if x in Concat(parts[1..]) {
        var i :| 0 <= i < |parts[1..]| && x in parts[1..][i];
        assert x in parts[i + 1];
      }
      if i :| 0 <= i < |parts| && x in parts[i] && i > 0 {
        assert x in parts[1..][i - 1];
      }
    }
  }

  /** Replacing one part by another whose missing elements are `gone` removes exactly `gone` from the whole. */
  lemma {:induction false} ConcatUpdate<T>(parts: seq<seq<T>>, i: nat, part: seq<T>, gone: seq<T>)
    requires i < |parts|
    requires multiset(parts[i]) == multiset(gone) + multiset(part)
    ensures multiset(Concat(parts)) == multiset(gone) + multiset(Concat(parts[i := part]))
  {
    if i == 0 {
      assert parts[0 := part][1..] == parts[1..];
    } else {
      assert parts[i := part][1..] == parts[1..][i - 1 := part];
      ConcatUpdate(parts[1..], i - 1, part, gone);
    }
  }

  /** If only part `i` holds selected elements, selecting from the whole is selecting from that part. */
  lemma {:induction false} SelectOnlyPart<T>(parts: seq<seq<T>>, i: nat, keep: T -> bool)
    requires i < |parts|
    requires forall j :: 0 <= j < |parts| && j != i ==> Select(parts[j], keep) == []
    ensures Select(Concat(parts), keep) == Select(parts[i], keep)
  {
    SelectConcat(parts[0], Concat(parts[1..]), keep);
    if i == 0 {
      SelectNoPart(parts[1..], keep);
    } else {
      assert forall j :: 0 <= j < |parts[1..]| ==> parts[1..][j] == parts[j + 1];
      SelectOnlyPart(parts[1..], i - 1, keep);
    }
  }

  lemma {:induction false} SelectNoPart<T>(parts: seq<seq<T>>, keep: T -> bool)
    requires forall j :: 0 <= j < |parts| ==> Select(parts[j], keep) == []
    ensures Select(Concat(parts), keep) == []
  {
    if parts != [] {
      SelectConcat(parts[0], Concat(parts[1..]), keep);
      assert forall j :: 0 <= j < |parts[1..]| ==> parts[1..][j] == parts[j + 1];
      SelectNoPart(parts[1..], keep);
    }
  }

  lemma {:induction false} SelectSame<T>(parts: seq<seq<T>>, i: nat, part: seq<T>, keep: T -> bool)
    requires i < |parts|
    requires Select(part, keep) == Select(parts[i], keep)
    ensures Select(Concat(parts[i := part]), keep) == Select(Concat(parts), keep)
  {
    var after := parts[i := part];
    SelectConcat(parts[0], Concat(parts[1..]), keep);
    SelectConcat(after[0], Concat(after[1..]), keep);
    if i == 0 {
      assert after[1..] == parts[1..];
    } else {
      assert after[1..] == parts[1..][i - 1 := part];
      SelectSame(parts[1..], i - 1, part, keep);
    }
  }

  /** A sequence without repeats over a finite set is no longer than the set. */
  lemma {:induction false} Pigeonhole<T>(s: seq<T>, universe: set<T>)
    requires forall i, j :: 0 <= i < j < |s| ==> s[i] != s[j]
    requires forall x :: x in s ==> x in universe
    ensures |s| <= |universe|
  {
    if s != [] {
      var last := s[|s| - 1];
      var init := s[..|s| - 1];
      assert forall x :: x in init ==> x in s;
      forall x | x in init ensures x in universe - {last} {
      }
      Pigeonhole(init, universe - {last});
    }
  }

  lemma CountWithout<T>(s: seq<T>, i: nat, keep: T -> bool)
    requires i < |s|
    ensures Count(s, keep) == Count(s[..i] + s[i + 1..], keep) + if keep(s[i]) then 1 else 0
    ensures multiset(s[..i] + s[i + 1..]) == multiset(s) - multiset{s[i]}
  {
    hide Count;
    var a, b := s[..i], s[i + 1..];
    assert s == a + ([s[i]] + b);
    CountAround(a, s[i], b, keep);
    MultisetAround(a, s[i], b);
  }

  lemma CountAround<T>(a: seq<T>, x: T, b: seq<T>, keep: T -> bool)
    ensures Count(a + ([x] + b), keep) == Count(a + b, keep) + if keep(x) then 1 else 0
  {
    assert ([x] + b)[1..] == b;
    CountConcat(a, [x] + b, keep);
    CountConcat(a, b, keep);
  }

  lemma MultisetAround<T>(a: seq<T>, x: T, b: seq<T>)
    ensures multiset(a + b) == multiset(a + ([x] + b)) - multiset{x}
  {
  }

  /** Counting does not depend on the order of events. */
  lemma {:induction false} CountOrderFree<T>(a: seq<T>, b: seq<T>, keep: T -> bool)
    requires multiset(a) == multiset(b)
    ensures Count(a, keep) == Count(b, keep)
  {
    if a == [] {
      assert |multiset(b)| == 0;
    } else {
      assert a[0] in multiset(b);
      var i :| 0 <= i < |b| && b[i] == a[0];
      var a', b' := a[..0] + a[1..], b[..i] + b[i + 1..];
      CountWithout(a, 0, keep);
      CountWithout(b, i, keep);
      CountOrderFree(a', b', keep);
    }
  }
}
