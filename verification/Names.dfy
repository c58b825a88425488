/** The names a file store gives its files, and why one kind is never taken for another. */
module Names {
  import opened Basics

  const CLAIM_EXT := ".claimed"
  const TEMP_PREFIX := ".tmp-"
  const LONGEST_NAME := 128

  predicate PointerChar(c: char)
  {
    'a' <= c <= 'z' || 'A' <= c <= 'Z' || '0' <= c <= '9' || c == '-' || c == '_'
  }

  /** The pointers a file store accepts; nothing else ever becomes a path. */
  predicate ValidPointer(pointer: string)
  {
    0 < |pointer| <= LONGEST_NAME && forall i :: 0 <= i < |pointer| ==> PointerChar(pointer[i])
  }

  datatype PointerProblem = EmptyPointer | PointerTooLong | UnsupportedCharacter

  method CheckPointer(pointer: string) returns (problem: Option<PointerProblem>)
    ensures problem.None? <==> ValidPointer(pointer)
    ensures problem.None? <==>
              0 < |pointer| <= 128 && forall i :: 0 <= i < |pointer| ==>
                var c := pointer[i];
                'a' <= c <= 'z' || 'A' <= c <= 'Z' || '0' <= c <= '9' || c == '-' || c == '_'
    ensures problem == Some(EmptyPointer) <==> pointer == ""
    ensures problem == Some(PointerTooLong) <==> |pointer| > 128
  {
    if pointer == "" {
      return Some(EmptyPointer);
    }
    if |pointer| > LONGEST_NAME {
      return Some(PointerTooLong);
    }
    for i := 0 to |pointer|
      invariant forall j :: 0 <= j < i ==> PointerChar(pointer[j])
    {
      if !PointerChar(pointer[i]) {
        return Some(UnsupportedCharacter);
      }
    }
    problem := None;
  }

  predicate HexDigit(c: char)
  {
    '0' <= c <= '9' || 'a' <= c <= 'f'
  }

  /** What encoding random bytes yields. */
  predicate Hex(s: string)
  {
    forall i :: 0 <= i < |s| ==> HexDigit(s[i])
  }

  function ClaimName(pointer: string, suffix: string): string
  {
    pointer + "." + suffix + CLAIM_EXT
  }

  function TempName(random: string): string
  {
    TEMP_PREFIX + random
  }

  predicate EndsWith(s: string, ending: string)
  {
    |s| >= |ending| && s[|s| - |ending|..] == ending
  }

  function TrimSuffix(s: string, ending: string): string
  {
    if EndsWith(s, ending) then s[..|s| - |ending|] else s
  }

  /** Everything before the last dot, or all of it. */
  function BeforeLastDot(s: string): string
    decreases |s|
  {
    if s == "" then s
    else if s[|s| - 1] == '.' then s[..|s| - 1]
    else
      var init := BeforeLastDot(s[..|s| - 1]);
      if init == s[..|s| - 1] then s else init
  }

  function PointerFromClaim(name: string): string
  {
    BeforeLastDot(TrimSuffix(name, CLAIM_EXT))
  }

  /** What the glob over a pointer's claims picks up: the pointer and a dot in front, the extension behind. */
  predicate GlobsClaim(pointer: string, name: string)
  {
    && |name| >= |pointer| + 1 + |CLAIM_EXT|
    && name[..|pointer| + 1] == pointer + "." && EndsWith(name, CLAIM_EXT)
  }

  // ----- Claims name their pointer -----

  lemma {:induction false} DotThenNone(s: string, tail: string)
    requires '.' !in tail
    ensures BeforeLastDot(s + "." + tail) == s
    decreases |tail|
  {
    var name := s + "." + tail;
    if tail == "" {
      assert name[..|name| - 1] == s;
    } else {
      var init := tail[..|tail| - 1];
      assert name[..|name| - 1] == s + "." + init;
      assert forall c :: c in init ==> c in tail;
      DotThenNone(s, init);
      assert name[|name| - 1] == tail[|tail| - 1];
      assert |s| < |s + "." + init|;
    }
  }

  lemma HexHasNoDot(s: string)
    requires Hex(s)
    ensures '.' !in s
  {
  }

  /** Reading a claim's name gives back the pointer it was made from. */
  lemma PointerOfClaim(pointer: string, suffix: string)
    requires Hex(suffix)
    ensures PointerFromClaim(ClaimName(pointer, suffix)) == pointer
  {
    var name := ClaimName(pointer, suffix);
    assert name[|name| - |CLAIM_EXT|..] == CLAIM_EXT;
    assert TrimSuffix(name, CLAIM_EXT) == pointer + "." + suffix;
    HexHasNoDot(suffix);
    DotThenNone(pointer, suffix);
  }

  /** So two claims are the same file only if they are the same claim on the same pointer. */
  lemma ClaimsDiffer(p: string, s: string, q: string, t: string)
    requires Hex(s) && Hex(t) && ClaimName(p, s) == ClaimName(q, t)
    ensures p == q && s == t
  {
    PointerOfClaim(p, s);
    PointerOfClaim(q, t);
    var name := ClaimName(p, s);
    assert s == name[|p| + 1..|name| - |CLAIM_EXT|];
    assert t == name[|q| + 1..|name| - |CLAIM_EXT|];
  }

  /** The glob for a pointer picks up exactly that pointer's claims: no other pointer's, no pending file, no temporary
      one. */
  lemma GlobIsExact(p: string, q: string, suffix: string, random: string)
    requires ValidPointer(p) && ValidPointer(q) && Hex(suffix)
    ensures GlobsClaim(p, ClaimName(q, suffix)) <==> p == q
    ensures !GlobsClaim(p, q)
    ensures !GlobsClaim(p, TempName(random))
  {
    var name := ClaimName(q, suffix);
    assert name[|name| - |CLAIM_EXT|..] == CLAIM_EXT;
    assert p == q ==> name[..|p| + 1] == p + ".";
    GlobbedName(p, name);
    GlobbedName(p, q);
    GlobbedName(p, TempName(random));
    PointerHasNoDot(p);
    PointerHasNoDot(q);
    OneFirstDot(p, q, name);
  }

  lemma PointerHasNoDot(p: string)
    requires ValidPointer(p)
    ensures '.' !in p
  {
  }

  lemma GlobbedName(p: string, name: string)
    ensures GlobsClaim(p, name) ==> |name| > |p| && name[..|p|] == p && name[|p|] == '.' && '.' in name
    ensures GlobsClaim(p, name) && p != "" ==> name[0] == p[0] && p[0] in p
  {
    if GlobsClaim(p, name) {
      var prefix := p + ".";
      assert name[..|p|] == name[..|p| + 1][..|p|] == prefix[..|p|] == p;
      assert name[|p|] == name[..|p| + 1][|p|] == prefix[|p|];
    }
  }

  /** The name is `p`, a dot and whatever follows. */
  predicate Opens(name: string, p: string)
  {
    |name| > |p| && name[..|p|] == p && name[|p|] == '.'
  }

  lemma OneFirstDot(p: string, q: string, name: string)
    requires '.' !in p && '.' !in q
    ensures Opens(name, p) && Opens(name, q) ==> p == q
  {
    assert forall i :: 0 <= i < |p| ==> p[i] in p;
    assert forall i :: 0 <= i < |q| ==> q[i] in q;
  }

  /** Pending files, claims and temporary files never share a name. */
  lemma NamesAreDisjoint(p: string, q: string, suffix: string, random: string)
    requires ValidPointer(p) && ValidPointer(q)
    ensures p != ClaimName(q, suffix) && p != TempName(random) && ClaimName(q, suffix) != TempName(random)
    ensures !ValidPointer(ClaimName(q, suffix)) && !ValidPointer(TempName(random))
  {
    assert ClaimName(q, suffix)[|q|] == '.';
    assert TempName(random)[0] == '.';
    assert ClaimName(q, suffix)[0] == q[0];
    assert PointerChar(q[0]);
  }

  /** The engine's own pointers, 32 hexadecimal digits, are accepted. */
  lemma EnginePointersPass(pointer: string)
    requires |pointer| == 32 && Hex(pointer)
    ensures ValidPointer(pointer)
  {
    forall i | 0 <= i < |pointer| ensures PointerChar(pointer[i]) {
      assert HexDigit(pointer[i]);
    }
  }
}
