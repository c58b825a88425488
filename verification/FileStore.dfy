/** The store that keeps states in a directory, one file for each, and claims a state by renaming its file. */
module FileStore {
  import opened Basics
  import opened Names
  import opened Stores

  /** What a file holds: a state that can be read back, or something that cannot. */
  datatype Content = Readable(state: State) | Corrupt

  type Files = map<string, Content>

  /** A directory whose rename and remove take effect as a whole or not at all. */
  class Directory {
    var files: Files

    constructor (files: Files)
      ensures this.files == files
    {
      this.files := files;
    }

    method Create(name: string, content: Content)
      modifies this
      ensures files == old(files)[name := content]
    {
      files := files[name := content];
    }

    method Rename(from: string, to: string) returns (found: bool)
      modifies this
      ensures found == (from in old(files))
      ensures files == if found then (old(files) - {from})[to := old(files)[from]] else old(files)
    {
      found := from in files;
      if found {
        files := (files - {from})[to := files[from]];
      }
    }

    method Remove(name: string) returns (found: bool)
      modifies this
      ensures found == (name in old(files)) && files == old(files) - {name}
    {
      found := name in files;
      files := files - {name};
    }

    method Read(name: string) returns (content: Option<Content>)
      ensures content == if name in files then Some(files[name]) else None
    {
      content := if name in files then Some(files[name]) else None;
    }
  }

  datatype StoreError =
    | BadPointer(problem: PointerProblem)
    | NoSuchState(pointer: string)
    | CorruptState(pointer: string)

  datatype Fetched = Fetched(state: State) | NotFetched(error: StoreError)

  datatype Orphan = Orphan(pointer: string, claimedAt: int, state: Option<State>)

  /** The map from pointers to states the directory stands for: the readable files under a pointer's own name. */
  function Saved(files: Files): (states: map<string, State>)
  {
    map name | name in files && ValidPointer(name) && files[name].Readable? :: files[name].state
  }

  /** A claim as it is reported; `modified` tells when each file was last written. */
  function OrphanAt(files: Files, name: string, modified: string -> int): Orphan
    requires name in files
  {
    Orphan(PointerFromClaim(name), modified(name), if files[name].Readable? then Some(files[name].state) else None)
  }

  ghost predicate Overdue(files: Files, name: string, modified: string -> int, cutoff: int)
  {
    name in files && EndsWith(name, CLAIM_EXT) && modified(name) <= cutoff
  }

  /** The orphan is this claim's, left over and not written after the cutoff: the pointer it was made from, when it was
      written, and the state if it can be read. */
  ghost predicate IsOrphan(files: Files, name: string, modified: string -> int, cutoff: int, o: Orphan)
  {
    && Overdue(files, name, modified, cutoff) && o.pointer == PointerFromClaim(name) && o.claimedAt == modified(name)
    && o.state == match files[name]
                  case Readable(state) => Some(state)
                  case Corrupt => None
  }

  /** The files that are not the given pointer's claims. */
  function WithoutClaims(files: Files, pointer: string): Files
  {
    map name | name in files && !GlobsClaim(pointer, name) :: files[name]
  }

  /** What adding and removing files does to the states they stand for. */
  lemma SavedChanges(files: Files, name: string, content: Content)
    ensures ValidPointer(name) && content.Readable? ==>
              Saved(files[name := content]) == Saved(files)[name := content.state]
    ensures !ValidPointer(name) ==> Saved(files[name := content]) == Saved(files)
    ensures Saved(files - {name}) == Saved(files) - {name}
  {
  }

  lemma ReleaseKeepsSaved(files: Files, pointer: string)
    requires ValidPointer(pointer)
    ensures Saved(WithoutClaims(files, pointer)) == Saved(files)
  {
    forall name | name in files && ValidPointer(name) ensures !GlobsClaim(pointer, name) {
      GlobIsExact(pointer, name, "", "");
    }
  }

  class Store {
    const dir: Directory

    constructor (dir: Directory)
      ensures this.dir == dir
    {
      this.dir := dir;
    }

    /** Written under a temporary name first, so the pointer's own name never shows a half-written state. */
    method Save(state: State, random: string) returns (error: Option<StoreError>)
      requires TempName(random) !in dir.files
      modifies dir
      ensures error.None? <==> ValidPointer(state.pointer)
      ensures error.None? ==> dir.files == old(dir.files)[state.pointer := Readable(state)]
                              && Saved(dir.files) == Saved(old(dir.files))[state.pointer := state]
      ensures error.Some? ==> dir.files == old(dir.files)
    {
      var problem := CheckPointer(state.pointer);
      if problem.Some? {
        return Some(BadPointer(problem.value));
      }
      NamesAreDisjoint(state.pointer, state.pointer, "", random);
      SavedChanges(dir.files, state.pointer, Readable(state));
      dir.Create(TempName(random), Readable(state));
      var _ := dir.Rename(TempName(random), state.pointer);
      var _ := dir.Remove(TempName(random));
      error := None;
    }

    method Load(pointer: string) returns (r: Fetched)
      ensures r.Fetched? <==> pointer in Saved(dir.files)
      ensures r.Fetched? ==> r.state == Saved(dir.files)[pointer]
      ensures r.NotFetched? && ValidPointer(pointer) ==>
                r.error == if pointer in dir.files then CorruptState(pointer) else NoSuchState(pointer)
    {
      var problem := CheckPointer(pointer);
      if problem.Some? {
        return NotFetched(BadPointer(problem.value));
      }
      var content := dir.Read(pointer);
      if content.None? {
        return NotFetched(NoSuchState(pointer));
      }
      r := match content.value
        case Readable(state) => Fetched(state)
        case Corrupt => NotFetched(CorruptState(pointer));
    }

    method Delete(pointer: string) returns (error: Option<StoreError>)
      modifies dir
      ensures error.None? <==> ValidPointer(pointer) && pointer in old(dir.files)
      ensures dir.files == if error.None? then old(dir.files) - {pointer} else old(dir.files)
      ensures Saved(dir.files) == Saved(old(dir.files)) - {pointer}
    {
      var problem := CheckPointer(pointer);
      if problem.Some? {
        assert pointer !in Saved(dir.files);
        return Some(BadPointer(problem.value));
      }
      SavedChanges(dir.files, pointer, Corrupt);
      var found := dir.Remove(pointer);
      if !found {
        assert dir.files == old(dir.files);
        return Some(NoSuchState(pointer));
      }
      error := None;
    }

    /** Claims by renaming: at most one caller finds the file under its pointer. A file that cannot be read is claimed
        all the same. */
    method Consume(pointer: string, suffix: string) returns (r: Fetched)
      requires Hex(suffix) && ClaimName(pointer, suffix) !in dir.files
      modifies dir
      ensures r.Fetched? <==> pointer in Saved(old(dir.files))
      ensures r.Fetched? ==> r.state == Saved(old(dir.files))[pointer]
      ensures Saved(dir.files) == Saved(old(dir.files)) - {pointer}
      ensures dir.files == if ValidPointer(pointer) && pointer in old(dir.files)
                           then (old(dir.files) - {pointer})[ClaimName(pointer, suffix) := old(dir.files)[pointer]]
                           else old(dir.files)
    {
      var problem := CheckPointer(pointer);
      if problem.Some? {
        assert pointer !in Saved(dir.files);
        return NotFetched(BadPointer(problem.value));
      }
      var claim := ClaimName(pointer, suffix);
      NamesAreDisjoint(pointer, pointer, suffix, "");
      SavedChanges(dir.files, pointer, Corrupt);
      ghost var before := dir.files;
      var found := dir.Rename(pointer, claim);
      if !found {
        assert pointer !in Saved(dir.files);
        return NotFetched(NoSuchState(pointer));
      }
      SavedChanges(before - {pointer}, claim, before[pointer]);
      var content := dir.Read(claim);
      r := match content.value
        case Readable(state) => Fetched(state)
        case Corrupt => NotFetched(CorruptState(pointer));
    }

    /** Removes this pointer's claims, whatever their suffix, and nothing else. */
    method Release(pointer: string) returns (error: Option<StoreError>)
      modifies dir
      ensures error.None? <==> ValidPointer(pointer)
      ensures dir.files == if error.None? then WithoutClaims(old(dir.files), pointer) else old(dir.files)
      ensures Saved(dir.files) == Saved(old(dir.files))
    {
      var problem := CheckPointer(pointer);
      if problem.Some? {
        return Some(BadPointer(problem.value));
      }
      ghost var before := dir.files;
      ReleaseKeepsSaved(before, pointer);
      var claims := set name | name in dir.files && GlobsClaim(pointer, name);
      while claims != {}
        invariant forall name :: name in claims ==> GlobsClaim(pointer, name)
        invariant forall name :: name in before ==>
                    (name in dir.files <==> name in claims || !GlobsClaim(pointer, name))
        invariant dir.files.Keys <= before.Keys
        invariant forall name :: name in dir.files ==> dir.files[name] == before[name]
      {
        var name :| name in claims;
        var _ := dir.Remove(name);
        claims := claims - {name};
      }
      assert dir.files == WithoutClaims(before, pointer);
      error := None;
    }

    /** Every state that is saved and not claimed, once. */
    method Pending() returns (out: seq<State>)
      ensures forall s :: s in out <==> s in Saved(dir.files).Values
      ensures |out| == |Saved(dir.files)|
    {
      out := [];
      var entries := dir.files.Keys;
      ghost var listed: set<string> := {};
      while entries != {}
        invariant entries <= dir.files.Keys
        invariant listed == set name | name in Saved(dir.files) && name !in entries
        invariant |out| == |listed|
        invariant forall s :: s in out <==> exists name :: name in listed && Saved(dir.files)[name] == s
      {
        var name :| name in entries;
        entries := entries - {name};
        var problem := CheckPointer(name);
        if problem.None? && dir.files[name].Readable? {
          out := out + [dir.files[name].state];
          listed := listed + {name};
        }
      }
      assert listed == Saved(dir.files).Keys;
      assert |Saved(dir.files).Keys| == |Saved(dir.files)|;
    }

    /** Every claim left in the directory that was not written after the cutoff, under the pointer it was made from. */
    method Orphaned(modified: string -> int, cutoff: int) returns (out: seq<Orphan>)
      ensures forall o :: o in out <==> exists name :: IsOrphan(dir.files, name, modified, cutoff, o)
      ensures |out| == |set name | name in dir.files && Overdue(dir.files, name, modified, cutoff)|
    {
      hide OrphanAt, EndsWith;
      out := [];
      var claims := set name | name in dir.files && EndsWith(name, CLAIM_EXT);
      ghost var all, seen: set<string> := claims, {};
      while claims != {}
        invariant claims <= all
        invariant seen == set name | name in all - claims && modified(name) <= cutoff
        invariant |out| == |seen|
        invariant forall o :: o in out <==> exists name :: name in seen && o == OrphanAt(dir.files, name, modified)
      {
        var name :| name in claims;
        claims := claims - {name};
        if modified(name) <= cutoff {
          seen := seen + {name};
          out := out + [OrphanAt(dir.files, name, modified)];
        }
      }
      assert seen == set name | name in dir.files && Overdue(dir.files, name, modified, cutoff);
      forall o ensures o in out <==> exists name :: IsOrphan(dir.files, name, modified, cutoff, o) {
        if o in out {
          var name :| name in seen && o == OrphanAt(dir.files, name, modified);
          OrphansExactly(dir.files, name, modified, cutoff, o);
        }
        if name :| IsOrphan(dir.files, name, modified, cutoff, o) {
          OrphansExactly(dir.files, name, modified, cutoff, o);
          assert name in seen;
        }
      }
    }
  }

  lemma OrphansExactly(files: Files, name: string, modified: string -> int, cutoff: int, o: Orphan)
    ensures IsOrphan(files, name, modified, cutoff, o)
            <==> Overdue(files, name, modified, cutoff) && o == OrphanAt(files, name, modified)
  {
  }

  /** A claim made by `Consume` shows up under the pointer it was made for. */
  lemma ClaimsAreFound(files: Files, pointer: string, suffix: string)
    requires Hex(suffix) && ClaimName(pointer, suffix) in files
    ensures EndsWith(ClaimName(pointer, suffix), CLAIM_EXT)
    ensures forall modified :: OrphanAt(files, ClaimName(pointer, suffix), modified).pointer == pointer
  {
    var name := ClaimName(pointer, suffix);
    assert name[|name| - |CLAIM_EXT|..] == CLAIM_EXT;
    PointerOfClaim(pointer, suffix);
  }
}
