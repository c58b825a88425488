/** Many processes resuming over one shared directory, any of them stopping anywhere. */
module Protocol {
  import opened Basics
  import opened Names
  import opened Stores
  import opened FileStore
  import R = Resuming

  /** How far one attempt to resume has got; `Died` is where it stopped. Its process may have stopped with it, or live
      on: a run that panics returns without releasing its claim, since nothing releases it on the way out. */
  datatype Phase =
    | Arrived
    | Loaded(state: State)
    | Cleared(state: State)
    | Claimed(state: State, claim: string)
    | Running(state: State, found: State, claim: string)
    | Releasing(state: State, found: State, left: set<string>)
    | Finished(state: State, found: State)
    | TurnedAway
    | Died(at: Phase)

  datatype Attempt = Attempt(pointer: string, identity: string, phase: Phase)

  /** The directory, the attempts so far, the states ever saved, and the temporary files being written. */
  datatype Sys = Sys(files: Files, attempts: map<nat, Attempt>, saved: map<string, State>, drafts: map<string, State>)

  /** `Authorize` carries what its moment finds: whether the workflow still has the suspended leaf, and the authorizer
      asked, which may answer differently from one attempt to the next. */
  datatype Event =
    | Arrive(a: nat, pointer: string, identity: string)
    | Look(a: nat)
    | Authorize(a: nat, known: bool, authorizer: Option<R.Authorizer>)
    | Claim(a: nat, suffix: string)
    | Read(a: nat)
    | Glob(a: nat)
    | Remove(a: nat, name: string)
    | Return(a: nat)
    | Crash(a: nat)
    | Draft(random: string, state: State)
    | Commit(random: string)

  const INITIAL := Sys(map[], map[], map[], map[])

  predicate At(s: Sys, a: nat, stage: Phase -> bool)
  {
    a in s.attempts && stage(s.attempts[a].phase)
  }

  /** A claim's suffix and a temporary name are new, and so is the pointer of a state that gets saved. */
  predicate Enabled(s: Sys, e: Event)
  {
    match e
    case Arrive(a, _, _) => a !in s.attempts
    case Look(a) => At(s, a, (p: Phase) => p.Arrived?)
    case Authorize(a, _, _) => At(s, a, (p: Phase) => p.Loaded?)
    case Claim(a, suffix) =>
      At(s, a, (p: Phase) => p.Cleared?) && Hex(suffix) && ClaimName(s.attempts[a].pointer, suffix) !in s.files
    case Read(a) => At(s, a, (p: Phase) => p.Claimed?)
    case Glob(a) => At(s, a, (p: Phase) => p.Running?)
    case Remove(a, name) => At(s, a, (p: Phase) => p.Releasing? && name in p.left)
    case Return(a) => At(s, a, (p: Phase) => p.Releasing? && p.left == {})
    case Crash(a) => At(s, a, (p: Phase) => !p.Died?)
    case Draft(random, state) => TempName(random) !in s.files && random !in s.drafts && ValidPointer(state.pointer)
    case Commit(random) => random in s.drafts && TempName(random) in s.files && s.drafts[random].pointer !in s.saved
  }

  /** What is checked between loading and claiming. */
  predicate Passes(known: bool, authorizer: Option<R.Authorizer>, state: State, identity: string)
  {
    known && R.Denial(authorizer, state, identity).None?
  }

  function MoveTo(s: Sys, a: nat, phase: Phase): Sys
    requires a in s.attempts
  {
    s.(attempts := s.attempts[a := s.attempts[a].(phase := phase)])
  }

  /** One step; each changes the directory by at most one rename, creation or removal. */
  function Apply(s: Sys, e: Event): (t: Sys)
    requires Enabled(s, e)
  {
    match e
    case Arrive(a, pointer, identity) => s.(attempts := s.attempts[a := Attempt(pointer, identity, Arrived)])
    case Look(a) =>
      var p := s.attempts[a].pointer;
      MoveTo(s, a, if p in Saved(s.files) then Loaded(Saved(s.files)[p]) else TurnedAway)
    case Authorize(a, known, authorizer) =>
      var state := s.attempts[a].phase.state;
      MoveTo(s, a, if Passes(known, authorizer, state, s.attempts[a].identity) then Cleared(state) else TurnedAway)
    case Claim(a, suffix) =>
      var p := s.attempts[a].pointer;
      if ValidPointer(p) && p in s.files then
        var claim := ClaimName(p, suffix);
        MoveTo(s, a, Claimed(s.attempts[a].phase.state, claim)).(files := (s.files - {p})[claim := s.files[p]])
      else MoveTo(s, a, TurnedAway)
    case Read(a) =>
      var phase := s.attempts[a].phase;
      if phase.claim in s.files && s.files[phase.claim].Readable? then
        MoveTo(s, a, Running(phase.state, s.files[phase.claim].state, phase.claim))
      else MoveTo(s, a, TurnedAway)
    case Glob(a) =>
      var phase, p := s.attempts[a].phase, s.attempts[a].pointer;
      MoveTo(s, a, Releasing(phase.state, phase.found, set name | name in s.files && GlobsClaim(p, name)))
    case Remove(a, name) =>
      var phase := s.attempts[a].phase;
      MoveTo(s, a, phase.(left := phase.left - {name})).(files := s.files - {name})
    case Return(a) =>
      var phase := s.attempts[a].phase;
      MoveTo(s, a, Finished(phase.state, phase.found))
    case Crash(a) => MoveTo(s, a, Died(s.attempts[a].phase))
    case Draft(random, state) =>
      s.(files := s.files[TempName(random) := Readable(state)], drafts := s.drafts[random := state])
    case Commit(random) =>
      var state := s.drafts[random];
      s.(files := (s.files - {TempName(random)})[state.pointer := Readable(state)],
         saved := s.saved[state.pointer := state], drafts := s.drafts - {random})
  }

  // ----- What every reachable state satisfies -----

  /** The phase an attempt is in, or was in when its process stopped. */
  function Last(p: Phase): Phase
  {
    if p.Died? then p.at else p
  }

  predicate Started(p: Phase)
  {
    Last(p).Claimed? || Last(p).Running? || Last(p).Releasing? || Last(p).Finished?
  }

  predicate Holds(p: Phase, name: string)
  {
    var q := Last(p);
    (q.Claimed? && q.claim == name) || (q.Running? && q.claim == name) || (q.Releasing? && name in q.left)
  }

  /** The state an attempt was authorised on, and ran on, is the one that was saved. */
  predicate Faithful(s: Sys, a: Attempt)
  {
    var q := Last(a.phase);
    && !q.Died?
    && (q.Loaded? || q.Cleared? || Started(q) ==> a.pointer in s.saved && q.state == s.saved[a.pointer])
    && (q.Running? || q.Releasing? || q.Finished? ==> q.found == q.state)
  }

  /** An attempt knows the claims it holds: they are in the directory, and hold the saved state. */
  predicate Holding(s: Sys, a: Attempt)
  {
    var q := Last(a.phase);
    && (q.Claimed? || q.Running? ==> q.claim in s.files && GlobsClaim(a.pointer, q.claim) && a.pointer in s.saved
                                     && s.files[q.claim] == Readable(s.saved[a.pointer]))
    && (q.Releasing? ==> forall n, m :: n in q.left && m in q.left ==> n == m)
    && (q.Releasing? ==> forall n :: n in q.left ==> n in s.files && GlobsClaim(a.pointer, n) && a.pointer in s.saved
                                                     && s.files[n] == Readable(s.saved[a.pointer]))
  }

  ghost predicate Owned(s: Sys, pointer: string, name: string)
  {
    exists a :: a in s.attempts && s.attempts[a].pointer == pointer && Holds(s.attempts[a].phase, name)
  }

  ghost predicate StartedFor(s: Sys, pointer: string)
  {
    exists a :: a in s.attempts && s.attempts[a].pointer == pointer && Started(s.attempts[a].phase)
  }

  ghost predicate AttemptsFine(s: Sys)
  {
    forall a :: a in s.attempts ==> Faithful(s, s.attempts[a]) && Holding(s, s.attempts[a])
  }

  predicate Rivals(a: Attempt, b: Attempt)
  {
    a.pointer == b.pointer && Started(a.phase) && Started(b.phase)
  }

  /** No two attempts ever get past the claim of one pointer. */
  ghost predicate OneStarts(s: Sys)
  {
    forall a, b :: a in s.attempts && b in s.attempts && Rivals(s.attempts[a], s.attempts[b]) ==> a == b
  }

  /** What lies under a pointer's own name was saved there and nobody has claimed it. */
  ghost predicate PendingFine(s: Sys)
  {
    forall p :: p in s.files && ValidPointer(p) ==>
        p in s.saved && s.files[p] == Readable(s.saved[p]) && !StartedFor(s, p)
  }

  /** Every claim belongs to the attempt that made it. */
  ghost predicate ClaimsFine(s: Sys)
  {
    forall p, name :: ValidPointer(p) && name in s.files && GlobsClaim(p, name) ==> Owned(s, p, name)
  }

  ghost predicate SavedFine(s: Sys)
  {
    forall p :: p in s.saved ==> ValidPointer(p) && s.saved[p].pointer == p && (p in s.files || StartedFor(s, p))
  }

  ghost predicate DraftsFine(s: Sys)
  {
    forall r :: r in s.drafts ==> ValidPointer(s.drafts[r].pointer)
  }

  ghost predicate Inv(s: Sys)
  {
    AttemptsFine(s) && OneStarts(s) && PendingFine(s) && ClaimsFine(s) && SavedFine(s) && DraftsFine(s)
  }

  lemma InitialFine()
    ensures Inv(INITIAL)
  {
  }

  /** Steps that leave the directory alone and change no attempt's standing towards claims. */
  lemma QuietStep(s: Sys, a: nat, phase: Phase)
    requires Inv(s) && a in s.attempts && Faithful(s, s.attempts[a].(phase := phase))
    requires Started(phase) == Started(s.attempts[a].phase)
    requires Holding(s, s.attempts[a].(phase := phase))
    requires forall name ::
      name in s.files && GlobsClaim(s.attempts[a].pointer, name) && Holds(s.attempts[a].phase, name) ==>
          Holds(phase, name)
    ensures Inv(MoveTo(s, a, phase))
  {
    hide Faithful, Holding, GlobsClaim, ValidPointer, Holds, Started;
    var t := MoveTo(s, a, phase);
    forall p ensures StartedFor(t, p) == StartedFor(s, p) {
      StartedSame(s, t, p);
    }
    forall p, name | ValidPointer(p) && name in t.files && GlobsClaim(p, name) ensures Owned(t, p, name) {
      var b :| b in s.attempts && s.attempts[b].pointer == p && Holds(s.attempts[b].phase, name);
      assert b in t.attempts;
      assert Holds(t.attempts[b].phase, name);
    }
    forall b | b in t.attempts ensures Faithful(t, t.attempts[b]) && Holding(t, t.attempts[b]) {
      FineSame(s, t, t.attempts[b]);
    }
  }

  lemma FineSame(s: Sys, t: Sys, a: Attempt)
    requires s.files == t.files && s.saved == t.saved
    ensures Faithful(s, a) == Faithful(t, a) && Holding(s, a) == Holding(t, a)
  {
  }

  lemma StartedSame(s: Sys, t: Sys, p: string)
    requires s.attempts.Keys == t.attempts.Keys
    requires forall a :: a in s.attempts ==>
      s.attempts[a].pointer == t.attempts[a].pointer && Started(s.attempts[a].phase) == Started(t.attempts[a].phase)
    ensures StartedFor(t, p) == StartedFor(s, p)
  {
    hide Started;
  }

  lemma PendingIsSaved(s: Sys, p: string)
    requires Inv(s) && p in Saved(s.files)
    ensures p in s.saved && Saved(s.files)[p] == s.saved[p]
  {
  }

  /** A pointer has one claim at most, and only the attempt that made it holds it. */
  lemma OneClaim(s: Sys, a: nat, name: string)
    requires Inv(s) && a in s.attempts && Started(s.attempts[a].phase) && ValidPointer(s.attempts[a].pointer)
    requires name in s.files && GlobsClaim(s.attempts[a].pointer, name)
    ensures Holds(s.attempts[a].phase, name)
  {
    hide GlobsClaim, ValidPointer, Faithful, Holding, AttemptsFine, PendingFine, SavedFine;
    var b :| b in s.attempts && s.attempts[b].pointer == s.attempts[a].pointer && Holds(s.attempts[b].phase, name);
    assert Rivals(s.attempts[a], s.attempts[b]);
  }

  lemma StartedIsValid(s: Sys, a: nat)
    requires Inv(s) && a in s.attempts && Started(s.attempts[a].phase)
    ensures ValidPointer(s.attempts[a].pointer) && s.attempts[a].pointer in s.saved
  {
    hide GlobsClaim, ValidPointer, Holding;
    assert Faithful(s, s.attempts[a]);
  }

  lemma LookFine(s: Sys, a: nat)
    requires Inv(s) && Enabled(s, Look(a))
    ensures Inv(Apply(s, Look(a)))
  {
    hide GlobsClaim, ValidPointer, Inv;
    var p := s.attempts[a].pointer;
    if p in Saved(s.files) {
      PendingIsSaved(s, p);
    }
    QuietStep(s, a, Apply(s, Look(a)).attempts[a].phase);
  }

  lemma AuthorizeFine(s: Sys, a: nat, known: bool, authorizer: Option<R.Authorizer>)
    requires Inv(s) && Enabled(s, Authorize(a, known, authorizer))
    ensures Inv(Apply(s, Authorize(a, known, authorizer)))
  {
    hide Passes, GlobsClaim, ValidPointer;
    assert Faithful(s, s.attempts[a]);
    QuietStep(s, a, Apply(s, Authorize(a, known, authorizer)).attempts[a].phase);
  }

  lemma ReadFine(s: Sys, a: nat)
    requires Inv(s) && Enabled(s, Read(a))
    ensures Inv(Apply(s, Read(a)))
    ensures Apply(s, Read(a)).attempts[a].phase.Running?
  {
    assert Faithful(s, s.attempts[a]) && Holding(s, s.attempts[a]);
    QuietStep(s, a, Apply(s, Read(a)).attempts[a].phase);
  }

  lemma GlobFine(s: Sys, a: nat)
    requires Inv(s) && Enabled(s, Glob(a))
    ensures Inv(Apply(s, Glob(a)))
  {
    hide GlobsClaim, ValidPointer;
    assert Faithful(s, s.attempts[a]) && Holding(s, s.attempts[a]);
    StartedIsValid(s, a);
    var phase := Apply(s, Glob(a)).attempts[a].phase;
    forall n | n in phase.left ensures n == s.attempts[a].phase.claim {
      OneClaim(s, a, n);
    }
    QuietStep(s, a, phase);
  }

  lemma ReturnFine(s: Sys, a: nat)
    requires Inv(s) && Enabled(s, Return(a))
    ensures Inv(Apply(s, Return(a)))
  {
    assert Faithful(s, s.attempts[a]) && Holding(s, s.attempts[a]);
    QuietStep(s, a, Apply(s, Return(a)).attempts[a].phase);
  }

  lemma CrashFine(s: Sys, a: nat)
    requires Inv(s) && Enabled(s, Crash(a))
    ensures Inv(Apply(s, Crash(a)))
  {
    assert Faithful(s, s.attempts[a]) && Holding(s, s.attempts[a]);
    QuietStep(s, a, Died(s.attempts[a].phase));
  }

  lemma ArriveFine(s: Sys, a: nat, pointer: string, identity: string)
    requires Inv(s) && a !in s.attempts
    ensures Inv(Apply(s, Arrive(a, pointer, identity)))
  {
    hide GlobsClaim, ValidPointer, Faithful, Holding;
    var t := Apply(s, Arrive(a, pointer, identity));
    forall p ensures StartedFor(t, p) == StartedFor(s, p) {
      if b :| b in s.attempts && s.attempts[b].pointer == p && Started(s.attempts[b].phase) {
        assert b in t.attempts && t.attempts[b] == s.attempts[b];
      }
    }
    forall p, name | ValidPointer(p) && name in t.files && GlobsClaim(p, name) ensures Owned(t, p, name) {
      var b :| b in s.attempts && s.attempts[b].pointer == p && Holds(s.attempts[b].phase, name);
      assert b in t.attempts && t.attempts[b] == s.attempts[b];
    }
    forall b | b in t.attempts ensures Faithful(t, t.attempts[b]) && Holding(t, t.attempts[b]) {
      if b == a {
        NewIsFine(t, t.attempts[a]);
      } else {
        FineSame(s, t, t.attempts[b]);
      }
    }
  }

  lemma NewIsFine(s: Sys, a: Attempt)
    requires a.phase.Arrived?
    ensures Faithful(s, a) && Holding(s, a)
  {
  }

  /** A step that turns the attempt away, and leaves everything else as it was. */
  lemma TurnAwayFine(s: Sys, a: nat)
    requires Inv(s) && a in s.attempts && !Started(s.attempts[a].phase)
    ensures Inv(MoveTo(s, a, TurnedAway))
  {
    hide GlobsClaim, ValidPointer, Inv;
    QuietStep(s, a, TurnedAway);
  }

  /** Renaming a pending file into a claim: the pointer's own name is gone, and one attempt holds the claim. */
  lemma ClaimFine(s: Sys, a: nat, suffix: string)
    requires Inv(s) && Enabled(s, Claim(a, suffix))
    ensures Inv(Apply(s, Claim(a, suffix)))
  {
    hide GlobsClaim, ValidPointer;
    var p := s.attempts[a].pointer;
    if ValidPointer(p) && p in s.files {
      ClaimOwners(s, a, suffix);
      ClaimAttempts(s, a, suffix);
      ClaimPending(s, a, suffix);
    } else {
      TurnAwayFine(s, a);
    }
  }

  lemma ClaimPending(s: Sys, a: nat, suffix: string)
    requires Inv(s) && Enabled(s, Claim(a, suffix)) && ValidPointer(s.attempts[a].pointer)
             && s.attempts[a].pointer in s.files
    ensures var t := Apply(s, Claim(a, suffix)); OneStarts(t) && PendingFine(t) && SavedFine(t) && DraftsFine(t)
  {
    hide ValidPointer, GlobsClaim, Faithful, Holding, ClaimsFine, AttemptsFine;
    var p := s.attempts[a].pointer;
    var t := Apply(s, Claim(a, suffix));
    NamesAreDisjoint(p, p, suffix, "");
    assert !StartedFor(s, p);
    forall q | q != p ensures StartedFor(t, q) == StartedFor(s, q) {
      if b :| b in s.attempts && s.attempts[b].pointer == q && Started(s.attempts[b].phase) {
        assert b in t.attempts && t.attempts[b] == s.attempts[b];
      }
    }
    assert StartedFor(t, p) by { assert a in t.attempts && Started(t.attempts[a].phase); }
  }

  lemma ClaimAttempts(s: Sys, a: nat, suffix: string)
    requires Inv(s) && Enabled(s, Claim(a, suffix)) && ValidPointer(s.attempts[a].pointer)
             && s.attempts[a].pointer in s.files
    ensures AttemptsFine(Apply(s, Claim(a, suffix)))
  {
    hide Inv, Faithful, Holding, ValidPointer;
    forall b | b in s.attempts
      ensures var t := Apply(s, Claim(a, suffix)); Faithful(t, t.attempts[b]) && Holding(t, t.attempts[b])
    {
      ClaimAttempt(s, a, suffix, b);
    }
  }

  lemma ClaimAttempt(s: Sys, a: nat, suffix: string, b: nat)
    requires Inv(s) && Enabled(s, Claim(a, suffix)) && ValidPointer(s.attempts[a].pointer)
             && s.attempts[a].pointer in s.files
    requires b in s.attempts
    ensures var t := Apply(s, Claim(a, suffix)); Faithful(t, t.attempts[b]) && Holding(t, t.attempts[b])
  {
    hide ValidPointer, GlobsClaim, Inv;
    var p := s.attempts[a].pointer;
    GlobIsExact(p, p, suffix, "");
    AttemptFine(s, b);
    AttemptFine(s, a);
    PendingNow(s, p, b);
    if Started(s.attempts[b].phase) {
      StartedIsValid(s, b);
      GlobIsExact(s.attempts[b].pointer, p, suffix, "");
    }
  }

  lemma AttemptFine(s: Sys, a: nat)
    requires Inv(s) && a in s.attempts
    ensures Faithful(s, s.attempts[a]) && Holding(s, s.attempts[a])
  {
    hide Faithful, Holding;
  }

  lemma PendingNow(s: Sys, p: string, a: nat)
    requires Inv(s) && p in s.files && ValidPointer(p) && a in s.attempts
    ensures p in s.saved && s.files[p] == Readable(s.saved[p])
            && (s.attempts[a].pointer == p ==> !Started(s.attempts[a].phase))
  {
    hide ValidPointer, Started, Faithful, Holding;
    assert !StartedFor(s, p);
  }

  lemma NoRival(s: Sys, a: nat, b: nat)
    requires Inv(s) && a in s.attempts && b in s.attempts && a != b
    ensures !Rivals(s.attempts[a], s.attempts[b])
  {
    hide Rivals, Faithful, Holding;
  }

  lemma ClaimOwners(s: Sys, a: nat, suffix: string)
    requires Inv(s) && Enabled(s, Claim(a, suffix)) && ValidPointer(s.attempts[a].pointer)
             && s.attempts[a].pointer in s.files
    ensures ClaimsFine(Apply(s, Claim(a, suffix)))
  {
    hide ValidPointer, GlobsClaim, Faithful, Holding;
    var p := s.attempts[a].pointer;
    var t, claim := Apply(s, Claim(a, suffix)), ClaimName(p, suffix);
    forall q, name | ValidPointer(q) && name in t.files && GlobsClaim(q, name) ensures Owned(t, q, name) {
      GlobIsExact(q, p, suffix, "");
      if name == claim {
        assert Holds(t.attempts[a].phase, claim);
      } else {
        var b :| b in s.attempts && s.attempts[b].pointer == q && Holds(s.attempts[b].phase, name);
        assert b in t.attempts && t.attempts[b] == s.attempts[b];
      }
    }
  }

  /** Removing a claim the attempt holds. */
  lemma RemoveFine(s: Sys, a: nat, name: string)
    requires Inv(s) && Enabled(s, Remove(a, name))
    ensures Inv(Apply(s, Remove(a, name)))
  {
    hide ValidPointer, GlobsClaim;
    RemoveOwners(s, a, name);
    RemoveAttempts(s, a, name);
    RemovePending(s, a, name);
  }

  lemma RemovePending(s: Sys, a: nat, name: string)
    requires Inv(s) && Enabled(s, Remove(a, name))
    ensures var t := Apply(s, Remove(a, name)); OneStarts(t) && PendingFine(t) && SavedFine(t) && DraftsFine(t)
  {
    hide ValidPointer, GlobsClaim, Faithful;
    var t := Apply(s, Remove(a, name));
    assert Holding(s, s.attempts[a]);
    StartedIsValid(s, a);
    RemovedIsClaim(s.attempts[a].pointer, name);
    SamePending(s, t);
  }

  /** Steps that leave pending files, saved states and who has started as they were. */
  lemma SamePending(s: Sys, t: Sys)
    requires OneStarts(s) && PendingFine(s) && SavedFine(s) && DraftsFine(s) && t.saved == s.saved
             && t.drafts == s.drafts
    requires s.attempts.Keys == t.attempts.Keys
    requires forall a :: a in s.attempts ==>
      s.attempts[a].pointer == t.attempts[a].pointer && Started(s.attempts[a].phase) == Started(t.attempts[a].phase)
    requires forall p :: ValidPointer(p) ==>
               (p in s.files <==> p in t.files) && (p in s.files ==> s.files[p] == t.files[p])
    ensures OneStarts(t) && PendingFine(t) && SavedFine(t) && DraftsFine(t)
  {
    hide ValidPointer, Started;
    forall q ensures StartedFor(t, q) == StartedFor(s, q) {
      StartedSame(s, t, q);
    }
    assert forall a, b :: a in t.attempts && b in t.attempts && Rivals(t.attempts[a], t.attempts[b]) ==>
             Rivals(s.attempts[a], s.attempts[b]);
  }

  lemma RemovedIsClaim(p: string, name: string)
    requires ValidPointer(p) && GlobsClaim(p, name)
    ensures !ValidPointer(name)
    ensures forall q :: ValidPointer(q) && GlobsClaim(q, name) ==> q == p
  {
    GlobbedName(p, name);
    forall q | ValidPointer(q) && GlobsClaim(q, name) ensures q == p {
      GlobbedName(q, name);
      PointerHasNoDot(p);
      PointerHasNoDot(q);
      OneFirstDot(p, q, name);
    }
    if ValidPointer(name) {
      PointerHasNoDot(name);
    }
  }

  lemma RemoveAttempts(s: Sys, a: nat, name: string)
    requires Inv(s) && Enabled(s, Remove(a, name))
    ensures AttemptsFine(Apply(s, Remove(a, name)))
  {
    hide Inv, Faithful, Holding;
    forall b | b in s.attempts
      ensures var t := Apply(s, Remove(a, name)); Faithful(t, t.attempts[b]) && Holding(t, t.attempts[b])
    {
      RemoveAttempt(s, a, name, b);
    }
  }

  lemma RemoveAttempt(s: Sys, a: nat, name: string, b: nat)
    requires Inv(s) && Enabled(s, Remove(a, name)) && b in s.attempts
    ensures var t := Apply(s, Remove(a, name)); Faithful(t, t.attempts[b]) && Holding(t, t.attempts[b])
  {
    hide ValidPointer, GlobsClaim, Inv;
    AttemptFine(s, a);
    AttemptFine(s, b);
    StartedIsValid(s, a);
    RemovedIsClaim(s.attempts[a].pointer, name);
    if b != a && Started(s.attempts[b].phase) {
      StartedIsValid(s, b);
      NoRival(s, a, b);
      assert !GlobsClaim(s.attempts[b].pointer, name);
    }
  }

  lemma RemoveOwners(s: Sys, a: nat, name: string)
    requires Inv(s) && Enabled(s, Remove(a, name))
    ensures ClaimsFine(Apply(s, Remove(a, name)))
  {
    hide ValidPointer, GlobsClaim, Faithful, Holding;
    var t := Apply(s, Remove(a, name));
    forall q, n | ValidPointer(q) && n in t.files && GlobsClaim(q, n) ensures Owned(t, q, n) {
      var b :| b in s.attempts && s.attempts[b].pointer == q && Holds(s.attempts[b].phase, n);
      assert b in t.attempts && Holds(t.attempts[b].phase, n);
    }
  }

  /** A temporary file is nobody's pending state and nobody's claim. */
  lemma DraftFine(s: Sys, random: string, state: State)
    requires Inv(s) && Enabled(s, Draft(random, state))
    ensures Inv(Apply(s, Draft(random, state)))
  {
    hide ValidPointer, GlobsClaim, Faithful, Holding, Started, Holds;
    var t := Apply(s, Draft(random, state));
    TempIsNeither(random);
    forall q ensures StartedFor(t, q) == StartedFor(s, q) {
      StartedSame(s, t, q);
    }
    forall b | b in t.attempts ensures Faithful(t, t.attempts[b]) && Holding(t, t.attempts[b]) {
      DraftAttempt(s, random, state, b);
    }
    forall q, n | ValidPointer(q) && n in t.files && GlobsClaim(q, n) ensures Owned(t, q, n) {
      assert Owned(s, q, n);
    }
  }

  lemma DraftAttempt(s: Sys, random: string, state: State, b: nat)
    requires Inv(s) && Enabled(s, Draft(random, state)) && b in s.attempts
    ensures var t := Apply(s, Draft(random, state)); Faithful(t, t.attempts[b]) && Holding(t, t.attempts[b])
  {
    hide ValidPointer, GlobsClaim;
    assert Faithful(s, s.attempts[b]) && Holding(s, s.attempts[b]);
  }

  lemma TempIsNeither(random: string)
    ensures !ValidPointer(TempName(random))
    ensures forall p :: ValidPointer(p) ==> !GlobsClaim(p, TempName(random))
  {
    assert ValidPointer("p");
    NamesAreDisjoint("p", "p", "", random);
    forall p | ValidPointer(p) ensures !GlobsClaim(p, TempName(random)) {
      GlobIsExact(p, p, "", random);
    }
  }

  /** The commit makes a fresh pointer pending. */
  lemma CommitFine(s: Sys, random: string)
    requires Inv(s) && Enabled(s, Commit(random))
    ensures Inv(Apply(s, Commit(random)))
  {
    CommitAttempts(s, random);
    CommitOwners(s, random);
    CommitPending(s, random);
  }

  lemma CommitPending(s: Sys, random: string)
    requires Inv(s) && Enabled(s, Commit(random))
    ensures var t := Apply(s, Commit(random)); OneStarts(t) && PendingFine(t) && SavedFine(t) && DraftsFine(t)
  {
    hide ValidPointer, GlobsClaim, Faithful, Holding, Started, AttemptsFine, ClaimsFine;
    var t, p := Apply(s, Commit(random)), s.drafts[random].pointer;
    TempIsNeither(random);
    FreshNotStarted(s, p);
    MorePending(s, t, s.drafts[random]);
  }

  /** A fresh pointer joins the pending ones. */
  lemma MorePending(s: Sys, t: Sys, state: State)
    requires OneStarts(s) && PendingFine(s) && SavedFine(s) && DraftsFine(s) && t.attempts == s.attempts
    requires ValidPointer(state.pointer) && !StartedFor(s, state.pointer) && state.pointer !in s.saved
    requires t.saved == s.saved[state.pointer := state]
             && (forall r :: r in t.drafts ==> r in s.drafts && t.drafts[r] == s.drafts[r])
    requires forall p :: ValidPointer(p) ==>
      (p in t.files <==> p in s.files || p == state.pointer)
      && (p in t.files ==> t.files[p] == if p == state.pointer then Readable(state) else s.files[p])
    ensures OneStarts(t) && PendingFine(t) && SavedFine(t) && DraftsFine(t)
  {
    hide ValidPointer, Started, StartedFor;
    forall q ensures StartedFor(t, q) == StartedFor(s, q) {
      StartedSame(s, t, q);
    }
    assert OneStarts(t) by { SameRivals(s, t); }
    assert PendingFine(t);
    assert SavedFine(t);
  }

  lemma SameRivals(s: Sys, t: Sys)
    requires t.attempts == s.attempts && OneStarts(s)
    ensures OneStarts(t)
  {
    hide Rivals;
  }

  lemma CommitOwners(s: Sys, random: string)
    requires Inv(s) && Enabled(s, Commit(random))
    ensures ClaimsFine(Apply(s, Commit(random)))
  {
    hide ValidPointer, GlobsClaim, Faithful, Holding, Started, Holds, AttemptsFine, PendingFine;
    var t, p := Apply(s, Commit(random)), s.drafts[random].pointer;
    TempIsNeither(random);
    forall q, n | ValidPointer(q) && n in t.files && GlobsClaim(q, n) ensures Owned(t, q, n) {
      GlobIsExact(q, p, "", "");
      assert n in s.files;
      assert Owned(s, q, n);
    }
  }

  lemma FreshNotStarted(s: Sys, p: string)
    requires Inv(s) && p !in s.saved
    ensures !StartedFor(s, p)
  {
    forall a | a in s.attempts && s.attempts[a].pointer == p ensures !Started(s.attempts[a].phase) {
      assert Faithful(s, s.attempts[a]);
    }
  }

  lemma CommitAttempts(s: Sys, random: string)
    requires Inv(s) && Enabled(s, Commit(random))
    ensures AttemptsFine(Apply(s, Commit(random)))
  {
    hide ValidPointer, GlobsClaim;
    var t, p := Apply(s, Commit(random)), s.drafts[random].pointer;
    TempIsNeither(random);
    forall b | b in t.attempts ensures Faithful(t, t.attempts[b]) && Holding(t, t.attempts[b]) {
      assert Faithful(s, s.attempts[b]) && Holding(s, s.attempts[b]);
      if Started(s.attempts[b].phase) {
        StartedIsValid(s, b);
        GlobIsExact(s.attempts[b].pointer, p, "", random);
      }
    }
  }

  lemma StepFine(s: Sys, e: Event)
    requires Inv(s) && Enabled(s, e)
    ensures Inv(Apply(s, e))
  {
    hide Inv, Apply, Enabled;
    match e
    case Arrive(a, pointer, identity) =>
      ArrivesNew(s, a, pointer, identity);
      ArriveFine(s, a, pointer, identity);
    case Look(a) => LookFine(s, a);
    case Authorize(a, known, authorizer) => AuthorizeFine(s, a, known, authorizer);
    case Claim(a, suffix) => ClaimFine(s, a, suffix);
    case Read(a) => ReadFine(s, a);
    case Glob(a) => GlobFine(s, a);
    case Remove(a, name) => RemoveFine(s, a, name);
    case Return(a) => ReturnFine(s, a);
    case Crash(a) => CrashFine(s, a);
    case Draft(random, state) => DraftFine(s, random, state);
    case Commit(random) => CommitFine(s, random);
  }

  lemma ArrivesNew(s: Sys, a: nat, pointer: string, identity: string)
    requires Enabled(s, Arrive(a, pointer, identity))
    ensures a !in s.attempts
  {
  }

  // ----- Every run of the protocol -----

  ghost predicate Possible(s: Sys, es: seq<Event>)
    decreases |es|
  {
    es == [] || (Enabled(s, es[0]) && Possible(Apply(s, es[0]), es[1..]))
  }

  ghost function Reached(s: Sys, es: seq<Event>): Sys
    requires Possible(s, es)
    decreases |es|
  {
    if es == [] then s else Reached(Apply(s, es[0]), es[1..])
  }

  lemma {:induction false} RunsFine(s: Sys, es: seq<Event>)
    requires Inv(s) && Possible(s, es)
    ensures Inv(Reached(s, es))
    decreases |es|
  {
    hide Inv, Apply, Enabled;
    if es != [] {
      StepFine(s, es[0]);
      RunsFine(Apply(s, es[0]), es[1..]);
    }
  }

  ghost predicate IsClaim(s: Sys, p: string, name: string)
  {
    name in s.files && GlobsClaim(p, name)
  }

  ghost predicate Pending(s: Sys, p: string)
    requires p in s.saved
  {
    p in s.files && s.files[p] == Readable(s.saved[p]) && (forall name :: !IsClaim(s, p, name)) && !StartedFor(s, p)
  }

  /** Held by one claim, which the one attempt that got past it made: in flight, or of a process that stopped. */
  ghost predicate HeldOnce(s: Sys, p: string)
    requires p in s.saved
  {
    p !in s.files && exists a, name ::
      && a in s.attempts && s.attempts[a].pointer == p && Holds(s.attempts[a].phase, name)
      && IsClaim(s, p, name) && s.files[name] == Readable(s.saved[p])
      && forall other :: IsClaim(s, p, other) ==> other == name
  }

  predicate HasReleased(p: Phase)
  {
    Last(p).Finished? || (Last(p).Releasing? && Last(p).left == {})
  }

  ghost predicate Released(s: Sys, p: string)
  {
    && p !in s.files && (forall name :: !IsClaim(s, p, name))
    && exists a :: a in s.attempts && s.attempts[a].pointer == p && HasReleased(s.attempts[a].phase)
  }

  /** What the run of an attempt went on with. */
  predicate RanWith(a: Attempt, state: State)
  {
    var q := Last(a.phase);
    (q.Running? || q.Releasing? || q.Finished?) && q.found == state
  }

  lemma HeldIsRight(s: Sys, p: string, name: string)
    requires Inv(s) && p in s.saved && IsClaim(s, p, name)
    ensures HeldOnce(s, p)
  {
    hide GlobsClaim, ValidPointer;
    var a :| a in s.attempts && s.attempts[a].pointer == p && Holds(s.attempts[a].phase, name);
    assert Faithful(s, s.attempts[a]) && Holding(s, s.attempts[a]);
    forall other | IsClaim(s, p, other) ensures other == name {
      OneClaim(s, a, other);
    }
    ClaimContent(s, a, name);
    assert p !in s.files;
  }

  /** What a claim holds is the saved state, also while it is being released. */
  lemma ClaimContent(s: Sys, a: nat, name: string)
    requires Inv(s) && a in s.attempts && Holds(s.attempts[a].phase, name)
    ensures name in s.files && s.attempts[a].pointer in s.saved
            && s.files[name] == Readable(s.saved[s.attempts[a].pointer])
  {
    hide GlobsClaim, ValidPointer;
    assert Faithful(s, s.attempts[a]) && Holding(s, s.attempts[a]);
  }

  lemma ReleasedIsRight(s: Sys, p: string)
    requires Inv(s) && p in s.saved && p !in s.files && forall name :: !IsClaim(s, p, name)
    ensures Released(s, p)
  {
    hide GlobsClaim, ValidPointer;
    assert StartedFor(s, p);
    var a :| a in s.attempts && s.attempts[a].pointer == p && Started(s.attempts[a].phase);
    assert Faithful(s, s.attempts[a]) && Holding(s, s.attempts[a]);
    HolderHasClaim(s, a);
    assert HasReleased(s.attempts[a].phase);
  }

  lemma HolderHasClaim(s: Sys, a: nat)
    requires Inv(s) && a in s.attempts
    ensures var q := Last(s.attempts[a].phase);
            && (q.Claimed? || q.Running? ==> IsClaim(s, s.attempts[a].pointer, q.claim))
            && (q.Releasing? && q.left != {} ==> exists n :: IsClaim(s, s.attempts[a].pointer, n))
  {
    hide GlobsClaim, ValidPointer;
    assert Holding(s, s.attempts[a]);
    var q := Last(s.attempts[a].phase);
    if q.Releasing? && q.left != {} {
      var n :| n in q.left;
      assert IsClaim(s, s.attempts[a].pointer, n);
    }
  }

  lemma PendingIsRight(s: Sys, p: string)
    requires Inv(s) && p in s.saved && p in s.files
    ensures Pending(s, p)
  {
    hide GlobsClaim, ValidPointer;
    assert forall name :: IsClaim(s, p, name) ==> Owned(s, p, name);
    assert forall name :: Owned(s, p, name) ==> StartedFor(s, p);
  }

  // ----- Nobody gets past unauthorised -----

  predicate Past(s: Sys, a: nat)
  {
    a in s.attempts && Started(s.attempts[a].phase)
  }

  predicate Admits(e: Event, a: nat, state: State, identity: string)
  {
    e.Authorize? && e.a == a && Passes(e.known, e.authorizer, state, identity)
  }

  /** At some point this attempt was checked against this state and let through. */
  ghost predicate AuthorizedIn(es: seq<Event>, a: nat, state: State, identity: string)
  {
    exists e :: e in es && Admits(e, a, state, identity)
  }

  /** The attempt has been let through, whether or not it got past its claim. */
  predicate LetThrough(s: Sys, a: nat)
  {
    a in s.attempts && (Last(s.attempts[a].phase).Cleared? || Started(s.attempts[a].phase))
  }

  /** The attempt is let through now, for the same identity and on the same state as it is later. */
  predicate AlreadyLet(s: Sys, t: Sys, a: nat)
    requires LetThrough(t, a)
  {
    LetThrough(s, a) && s.attempts[a].identity == t.attempts[a].identity
      && s.attempts[a].pointer == t.attempts[a].pointer
      && Last(s.attempts[a].phase).state == Last(t.attempts[a].phase).state
  }

  lemma LetThroughByCheck(s: Sys, e: Event, a: nat)
    requires Enabled(s, e) && LetThrough(Apply(s, e), a)
    ensures var t := Apply(s, e);
            AlreadyLet(s, t, a) || Admits(e, a, Last(t.attempts[a].phase).state, t.attempts[a].identity)
  {
    hide GlobsClaim, ValidPointer, ClaimName, TempName, Hex, Saved, Passes;
  }

  lemma {:induction false} AuthorizedBefore(s: Sys, es: seq<Event>, a: nat)
    requires Possible(s, es) && LetThrough(Reached(s, es), a)
    ensures var t := Reached(s, es);
            AlreadyLet(s, t, a) || AuthorizedIn(es, a, Last(t.attempts[a].phase).state, t.attempts[a].identity)
    decreases |es|
  {
    hide Apply, Enabled, Admits;
    if es != [] {
      var t, end := Apply(s, es[0]), Reached(s, es);
      AuthorizedBefore(t, es[1..], a);
      if AlreadyLet(t, end, a) {
        LetThroughByCheck(s, es[0], a);
        assert es[0] in es;
      } else {
        var e :| e in es[1..] && Admits(e, a, Last(end.attempts[a].phase).state, end.attempts[a].identity);
        assert e in es;
      }
    }
  }

  lemma AttemptArrived(s: Sys, e: Event, a: nat)
    requires Enabled(s, e) && a in Apply(s, e).attempts
    ensures var attempt := Apply(s, e).attempts[a];
            || (a in s.attempts && s.attempts[a].pointer == attempt.pointer
                && s.attempts[a].identity == attempt.identity)
            || e == Arrive(a, attempt.pointer, attempt.identity)
  {
    hide GlobsClaim, ValidPointer, ClaimName, TempName, Hex, Saved, Passes;
  }

  /** Attempts keep the pointer and the identity they arrived with. */
  lemma {:induction false} AttemptsArrived(s: Sys, es: seq<Event>, a: nat)
    requires Possible(s, es) && a in Reached(s, es).attempts
    ensures var attempt := Reached(s, es).attempts[a];
            || (a in s.attempts && s.attempts[a].pointer == attempt.pointer
                && s.attempts[a].identity == attempt.identity)
            || Arrive(a, attempt.pointer, attempt.identity) in es
    decreases |es|
  {
    hide Apply, Enabled;
    if es != [] {
      var t := Apply(s, es[0]);
      AttemptsArrived(t, es[1..], a);
      assert es == [es[0]] + es[1..];
      if a in t.attempts {
        AttemptArrived(s, es[0], a);
      }
    }
  }

  /** Whatever the interleaving, and however authorizers change their minds: an attempt gets past the claim of a state
      only if it arrived with that pointer and identity, and at some point its workflow still had the suspended leaf
      and, where the state has an audience, the authorizer of that moment, asked about exactly this suspension and this
      identity, allowed it. */
  lemma NobodyGetsPast(es: seq<Event>, a: nat)
    requires Possible(INITIAL, es) && Past(Reached(INITIAL, es), a)
    ensures var s := Reached(INITIAL, es);
            var attempt := s.attempts[a];
            && attempt.pointer in s.saved && Arrive(a, attempt.pointer, attempt.identity) in es
            && exists e :: e in es && e.Authorize? && e.a == a && e.known
                           && R.Authorised(e.authorizer, s.saved[attempt.pointer], attempt.identity)
  {
    hide Reached, Possible, GlobsClaim, ValidPointer, Inv, R.Authorised;
    InitialFine();
    RunsFine(INITIAL, es);
    var s := Reached(INITIAL, es);
    FaithfulNow(s, a);
    AttemptsArrived(INITIAL, es, a);
    AuthorizedBefore(INITIAL, es, a);
    var state, identity := s.saved[s.attempts[a].pointer], s.attempts[a].identity;
    var e :| e in es && Admits(e, a, state, identity);
    assert R.Authorised(e.authorizer, state, identity);
  }

  lemma SaveWasDrafted(s: Sys, e: Event, p: string, state: State)
    requires Enabled(s, e)
    ensures var t := Apply(s, e);
            && (p in t.saved && t.saved[p] == state ==>
                  (p in s.saved && s.saved[p] == state) || exists r :: r in s.drafts && s.drafts[r] == state)
            && forall r :: r in t.drafts && t.drafts[r] == state ==>
                 (r in s.drafts && s.drafts[r] == state) || e == Draft(r, state)
  {
    hide GlobsClaim, ValidPointer, ClaimName, TempName, Hex, Saved, Passes;
    if e.Commit? && e.random in s.drafts {
      assert s.drafts[e.random].pointer == p ==> Apply(s, e).saved[p] == s.drafts[e.random];
    }
  }

  /** Every saved state is one that somebody set out to save. */
  lemma {:induction false} SavesWereDrafted(s: Sys, es: seq<Event>, p: string)
    requires Possible(s, es) && p in Reached(s, es).saved
    ensures var state := Reached(s, es).saved[p];
            || (p in s.saved && s.saved[p] == state)
            || exists random ::
                 (random in s.drafts && s.drafts[random] == state) || Draft(random, state) in es
    decreases |es|
  {
    hide Apply, Enabled;
    if es != [] {
      var t, state := Apply(s, es[0]), Reached(s, es).saved[p];
      SavesWereDrafted(t, es[1..], p);
      SaveWasDrafted(s, es[0], p, state);
      assert es == [es[0]] + es[1..];
      if !(p in s.saved && s.saved[p] == state) && !(p in t.saved && t.saved[p] == state) {
        var random :| (random in t.drafts && t.drafts[random] == state) || Draft(random, state) in es[1..];
        assert (random in s.drafts && s.drafts[random] == state) || Draft(random, state) in es;
      }
    }
  }

  // ----- An attempt on its own -----

  /** The steps of an attempt that nothing gets in the way of. */
  function Course(a: nat, p: string, identity: string, authorizer: Option<R.Authorizer>, suffix: string): seq<Event>
  {
    [Arrive(a, p, identity), Look(a), Authorize(a, true, authorizer), Claim(a, suffix), Read(a), Glob(a),
     Remove(a, ClaimName(p, suffix)), Return(a)]
  }

  /** The system with this attempt at this point, over this directory. */
  function With(s: Sys, a: nat, p: string, identity: string, phase: Phase, files: Files): Sys
  {
    s.(attempts := s.attempts[a := Attempt(p, identity, phase)], files := files)
  }

  lemma {:induction false} OneMore(s: Sys, t: Sys, e: Event, es: seq<Event>)
    requires Enabled(s, e) && Apply(s, e) == t && Possible(t, es)
    ensures Possible(s, [e] + es) && Reached(s, [e] + es) == Reached(t, es)
  {
    hide Enabled, Apply;
    assert ([e] + es)[0] == e && ([e] + es)[1..] == es;
  }

  /** Looking the pointer up and being let through. */
  lemma LooksUp(s: Sys, a: nat, p: string, identity: string, authorizer: Option<R.Authorizer>)
    requires p in s.files && ValidPointer(p) && s.files[p].Readable? && a !in s.attempts
    requires R.Authorised(authorizer, s.files[p].state, identity)
    ensures var state := s.files[p].state;
            var s1, s2, s3 := With(s, a, p, identity, Arrived, s.files),
              With(s, a, p, identity, Loaded(state), s.files),
              With(s, a, p, identity, Cleared(state), s.files);
            && Enabled(s, Arrive(a, p, identity)) && Apply(s, Arrive(a, p, identity)) == s1
            && Enabled(s1, Look(a)) && Apply(s1, Look(a)) == s2
            && Enabled(s2, Authorize(a, true, authorizer)) && Apply(s2, Authorize(a, true, authorizer)) == s3
  {
    hide ValidPointer, R.Authorised;
    assert Saved(s.files)[p] == s.files[p].state;
  }

  /** Claiming the pending file and reading it back. */
  lemma TakesIt(s: Sys, a: nat, p: string, identity: string, suffix: string, state: State)
    requires p in s.files && ValidPointer(p) && s.files[p] == Readable(state)
    requires Hex(suffix) && ClaimName(p, suffix) !in s.files
    ensures var claim := ClaimName(p, suffix);
            var files := (s.files - {p})[claim := s.files[p]];
            var s3, s4, s5 := With(s, a, p, identity, Cleared(state), s.files),
              With(s, a, p, identity, Claimed(state, claim), files),
              With(s, a, p, identity, Running(state, state, claim), files);
            && Enabled(s3, Claim(a, suffix)) && Apply(s3, Claim(a, suffix)) == s4
            && Enabled(s4, Read(a)) && Apply(s4, Read(a)) == s5
  {
    hide ValidPointer, ClaimName, Hex;
  }

  /** Releasing the one claim there is. */
  lemma GivesBack(s: Sys, a: nat, p: string, identity: string, claim: string, state: State, files: Files)
    requires claim in files && forall name :: name in files && GlobsClaim(p, name) <==> name == claim
    ensures var s5, s6, s7, s8 := With(s, a, p, identity, Running(state, state, claim), files),
              With(s, a, p, identity, Releasing(state, state, {claim}), files),
              With(s, a, p, identity, Releasing(state, state, {}), files - {claim}),
              With(s, a, p, identity, Finished(state, state), files - {claim});
            && Enabled(s5, Glob(a)) && Apply(s5, Glob(a)) == s6
            && Enabled(s6, Remove(a, claim)) && Apply(s6, Remove(a, claim)) == s7
            && Enabled(s7, Return(a)) && Apply(s7, Return(a)) == s8
  {
    hide GlobsClaim;
    assert (set name | name in files && GlobsClaim(p, name)) == {claim};
    assert {claim} - {claim} == {};
  }

  /** From any state that can be reached, an authorised attempt on a pending pointer can go through to its end: it runs
      on the saved state, and then the pointer is released and nothing else has changed. */
  lemma AttemptsCanFinish(s: Sys, a: nat, p: string, identity: string, authorizer: Option<R.Authorizer>,
                          suffix: string)
    requires Inv(s) && p in s.saved && Pending(s, p) && a !in s.attempts
    requires R.Authorised(authorizer, s.saved[p], identity) && Hex(suffix) && ClaimName(p, suffix) !in s.files
    ensures Possible(s, Course(a, p, identity, authorizer, suffix))
    ensures var t := Reached(s, Course(a, p, identity, authorizer, suffix));
            && Released(t, p) && t.files == s.files - {p} && t.saved == s.saved && t.drafts == s.drafts
            && t.attempts == s.attempts[a := Attempt(p, identity, Finished(s.saved[p], s.saved[p]))]
  {
    hide Enabled, Apply, GlobsClaim, ValidPointer, ClaimName, Hex, R.Authorised, AttemptsFine, OneStarts, ClaimsFine;
    var claim, state := ClaimName(p, suffix), s.saved[p];
    var files := (s.files - {p})[claim := s.files[p]];
    LooksUp(s, a, p, identity, authorizer);
    TakesIt(s, a, p, identity, suffix, state);
    GlobIsExact(p, p, suffix, "");
    forall name ensures name in files && GlobsClaim(p, name) <==> name == claim {
      assert !IsClaim(s, p, name);
    }
    GivesBack(s, a, p, identity, claim, state, files);
    Courses(s, a, p, identity, authorizer, suffix, state, files);
    assert files - {claim} == s.files - {p};
    assert With(s, a, p, identity, Finished(state, state), files - {claim}).attempts[a].pointer == p;
    assert HasReleased(Finished(state, state));
    forall name ensures !IsClaim(With(s, a, p, identity, Finished(state, state), files - {claim}), p, name) {
      assert !IsClaim(s, p, name);
    }
  }

  lemma {:induction false} Courses(s: Sys, a: nat, p: string, identity: string, authorizer: Option<R.Authorizer>,
                                   suffix: string, state: State, files: Files)
    requires var claim := ClaimName(p, suffix);
             var s1, s2, s3 := With(s, a, p, identity, Arrived, s.files),
               With(s, a, p, identity, Loaded(state), s.files), With(s, a, p, identity, Cleared(state), s.files);
             var s4, s5 := With(s, a, p, identity, Claimed(state, claim), files),
               With(s, a, p, identity, Running(state, state, claim), files);
             var s6, s7, s8 := With(s, a, p, identity, Releasing(state, state, {claim}), files),
               With(s, a, p, identity, Releasing(state, state, {}), files - {claim}),
               With(s, a, p, identity, Finished(state, state), files - {claim});
             && Enabled(s, Arrive(a, p, identity)) && Apply(s, Arrive(a, p, identity)) == s1
             && Enabled(s1, Look(a)) && Apply(s1, Look(a)) == s2
             && Enabled(s2, Authorize(a, true, authorizer)) && Apply(s2, Authorize(a, true, authorizer)) == s3
             && Enabled(s3, Claim(a, suffix)) && Apply(s3, Claim(a, suffix)) == s4
             && Enabled(s4, Read(a)) && Apply(s4, Read(a)) == s5 && Enabled(s5, Glob(a)) && Apply(s5, Glob(a)) == s6
             && Enabled(s6, Remove(a, claim)) && Apply(s6, Remove(a, claim)) == s7
             && Enabled(s7, Return(a)) && Apply(s7, Return(a)) == s8
    ensures Possible(s, Course(a, p, identity, authorizer, suffix))
    ensures Reached(s, Course(a, p, identity, authorizer, suffix))
         == With(s, a, p, identity, Finished(state, state), files - {ClaimName(p, suffix)})
  {
    hide Enabled, Apply, ClaimName, With;
    var claim := ClaimName(p, suffix);
    var s7, s8 := With(s, a, p, identity, Releasing(state, state, {}), files - {claim}),
      With(s, a, p, identity, Finished(state, state), files - {claim});
    var s6 := With(s, a, p, identity, Releasing(state, state, {claim}), files);
    var s5 := With(s, a, p, identity, Running(state, state, claim), files);
    var s4, s3 := With(s, a, p, identity, Claimed(state, claim), files),
      With(s, a, p, identity, Cleared(state), s.files);
    var s2, s1 := With(s, a, p, identity, Loaded(state), s.files), With(s, a, p, identity, Arrived, s.files);
    assert Possible(s8, []) && Reached(s8, []) == s8;
    OneMore(s7, s8, Return(a), []);
    var es := [Return(a)] + [];
    OneMore(s6, s7, Remove(a, claim), es);
    es := [Remove(a, claim)] + es;
    OneMore(s5, s6, Glob(a), es);
    es := [Glob(a)] + es;
    OneMore(s4, s5, Read(a), es);
    es := [Read(a)] + es;
    OneMore(s3, s4, Claim(a, suffix), es);
    es := [Claim(a, suffix)] + es;
    OneMore(s2, s3, Authorize(a, true, authorizer), es);
    es := [Authorize(a, true, authorizer)] + es;
    OneMore(s1, s2, Look(a), es);
    es := [Look(a)] + es;
    OneMore(s, s1, Arrive(a, p, identity), es);
    assert [Arrive(a, p, identity)] + es == Course(a, p, identity, authorizer, suffix);
  }

  /** However many processes load, check, claim, run, release and stop, in whatever order: each saved pointer is
      pending, or held by one claim whose owner is in flight or died before releasing it, or released; at most one
      attempt ever gets past the claim of a pointer; every saved state is one somebody set out to save; and what that
      attempt runs is the state that was saved, which is the state that was checked. */
  lemma PointersAreSafe(es: seq<Event>)
    requires Possible(INITIAL, es)
    ensures var s := Reached(INITIAL, es);
            && (forall p :: p in s.saved ==> Pending(s, p) || HeldOnce(s, p) || Released(s, p))
            && (forall p :: p in s.saved ==>
                !(Pending(s, p) && HeldOnce(s, p)) && !(Pending(s, p) && Released(s, p))
                  && !(HeldOnce(s, p) && Released(s, p)))
            && (forall p :: p in s.saved ==> exists random :: Draft(random, s.saved[p]) in es)
            && (forall a, b :: a in s.attempts && b in s.attempts && Rivals(s.attempts[a], s.attempts[b]) ==> a == b)
            && (forall a, state :: a in s.attempts && RanWith(s.attempts[a], state) ==>
                  && s.attempts[a].pointer in s.saved && state == s.saved[s.attempts[a].pointer]
                  && Last(s.attempts[a].phase).state == state && AuthorizedIn(es, a, state, s.attempts[a].identity))
  {
    hide Reached, Possible, GlobsClaim, ValidPointer, Inv;
    InitialFine();
    RunsFine(INITIAL, es);
    var s := Reached(INITIAL, es);
    forall p | p in s.saved
      ensures Pending(s, p) || HeldOnce(s, p) || Released(s, p)
      ensures exists random :: Draft(random, s.saved[p]) in es
    {
      SavesWereDrafted(INITIAL, es, p);
      if p in s.files {
        PendingIsRight(s, p);
      } else if name :| IsClaim(s, p, name) {
        HeldIsRight(s, p, name);
      } else {
        ReleasedIsRight(s, p);
      }
    }
    RivalsAreOne(s);
    forall a, state | a in s.attempts && RanWith(s.attempts[a], state)
      ensures && s.attempts[a].pointer in s.saved && state == s.saved[s.attempts[a].pointer]
              && Last(s.attempts[a].phase).state == state && AuthorizedIn(es, a, state, s.attempts[a].identity)
    {
      FaithfulNow(s, a);
      AuthorizedBefore(INITIAL, es, a);
    }
  }

  lemma RivalsAreOne(s: Sys)
    requires Inv(s)
    ensures forall a, b :: a in s.attempts && b in s.attempts && Rivals(s.attempts[a], s.attempts[b]) ==> a == b
  {
    hide Rivals;
  }

  lemma FaithfulNow(s: Sys, a: nat)
    requires Inv(s) && a in s.attempts
    ensures Faithful(s, s.attempts[a])
  {
    hide Faithful, Holding;
  }

  // ----- Attempts that never get past their claim -----

  predicate Of(e: Event, a: nat)
  {
    !e.Draft? && !e.Commit? && e.a == a
  }

  /** The events of everybody else. */
  function Others(es: seq<Event>, a: nat): seq<Event>
  {
    if es == [] then [] else (if Of(es[0], a) then [] else [es[0]]) + Others(es[1..], a)
  }

  function Without(s: Sys, a: nat): Sys
  {
    s.(attempts := s.attempts - {a})
  }

  lemma StaysPast(s: Sys, e: Event, a: nat)
    requires Inv(s) && Enabled(s, e) && Past(s, a)
    ensures var t := Apply(s, e); Past(t, a) && t.attempts[a].pointer == s.attempts[a].pointer
  {
    hide GlobsClaim, ValidPointer, Inv;
    if e.Read? {
      ReadFine(s, e.a);
    }
  }

  lemma {:induction false} StaysPastIt(s: Sys, es: seq<Event>, a: nat)
    requires Inv(s) && Possible(s, es) && Past(s, a)
    ensures Past(Reached(s, es), a)
    decreases |es|
  {
    hide Inv, Apply, Enabled, Past;
    if es != [] {
      StepFine(s, es[0]);
      StaysPast(s, es[0], a);
      StaysPastIt(Apply(s, es[0]), es[1..], a);
    }
  }

  /** A step of an attempt that is not past its claim afterwards changes nothing but that attempt. */
  lemma OwnStep(s: Sys, e: Event, a: nat)
    requires Enabled(s, e) && Of(e, a) && !Past(s, a) && !Past(Apply(s, e), a)
    ensures Without(Apply(s, e), a) == Without(s, a)
  {
    hide GlobsClaim, ValidPointer;
    assert Without(Apply(s, e), a).attempts == Without(s, a).attempts;
  }

  lemma OthersEnabled(s: Sys, e: Event, a: nat)
    requires Enabled(s, e) && !Of(e, a)
    ensures Enabled(Without(s, a), e)
  {
    hide GlobsClaim, ValidPointer, ClaimName, TempName, Hex;
  }

  /** A step of anybody else does not depend on it. */
  lemma OthersStep(s: Sys, e: Event, a: nat)
    requires Enabled(s, e) && !Of(e, a)
    ensures Enabled(Without(s, a), e) && Apply(Without(s, a), e) == Without(Apply(s, e), a)
  {
    hide GlobsClaim, ValidPointer, ClaimName, TempName, Hex, Saved, Passes;
    OthersEnabled(s, e, a);
    var t, t' := Apply(s, e), Apply(Without(s, a), e);
    if e.Draft? || e.Commit? {
      assert t'.attempts == Without(t, a).attempts;
    } else {
      assert t.attempts == s.attempts[e.a := t.attempts[e.a]];
      assert t'.attempts == (s.attempts - {a})[e.a := t.attempts[e.a]];
      assert t'.attempts == Without(t, a).attempts;
    }
  }

  lemma {:induction false} OthersAlone(s: Sys, es: seq<Event>, a: nat)
    requires Inv(s) && Possible(s, es) && !Past(Reached(s, es), a)
    ensures Possible(Without(s, a), Others(es, a))
    ensures Reached(Without(s, a), Others(es, a)) == Without(Reached(s, es), a)
    decreases |es|
  {
    hide Inv, Apply, Enabled, Past, Without, Of;
    if es != [] {
      var e, rest := es[0], Others(es[1..], a);
      var t := Apply(s, e);
      StepFine(s, e);
      if Past(t, a) {
        StaysPastIt(t, es[1..], a);
      } else {
        OthersAlone(t, es[1..], a);
        if Of(e, a) {
          if Past(s, a) {
            StaysPast(s, e, a);
          }
          OwnStep(s, e, a);
          assert [] + rest == rest;
        } else {
          OthersStep(s, e, a);
          assert ([e] + rest)[0] == e && ([e] + rest)[1..] == rest;
        }
      }
    }
  }

  /** An attempt that never gets past its claim, because it was turned away for whatever reason or stopped before, might
      as well not have been made: whatever happened around it could have happened without it, and leaves the same
      directory, the same saved states and drafts, and every other attempt as it is. */
  lemma RefusalsChangeNothing(es: seq<Event>, a: nat)
    requires Possible(INITIAL, es) && !Past(Reached(INITIAL, es), a)
    ensures Possible(INITIAL, Others(es, a))
    ensures Reached(INITIAL, Others(es, a)) == Without(Reached(INITIAL, es), a)
  {
    InitialFine();
    OthersAlone(INITIAL, es, a);
    assert Without(INITIAL, a) == INITIAL;
  }

  /** A pointer that was claimed never becomes pending again, whatever happens next. */
  lemma {:induction false} ClaimedForGood(s: Sys, es: seq<Event>, p: string)
    requires Inv(s) && Possible(s, es) && StartedFor(s, p)
    ensures var t := Reached(s, es); StartedFor(t, p) && (p in t.saved ==> !Pending(t, p))
    decreases |es|
  {
    hide Inv, Apply, Enabled, StartedFor;
    if es != [] {
      StepFine(s, es[0]);
      StaysStarted(s, es[0], p);
      ClaimedForGood(Apply(s, es[0]), es[1..], p);
    }
  }

  lemma StaysStarted(s: Sys, e: Event, p: string)
    requires Inv(s) && Enabled(s, e) && StartedFor(s, p)
    ensures StartedFor(Apply(s, e), p)
  {
    hide Inv, Apply, Enabled;
    var a :| a in s.attempts && s.attempts[a].pointer == p && Started(s.attempts[a].phase);
    StaysPast(s, e, a);
  }
}
