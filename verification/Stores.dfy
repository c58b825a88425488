/** A suspended run as it is stored, and the in-memory store. */
module Stores {
  import opened Basics
  import opened Values

  datatype State = State(
    pointer: string, workflow: string, step: string, reason: string, audience: string,
    ctx: Context, trace: seq<string>)

  /** The store that keeps states in a map. Its map is the abstract value every store stands for. */
  class MemoryStore {
    var states: map<string, State>

    constructor ()
      ensures states == map[]
    {
      states := map[];
    }

    method Save(s: State)
      modifies this
      ensures states == old(states)[s.pointer := s]
    {
      states := states[s.pointer := s];
    }

    method Load(pointer: string) returns (r: Option<State>)
      ensures r == if pointer in states then Some(states[pointer]) else None
    {
      r := if pointer in states then Some(states[pointer]) else None;
    }

    method Delete(pointer: string) returns (found: bool)
      modifies this
      ensures found == (pointer in old(states))
      ensures states == old(states) - {pointer}
    {
      found := pointer in states;
      states := states - {pointer};
    }

    /** Hands the state to exactly one caller: the pointer is gone afterwards. */
    method Consume(pointer: string) returns (r: Option<State>)
      modifies this
      ensures r == if pointer in old(states) then Some(old(states)[pointer]) else None
      ensures states == old(states) - {pointer}
    {
      if pointer !in states {
        return None;
      }
      r := Some(states[pointer]);
      states := states - {pointer};
    }

    method Release(pointer: string)
    {
    }

    /** The stored states, each once, in whatever order the map yields them. */
    method Pending() returns (out: seq<State>)
      ensures forall s :: s in out <==> s in states.Values
      ensures |out| == |states|
    {
      out := [];
      var left := states.Keys;
      while left != {}
        invariant left <= states.Keys
        invariant |out| + |left| == |states.Keys|
        invariant forall s :: s in out <==> exists p :: p in states.Keys - left && states[p] == s
      {
        var p :| p in left;
        out := out + [states[p]];
        ghost var before := left;
        left := left - {p};
        assert states.Keys - left == (states.Keys - before) + {p};
      }
      assert |states.Keys| == |states|;
    }
  }
}
