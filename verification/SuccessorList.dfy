/**
 A slot's successor list: six inline places and a spill vector behind one spin lock. Each
 method is one locked section; to its callers the list is a flag and one sequence, which is
 what RuntimeModel makes of it.
 */
module SuccessorLists {
  import opened RuntimeModel

  const INLINE_SUCCESSORS := 6

  class Successors {
    var generation: nat
    var closed: bool
    var count: nat
    const inline: array<Handle>
    var spilled: seq<Handle>

    ghost predicate Valid()
      reads this
    {
      && inline.Length == INLINE_SUCCESSORS
      && |spilled| == if count <= INLINE_SUCCESSORS then 0 else count - INLINE_SUCCESSORS
    }

    /** What is registered, in order. */
    ghost function Contents(): (list: seq<Handle>)
      requires Valid()
      reads this, inline
      ensures |list| == count
    {
      inline[..if count < INLINE_SUCCESSORS then count else INLINE_SUCCESSORS] + spilled
    }

    constructor ()
      ensures Valid() && Contents() == [] && !closed && generation == 0 && fresh(inline)
    {
      generation, closed, count, spilled := 0, false, 0, [];
      inline := new Handle[INLINE_SUCCESSORS](_ => Invalid);
    }

    /** Registered if and only if the list is open and still the one the caller looked up. */
    method TryAdd(successor: Handle, expectedGeneration: nat) returns (usable: bool)
      requires Valid()
      modifies this, inline
      ensures Valid() && generation == old(generation) && closed == old(closed)
      ensures usable <==> !closed && generation == expectedGeneration
      ensures Contents() == if usable then old(Contents()) + [successor] else old(Contents())
    {
      usable := !closed && generation == expectedGeneration;
      if usable {
        if count < INLINE_SUCCESSORS {
          inline[count] := successor;
        } else {
          spilled := spilled + [successor];
        }
        count := count + 1;
      }
    }

    /** Everything registered so far is handed over, and nothing can register from now on. */
    method Take() returns (list: seq<Handle>)
      requires Valid()
      modifies this
      ensures Valid() && closed && Contents() == [] && generation == old(generation)
      ensures list == old(Contents())
    {
      list := [];
      closed := true;
      var inlineCount := if count < INLINE_SUCCESSORS then count else INLINE_SUCCESSORS;
      for i := 0 to inlineCount
        invariant list == inline[..i]
      {
        list := list + [inline[i]];
      }
      for i := 0 to |spilled|
        invariant list == inline[..inlineCount] + spilled[..i]
      {
        list := list + [spilled[i]];
      }
      assert spilled[..|spilled|] == spilled;
      spilled := [];
      count := 0;
    }

    /** A free slot has no successors and accepts none. */
    method Reset()
      requires Valid()
      modifies this
      ensures Valid() && closed && Contents() == [] && generation == old(generation)
    {
      closed := true;
      count := 0;
      spilled := [];
    }

    /** Opened only for a newly acquired task. */
    method Open()
      requires Valid()
      modifies this
      ensures Valid() && !closed && Contents() == [] && generation == old(generation)
    {
      closed := false;
      count := 0;
      spilled := [];
    }

    /** `release` advances the generation before it resets the list. */
    method Advance()
      requires Valid()
      modifies `generation
      ensures Valid() && generation == old(generation) + 1 && Contents() == old(Contents()) && closed == old(closed)
    {
      generation := generation + 1;
    }
  }
}
