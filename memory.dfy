/**
 * The bounded recency buffer `Memory` of memory.py as a class: `stack` holds
 * the stored responses newest first, `maxLength` the limit set at construction.
 * `Add` changes `stack` in place, the other methods only read it; each method
 * is proved against the functions of MemorySpec.
 */
module RecencyMemory {
  import opened Wrappers
  import opened MemorySpec

  class Memory<V> {
    /** The stored responses, newest at index 0. */
    var stack: seq<seq<V>>
    /** The limit given at construction; no method reassigns it. */
    const maxLength: int

    /** The invariant every method keeps (see MemorySpec.WellFormed). */
    ghost predicate Valid()
      reads this
    {
      WellFormed(stack, maxLength)
    }

    /** `Memory(limit)`: an empty buffer with the given limit. The limit is not checked. */
    constructor (limit: int)
      ensures Valid()
      ensures stack == [] && maxLength == limit
    {
      stack := [];
      maxLength := limit;
    }

    /** `stringRep`: the stored responses in order (the text rendering is left out). */
    method StringRep() returns (entries: seq<seq<V>>)
      ensures entries == stack
    {
      entries := stack;
    }

    /** `getMaxLength`: the limit given at construction. */
    method GetMaxLength() returns (limit: int)
      ensures limit == maxLength
    {
      limit := maxLength;
    }

    /**
     * `add(item)`: evict the oldest entry if the buffer is full, wrap a non-list
     * item, then store the entry in front if it is not empty. On an empty buffer
     * with a limit that is not positive, the eviction raises and nothing changes.
     */
    method Add(item: Payload<V>) returns (outcome: Outcome<MemoryError>)
      requires Valid()
      modifies this
      ensures Valid()
      ensures outcome.Fail? <==> Added(old(stack), maxLength, item).Failure?
      ensures outcome.Fail? ==> outcome.error == PopFromEmptyList && stack == old(stack)
      ensures outcome.Pass? ==> stack == Added(old(stack), maxLength, item).value
    {
      AddedKeepsWellFormed(stack, maxLength, item);
      if |stack| >= maxLength {
        if stack == [] {
          return Fail(PopFromEmptyList);
        }
        stack := stack[..|stack| - 1];
      }
      var entry := Normalize(item);
      if |entry| > 0 {
        stack := [entry] + stack;
      }
      outcome := Pass;
    }

    /**
     * `getRecent`: scan from newest to oldest and return the first entry that
     * holds exactly one item, or None when no entry does.
     */
    method GetRecent() returns (recent: Option<seq<V>>)
      ensures recent.None? <==> forall j | 0 <= j < |stack| :: |stack[j]| != 1
      ensures recent.Some? ==> exists i | 0 <= i < |stack| ::
        stack[i] == recent.value && |recent.value| == 1 && forall j | 0 <= j < i :: |stack[j]| != 1
      ensures recent == MostRecentSingular(stack)
    {
      var i := 0;
      while i < |stack|
        invariant 0 <= i <= |stack|
        invariant forall j | 0 <= j < i :: |stack[j]| != 1
      {
        if |stack[i]| == 1 {
          assert FirstSingular(stack) == Some(i);
          return Some(stack[i]);
        }
        i := i + 1;
      }
      return None;
    }
  }

  /**
   * Reading twice with no `add` in between gives the same answers, and the
   * reads change neither the stored responses nor the limit.
   */
  method ReadsAreRepeatable<V>(m: Memory<V>) returns (first: Option<seq<V>>, second: Option<seq<V>>)
    ensures first == second == MostRecentSingular(m.stack)
  {
    var before := m.stack;
    var rep1 := m.StringRep();
    first := m.GetRecent();
    var limit1 := m.GetMaxLength();
    var rep2 := m.StringRep();
    second := m.GetRecent();
    var limit2 := m.GetMaxLength();
    assert rep1 == rep2 == before == m.stack;
    assert limit1 == limit2 == m.maxLength;
  }

  /** With limit 2, adding "a", "b", "c" in turn leaves ["c"], ["b"]: "a" was evicted. */
  method CapacityTwoScenario() returns (entries: seq<seq<string>>, recent: Option<seq<string>>)
    ensures entries == [["c"], ["b"]]
    ensures recent == Some(["c"])
  {
    var m := new Memory<string>(2);
    var o := m.Add(PAtom("a"));
    o := m.Add(PAtom("b"));
    o := m.Add(PAtom("c"));
    entries := m.StringRep();
    recent := m.GetRecent();
  }

  /**
   * `getRecent` skips multi-item entries: after a two-item list and then a
   * single value it returns the single value; after the list alone it returns None.
   */
  method SkipsListScenario() returns (withSingle: Option<seq<string>>, listOnly: Option<seq<string>>)
    ensures withSingle == Some(["r"])
    ensures listOnly == None
  {
    var m := new Memory<string>(3);
    var o := m.Add(PList(["p", "q"]));
    listOnly := m.GetRecent();
    o := m.Add(PAtom("r"));
    withSingle := m.GetRecent();
  }

  /** `add([])` on a full buffer evicts the oldest entry and stores nothing. */
  method EmptyListOnFullScenario() returns (entries: seq<seq<int>>)
    ensures entries == [[2]]
  {
    var m := new Memory<int>(2);
    var o := m.Add(PAtom(1));
    o := m.Add(PAtom(2));
    o := m.Add(PList([]));
    entries := m.StringRep();
  }

  /** A buffer built with limit 0 raises on the first `add` and stays empty. */
  method ZeroLimitScenario() returns (outcome: Outcome<MemoryError>, entries: seq<seq<int>>)
    ensures outcome == Fail(PopFromEmptyList)
    ensures entries == []
  {
    var m := new Memory<int>(0);
    outcome := m.Add(PAtom(7));
    entries := m.StringRep();
  }
}
