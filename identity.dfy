/**
 * The process-wide product identity allocator. In the original program it is
 * a static counter on the abstract Product class; here it is an explicit
 * object that every product constructor receives and advances.
 */
module Identity {

  /** The IDs handed out by a counter whose next value is `next`: 1, 2, ..., next - 1. */
  ghost function IdsBefore(next: int): (ids: seq<int>)
    requires next >= 1
    ensures |ids| == next - 1
    ensures forall i :: 0 <= i < |ids| ==> ids[i] == i + 1
    decreases next
  {
    if next == 1 then [] else IdsBefore(next - 1) + [next - 1]
  }

  /** Issued IDs start at 1, strictly increase in issue order, and so are pairwise distinct. */
  lemma IdsBeforeAscending(next: int)
    requires next >= 1
    ensures forall i, j :: 0 <= i < j < |IdsBefore(next)| ==> 1 <= IdsBefore(next)[i] < IdsBefore(next)[j]
    ensures next !in IdsBefore(next)
  {
    var ids := IdsBefore(next);
    assert forall i :: 0 <= i < |ids| ==> ids[i] == i + 1;
  }

  class IdAllocator {
    /** The next ID to hand out; it starts at 1. */
    var nextId: int

    ghost predicate Valid()
      reads this
    {
      nextId >= 1
    }

    /** Every ID this allocator has handed out so far, in issue order. */
    ghost function Issued(): seq<int>
      reads this
      requires Valid()
    {
      IdsBefore(nextId)
    }

    constructor ()
      ensures Valid() && nextId == 1 && Issued() == []
    {
      nextId := 1;
    }

    /** Returns the current value of the counter, then increments it. */
    method CreateNewId() returns (id: int)
      requires Valid()
      modifies this
      ensures Valid()
      ensures id == old(nextId) && nextId == old(nextId) + 1
      ensures Issued() == old(Issued()) + [id]
      ensures forall earlier :: earlier in old(Issued()) ==> earlier < id
    {
      id := nextId;
      nextId := nextId + 1;
    }
  }
}
