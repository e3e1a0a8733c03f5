/**
 * The early future event list: a plain FIFO over a Python list, adding at
 * the back and popping from the front. Python's IndexError (an index out of
 * range, or a pop from an empty list) is the `None` result, with the list
 * left as it was.
 */
module EventLists {
  import opened Wrappers
  import opened Events

  class EventList {
    /** The entries, oldest first. */
    var fifo: seq<Event>

    /** A new list is empty. */
    constructor ()
      ensures fifo == []
    {
      fifo := [];
    }

    /** Appends `event` at the back; earlier entries keep their positions. */
    method Add(event: Event)
      modifies this
      ensures fifo == old(fifo) + [event]
      ensures |fifo| == |old(fifo)| + 1 && fifo[|fifo| - 1] == event
      ensures forall i :: 0 <= i < |old(fifo)| ==> fifo[i] == old(fifo)[i]
    {
      fifo := fifo + [event];
    }

    /**
     * The entry at `index` with Python's list indexing: a negative index
     * counts from the back; anything outside `-|fifo| .. |fifo| - 1` is an
     * IndexError. The list is not changed.
     */
    method Get(index: int) returns (r: Option<Event>)
      ensures r.Some? <==> -|fifo| <= index < |fifo|
      ensures 0 <= index < |fifo| ==> r == Some(fifo[index])
      ensures -|fifo| <= index < 0 ==> r == Some(fifo[|fifo| + index])
    {
      if 0 <= index < |fifo| {
        r := Some(fifo[index]);
      } else if -|fifo| <= index < 0 {
        r := Some(fifo[|fifo| + index]);
      } else {
        r := None;
      }
    }

    /** Removes and returns the front entry; on an empty list an IndexError and no change. */
    method Pop() returns (r: Option<Event>)
      modifies this
      ensures old(fifo) == [] ==> r == None && fifo == []
      ensures old(fifo) != [] ==> r == Some(old(fifo)[0]) && fifo == old(fifo)[1..]
      ensures old(fifo) == (if r.Some? then [r.value] else []) + fifo
    {
      if fifo == [] {
        r := None;
      } else {
        r := Some(fifo[0]);
        fifo := fifo[1..];
      }
    }
  }
}
