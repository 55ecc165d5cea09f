/**
 * The single-slot channels between the workers: `queue.Queue(maxsize=1)` used with drain-then-put
 * on the producer side (src/main.py:526-532, 603-610) and `get_nowait` on the consumer side
 * (src/main.py:580-585, 744-775).
 */
module Channel {
  import opened Outcomes

  class Slot<T> {
    /** The unread value, if any. */
    var item: Option<T>

    /** A new, empty queue. */
    constructor ()
      ensures item == None
    {
      item := None;
    }

    /** `empty()`. */
    function IsEmpty(): bool
      reads this
    {
      item.None?
    }

    /** `while not q.empty(): q.get_nowait()` then `q.put_nowait(v)`: an unread value is discarded,
        and the slot then holds exactly `v`. */
    method Publish(v: T)
      modifies this
      ensures item == Some(v)
    {
      while !IsEmpty()
        decreases if IsEmpty() then 0 else 1
      {
        var discarded := TryConsume();
      }
      item := Some(v);
    }

    /** `get_nowait()`: returns the unread value and empties the slot; on an empty slot it returns
        None (the `queue.Empty` exception) and changes nothing. */
    method TryConsume() returns (r: Option<T>)
      modifies this
      ensures r == old(item)
      ensures item == None
    {
      r := item;
      item := None;
    }

    /** `try: current = q.get_nowait() except queue.Empty: pass`: the consumer's value afterwards. */
    method ConsumeOrKeep(current: T) returns (next: T)
      modifies this
      ensures next == (if old(item).Some? then old(item).value else current)
      ensures item == None
    {
      var r := TryConsume();
      next := if r.Some? then r.value else current;
    }
  }

  /** Publishing twice with no read in between leaves only the second value; one read then gets
      it and a second read finds the slot empty and keeps the old value. */
  method LatestWins<T>(v1: T, v2: T, previous: T) returns (got: Option<T>, kept: T)
    ensures got == Some(v2)
    ensures kept == previous
  {
    var q := new Slot<T>();
    q.Publish(v1);
    q.Publish(v2);
    got := q.TryConsume();
    kept := q.ConsumeOrKeep(previous);
  }
}
