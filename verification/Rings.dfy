/** The stack of empty buffers and the queue of filled chunks. */
module BufferRings {
  import opened Options
  import opened Pipeline

  /** What a waiting caller finds when it holds the lock: the items, and whether a shutdown is signalled. */
  datatype Seen<+T> = Seen(items: seq<T>, shutdown: bool)

  /** The first observation that ends the wait, by an item or by a shutdown, or their number. */
  function Deciding<T>(seen: seq<Seen<T>>): (i: nat)
    ensures i <= |seen| && (i < |seen| ==> seen[i].shutdown || seen[i].items != [])
    ensures forall j :: 0 <= j < i ==> !seen[j].shutdown && seen[j].items == []
  {
    if seen == [] || seen[0].shutdown || seen[0].items != [] then 0 else 1 + Deciding(seen[1..])
  }

  class Rings {
    var free: seq<nat>
    var filled: seq<Chunk>
    var shutdown: bool
    const capacity: nat

    constructor (buffers: nat)
      ensures capacity == buffers && free == Indices(buffers) && filled == [] && !shutdown
    {
      free := Indices(buffers);
      filled := [];
      shutdown := false;
      capacity := buffers;
    }

    /**
     Claim an empty buffer.  While the caller waits the lock is released: `others` is what it finds at
     each wake-up before the timeout.  The first finding that is not empty or signals a shutdown
     decides: the caller gets the top of the stack, but nothing after a shutdown.
     */
    method AcquireFree(others: seq<Seen<nat>>) returns (buf: Option<nat>)
      modifies `free, `shutdown
      ensures var seen := [Seen(old(free), old(shutdown))] + others;
              var i := Deciding(seen);
              if i == |seen| then buf == None && free == [] && !shutdown
              else if seen[i].shutdown then buf == None && free == seen[i].items && shutdown
              else
                var last := |seen[i].items| - 1;
                buf == Some(seen[i].items[last]) && free == seen[i].items[..last] && !shutdown
    {
      ghost var seen := [Seen(free, shutdown)] + others;
      var wakes := 0;
      while true
        invariant wakes <= |others| && seen[wakes] == Seen(free, shutdown)
        invariant forall j :: 0 <= j < wakes ==> !seen[j].shutdown && seen[j].items == []
        decreases |others| - wakes
      {
        if shutdown {
          return None;
        }
        if free != [] {
          buf := Some(free[|free| - 1]);
          free := free[..|free| - 1];
          return;
        }
        if wakes == |others| {
          return None;
        }
        free, shutdown := others[wakes].items, others[wakes].shutdown;
        wakes := wakes + 1;
      }
    }

    method ReleaseFree(buf: nat)
      modifies `free
      ensures free == old(free) + [buf]
    {
      free := free + [buf];
    }

    method PushFilled(chunk: Chunk)
      modifies `filled
      ensures filled == old(filled) + [chunk]
    {
      filled := filled + [chunk];
    }

    /** Take the oldest chunk; a shutdown does not keep chunks already queued from being drained. */
    method PopFilled(others: seq<Seen<Chunk>>) returns (chunk: Option<Chunk>)
      modifies `filled, `shutdown
      ensures var seen := [Seen(old(filled), old(shutdown))] + others;
              var i := Deciding(seen);
              if i == |seen| then chunk == None && filled == [] && !shutdown
              else if seen[i].items == [] then chunk == None && filled == [] && shutdown
              else chunk == Some(seen[i].items[0]) && filled == seen[i].items[1..] && shutdown == seen[i].shutdown
    {
      ghost var seen := [Seen(filled, shutdown)] + others;
      var wakes := 0;
      while true
        invariant wakes <= |others| && seen[wakes] == Seen(filled, shutdown)
        invariant forall j :: 0 <= j < wakes ==> !seen[j].shutdown && seen[j].items == []
        decreases |others| - wakes
      {
        if filled != [] {
          chunk := Some(filled[0]);
          filled := filled[1..];
          return;
        }
        if shutdown {
          return None;
        }
        if wakes == |others| {
          return None;
        }
        filled, shutdown := others[wakes].items, others[wakes].shutdown;
        wakes := wakes + 1;
      }
    }

    method Shutdown()
      modifies `shutdown
      ensures shutdown
    {
      shutdown := true;
    }
  }
}
