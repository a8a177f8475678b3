/** The optional bus-trace recorder: a ring that keeps the latest events. */
module Tracing {
  import opened Bus

  /** The last `n` elements, or all of them when there are fewer. */
  function Last<T>(s: seq<T>, n: nat): (t: seq<T>)
    ensures |t| == if |s| < n then |s| else n
  {
    if |s| <= n then s else s[|s| - n..]
  }

  lemma {:induction false} LastIsTheEnd<T>(s: seq<T>, n: nat)
    ensures exists first: seq<T> {:trigger first + Last(s, n)} :: first + Last(s, n) == s
  {
    assert s[..|s| - |Last(s, n)|] + Last(s, n) == s;
  }

  class Trace {
    const events: array<BusEvent>
    var head: nat
    var full: bool
    /** Every event since the trace was made or last reset. */
    ghost var recorded: seq<BusEvent>

    ghost predicate Valid()
      reads this, events
    {
      && head < events.Length
      && (full <==> |recorded| >= events.Length)
      && Retained() == Last(recorded, events.Length)
    }

    /** The ring read from its oldest event. */
    ghost function Retained(): seq<BusEvent>
      requires head <= events.Length
      reads this, events
    {
      if full then events[head..] + events[..head] else events[..head]
    }

    constructor (capacity: int)
      ensures Valid() && fresh(events) && recorded == []
      ensures events.Length == if capacity <= 0 then 1 else capacity
    {
      var size := if capacity <= 0 then 1 else capacity;
      events := new BusEvent[size](_ => BusEvent(0, 0, 0, BusRead));
      head, full, recorded := 0, false, [];
    }

    method Append(e: BusEvent)
      requires Valid()
      modifies this, events
      ensures Valid() && recorded == old(recorded) + [e]
    {
      ghost var before := Retained();
      events[head] := e;
      head := head + 1;
      if head == events.Length {
        head := 0;
        full := true;
      }
      recorded := recorded + [e];
      assert Retained() == Last(before + [e], events.Length);
    }

    /** The events kept, oldest first: the latest of all those recorded. */
    method Snapshot() returns (out: seq<BusEvent>)
      requires Valid()
      ensures out == Last(recorded, events.Length)
    {
      if !full {
        return events[..head];
      }
      out := events[head..] + events[..head];
    }

    method Len() returns (n: nat)
      requires Valid()
      ensures n == |Last(recorded, events.Length)|
    {
      n := if full then events.Length else head;
    }

    method Reset()
      requires Valid()
      modifies this
      ensures Valid() && recorded == []
    {
      head, full := 0, false;
      recorded := [];
    }
  }
}
