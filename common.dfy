/** Values shared by both verifier variants: optional values, face
    descriptors, absolute value, and the recency filter that both classes
    use to forget stale events. */
module Common {

  /** A value that may be absent (the source's `null`). */
  datatype Option<+T> = None | Some(value: T)

  /** The events an optional event contributes to a list: itself, or none. */
  function ToSeq<T>(o: Option<T>): (r: seq<T>)
    ensures |r| == if o.Some? then 1 else 0
  {
    if o.Some? then [o.value] else []
  }

  /** A face descriptor as produced by the external face-recognition model. */
  type Descriptor = seq<real>

  function Abs(v: real): (r: real)
    ensures r >= 0.0
    ensures r == v || r == -v
  {
    if v < 0.0 then -v else v
  }

  /** The events of `events` stamped less than `window` milliseconds before
      `now`, in their original order: the effect of reassigning an event list
      to `events.filter(e => now - stamp(e) < window)`. */
  function Recent<E>(events: seq<E>, stamp: E -> int, now: int, window: int): (r: seq<E>)
    ensures |r| <= |events|
  {
    if events == [] then []
    else if now - stamp(events[0]) < window then [events[0]] + Recent(events[1..], stamp, now, window)
    else Recent(events[1..], stamp, now, window)
  }

  /** The filter keeps exactly the events inside the window: every kept
      event is one of `events` and is fresh, and every fresh event is kept. */
  lemma {:induction false} RecentContents<E>(events: seq<E>, stamp: E -> int, now: int, window: int)
    ensures forall i :: 0 <= i < |Recent(events, stamp, now, window)| ==>
      Recent(events, stamp, now, window)[i] in events
      && now - stamp(Recent(events, stamp, now, window)[i]) < window
    ensures forall i :: 0 <= i < |events| && now - stamp(events[i]) < window ==>
      events[i] in Recent(events, stamp, now, window)
  {
    if events != [] {
      RecentContents(events[1..], stamp, now, window);
    }
  }

  /** Filtering distributes over appending one event: the order of the kept
      events is the order in which they were appended. */
  lemma {:induction false} RecentAppend<E>(events: seq<E>, e: E, stamp: E -> int, now: int, window: int)
    ensures Recent(events + [e], stamp, now, window)
         == Recent(events, stamp, now, window) + (if now - stamp(e) < window then [e] else [])
  {
    if events != [] {
      assert (events + [e])[1..] == events[1..] + [e];
      RecentAppend(events[1..], e, stamp, now, window);
    }
  }

  /** Nothing is dropped when every event is still inside the window. */
  lemma {:induction false} RecentKeepsFresh<E>(events: seq<E>, stamp: E -> int, now: int, window: int)
    requires forall i :: 0 <= i < |events| ==> now - stamp(events[i]) < window
    ensures Recent(events, stamp, now, window) == events
  {
    if events != [] {
      RecentKeepsFresh(events[1..], stamp, now, window);
    }
  }

  /** When no event is newer than `last` and the clock has moved a whole
      window past `last`, the filtered list is empty. */
  lemma RecentExpires<E>(events: seq<E>, stamp: E -> int, last: int, now: int, window: int)
    requires forall i :: 0 <= i < |events| ==> stamp(events[i]) <= last
    requires now >= last + window
    ensures Recent(events, stamp, now, window) == []
  {
    var r := Recent(events, stamp, now, window);
    RecentContents(events, stamp, now, window);
    if r != [] {
      var i :| 0 <= i < |events| && events[i] == r[0];
      assert false;
    }
  }
}
