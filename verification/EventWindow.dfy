/** The bounded event list kept in a run's state, and streaming it to a listener after every node. */
module EventWindow {

  datatype Event = Event(sequence: nat, name: string)

  const MAX_EVENTS_IN_STATE: nat := 40

  function Tail(log: seq<Event>): seq<Event> {
    if |log| > MAX_EVENTS_IN_STATE then log[|log| - MAX_EVENTS_IN_STATE..] else log
  }

  /** Appends an event numbered after the last one held, and drops the oldest beyond the bound. */
  function Emit(events: seq<Event>, name: string): seq<Event> {
    Tail(events + [Event(if events == [] then 1 else events[|events| - 1].sequence + 1, name)])
  }

  function EmitAll(events: seq<Event>, names: seq<string>): seq<Event> {
    if names == [] then events
    else Emit(EmitAll(events, names[..|names| - 1]), names[|names| - 1])
  }

  /** Every event ever emitted, numbered from one. */
  function FullLog(names: seq<string>): (log: seq<Event>)
    ensures |log| == |names|
    ensures forall i :: 0 <= i < |names| ==> log[i] == Event(i + 1, names[i])
  {
    seq(|names|, i requires 0 <= i < |names| => Event(i + 1, names[i]))
  }

  lemma EmitKeepsTail(names: seq<string>, name: string)
    ensures Emit(Tail(FullLog(names)), name) == Tail(FullLog(names + [name]))
  {
    var log := FullLog(names);
    var next := FullLog(names + [name]);
    assert next == log + [Event(|names| + 1, name)];
    assert Tail(log) != [] ==> Tail(log)[|Tail(log)| - 1] == log[|log| - 1];
  }

  lemma {:induction false} EmitAllKeepsTail(before: seq<string>, names: seq<string>, window: seq<Event>)
    requires window == Tail(FullLog(before))
    ensures EmitAll(window, names) == Tail(FullLog(before + names))
  {
    if names == [] {
      assert before + names == before;
    } else {
      var front, last := names[..|names| - 1], names[|names| - 1];
      EmitAllKeepsTail(before, front, window);
      EmitKeepsTail(before + front, last);
      SplitLast(before, names);
    }
  }

  lemma SplitLast(before: seq<string>, names: seq<string>)
    requires names != []
    ensures before + names[..|names| - 1] + [names[|names| - 1]] == before + names
  {
  }

  /** The list in the state is always the last events of the full log, at most forty. */
  lemma {:induction false} WindowIsTail(names: seq<string>)
    ensures EmitAll([], names) == Tail(FullLog(names))
  {
    assert FullLog([]) == [];
    EmitAllKeepsTail([], names, []);
    assert [] + names == names;
  }

  /** Its events are numbered consecutively. */
  lemma {:induction false} TailIsConsecutive(names: seq<string>, i: nat)
    requires i < |Tail(FullLog(names))|
    ensures Tail(FullLog(names))[i].sequence == |names| - |Tail(FullLog(names))| + i + 1
  {
  }

  // ---- streaming ---------------------------------------------------------------------------

  /** What has been handed to the listener, and the highest number handed over. */
  datatype Stream = Stream(delivered: seq<Event>, seen: nat)

  /** Hands over the events numbered beyond what was seen, in order. */
  function Deliver(s: Stream, events: seq<Event>): Stream {
    if events == [] then s
    else
      var before := Deliver(s, events[..|events| - 1]);
      var e := events[|events| - 1];
      if e.sequence > before.seen then Stream(before.delivered + [e], e.sequence) else before
  }

  function DeliverAll(updates: seq<seq<Event>>): Stream {
    if updates == [] then Stream([], 0)
    else Deliver(DeliverAll(updates[..|updates| - 1]), updates[|updates| - 1])
  }

  /** The streaming loop over the state updates. */
  method StreamUpdates(updates: seq<seq<Event>>) returns (delivered: seq<Event>, seen: nat)
    ensures Stream(delivered, seen) == DeliverAll(updates)
  {
    delivered, seen := [], 0;
    for i := 0 to |updates|
      invariant Stream(delivered, seen) == DeliverAll(updates[..i])
    {
      var events := updates[i];
      ghost var before := Stream(delivered, seen);
      assert updates[..i + 1][..i] == updates[..i];
      for j := 0 to |events|
        invariant Stream(delivered, seen) == Deliver(before, events[..j])
      {
        assert events[..j + 1][..j] == events[..j];
        if events[j].sequence > seen {
          delivered := delivered + [events[j]];
          seen := events[j].sequence;
        }
      }
      assert events[..|events|] == events;
    }
    assert updates[..|updates|] == updates;
  }

  // ---- what a run streams ------------------------------------------------------------------

  function Flat(batches: seq<seq<string>>): seq<string> {
    if batches == [] then [] else Flat(batches[..|batches| - 1]) + batches[|batches| - 1]
  }

  /** The state's event list after each node, when node i emits batch i. */
  function Updates(batches: seq<seq<string>>): (updates: seq<seq<Event>>)
    ensures |updates| == |batches|
  {
    if batches == [] then []
    else
      var before := Updates(batches[..|batches| - 1]);
      var window := if before == [] then [] else before[|before| - 1];
      before + [EmitAll(window, batches[|batches| - 1])]
  }

  /** The last events of each node's batch, at most forty of them. */
  function Kept(batches: seq<seq<string>>): seq<Event> {
    if batches == [] then []
    else
      var log := FullLog(Flat(batches));
      var b := batches[|batches| - 1];
      Kept(batches[..|batches| - 1]) + log[|log| - Fits(|b|)..]
  }

  lemma {:induction false} UpdatesAreTails(batches: seq<seq<string>>)
    ensures batches != [] ==> Updates(batches)[|batches| - 1] == Tail(FullLog(Flat(batches)))
  {
    if batches != [] {
      var front := batches[..|batches| - 1];
      UpdatesAreTails(front);
      assert FullLog([]) == [];
      EmitAllKeepsTail(Flat(front), batches[|batches| - 1], Tail(FullLog(Flat(front))));
    }
  }

  lemma {:induction false} DeliverBelow(s: Stream, events: seq<Event>)
    requires forall e :: e in events ==> e.sequence <= s.seen
    ensures Deliver(s, events) == s
  {
    if events != [] {
      DeliverBelow(s, events[..|events| - 1]);
    }
  }

  /** Events numbered consecutively from just beyond the position are all delivered. */
  lemma {:induction false} DeliverAbove(s: Stream, events: seq<Event>)
    requires forall i :: 0 <= i < |events| ==> events[i].sequence == s.seen + 1 + i
    ensures Deliver(s, events) == Stream(s.delivered + events, s.seen + |events|)
  {
    if events == [] {
      assert s.delivered + events == s.delivered;
    } else {
      var front, last := events[..|events| - 1], events[|events| - 1];
      DeliverAbove(s, front);
      assert s.delivered + front + [last] == s.delivered + events;
    }
  }

  lemma {:induction false} DeliverAppend(s: Stream, a: seq<Event>, b: seq<Event>)
    ensures Deliver(s, a + b) == Deliver(Deliver(s, a), b)
  {
    if b == [] {
      assert a + b == a;
    } else {
      assert (a + b)[..|a + b| - 1] == a + b[..|b| - 1];
      DeliverAppend(s, a, b[..|b| - 1]);
    }
  }

  function Fits(n: nat): nat {
    if n > MAX_EVENTS_IN_STATE then MAX_EVENTS_IN_STATE else n
  }

  /** Whatever number the first event beyond the position carries, consecutive events after it are all delivered. */
  lemma DeliverJump(s: Stream, events: seq<Event>)
    requires events != [] && events[0].sequence > s.seen
    requires forall i :: 0 <= i < |events| ==> events[i].sequence == events[0].sequence + i
    ensures Deliver(s, events) == Stream(s.delivered + events, events[|events| - 1].sequence)
  {
    var head, tail := events[0], events[1..];
    assert events == [head] + tail;
    DeliverAppend(s, [head], tail);
    assert [head][..0] == [];
    var next := Stream(s.delivered + [head], head.sequence);
    assert Deliver(s, [head]) == next;
    DeliverAbove(next, tail);
    assert s.delivered + [head] + tail == s.delivered + events;
  }

  ghost predicate Numbered(log: seq<Event>) {
    forall i :: 0 <= i < |log| ==> log[i].sequence == i + 1
  }

  lemma NumberedSlice(log: seq<Event>, lo: nat, hi: nat)
    requires Numbered(log) && lo <= hi <= |log|
    ensures forall i :: 0 <= i < |log[lo..hi]| ==> log[lo..hi][i].sequence == lo + 1 + i
    ensures forall e :: e in log[lo..hi] ==> e.sequence <= hi
  {
  }

  lemma {:induction false} DeliverOverlap(s: Stream, log: seq<Event>, lo: nat)
    requires Numbered(log) && lo <= s.seen <= |log|
    ensures Deliver(s, log[lo..]) == Stream(s.delivered + log[s.seen..], |log|)
  {
    var old_, new_ := log[lo..s.seen], log[s.seen..|log|];
    NumberedSlice(log, lo, s.seen);
    NumberedSlice(log, s.seen, |log|);
    assert log[lo..] == old_ + new_ && log[s.seen..] == new_;
    DeliverAppend(s, old_, new_);
    DeliverBelow(s, old_);
    DeliverAbove(s, new_);
  }

  lemma DeliverGap(s: Stream, log: seq<Event>, lo: nat)
    requires Numbered(log) && s.seen <= lo < |log|
    ensures Deliver(s, log[lo..]) == Stream(s.delivered + log[lo..], |log|)
  {
    NumberedSlice(log, lo, |log|);
    assert log[lo..] == log[lo..|log|];
    DeliverJump(s, log[lo..|log|]);
  }

  lemma TailFrom(log: seq<Event>)
    ensures Tail(log) == log[|log| - Fits(|log|)..]
  {
  }

  /** From the window of a log of which the first events were seen, the last of the others are delivered. */
  lemma DeliverTail(s: Stream, log: seq<Event>)
    requires Numbered(log) && s.seen <= |log|
    ensures Deliver(s, Tail(log)) == Stream(s.delivered + log[|log| - Fits(|log| - s.seen)..], |log|)
  {
    var lo := |log| - Fits(|log|);
    TailFrom(log);
    if |log| - s.seen > MAX_EVENTS_IN_STATE {
      DeliverGap(s, log, lo);
    } else {
      DeliverOverlap(s, log, lo);
    }
  }

  /** A run hands its listener, of every node's events, exactly the last forty. */
  lemma {:induction false} RunStreams(batches: seq<seq<string>>)
    ensures DeliverAll(Updates(batches)) == Stream(Kept(batches), |Flat(batches)|)
  {
    if batches != [] {
      var front := batches[..|batches| - 1];
      var updates := Updates(batches);
      RunStreams(front);
      UpdatesAreTails(batches);
      assert updates[..|updates| - 1] == Updates(front);
      DeliverTail(Stream(Kept(front), |Flat(front)|), FullLog(Flat(batches)));
    }
  }

  ghost predicate Increasing(events: seq<Event>) {
    forall i, j :: 0 <= i < j < |events| ==> events[i].sequence < events[j].sequence
  }

  /** Numbers delivered strictly increase, so nothing is delivered twice, and every delivered event was emitted. */
  lemma {:induction false} KeptIncreasing(batches: seq<seq<string>>)
    ensures Increasing(Kept(batches))
    ensures forall e :: e in Kept(batches) ==> e in FullLog(Flat(batches))
  {
    if batches != [] {
      var front := batches[..|batches| - 1];
      var log, before := FullLog(Flat(batches)), FullLog(Flat(front));
      KeptIncreasing(front);
      forall e | e in Kept(front) ensures e in log && e.sequence <= |before| {
        var i :| 0 <= i < |before| && before[i] == e;
        assert log[i] == e;
      }
    }
  }

  ghost predicate SmallBatches(batches: seq<seq<string>>) {
    forall b :: b in batches ==> |b| <= MAX_EVENTS_IN_STATE
  }

  /** The listener misses nothing exactly when no node emits more than forty events. */
  lemma {:induction false} NoGapIff(batches: seq<seq<string>>)
    ensures Kept(batches) == FullLog(Flat(batches)) <==> SmallBatches(batches)
    ensures |Kept(batches)| <= |Flat(batches)|
    ensures |Kept(batches)| == |Flat(batches)| ==> SmallBatches(batches)
  {
    if batches != [] {
      var front, b := batches[..|batches| - 1], batches[|batches| - 1];
      NoGapIff(front);
      assert batches == front + [b];
      var log, before := FullLog(Flat(batches)), FullLog(Flat(front));
      if SmallBatches(batches) {
        assert b in batches && forall x :: x in front ==> x in batches;
        assert log == before + log[|before|..];
      }
    }
  }
}
