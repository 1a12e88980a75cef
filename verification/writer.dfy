/** The writer loop run to completion over the queue: which events reach the
    output, in which order, and with which lines. */
module Writer {
  import opened Levels
  import opened Layout
  import opened Logger

  /** The events that pass the minimum level `min`, in their original order. */
  function Accepted(events: seq<Event>, min: int): (r: seq<Event>)
    ensures |r| <= |events|
  {
    if events == [] then []
    else if events[0].level >= min then [events[0]] + Accepted(events[1..], min)
    else Accepted(events[1..], min)
  }

  /** An event survives the filter exactly when it was queued and its level
      is at least the minimum; the boundary level is kept. */
  lemma {:induction false} AcceptedMembers(events: seq<Event>, min: int, e: Event)
    ensures e in Accepted(events, min) <==> e in events && e.level >= min
  {
    if events != [] {
      AcceptedMembers(events[1..], min, e);
      assert events == [events[0]] + events[1..];
    }
  }

  /** The lines written for `events`, one per event, in the same order. */
  function RenderAll(s: Service, clock: TimeFormatter, events: seq<Event>): (r: seq<string>)
    ensures |r| == |events|
    ensures forall i :: 0 <= i < |events| ==> r[i] == Render(s, clock, events[i])
  {
    if events == [] then [] else [Render(s, clock, events[0])] + RenderAll(s, clock, events[1..])
  }

  /** Filtering is per event: it keeps no state from one event to the next. */
  lemma {:induction false} AcceptedConcat(a: seq<Event>, b: seq<Event>, min: int)
    ensures Accepted(a + b, min) == Accepted(a, min) + Accepted(b, min)
  {
    if a == [] {
      assert a + b == b;
    } else {
      assert (a + b)[1..] == a[1..] + b;
      AcceptedConcat(a[1..], b, min);
    }
  }

  /** The writer runs until the queue is empty (or the process has exited). */
  function Drain(s: Service, clock: TimeFormatter): (r: Service)
    ensures s.status.Running? ==> r.pending == []
    ensures r.status == s.status && r.level == s.level
    ensures |r.out| <= |s.out| + |s.pending|
    decreases |s.pending|
  {
    if s.pending == [] || s.status.Exited? then s
    else Drain(WriterStep(s, clock), clock)
  }

  /** Draining empties the queue and changes nothing but the output and the
      queue. */
  lemma {:induction false} DrainEmptiesQueue(s: Service, clock: TimeFormatter)
    requires s.status.Running?
    ensures Drain(s, clock).pending == []
    ensures Unchanged(s, Drain(s, clock), {OutField, PendingField})
    decreases |s.pending|
  {
    if s.pending != [] {
      DrainEmptiesQueue(WriterStep(s, clock), clock);
    }
  }

  /** Draining the queue appends exactly the lines of the accepted events, in
      the order they were accepted. */
  lemma {:induction false} DrainWritesAccepted(s: Service, clock: TimeFormatter)
    requires s.status.Running?
    ensures Drain(s, clock).out == s.out + RenderAll(s, clock, Accepted(s.pending, s.level))
    decreases |s.pending|
  {
    if s.pending != [] {
      var e := s.pending[0];
      var t := WriterStep(s, clock);
      assert Drain(s, clock) == Drain(t, clock);
      DrainWritesAccepted(t, clock);
      var tail := Accepted(t.pending, s.level);
      RenderAllSameConfig(s, t, clock, tail);
      AcceptedStep(s.pending, s.level);
      if e.level >= s.level {
        RenderAllCons(s, clock, e, tail);
      }
    }
  }

  /** Unfolds the filter by one event. */
  lemma AcceptedStep(events: seq<Event>, min: int)
    requires events != []
    ensures events[0].level >= min ==> Accepted(events, min) == [events[0]] + Accepted(events[1..], min)
    ensures events[0].level < min ==> Accepted(events, min) == Accepted(events[1..], min)
  {
  }

  lemma RenderAllCons(s: Service, clock: TimeFormatter, e: Event, events: seq<Event>)
    ensures RenderAll(s, clock, [e] + events) == [Render(s, clock, e)] + RenderAll(s, clock, events)
  {
  }

  /** The rendered lines depend only on the service name and time layout. */
  lemma RenderAllSameConfig(s: Service, t: Service, clock: TimeFormatter, events: seq<Event>)
    requires s.serviceName == t.serviceName && s.timeLoyaut == t.timeLoyaut
    ensures RenderAll(s, clock, events) == RenderAll(t, clock, events)
  {
  }

  /** The writer loop as an iteration over the queue: it hands back the
      service with the queue empty and the accepted events' lines appended. */
  method Run(s: Service, clock: TimeFormatter) returns (r: Service)
    requires s.status.Running?
    ensures r.pending == []
    ensures r.out == s.out + RenderAll(s, clock, Accepted(s.pending, s.level))
    ensures Unchanged(s, r, {OutField, PendingField})
  {
    r := s;
    var i := 0;
    while i < |s.pending|
      invariant 0 <= i <= |s.pending|
      invariant r.pending == s.pending[i..]
      invariant r.out == s.out + RenderAll(s, clock, Accepted(s.pending[..i], s.level))
      invariant Unchanged(s, r, {OutField, PendingField})
    {
      RunStep(s, r, clock, i);
      r := WriterStep(r, clock);
      i := i + 1;
    }
    assert s.pending[..i] == s.pending;
  }

  /** One writer step extends the output from the first `i` queued events to
      the first `i + 1`. */
  lemma RunStep(s: Service, r: Service, clock: TimeFormatter, i: int)
    requires s.status.Running? && 0 <= i < |s.pending|
    requires r.pending == s.pending[i..]
    requires r.out == s.out + RenderAll(s, clock, Accepted(s.pending[..i], s.level))
    requires Unchanged(s, r, {OutField, PendingField})
    ensures WriterStep(r, clock).pending == s.pending[i + 1..]
    ensures WriterStep(r, clock).out == s.out + RenderAll(s, clock, Accepted(s.pending[..i + 1], s.level))
    ensures Unchanged(s, WriterStep(r, clock), {OutField, PendingField})
  {
    var e := s.pending[i];
    var before := Accepted(s.pending[..i], s.level);
    AcceptedSnoc(s.pending, s.level, i);
    var t := WriterStep(r, clock);
    assert Render(r, clock, e) == Render(s, clock, e);
    if e.level >= s.level {
      RenderAllSnoc(s, clock, before, e);
      assert t.out == r.out + [Render(s, clock, e)];
    } else {
      assert t.out == r.out;
    }
  }

  /** Extends the filtered prefix by one event. */
  lemma AcceptedSnoc(events: seq<Event>, min: int, i: int)
    requires 0 <= i < |events|
    ensures events[i].level >= min ==> Accepted(events[..i + 1], min) == Accepted(events[..i], min) + [events[i]]
    ensures events[i].level < min ==> Accepted(events[..i + 1], min) == Accepted(events[..i], min)
  {
    assert events[..i + 1] == events[..i] + [events[i]];
    AcceptedConcat(events[..i], [events[i]], min);
    assert Accepted([events[i]], min) == if events[i].level >= min then [events[i]] else [];
  }

  lemma RenderAllSnoc(s: Service, clock: TimeFormatter, events: seq<Event>, e: Event)
    ensures RenderAll(s, clock, events + [e]) == RenderAll(s, clock, events) + [Render(s, clock, e)]
  {
  }

  /** The position in the output of the line for accepted event `i` is the
      number of accepted events before it. */
  lemma {:induction false} AcceptedPosition(events: seq<Event>, min: int, i: int)
    requires 0 <= i < |events| && events[i].level >= min
    ensures |Accepted(events[..i], min)| < |Accepted(events, min)|
    ensures Accepted(events, min)[|Accepted(events[..i], min)|] == events[i]
  {
    assert events == events[..i] + events[i..];
    AcceptedConcat(events[..i], events[i..], min);
    assert events[i..] == [events[i]] + events[i + 1..];
  }

  /** FIFO order: of two accepted events, the earlier one's line comes first. */
  lemma {:induction false} AcceptedOrder(events: seq<Event>, min: int, i: int, j: int)
    requires 0 <= i < j < |events|
    requires events[i].level >= min && events[j].level >= min
    ensures |Accepted(events[..i], min)| < |Accepted(events[..j], min)|
  {
    var pre := events[..j];
    assert pre[..i] == events[..i];
    AcceptedPosition(pre, min, i);
  }

  /** With the minimum at FatalLevel, no Debug, Info, Warning or Error event
      produces output. */
  lemma {:induction false} NothingBelowFatal(events: seq<Event>)
    requires forall i :: 0 <= i < |events| ==> events[i].level < FatalLevel
    ensures Accepted(events, FatalLevel) == []
  {
    if events != [] {
      NothingBelowFatal(events[1..]);
    }
  }
}
