/** `Counter` of internal/counter/counter.go: a value that a ticker bumps by one until
    the counter is stopped. */
module Counters {
  import opened Panics

  const CloseOfClosedChannel := "close of closed channel"

  /** What the run loop can receive: a tick, or the closing of the stop channel. */
  datatype Event = TickEvent | StopEvent

  /** The number of ticks the run loop processes from `events`: those before the first stop. */
  function TicksBeforeStop(events: seq<Event>): nat
    decreases |events|
  {
    if events == [] || events[0] == StopEvent then 0 else 1 + TicksBeforeStop(events[1..])
  }

  /** A tick arriving after `events` is counted exactly when no stop came before it. */
  lemma {:induction false} TickAfter(events: seq<Event>)
    ensures TicksBeforeStop(events + [TickEvent])
      == TicksBeforeStop(events) + (if StopEvent in events then 0 else 1)
    decreases |events|
  {
    if events != [] {
      assert (events + [TickEvent])[1..] == events[1..] + [TickEvent];
      TickAfter(events[1..]);
    }
  }

  /** Once a stop has been received, nothing that arrives later changes the count. */
  lemma {:induction false} FrozenAfterStop(events: seq<Event>, later: seq<Event>)
    requires StopEvent in events
    ensures TicksBeforeStop(events + later) == TicksBeforeStop(events)
    decreases |events|
  {
    if events[0] != StopEvent {
      assert (events + later)[1..] == events[1..] + later;
      FrozenAfterStop(events[1..], later);
    }
  }

  class Counter {
    var value: int
    /** The ticker period (a `time.Duration`), fixed at construction. */
    const interval: int
    /** Whether the stop channel has been closed, which ends the run loop. */
    var stopped: bool
    /** Every tick and stop the counter has been handed, in order. */
    ghost var events: seq<Event>

    /** `value` counts the ticks processed before the stop. */
    ghost predicate Valid()
      reads this
    {
      value == TicksBeforeStop(events) && stopped == (StopEvent in events)
    }

    /** `New`: a running counter at 0. */
    constructor New(interval: int)
      ensures Valid() && this.interval == interval
      ensures value == 0 && !stopped && events == []
    {
      value := 0;
      this.interval := interval;
      stopped := false;
      events := [];
    }

    /** The tick branch of the run loop: one more, unless the loop has already returned. */
    method Tick()
      requires Valid()
      modifies this
      ensures Valid() && events == old(events) + [TickEvent] && stopped == old(stopped)
      ensures value == if old(stopped) then old(value) else old(value) + 1
    {
      TickAfter(events);
      events := events + [TickEvent];
      if !stopped {
        value := value + 1;
      }
    }

    /** `Value`: the current count. */
    method Value() returns (v: int)
      ensures v == value
    {
      v := value;
    }

    /** `Stop`: close the stop channel, which ends the run loop. Closing it a second time
        is Go's "close of closed channel" panic. */
    method Stop() returns (r: Result<()>)
      requires Valid()
      modifies this
      ensures Valid()
      ensures old(stopped) ==> r == Panic(CloseOfClosedChannel) && unchanged(this)
      ensures !old(stopped) ==>
        (r == Ok(()) && stopped && value == old(value) && events == old(events) + [StopEvent])
    {
      if stopped {
        return Panic(CloseOfClosedChannel);
      }
      assert TicksBeforeStop(events + [StopEvent]) == TicksBeforeStop(events) by {
        StopAfter(events);
      }
      events := events + [StopEvent];
      stopped := true;
      r := Ok(());
    }
  }

  /** Appending a stop does not change the count. */
  lemma {:induction false} StopAfter(events: seq<Event>)
    ensures TicksBeforeStop(events + [StopEvent]) == TicksBeforeStop(events)
    decreases |events|
  {
    if events != [] {
      assert (events + [StopEvent])[1..] == events[1..] + [StopEvent];
      StopAfter(events[1..]);
    }
  }
}
