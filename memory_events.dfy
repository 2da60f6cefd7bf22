/** The in-memory domain event store (infrastructure/memory/
    event_repository.go): an append-only list, queried by linear scans. */
module MemoryEvents {
  import opened Wrappers
  import opened DomainTypes
  import opened Events

  /** The events of `es` that satisfy `keep`, in their original order. */
  function Filter(es: seq<DomainEvent>, keep: DomainEvent -> bool): seq<DomainEvent>
  {
    if es == [] then [] else
      var rest := Filter(es[..|es| - 1], keep);
      if keep(es[|es| - 1]) then rest + [es[|es| - 1]] else rest
  }

  /** Every selected event satisfies the test, and every stored event that
      satisfies it is selected. */
  lemma {:induction false} FilterMembership(es: seq<DomainEvent>, keep: DomainEvent -> bool)
    ensures |Filter(es, keep)| <= |es|
    ensures forall e :: e in Filter(es, keep) <==> e in es && keep(e)
  {
    if es != [] {
      var init := es[..|es| - 1];
      FilterMembership(init, keep);
      assert es == init + [es[|es| - 1]];
    }
  }

  /** Filtering distributes over concatenation: events stored later never
      change what an earlier query returned; they only extend it. */
  lemma {:induction false} FilterAppend(a: seq<DomainEvent>, b: seq<DomainEvent>, keep: DomainEvent -> bool)
    ensures Filter(a + b, keep) == Filter(a, keep) + Filter(b, keep)
    decreases |b|
  {
    if b == [] {
      assert a + b == a;
    } else {
      var b' := b[..|b| - 1];
      FilterAppend(a, b', keep);
      assert (a + b)[..|a + b| - 1] == a + b';
      assert (a + b)[|a + b| - 1] == b[|b| - 1];
    }
  }

  /** The test `FindByEventType` applies. */
  function HasType(t: string): DomainEvent -> bool
  {
    e => EventType(e) == t
  }

  /** The test `FindByTimeRange` applies: strictly after the start and
      strictly before the end. */
  function WithinOpenRange(start: Time, end: Time): DomainEvent -> bool
  {
    e => start < EventTime(e) < end
  }

  class EventRepository {
    var events: seq<DomainEvent>

    constructor ()
      ensures events == []
    {
      events := [];
    }

    /** `Save`: append. */
    method Save(e: DomainEvent)
      modifies this
      ensures events == old(events) + [e]
    {
      events := events + [e];
    }

    /** `FindByAggregateID`: every stored event, whatever the ID. */
    method FindByAggregateID(aggregateID: string) returns (es: seq<DomainEvent>)
      ensures es == events
    {
      es := [];
      var i := 0;
      while i < |events|
        invariant 0 <= i <= |events|
        invariant es == events[..i]
      {
        assert events[..i + 1] == events[..i] + [events[i]];
        es := es + [events[i]];
        i := i + 1;
      }
      assert events[..i] == events;
    }

    /** `FindByEventType`: the stored events of one variant, in order of storage. */
    method FindByEventType(eventType: string) returns (es: seq<DomainEvent>)
      ensures es == Filter(events, HasType(eventType))
      ensures forall e :: e in es <==> e in events && EventType(e) == eventType
    {
      es := [];
      var i := 0;
      while i < |events|
        invariant 0 <= i <= |events|
        invariant es == Filter(events[..i], HasType(eventType))
      {
        assert events[..i + 1][..i] == events[..i];
        if EventType(events[i]) == eventType {
          es := es + [events[i]];
        }
        i := i + 1;
      }
      assert events[..i] == events;
      FilterMembership(events, HasType(eventType));
    }

    /** `FindByTimeRange`: the stored events strictly inside the range, in
        order of storage. */
    method FindByTimeRange(start: Time, end: Time) returns (es: seq<DomainEvent>)
      ensures es == Filter(events, WithinOpenRange(start, end))
      ensures forall e :: e in es <==> e in events && start < e.occurredAt < end
    {
      es := [];
      var i := 0;
      while i < |events|
        invariant 0 <= i <= |events|
        invariant es == Filter(events[..i], WithinOpenRange(start, end))
      {
        assert events[..i + 1][..i] == events[..i];
        if start < EventTime(events[i]) && EventTime(events[i]) < end {
          es := es + [events[i]];
        }
        i := i + 1;
      }
      assert events[..i] == events;
      FilterMembership(events, WithinOpenRange(start, end));
    }

    /** `Delete`: accepted and ignored. */
    method Delete(eventID: string) returns (r: Outcome)
      ensures r == Pass
    {
      r := Pass;
    }
  }
}
