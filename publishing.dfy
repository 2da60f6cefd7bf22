/** Handing an aggregate's raised events to the event store, one by one and
    in order, as the application services do after saving the aggregate.
    The store's `Save` cannot fail in memory, and a failing one would only be
    logged, so publishing never fails the operation. */
module Publishing {
  import opened Events
  import MemoryEvents

  method PublishAll(eventRepo: MemoryEvents.EventRepository, events: seq<DomainEvent>)
    modifies eventRepo
    ensures eventRepo.events == old(eventRepo.events) + events
  {
    var i := 0;
    while i < |events|
      invariant 0 <= i <= |events|
      invariant eventRepo.events == old(eventRepo.events) + events[..i]
    {
      eventRepo.Save(events[i]);
      assert events[..i + 1] == events[..i] + [events[i]];
      i := i + 1;
    }
    assert events[..i] == events;
  }
}
