/** The shared transport clock both decks and the store schedule against.
    Time itself is not stored: every operation that reads the clock takes
    the current transport time `now` as a parameter. What is kept is whether
    the clock runs, its tempo, and the callbacks waiting to fire. */
module Transport {

  /** The two deck slots of the console. */
  datatype DeckId = A | B

  /** The deck in the other slot. */
  function Other(d: DeckId): (o: DeckId)
    ensures o != d
  {
    if d == A then B else A
  }

  /** What a pending callback does when it fires. */
  datatype Action =
    | EngineStart(deck: DeckId)  // a deck engine's bar-aligned start
    | StoreStart(deck: DeckId)   // the store's next-bar play of a deck

  /** A one-shot callback registered for transport time `at`. */
  datatype Event = Event(at: real, action: Action)

  /** `i` is the callback the transport fires next at time `now`: it is due,
      no other pending callback is due earlier, and among callbacks due at the
      same time it was registered first. */
  predicate IsNextDue(pending: seq<Event>, i: int, now: real)
  {
    && 0 <= i < |pending|
    && pending[i].at <= now
    && (forall j :: 0 <= j < i ==> pending[j].at > pending[i].at)
    && (forall j :: i < j < |pending| ==> pending[j].at >= pending[i].at)
  }

  class Transport {
    var running: bool
    var bpm: real
    var pending: seq<Event>

    /** A transport that is stopped, at its default tempo, with nothing scheduled. */
    constructor ()
      ensures !running && bpm == 120.0 && pending == []
    {
      running := false;
      bpm := 120.0;
      pending := [];
    }

    /** `Transport.start()`. */
    method Start()
      modifies this
      ensures running && bpm == old(bpm) && pending == old(pending)
    {
      running := true;
    }

    /** `Transport.stop()`: the clock stops; scheduled callbacks stay. */
    method Stop()
      modifies this
      ensures !running && bpm == old(bpm) && pending == old(pending)
    {
      running := false;
    }

    /** `Transport.bpm.value = value`. */
    method SetBpm(value: real)
      modifies this
      ensures bpm == value && running == old(running) && pending == old(pending)
    {
      bpm := value;
    }

    /** `Transport.schedule(callback, time)`: appended after every callback
        already waiting, so that ties fire in registration order. */
    method Schedule(e: Event)
      modifies this
      ensures pending == old(pending) + [e]
      ensures running == old(running) && bpm == old(bpm)
    {
      pending := pending + [e];
    }

    /** `Transport.cancel()`: every pending callback, whoever registered it,
        is dropped and never fires. */
    method Cancel()
      modifies this
      ensures pending == []
      ensures running == old(running) && bpm == old(bpm)
    {
      pending := [];
    }

    /** The transport fires callback `i`: it leaves the pending list and is
        handed to the caller, which runs it. */
    method TakeDue(i: int, now: real) returns (e: Event)
      requires IsNextDue(pending, i, now)
      modifies this
      ensures e == old(pending)[i]
      ensures pending == old(pending)[..i] + old(pending)[i + 1..]
      ensures running == old(running) && bpm == old(bpm)
    {
      e := pending[i];
      pending := pending[..i] + pending[i + 1..];
    }
  }
}
