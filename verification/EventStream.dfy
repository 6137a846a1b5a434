/**
  The bounded buffer of sync events. Emitting never waits for the receiver: when
  the buffer is full, progress events are dropped, and the events that trigger
  a reload push an older event out.
 */
module EventStream {
  import opened Common

  datatype Kind = Started | Progress | OperationDone | SyncCompleted | SyncFailed

  datatype Event = Event(kind: Kind, payload: string) {
    predicate Terminal() { kind == SyncCompleted || kind == SyncFailed }
  }

  const DEFAULT_CAPACITY: nat := 64

  ghost predicate AllTerminal(events: seq<Event>) {
    forall i :: 0 <= i < |events| ==> events[i].Terminal()
  }

  function Without<T>(s: seq<T>, i: nat): seq<T>
    requires i < |s|
  {
    s[..i] + s[i + 1..]
  }

  /** The position of the first event that is not terminal, or the length. */
  function FirstProgress(events: seq<Event>): (i: nat)
    ensures i <= |events|
  {
    if events == [] || !events[0].Terminal() then 0 else 1 + FirstProgress(events[1..])
  }

  /** The first progress event makes room, or the oldest event when there is none. */
  function Victim(drained: seq<Event>): (i: nat)
    requires drained != []
    ensures i < |drained|
  {
    if FirstProgress(drained) < |drained| then FirstProgress(drained) else 0
  }

  lemma {:induction false} FirstProgressSplits(events: seq<Event>)
    ensures AllTerminal(events[..FirstProgress(events)])
    ensures FirstProgress(events) < |events| ==> !events[FirstProgress(events)].Terminal()
  {
    if events != [] && events[0].Terminal() {
      FirstProgressSplits(events[1..]);
      assert events == [events[0]] + events[1..];
      assert events[..FirstProgress(events)] == [events[0]] + events[1..][..FirstProgress(events[1..])];
    }
  }

  /** A terminal event makes way exactly when all drained events are terminal, and then the oldest does. */
  lemma VictimTerminal(drained: seq<Event>)
    requires drained != []
    ensures drained[Victim(drained)].Terminal() <==> AllTerminal(drained)
    ensures AllTerminal(drained) ==> Victim(drained) == 0
    ensures !AllTerminal(drained) ==> AllTerminal(drained[..Victim(drained)])
  {
    FirstProgressSplits(drained);
    assert FirstProgress(drained) == |drained| ==> drained[..FirstProgress(drained)] == drained;
  }

  ghost function Count<T>(s: seq<T>, x: T): nat {
    if s == [] then 0 else Count(s[..|s| - 1], x) + if s[|s| - 1] == x then 1 else 0
  }

  lemma {:induction false} CountConcat<T>(a: seq<T>, b: seq<T>, x: T)
    ensures Count(a + b, x) == Count(a, x) + Count(b, x)
  {
    if b == [] {
      assert a + b == a;
    } else {
      CountConcat(a, b[..|b| - 1], x);
      assert (a + b)[..|a + b| - 1] == a + b[..|b| - 1];
    }
  }

  lemma {:induction false} CountIsMultiplicity<T>(s: seq<T>, x: T)
    ensures Count(s, x) == multiset(s)[x]
  {
    if s != [] {
      CountIsMultiplicity(s[..|s| - 1], x);
      assert s == s[..|s| - 1] + [s[|s| - 1]];
    }
  }

  /** The events of total are exactly those of a, b and c together. */
  ghost predicate Shared<T(!new)>(total: seq<T>, a: seq<T>, b: seq<T>, c: seq<T>) {
    forall x :: Count(total, x) == Count(a, x) + Count(b, x) + Count(c, x)
  }

  /** Sharing is equality of multisets. */
  lemma SharedMultisets<T(!new)>(total: seq<T>, a: seq<T>, b: seq<T>, c: seq<T>)
    ensures Shared(total, a, b, c) <==> multiset(total) == multiset(a) + multiset(b) + multiset(c)
  {
    forall x
      ensures Count(total, x) == multiset(total)[x]
      ensures Count(a, x) + Count(b, x) + Count(c, x) == (multiset(a) + multiset(b) + multiset(c))[x]
    {
      CountIsMultiplicity(total, x);
      CountIsMultiplicity(a, x);
      CountIsMultiplicity(b, x);
      CountIsMultiplicity(c, x);
    }
  }

  lemma ReceiveShares<T(!new)>(total: seq<T>, delivered: seq<T>, other: seq<T>, taken: seq<T>, rest: seq<T>)
    requires Shared(total, delivered, taken + rest, other)
    ensures Shared(total, delivered + taken, rest, other)
  {
    forall x
      ensures Count(total, x) == Count(delivered + taken, x) + Count(rest, x) + Count(other, x)
    {
      CountConcat(taken, rest, x);
      CountConcat(delivered, taken, x);
    }
  }

  lemma TakeShares<T(!new)>(total: seq<T>, delivered: seq<T>, event: T, rest: seq<T>, pending: seq<T>)
    requires Shared(total, delivered, [event] + rest, pending)
    ensures Shared(total, delivered, rest, pending + [event])
  {
    forall x
      ensures Count(total, x) == Count(delivered, x) + Count(rest, x) + Count(pending + [event], x)
    {
      CountConcat([event], rest, x);
      CountConcat(pending, [event], x);
    }
  }

  lemma SpareShares<T(!new)>(total: seq<T>, d: seq<T>, pending: seq<T>, i: nat, delivered: seq<T>, buffer: seq<T>)
    requires i < |pending| && Shared(total, d, [], pending)
    requires delivered + buffer == d + Without(pending, i)
    ensures Shared(total, delivered, buffer, [pending[i]])
  {
    forall x
      ensures Count(total, x) == Count(delivered, x) + Count(buffer, x) + Count([pending[i]], x)
    {
      CountConcat(delivered, buffer, x);
      CountConcat(d, Without(pending, i), x);
      CountConcat(pending[..i], pending[i + 1..], x);
      assert pending == pending[..i] + ([pending[i]] + pending[i + 1..]);
      CountConcat(pending[..i], [pending[i]] + pending[i + 1..], x);
      CountConcat([pending[i]], pending[i + 1..], x);
    }
  }

  lemma SendShares<T(!new)>(total: seq<T>, delivered: seq<T>, buffer: seq<T>, lost: seq<T>, event: T)
    requires Shared(total, delivered, buffer, lost)
    ensures Shared(total + [event], delivered, buffer + [event], lost)
  {
    forall x
      ensures Count(total + [event], x) == Count(delivered, x) + Count(buffer + [event], x) + Count(lost, x)
    {
      CountConcat(total, [event], x);
      CountConcat(buffer, [event], x);
    }
  }

  lemma DropShares<T(!new)>(total: seq<T>, delivered: seq<T>, buffer: seq<T>, lost: seq<T>, event: T)
    requires Shared(total, delivered, buffer, lost)
    ensures Shared(total + [event], delivered, buffer, lost + [event])
  {
    forall x
      ensures Count(total + [event], x) == Count(delivered, x) + Count(buffer, x) + Count(lost + [event], x)
    {
      CountConcat(total, [event], x);
      CountConcat(lost, [event], x);
    }
  }

  lemma LoseShares<T(!new)>(total: seq<T>, d: seq<T>, b: seq<T>, discarded: seq<T>, event: T,
                            delivered: seq<T>, buffer: seq<T>, lost: seq<T>)
    requires Shared(total, d, b, discarded)
    requires Shared(d + b + [event], delivered, buffer, lost)
    ensures Shared(total + [event], delivered, buffer, discarded + lost)
  {
    forall x
      ensures Count(total + [event], x) == Count(delivered, x) + Count(buffer, x) + Count(discarded + lost, x)
    {
      CountConcat(total, [event], x);
      CountConcat(d + b, [event], x);
      CountConcat(d, b, x);
      CountConcat(discarded, lost, x);
    }
  }

  lemma AllShared<T(!new)>(d: seq<T>, b: seq<T>)
    ensures Shared(d + b, d, b, [])
  {
    forall x
      ensures Count(d + b, x) == Count(d, x) + Count(b, x) + Count([], x)
    {
      CountConcat(d, b, x);
    }
  }

  /** Every event of part is one of whole, counted with repetitions. */
  ghost predicate Drawn<T(!new)>(part: seq<T>, whole: seq<T>) {
    forall x :: Count(part, x) <= Count(whole, x)
  }

  lemma DrainedIsDrawn<T(!new)>(before: seq<T>, buffer: seq<T>, delivered: seq<T>, pending: seq<T>)
    requires Shared(before + buffer, delivered, [], pending) && before <= delivered
    ensures Drawn(pending, buffer)
  {
    forall x
      ensures Count(pending, x) <= Count(buffer, x)
    {
      CountConcat(before, buffer, x);
      CountConcat(before, delivered[|before|..], x);
      assert delivered == before + delivered[|before|..];
    }
  }

  lemma DrawnLater<T(!new)>(part: seq<T>, taken: seq<T>, rest: seq<T>)
    requires Drawn(part, rest)
    ensures Drawn(part, taken + rest)
  {
    forall x
      ensures Count(part, x) <= Count(taken + rest, x)
    {
      CountConcat(taken, rest, x);
    }
  }

  /** The event given up for a new terminal one. */
  ghost function Lost(drained: seq<Event>): seq<Event> {
    if drained == [] then [] else [drained[Victim(drained)]]
  }

  ghost function Spared(drained: seq<Event>): seq<Event> {
    if drained == [] then [] else Without(drained, Victim(drained))
  }

  class Stream {
    const capacity: nat
    var buffer: seq<Event>
    ghost var emitted: seq<Event>
    ghost var delivered: seq<Event>
    ghost var discarded: seq<Event>
    ghost var latest: Option<Event>

    /** Every event is delivered, buffered or discarded; the latest terminal event is not discarded. */
    ghost predicate Valid()
      reads this
    {
      && 1 <= capacity && |buffer| <= capacity
      && Shared(emitted, delivered, buffer, discarded)
      && (latest.Some? ==> latest.value in delivered || latest.value in buffer)
    }

    constructor (size: int)
      ensures Valid() && emitted == buffer == delivered == discarded == [] && latest == None
      ensures capacity == if size < 1 then DEFAULT_CAPACITY else size
    {
      capacity := if size < 1 then DEFAULT_CAPACITY else size;
      buffer, emitted, delivered, discarded, latest := [], [], [], [], None;
    }

    /** The receiver takes any number of events from the front. */
    method Receive() returns (taken: seq<Event>)
      modifies `buffer, `delivered
      ensures taken + buffer == old(buffer) && delivered == old(delivered) + taken
    {
      var k: nat :| k <= |buffer|;
      taken := buffer[..k];
      buffer, delivered := buffer[k..], delivered + taken;
    }

    /** A send that would wait is not allowed. */
    method Send(event: Event)
      requires |buffer| < capacity
      modifies `buffer
      ensures buffer == old(buffer) + [event]
    {
      buffer := buffer + [event];
    }

    /** A receive that does not wait. */
    method TryTake() returns (event: Option<Event>)
      modifies `buffer
      ensures event.None? ==> old(buffer) == [] && buffer == []
      ensures event.Some? ==> old(buffer) == [event.value] + buffer
    {
      event := None;
      if buffer != [] {
        event, buffer := Some(buffer[0]), buffer[1..];
      }
    }

    method Drain(ghost total: seq<Event>) returns (pending: seq<Event>)
      requires Shared(total, delivered, buffer, [])
      modifies `buffer, `delivered
      ensures buffer == [] && Shared(total, delivered, [], pending)
      ensures old(delivered) <= delivered
      ensures |pending| <= |old(buffer)|
      ensures delivered == old(delivered) ==> pending == old(buffer)
    {
      pending := [];
      while true
        invariant old(delivered) <= delivered
        invariant Shared(total, delivered, buffer, pending)
        invariant |pending| + |buffer| <= |old(buffer)|
        invariant delivered == old(delivered) ==> pending + buffer == old(buffer)
        decreases |buffer|
      {
        ghost var d := delivered;
        var taken := Receive();
        ReceiveShares(total, d, pending, taken, buffer);
        var event := TryTake();
        if event.None? {
          break;
        }
        TakeShares(total, delivered, event.value, buffer, pending);
        pending := pending + [event.value];
      }
    }

    method FindVictim(pending: seq<Event>) returns (discard: nat)
      requires pending != []
      ensures discard == Victim(pending)
    {
      discard := 0;
      for index := 0 to |pending|
        invariant FirstProgress(pending) == index + FirstProgress(pending[index..])
      {
        if !pending[index].Terminal() {
          return index;
        }
        assert pending[index..][1..] == pending[index + 1..];
      }
    }

    /** Puts back all drained events but the victim. */
    method Refill(pending: seq<Event>, discard: nat)
      requires buffer == [] && discard < |pending| <= capacity
      modifies `buffer, `delivered
      ensures old(delivered) <= delivered
      ensures delivered + buffer == old(delivered) + Without(pending, discard)
      ensures |buffer| < capacity
    {
      ghost var sent := [];
      for i := 0 to |pending|
        invariant sent == if i <= discard then pending[..i] else Without(pending[..i], discard)
        invariant |buffer| <= |sent| && old(delivered) <= delivered
        invariant delivered + buffer == old(delivered) + sent
      {
        ghost var before := delivered + buffer;
        var taken := Receive();
        assert delivered + buffer == before;
        assert pending[..i + 1] == pending[..i] + [pending[i]];
        if i != discard {
          Send(pending[i]);
          assert delivered + buffer == before + [pending[i]];
          sent := sent + [pending[i]];
        }
      }
      assert pending[..|pending|] == pending;
      ghost var before := delivered + buffer;
      var taken := Receive();
      assert delivered + buffer == before;
    }

    /** Makes room for a terminal event; the drained events but the victim are put back. */
    method PushOut(event: Event) returns (ghost drained: seq<Event>)
      requires 1 <= capacity && |buffer| <= capacity
      modifies `buffer, `delivered, `discarded
      ensures |buffer| <= capacity && buffer != [] && buffer[|buffer| - 1] == event
      ensures old(delivered) <= delivered
      ensures Shared(old(delivered) + old(buffer) + [event], delivered, buffer, Lost(drained))
      ensures discarded == old(discarded) + Lost(drained)
      ensures Drawn(drained, old(buffer))
      ensures delivered == old(delivered) ==> drained == old(buffer) && buffer == Spared(drained) + [event]
    {
      ghost var total := delivered + buffer;
      AllShared(delivered, buffer);
      var pending := Drain(total);
      drained := pending;
      ghost var d := delivered;
      DrainedIsDrawn(old(delivered), old(buffer), d, pending);
      if pending != [] {
        var discard := FindVictim(pending);
        discarded := discarded + [pending[discard]];
        Refill(pending, discard);
        SpareShares(total, d, pending, discard, delivered, buffer);
      }
      SendShares(total, delivered, buffer, Lost(drained), event);
      assert delivered + buffer == d + Spared(drained);
      if delivered == old(delivered) {
        assert (delivered + buffer)[|delivered|..] == buffer && (d + Spared(drained))[|d|..] == Spared(drained);
      }
      Send(event);
    }

    method Emit(event: Event) returns (ghost drained: seq<Event>)
      requires Valid()
      modifies `buffer, `emitted, `delivered, `discarded, `latest
      ensures Valid()
      ensures emitted == old(emitted) + [event]
      ensures latest == if event.Terminal() then Some(event) else old(latest)
      ensures event.Terminal() ==> buffer != [] && buffer[|buffer| - 1] == event
      ensures event.kind in {SyncCompleted, SyncFailed} ==>
                latest == Some(event) && buffer != [] && buffer[|buffer| - 1] == event
      ensures event.kind in {Started, Progress, OperationDone} ==>
                latest == old(latest) && (discarded == old(discarded) || discarded == old(discarded) + [event])
      ensures old(delivered) <= delivered && Drawn(drained, old(buffer))
      ensures discarded == old(discarded) + Lost(drained)
                || (!event.Terminal() && discarded == old(discarded) + [event])
      ensures delivered == old(delivered) ==>
                if |old(buffer)| < capacity then buffer == old(buffer) + [event] && discarded == old(discarded)
                else if event.Terminal() then drained == old(buffer) && buffer == Spared(drained) + [event]
                else buffer == old(buffer) && discarded == old(discarded) + [event]
      ensures |old(buffer)| < capacity ==>
                discarded == old(discarded) && buffer != [] && buffer[|buffer| - 1] == event
    {
      emitted := emitted + [event];
      drained := [];
      if event.Terminal() {
        latest := Some(event);
      }
      ghost var total := old(emitted);
      var taken := Receive();
      ghost var d, b := delivered, buffer;
      ReceiveShares(total, old(delivered), discarded, taken, buffer);
      if |buffer| < capacity {
        Send(event);
        SendShares(total, delivered, b, discarded, event);
        return;
      }
      if !event.Terminal() {
        discarded := discarded + [event];
        DropShares(total, delivered, buffer, old(discarded), event);
        return;
      }
      drained := PushOut(event);
      DrawnLater(drained, taken, b);
      LoseShares(total, d, b, old(discarded), event, delivered, buffer, Lost(drained));
      assert event in buffer;
    }
  }
}
