/** Streaming a request's events: a bounded queue, a generator that ends when
    the request is complete, and the barrier before completion. */
module Streaming {
  import opened Prelude

  const CAPACITY := 64

  class EventQueue<E> {
    var items: seq<E>

    constructor ()
      ensures items == []
    {
      items := [];
    }

    method Put(e: E)
      modifies this
      ensures items == old(items) + [e]
    {
      items := items + [e];
    }

    method Get() returns (e: E)
      requires items != []
      modifies this
      ensures e == old(items)[0] && items == old(items)[1..]
    {
      e := items[0];
      items := items[1..];
    }
  }

  /** What was queued goes, the terminal event comes. */
  method FinishEventQueue<E>(events: EventQueue<E>, terminal: E)
    modifies events
    ensures events.items == [terminal]
  {
    while events.items != []
      decreases |events.items|
    {
      var _ := events.Get();
    }
    events.Put(terminal);
  }

  /** What other tasks do while the generator is suspended. */
  datatype Arrival<E> = Arrival(events: seq<E>, completes: bool)

  function Flat<E>(parts: seq<seq<E>>): seq<E> {
    if parts == [] then [] else Flat(parts[..|parts| - 1]) + parts[|parts| - 1]
  }

  function Events<E>(arrivals: seq<Arrival<E>>): seq<E> {
    if arrivals == [] then [] else Events(arrivals[..|arrivals| - 1]) + arrivals[|arrivals| - 1].events
  }

  lemma MoreEvents<E>(arrivals: seq<Arrival<E>>, n: nat)
    requires n < |arrivals|
    ensures Events(arrivals[..n + 1]) == Events(arrivals[..n]) + arrivals[n].events
  {
    assert arrivals[..n + 1][..n] == arrivals[..n];
  }

  /** What a queue of n events has left when each round takes one, if there is one,
      and then what arrives comes in. */
  function Backlog<E>(n: nat, arrivals: seq<Arrival<E>>): nat {
    if arrivals == [] then n
    else
      var before := Backlog(n, arrivals[..|arrivals| - 1]);
      (if before > 0 then before - 1 else 0) + |arrivals[|arrivals| - 1].events|
  }

  lemma MoreBacklog<E>(n: nat, arrivals: seq<Arrival<E>>, k: nat)
    requires k < |arrivals|
    ensures var before := Backlog(n, arrivals[..k]);
            Backlog(n, arrivals[..k + 1]) == (if before > 0 then before - 1 else 0) + |arrivals[k].events|
  {
    assert arrivals[..k + 1][..k] == arrivals[..k];
  }

  /** The request is complete within the first k rounds. */
  predicate CompleteBy<E>(arrivals: seq<Arrival<E>>, k: nat)
    requires k <= |arrivals|
  {
    exists i :: 0 <= i < k && arrivals[i].completes
  }

  /** One event, if there is one, then a suspension: nothing gets lost. */
  method YieldOne<E>(queue: EventQueue<E>, arrivals: seq<Arrival<E>>, i: nat) returns (yielded: seq<E>, completes: bool)
    requires i < |arrivals|
    modifies queue
    ensures yielded + queue.items == old(queue.items) + arrivals[i].events
    ensures |yielded| == (if old(queue.items) == [] then 0 else 1)
    ensures completes == arrivals[i].completes
  {
    yielded := [];
    if queue.items != [] {
      var e := queue.Get();
      yielded := [e];
    }
    ghost var rest := queue.items;
    assert yielded + rest == old(queue.items);
    completes := Suspend(queue, arrivals, i);
    assert yielded + (rest + arrivals[i].events) == yielded + rest + arrivals[i].events;
  }

  lemma Joined<E>(yielded: seq<E>, more: seq<E>, before: seq<E>, after: seq<E>, start: seq<E>,
                  arrivals: seq<Arrival<E>>, n: nat)
    requires n < |arrivals|
    requires yielded + before == start + Events(arrivals[..n])
    requires more + after == before + arrivals[n].events
    ensures yielded + more + after == start + Events(arrivals[..n + 1])
  {
    MoreEvents(arrivals, n);
    assert yielded + more + after == yielded + (more + after);
    assert yielded + (before + arrivals[n].events) == yielded + before + arrivals[n].events;
  }

  /** Yields from the queue until the completion is done, then what is left: one
      event a round while there is one.  Nothing is lost, repeated or reordered,
      however the arrivals fall, and it stops as soon as the request is complete
      and the queue empty. */
  method StreamUntilComplete<E>(queue: EventQueue<E>, arrivals: seq<Arrival<E>>)
    returns (yielded: seq<E>, used: nat, finished: bool)
    modifies queue
    ensures used <= |arrivals|
    ensures yielded + queue.items == old(queue.items) + Events(arrivals[..used])
    ensures |queue.items| == Backlog(|old(queue.items)|, arrivals[..used])
    ensures finished <==> queue.items == [] && CompleteBy(arrivals, used)
    ensures !finished ==> used == |arrivals|
    ensures forall k :: 0 <= k < used ==>
              !CompleteBy(arrivals, k) || Backlog(|old(queue.items)|, arrivals[..k]) > 0
  {
    hide Events, Backlog;
    var done := false;
    yielded, used := [], 0;
    NoEvents(arrivals);
    NoBacklog(|queue.items|, arrivals);
    while !done && used < |arrivals|
      invariant used <= |arrivals|
      invariant yielded + queue.items == old(queue.items) + Events(arrivals[..used])
      invariant |queue.items| == Backlog(|old(queue.items)|, arrivals[..used])
      invariant done <==> CompleteBy(arrivals, used)
      invariant forall k :: 0 <= k < used ==> !CompleteBy(arrivals, k)
      decreases |arrivals| - used
    {
      ghost var before := queue.items;
      var more;
      more, done := YieldOne(queue, arrivals, used);
      Joined(yielded, more, before, queue.items, old(queue.items), arrivals, used);
      MoreBacklog(|old(queue.items)|, arrivals, used);
      Lengths(more, queue.items, before, arrivals[used].events);
      yielded, used := yielded + more, used + 1;
    }
    if !done { return yielded, used, false; }
    while queue.items != [] && used < |arrivals|
      invariant used <= |arrivals|
      invariant yielded + queue.items == old(queue.items) + Events(arrivals[..used])
      invariant |queue.items| == Backlog(|old(queue.items)|, arrivals[..used])
      invariant CompleteBy(arrivals, used)
      invariant forall k :: 0 <= k < used ==>
                  !CompleteBy(arrivals, k) || Backlog(|old(queue.items)|, arrivals[..k]) > 0
      decreases |arrivals| - used
    {
      ghost var before := queue.items;
      var more, _ := YieldOne(queue, arrivals, used);
      Joined(yielded, more, before, queue.items, old(queue.items), arrivals, used);
      MoreBacklog(|old(queue.items)|, arrivals, used);
      Lengths(more, queue.items, before, arrivals[used].events);
      yielded, used := yielded + more, used + 1;
    }
    finished := queue.items == [];
  }

  lemma Lengths<E>(a: seq<E>, b: seq<E>, c: seq<E>, d: seq<E>)
    requires a + b == c + d
    ensures |a| + |b| == |c| + |d|
  {
    assert |a + b| == |c + d|;
  }

  lemma NoBacklog<E>(n: nat, arrivals: seq<Arrival<E>>)
    ensures Backlog(n, arrivals[..0]) == n
  {
  }

  lemma NoEvents<E>(arrivals: seq<Arrival<E>>)
    ensures Events(arrivals[..0]) == []
  {
  }

  method Suspend<E>(queue: EventQueue<E>, arrivals: seq<Arrival<E>>, i: nat) returns (completes: bool)
    requires i < |arrivals|
    modifies queue
    ensures queue.items == old(queue.items) + arrivals[i].events && completes == arrivals[i].completes
  {
    queue.items := queue.items + arrivals[i].events;
    completes := arrivals[i].completes;
  }

  // ---- the request, its messages and its stream ----------------------------

  datatype Phase = Looping | Draining | Finished

  /** `messages` are all messages received so far, each as the events it routes
      to the queue; `processed` of them have been handled; of the next one, when
      it is being handled, the first `handling` events have been routed. */
  datatype Stream<E> = Stream(
    messages: seq<seq<E>>, processed: nat, handling: Option<nat>,
    queue: seq<E>, hand: Option<E>, yielded: seq<E>,
    response: Option<nat>, completed: bool, phase: Phase)

  datatype Step<E> =
    | Receive(events: seq<E>)   // a message arrives
    | Take                      // the message pump takes the oldest
    | Route                     // its next event goes to the queue, if there is room
    | Handled                   // all its events are routed
    | Respond                   // the response arrives and notes how many messages came before
    | Pass                      // that many have been processed: the request is complete
    | Fetch                     // the generator's waiting get takes an event
    | Yield
    | Leave                     // the generator sees the completion, with no event in hand
    | Drain
    | Finish                    // the queue is empty: the response is yielded last

  function Next<E>(s: Stream<E>, step: Step<E>): Option<Stream<E>> {
    match step
    case Receive(events) => Some(s.(messages := s.messages + [events]))
    case Take => if s.handling.None? && s.processed < |s.messages| then Some(s.(handling := Some(0))) else None
    case Route =>
      if s.handling.Some? && s.processed < |s.messages| && s.handling.value < |s.messages[s.processed]|
          && |s.queue| < CAPACITY
      then Some(s.(handling := Some(s.handling.value + 1),
          queue := s.queue + [s.messages[s.processed][s.handling.value]]))
      else None
    case Handled =>
      if s.handling.Some? && s.processed < |s.messages| && s.handling.value == |s.messages[s.processed]|
      then Some(s.(handling := None, processed := s.processed + 1)) else None
    case Respond => if s.response.None? then Some(s.(response := Some(|s.messages|))) else None
    case Pass => if s.response.Some? && s.processed >= s.response.value then Some(s.(completed := true)) else None
    case Fetch => if s.phase.Looping? && s.hand.None?
        && s.queue != [] then Some(s.(hand := Some(s.queue[0]), queue := s.queue[1..])) else None
    case Yield => if s.phase.Looping?
        && s.hand.Some? then Some(s.(yielded := s.yielded + [s.hand.value], hand := None)) else None
    case Leave => if s.phase.Looping? && s.hand.None? && s.completed then Some(s.(phase := Draining)) else None
    case Drain => if s.phase.Draining?
        && s.queue != [] then Some(s.(yielded := s.yielded + [s.queue[0]], queue := s.queue[1..])) else None
    case Finish => if s.phase.Draining? && s.queue == [] then Some(s.(phase := Finished)) else None
  }

  /** Runs until the stream is finished; nothing after that matters to it. */
  function Run<E>(s: Stream<E>, steps: seq<Step<E>>): Option<Stream<E>>
    decreases |steps|
  {
    if steps == [] then Some(s)
    else if s.phase.Finished? then None
    else match Next(s, steps[0]) case None => None case Some(s') => Run(s', steps[1..])
  }

  function InHand<E>(s: Stream<E>): seq<E> { if s.hand.Some? then [s.hand.value] else [] }

  /** What has been routed to the queue so far. */
  function Routed<E>(s: Stream<E>): seq<E>
    requires s.processed <= |s.messages|
    requires s.handling.Some? ==> s.processed < |s.messages| && s.handling.value <= |s.messages[s.processed]|
  {
    Flat(s.messages[..s.processed]) + (if s.handling.Some? then s.messages[s.processed][..s.handling.value] else [])
  }

  /** Every routed event is yielded, in hand or queued: once, and in order. */
  ghost predicate Inv<E>(s: Stream<E>) {
    && s.processed <= |s.messages|
    && (s.handling.Some? ==> s.processed < |s.messages| && s.handling.value <= |s.messages[s.processed]|)
    && s.yielded + InHand(s) + s.queue == Routed(s)
    && (s.response.Some? ==> s.response.value <= |s.messages|)
    && (s.completed ==> s.response.Some? && s.processed >= s.response.value)
    && (!s.phase.Looping? ==> s.completed && s.hand.None?)
    && (s.phase.Finished? ==> s.queue == [])
  }

  lemma RoutedStep<E>(s: Stream<E>, step: Step<E>)
    requires Inv(s) && Next(s, step).Some?
    requires step.Receive? || step.Take? || step.Route? || step.Handled?
    ensures var t := Next(s, step).value;
            && t.processed <= |t.messages|
            && (t.handling.Some? ==> t.processed < |t.messages| && t.handling.value <= |t.messages[t.processed]|)
            && Routed(t) == Routed(s) + t.queue[|s.queue|..]
  {
    var t := Next(s, step).value;
    match step {
      case Receive(events) => assert t.messages[..t.processed] == s.messages[..s.processed];
      case Take => assert Routed(s) + [] == Routed(s);
      case Route =>
        var m, k := s.messages[s.processed], s.handling.value;
        assert m[..k + 1] == m[..k] + [m[k]];
      case Handled =>
        var m := s.messages[s.processed];
        assert t.messages[..t.processed][..s.processed] == s.messages[..s.processed];
        assert Flat(t.messages[..t.processed]) == Flat(s.messages[..s.processed]) + m && m[..|m|] == m;
    }
  }

  lemma SameRouted<E>(s: Stream<E>, t: Stream<E>)
    requires s.processed <= |s.messages|
    requires s.handling.Some? ==> s.processed < |s.messages| && s.handling.value <= |s.messages[s.processed]|
    requires t.messages == s.messages && t.processed == s.processed && t.handling == s.handling
    ensures Routed(t) == Routed(s)
  {
  }

  lemma PumpKeeps<E>(s: Stream<E>, step: Step<E>)
    requires Inv(s) && Next(s, step).Some? && !s.phase.Finished?
    requires step.Receive? || step.Take? || step.Route? || step.Handled?
    ensures Inv(Next(s, step).value)
  {
    hide Flat, Routed;
    var t := Next(s, step).value;
    RoutedStep(s, step);
    assert t.queue == s.queue + t.queue[|s.queue|..];
    assert t.yielded + InHand(t) + (s.queue + t.queue[|s.queue|..]) == s.yielded + InHand(s) + s.queue
        + t.queue[|s.queue|..];
  }

  lemma ReaderKeeps<E>(s: Stream<E>, step: Step<E>)
    requires Inv(s) && Next(s, step).Some? && !s.phase.Finished?
    requires !(step.Receive? || step.Take? || step.Route? || step.Handled?)
    ensures Inv(Next(s, step).value)
  {
    hide Flat, Routed;
    var t := Next(s, step).value;
    SameRouted(s, t);
    var all := s.yielded + InHand(s) + s.queue;
    if step.Fetch? || step.Drain? { assert s.queue == [s.queue[0]] + s.queue[1..]; }
    assert t.yielded + InHand(t) + t.queue == all;
  }

  lemma StepKeeps<E>(s: Stream<E>, step: Step<E>)
    requires Inv(s) && Next(s, step).Some? && !s.phase.Finished?
    ensures Inv(Next(s, step).value)
  {
    hide Inv, Next;
    if step.Receive? || step.Take? || step.Route?
        || step.Handled? { PumpKeeps(s, step); } else { ReaderKeeps(s, step); }
  }

  lemma {:induction false} RunKeeps<E>(s: Stream<E>, steps: seq<Step<E>>)
    requires Inv(s) && Run(s, steps).Some?
    ensures Inv(Run(s, steps).value)
    decreases |steps|
  {
    if steps != [] {
      StepKeeps(s, steps[0]);
      RunKeeps(Next(s, steps[0]).value, steps[1..]);
    }
  }

  lemma {:induction false} FlatPrefix<E>(parts: seq<seq<E>>, n: nat)
    requires n <= |parts|
    ensures Flat(parts[..n]) <= Flat(parts)
    decreases |parts| - n
  {
    if n < |parts| {
      assert parts[..n + 1][..n] == parts[..n];
      assert Flat(parts[..n + 1]) == Flat(parts[..n]) + parts[n];
      FlatPrefix(parts, n + 1);
    } else {
      assert parts[..n] == parts;
    }
  }

  /** Main result: a finished stream has yielded, once each and in order, all
      events routed by the messages received before the response, possibly
      followed by events of later messages; the response comes last. */
  lemma StreamIsComplete<E>(steps: seq<Step<E>>)
    requires var s0 := Stream([], 0, None, [], None, [], None, false, Looping);
             Run(s0, steps).Some? && Run(s0, steps).value.phase.Finished?
    ensures var s := Run(Stream([], 0, None, [], None, [], None, false, Looping), steps).value;
            && s.response.Some? && s.response.value <= |s.messages|
            && Flat(s.messages[..s.response.value]) <= s.yielded <= Flat(s.messages)
  {
    var s0: Stream<E> := Stream([], 0, None, [], None, [], None, false, Looping);
    RunKeeps(s0, steps);
    var s := Run(s0, steps).value;
    var n, m := s.response.value, s.processed;
    assert s.yielded + InHand(s) + s.queue == s.yielded;
    FlatPrefix(s.messages, m);
    assert s.messages[..m][..n] == s.messages[..n];
    FlatPrefix(s.messages[..m], n);
    if s.handling.Some? {
      assert s.messages[..m + 1][..m] == s.messages[..m];
      assert Flat(s.messages[..m + 1]) == Flat(s.messages[..m]) + s.messages[m];
      FlatPrefix(s.messages, m + 1);
      assert s.yielded <= Flat(s.messages[..m + 1]);
    }
  }

  // ---- over the steps alone ------------------------------------------------

  /** The messages that arrive in a run, each as the events it routes. */
  function Arrived<E>(steps: seq<Step<E>>): seq<seq<E>> {
    if steps == [] then [] else (if steps[0].Receive? then [steps[0].events] else []) + Arrived(steps[1..])
  }

  lemma {:induction false} ArrivedConcat<E>(a: seq<Step<E>>, b: seq<Step<E>>)
    ensures Arrived(a + b) == Arrived(a) + Arrived(b)
    decreases |a|
  {
    if a == [] {
      assert a + b == b;
    } else {
      assert (a + b)[0] == a[0] && (a + b)[1..] == a[1..] + b;
      ArrivedConcat(a[1..], b);
    }
  }

  function First<E>(step: Step<E>): seq<seq<E>> { if step.Receive? then [step.events] else [] }

  lemma NextArrives<E>(s: Stream<E>, step: Step<E>)
    requires Next(s, step).Some?
    ensures var t := Next(s, step).value;
            && t.messages == s.messages + First(step)
            && t.response == (if step.Respond? then Some(|s.messages|) else s.response)
            && (step.Respond? ==> s.response.None?)
  {
    assert s.messages + [] == s.messages;
  }

  lemma {:induction false} RunArrives<E>(s: Stream<E>, steps: seq<Step<E>>)
    requires Run(s, steps).Some?
    ensures Run(s, steps).value.messages == s.messages + Arrived(steps)
    decreases |steps|
  {
    hide Next;
    if steps == [] {
      assert s.messages + [] == s.messages;
    } else {
      NextArrives(s, steps[0]);
      RunArrives(Next(s, steps[0]).value, steps[1..]);
      assert s.messages + First(steps[0]) + Arrived(steps[1..])
          == s.messages + (First(steps[0]) + Arrived(steps[1..]));
    }
  }

  /** Where the response of a run comes, if it comes in the run. */
  lemma {:induction false} ResponseAt<E>(s: Stream<E>, steps: seq<Step<E>>) returns (k: nat)
    requires Run(s, steps).Some? && s.response.None? && Run(s, steps).value.response.Some?
    ensures k < |steps| && steps[k].Respond?
    ensures Run(s, steps).value.response.value == |s.messages| + |Arrived(steps[..k])|
    decreases |steps|
  {
    hide Next;
    var s1, rest := Next(s, steps[0]).value, steps[1..];
    NextArrives(s, steps[0]);
    if steps[0].Respond? {
      k := 0;
      Answered(s1, rest);
      assert steps[..0] == [];
    } else {
      var i := ResponseAt(s1, rest);
      k := i + 1;
      assert steps[..k][0] == steps[0] && steps[..k][1..] == rest[..i];
    }
  }

  lemma {:induction false} Answered<E>(s: Stream<E>, steps: seq<Step<E>>)
    requires Run(s, steps).Some? && s.response.Some?
    ensures Run(s, steps).value.response == s.response
    decreases |steps|
  {
    hide Next;
    if steps != [] {
      NextArrives(s, steps[0]);
      Answered(Next(s, steps[0]).value, steps[1..]);
    }
  }

  /** Main result, over what happens alone: a finished stream has had its response,
      and has yielded, once each and in order, all events of the messages that
      arrived before it, and besides at most events of later ones. */
  lemma FinishedHasAll<E>(steps: seq<Step<E>>) returns (k: nat)
    requires var s0 := Stream([], 0, None, [], None, [], None, false, Looping);
             Run(s0, steps).Some? && Run(s0, steps).value.phase.Finished?
    ensures k < |steps| && steps[k].Respond?
    ensures var yielded := Run(Stream([], 0, None, [], None, [], None, false, Looping), steps).value.yielded;
            Flat(Arrived(steps[..k])) <= yielded <= Flat(Arrived(steps))
  {
    hide Flat, Run, Arrived;
    var s0: Stream<E> := Stream([], 0, None, [], None, [], None, false, Looping);
    StreamIsComplete(steps);
    RunArrives(s0, steps);
    k := ResponseAt(s0, steps);
    var messages := Run(s0, steps).value.messages;
    assert messages == Arrived(steps) by { assert [] + Arrived(steps) == Arrived(steps); }
    ArrivedConcat(steps[..k], steps[k..]);
    assert messages[..|Arrived(steps[..k])|] == Arrived(steps[..k]) by { assert steps == steps[..k] + steps[k..]; }
  }
}
