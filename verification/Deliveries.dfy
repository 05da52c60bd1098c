/** Which notifications reach a client, over a log of all that are raised: the ones
    without a number as well as the events. */
module Deliveries {
  import opened Prelude
  import opened Client
  import opened Router

  // ---- the log -------------------------------------------------------------

  /** A notification as it was raised, by the session itself or by its child. */
  datatype Item = Item(raised: Raised, child: bool)

  /** All that was raised, where the attach of the client now attached began, and
      whether there is one. */
  datatype Log = Log(items: seq<Item>, start: nat, attached: bool)

  function Own(xs: seq<Raised>): seq<Item> { seq(|xs|, i requires 0 <= i < |xs| => Item(xs[i], false)) }

  /** A client may disable the notifications that are no events. */
  predicate Passes(disabled: set<string>, x: Raised) { x.note.Some? || x.name !in disabled }

  function Passing(disabled: set<string>, xs: seq<Raised>): nat {
    if xs == [] then 0 else (if Passes(disabled, xs[0]) then 1 else 0) + Passing(disabled, xs[1..])
  }

  /** What is raised while a queue is sent: the first of the script during the next
      send, which takes one packet from the queue, and so on while both last. */
  function WhileSending(disabled: set<string>, queued: nat, script: seq<seq<Raised>>): seq<Raised>
    decreases |script|
  {
    if queued == 0 || script == [] then []
    else script[0] + WhileSending(disabled, queued - 1 + Passing(disabled, script[0]), script[1..])
  }

  function Logs(l: Log, disabled: set<string>, step: Step): Log {
    match step
    case Raise(x) => l.(items := l.items + [Item(x, false)])
    case RaiseChild(note) => l.(items := l.items + [Item(Raised("", Some(note)), true)])
    case Detach => l.(attached := false)
    case Attach(before, after, script, ok) =>
      var queue := before + after;
      if ok || l.attached then
        var sending := WhileSending(disabled, Passing(disabled, queue), script);
        Log(l.items + Own(queue + sending), if ok then |l.items| else l.start, true)
      else l.(items := l.items + Own(queue))
  }

  function LogsAll(l: Log, disabled: set<string>, steps: seq<Step>): Log
    decreases |steps|
  {
    if steps == [] then l else LogsAll(Logs(l, disabled, steps[0]), disabled, steps[1..])
  }

  // ---- what a client is due ------------------------------------------------

  /** How many events of a session there are. */
  function Count(items: seq<Item>, sessionId: string): nat
    decreases |items|
  {
    if items == [] then 0
    else
      var last := items[|items| - 1].raised.note;
      Count(items[..|items| - 1], sessionId) + if last.Some? && last.value.sessionId == sessionId then 1 else 0
  }

  /** The places in the log, from the start on, of what the client is to get. */
  function Due(disabled: set<string>, items: seq<Item>, start: nat): (places: seq<nat>)
    ensures forall k :: 0 <= k < |places| ==> start <= places[k] < |items|
    decreases |items|
  {
    if |items| <= start then []
    else
      var last := items[|items| - 1];
      Due(disabled, items[..|items| - 1], start)
      + if !last.child && Passes(disabled, last.raised) then [|items| - 1] else []
  }

  /** A note under its number; a state it carries has the number too. */
  predicate SameNote(sent: Note, note: Note, number: int) {
    match note
    case Snapshot(s, state) => sent == Snapshot(s, state.(eventId := number))
    case Handoff(s, o, state) => sent == Handoff(s, o, state.(eventId := number))
    case _ => sent == note
  }

  /** The packet is the notification raised there: its name, or its note under the
      number after all events its session had before. */
  predicate Delivers(p: Packet, items: seq<Item>, place: nat)
    requires place < |items|
  {
    var x := items[place].raised;
    match x.note
    case None => p == Aside(x.name)
    case Some(note) =>
      p.Event? && p.id == Count(items[..place], note.sessionId) + 1 && SameNote(p.note, note, p.id)
  }

  ghost predicate OneForOne(ps: seq<Packet>, disabled: set<string>, items: seq<Item>, start: nat) {
    var places := Due(disabled, items, start);
    |ps| == |places| && forall k :: 0 <= k < |ps| ==> Delivers(ps[k], items, places[k])
  }

  ghost predicate Counted(r: Router, items: seq<Item>) {
    forall sessionId :: Watermark(r, sessionId) == Count(items, sessionId)
  }

  // ---- one more notification -----------------------------------------------

  lemma CountNext(items: seq<Item>, item: Item, sessionId: string)
    ensures Count(items + [item], sessionId) == Count(items, sessionId)
            + if item.raised.note.Some? && item.raised.note.value.sessionId == sessionId then 1 else 0
  {
    assert (items + [item])[..|items|] == items;
  }

  lemma DueNext(disabled: set<string>, items: seq<Item>, item: Item, start: nat)
    requires start <= |items|
    ensures Due(disabled, items + [item], start)
         == Due(disabled, items, start) + if !item.child && Passes(disabled, item.raised) then [|items|] else []
  {
    assert (items + [item])[..|items|] == items;
  }

  lemma StillDelivers(p: Packet, items: seq<Item>, item: Item, place: nat)
    requires place < |items| && Delivers(p, items, place)
    ensures Delivers(p, items + [item], place)
  {
    assert (items + [item])[..place] == items[..place];
  }

  lemma OneMore(ps: seq<Packet>, sent: seq<Packet>, disabled: set<string>, items: seq<Item>, item: Item, start: nat)
    requires start <= |items| && OneForOne(ps, disabled, items, start)
    requires if !item.child && Passes(disabled, item.raised)
             then |sent| == 1 && Delivers(sent[0], items + [item], |items|) else sent == []
    ensures OneForOne(ps + sent, disabled, items + [item], start)
  {
    hide Delivers;
    DueNext(disabled, items, item, start);
    var places := Due(disabled, items + [item], start);
    forall k | 0 <= k < |ps + sent| ensures Delivers((ps + sent)[k], items + [item], places[k]) {
      if k < |ps| { StillDelivers(ps[k], items, item, places[k]); }
    }
  }

  lemma CountedNext(r: Router, r': Router, items: seq<Item>, item: Item)
    requires Counted(r, items)
    requires r'.watermarks == match item.raised.note case None => r.watermarks
                                                     case Some(note) => Bump(r, note.sessionId).watermarks
    ensures Counted(r', items + [item])
  {
    forall sessionId ensures Watermark(r', sessionId) == Count(items + [item], sessionId) {
      CountNext(items, item, sessionId);
      assert Watermark(r, sessionId) == Count(items, sessionId);
    }
  }

  /** Numbering against the log. */
  lemma NumberedDelivers(r: Router, items: seq<Item>, x: Raised)
    requires Counted(r, items)
    ensures var (r', p) := Numbered(r, x);
            && Counted(r', items + [Item(x, false)]) && r' == r.(watermarks := r'.watermarks)
            && Delivers(p, items + [Item(x, false)], |items|)
  {
    var items' := items + [Item(x, false)];
    CountedNext(r, Numbered(r, x).0, items, Item(x, false));
    assert items'[..|items|] == items && items'[|items|].raised == x;
    if x.note.Some? { assert Watermark(r, x.note.value.sessionId) == Count(items, x.note.value.sessionId); }
  }

  /** One notification while packets are held back, and while a client is attached. */
  lemma NotifyDelivers(r: Router, items: seq<Item>, start: nat, held: seq<Packet>, x: Raised)
    requires Counted(r, items) && start <= |items|
    ensures var (o, items') := (Notify(r, x), items + [Item(x, false)]);
            && Counted(o.router, items')
            && (r.attaching && OneForOne(held + r.pending, r.disabled, items, start) ==>
                  && OneForOne(held + o.router.pending, r.disabled, items', start)
                  && |o.router.pending| == |r.pending| + if Passes(r.disabled, x) then 1 else 0)
            && (!r.attaching && r.attached && OneForOne(held, r.disabled, items, start) ==>
                  OneForOne(held + o.sent, r.disabled, items', start))
  {
    hide Numbered, Counted, Delivers, OneForOne;
    var (o, item) := (Notify(r, x), Item(x, false));
    var (r', p) := Numbered(r, x);
    NumberedDelivers(r, items, x);
    if Passes(r.disabled, x) {
      SameCounted(r', o.router, items + [item]);
      if r.attaching && OneForOne(held + r.pending, r.disabled, items, start) {
        OneMore(held + r.pending, [p], r.disabled, items, item, start);
        assert held + (r.pending + [p]) == held + r.pending + [p];
      }
      if !r.attaching && r.attached && OneForOne(held, r.disabled, items, start) {
        OneMore(held, [p], r.disabled, items, item, start);
      }
    } else {
      CountedNext(r, r, items, item);
      if r.attaching && OneForOne(held + r.pending, r.disabled, items, start) {
        OneMore(held + r.pending, [], r.disabled, items, item, start);
        assert held + r.pending + [] == held + r.pending;
      }
      if OneForOne(held, r.disabled, items, start) { OneMore(held, [], r.disabled, items, item, start); }
    }
  }

  lemma SameCounted(r: Router, r': Router, items: seq<Item>)
    requires Counted(r, items) && r'.watermarks == r.watermarks
    ensures Counted(r', items)
  {
  }

  lemma {:induction false} NotifyAllDelivers(r: Router, items: seq<Item>, start: nat, held: seq<Packet>,
                                             xs: seq<Raised>)
    requires Counted(r, items) && start <= |items| && r.attaching
    requires OneForOne(held + r.pending, r.disabled, items, start)
    ensures var (r', items') := (NotifyAll(r, xs).router, items + Own(xs));
            && Counted(r', items') && OneForOne(held + r'.pending, r.disabled, items', start)
            && |r'.pending| == |r.pending| + Passing(r.disabled, xs)
    decreases |xs|
  {
    hide Notify, Counted, OneForOne, Passes;
    if xs == [] {
      assert items + Own(xs) == items;
    } else {
      var r1, items1 := Notify(r, xs[0]).router, items + [Item(xs[0], false)];
      NotifyDelivers(r, items, start, held, xs[0]);
      NotifyKeeps(r, xs[0]);
      NotifyAllDelivers(r1, items1, start, held, xs[1..]);
      assert items1 + Own(xs[1..]) == items + Own(xs);
    }
  }

  lemma NotifyKeeps(r: Router, x: Raised)
    ensures var r' := Notify(r, x).router;
            r'.attaching == r.attaching && r'.attached == r.attached && r'.disabled == r.disabled
  {
  }

  // ---- the flush -----------------------------------------------------------

  /** What is raised during one batch of sends. */
  function InBatch(sends: nat, script: seq<seq<Raised>>): seq<Raised>
    decreases |script|
  {
    if sends == 0 || script == [] then [] else script[0] + InBatch(sends - 1, script[1..])
  }

  lemma {:induction false} PassingConcat(disabled: set<string>, a: seq<Raised>, b: seq<Raised>)
    ensures Passing(disabled, a + b) == Passing(disabled, a) + Passing(disabled, b)
    decreases |a|
  {
    if a == [] {
      assert a + b == b;
    } else {
      assert (a + b)[0] == a[0] && (a + b)[1..] == a[1..] + b;
      PassingConcat(disabled, a[1..], b);
    }
  }

  lemma LaterNext(sends: nat, script: seq<seq<Raised>>)
    requires sends > 0 && script != []
    ensures Later(sends, script) == Later(sends - 1, script[1..])
  {
  }

  lemma NoneLater(sends: nat)
    ensures Later(sends, []) == [] && Later(0, []) == []
  {
  }

  /** Sending batch after batch, or packet after packet, the same is raised. */
  lemma {:induction false} BatchThenRest(disabled: set<string>, sends: nat, more: nat, script: seq<seq<Raised>>)
    ensures WhileSending(disabled, sends + more, script)
         == InBatch(sends, script)
            + WhileSending(disabled, more + Passing(disabled, InBatch(sends, script)), Later(sends, script))
    decreases |script|
  {
    hide Passing, Later;
    if script == [] {
      NoneLater(sends);
    } else if sends == 0 {
      assert Later(0, script) == script by { AllLater(script); }
      assert Passing(disabled, []) == 0 by { NonePassing(disabled); }
      var all := WhileSending(disabled, more, script);
      assert [] + all == all;
    } else {
      var first, rest := script[0], script[1..];
      var n, batch := Passing(disabled, first), InBatch(sends - 1, rest);
      BatchThenRest(disabled, sends - 1, more + n, rest);
      PassingConcat(disabled, first, batch);
      LaterNext(sends, script);
      var later := WhileSending(disabled, more + n + Passing(disabled, batch), Later(sends - 1, rest));
      assert WhileSending(disabled, sends + more, script)
          == first + WhileSending(disabled, (sends - 1) + (more + n), rest);
      assert first + (batch + later) == (first + batch) + later;
    }
  }

  lemma AllLater(script: seq<seq<Raised>>)
    ensures Later(0, script) == script
  {
  }

  lemma NonePassing(disabled: set<string>)
    ensures Passing(disabled, []) == 0
  {
  }

  lemma {:induction false} MeanwhileDelivers(r: Router, items: seq<Item>, start: nat, held: seq<Packet>, sends: nat,
                                             script: seq<seq<Raised>>)
    requires Counted(r, items) && start <= |items| && r.attaching
    requires OneForOne(held + r.pending, r.disabled, items, start)
    ensures var (r', items') := (Meanwhile(r, sends, script), items + Own(InBatch(sends, script)));
            && Counted(r', items') && OneForOne(held + r'.pending, r.disabled, items', start)
            && |r'.pending| == |r.pending| + Passing(r.disabled, InBatch(sends, script))
    decreases |script|
  {
    hide NotifyAll, Counted, OneForOne, Passes;
    if sends == 0 || script == [] {
      assert items + Own(InBatch(sends, script)) == items;
    } else {
      var r1, items1 := NotifyAll(r, script[0]).router, items + Own(script[0]);
      NotifyAllDelivers(r, items, start, held, script[0]);
      NotifyAllKeeps(r, script[0]);
      MeanwhileDelivers(r1, items1, start, held, sends - 1, script[1..]);
      PassingConcat(r.disabled, script[0], InBatch(sends - 1, script[1..]));
      assert items1 + Own(InBatch(sends - 1, script[1..])) == items + Own(InBatch(sends, script));
    }
  }

  lemma OwnConcat(items: seq<Item>, a: seq<Raised>, b: seq<Raised>)
    ensures items + Own(a) + Own(b) == items + Own(a + b)
  {
  }

  lemma FlushBatch(r: Router, script: seq<seq<Raised>>)
    requires r.attaching && r.pending != []
    ensures var r', later := Meanwhile(r.(pending := []), |r.pending|, script), Later(|r.pending|, script);
            && Flush(r, script).router == Flush(r', later).router
            && Flush(r, script).sent == r.pending + Flush(r', later).sent
            && r'.attaching && r'.disabled == r.disabled
            && (|later| < |script| || (|later| == |script| && |r'.pending| < |r.pending|))
  {
    MeanwhileKeeps(r.(pending := []), |r.pending|, script);
    if script == [] { NothingMeanwhile(r.(pending := []), |r.pending|); }
  }

  lemma FlushNothing(r: Router, script: seq<seq<Raised>>)
    requires r.pending == []
    ensures Flush(r, script) == Routed(r.(attaching := false, attached := true), [])
    ensures WhileSending(r.disabled, 0, script) == [] && Own([]) == []
  {
  }

  lemma {:induction false} FlushDelivers(r: Router, items: seq<Item>, start: nat, held: seq<Packet>,
                                         script: seq<seq<Raised>>)
    requires Counted(r, items) && start <= |items| && r.attaching
    requires OneForOne(held + r.pending, r.disabled, items, start)
    ensures var o := Flush(r, script);
            var items' := items + Own(WhileSending(r.disabled, |r.pending|, script));
            Counted(o.router, items') && OneForOne(held + o.sent, r.disabled, items', start)
    decreases |script|, |r.pending|
  {
    hide Meanwhile, Counted, OneForOne, Passing, Flush, Own, WhileSending, Later;
    if r.pending == [] {
      FlushNothing(r, script);
      assert items + [] == items && held + [] == held && held + r.pending == held;
      SameCounted(r, Flush(r, script).router, items);
    } else {
      var n, emptied, sent := |r.pending|, r.(pending := []), held + r.pending;
      var r', later := Meanwhile(emptied, n, script), Later(n, script);
      var batch := InBatch(n, script);
      SameCounted(r, emptied, items);
      assert sent + [] == sent;
      MeanwhileDelivers(emptied, items, start, sent, n, script);
      FlushBatch(r, script);
      BatchThenRest(r.disabled, n, 0, script);
      FlushDelivers(r', items + Own(batch), start, sent, later);
      OwnConcat(items, batch, WhileSending(r.disabled, |r'.pending|, later));
      assert sent + Flush(r', later).sent == held + (r.pending + Flush(r', later).sent);
    }
  }

  // ---- whole runs ----------------------------------------------------------

  /** The connection has handed its client what the log says. */
  ghost predicate Delivered(c: Connection, l: Log) {
    && !c.router.attaching && c.router.pending == [] && c.router.attached == l.attached && l.start <= |l.items|
    && Counted(c.router, l.items)
    && (l.attached ==> OneForOne(c.received, c.router.disabled, l.items, l.start))
  }

  lemma NothingDue(disabled: set<string>, items: seq<Item>)
    ensures OneForOne([], disabled, items, |items|)
  {
  }

  /** Up to the flush of an attach. */
  lemma QueuedDelivers(r: Router, items: seq<Item>, start: nat, held: seq<Packet>, before: seq<Raised>,
                       after: seq<Raised>)
    requires Counted(r, items) && start <= |items| && OneForOne(held, r.disabled, items, start)
    ensures var ready := NotifyAll(NotifyAll(Begin(r), before).router, after).router;
            && Counted(ready, items + Own(before + after)) && ready.attaching && ready.disabled == r.disabled
            && OneForOne(held + ready.pending, r.disabled, items + Own(before + after), start)
            && |ready.pending| == Passing(r.disabled, before + after)
  {
    hide NotifyAll, Counted, OneForOne, Passing;
    var begun := Begin(r);
    var taken := NotifyAll(begun, before).router;
    SameCounted(r, begun, items);
    assert held + [] == held;
    NotifyAllDelivers(begun, items, start, held, before);
    NotifyAllKeeps(begun, before);
    NotifyAllDelivers(taken, items + Own(before), start, held, after);
    NotifyAllKeeps(taken, after);
    PassingConcat(r.disabled, before, after);
    assert items + Own(before) + Own(after) == items + Own(before + after);
  }

  lemma AttachDelivers(c: Connection, l: Log, sessionId: string, step: Step)
    requires Delivered(c, l) && step.Attach?
    ensures Delivered(Next(c, sessionId, step), Logs(l, c.router.disabled, step))
  {
    hide NotifyAll, Flush, Counted, OneForOne, Passing, WhileSending, Watermark;
    var r, items, disabled := c.router, l.items, c.router.disabled;
    var queue := step.before + step.after;
    var ready := NotifyAll(NotifyAll(Begin(r), step.before).router, step.after).router;
    var sending := WhileSending(disabled, Passing(disabled, queue), step.script);
    var start := if step.ok || !l.attached then |items| else l.start;
    var held := if step.ok || !l.attached then [] else c.received;
    NothingDue(disabled, items);
    QueuedDelivers(r, items, start, held, step.before, step.after);
    if step.ok || l.attached {
      FlushDelivers(ready, items + Own(queue), start, held, step.script);
      FlushEnds(ready, step.script);
      assert items + Own(queue) + Own(sending) == items + Own(queue + sending);
      assert [] + Flush(ready, step.script).sent == Flush(ready, step.script).sent;
    } else {
      SameCounted(ready, Abandon(ready), items + Own(queue));
    }
  }

  lemma {:induction false} FlushEnds(r: Router, script: seq<seq<Raised>>)
    requires r.attaching
    ensures var r' := Flush(r, script).router;
            !r'.attaching && r'.attached && r'.pending == [] && r'.disabled == r.disabled
    decreases |script|, |r.pending|
  {
    if r.pending != [] {
      MeanwhileKeeps(r.(pending := []), |r.pending|, script);
      if script == [] { NothingMeanwhile(r.(pending := []), |r.pending|); }
      FlushEnds(Meanwhile(r.(pending := []), |r.pending|, script), Later(|r.pending|, script));
    }
  }

  lemma StepDelivers(c: Connection, l: Log, sessionId: string, step: Step)
    requires Delivered(c, l)
    ensures Delivered(Next(c, sessionId, step), Logs(l, c.router.disabled, step))
    ensures Next(c, sessionId, step).router.disabled == c.router.disabled
  {
    hide NotifyAll, Flush, Counted, OneForOne, Passing, WhileSending;
    match step {
      case Attach(before, after, script, ok) =>
        AttachDelivers(c, l, sessionId, step);
        var ready := NotifyAll(NotifyAll(Begin(c.router), before).router, after).router;
        NotifyAllKeeps(Begin(c.router), before);
        NotifyAllKeeps(NotifyAll(Begin(c.router), before).router, after);
        FlushEnds(ready, script);
      case Detach => SameCounted(c.router, Abandon(c.router), l.items);
      case Raise(x) =>
        NotifyDelivers(c.router, l.items, l.start, c.received, x);
        NotifyKeeps(c.router, x);
        NotHeld(c.router, x);
      case RaiseChild(note) =>
        var item := Item(Raised("", Some(note)), true);
        CountedNext(c.router, Bump(c.router, note.sessionId), l.items, item);
        if l.attached {
          OneMore(c.received, [], c.router.disabled, l.items, item, l.start);
          assert c.received + [] == c.received;
        }
    }
  }

  lemma NotHeld(r: Router, x: Raised)
    requires !r.attaching
    ensures Notify(r, x).router.pending == r.pending
  {
  }

  lemma {:induction false} RunDelivers(c: Connection, l: Log, sessionId: string, steps: seq<Step>)
    requires Delivered(c, l)
    ensures Delivered(Run(c, sessionId, steps), LogsAll(l, c.router.disabled, steps))
    ensures Run(c, sessionId, steps).router.disabled == c.router.disabled
    decreases |steps|
  {
    hide Next, Logs, Delivered;
    if steps != [] {
      StepDelivers(c, l, sessionId, steps[0]);
      RunDelivers(Next(c, sessionId, steps[0]), Logs(l, c.router.disabled, steps[0]), sessionId, steps[1..]);
    }
  }

  /** Main result: over any run, what an attached client has received since its
      attach began is, one for one and in order, what was raised since, but for the
      child's own and for what is both disabled and no event; each packet is its
      notification, an event under the number after those its session had. */
  lemma EachIsDelivered(disabled: set<string>, sessionId: string, steps: seq<Step>)
    ensures var c := Run(Connection(Router(map[], false, false, [], disabled), [], None), sessionId, steps);
            var l := LogsAll(Log([], 0, false), disabled, steps);
            && c.router.attached == l.attached && l.start <= |l.items|
            && (forall s :: Watermark(c.router, s) == Count(l.items, s))
            && (c.router.attached ==> OneForOne(c.received, disabled, l.items, l.start))
  {
    hide Run, LogsAll, OneForOne, Count;
    var c0 := Connection(Router(map[], false, false, [], disabled), [], None);
    assert Delivered(c0, Log([], 0, false)) by { NothingCounted(c0.router); }
    RunDelivers(c0, Log([], 0, false), sessionId, steps);
  }

  lemma NothingCounted(r: Router)
    requires r.watermarks == map[]
    ensures Counted(r, [])
  {
  }
}
