/** Numbering notifications per session, and sending, holding back or dropping
    them while a client attaches. */
module Router {
  import opened Prelude
  import opened Client

  /** A notification as raised: its method, and the note when it is an event. */
  datatype Raised = Raised(name: string, note: Option<Note>)

  datatype Router = Router(
    watermarks: map<string, nat>, attaching: bool, attached: bool, pending: seq<Packet>, disabled: set<string>)

  datatype Routed = Routed(router: Router, sent: seq<Packet>)

  function Watermark(r: Router, sessionId: string): nat {
    if sessionId in r.watermarks then r.watermarks[sessionId] else 0
  }

  /** A note that carries a state carries the watermark in it too. */
  function Stamped(note: Note, id: nat): Note {
    match note
    case Snapshot(s, state) => Snapshot(s, state.(eventId := id))
    case Handoff(s, o, state) => Handoff(s, o, state.(eventId := id))
    case _ => note
  }

  function Bump(r: Router, sessionId: string): Router {
    r.(watermarks := r.watermarks[sessionId := Watermark(r, sessionId) + 1])
  }

  function Numbered(r: Router, x: Raised): (Router, Packet) {
    match x.note
    case None => (r, Aside(x.name))
    case Some(note) =>
      var id := Watermark(r, note.sessionId) + 1;
      (Bump(r, note.sessionId), Event(id, Stamped(note, id)))
  }

  function Notify(r: Router, x: Raised): Routed {
    if x.name in r.disabled && x.note.None? then Routed(r, [])
    else
      var (r', p) := Numbered(r, x);
      if r'.attaching then Routed(r'.(pending := r'.pending + [p]), [])
      else if !r'.attached then Routed(r', [])
      else Routed(r', [p])
  }

  function NotifyAll(r: Router, xs: seq<Raised>): Routed
    decreases |xs|
  {
    if xs == [] then Routed(r, [])
    else
      var first := Notify(r, xs[0]);
      var rest := NotifyAll(first.router, xs[1..]);
      Routed(rest.router, first.sent + rest.sent)
  }

  function Begin(r: Router): Router { r.(attaching := true, attached := false, pending := []) }

  function Abandon(r: Router): Router { r.(attaching := false, attached := false, pending := []) }

  /** What the other tasks raise during the sends of one batch. */
  function Meanwhile(r: Router, sends: nat, script: seq<seq<Raised>>): Router
    decreases |script|
  {
    if sends == 0 || script == [] then r else Meanwhile(NotifyAll(r, script[0]).router, sends - 1, script[1..])
  }

  function Later(sends: nat, script: seq<seq<Raised>>): seq<seq<Raised>> {
    if sends <= |script| then script[sends..] else []
  }

  lemma {:induction false} MeanwhileKeeps(r: Router, sends: nat, script: seq<seq<Raised>>)
    requires r.attaching
    ensures Meanwhile(r, sends, script).attaching && Meanwhile(r, sends, script).disabled == r.disabled
    decreases |script|
  {
    if sends != 0 && script != [] {
      NotifyAllKeeps(r, script[0]);
      MeanwhileKeeps(NotifyAll(r, script[0]).router, sends - 1, script[1..]);
    }
  }

  lemma {:induction false} NotifyAllKeeps(r: Router, xs: seq<Raised>)
    ensures var o := NotifyAll(r, xs);
            o.router.attaching == r.attaching && o.router.attached == r.attached && o.router.disabled == r.disabled
    ensures r.attaching || !r.attached ==> NotifyAll(r, xs).sent == []
    decreases |xs|
  {
    if xs != [] { NotifyAllKeeps(Notify(r, xs[0]).router, xs[1..]); }
  }

  /** Batch after batch until nothing is held back, then attached. */
  function Flush(r: Router, script: seq<seq<Raised>>): Routed
    decreases |script|, |r.pending|
  {
    if r.pending == [] then Routed(r.(attaching := false, attached := true), [])
    else
      var rest := Flush(Meanwhile(r.(pending := []), |r.pending|, script), Later(|r.pending|, script));
      Routed(rest.router, r.pending + rest.sent)
  }

  // ---- the class -----------------------------------------------------------

  /** The part of the app server that numbers and routes notifications.  `wire`
      is everything handed to the transport. */
  class AppServer {
    var eventWatermarks: map<string, nat>
    var attaching: bool
    var connectionAttached: bool
    var pendingNotifications: seq<Packet>
    var disabledNotifications: set<string>
    var wire: seq<Packet>

    function Model(): Router
      reads this
    {
      Router(eventWatermarks, attaching, connectionAttached, pendingNotifications, disabledNotifications)
    }

    constructor (disabled: set<string>)
      ensures Model() == Router(map[], false, false, [], disabled) && wire == []
    {
      eventWatermarks := map[];
      attaching, connectionAttached := false, false;
      pendingNotifications, wire := [], [];
      disabledNotifications := disabled;
    }

    method SequenceNotification(x: Raised) returns (p: Packet)
      modifies this`eventWatermarks
      ensures (Model(), p) == Numbered(old(Model()), x)
    {
      if x.note.None? { return Aside(x.name); }
      var note := x.note.value;
      var id := (if note.sessionId in eventWatermarks then eventWatermarks[note.sessionId] else 0) + 1;
      eventWatermarks := eventWatermarks[note.sessionId := id];
      return Event(id, Stamped(note, id));
    }

    method NotifyClient(x: Raised)
      modifies this
      ensures Model() == Notify(old(Model()), x).router
      ensures wire == old(wire) + Notify(old(Model()), x).sent
    {
      if x.name in disabledNotifications && x.note.None? { return; }
      var p := SequenceNotification(x);
      if attaching {
        pendingNotifications := pendingNotifications + [p];
        return;
      }
      if !connectionAttached { return; }
      wire := wire + [p];
    }

    method BeginAttachment()
      modifies this
      ensures Model() == Begin(old(Model())) && wire == old(wire)
    {
      attaching, connectionAttached, pendingNotifications := true, false, [];
    }

    /** Other tasks at work while a send is suspended. */
    method Interleave(xs: seq<Raised>)
      requires attaching
      modifies this
      ensures Model() == NotifyAll(old(Model()), xs).router && wire == old(wire) && attaching
    {
      assert xs[0..] == xs;
      for i := 0 to |xs|
        invariant attaching && wire == old(wire)
        invariant NotifyAll(old(Model()), xs).router == NotifyAll(Model(), xs[i..]).router
      {
        assert xs[i..][0] == xs[i] && xs[i..][1..] == xs[i + 1..];
        NotifyClient(xs[i]);
      }
      assert xs[|xs|..] == [];
    }

    /** Sends a batch; `script[k]` is raised while its k-th send is suspended. */
    method SendBatch(batch: seq<Packet>, script: seq<seq<Raised>>) returns (upcoming: seq<seq<Raised>>)
      requires attaching
      modifies this
      ensures Model() == Meanwhile(old(Model()), |batch|, script) && attaching
      ensures wire == old(wire) + batch && upcoming == Later(|batch|, script)
    {
      upcoming := script;
      assert batch[..0] == [];
      for i := 0 to |batch|
        invariant attaching && wire == old(wire) + batch[..i]
        invariant Meanwhile(old(Model()), |batch|, script) == Meanwhile(Model(), |batch| - i, upcoming)
        invariant upcoming == Later(i, script)
      {
        wire := wire + [batch[i]];
        assert batch[..i + 1] == batch[..i] + [batch[i]];
        if upcoming != [] {
          Interleave(upcoming[0]);
          upcoming := upcoming[1..];
        }
      }
      assert batch[..|batch|] == batch;
    }

    method FinishAttachment(attached: bool, script: seq<seq<Raised>>)
      requires attaching
      modifies this
      ensures !attached ==> Model() == Abandon(old(Model())) && wire == old(wire)
      ensures attached ==> Model() == Flush(old(Model()), script).router
      ensures attached ==> wire == old(wire) + Flush(old(Model()), script).sent
    {
      if !attached {
        attaching, connectionAttached, pendingNotifications := false, false, [];
        return;
      }
      var upcoming := script;
      ghost var whole := Flush(Model(), script);
      while pendingNotifications != []
        invariant attaching
        invariant whole.router == Flush(Model(), upcoming).router
        invariant old(wire) + whole.sent == wire + Flush(Model(), upcoming).sent
        decreases |upcoming|, |pendingNotifications|
      {
        var batch := pendingNotifications;
        ghost var sentBefore := wire;
        pendingNotifications := [];
        upcoming := SendBatch(batch, upcoming);
        assert sentBefore + (batch + Flush(Model(), upcoming).sent) == wire + Flush(Model(), upcoming).sent;
      }
      attaching, connectionAttached := false, true;
      assert wire + [] == wire;
    }
  }

  // ---- the attach protocol over whole runs ---------------------------------

  /** The numbers of a session's events, in order. */
  function Ids(sessionId: string, ps: seq<Packet>): seq<int> {
    if ps == [] then []
    else (if ps[0].Event? && ps[0].note.sessionId == sessionId then [ps[0].id] else []) + Ids(sessionId, ps[1..])
  }

  lemma {:induction false} IdsConcat(sessionId: string, a: seq<Packet>, b: seq<Packet>)
    ensures Ids(sessionId, a + b) == Ids(sessionId, a) + Ids(sessionId, b)
    decreases |a|
  {
    if a == [] {
      assert a + b == b;
    } else {
      assert (a + b)[0] == a[0] && (a + b)[1..] == a[1..] + b;
      IdsConcat(sessionId, a[1..], b);
    }
  }

  /** The numbers from lo up to and including hi. */
  function Range(lo: nat, hi: int): seq<int>
    decreases hi
  {
    if lo > hi then [] else Range(lo, hi - 1) + [hi]
  }

  lemma {:induction false} RangeAfter(lo: nat, w: nat, hi: nat)
    requires lo <= w + 1 && w <= hi
    ensures Above(w, Range(lo, hi)) == Range(w + 1, hi)
    decreases hi
  {
    if hi > w {
      RangeAfter(lo, w, hi - 1);
      AboveConcat(w, Range(lo, hi - 1), [hi]);
      assert [hi][1..] == [];
    } else {
      NoneAbove(lo, w);
    }
  }

  lemma {:induction false} NoneAbove(lo: nat, w: nat)
    ensures Above(w, Range(lo, w)) == []
  {
    NoneAboveUpTo(lo, w, w);
  }

  lemma {:induction false} NoneAboveUpTo(lo: nat, w: nat, hi: int)
    requires hi <= w
    ensures Above(w, Range(lo, hi)) == []
    decreases hi
  {
    if lo <= hi {
      NoneAboveUpTo(lo, w, hi - 1);
      AboveConcat(w, Range(lo, hi - 1), [hi]);
      assert [hi][1..] == [];
    }
  }

  /** What is left of a sequence of numbers without those at or below w. */
  function Above(w: nat, ids: seq<int>): seq<int> {
    if ids == [] then [] else (if ids[0] > w then [ids[0]] else []) + Above(w, ids[1..])
  }

  lemma {:induction false} AboveConcat(w: nat, a: seq<int>, b: seq<int>)
    ensures Above(w, a + b) == Above(w, a) + Above(w, b)
    decreases |a|
  {
    if a == [] {
      assert a + b == b;
    } else {
      assert (a + b)[0] == a[0] && (a + b)[1..] == a[1..] + b;
      AboveConcat(w, a[1..], b);
    }
  }

  /** A connection: the router, what its client received since the answer of its
      last successful attach, and the watermark in that answer. */
  datatype Connection = Connection(router: Router, received: seq<Packet>, snapshot: Option<nat>)

  /** One step.  In an attach, notifications are raised before its state is
      taken, before its answer is sent, and while it flushes. */
  datatype Step =
    | Raise(x: Raised)
    | RaiseChild(note: Note)
    | Attach(before: seq<Raised>, after: seq<Raised>, script: seq<seq<Raised>>, ok: bool)
    | Detach

  function Next(c: Connection, sessionId: string, step: Step): Connection {
    match step
    case Raise(x) => var o := Notify(c.router, x); c.(router := o.router, received := c.received + o.sent)
    case RaiseChild(note) => c.(router := Bump(c.router, note.sessionId))
    case Attach(before, after, script, ok) =>
      var taken := NotifyAll(Begin(c.router), before).router;
      var ready := NotifyAll(taken, after).router;
      if ok then
        var o := Flush(ready, script);
        Connection(o.router, o.sent, Some(Watermark(taken, sessionId)))
      else if c.router.attached then
        var o := Flush(ready, script);
        c.(router := o.router, received := c.received + o.sent)
      else c.(router := Abandon(ready))
    case Detach => Connection(Abandon(c.router), [], None)
  }

  function Run(c: Connection, sessionId: string, steps: seq<Step>): Connection
    decreases |steps|
  {
    if steps == [] then c else Run(Next(c, sessionId, steps[0]), sessionId, steps[1..])
  }

  /** The numbers held are the ones up to the watermark, without a gap. */
  predicate UpTo(r: Router, sessionId: string, lo: nat, ps: seq<Packet>) {
    lo <= Watermark(r, sessionId) + 1 && Ids(sessionId, ps) == Range(lo, Watermark(r, sessionId))
  }

  /** One more packet under the next number, or one without a number. */
  lemma UpToNext(r: Router, r': Router, sessionId: string, lo: nat, ps: seq<Packet>, p: Packet)
    requires UpTo(r, sessionId, lo, ps)
    requires if p.Event? && p.note.sessionId == sessionId
             then p.id == Watermark(r, sessionId) + 1 == Watermark(r', sessionId)
             else Watermark(r', sessionId) == Watermark(r, sessionId)
    ensures UpTo(r', sessionId, lo, ps + [p])
  {
    hide Watermark;
    IdsConcat(sessionId, ps, [p]);
    assert [p][1..] == [];
    assert Ids(sessionId, [p]) == if p.Event? && p.note.sessionId == sessionId then [p.id] else [];
    assert Ids(sessionId, ps) + [] == Ids(sessionId, ps);
  }

  lemma NumberedNext(r: Router, sessionId: string, x: Raised)
    ensures var (r', p) := Numbered(r, x);
            if p.Event? && p.note.sessionId == sessionId
            then p.id == Watermark(r, sessionId) + 1 == Watermark(r', sessionId)
            else Watermark(r', sessionId) == Watermark(r, sessionId)
  {
  }

  lemma NotifyHolds(r: Router, sessionId: string, x: Raised, lo: nat, held: seq<Packet>)
    requires r.attaching && UpTo(r, sessionId, lo, held + r.pending)
    ensures UpTo(Notify(r, x).router, sessionId, lo, held + Notify(r, x).router.pending)
  {
    hide UpTo, Numbered;
    if !(x.name in r.disabled && x.note.None?) {
      var (r1, p) := Numbered(r, x);
      NumberedKeeps(r, x);
      NumberedNext(r, sessionId, x);
      UpToNext(r, r1, sessionId, lo, held + r.pending, p);
      assert held + (r.pending + [p]) == held + r.pending + [p];
      SameMarks(r1, Notify(r, x).router, sessionId, lo, held + r.pending + [p]);
    }
  }

  lemma NumberedKeeps(r: Router, x: Raised)
    ensures var r' := Numbered(r, x).0; r' == r.(watermarks := r'.watermarks)
  {
  }

  lemma SameMarks(r: Router, r': Router, sessionId: string, lo: nat, ps: seq<Packet>)
    requires UpTo(r, sessionId, lo, ps) && r'.watermarks == r.watermarks
    ensures UpTo(r', sessionId, lo, ps)
  {
  }

  lemma {:induction false} NotifyAllHolds(r: Router, sessionId: string, xs: seq<Raised>, lo: nat, held: seq<Packet>)
    requires r.attaching && UpTo(r, sessionId, lo, held + r.pending)
    ensures UpTo(NotifyAll(r, xs).router, sessionId, lo, held + NotifyAll(r, xs).router.pending)
    decreases |xs|
  {
    if xs != [] {
      NotifyHolds(r, sessionId, xs[0], lo, held);
      NotifyAllHolds(Notify(r, xs[0]).router, sessionId, xs[1..], lo, held);
    }
  }

  lemma {:induction false} MeanwhileHolds(r: Router, sessionId: string, sends: nat, script: seq<seq<Raised>>,
                                          lo: nat, held: seq<Packet>)
    requires r.attaching && UpTo(r, sessionId, lo, held + r.pending)
    ensures UpTo(Meanwhile(r, sends, script), sessionId, lo, held + Meanwhile(r, sends, script).pending)
    decreases |script|
  {
    if sends != 0 && script != [] {
      NotifyAllKeeps(r, script[0]);
      NotifyAllHolds(r, sessionId, script[0], lo, held);
      MeanwhileHolds(NotifyAll(r, script[0]).router, sessionId, sends - 1, script[1..], lo, held);
    }
  }

  lemma {:induction false} FlushHolds(r: Router, sessionId: string, script: seq<seq<Raised>>, lo: nat,
                                      held: seq<Packet>)
    requires r.attaching && UpTo(r, sessionId, lo, held + r.pending)
    ensures var o := Flush(r, script);
            && o.router.pending == [] && o.router.attached && !o.router.attaching
            && UpTo(o.router, sessionId, lo, held + o.sent)
    decreases |script|, |r.pending|
  {
    hide UpTo, Meanwhile;
    if r.pending == [] {
      assert held + [] == held;
      SameMarks(r, r.(attaching := false, attached := true), sessionId, lo, held);
    } else {
      var emptied, sent := r.(pending := []), held + r.pending;
      var r', later := Meanwhile(emptied, |r.pending|, script), Later(|r.pending|, script);
      assert sent + [] == sent;
      SameMarks(r, emptied, sessionId, lo, sent);
      MeanwhileKeeps(emptied, |r.pending|, script);
      MeanwhileHolds(emptied, sessionId, |r.pending|, script, lo, sent);
      if script == [] { NothingMeanwhile(emptied, |r.pending|); }
      FlushHolds(r', sessionId, later, lo, sent);
      assert sent + Flush(r', later).sent == held + (r.pending + Flush(r', later).sent);
    }
  }

  lemma NothingMeanwhile(r: Router, sends: nat)
    ensures Meanwhile(r, sends, []) == r
  {
  }

  /** What holds of a connection at every step. */
  ghost predicate InOrder(c: Connection, sessionId: string) {
    && !c.router.attaching && c.router.pending == []
    && (c.router.attached ==>
          c.snapshot.Some? && c.snapshot.value <= Watermark(c.router, sessionId)
          && exists lo: nat :: lo <= c.snapshot.value + 1 && UpTo(c.router, sessionId, lo, c.received))
  }

  lemma {:induction false} WatermarksGrow(r: Router, sessionId: string, xs: seq<Raised>)
    ensures Watermark(r, sessionId) <= Watermark(NotifyAll(r, xs).router, sessionId)
    decreases |xs|
  {
    if xs != [] { WatermarksGrow(Notify(r, xs[0]).router, sessionId, xs[1..]); }
  }

  lemma {:induction false} MeanwhileGrows(r: Router, sessionId: string, sends: nat, script: seq<seq<Raised>>)
    ensures Watermark(r, sessionId) <= Watermark(Meanwhile(r, sends, script), sessionId)
    decreases |script|
  {
    if sends != 0 && script != [] {
      WatermarksGrow(r, sessionId, script[0]);
      MeanwhileGrows(NotifyAll(r, script[0]).router, sessionId, sends - 1, script[1..]);
    }
  }

  lemma {:induction false} FlushGrows(r: Router, sessionId: string, script: seq<seq<Raised>>)
    ensures Watermark(r, sessionId) <= Watermark(Flush(r, script).router, sessionId)
    decreases |script|, |r.pending|
  {
    if r.pending != [] {
      MeanwhileGrows(r.(pending := []), sessionId, |r.pending|, script);
      FlushGrows(Meanwhile(r.(pending := []), |r.pending|, script), sessionId, Later(|r.pending|, script));
    }
  }

  lemma AttachKeeps(c: Connection, sessionId: string, step: Step)
    requires InOrder(c, sessionId) && step.Attach?
    ensures InOrder(Next(c, sessionId, step), sessionId)
  {
    var begun := Begin(c.router);
    var taken := NotifyAll(begun, step.before).router;
    var ready := NotifyAll(taken, step.after).router;
    NotifyAllKeeps(begun, step.before);
    NotifyAllKeeps(taken, step.after);
    WatermarksGrow(begun, sessionId, step.before);
    WatermarksGrow(taken, sessionId, step.after);
    FlushGrows(ready, sessionId, step.script);
    if step.ok {
      var lo := Watermark(begun, sessionId) + 1;
      assert UpTo(begun, sessionId, lo, [] + begun.pending);
      NotifyAllHolds(begun, sessionId, step.before, lo, []);
      NotifyAllHolds(taken, sessionId, step.after, lo, []);
      FlushHolds(ready, sessionId, step.script, lo, []);
      assert [] + Flush(ready, step.script).sent == Flush(ready, step.script).sent;
    } else if c.router.attached {
      var lo: nat :| lo <= c.snapshot.value + 1 && UpTo(c.router, sessionId, lo, c.received);
      assert c.received + begun.pending == c.received;
      NotifyAllHolds(begun, sessionId, step.before, lo, c.received);
      NotifyAllHolds(taken, sessionId, step.after, lo, c.received);
      FlushHolds(ready, sessionId, step.script, lo, c.received);
    }
  }

  lemma RaiseKeeps(c: Connection, sessionId: string, x: Raised)
    requires InOrder(c, sessionId)
    ensures InOrder(Next(c, sessionId, Raise(x)), sessionId)
  {
    hide UpTo, Numbered;
    var o := Notify(c.router, x);
    if c.router.attached {
      var lo: nat :| lo <= c.snapshot.value + 1 && UpTo(c.router, sessionId, lo, c.received);
      if x.name in c.router.disabled && x.note.None? {
        assert c.received + [] == c.received;
      } else {
        var p := Numbered(c.router, x).1;
        NumberedKeeps(c.router, x);
        NumberedNext(c.router, sessionId, x);
        UpToNext(c.router, o.router, sessionId, lo, c.received, p);
      }
      WatermarksGrow(c.router, sessionId, [x]);
      NotifyOne(c.router, x);
      assert UpTo(o.router, sessionId, lo, c.received + o.sent);
    } else {
      NumberedKeeps(c.router, x);
    }
  }

  lemma NotifyOne(r: Router, x: Raised)
    ensures NotifyAll(r, [x]).router == Notify(r, x).router
  {
    assert [x][1..] == [];
  }

  lemma RaiseChildKeeps(c: Connection, sessionId: string, note: Note)
    requires InOrder(c, sessionId) && note.sessionId != sessionId
    ensures InOrder(Next(c, sessionId, RaiseChild(note)), sessionId)
  {
    if c.router.attached {
      var lo: nat :| lo <= c.snapshot.value + 1 && UpTo(c.router, sessionId, lo, c.received);
      assert UpTo(Bump(c.router, note.sessionId), sessionId, lo, c.received);
    }
  }

  lemma {:induction false} RunInOrder(c: Connection, sessionId: string, steps: seq<Step>)
    requires InOrder(c, sessionId)
    requires forall i :: 0 <= i < |steps| && steps[i].RaiseChild? ==> steps[i].note.sessionId != sessionId
    ensures InOrder(Run(c, sessionId, steps), sessionId)
    decreases |steps|
  {
    if steps != [] {
      match steps[0] {
        case Attach(_, _, _, _) => AttachKeeps(c, sessionId, steps[0]);
        case Detach =>
        case Raise(x) => RaiseKeeps(c, sessionId, x);
        case RaiseChild(note) => RaiseChildKeeps(c, sessionId, note);
      }
      RunInOrder(Next(c, sessionId, steps[0]), sessionId, steps[1..]);
    }
  }

  /** Main result: whatever notifications are raised, disabled ones included, and
      however attaches succeed and fail, an attached client whose last state was
      taken at watermark w has received, apart from numbers up to w, exactly
      w + 1, w + 2, ... up to the session's watermark, in order. */
  lemma AttachedReceivesAll(disabled: set<string>, sessionId: string, steps: seq<Step>)
    requires forall i :: 0 <= i < |steps| && steps[i].RaiseChild? ==> steps[i].note.sessionId != sessionId
    ensures var c := Run(Connection(Router(map[], false, false, [], disabled), [], None), sessionId, steps);
            c.router.attached ==>
              && c.snapshot.Some?
              && Above(c.snapshot.value, Ids(sessionId, c.received))
                 == Range(c.snapshot.value + 1, Watermark(c.router, sessionId))
  {
    var c0 := Connection(Router(map[], false, false, [], disabled), [], None);
    RunInOrder(c0, sessionId, steps);
    var c := Run(c0, sessionId, steps);
    if c.router.attached {
      var lo: nat :| lo <= c.snapshot.value + 1 && UpTo(c.router, sessionId, lo, c.received);
      RangeAfter(lo, c.snapshot.value, Watermark(c.router, sessionId));
    }
  }
}
